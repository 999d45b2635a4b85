/** The kernel fibers of fiber.c and fiber.h: one thread group, any number of threads and fibers,
    interleaved one lock, field write, save, unlock or load at a time. */
module KernelFibers {
  import opened FiberStorage
  import opened Options

  const NO_FIBERS := -1

  /** The general registers (instruction pointer, first argument, stack and base pointer, the rest). */
  datatype Regs = Regs(ip: int, di: int, sp: int, bp: int, rest: int)

  datatype Context = Context(regs: Regs, fpu: int)

  /** A completed stay of a fiber on a thread, on that thread's clock. */
  datatype Slice = Slice(thread: int, start: int, end: int)

  /** `holder` is the thread that took the spinlock; the code only sees whether there is one.
      `stampedBy`, the thread whose clock `lastActivation` was read from, and `slices` are history the
      code does not keep. */
  datatype Fiber = Fiber(
    holder: Option<int>,
    state: int,
    saved: Context,
    activations: int,
    failed: int,
    lastActivation: int,
    stampedBy: int,
    running: int,
    fls: SizedFls,
    slices: seq<Slice>)

  datatype Make = ForThread | ForEntry(entry: int, param: int, stackBase: int, stackSize: int)

  datatype Purpose = Converting | Switching

  /** What a thread is about to do. `prev` is NO_FIBERS while a thread is being converted. */
  datatype Pc =
    | User
    | NextFid(make: Make)
    | AddFiber(make: Make, fid: int)
    | SetContext(make: Make, fid: int)
    | TryLock(fid: int, why: Purpose)
    | CheckState(fid: int, why: Purpose)
    | FindOld(fid: int)
    | SetState(fid: int, why: Purpose, prev: int)
    | CountActivation(fid: int, why: Purpose, prev: int)
    | StampTime(fid: int, why: Purpose, prev: int)
    | SetCurrent(fid: int, why: Purpose, prev: int)
    | SaveRegs(fid: int, prev: int)
    | SaveFpu(fid: int, prev: int)
    | Account(fid: int, prev: int)
    | ClearState(fid: int, prev: int)
    | Unlock(fid: int, prev: int)
    | LoadRegs(fid: int)
    | LoadFpu(fid: int)
    | Return(fid: int, make: Make)
    | FlsAllocate(fid: int, idx: FlsIndex)
    | FlsRelease(fid: int, idx: FlsIndex)
    | FlsStore(fid: int, idx: FlsIndex, value: int)

  /** A thread: its live context, its clock, what it does next and what its last call returned. */
  datatype Cpu = Cpu(live: Context, utime: int, pc: Pc, ret: int)

  /** `table` maps a converted thread to its `current_fid`; `published` are the fids returned to callers. */
  datatype World = World(
    fidCount: int,
    table: map<int, int>,
    cpus: map<int, Cpu>,
    fibers: map<int, Fiber>,
    published: set<int>)

  datatype Event =
    | Advance
    | Compute(live: Context)
    | Tick(utime: int)
    | ConvertThread
    | CreateFiber(entry: int, param: int, stackBase: int, stackSize: int)
    | SwitchTo(fid: int)
    | FlsAlloc
    | FlsFree(idx: int)
    | FlsGet(idx: int)
    | FlsSet(idx: int, value: int)

  // ---------------------------------------------------------------- steps

  /** What a step may change: the stepping thread's cpu and table entry, and one fiber. */
  datatype Effect = Effect(
    cpu: Cpu,
    current: Option<int>,
    fiber: Option<(int, Fiber)>,
    publish: Option<int>,
    fidCount: int)

  function Quiet(w: World, cpu: Cpu): Effect {
    Effect(cpu, None, None, None, w.fidCount)
  }

  function Touch(w: World, cpu: Cpu, f: int, fiber: Fiber): Effect {
    Effect(cpu, None, Some((f, fiber)), None, w.fidCount)
  }

  function FreshFiber(context: Context): Fiber {
    Fiber(None, 0, context, 0, 0, 0, 0, 0, Zeroed(), [])
  }

  /** The creation context: the creator's, entered at `entry` with `param` on the new stack. */
  function CreationContext(c: Context, make: Make): Context
    requires make.ForEntry?
  {
    var sp := make.stackBase + make.stackSize - 8;
    c.(regs := c.regs.(ip := make.entry, di := make.param, sp := sp, bp := sp))
  }

  /** A context entered at the entry point with the parameter, on top of the new stack, and otherwise as
      the caller's. */
  ghost predicate EnteredFresh(c: Context, make: Make, caller: Context)
    requires make.ForEntry?
  {
    && c.regs.ip == make.entry && c.regs.di == make.param
    && c.regs.sp == c.regs.bp == make.stackBase + make.stackSize - 8
    && c.regs.rest == caller.regs.rest && c.fpu == caller.fpu
  }

  /** A fiber the code dereferences; the invariant shows it is always there. */
  function At(w: World, f: int): Fiber {
    if f in w.fibers then w.fibers[f] else FreshFiber(Context(Regs(0, 0, 0, 0, 0), 0))
  }

  function FlsOf(w: World, f: int): SizedFls {
    At(w, f).fls
  }

  /** The next step of a thread inside the kernel. */
  ghost function Proceed(w: World, t: int, cpu: Cpu): Effect {
    match cpu.pc
    case User => Quiet(w, cpu)
    case NextFid(make) =>
      Quiet(w, cpu.(pc := AddFiber(make, w.fidCount + 1))).(fidCount := w.fidCount + 1)
    case AddFiber(make, f) =>
      Touch(w, cpu.(pc := if make.ForThread? then TryLock(f, Converting) else SetContext(make, f)),
            f, FreshFiber(cpu.live))
    case SetContext(make, f) =>
      var saved := if make.ForEntry? then CreationContext(At(w, f).saved, make) else At(w, f).saved;
      Touch(w, cpu.(pc := Return(f, make)), f, At(w, f).(saved := saved))
    case TryLock(f, why) =>
      if At(w, f).holder.Some? then
        Touch(w, cpu.(pc := User, ret := -EAGAIN), f, At(w, f).(failed := At(w, f).failed + 1))
      else
        Touch(w, cpu.(pc := CheckState(f, why)), f, At(w, f).(holder := Some(t)))
    case CheckState(f, why) =>
      if At(w, f).state != 0 then
        Touch(w, cpu.(pc := User, ret := -EAGAIN), f, At(w, f).(failed := At(w, f).failed + 1))
      else
        Quiet(w, cpu.(pc := if why.Switching? then FindOld(f) else SetState(f, why, NO_FIBERS)))
    case FindOld(f) =>
      var prev := if t in w.table then w.table[t] else NO_FIBERS;
      if prev !in w.fibers then Quiet(w, cpu.(pc := User, ret := -ESRCH))
      else Quiet(w, cpu.(pc := SetState(f, Switching, prev)))
    case SetState(f, why, prev) =>
      Touch(w, cpu.(pc := CountActivation(f, why, prev)), f, At(w, f).(state := t))
    case CountActivation(f, why, prev) =>
      Touch(w, cpu.(pc := StampTime(f, why, prev)), f, At(w, f).(activations := At(w, f).activations + 1))
    case StampTime(f, why, prev) =>
      Touch(w, cpu.(pc := SetCurrent(f, why, prev)), f, At(w, f).(lastActivation := cpu.utime, stampedBy := t))
    case SetCurrent(f, why, prev) =>
      Quiet(w, cpu.(pc := if why.Switching? then SaveRegs(f, prev) else Return(f, ForThread))).(current := Some(f))
    case SaveRegs(f, prev) =>
      Touch(w, cpu.(pc := SaveFpu(f, prev)), prev, At(w, prev).(saved := At(w, prev).saved.(regs := cpu.live.regs)))
    case SaveFpu(f, prev) =>
      Touch(w, cpu.(pc := Account(f, prev)), prev, At(w, prev).(saved := At(w, prev).saved.(fpu := cpu.live.fpu)))
    case Account(f, prev) =>
      var fb := At(w, prev);
      Touch(w, cpu.(pc := ClearState(f, prev)), prev,
            fb.(running := fb.running + (cpu.utime - fb.lastActivation),
                slices := fb.slices + [Slice(t, fb.lastActivation, cpu.utime)]))
    case ClearState(f, prev) =>
      Touch(w, cpu.(pc := Unlock(f, prev)), prev, At(w, prev).(state := 0))
    case Unlock(f, prev) =>
      Touch(w, cpu.(pc := LoadRegs(f)), prev, At(w, prev).(holder := None))
    case LoadRegs(f) =>
      Quiet(w, cpu.(pc := LoadFpu(f), live := cpu.live.(regs := At(w, f).saved.regs)))
    case LoadFpu(f) =>
      Quiet(w, cpu.(pc := User, live := cpu.live.(fpu := At(w, f).saved.fpu), ret := SUCCESS))
    case Return(f, _) =>
      Quiet(w, cpu.(pc := User, ret := f)).(publish := Some(f))
    case FlsAllocate(f, i) =>
      Touch(w, cpu.(pc := User, ret := i), f, At(w, f).(fls := ChangeBit(FlsOf(w, f), i)))
    case FlsRelease(f, i) =>
      Touch(w, cpu.(pc := User, ret := SUCCESS), f, At(w, f).(fls := ChangeBit(FlsOf(w, f), i)))
    case FlsStore(f, i, v) =>
      Touch(w, cpu.(pc := User, ret := i), f, At(w, f).(fls := FlsOf(w, f).(data := FlsOf(w, f).data[i := v])))
  }

  /** Starting a call: look up the thread and the fiber, or fail. */
  ghost function Begin(w: World, t: int, cpu: Cpu, e: Event): Effect {
    match e
    case Advance => Proceed(w, t, cpu)
    case Compute(live) => Quiet(w, cpu.(live := live))
    case Tick(u) => Quiet(w, cpu.(utime := u))
    case ConvertThread =>
      if t in w.table then Quiet(w, cpu.(ret := -EEXIST))
      else Quiet(w, cpu.(pc := NextFid(ForThread))).(current := Some(NO_FIBERS))
    case CreateFiber(entry, param, base, size) =>
      if t !in w.table then Quiet(w, cpu.(ret := -ESRCH))
      else Quiet(w, cpu.(pc := NextFid(ForEntry(entry, param, base, size))))
    case SwitchTo(f) =>
      if t !in w.table || f !in w.fibers then Quiet(w, cpu.(ret := -ESRCH))
      else Quiet(w, cpu.(pc := TryLock(f, Switching)))
    case FlsAlloc =>
      if t !in w.table || w.table[t] !in w.fibers then Quiet(w, cpu.(ret := -ESRCH))
      else
        var idx := FirstZeroBit(FlsOf(w, w.table[t]).bmp, 0);
        if idx < FLS_MAX_SIZE then Quiet(w, cpu.(pc := FlsAllocate(w.table[t], idx)))
        else Quiet(w, cpu.(ret := -EINVAL))
    case FlsFree(i) =>
      if !InRange(i) then Quiet(w, cpu.(ret := -EINVAL))
      else if t !in w.table || w.table[t] !in w.fibers then Quiet(w, cpu.(ret := -ESRCH))
      else if !FlsOf(w, w.table[t]).bmp[i] then Quiet(w, cpu.(ret := -EACCES))
      else Quiet(w, cpu.(pc := FlsRelease(w.table[t], i)))
    case FlsGet(i) =>
      if !InRange(i) || t !in w.table || w.table[t] !in w.fibers then Quiet(w, cpu.(ret := -ESRCH))
      else Quiet(w, cpu.(ret := GetValue(FlsOf(w, w.table[t]), i)))
    case FlsSet(i, v) =>
      if !InRange(i) then Quiet(w, cpu.(ret := -EINVAL))
      else if t !in w.table || w.table[t] !in w.fibers then Quiet(w, cpu.(ret := -ESRCH))
      else if !FlsOf(w, w.table[t]).bmp[i] then Quiet(w, cpu.(ret := -EACCES))
      else Quiet(w, cpu.(pc := FlsStore(w.table[t], i, v)))
  }

  ghost function Apply(w: World, t: int, e: Effect): World {
    World(
      e.fidCount,
      if e.current.Some? then w.table[t := e.current.value] else w.table,
      w.cpus[t := e.cpu],
      if e.fiber.Some? then w.fibers[e.fiber.value.0 := e.fiber.value.1] else w.fibers,
      if e.publish.Some? then w.published + {e.publish.value} else w.published)
  }

  /** Whether callers name only fids already returned to them, or any number. */
  datatype Fids = OnlyReturned | AnyNumber

  /** A thread computes and calls from user code; clocks do not run backwards. */
  ghost predicate Possible(w: World, t: int, e: Event) {
    && t in w.cpus
    && (e.Advance? ==> !w.cpus[t].pc.User?)
    && (!e.Advance? && !e.Tick? ==> w.cpus[t].pc.User?)
    && (e.Tick? ==> e.utime >= w.cpus[t].utime)
  }

  ghost predicate Allowed(w: World, t: int, e: Event, fids: Fids := OnlyReturned) {
    Possible(w, t, e) && (fids.OnlyReturned? && e.SwitchTo? && e.fid in w.fibers ==> e.fid in w.published)
  }

  ghost function Do(w: World, t: int, e: Event): World
    requires Possible(w, t, e)
  {
    Apply(w, t, Begin(w, t, w.cpus[t], e))
  }

  ghost predicate Initial(w: World) {
    && w.fidCount == NO_FIBERS && w.table == map[] && w.fibers == map[] && w.published == {}
    && forall t :: t in w.cpus ==> t > 0 && w.cpus[t].pc.User?
  }

  ghost predicate IsRun(ws: seq<World>, steps: seq<(int, Event)>, fids: Fids := OnlyReturned) {
    && |ws| == |steps| + 1
    && Initial(ws[0])
    && forall i :: 0 <= i < |steps| ==>
         Allowed(ws[i], steps[i].0, steps[i].1, fids) && ws[i + 1] == Do(ws[i], steps[i].0, steps[i].1)
  }

  /** The step is a conversion's trylock that finds the lock of the fiber it has just made taken. */
  ghost predicate Blocked(w: World, t: int, e: Event) {
    && t in w.cpus && e.Advance?
    && w.cpus[t].pc.TryLock? && w.cpus[t].pc.why.Converting? && At(w, w.cpus[t].pc.fid).holder.Some?
  }

  ghost predicate Unblocked(ws: seq<World>, steps: seq<(int, Event)>, n: nat)
    requires n <= |steps| < |ws|
  {
    forall i :: 0 <= i < n ==> !Blocked(ws[i], steps[i].0, steps[i].1)
  }
}
