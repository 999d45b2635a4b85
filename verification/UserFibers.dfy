/** The user-space fibers of ult.c and ult.h, interleaved one atomic access, save or load at a time. */
module UserFibers {
  import opened Options

  /** The registers set_jmp saves and long_jmp restores; rax is told apart from the rest because
      context_switch tests it on the way back. */
  datatype Context = Context(rax: int, rest: int)

  /** `set_jmp(...) == 0` looks at the low word of what the resumed call returns, the saved rax. */
  predicate Retakes(c: Context) {
    c.rax % 0x1_0000_0000 == 0
  }

  /** Where a fiber whose context is loaded continues: in ult_convert, which ignores what set_jmp
      returns, in context_create_boot, or in ult_switch_to on its way to `to`. */
  datatype Frame = Converting | Booting | Switching(to: int)

  /** `holder` is the thread whose test-and-set found `running` clear; the code only sees the flag. */
  datatype Fiber = Fiber(holder: Option<int>, saved: Context, frame: Frame)

  /** Loading this fiber takes the saving branch of context_switch once more. */
  predicate Retaking(fb: Fiber) {
    !fb.frame.Converting? && Retakes(fb.saved)
  }

  datatype Pc =
    | User
    | LockNew(fid: int)
    | SaveNew(fid: int)
    | Adopt(fid: int)
    | TryLock(fid: int)
    | SetCurrent(fid: int, from: int)
    | Save(fid: int, from: int)
    | Unlock(fid: int, from: int)
    | Load(fid: int)
    | Crashed

  /** `current` and `creat`, the fiber last created, are thread-local variables of the source; rax in
      `live` is what set_jmp would find. */
  datatype Cpu = Cpu(live: Context, current: Option<int>, creat: Option<int>, pc: Pc)

  /** `published` are the fibers whose address a caller has been given. */
  datatype World = World(nextId: int, cpus: map<int, Cpu>, fibers: map<int, Fiber>, published: set<int>)

  /** `SwitchTo(None)` is a switch to a null pointer. */
  datatype Event =
    | Advance
    | Compute(live: Context)
    | ConvertThread
    | CreateFiber(context: Context)
    | SwitchTo(fid: Option<int>)

  datatype Effect = Effect(cpu: Cpu, fiber: Option<(int, Fiber)>, publish: Option<int>, nextId: int)

  function Quiet(w: World, cpu: Cpu): Effect {
    Effect(cpu, None, None, w.nextId)
  }

  function Touch(w: World, cpu: Cpu, f: int, fiber: Fiber): Effect {
    Effect(cpu, Some((f, fiber)), None, w.nextId)
  }

  function At(w: World, f: int, default: Context): Fiber {
    if f in w.fibers then w.fibers[f] else Fiber(None, default, Converting)
  }

  /** Where a thread is after loading fiber `f`: back in user code, or, on the saving branch once
      more, about to clear the flag named in the resumed frame and to jump on without a trylock. */
  function AfterLoad(cpu: Cpu, f: int, fb: Fiber): Pc {
    if !Retaking(fb) then User
    else if fb.frame.Switching? then Unlock(fb.frame.to, f)
    else if cpu.current.Some? && cpu.creat.Some? then Unlock(cpu.current.value, cpu.creat.value)
    else Crashed
  }

  function Proceed(w: World, t: int, cpu: Cpu): Effect {
    match cpu.pc
    case User => Quiet(w, cpu)
    case Crashed => Quiet(w, cpu)
    case LockNew(f) => Touch(w, cpu.(pc := SaveNew(f)), f, Fiber(Some(t), cpu.live, Converting))
    case SaveNew(f) => Touch(w, cpu.(pc := Adopt(f)), f, At(w, f, cpu.live).(saved := cpu.live))
    case Adopt(f) => Quiet(w, cpu.(pc := User, current := Some(f))).(publish := Some(f))
    case TryLock(f) =>
      if At(w, f, cpu.live).holder.Some? then Quiet(w, cpu.(pc := User))
      else
        Touch(w, cpu.(pc := SetCurrent(f, if cpu.current.Some? then cpu.current.value else -1)),
              f, At(w, f, cpu.live).(holder := Some(t)))
    case SetCurrent(f, from) => Quiet(w, cpu.(pc := Save(f, from), current := Some(f)))
    case Save(f, from) =>
      Touch(w, cpu.(pc := Unlock(f, from)), from, At(w, from, cpu.live).(saved := cpu.live, frame := Switching(f)))
    case Unlock(f, from) => Touch(w, cpu.(pc := Load(f)), from, At(w, from, cpu.live).(holder := None))
    case Load(f) =>
      var fb := At(w, f, cpu.live);
      Quiet(w, cpu.(pc := AfterLoad(cpu, f, fb), live := fb.saved))
  }

  function Begin(w: World, t: int, cpu: Cpu, e: Event): Effect {
    match e
    case Advance => Proceed(w, t, cpu)
    case Compute(live) => Quiet(w, cpu.(live := live))
    case ConvertThread => Quiet(w, cpu.(pc := LockNew(w.nextId))).(nextId := w.nextId + 1)
    case CreateFiber(c) =>
      Effect(cpu.(creat := Some(w.nextId)), Some((w.nextId, Fiber(None, c, Booting))), Some(w.nextId), w.nextId + 1)
    case SwitchTo(f) => if f.None? then Quiet(w, cpu) else Quiet(w, cpu.(pc := TryLock(f.value)))
  }

  function Apply(w: World, t: int, e: Effect): World {
    World(
      e.nextId,
      w.cpus[t := e.cpu],
      if e.fiber.Some? then w.fibers[e.fiber.value.0 := e.fiber.value.1] else w.fibers,
      if e.publish.Some? then w.published + {e.publish.value} else w.published)
  }

  /** A thread is converted once, before it creates or switches; callers hold only addresses given to them. */
  ghost predicate Allowed(w: World, t: int, e: Event) {
    && t in w.cpus
    && !w.cpus[t].pc.Crashed? && (e.Advance? <==> !w.cpus[t].pc.User?)
    && (e.ConvertThread? ==> w.cpus[t].current.None?)
    && (e.CreateFiber? || e.SwitchTo? ==> w.cpus[t].current.Some?)
    && (e.SwitchTo? && e.fid.Some? ==> e.fid.value in w.published)
  }

  ghost function Do(w: World, t: int, e: Event): World
    requires Allowed(w, t, e)
  {
    Apply(w, t, Begin(w, t, w.cpus[t], e))
  }

  ghost predicate Initial(w: World) {
    w.nextId == 0 && w.fibers == map[] && w.published == {}
    && forall t :: t in w.cpus ==> w.cpus[t].pc.User? && w.cpus[t].current.None?
  }

  ghost predicate IsRun(ws: seq<World>, steps: seq<(int, Event)>) {
    && |ws| == |steps| + 1
    && Initial(ws[0])
    && forall i :: 0 <= i < |steps| ==>
         Allowed(ws[i], steps[i].0, steps[i].1) && ws[i + 1] == Do(ws[i], steps[i].0, steps[i].1)
  }

  /** The step loads a context that takes the saving branch once more. */
  ghost predicate LoadRetakes(w: World, t: int, e: Event) {
    t in w.cpus && e.Advance? && w.cpus[t].pc.Load? && w.cpus[t].pc.fid in w.fibers &&
      Retaking(w.fibers[w.cpus[t].pc.fid])
  }

  /** None of the first `n` steps does. */
  ghost predicate Straight(ws: seq<World>, steps: seq<(int, Event)>, n: nat)
    requires n <= |steps| < |ws|
  {
    forall i :: 0 <= i < n ==> !LoadRetakes(ws[i], steps[i].0, steps[i].1)
  }

  // ---------------------------------------------------------------- the invariant

  ghost function Extra(pc: Pc): set<int> {
    match pc
    case SaveNew(f) => {f}
    case Adopt(f) => {f}
    case SetCurrent(f, _) => {f}
    case Save(_, from) => {from}
    case Unlock(_, from) => {from}
    case _ => {}
  }

  ghost function Held(w: World, t: int): set<int>
    requires t in w.cpus
  {
    (if w.cpus[t].current.Some? then {w.cpus[t].current.value} else {}) + Extra(w.cpus[t].pc)
  }

  ghost function Reserved(pc: Pc): Option<int> {
    match pc
    case LockNew(f) => Some(f)
    case SaveNew(f) => Some(f)
    case Adopt(f) => Some(f)
    case _ => None
  }

  ghost predicate Leaving(w: World, t: int, f: int, from: int)
    requires t in w.cpus
  {
    w.cpus[t].current == Some(f) && from in w.published && f != from
  }

  ghost predicate PcOk(w: World, t: int)
    requires t in w.cpus
  {
    var cpu := w.cpus[t];
    match cpu.pc
    case User => true
    case Crashed => true
    case LockNew(f) => cpu.current.None? && f !in w.fibers
    case SaveNew(f) => cpu.current.None?
    case Adopt(f) => cpu.current.None? && f in w.fibers && w.fibers[f].saved == cpu.live
    case TryLock(f) => cpu.current.Some? && f in w.published
    case SetCurrent(f, from) => cpu.current == Some(from) && f in w.published && f != from
    case Save(f, from) => Leaving(w, t, f, from)
    case Unlock(f, from) => Leaving(w, t, f, from) && from in w.fibers && w.fibers[from].saved == cpu.live
    case Load(f) => cpu.current == Some(f) && f in w.fibers
  }

  ghost predicate ThreadOk(w: World, t: int)
    requires t in w.cpus
  {
    var cpu := w.cpus[t];
    && (cpu.current.Some? ==> cpu.current.value in w.published)
    && (forall f :: f in Held(w, t) ==> f in w.fibers && w.fibers[f].holder == Some(t))
    && (Reserved(cpu.pc).Some? ==> Reserved(cpu.pc).value < w.nextId && Reserved(cpu.pc).value !in w.published)
    && PcOk(w, t)
  }

  /** A fiber's flag is set exactly while one thread holds it. */
  ghost predicate FiberOk(w: World, f: int)
    requires f in w.fibers
  {
    && f < w.nextId
    && (w.fibers[f].holder.Some? ==>
          w.fibers[f].holder.value in w.cpus && f in Held(w, w.fibers[f].holder.value))
  }

  ghost predicate Apart(w: World, t: int, u: int)
    requires t in w.cpus && u in w.cpus
  {
    t != u && Reserved(w.cpus[t].pc).Some? ==> Reserved(w.cpus[t].pc) != Reserved(w.cpus[u].pc)
  }

  ghost predicate Inv(w: World) {
    && w.published <= w.fibers.Keys
    && (forall t :: t in w.cpus ==> ThreadOk(w, t))
    && (forall f :: f in w.fibers ==> FiberOk(w, f))
    && (forall t, u :: t in w.cpus && u in w.cpus ==> Apart(w, t, u))
  }

  lemma StepOwnThread(w: World, t: int, e: Event)
    requires Inv(w) && Allowed(w, t, e) && !LoadRetakes(w, t, e)
    ensures ThreadOk(Do(w, t, e), t)
  {
    assert ThreadOk(w, t);
    hide FiberOk, Apart;
  }

  lemma StepOtherThread(w: World, t: int, e: Event, u: int)
    requires Inv(w) && Allowed(w, t, e) && !LoadRetakes(w, t, e) && u in w.cpus && u != t
    ensures ThreadOk(Do(w, t, e), u)
  {
    assert ThreadOk(w, t) && ThreadOk(w, u) && Apart(w, u, t);
    hide FiberOk;
  }

  lemma StepThread(w: World, t: int, e: Event, u: int)
    requires Inv(w) && Allowed(w, t, e) && !LoadRetakes(w, t, e) && u in w.cpus
    ensures ThreadOk(Do(w, t, e), u)
  {
    hide Inv, Do, ThreadOk;
    if u == t { StepOwnThread(w, t, e); } else { StepOtherThread(w, t, e, u); }
  }

  lemma StepFiber(w: World, t: int, e: Event, f: int)
    requires Inv(w) && Allowed(w, t, e) && !LoadRetakes(w, t, e) && f in Do(w, t, e).fibers
    ensures FiberOk(Do(w, t, e), f)
  {
    assert ThreadOk(w, t);
    if f in w.fibers { assert FiberOk(w, f); }
  }

  lemma StepApart(w: World, t: int, e: Event, u: int, v: int)
    requires Inv(w) && Allowed(w, t, e) && !LoadRetakes(w, t, e) && u in w.cpus && v in w.cpus
    ensures Apart(Do(w, t, e), u, v)
  {
    assert Apart(w, u, v) && ThreadOk(w, u) && ThreadOk(w, v) && ThreadOk(w, t);
  }

  lemma StepPublishes(w: World, t: int, e: Event)
    requires Inv(w) && Allowed(w, t, e) && !LoadRetakes(w, t, e)
    ensures Do(w, t, e).published <= Do(w, t, e).fibers.Keys && Do(w, t, e).cpus.Keys == w.cpus.Keys
  {
    assert ThreadOk(w, t);
  }

  lemma StepKeepsInv(w: World, t: int, e: Event)
    requires Inv(w) && Allowed(w, t, e) && !LoadRetakes(w, t, e)
    ensures Inv(Do(w, t, e))
  {
    var w' := Do(w, t, e);
    StepPublishes(w, t, e);
    forall u | u in w'.cpus ensures ThreadOk(w', u) { StepThread(w, t, e, u); }
    forall f | f in w'.fibers ensures FiberOk(w', f) { StepFiber(w, t, e, f); }
    forall u, v | u in w'.cpus && v in w'.cpus ensures Apart(w', u, v) { StepApart(w, t, e, u, v); }
    hide Do, ThreadOk, FiberOk, Apart;
  }

  lemma {:induction false} RunInv(ws: seq<World>, steps: seq<(int, Event)>, i: nat)
    requires IsRun(ws, steps) && i <= |steps| && Straight(ws, steps, i)
    ensures Inv(ws[i])
  {
    if i == 0 {
    } else {
      RunInv(ws, steps, i - 1);
      hide Inv, Do, Allowed, Initial, LoadRetakes;
      StepKeepsInv(ws[i - 1], steps[i - 1].0, steps[i - 1].1);
    }
  }

  /** No fiber is current on two threads, under any interleaving, and the current fiber is locked by its thread. */
  lemma MutualExclusion(ws: seq<World>, steps: seq<(int, Event)>, i: nat, t: int, u: int)
    requires IsRun(ws, steps) && i <= |steps| && Straight(ws, steps, i) && t in ws[i].cpus && u in ws[i].cpus
    requires ws[i].cpus[t].current.Some? && ws[i].cpus[u].current == ws[i].cpus[t].current
    ensures t == u
    ensures var f := ws[i].cpus[t].current.value; f in ws[i].fibers && ws[i].fibers[f].holder == Some(t)
  {
    RunInv(ws, steps, i);
    assert ThreadOk(ws[i], t) && ThreadOk(ws[i], u);
    var f := ws[i].cpus[t].current.value;
    assert f in Held(ws[i], t) && f in Held(ws[i], u);
  }

  /** A switch to the thread's own fiber, or to one another thread holds, returns with nothing
      changed but the end of the call. */
  lemma BusySwitchReturns(w: World, t: int)
    requires Inv(w) && t in w.cpus && w.cpus[t].pc.TryLock?
    ensures var f, cpu := w.cpus[t].pc.fid, w.cpus[t];
            && f in w.fibers
            && (cpu.current == Some(f) ==> w.fibers[f].holder.Some?)
            && (w.fibers[f].holder.Some? ==> Do(w, t, Advance) == w.(cpus := w.cpus[t := cpu.(pc := User)]))
  {
    assert ThreadOk(w, t);
  }

  /** A switch to a null pointer changes nothing at all. */
  lemma NullSwitchReturns(w: World, t: int)
    requires Allowed(w, t, SwitchTo(None))
    ensures Do(w, t, SwitchTo(None)) == w
  {
    assert w.cpus[t := w.cpus[t]] == w.cpus;
  }

  /** How many steps of its own a thread takes at most until its call is over. */
  function StepsLeft(pc: Pc): nat {
    match pc
    case User => 0
    case Crashed => 0
    case LockNew(_) => 3
    case SaveNew(_) => 2
    case Adopt(_) => 1
    case TryLock(_) => 5
    case SetCurrent(_, _) => 4
    case Save(_, _) => 3
    case Unlock(_, _) => 2
    case Load(_) => 1
  }

  /** Nobody waits: whatever other threads do, each step of a call but a load that retakes brings it nearer
      to its end. */
  lemma CallsEnd(w: World, t: int, e: Event)
    requires Inv(w) && Allowed(w, t, e) && !LoadRetakes(w, t, e)
    ensures e.Advance? ==> StepsLeft(Do(w, t, e).cpus[t].pc) < StepsLeft(w.cpus[t].pc)
    ensures StepsLeft(w.cpus[t].pc) == 0 <==> w.cpus[t].pc.User?
    ensures forall u | u in w.cpus && u != t :: Do(w, t, e).cpus[u] == w.cpus[u]
  {
    assert ThreadOk(w, t);
  }
}
