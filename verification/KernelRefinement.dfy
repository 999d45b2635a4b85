/** The kernel's switch refines the one-owner machine. */
module KernelRefinement {
  import opened FiberStorage
  import opened KernelFibers
  import opened KernelInvariant
  import opened KernelSteps
  import opened KernelTheorems
  import M = FiberMachine
  import opened Options

  /** The fiber a thread runs: during a switch the previous one until its lock is released;
      none before a converted thread has been given its fid. */
  ghost function Runs(w: World, t: int): Option<int>
    requires t in w.cpus
  {
    var pc := w.cpus[t].pc;
    if !Attached(w, t) || pc == Return(w.table[t], ForThread) then None
    else if pc.SaveRegs? || pc.SaveFpu? || pc.Account? || pc.ClearState? || pc.Unlock? then Some(pc.prev)
    else Some(w.table[t])
  }

  /** The context of a fiber on its thread, part of it not yet loaded at the end of a switch. */
  ghost function LiveContext(w: World, t: int, f: int): Context
    requires t in w.cpus
  {
    var cpu := w.cpus[t];
    if cpu.pc.LoadRegs? then At(w, f).saved
    else if cpu.pc.LoadFpu? then Context(cpu.live.regs, At(w, f).saved.fpu)
    else cpu.live
  }

  ghost function ContextOf(w: World, f: int): Context {
    var h := At(w, f).holder;
    if h.Some? && h.value in w.cpus && Runs(w, h.value) == Some(f) then LiveContext(w, h.value, f)
    else At(w, f).saved
  }

  ghost function Abs(w: World): M.Machine<Context> {
    M.Machine(
      map t | t in w.cpus && Runs(w, t).Some? :: Runs(w, t).value,
      map f | f in w.published :: ContextOf(w, f))
  }

  /** The step of the machine a kernel step stands for. */
  ghost function ActionOf(w: World, t: int, e: Event): M.Action<Context>
    requires t in w.cpus
  {
    var pc := w.cpus[t].pc;
    if e.Compute? && Attached(w, t) then M.Run(t, e.live)
    else if e.Advance? && pc.Unlock? then M.Switch(t, pc.fid)
    else if e.Advance? && pc.Return? then
      if Attached(w, t) && w.table[t] == pc.fid then M.Attach(t, pc.fid, w.cpus[t].live)
      else M.Create(pc.fid, At(w, pc.fid).saved)
    else M.Stutter
  }

  ghost predicate Refines(w: World, t: int, e: Event)
    requires t in w.cpus
  {
    M.Next(Abs(w), Abs(Apply(w, t, Begin(w, t, w.cpus[t], e))), ActionOf(w, t, e))
  }

  // ---------------------------------------------------------------- one step

  /** A fiber the stepping thread neither holds nor changes keeps its context. */
  lemma OtherContext(w: World, t: int, e: Effect, f: int)
    requires Inv(w) && t in w.cpus && Confined(w, t, e) && f in w.fibers
    requires w.fibers[f].holder != Some(t) && (e.fiber.Some? ==> e.fiber.value.0 != f)
    ensures ContextOf(Apply(w, t, e), f) == ContextOf(w, f)
  {
    assert FiberOk(w, f);
  }

  lemma OtherRuns(w: World, t: int, e: Effect, u: int)
    requires Inv(w) && t in w.cpus && Confined(w, t, e) && u in w.cpus && u != t
    ensures Runs(Apply(w, t, e), u) == Runs(w, u)
  {
    OtherHeld(w, t, e, u);
  }

  /** What has to be looked at for a step that should not show. */
  ghost predicate Hidden(w: World, t: int, e: Effect)
    requires t in w.cpus
  {
    var w' := Apply(w, t, e);
    && e.publish.None?
    && Runs(w', t) == Runs(w, t)
    && forall f | f in w.published && f in w.fibers ::
         w.fibers[f].holder == Some(t) || (e.fiber.Some? && e.fiber.value.0 == f) ==>
           ContextOf(w', f) == ContextOf(w, f)
  }

  lemma HiddenStutters(w: World, t: int, e: Effect)
    requires Inv(w) && t in w.cpus && Confined(w, t, e) && Hidden(w, t, e)
    ensures Abs(Apply(w, t, e)) == Abs(w)
  {
    var w' := Apply(w, t, e);
    hide Confined, ContextOf, Runs;
    forall u | u in w.cpus ensures Runs(w', u) == Runs(w, u) {
      if u != t { OtherRuns(w, t, e, u); }
    }
    forall f | f in w.published ensures ContextOf(w', f) == ContextOf(w, f) {
      if !(w.fibers[f].holder == Some(t) || (e.fiber.Some? && e.fiber.value.0 == f)) {
        OtherContext(w, t, e, f);
      }
    }
  }

  lemma MakingHidden(w: World, t: int)
    requires Local(w, t, OnlyReturned) && PhaseOf(w.cpus[t].pc).Making? && !w.cpus[t].pc.Return?
    ensures Hidden(w, t, Begin(w, t, w.cpus[t], Advance))
  {
  }

  lemma LockingHidden(w: World, t: int)
    requires Local(w, t, OnlyReturned) && PhaseOf(w.cpus[t].pc).Locking?
    ensures Hidden(w, t, Begin(w, t, w.cpus[t], Advance))
  {
  }

  lemma ActivatingHidden(w: World, t: int)
    requires Local(w, t, OnlyReturned) && PhaseOf(w.cpus[t].pc).Activating?
    ensures Hidden(w, t, Begin(w, t, w.cpus[t], Advance))
  {
  }

  lemma ChangingHidden(w: World, t: int)
    requires Local(w, t, OnlyReturned) && PhaseOf(w.cpus[t].pc).Changing?
    ensures Hidden(w, t, Begin(w, t, w.cpus[t], Advance))
  {
  }

  lemma ReleasingHidden(w: World, t: int)
    requires Local(w, t, OnlyReturned) && PhaseOf(w.cpus[t].pc).Releasing? && !w.cpus[t].pc.Unlock?
    ensures Hidden(w, t, Begin(w, t, w.cpus[t], Advance))
  {
  }

  lemma LoadingHidden(w: World, t: int)
    requires Local(w, t, OnlyReturned) && PhaseOf(w.cpus[t].pc).Loading?
    ensures Hidden(w, t, Begin(w, t, w.cpus[t], Advance))
  {
  }

  lemma StoringHidden(w: World, t: int)
    requires Local(w, t, OnlyReturned) && PhaseOf(w.cpus[t].pc).Storing?
    ensures Hidden(w, t, Begin(w, t, w.cpus[t], Advance))
  {
  }

  lemma AdvanceHidden(w: World, t: int)
    requires Inv(w) && t in w.cpus && !w.cpus[t].pc.User? && !w.cpus[t].pc.Unlock? && !w.cpus[t].pc.Return?
    ensures Hidden(w, t, Begin(w, t, w.cpus[t], Advance))
  {
    hide Inv, Local, Hidden, Begin;
    InvLocal(w, t, OnlyReturned);
    match PhaseOf(w.cpus[t].pc)
    case Making => MakingHidden(w, t);
    case Locking => LockingHidden(w, t);
    case Activating => ActivatingHidden(w, t);
    case Changing => ChangingHidden(w, t);
    case Releasing => ReleasingHidden(w, t);
    case Loading => LoadingHidden(w, t);
    case Storing => StoringHidden(w, t);
  }

  lemma CallHidden(w: World, t: int, e: Event)
    requires Inv(w) && Allowed(w, t, e) && !e.Advance? && !(e.Compute? && Attached(w, t))
    ensures Hidden(w, t, Begin(w, t, w.cpus[t], e))
  {
    hide PcOk, FiberOk, Apart;
    assert ThreadOk(w, t);
  }

  lemma HiddenRefines(w: World, t: int, e: Event)
    requires Inv(w) && Allowed(w, t, e) && Hidden(w, t, Begin(w, t, w.cpus[t], e))
    requires ActionOf(w, t, e) == M.Stutter
    ensures Refines(w, t, e)
  {
    hide Inv, Hidden, Abs, Begin, Confined, LocallyOk, ActionOf;
    EveryStepOk(w, t, e);
    HiddenStutters(w, t, Begin(w, t, w.cpus[t], e));
  }

  /** The fiber a thread runs is locked by that thread. */
  lemma RunsHeld(w: World, t: int)
    requires Inv(w) && t in w.cpus && Runs(w, t).Some?
    ensures var f := Runs(w, t).value;
            f in Held(w, t) && f in w.fibers && w.fibers[f].holder == Some(t) && f in w.published
  {
    assert ThreadOk(w, t);
  }

  lemma OthersKept(w: World, t: int, e: Effect)
    requires Inv(w) && t in w.cpus && Confined(w, t, e)
    ensures forall u | u in w.cpus && u != t :: Runs(Apply(w, t, e), u) == Runs(w, u)
    ensures forall f | f in w.published && f !in Held(w, t) && (e.fiber.Some? ==> e.fiber.value.0 != f) ::
              ContextOf(Apply(w, t, e), f) == ContextOf(w, f)
  {
    hide Confined, ContextOf, Runs;
    forall u | u in w.cpus && u != t ensures Runs(Apply(w, t, e), u) == Runs(w, u) { OtherRuns(w, t, e, u); }
    forall f | f in w.published && f !in Held(w, t) && (e.fiber.Some? ==> e.fiber.value.0 != f)
      ensures ContextOf(Apply(w, t, e), f) == ContextOf(w, f)
    {
      assert FiberOk(w, f);
      OtherContext(w, t, e, f);
    }
  }

  /** The previous fiber is let go only once its saved context is its live one. */
  lemma UnlockContexts(w: World, t: int)
    requires Inv(w) && t in w.cpus && w.cpus[t].pc.Unlock?
    ensures var pc, w' := w.cpus[t].pc, Apply(w, t, Begin(w, t, w.cpus[t], Advance));
            && pc.fid != pc.prev
            && (var c := Begin(w, t, w.cpus[t], Advance).fiber; c.Some? && c.value.0 == pc.prev)
            && Held(w, t) == {pc.fid, pc.prev} && pc.fid in w.published && pc.prev in w.published
            && w'.published == w.published && w'.cpus.Keys == w.cpus.Keys
            && Runs(w, t) == Some(pc.prev) && Runs(w', t) == Some(pc.fid)
            && ContextOf(w', pc.fid) == ContextOf(w, pc.fid) && ContextOf(w', pc.prev) == ContextOf(w, pc.prev)
  {
    assert ThreadOk(w, t);
    assert w.cpus[t].pc.fid in Held(w, t) && w.cpus[t].pc.prev in Held(w, t);
    hide FiberOk, Apart;
  }

  lemma FreeToTake(w: World, t: int, f: int, u: int)
    requires Inv(w) && t in w.cpus && f in Held(w, t) && Runs(w, t) != Some(f) && u in w.cpus
    ensures Runs(w, u) != Some(f)
  {
    assert ThreadOk(w, t);
    if Runs(w, u) == Some(f) { RunsHeld(w, u); }
  }

  lemma UnlockRefines(w: World, t: int)
    requires Inv(w) && t in w.cpus && w.cpus[t].pc.Unlock?
    ensures Refines(w, t, Advance)
  {
    hide Inv, ContextOf, Runs, Confined, LocallyOk, Held, Begin, Apply, Abs;
    var pc, e := w.cpus[t].pc, Begin(w, t, w.cpus[t], Advance);
    UnlockContexts(w, t);
    EveryStepOk(w, t, Advance);
    OthersKept(w, t, e);
    forall u | u in w.cpus ensures Runs(w, u) != Some(pc.fid) { FreeToTake(w, t, pc.fid, u); }
    SwitchShows(w, t, pc.fid, Apply(w, t, e));
  }

  lemma SwitchShows(w: World, t: int, f: int, w': World)
    requires t in w.cpus && w'.cpus.Keys == w.cpus.Keys && w'.published == w.published && f in w.published
    requires forall u | u in w.cpus && u != t :: Runs(w', u) == Runs(w, u)
    requires forall u | u in w.cpus :: Runs(w, u) != Some(f)
    requires forall g | g in w.published :: ContextOf(w', g) == ContextOf(w, g)
    requires Runs(w, t).Some? && Runs(w', t) == Some(f)
    ensures M.Next(Abs(w), Abs(w'), M.Switch(t, f))
  {
    hide Runs, ContextOf;
    assert Abs(w').running == Abs(w).running[t := f];
    assert Abs(w').context == Abs(w).context;
  }

  lemma ReturnContexts(w: World, t: int)
    requires Inv(w) && t in w.cpus && w.cpus[t].pc.Return?
    ensures var f, w' := w.cpus[t].pc.fid, Apply(w, t, Begin(w, t, w.cpus[t], Advance));
            && Begin(w, t, w.cpus[t], Advance).fiber.None?
            && f !in w.published && w'.published == w.published + {f} && w'.cpus.Keys == w.cpus.Keys
            && Attached(w, t) && Held(w, t) == {w.table[t]}
            && (w.table[t] == f ==>
                  Runs(w, t) == None && Runs(w', t) == Some(f) && ContextOf(w', f) == w.cpus[t].live)
            && (w.table[t] != f ==>
                  && Runs(w', t) == Runs(w, t)
                  && ContextOf(w', f) == At(w, f).saved && ContextOf(w', w.table[t]) == ContextOf(w, w.table[t]))
  {
    assert ThreadOk(w, t);
    assert w.table[t] in Held(w, t);
    hide FiberOk, Apart;
  }

  lemma ReturnRefines(w: World, t: int)
    requires Inv(w) && t in w.cpus && w.cpus[t].pc.Return?
    ensures Refines(w, t, Advance)
  {
    hide Inv, ContextOf, Runs, Confined, LocallyOk, Held, Begin, Apply, Abs;
    var f, e := w.cpus[t].pc.fid, Begin(w, t, w.cpus[t], Advance);
    ReturnContexts(w, t);
    EveryStepOk(w, t, Advance);
    OthersKept(w, t, e);
    if w.table[t] == f { AttachShows(w, t, f, Apply(w, t, e)); } else { CreateShows(w, t, f, Apply(w, t, e)); }
  }

  lemma AttachShows(w: World, t: int, f: int, w': World)
    requires t in w.cpus && w'.cpus.Keys == w.cpus.Keys && w'.published == w.published + {f} && f !in w.published
    requires forall u | u in w.cpus && u != t :: Runs(w', u) == Runs(w, u)
    requires forall g | g in w.published :: ContextOf(w', g) == ContextOf(w, g)
    requires Runs(w, t) == None && Runs(w', t) == Some(f)
    ensures M.Next(Abs(w), Abs(w'), M.Attach(t, f, ContextOf(w', f)))
  {
    hide Runs, ContextOf;
    assert Abs(w').running == Abs(w).running[t := f];
    assert Abs(w').context == Abs(w).context[f := ContextOf(w', f)];
  }

  lemma CreateShows(w: World, t: int, f: int, w': World)
    requires t in w.cpus && w'.cpus.Keys == w.cpus.Keys && w'.published == w.published + {f} && f !in w.published
    requires forall u | u in w.cpus :: Runs(w', u) == Runs(w, u)
    requires forall g | g in w.published :: ContextOf(w', g) == ContextOf(w, g)
    ensures M.Next(Abs(w), Abs(w'), M.Create(f, ContextOf(w', f)))
  {
    hide Runs, ContextOf;
    assert Abs(w').running == Abs(w).running;
    assert Abs(w').context == Abs(w).context[f := ContextOf(w', f)];
  }

  lemma ComputeContexts(w: World, t: int, e: Event)
    requires Inv(w) && Allowed(w, t, e) && e.Compute? && Attached(w, t)
    ensures var f, w' := w.table[t], Apply(w, t, Begin(w, t, w.cpus[t], e));
            && Begin(w, t, w.cpus[t], e).fiber.None?
            && f in w.published && w'.published == w.published && w'.cpus.Keys == w.cpus.Keys
            && Held(w, t) == {f} && Runs(w, t) == Some(f) && Runs(w', t) == Some(f) && ContextOf(w', f) == e.live
  {
    assert ThreadOk(w, t);
    assert w.table[t] in Held(w, t);
    hide FiberOk, Apart;
  }

  lemma ComputeRefines(w: World, t: int, e: Event)
    requires Inv(w) && Allowed(w, t, e) && e.Compute? && Attached(w, t)
    ensures Refines(w, t, e)
  {
    hide Inv, ContextOf, Runs, Confined, LocallyOk, Held, Begin, Apply, Abs;
    ComputeContexts(w, t, e);
    EveryStepOk(w, t, e);
    OthersKept(w, t, Begin(w, t, w.cpus[t], e));
    RunShows(w, t, w.table[t], Apply(w, t, Begin(w, t, w.cpus[t], e)));
  }

  lemma RunShows(w: World, t: int, f: int, w': World)
    requires t in w.cpus && w'.cpus.Keys == w.cpus.Keys && w'.published == w.published && f in w.published
    requires forall u | u in w.cpus :: Runs(w', u) == Runs(w, u)
    requires forall g | g in w.published && g != f :: ContextOf(w', g) == ContextOf(w, g)
    requires Runs(w, t) == Some(f)
    ensures M.Next(Abs(w), Abs(w'), M.Run(t, ContextOf(w', f)))
  {
    hide Runs, ContextOf;
    assert Abs(w').running == Abs(w).running;
    assert Abs(w').context == Abs(w).context[f := ContextOf(w', f)];
  }

  /** Every step of every thread is a step of the one-owner machine. */
  lemma StepRefines(w: World, t: int, e: Event)
    requires Inv(w) && Allowed(w, t, e)
    ensures M.Next(Abs(w), Abs(Do(w, t, e)), ActionOf(w, t, e))
  {
    hide Inv, Abs, Begin, Hidden;
    assert e.Advance? ==> !w.cpus[t].pc.User?;
    if e.Advance? && w.cpus[t].pc.Unlock? {
      UnlockRefines(w, t);
    } else if e.Advance? && w.cpus[t].pc.Return? {
      ReturnRefines(w, t);
    } else if e.Compute? && Attached(w, t) {
      ComputeRefines(w, t, e);
    } else {
      if e.Advance? { AdvanceHidden(w, t); } else { CallHidden(w, t, e); }
      HiddenRefines(w, t, e);
    }
  }

  // ---------------------------------------------------------------- whole runs

  ghost function Machines(ws: seq<World>): (ms: seq<M.Machine<Context>>)
    ensures |ms| == |ws| && forall i :: 0 <= i < |ws| ==> ms[i] == Abs(ws[i])
  {
    seq(|ws|, i requires 0 <= i < |ws| => Abs(ws[i]))
  }

  ghost function Actions(ws: seq<World>, steps: seq<(int, Event)>): (actions: seq<M.Action<Context>>)
    requires IsRun(ws, steps)
    ensures |actions| == |steps|
    ensures forall i :: 0 <= i < |steps| ==>
              steps[i].0 in ws[i].cpus && actions[i] == ActionOf(ws[i], steps[i].0, steps[i].1)
  {
    seq(|steps|, i requires 0 <= i < |steps| =>
      assert Allowed(ws[i], steps[i].0, steps[i].1); ActionOf(ws[i], steps[i].0, steps[i].1))
  }

  /** Every run of the kernel code is a run of the one-owner machine. */
  lemma RunRefinesOneOwner(ws: seq<World>, steps: seq<(int, Event)>)
    requires IsRun(ws, steps)
    ensures M.IsRun(Machines(ws), Actions(ws, steps)) && M.OneOwner(Machines(ws)[0])
  {
    hide Inv, Abs, ActionOf, M.Next;
    var ms, actions := Machines(ws), Actions(ws, steps);
    forall i | 0 <= i < |actions| ensures M.Next(ms[i], ms[i + 1], actions[i]) {
      RunInv(ws, steps, i);
      StepRefines(ws[i], steps[i].0, steps[i].1);
    }
    InitialMachine(ws[0]);
  }

  lemma InitialMachine(w: World)
    requires Initial(w)
    ensures M.OneOwner(Abs(w)) && Abs(w).running == map[] && Abs(w).context == map[]
  {
  }

  /** A thread on its way to make a fiber for an entry point. */
  ghost predicate Creating(w: World, t: int, make: Make) {
    && t in w.cpus && make.ForEntry?
    && (w.cpus[t].pc.NextFid? || w.cpus[t].pc.AddFiber? || w.cpus[t].pc.SetContext? || w.cpus[t].pc.Return?)
    && w.cpus[t].pc.make == make
  }

  lemma CreatingStep(w: World, u: int, e: Event, t: int, make: Make)
    requires Possible(w, u, e) && t in w.cpus && Creating(Do(w, u, e), t, make)
    ensures (u == t && e == CreateFiber(make.entry, make.param, make.stackBase, make.stackSize)) || Creating(w, t, make)
    ensures Do(w, u, e).cpus[t].live == w.cpus[t].live
  {
    hide At, ChangeBit, FirstZeroBit, FlsOf, CreationContext, FreshFiber, GetValue;
  }

  /** The call it is in, made with the same registers. */
  lemma {:induction false} CreationCall(ws: seq<World>, steps: seq<(int, Event)>, i: nat, t: int, make: Make)
    returns (k: nat)
    requires IsRun(ws, steps) && i <= |steps| && Creating(ws[i], t, make)
    ensures k < i && steps[k] == (t, CreateFiber(make.entry, make.param, make.stackBase, make.stackSize))
    ensures t in ws[k].cpus && ws[k].cpus[t].live == ws[i].cpus[t].live
  {
    hide Do, Possible, Creating;
    if i == 0 {
      StartsNothing(ws[0], t, make);
    } else {
      SameThreads(ws[i - 1], steps[i - 1].0, steps[i - 1].1, t, make);
      CreatingStep(ws[i - 1], steps[i - 1].0, steps[i - 1].1, t, make);
      if Creating(ws[i - 1], t, make) { k := CreationCall(ws, steps, i - 1, t, make); } else { k := i - 1; }
    }
  }

  lemma StartsNothing(w: World, t: int, make: Make)
    requires Initial(w)
    ensures !Creating(w, t, make)
  {
  }

  lemma SameThreads(w: World, u: int, e: Event, t: int, make: Make)
    requires Possible(w, u, e) && Creating(Do(w, u, e), t, make)
    ensures t in w.cpus
  {
    hide Begin;
  }

  /** The arguments of a call that creates a fiber. */
  ghost function MakeOf(call: Event): (make: Make)
    requires call.CreateFiber?
    ensures make.ForEntry?
  {
    ForEntry(call.entry, call.param, call.stackBase, call.stackSize)
  }

  /** A fiber created for an entry point is published, held by nobody, with such a context: `k` is the
      call of the thread that creates it. */
  lemma CreatedContext(ws: seq<World>, steps: seq<(int, Event)>, i: nat, t: int) returns (k: nat)
    requires IsRun(ws, steps) && i < |steps| && steps[i] == (t, Advance) && t in ws[i].cpus
    requires ws[i].cpus[t].pc.Return? && ws[i].cpus[t].pc.make.ForEntry?
    ensures k < i && steps[k].0 == t && steps[k].1.CreateFiber? && t in ws[k].cpus
    ensures var f := ws[i].cpus[t].pc.fid;
            && f !in ws[i].published && f in ws[i + 1].published && f in ws[i + 1].fibers
            && ws[i + 1].fibers[f].holder.None?
            && EnteredFresh(ContextOf(ws[i + 1], f), MakeOf(steps[k].1), ws[k].cpus[t].live)
  {
    hide Inv, Do, Initial, ContextOf;
    RunInv(ws, steps, i);
    k := CreationCall(ws, steps, i, t, ws[i].cpus[t].pc.make);
    PublishedContext(ws[i], t);
    assert ws[i + 1] == Do(ws[i], t, Advance);
  }

  lemma PublishedContext(w: World, t: int)
    requires Inv(w) && t in w.cpus && w.cpus[t].pc.Return? && w.cpus[t].pc.make.ForEntry?
    ensures var f, w' := w.cpus[t].pc.fid, Do(w, t, Advance);
            && f !in w.published && f in w'.published && f in w'.fibers && w'.fibers[f].holder.None?
            && ContextOf(w', f) == CreationContext(w.cpus[t].live, w.cpus[t].pc.make)
  {
    assert ThreadOk(w, t);
  }

  /** The thread that first finds itself in that fiber has that context. */
  lemma FirstLoad(ws: seq<World>, steps: seq<(int, Event)>, i: nat, t: int, j: nat, u: int) returns (k: nat)
    requires IsRun(ws, steps) && i < j <= |steps| && steps[i] == (t, Advance) && t in ws[i].cpus
    requires ws[i].cpus[t].pc.Return? && ws[i].cpus[t].pc.make.ForEntry?
    requires var f := ws[i].cpus[t].pc.fid;
             && u in ws[j].cpus && ws[j].cpus[u].pc.User? && Attached(ws[j], u) && ws[j].table[u] == f
             && forall m :: i < m < j ==> !M.Runs(Abs(ws[m]), Actions(ws, steps)[m], f)
    ensures k < i && steps[k].0 == t && steps[k].1.CreateFiber? && t in ws[k].cpus
    ensures EnteredFresh(ws[j].cpus[u].live, MakeOf(steps[k].1), ws[k].cpus[t].live)
  {
    hide Inv, Do, Initial, ContextOf, Abs, ActionOf, M.Runs;
    k := CreatedContext(ws, steps, i, t);
    ContextIntegrity(ws, steps, ws[i].cpus[t].pc.fid, i + 1, j);
    LoadedContext(ws, steps, j, u);
  }

  /** The context a fiber is resumed with is the one it was left with, or created with if it never
      ran: between two points of a run it changes only by the fiber itself computing. */
  lemma ContextIntegrity(ws: seq<World>, steps: seq<(int, Event)>, f: int, i: nat, j: nat)
    requires IsRun(ws, steps) && i <= j <= |steps| && f in ws[i].published
    requires forall k :: i <= k < j ==> !M.Runs(Abs(ws[k]), Actions(ws, steps)[k], f)
    ensures f in ws[j].published && ContextOf(ws[j], f) == ContextOf(ws[i], f)
  {
    RunRefinesOneOwner(ws, steps);
    var ms, actions := Machines(ws), Actions(ws, steps);
    hide Inv, IsRun, ContextOf, Runs, M.Next, M.IsRun, ActionOf;
    assert forall k :: i <= k < j ==> !M.Runs(ms[k], actions[k], f);
    assert f in ms[i].context;
    M.ContextKept(ms, actions, f, i, j);
    assert f in ms[j].context;
  }

  /** Back in user code, a thread runs its current fiber with exactly that fiber's context. */
  lemma LoadedContext(ws: seq<World>, steps: seq<(int, Event)>, i: nat, t: int)
    requires IsRun(ws, steps) && i <= |steps| && t in ws[i].cpus && ws[i].cpus[t].pc.User? && Attached(ws[i], t)
    ensures ws[i].table[t] in ws[i].published && ContextOf(ws[i], ws[i].table[t]) == ws[i].cpus[t].live
  {
    RunInv(ws, steps, i);
    assert ThreadOk(ws[i], t);
    assert ws[i].table[t] in Held(ws[i], t);
  }
}
