/** The user-space protocol refines the same one-owner machine as the kernel's. */
module UserRefinement {
  import M = FiberMachine
  import opened Options
  import opened UserFibers

  /** The fiber a thread runs: during a switch the previous one until its flag is cleared. */
  ghost function Runs(w: World, t: int): Option<int>
    requires t in w.cpus
  {
    var pc := w.cpus[t].pc;
    if pc.Save? || pc.Unlock? then Some(pc.from) else w.cpus[t].current
  }

  ghost function ContextOf(w: World, f: int): Context
    requires f in w.fibers
  {
    var fb := w.fibers[f];
    if fb.holder.Some? && fb.holder.value in w.cpus && Runs(w, fb.holder.value) == Some(f)
       && !w.cpus[fb.holder.value].pc.Load?
    then w.cpus[fb.holder.value].live
    else fb.saved
  }

  ghost function Abs(w: World): M.Machine<Context> {
    M.Machine(
      map t | t in w.cpus && Runs(w, t).Some? :: Runs(w, t).value,
      map f | f in w.published && f in w.fibers :: ContextOf(w, f))
  }

  ghost function ActionOf(w: World, t: int, e: Event): M.Action<Context>
    requires t in w.cpus
  {
    var cpu := w.cpus[t];
    match e
    case Compute(live) => if cpu.current.Some? then M.Run(t, live) else M.Stutter
    case CreateFiber(c) => M.Create(w.nextId, c)
    case Advance =>
      if cpu.pc.Unlock? then M.Switch(t, cpu.pc.fid)
      else if cpu.pc.Adopt? then M.Attach(t, cpu.pc.fid, cpu.live)
      else M.Stutter
    case _ => M.Stutter
  }

  /** What the step does to the running fibers, seen from thread `u`. */
  lemma StepRuns(w: World, t: int, e: Event, u: int)
    requires Inv(w) && Allowed(w, t, e) && !LoadRetakes(w, t, e) && u in w.cpus
    ensures var a := ActionOf(w, t, e);
            Runs(Do(w, t, e), u) == if u == t && (a.Switch? || a.Attach?) then Some(a.fiber) else Runs(w, u)
  {
    assert ThreadOk(w, t) && ThreadOk(w, u);
  }

  /** What the step does to the context of fiber `f`. */
  lemma StepContext(w: World, t: int, e: Event, f: int)
    requires Inv(w) && Allowed(w, t, e) && !LoadRetakes(w, t, e) && f in w.published
    ensures var a, w' := ActionOf(w, t, e), Do(w, t, e);
            && f in w'.fibers
            && ContextOf(w', f) == if a.Run? && Runs(w, t) == Some(f) then a.context else ContextOf(w, f)
  {
    assert ThreadOk(w, t) && FiberOk(w, f);
    if w.fibers[f].holder.Some? { assert ThreadOk(w, w.fibers[f].holder.value); }
  }

  lemma StepEnabled(w: World, t: int, e: Event)
    requires Inv(w) && Allowed(w, t, e) && !LoadRetakes(w, t, e)
    ensures M.Enabled(Abs(w), ActionOf(w, t, e))
  {
    assert ThreadOk(w, t);
    var a := ActionOf(w, t, e);
    if a.Switch? {
      forall u | u in w.cpus ensures Runs(w, u) != Some(a.fiber) {
        assert ThreadOk(w, u);
        assert a.fiber in Held(w, t);
      }
    } else if a.Run? {
      assert w.cpus[t].current.value in Held(w, t);
    } else if a.Create? {
      forall f | f in w.fibers ensures f < w.nextId { assert FiberOk(w, f); }
    }
  }

  /** What is published by a step, and its context. */
  lemma StepNew(w: World, t: int, e: Event)
    requires Inv(w) && Allowed(w, t, e) && !LoadRetakes(w, t, e)
    ensures var a, w' := ActionOf(w, t, e), Do(w, t, e);
            && (a.Create? || a.Attach? ==>
                  && w'.published == w.published + {a.fiber} && a.fiber in w'.fibers
                  && ContextOf(w', a.fiber) == a.context)
            && (!a.Create? && !a.Attach? ==> w'.published == w.published)
  {
    assert ThreadOk(w, t);
  }

  lemma StepRefines(w: World, t: int, e: Event)
    requires Inv(w) && Allowed(w, t, e) && !LoadRetakes(w, t, e)
    ensures M.Next(Abs(w), Abs(Do(w, t, e)), ActionOf(w, t, e))
  {
    var w', a := Do(w, t, e), ActionOf(w, t, e);
    hide Inv, Do, ActionOf, Runs, ContextOf, Abs, M.Enabled, Allowed;
    assert t in w.cpus;
    StepEnabled(w, t, e);
    StepNew(w, t, e);
    StepPublishes(w, t, e);
    forall u | u in w.cpus
      ensures Runs(w', u) == if u == t && (a.Switch? || a.Attach?) then Some(a.fiber) else Runs(w, u)
    {
      StepRuns(w, t, e, u);
    }
    forall f | f in w.published
      ensures f in w.fibers && f in w'.fibers
              && ContextOf(w', f) == if a.Run? && Runs(w, t) == Some(f) then a.context else ContextOf(w, f)
    {
      StepContext(w, t, e, f);
    }
    ActionIsOf(w, t, e);
    Shows(w, t, a, w');
  }

  lemma ActionIsOf(w: World, t: int, e: Event)
    requires t in w.cpus
    ensures var a := ActionOf(w, t, e); a.Run? || a.Switch? || a.Attach? ==> a.thread == t
  {
  }

  /** Worlds that differ by what an action does are machines one step apart. */
  lemma Shows(w: World, t: int, a: M.Action<Context>, w': World)
    requires t in w.cpus && w'.cpus.Keys == w.cpus.Keys && M.Enabled(Abs(w), a)
    requires a.Run? || a.Switch? || a.Attach? ==> a.thread == t
    requires w'.published == w.published + if a.Create? || a.Attach? then {a.fiber} else {}
    requires forall u | u in w.cpus ::
               Runs(w', u) == if u == t && (a.Switch? || a.Attach?) then Some(a.fiber) else Runs(w, u)
    requires forall f | f in w.published ::
               f in w.fibers && f in w'.fibers
               && ContextOf(w', f) == if a.Run? && Runs(w, t) == Some(f) then a.context else ContextOf(w, f)
    requires a.Create? || a.Attach? ==> a.fiber in w'.fibers && ContextOf(w', a.fiber) == a.context
    ensures M.Next(Abs(w), Abs(w'), a)
  {
    hide Runs, ContextOf;
    var m, m' := Abs(w), Abs(w');
    assert m'.running == if a.Switch? || a.Attach? then m.running[t := a.fiber] else m.running;
    match a
    case Create(f, c) => assert m'.context == m.context[f := c];
    case Attach(_, f, c) => assert m'.context == m.context[f := c];
    case Run(_, c) => assert m'.context == m.context[m.running[t] := c];
    case Switch(_, _) => assert m'.context == m.context;
    case Stutter => assert m'.context == m.context;
  }

  ghost function Machines(ws: seq<World>): (ms: seq<M.Machine<Context>>)
    ensures |ms| == |ws| && forall i :: 0 <= i < |ws| ==> ms[i] == Abs(ws[i])
  {
    seq(|ws|, i requires 0 <= i < |ws| => Abs(ws[i]))
  }

  ghost function Actions(ws: seq<World>, steps: seq<(int, Event)>): (actions: seq<M.Action<Context>>)
    requires IsRun(ws, steps)
    ensures |actions| == |steps|
    ensures forall i :: 0 <= i < |steps| ==>
              steps[i].0 in ws[i].cpus && actions[i] == ActionOf(ws[i], steps[i].0, steps[i].1)
  {
    seq(|steps|, i requires 0 <= i < |steps| =>
      assert Allowed(ws[i], steps[i].0, steps[i].1); ActionOf(ws[i], steps[i].0, steps[i].1))
  }

  /** Every run of the user-space code is a run of the same one-owner machine as the kernel's. */
  lemma RunRefinesOneOwner(ws: seq<World>, steps: seq<(int, Event)>)
    requires IsRun(ws, steps) && Straight(ws, steps, |steps|)
    ensures M.IsRun(Machines(ws), Actions(ws, steps)) && M.OneOwner(Machines(ws)[0])
  {
    InitialMachine(ws[0]);
    hide Inv, Abs, ActionOf, M.Next, M.OneOwner;
    var ms, actions := Machines(ws), Actions(ws, steps);
    forall i | 0 <= i < |actions| ensures M.Next(ms[i], ms[i + 1], actions[i]) {
      RunInv(ws, steps, i);
      StepRefines(ws[i], steps[i].0, steps[i].1);
    }
  }

  lemma InitialMachine(w: World)
    requires Initial(w)
    ensures M.OneOwner(Abs(w)) && Abs(w).running == map[] && Abs(w).context == map[]
  {
  }

  /** A fiber finds its context as it left it, whatever the other fibers and threads did. */
  lemma ContextIntegrity(ws: seq<World>, steps: seq<(int, Event)>, f: int, i: nat, j: nat)
    requires IsRun(ws, steps) && Straight(ws, steps, |steps|) && i <= j <= |steps| && f in ws[i].published
    requires f in ws[i].fibers
    requires forall k :: i <= k < j ==> !M.Runs(Abs(ws[k]), Actions(ws, steps)[k], f)
    ensures f in ws[j].published && f in ws[j].fibers && ContextOf(ws[j], f) == ContextOf(ws[i], f)
  {
    RunRefinesOneOwner(ws, steps);
    var ms, actions := Machines(ws), Actions(ws, steps);
    hide Inv, IsRun, ContextOf, Runs, M.Next, M.IsRun, ActionOf;
    assert forall k :: i <= k < j ==> !M.Runs(ms[k], actions[k], f);
    assert f in ms[i].context;
    M.ContextKept(ms, actions, f, i, j);
    assert f in ms[j].context;
  }

  /** Back from a switch, the thread's live context is that of its current fiber. */
  lemma LoadedContext(ws: seq<World>, steps: seq<(int, Event)>, i: nat, t: int)
    requires IsRun(ws, steps) && i <= |steps| && Straight(ws, steps, i)
    requires t in ws[i].cpus && ws[i].cpus[t].pc.User? && ws[i].cpus[t].current.Some?
    ensures var f := ws[i].cpus[t].current.value; f in ws[i].fibers && ContextOf(ws[i], f) == ws[i].cpus[t].live
  {
    RunInv(ws, steps, i);
    assert ThreadOk(ws[i], t);
    assert ws[i].cpus[t].current.value in Held(ws[i], t);
  }
}
