/** The kernel protocol when callers name fids that were never returned to them. */
module KernelGuesses {
  import opened FiberStorage
  import opened KernelFibers
  import opened KernelInvariant
  import opened KernelSteps
  import opened KernelTheorems
  import opened Options

  // ---------------------------------------------------------------- a conversion blocked

  /** A thread in the table that is not being converted and has no current fiber. */
  ghost predicate Fiberless(w: World, t: int) {
    t in w.cpus && t in w.table && w.table[t] == NO_FIBERS && !InConversion(w.cpus[t].pc)
  }

  lemma BlockedLosesFiber(w: World, t: int)
    requires Inv(w, AnyNumber) && Blocked(w, t, Advance)
    ensures Fiberless(Do(w, t, Advance), t)
    ensures Do(w, t, Advance).cpus[t].pc.User? && Do(w, t, Advance).cpus[t].ret == -EAGAIN
  {
    assert ThreadOk(w, t, AnyNumber);
  }

  lemma InvNotFiberless(w: World, t: int)
    requires Inv(w, AnyNumber)
    ensures !Fiberless(w, t)
  {
    if t in w.cpus { assert ThreadOk(w, t, AnyNumber); }
  }

  /** Where a thread without a fiber can be: a switch of it never gets past the look-up. */
  ghost predicate Stuck(pc: Pc) {
    match pc
    case SetState(_, _, _) => false
    case CountActivation(_, _, _) => false
    case StampTime(_, _, _) => false
    case SetCurrent(_, _, _) => false
    case _ => true
  }

  ghost predicate Numbered(pc: Pc) {
    && (!pc.User? && !pc.NextFid? ==> pc.fid != NO_FIBERS)
    && (pc.SetState? || pc.CountActivation? || pc.StampTime? || pc.SetCurrent? ==>
          pc.why.Switching? ==> pc.prev != NO_FIBERS)
    && (pc.SaveRegs? || pc.SaveFpu? || pc.Account? || pc.ClearState? || pc.Unlock? ==> pc.prev != NO_FIBERS)
  }

  /** Fids count from zero, so NO_FIBERS names no fiber. */
  ghost predicate Counted(w: World) {
    && w.fidCount >= NO_FIBERS && NO_FIBERS !in w.fibers
    && (forall t | t in w.cpus :: Numbered(w.cpus[t].pc))
    && (forall t | Fiberless(w, t) :: Stuck(w.cpus[t].pc))
  }

  /** What the step does to its own thread. */
  lemma OwnStep(w: World, t: int, e: Event)
    requires Counted(w) && Possible(w, t, e)
    ensures var effect, w' := Begin(w, t, w.cpus[t], e), Do(w, t, e);
            && Numbered(effect.cpu.pc) && effect.fidCount >= NO_FIBERS
            && (effect.fiber.Some? ==> effect.fiber.value.0 != NO_FIBERS)
            && (Fiberless(w', t) ==> Stuck(effect.cpu.pc)) && (Fiberless(w, t) ==> Fiberless(w', t))
  {
    hide At, ChangeBit, FirstZeroBit, FlsOf, CreationContext, FreshFiber;
  }

  lemma CountedStep(w: World, t: int, e: Event)
    requires Counted(w) && Possible(w, t, e)
    ensures Counted(Do(w, t, e))
    ensures forall u | Fiberless(w, u) :: Fiberless(Do(w, t, e), u)
  {
    hide Begin, Stuck, Numbered, InConversion;
    OwnStep(w, t, e);
    var w' := Do(w, t, e);
    forall u | u in w.cpus && u != t ensures w'.cpus[u] == w.cpus[u] && (Fiberless(w', u) <==> Fiberless(w, u)) {}
  }

  lemma {:induction false} RunCounted(ws: seq<World>, steps: seq<(int, Event)>, fids: Fids, i: nat)
    requires IsRun(ws, steps, fids) && i <= |steps|
    ensures Counted(ws[i])
  {
    hide Counted, Possible, Do;
    if i == 0 {
      InitialCounted(ws[0]);
    } else {
      RunCounted(ws, steps, fids, i - 1);
      CountedStep(ws[i - 1], steps[i - 1].0, steps[i - 1].1);
    }
  }

  lemma InitialCounted(w: World)
    requires Initial(w)
    ensures Counted(w)
  {
  }

  /** A thread left without a fiber stays so for good. */
  lemma {:induction false} FiberlessForGood(ws: seq<World>, steps: seq<(int, Event)>, fids: Fids, t: int, i: nat,
      j: nat)
    requires IsRun(ws, steps, fids) && i <= j <= |steps| && Fiberless(ws[i], t)
    ensures Fiberless(ws[j], t)
    decreases j - i
  {
    hide Counted, Possible, Do, Fiberless, Initial;
    if i < j {
      FiberlessForGood(ws, steps, fids, t, i, j - 1);
      RunCounted(ws, steps, fids, j - 1);
      CountedStep(ws[j - 1], steps[j - 1].0, steps[j - 1].1);
    }
  }

  /** Whatever fids callers name, a run has left a thread without a fiber exactly when a conversion has
      found the lock of its new fiber taken. */
  lemma FiberlessIffBlocked(ws: seq<World>, steps: seq<(int, Event)>, n: nat)
    requires IsRun(ws, steps, AnyNumber) && n <= |steps|
    ensures (exists t :: Fiberless(ws[n], t)) <==> !Unblocked(ws, steps, n)
  {
    hide Initial, Do, Allowed, Inv, Fiberless, Blocked;
    if Unblocked(ws, steps, n) {
      RunInv(ws, steps, n, AnyNumber);
      forall t ensures !Fiberless(ws[n], t) { InvNotFiberless(ws[n], t); }
    } else {
      var i := FirstBlocked(ws, steps, n);
      RunInv(ws, steps, i, AnyNumber);
      BlockedStep(ws, steps, i);
      FiberlessForGood(ws, steps, AnyNumber, steps[i].0, i + 1, n);
    }
  }

  lemma {:induction false} FirstBlocked(ws: seq<World>, steps: seq<(int, Event)>, n: nat) returns (i: nat)
    requires n <= |steps| < |ws| && !Unblocked(ws, steps, n)
    ensures i < n && Unblocked(ws, steps, i) && Blocked(ws[i], steps[i].0, steps[i].1)
  {
    hide Blocked;
    i := 0;
    while !Blocked(ws[i], steps[i].0, steps[i].1)
      invariant i < n && Unblocked(ws, steps, i)
      decreases n - i
    {
      i := i + 1;
    }
  }

  lemma BlockedStep(ws: seq<World>, steps: seq<(int, Event)>, i: nat)
    requires IsRun(ws, steps, AnyNumber) && i < |steps| && Inv(ws[i], AnyNumber)
    requires Blocked(ws[i], steps[i].0, steps[i].1)
    ensures Fiberless(ws[i + 1], steps[i].0)
  {
    hide Inv, Do, Initial, Fiberless;
    assert steps[i].1 == Advance;
    BlockedLosesFiber(ws[i], steps[i].0);
  }

  /** So, at every point of every run: all threads in the table that are back in user code have had a
      current fiber throughout exactly when no conversion was blocked. */
  lemma ConvertedIffUnblocked(ws: seq<World>, steps: seq<(int, Event)>, n: nat)
    requires IsRun(ws, steps, AnyNumber) && n <= |steps|
    ensures (forall i, t :: 0 <= i <= n && t in ws[i].cpus && t in ws[i].table && ws[i].cpus[t].pc.User? ==>
               Attached(ws[i], t)) <==>
            Unblocked(ws, steps, n)
  {
    if Unblocked(ws, steps, n) {
      forall i, t | 0 <= i <= n && t in ws[i].cpus && t in ws[i].table && ws[i].cpus[t].pc.User?
        ensures Attached(ws[i], t)
      {
        hide IsRun, Inv, Blocked;
        FiberlessIffBlocked(ws, steps, i);
        assert !Fiberless(ws[i], t);
      }
    } else {
      var i := FirstBlocked(ws, steps, n);
      RunInv(ws, steps, i, AnyNumber);
      BlockedStep(ws, steps, i);
      var t := steps[i].0;
      BlockedLosesFiber(ws[i], t);
      assert !Attached(ws[i + 1], t);
    }
  }

  /** A thread left so locks any free fiber it switches to, and fails with the lock still held. */
  lemma FiberlessSwitchStrandsLock(w: World, t: int, g: int)
    requires Counted(w) && Fiberless(w, t) && w.cpus[t].pc.User?
    requires g in w.fibers && w.fibers[g].holder.None? && w.fibers[g].state == 0
    ensures Possible(w, t, SwitchTo(g))
    ensures var w1 := Do(w, t, SwitchTo(g));
            var w2 := Do(w1, t, Advance);
            var w3 := Do(w2, t, Advance);
            var w4 := Do(w3, t, Advance);
            && w4.cpus[t].pc.User? && w4.cpus[t].ret == -ESRCH && Fiberless(w4, t)
            && w4.fibers[g].holder == Some(t) && w4.fibers[g].state == 0
  {
  }

  // ---------------------------------------------------------------- a creation not over

  /** Thread `u` is about to load fiber `f`, which thread `c` is creating and whose context is still the
      one it was published with. Which comes first decides: before the creator's last writes `u` gets
      the creator's own context, and two threads go on with one set of registers, on one stack; after
      them it gets the context meant for the fiber. */
  lemma CreatorsContext(w: World, c: int, u: int)
    requires c in w.cpus && u in w.cpus && c != u
    requires w.cpus[c].pc.SetContext? && w.cpus[c].pc.make.ForEntry? && w.cpus[u].pc == LoadRegs(w.cpus[c].pc.fid)
    requires At(w, w.cpus[c].pc.fid).saved == w.cpus[c].live
    ensures var first := Do(Do(w, u, Advance), u, Advance);
            && first.cpus[u].pc == User && first.cpus[u].ret == SUCCESS
            && first.cpus[u].live == first.cpus[c].live == w.cpus[c].live
    ensures var second := Do(Do(Do(w, c, Advance), u, Advance), u, Advance);
            && second.cpus[u].pc == User && second.cpus[u].ret == SUCCESS
            && EnteredFresh(second.cpus[u].live, w.cpus[c].pc.make, w.cpus[c].live)
  {
  }

  /** Another thread gets that far whenever it names the fiber while it is being created. */
  lemma CreatedInTable(w: World, c: int, u: int)
    requires Inv(w) && c in w.cpus && w.cpus[c].pc.SetContext?
    requires u in w.cpus && u != c && w.cpus[u].pc.User? && Attached(w, u)
    ensures var f := w.cpus[c].pc.fid;
            && f in w.fibers && f !in w.published && w.fibers[f].holder.None? && w.fibers[f].state == 0
            && w.fibers[f].saved == w.cpus[c].live && w.table[u] in w.fibers && w.table[u] != f
            && Possible(w, u, SwitchTo(f)) && !Allowed(w, u, SwitchTo(f))
  {
    assert ThreadOk(w, c) && ThreadOk(w, u);
    assert w.table[u] in Held(w, u);
    assert FiberOk(w, w.cpus[c].pc.fid);
  }
}
