/** Mutual exclusion, no stranded lock, accounting and storage isolation over whole runs. */
module KernelTheorems {
  import opened FiberStorage
  import opened KernelFibers
  import opened KernelInvariant
  import opened KernelSteps
  import opened Options

  lemma StepKeepsInv(w: World, t: int, e: Event, fids: Fids := OnlyReturned)
    requires Inv(w, fids) && Allowed(w, t, e, fids) && (fids.AnyNumber? ==> !Blocked(w, t, e))
    ensures Inv(Do(w, t, e), fids)
  {
    hide Inv, Confined, LocallyOk, Begin;
    EveryStepOk(w, t, e, fids);
    LocalStep(w, t, Begin(w, t, w.cpus[t], e), fids);
  }

  lemma InitialInv(w: World, fids: Fids)
    requires Initial(w)
    ensures Inv(w, fids)
  {
  }

  /** The invariant holds in every world of every run, under any interleaving: of runs whose callers name
      only fids returned to them, and, as far as it is about locks and states, of any other in which no
      conversion has been blocked. */
  lemma {:induction false} RunInv(ws: seq<World>, steps: seq<(int, Event)>, i: nat, fids: Fids := OnlyReturned)
    requires IsRun(ws, steps, fids) && i <= |steps| && (fids.AnyNumber? ==> Unblocked(ws, steps, i))
    ensures Inv(ws[i], fids)
  {
    hide Inv, Initial, Allowed, Do, Blocked;
    if i == 0 {
      InitialInv(ws[0], fids);
    } else {
      RunInv(ws, steps, i - 1, fids);
      StepKeepsInv(ws[i - 1], steps[i - 1].0, steps[i - 1].1, fids);
    }
  }

  // ---------------------------------------------------------------- ownership

  /** No fiber is current on two threads; the current fiber is locked by its thread, and its
      `state` is that thread's pid. */
  lemma MutualExclusion(ws: seq<World>, steps: seq<(int, Event)>, i: nat, t: int, u: int, fids: Fids := OnlyReturned)
    requires IsRun(ws, steps, fids) && i <= |steps| && (fids.AnyNumber? ==> Unblocked(ws, steps, i))
    requires t in ws[i].cpus && Attached(ws[i], t)
    ensures var w := ws[i];
            && w.table[t] in w.fibers && w.fibers[w.table[t]].holder == Some(t)
            && (!Inactive(w.cpus[t].pc, w.table[t]) ==> w.fibers[w.table[t]].state == t)
            && (u in w.cpus && Attached(w, u) && w.table[u] == w.table[t] ==> u == t)
  {
    RunInv(ws, steps, i, fids);
    var w := ws[i];
    assert ThreadOk(w, t, fids);
    assert FiberOk(w, w.table[t]);
    if u in w.cpus && Attached(w, u) { assert ThreadOk(w, u, fids); }
  }

  /** An unlocked fiber has `state` zero, and a locked one is held by one live thread. */
  lemma LockedIffHeld(ws: seq<World>, steps: seq<(int, Event)>, i: nat, f: int, fids: Fids := OnlyReturned)
    requires IsRun(ws, steps, fids) && i <= |steps| && (fids.AnyNumber? ==> Unblocked(ws, steps, i))
    requires f in ws[i].fibers
    ensures var w, fb := ws[i], ws[i].fibers[f];
            && (fb.holder.None? ==> fb.state == 0)
            && (fb.holder.None? <==> forall t :: t in w.cpus ==> f !in Held(w, t))
            && (fb.holder.Some? ==> fb.holder.value in w.cpus && f in Held(w, fb.holder.value))
            && fb.state in {0} + (if fb.holder.Some? then {fb.holder.value} else {})
  {
    RunInv(ws, steps, i, fids);
    var w := ws[i];
    assert FiberOk(w, f);
    forall t | t in w.cpus && f in Held(w, t) ensures w.fibers[f].holder == Some(t) { assert ThreadOk(w, t, fids); }
  }

  /** After a successful trylock the second test never fires, and the lookup of the previous fiber
      never fails: no exit of the switch leaves a lock behind. */
  lemma NoStrandedLock(ws: seq<World>, steps: seq<(int, Event)>, i: nat, t: int, fids: Fids := OnlyReturned)
    requires IsRun(ws, steps, fids) && i <= |steps| && (fids.AnyNumber? ==> Unblocked(ws, steps, i)) && t in ws[i].cpus
    ensures var w, pc := ws[i], ws[i].cpus[t].pc;
            && (pc.CheckState? ==> pc.fid in w.fibers && w.fibers[pc.fid].state == 0)
            && (pc.FindOld? ==> t in w.table && w.table[t] in w.fibers && w.table[t] != pc.fid)
            && (pc.User? && t in w.table ==> Held(w, t) == {w.table[t]})
            && (pc.User? && t !in w.table ==> Held(w, t) == {})
  {
    RunInv(ws, steps, i, fids);
    var w, pc := ws[i], ws[i].cpus[t].pc;
    assert ThreadOk(w, t, fids);
    if pc.CheckState? {
      assert pc.fid in Held(w, t);
      assert FiberOk(w, pc.fid);
    }
  }

  /** A switch to the thread's own current fiber, or to one another thread holds, fails at the
      trylock and changes only the count of failed activations. */
  lemma BusySwitchFails(w: World, t: int)
    requires Inv(w) && t in w.cpus && w.cpus[t].pc.TryLock? && w.cpus[t].pc.why.Switching?
    requires w.fibers[w.cpus[t].pc.fid].holder.Some?
    ensures var f, w' := w.cpus[t].pc.fid, Do(w, t, Advance);
            && w' == w.(cpus := w.cpus[t := w.cpus[t].(pc := User, ret := -EAGAIN)],
                        fibers := w.fibers[f := w.fibers[f].(failed := w.fibers[f].failed + 1)])
  {
    assert ThreadOk(w, t);
  }

  lemma OwnFiberIsBusy(w: World, t: int)
    requires Inv(w) && t in w.cpus && w.cpus[t].pc.TryLock? && w.cpus[t].pc.why.Switching?
    ensures t in w.table && (w.cpus[t].pc.fid == w.table[t] ==> w.fibers[w.cpus[t].pc.fid].holder == Some(t))
  {
    assert ThreadOk(w, t);
  }

  /** The step is a trylock of fiber `f` that finds its lock taken. */
  ghost predicate Fails(w: World, t: int, e: Event, f: int) {
    && t in w.cpus && e.Advance? && w.cpus[t].pc.TryLock? && w.cpus[t].pc.fid == f
    && f in w.fibers && w.fibers[f].holder.Some?
  }

  /** How many of the first `i` steps are. */
  ghost function Failures(ws: seq<World>, steps: seq<(int, Event)>, f: int, i: nat): nat
    requires i <= |steps| < |ws|
  {
    if i == 0 then 0
    else Failures(ws, steps, f, i - 1) + if Fails(ws[i - 1], steps[i - 1].0, steps[i - 1].1, f) then 1 else 0
  }

  lemma FailedStep(w: World, t: int, e: Event, f: int)
    requires Inv(w) && Allowed(w, t, e) && f in Do(w, t, e).fibers
    ensures Do(w, t, e).fibers[f].failed == (if f in w.fibers then w.fibers[f].failed else 0)
                                            + if Fails(w, t, e, f) then 1 else 0
  {
    hide Held, Apart, FirstZeroBit, ChangeBit, GetValue, CreationContext, Zeroed, FiberOk, Reserved, InConversion;
    InvLocal(w, t, OnlyReturned);
  }

  lemma {:induction false} NeverFailed(ws: seq<World>, steps: seq<(int, Event)>, i: nat, f: int)
    requires IsRun(ws, steps) && i <= |steps| && f !in ws[i].fibers
    ensures Failures(ws, steps, f, i) == 0
  {
    hide Do, Allowed, Initial;
    if i > 0 {
      FibersStay(ws[i - 1], steps[i - 1].0, steps[i - 1].1, f);
      NeverFailed(ws, steps, i - 1, f);
    }
  }

  lemma FibersStay(w: World, t: int, e: Event, f: int)
    requires Allowed(w, t, e)
    ensures f in w.fibers ==> f in Do(w, t, e).fibers
  {
    hide Begin;
  }

  /** The count of failed activations of a fiber is the number of trylocks that found it locked. */
  lemma {:induction false} FailedActivations(ws: seq<World>, steps: seq<(int, Event)>, i: nat, f: int)
    requires IsRun(ws, steps) && i <= |steps| && f in ws[i].fibers
    ensures ws[i].fibers[f].failed == Failures(ws, steps, f, i)
  {
    hide Inv, Do, Allowed, Fails;
    if i > 0 {
      RunInv(ws, steps, i - 1);
      FailedStep(ws[i - 1], steps[i - 1].0, steps[i - 1].1, f);
      if f in ws[i - 1].fibers {
        FailedActivations(ws, steps, i - 1, f);
      } else {
        NeverFailed(ws, steps, i - 1, f);
      }
    }
  }

  // ---------------------------------------------------------------- running time

  lemma {:induction false} TotalNonNegative(slices: seq<Slice>)
    requires forall i :: 0 <= i < |slices| ==> slices[i].start <= slices[i].end
    ensures Total(slices) >= 0
  {
    if slices != [] { TotalNonNegative(slices[..|slices| - 1]); }
  }

  /** The running time of a fiber is the sum of its completed slices, none of them negative;
      it has been activated once more than switched out exactly while a thread counts it as its own. */
  lemma RunningTime(ws: seq<World>, steps: seq<(int, Event)>, i: nat, f: int, fids: Fids := OnlyReturned)
    requires IsRun(ws, steps, fids) && i <= |steps| && (fids.AnyNumber? ==> Unblocked(ws, steps, i))
    requires f in ws[i].fibers
    ensures var w, fb := ws[i], ws[i].fibers[f];
            && fb.running == Total(fb.slices) >= 0
            && (fb.holder.Some? ==> fb.holder.value in w.cpus)
            && fb.activations - |fb.slices| ==
               (if fb.holder.Some? && !Uncounted(w.cpus[fb.holder.value].pc, f) then 1 else 0)
  {
    RunInv(ws, steps, i, fids);
    assert FiberOk(ws[i], f);
    TotalNonNegative(ws[i].fibers[f].slices);
  }

  /** The slice added at a switch-out starts and ends on the clock of the thread leaving. */
  lemma SliceOnOneClock(w: World, t: int)
    requires Inv(w) && t in w.cpus && w.cpus[t].pc.Account?
    ensures var prev, w' := w.cpus[t].pc.prev, Do(w, t, Advance);
            && prev in w.fibers && prev in w'.fibers
            && w.fibers[prev].stampedBy == t && w.fibers[prev].lastActivation <= w.cpus[t].utime
            && w'.fibers[prev].slices ==
               w.fibers[prev].slices + [Slice(t, w.fibers[prev].lastActivation, w.cpus[t].utime)]
  {
    assert ThreadOk(w, t);
    assert w.cpus[t].pc.prev in Held(w, t);
    assert FiberOk(w, w.cpus[t].pc.prev);
  }

  /** A fiber that counts as activated on thread `t` after a step did so before with the same stamp, unless
      the step is that stamp. */
  lemma StampStep(w: World, u: int, e: Event, f: int, t: int)
    requires Inv(w) && Allowed(w, u, e) && t in w.cpus && t in Do(w, u, e).cpus && f in Do(w, u, e).fibers
    requires Do(w, u, e).fibers[f].holder == Some(t) && !Unstamped(Do(w, u, e).cpus[t].pc, f)
    ensures || (u == t && e.Advance? && w.cpus[t].pc.StampTime? && w.cpus[t].pc.fid == f
                && Do(w, u, e).fibers[f].lastActivation == w.cpus[t].utime)
            || (f in w.fibers && w.fibers[f].holder == Some(t) && !Unstamped(w.cpus[t].pc, f)
                && w.fibers[f].lastActivation == Do(w, u, e).fibers[f].lastActivation)
  {
    hide Inv, Begin, Confined, Unstamped, LocallyOk;
    if u == t {
      InvLocal(w, t, OnlyReturned);
      if f in w.fibers { InvFiber(w, f, OnlyReturned); }
      if e.Advance? { OwnStamp(w, t, f); } else { OwnCall(w, t, e, f); }
    } else {
      EveryStepOk(w, u, e);
      OtherStamp(w, u, Begin(w, u, w.cpus[u], e), f, t);
    }
  }

  lemma OwnCall(w: World, t: int, e: Event, f: int)
    requires t in w.cpus && Allowed(w, t, e) && !e.Advance?
    requires f in w.fibers ==> w.fibers[f].holder == Some(t) ==> f in Held(w, t)
    ensures Do(w, t, e).fibers == w.fibers
    ensures Unstamped(w.cpus[t].pc, f) ==> Unstamped(Do(w, t, e).cpus[t].pc, f)
  {
    hide FirstZeroBit, GetValue;
  }

  lemma OwnStampTaking(w: World, t: int, f: int)
    requires Local(w, t, OnlyReturned) && (PhaseOf(w.cpus[t].pc).Locking? || PhaseOf(w.cpus[t].pc).Activating?)
    requires f in Do(w, t, Advance).fibers
    requires Do(w, t, Advance).fibers[f].holder == Some(t) && !Unstamped(Do(w, t, Advance).cpus[t].pc, f)
    requires f in w.fibers && w.fibers[f].holder == Some(t) ==> f in Held(w, t)
    ensures || (w.cpus[t].pc.StampTime? && w.cpus[t].pc.fid == f
                && Do(w, t, Advance).fibers[f].lastActivation == w.cpus[t].utime)
            || (f in w.fibers && w.fibers[f].holder == Some(t) && !Unstamped(w.cpus[t].pc, f)
                && w.fibers[f].lastActivation == Do(w, t, Advance).fibers[f].lastActivation)
  {
    hide FirstZeroBit, ChangeBit, CreationContext, Zeroed, Reserved, FlsOf;
  }

  lemma OwnStampElse(w: World, t: int, f: int)
    requires Local(w, t, OnlyReturned) && !w.cpus[t].pc.User?
    requires !PhaseOf(w.cpus[t].pc).Locking? && !PhaseOf(w.cpus[t].pc).Activating? && f in Do(w, t, Advance).fibers
    requires Do(w, t, Advance).fibers[f].holder == Some(t) && !Unstamped(Do(w, t, Advance).cpus[t].pc, f)
    requires f in w.fibers && w.fibers[f].holder == Some(t) ==> f in Held(w, t)
    ensures || (w.cpus[t].pc.StampTime? && w.cpus[t].pc.fid == f
                && Do(w, t, Advance).fibers[f].lastActivation == w.cpus[t].utime)
            || (f in w.fibers && w.fibers[f].holder == Some(t) && !Unstamped(w.cpus[t].pc, f)
                && w.fibers[f].lastActivation == Do(w, t, Advance).fibers[f].lastActivation)
  {
    hide FirstZeroBit, ChangeBit, CreationContext, Zeroed, Reserved, FlsOf;
  }

  lemma OwnStamp(w: World, t: int, f: int)
    requires t in w.cpus && Local(w, t, OnlyReturned) && !w.cpus[t].pc.User? && f in Do(w, t, Advance).fibers
    requires Do(w, t, Advance).fibers[f].holder == Some(t) && !Unstamped(Do(w, t, Advance).cpus[t].pc, f)
    requires f in w.fibers && w.fibers[f].holder == Some(t) ==> f in Held(w, t)
    ensures || (w.cpus[t].pc.StampTime? && w.cpus[t].pc.fid == f
                && Do(w, t, Advance).fibers[f].lastActivation == w.cpus[t].utime)
            || (f in w.fibers && w.fibers[f].holder == Some(t) && !Unstamped(w.cpus[t].pc, f)
                && w.fibers[f].lastActivation == Do(w, t, Advance).fibers[f].lastActivation)
  {
    hide Local, Unstamped, Held, Begin;
    if PhaseOf(w.cpus[t].pc).Locking? || PhaseOf(w.cpus[t].pc).Activating? {
      OwnStampTaking(w, t, f);
    } else {
      OwnStampElse(w, t, f);
    }
  }

  lemma OtherStamp(w: World, u: int, e: Effect, f: int, t: int)
    requires Inv(w) && u in w.cpus && Confined(w, u, e) && t in w.cpus && u != t
    requires var w' := Apply(w, u, e);
             f in w'.fibers && w'.fibers[f].holder == Some(t) && !Unstamped(w'.cpus[t].pc, f)
    ensures f in w.fibers && w.fibers[f].holder == Some(t) && !Unstamped(w.cpus[t].pc, f)
    ensures w.fibers[f].lastActivation == Apply(w, u, e).fibers[f].lastActivation
  {
    hide PcOk, Apart, FiberOk, ThreadOk;
  }

  /** While a fiber counts as activated, its stamp is what the clock of its thread showed at that thread's
      step `k`, the one that counts the stay as begun. */
  lemma {:induction false} StampedAt(ws: seq<World>, steps: seq<(int, Event)>, i: nat, f: int, t: int) returns (k: nat)
    requires IsRun(ws, steps) && i <= |steps| && t in ws[i].cpus && f in ws[i].fibers
    requires ws[i].fibers[f].holder == Some(t) && !Unstamped(ws[i].cpus[t].pc, f)
    ensures k < i && steps[k] == (t, Advance) && t in ws[k].cpus
    ensures ws[k].cpus[t].pc.StampTime? && ws[k].cpus[t].pc.fid == f
    ensures ws[k].cpus[t].utime == ws[i].fibers[f].lastActivation
  {
    hide Inv, Do, Allowed, Unstamped;
    StartsEmpty(ws, steps, i, f);
    RunInv(ws, steps, i - 1);
    SameCpus(ws[i - 1], steps[i - 1].0, steps[i - 1].1);
    StampStep(ws[i - 1], steps[i - 1].0, steps[i - 1].1, f, t);
    var w, w' := ws[i - 1], ws[i];
    if f in w.fibers && w.fibers[f].holder == Some(t) && !Unstamped(w.cpus[t].pc, f)
       && w.fibers[f].lastActivation == w'.fibers[f].lastActivation {
      k := StampedAt(ws, steps, i - 1, f, t);
    } else {
      k := i - 1;
    }
  }

  lemma StartsEmpty(ws: seq<World>, steps: seq<(int, Event)>, i: nat, f: int)
    requires IsRun(ws, steps) && i <= |steps| && f in ws[i].fibers
    ensures i > 0
  {
    hide Allowed, Do;
  }

  lemma SameCpus(w: World, u: int, e: Event)
    requires Allowed(w, u, e)
    ensures Do(w, u, e).cpus.Keys == w.cpus.Keys
  {
    hide Begin;
  }

  /** The slice added when thread `t` leaves a fiber runs from the time its clock showed when it took the
      fiber, at step `k`, to the time it shows now. */
  lemma SliceIsStay(ws: seq<World>, steps: seq<(int, Event)>, i: nat, t: int) returns (k: nat)
    requires IsRun(ws, steps) && i < |steps| && steps[i] == (t, Advance) && t in ws[i].cpus && ws[i].cpus[t].pc.Account?
    ensures k < i && steps[k] == (t, Advance) && t in ws[k].cpus
    ensures ws[k].cpus[t].pc.StampTime? && ws[k].cpus[t].pc.fid == ws[i].cpus[t].pc.prev
    ensures var g := ws[i].cpus[t].pc.prev;
            && g in ws[i].fibers && g in ws[i + 1].fibers
            && ws[i + 1].fibers[g].slices ==
               ws[i].fibers[g].slices + [Slice(t, ws[k].cpus[t].utime, ws[i].cpus[t].utime)]
  {
    hide Inv, Do, Allowed, Initial, ThreadOk, FiberOk;
    RunInv(ws, steps, i);
    SliceOnOneClock(ws[i], t);
    LeavingHeld(ws[i], t);
    k := StampedAt(ws, steps, i, ws[i].cpus[t].pc.prev, t);
  }

  lemma LeavingHeld(w: World, t: int)
    requires Inv(w) && t in w.cpus && w.cpus[t].pc.Account?
    ensures w.cpus[t].pc.prev in w.fibers && w.fibers[w.cpus[t].pc.prev].holder == Some(t)
    ensures !Unstamped(w.cpus[t].pc, w.cpus[t].pc.prev)
  {
    assert ThreadOk(w, t);
    assert w.cpus[t].pc.prev in Held(w, t);
  }

  // ---------------------------------------------------------------- calls end

  /** How many steps of its own a thread takes at most until its call is over. */
  function StepsLeft(pc: Pc): nat {
    match pc
    case User => 0
    case NextFid(_) => 11
    case AddFiber(_, _) => 10
    case SetContext(_, _) => 2
    case Return(_, _) => 1
    case TryLock(_, why) => if why.Switching? then 14 else 9
    case CheckState(_, why) => if why.Switching? then 13 else 8
    case FindOld(_) => 12
    case SetState(_, why, _) => if why.Switching? then 11 else 7
    case CountActivation(_, why, _) => if why.Switching? then 10 else 6
    case StampTime(_, why, _) => if why.Switching? then 9 else 5
    case SetCurrent(_, why, _) => if why.Switching? then 8 else 4
    case SaveRegs(_, _) => 7
    case SaveFpu(_, _) => 6
    case Account(_, _) => 5
    case ClearState(_, _) => 4
    case Unlock(_, _) => 3
    case LoadRegs(_) => 2
    case LoadFpu(_) => 1
    case FlsAllocate(_, _) => 1
    case FlsRelease(_, _) => 1
    case FlsStore(_, _, _) => 1
  }

  /** Nobody waits: whatever other threads do, a thread in the kernel gets nearer to the end of its call with
      each of its steps, and no call takes more than fifteen with the one that starts it. */
  lemma CallsEnd(w: World, t: int, e: Event)
    requires Possible(w, t, e)
    ensures e.Advance? ==> StepsLeft(Do(w, t, e).cpus[t].pc) < StepsLeft(w.cpus[t].pc)
    ensures StepsLeft(Do(w, t, e).cpus[t].pc) <= 14 && (StepsLeft(w.cpus[t].pc) == 0 <==> w.cpus[t].pc.User?)
    ensures forall u | u in w.cpus && u != t :: Do(w, t, e).cpus[u] == w.cpus[u]
  {
    hide Begin, StepsLeft;
    EffectEnds(w, t, w.cpus[t], e);
    StepsOf(w.cpus[t].pc);
    StepsOf(Do(w, t, e).cpus[t].pc);
  }

  lemma EffectEnds(w: World, t: int, cpu: Cpu, e: Event)
    requires e.Advance? ==> !cpu.pc.User?
    ensures e.Advance? ==> StepsLeft(Begin(w, t, cpu, e).cpu.pc) < StepsLeft(cpu.pc)
  {
    hide At, FlsOf, ChangeBit, FirstZeroBit, GetValue, CreationContext, FreshFiber;
  }

  lemma StepsOf(pc: Pc)
    ensures StepsLeft(pc) <= 14 && (StepsLeft(pc) == 0 <==> pc.User?)
  {
  }

  // ---------------------------------------------------------------- calls refused at once

  /** Which calls are refused as soon as they are made, with which number, and that nothing else changes;
      every other one goes on. */
  lemma RefusedCalls(w: World, t: int, e: Event)
    requires Inv(w) && Allowed(w, t, e)
    ensures var w' := Do(w, t, e);
            && (e.ConvertThread? ==> if t in w.table then Answered(w, t, -17, w') else !w'.cpus[t].pc.User?)
            && (e.CreateFiber? ==> if t !in w.table then Answered(w, t, -3, w') else !w'.cpus[t].pc.User?)
            && (e.SwitchTo? ==>
                  if t !in w.table || e.fid !in w.fibers then Answered(w, t, -3, w') else !w'.cpus[t].pc.User?)
            && (e.FlsAlloc? && t !in w.table ==> Answered(w, t, -3, w'))
            && (e.FlsGet? && t !in w.table ==> Answered(w, t, -3, w'))
            && (e.FlsFree? && t !in w.table ==> Answered(w, t, if 0 <= e.idx < 4096 then -3 else -22, w'))
            && (e.FlsSet? && t !in w.table ==> Answered(w, t, if 0 <= e.idx < 4096 then -3 else -22, w'))
  {
    hide Inv, FirstZeroBit;
  }

  /** All that happened is that the thread got this answer. */
  ghost predicate Answered(w: World, t: int, code: int, w': World)
    requires t in w.cpus
  {
    w' == w.(cpus := w.cpus[t := w.cpus[t].(ret := code)])
  }

  /** The answer of a storage call is that of the storage of the thread's own fiber, whether it is refused
      at once or answered at its end. */
  lemma StorageRefusals(w: World, t: int, e: Event)
    requires Inv(w) && Allowed(w, t, e) && t in w.table && (e.FlsAlloc? || e.FlsFree? || e.FlsSet?)
    ensures w.table[t] in w.fibers
    ensures var w', s := Do(w, t, e), FlsOf(w, w.table[t]);
            && (e.FlsAlloc? ==> if Alloc(s).0 < 0 then Answered(w, t, Alloc(s).0, w') else !w'.cpus[t].pc.User?)
            && (e.FlsFree? ==>
                  if Free(s, e.idx).0 < 0 then Answered(w, t, Free(s, e.idx).0, w') else !w'.cpus[t].pc.User?)
            && (e.FlsSet? ==>
                  var r := SetValue(s, e.idx, e.value).0;
                  if r < 0 then Answered(w, t, r, w') else !w'.cpus[t].pc.User?)
  {
    assert ThreadOk(w, t);
    assert w.table[t] in Held(w, t);
  }

  // ---------------------------------------------------------------- fiber-local storage

  /** The test and the write of a storage call act as one: nothing interferes between them. */
  lemma StorageCallsAtomic(w: World, t: int)
    requires Inv(w) && t in w.cpus && !w.cpus[t].pc.User?
    ensures var pc, w' := w.cpus[t].pc, Do(w, t, Advance);
            && (pc.FlsAllocate? ==>
                  (w'.cpus[t].ret, FlsOf(w', pc.fid)) == Alloc(FlsOf(w, pc.fid)) && w'.cpus[t].ret == pc.idx)
            && (pc.FlsRelease? ==> (w'.cpus[t].ret, FlsOf(w', pc.fid)) == Free(FlsOf(w, pc.fid), pc.idx))
            && (pc.FlsStore? ==> (w'.cpus[t].ret, FlsOf(w', pc.fid)) == SetValue(FlsOf(w, pc.fid), pc.idx, pc.value))
  {
    assert ThreadOk(w, t);
  }

  /** `e` stores to or frees index `idx` of fiber `f`. */
  ghost predicate Overwrites(w: World, t: int, e: Event, f: int, idx: int)
    requires t in w.cpus
  {
    var pc := w.cpus[t].pc;
    && e.Advance?
    && ((pc.FlsStore? && pc.fid == f && pc.idx == idx) || (pc.FlsRelease? && pc.fid == f && pc.idx == idx))
  }

  /** Only the thread whose current fiber it is changes a fiber's storage, and a live index only
      by storing to it or freeing it. */
  lemma StorageStep(w: World, t: int, e: Event, f: int, idx: int)
    requires Inv(w) && Allowed(w, t, e) && f in w.fibers
    ensures var w' := Do(w, t, e);
            && f in w'.fibers
            && (FlsOf(w', f) != FlsOf(w, f) ==> Attached(w, t) && w.table[t] == f)
            && (idx in Live(FlsOf(w, f)) && !Overwrites(w, t, e, f, idx) ==>
                  idx in Live(FlsOf(w', f)) && GetValue(FlsOf(w', f), idx) == GetValue(FlsOf(w, f), idx))
  {
    assert ThreadOk(w, t);
    if e.Advance? && w.cpus[t].pc.AddFiber? { assert f != w.cpus[t].pc.fid; }
  }

  /** What a storage call of a thread in user code does at once: it looks up the thread's own fiber, and
      a get returns what that holds, changing nothing. */
  lemma GetIsRead(w: World, t: int, idx: int)
    requires Inv(w) && Allowed(w, t, FlsGet(idx)) && t in w.table
    ensures w.table[t] in w.fibers
    ensures Do(w, t, FlsGet(idx)) ==
            w.(cpus := w.cpus[t := w.cpus[t].(ret := GetValue(FlsOf(w, w.table[t]), idx))])
  {
    assert ThreadOk(w, t);
    assert w.table[t] in Held(w, t);
  }

  /** The values of the fiber a thread runs are its own: a get returns what that fiber last set, on
      whatever thread it ran then, if it has not set or freed the index since. */
  lemma GetReturnsSet(ws: seq<World>, steps: seq<(int, Event)>, i: nat, j: nat, t: int, u: int)
    requires IsRun(ws, steps) && i < j < |steps| && steps[i] == (t, Advance)
    requires t in ws[i].cpus && ws[i].cpus[t].pc.FlsStore?
    requires var f, idx := ws[i].cpus[t].pc.fid, ws[i].cpus[t].pc.idx;
             && steps[j] == (u, FlsGet(idx)) && u in ws[j].cpus && u in ws[j].table && ws[j].table[u] == f
             && forall k :: i < k < j ==> steps[k].0 in ws[k].cpus && !Overwrites(ws[k], steps[k].0, steps[k].1, f, idx)
    ensures u in ws[j + 1].cpus && ws[j + 1].cpus[u].ret == ws[i].cpus[t].pc.value
  {
    hide Inv, Initial, Do, Overwrites, GetValue, FlsOf, SetValue, ThreadOk;
    var f, idx := ws[i].cpus[t].pc.fid, ws[i].cpus[t].pc.idx;
    RunInv(ws, steps, i);
    StoreStores(ws[i], t);
    ValueKept(ws, steps, f, idx, i + 1, j);
    RunInv(ws, steps, j);
    GetIsRead(ws[j], u, idx);
  }

  lemma StoreStores(w: World, t: int)
    requires Inv(w) && t in w.cpus && w.cpus[t].pc.FlsStore?
    ensures var f, idx, w' := w.cpus[t].pc.fid, w.cpus[t].pc.idx, Do(w, t, Advance);
            f in w'.fibers && idx in Live(FlsOf(w', f)) && GetValue(FlsOf(w', f), idx) == w.cpus[t].pc.value
  {
    assert ThreadOk(w, t);
  }

  /** A value set is the value got until the fiber itself sets or frees that index,
      whatever other fibers do. */
  lemma {:induction false} ValueKept(ws: seq<World>, steps: seq<(int, Event)>, f: int, idx: int, i: nat, j: nat)
    requires IsRun(ws, steps) && i <= j <= |steps|
    requires f in ws[i].fibers && idx in Live(FlsOf(ws[i], f))
    requires forall k :: i <= k < j ==> steps[k].0 in ws[k].cpus && !Overwrites(ws[k], steps[k].0, steps[k].1, f, idx)
    ensures f in ws[j].fibers && idx in Live(FlsOf(ws[j], f))
    ensures GetValue(FlsOf(ws[j], f), idx) == GetValue(FlsOf(ws[i], f), idx)
    decreases j - i
  {
    hide Inv, Initial, Allowed, Do, Overwrites, Live, GetValue, FlsOf;
    if i < j {
      ValueKept(ws, steps, f, idx, i, j - 1);
      RunInv(ws, steps, j - 1);
      StorageStep(ws[j - 1], steps[j - 1].0, steps[j - 1].1, f, idx);
    }
  }
}
