/** Every step keeps the kernel invariant. */
module KernelSteps {
  import opened FiberStorage
  import opened KernelFibers
  import opened KernelInvariant
  import opened Options

  /** One step of thread `t` in the kernel is confined and leaves its own part in order. */
  ghost predicate StepOk(w: World, t: int, e: Event, fids: Fids := OnlyReturned)
    requires t in w.cpus
  {
    var effect := Begin(w, t, w.cpus[t], e);
    Confined(w, t, effect, fids) && LocallyOk(w, t, effect, fids)
  }

  datatype Phase = Idle | Making | Locking | Activating | Changing | Releasing | Loading | Storing

  /** What the program counters of a phase do calls for the same argument. */
  ghost function PhaseOf(pc: Pc): Phase {
    match pc
    case User => Idle
    case NextFid(_) => Making
    case AddFiber(_, _) => Making
    case SetContext(_, _) => Making
    case Return(_, _) => Making
    case TryLock(_, _) => Locking
    case CheckState(_, _) => Locking
    case FindOld(_) => Locking
    case SetState(_, _, _) => Activating
    case CountActivation(_, _, _) => Activating
    case StampTime(_, _, _) => Activating
    case SetCurrent(_, _, _) => Changing
    case SaveRegs(_, _) => Changing
    case SaveFpu(_, _) => Changing
    case Account(_, _) => Releasing
    case ClearState(_, _) => Releasing
    case Unlock(_, _) => Releasing
    case LoadRegs(_) => Loading
    case LoadFpu(_) => Loading
    case FlsAllocate(_, _) => Storing
    case FlsRelease(_, _) => Storing
    case FlsStore(_, _, _) => Storing
  }

  /** What the invariant says to a stepping thread. */
  ghost predicate Local(w: World, t: int, fids: Fids) {
    && t in w.cpus && ThreadOk(w, t, fids) && w.fidCount >= NO_FIBERS
    && (forall f | f in w.fibers :: 0 <= f <= w.fidCount) && w.published <= w.fibers.Keys
    && (w.cpus[t].pc.CheckState? ==> At(w, w.cpus[t].pc.fid).state == 0)
  }

  lemma InvLocal(w: World, t: int, fids: Fids)
    requires Inv(w, fids) && t in w.cpus
    ensures Local(w, t, fids)
  {
    hide Apart;
    assert ThreadOk(w, t, fids);
    if w.cpus[t].pc.CheckState? {
      assert w.cpus[t].pc.fid in Held(w, t);
      assert FiberOk(w, w.cpus[t].pc.fid);
    }
    forall f | f in w.fibers ensures 0 <= f <= w.fidCount { assert FiberOk(w, f); }
  }

  ghost predicate Steps(w: World, t: int, fids: Fids) {
    Local(w, t, fids) && !w.cpus[t].pc.User? && (fids.AnyNumber? ==> !Blocked(w, t, Advance))
  }

  /** The stepping thread's own part is in order afterwards. */
  ghost predicate ThreadStepOk(w: World, t: int, e: Event, fids: Fids)
    requires t in w.cpus
  {
    var effect := Begin(w, t, w.cpus[t], e);
    Confined(w, t, effect, fids) && ThreadOk(Apply(w, t, effect), t, fids)
  }

  /** And so is a fiber it holds or changes. */
  ghost predicate FiberStepOk(w: World, t: int, e: Event, f: int)
    requires t in w.cpus
  {
    var effect := Begin(w, t, w.cpus[t], e);
    var w' := Apply(w, t, effect);
    f in w'.fibers && (w'.fibers[f].holder == Some(t) || (effect.fiber.Some? && effect.fiber.value.0 == f)) ==>
      FiberOk(w', f)
  }

  // ---------------------------------------------------------------- the steps in the kernel

  lemma MakingThread(w: World, t: int, fids: Fids)
    requires Steps(w, t, fids) && PhaseOf(w.cpus[t].pc).Making?
    ensures ThreadStepOk(w, t, Advance, fids)
  {
  }

  lemma LockingThread(w: World, t: int, fids: Fids)
    requires Steps(w, t, fids) && PhaseOf(w.cpus[t].pc).Locking?
    ensures ThreadStepOk(w, t, Advance, fids)
  {
    hide ChangeBit, FirstZeroBit, Zeroed, FreshFiber, CreationContext;
  }

  lemma ActivatingThread(w: World, t: int, fids: Fids)
    requires Steps(w, t, fids) && PhaseOf(w.cpus[t].pc).Activating?
    ensures ThreadStepOk(w, t, Advance, fids)
  {
    hide ChangeBit, FirstZeroBit, Zeroed, FreshFiber, CreationContext;
  }

  lemma ChangingThread(w: World, t: int, fids: Fids)
    requires Steps(w, t, fids) && PhaseOf(w.cpus[t].pc).Changing?
    ensures ThreadStepOk(w, t, Advance, fids)
  {
    hide ChangeBit, FirstZeroBit, Zeroed, FreshFiber, CreationContext;
  }

  lemma ReleasingThread(w: World, t: int, fids: Fids)
    requires Steps(w, t, fids) && PhaseOf(w.cpus[t].pc).Releasing?
    ensures ThreadStepOk(w, t, Advance, fids)
  {
    hide ChangeBit, FirstZeroBit, Zeroed, FreshFiber, CreationContext;
  }

  lemma LoadingThread(w: World, t: int, fids: Fids)
    requires Steps(w, t, fids) && PhaseOf(w.cpus[t].pc).Loading?
    ensures ThreadStepOk(w, t, Advance, fids)
  {
  }

  lemma StoringThread(w: World, t: int, fids: Fids)
    requires Steps(w, t, fids) && PhaseOf(w.cpus[t].pc).Storing?
    ensures ThreadStepOk(w, t, Advance, fids)
  {
  }

  lemma MakingFiber(w: World, t: int, f: int, fids: Fids)
    requires Steps(w, t, fids) && (f in w.fibers ==> FiberOk(w, f)) && PhaseOf(w.cpus[t].pc).Making?
    ensures FiberStepOk(w, t, Advance, f)
  {
  }

  lemma LockingFiber(w: World, t: int, f: int, fids: Fids)
    requires Steps(w, t, fids) && (f in w.fibers ==> FiberOk(w, f)) && PhaseOf(w.cpus[t].pc).Locking?
    ensures FiberStepOk(w, t, Advance, f)
  {
    hide Total, ChangeBit, FirstZeroBit, Zeroed, FreshFiber, CreationContext;
  }

  lemma ActivatingFiber(w: World, t: int, f: int, fids: Fids)
    requires Steps(w, t, fids) && (f in w.fibers ==> FiberOk(w, f)) && PhaseOf(w.cpus[t].pc).Activating?
    ensures FiberStepOk(w, t, Advance, f)
  {
    hide Total, Reserved;
  }

  lemma ChangingFiber(w: World, t: int, f: int, fids: Fids)
    requires Steps(w, t, fids) && (f in w.fibers ==> FiberOk(w, f)) && PhaseOf(w.cpus[t].pc).Changing?
    ensures FiberStepOk(w, t, Advance, f)
  {
    hide Total, ChangeBit, FirstZeroBit, Zeroed, FreshFiber, CreationContext, Reserved;
  }

  lemma TotalAppend(slices: seq<Slice>, slice: Slice)
    ensures Total(slices + [slice]) == Total(slices) + (slice.end - slice.start)
  {
    assert (slices + [slice])[..|slices|] == slices;
  }

  lemma ReleasingFiber(w: World, t: int, f: int, fids: Fids)
    requires Steps(w, t, fids) && (f in w.fibers ==> FiberOk(w, f)) && PhaseOf(w.cpus[t].pc).Releasing?
    ensures FiberStepOk(w, t, Advance, f)
  {
    hide Total, InConversion, Reserved;
    var cpu := w.cpus[t];
    TotalAppend(At(w, cpu.pc.prev).slices, Slice(t, At(w, cpu.pc.prev).lastActivation, cpu.utime));
  }

  lemma LaterFiber(w: World, t: int, f: int, fids: Fids)
    requires Steps(w, t, fids) && (f in w.fibers ==> FiberOk(w, f))
    requires PhaseOf(w.cpus[t].pc).Loading? || PhaseOf(w.cpus[t].pc).Storing?
    ensures FiberStepOk(w, t, Advance, f)
  {
    hide Total, ChangeBit, FirstZeroBit, Zeroed, FreshFiber, CreationContext;
  }

  // ---------------------------------------------------------------- the steps in user code

  lemma CallThread(w: World, t: int, e: Event, fids: Fids)
    requires Local(w, t, fids) && Allowed(w, t, e, fids) && !e.Advance?
    ensures ThreadStepOk(w, t, e, fids)
  {
  }

  lemma CallFiber(w: World, t: int, e: Event, f: int, fids: Fids)
    requires Local(w, t, fids) && (f in w.fibers ==> FiberOk(w, f)) && Allowed(w, t, e, fids) && !e.Advance?
    ensures FiberStepOk(w, t, e, f)
  {
    hide Total;
  }

  // ---------------------------------------------------------------- every step

  lemma AdvanceThread(w: World, t: int, fids: Fids)
    requires t in w.cpus && !w.cpus[t].pc.User? && Steps(w, t, fids)
    ensures ThreadStepOk(w, t, Advance, fids)
  {
    hide Steps, ThreadStepOk;
    match PhaseOf(w.cpus[t].pc)
    case Making => MakingThread(w, t, fids);
    case Locking => LockingThread(w, t, fids);
    case Activating => ActivatingThread(w, t, fids);
    case Changing => ChangingThread(w, t, fids);
    case Releasing => ReleasingThread(w, t, fids);
    case Loading => LoadingThread(w, t, fids);
    case Storing => StoringThread(w, t, fids);
  }

  lemma AdvanceFiber(w: World, t: int, f: int, fids: Fids)
    requires t in w.cpus && !w.cpus[t].pc.User? && Steps(w, t, fids) && (f in w.fibers ==> FiberOk(w, f))
    ensures FiberStepOk(w, t, Advance, f)
  {
    hide Steps, FiberStepOk, FiberOk;
    match PhaseOf(w.cpus[t].pc)
    case Making => MakingFiber(w, t, f, fids);
    case Locking => LockingFiber(w, t, f, fids);
    case Activating => ActivatingFiber(w, t, f, fids);
    case Changing => ChangingFiber(w, t, f, fids);
    case Releasing => ReleasingFiber(w, t, f, fids);
    case Loading => LaterFiber(w, t, f, fids);
    case Storing => LaterFiber(w, t, f, fids);
  }

  lemma InvFiber(w: World, f: int, fids: Fids)
    requires Inv(w, fids) && f in w.fibers
    ensures FiberOk(w, f)
  {
    hide ThreadOk, Apart, FiberOk;
  }

  lemma StepFrom(w: World, t: int, e: Event, fids: Fids)
    requires t in w.cpus && ThreadStepOk(w, t, e, fids) && forall f :: FiberStepOk(w, t, e, f)
    ensures StepOk(w, t, e, fids)
  {
    hide Begin, Apply, ThreadOk, FiberOk, Confined;
    var effect := Begin(w, t, w.cpus[t], e);
    var w' := Apply(w, t, effect);
    forall f | f in w'.fibers && (w'.fibers[f].holder == Some(t) || (effect.fiber.Some? && effect.fiber.value.0 == f))
      ensures FiberOk(w', f)
    {
      assert FiberStepOk(w, t, e, f);
    }
  }

  lemma EveryStepOk(w: World, t: int, e: Event, fids: Fids := OnlyReturned)
    requires Inv(w, fids) && Allowed(w, t, e, fids) && (fids.AnyNumber? ==> !Blocked(w, t, e))
    ensures StepOk(w, t, e, fids)
  {
    hide Inv, StepOk, ThreadStepOk, FiberStepOk, FiberOk, Local, Blocked;
    InvLocal(w, t, fids);
    if e.Advance? { AdvanceThread(w, t, fids); } else { CallThread(w, t, e, fids); }
    forall f ensures FiberStepOk(w, t, e, f) {
      if f in w.fibers { InvFiber(w, f, fids); }
      if e.Advance? { AdvanceFiber(w, t, f, fids); } else { CallFiber(w, t, e, f, fids); }
    }
    StepFrom(w, t, e, fids);
  }
}
