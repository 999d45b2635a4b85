/** What every step of every thread keeps. */
module KernelInvariant {
  import opened FiberStorage
  import opened KernelFibers
  import opened Options

  // ---------------------------------------------------------------- who holds what

  /** The thread has a current fiber. */
  ghost predicate Attached(w: World, t: int) {
    t in w.table && w.table[t] != NO_FIBERS
  }

  /** The lock a thread holds besides that of its current fiber. */
  ghost function Extra(pc: Pc): set<int> {
    match pc
    case CheckState(f, _) => {f}
    case FindOld(f) => {f}
    case SetState(f, _, _) => {f}
    case CountActivation(f, _, _) => {f}
    case StampTime(f, _, _) => {f}
    case SetCurrent(f, _, _) => {f}
    case SaveRegs(_, prev) => {prev}
    case SaveFpu(_, prev) => {prev}
    case Account(_, prev) => {prev}
    case ClearState(_, prev) => {prev}
    case Unlock(_, prev) => {prev}
    case _ => {}
  }

  ghost function Held(w: World, t: int): set<int>
    requires t in w.cpus
  {
    (if Attached(w, t) then {w.table[t]} else {}) + Extra(w.cpus[t].pc)
  }

  /** Held but with `state` zero: not yet set, or cleared again. */
  ghost predicate Inactive(pc: Pc, f: int) {
    match pc
    case CheckState(g, _) => f == g
    case FindOld(g) => f == g
    case SetState(g, _, _) => f == g
    case Unlock(_, prev) => f == prev
    case _ => false
  }

  /** Held but between slices: not yet counted as activated, or its slice already added. */
  ghost predicate Uncounted(pc: Pc, f: int) {
    match pc
    case CheckState(g, _) => f == g
    case FindOld(g) => f == g
    case SetState(g, _, _) => f == g
    case CountActivation(g, _, _) => f == g
    case ClearState(_, prev) => f == prev
    case Unlock(_, prev) => f == prev
    case _ => false
  }

  /** Held but its activation time is not yet that of the holder. */
  ghost predicate Unstamped(pc: Pc, f: int) {
    Uncounted(pc, f) || (pc.StampTime? && f == pc.fid)
  }

  /** The fid a thread has drawn and not yet returned. */
  ghost function Reserved(pc: Pc): Option<int> {
    match pc
    case AddFiber(_, f) => Some(f)
    case SetContext(_, f) => Some(f)
    case TryLock(f, why) => if why.Converting? then Some(f) else None
    case CheckState(f, why) => if why.Converting? then Some(f) else None
    case SetState(f, why, _) => if why.Converting? then Some(f) else None
    case CountActivation(f, why, _) => if why.Converting? then Some(f) else None
    case StampTime(f, why, _) => if why.Converting? then Some(f) else None
    case SetCurrent(f, why, _) => if why.Converting? then Some(f) else None
    case Return(f, _) => Some(f)
    case _ => None
  }

  /** In the table without a current fiber. */
  ghost predicate InConversion(pc: Pc) {
    match pc
    case NextFid(make) => make.ForThread?
    case AddFiber(make, _) => make.ForThread?
    case TryLock(_, why) => why.Converting?
    case CheckState(_, why) => why.Converting?
    case SetState(_, why, _) => why.Converting?
    case CountActivation(_, why, _) => why.Converting?
    case StampTime(_, why, _) => why.Converting?
    case SetCurrent(_, why, _) => why.Converting?
    case _ => false
  }

  // ---------------------------------------------------------------- the invariant

  ghost predicate Target(w: World, t: int, f: int, why: Purpose, fids: Fids) {
    f in w.fibers && (why.Switching? ==> Attached(w, t) && (fids.OnlyReturned? ==> f in w.published))
  }

  ghost predicate Chosen(w: World, t: int, f: int, why: Purpose, prev: int, fids: Fids) {
    && Target(w, t, f, why, fids)
    && (why.Switching? ==> prev == w.table[t] && prev != f && (fids.OnlyReturned? ==> prev in w.published))
    && (why.Converting? ==> prev == NO_FIBERS)
  }

  ghost predicate Leaving(w: World, t: int, f: int, prev: int, fids: Fids) {
    && Attached(w, t) && w.table[t] == f && prev in w.fibers && prev != f
    && (fids.OnlyReturned? ==> f in w.published && prev in w.published)
  }

  /** Where a thread is. What is said of saved contexts and of fibers not yet returned is for callers
      that name only what was returned to them. */
  ghost predicate PcOk(w: World, t: int, fids: Fids := OnlyReturned)
    requires t in w.cpus
  {
    var live, named := w.cpus[t].live, fids.OnlyReturned?;
    match w.cpus[t].pc
    case User => true
    case NextFid(make) => true
    case AddFiber(make, f) => f !in w.fibers
    case SetContext(make, f) =>
      && make.ForEntry? && f in w.fibers && (Attached(w, t) ==> f != w.table[t])
      && (named ==> w.fibers[f].holder.None? && w.fibers[f].saved == live)
    case TryLock(f, why) =>
      Target(w, t, f, why, fids) && (why.Converting? && named ==> w.fibers[f].holder.None?)
    case CheckState(f, why) => Target(w, t, f, why, fids) && (why.Switching? ==> f != w.table[t])
    case FindOld(f) => Target(w, t, f, Switching, fids) && f != w.table[t]
    case SetState(f, why, prev) => Chosen(w, t, f, why, prev, fids)
    case CountActivation(f, why, prev) => Chosen(w, t, f, why, prev, fids)
    case StampTime(f, why, prev) => Chosen(w, t, f, why, prev, fids)
    case SetCurrent(f, why, prev) => Chosen(w, t, f, why, prev, fids)
    case SaveRegs(f, prev) => Leaving(w, t, f, prev, fids)
    case SaveFpu(f, prev) => Leaving(w, t, f, prev, fids) && (named ==> w.fibers[prev].saved.regs == live.regs)
    case Account(f, prev) => Leaving(w, t, f, prev, fids) && (named ==> w.fibers[prev].saved == live)
    case ClearState(f, prev) => Leaving(w, t, f, prev, fids) && (named ==> w.fibers[prev].saved == live)
    case Unlock(f, prev) => Leaving(w, t, f, prev, fids) && (named ==> w.fibers[prev].saved == live)
    case LoadRegs(f) => Attached(w, t) && w.table[t] == f && f in w.fibers && (named ==> f in w.published)
    case LoadFpu(f) =>
      && Attached(w, t) && w.table[t] == f && f in w.fibers
      && (named ==> f in w.published && live.regs == w.fibers[f].saved.regs)
    case Return(f, make) =>
      && Attached(w, t) && f in w.fibers && (w.table[t] == f <==> make.ForThread?)
      && (make.ForEntry? && named ==> w.fibers[f].holder.None? && w.fibers[f].saved == CreationContext(live, make))
    case FlsAllocate(f, i) =>
      Attached(w, t) && w.table[t] == f && f in w.fibers && FirstZeroBit(w.fibers[f].fls.bmp, 0) == i
    case FlsRelease(f, i) => Attached(w, t) && w.table[t] == f && f in w.fibers && w.fibers[f].fls.bmp[i]
    case FlsStore(f, i, v) => Attached(w, t) && w.table[t] == f && f in w.fibers && w.fibers[f].fls.bmp[i]
  }

  ghost predicate ThreadOk(w: World, t: int, fids: Fids := OnlyReturned)
    requires t in w.cpus
  {
    var pc := w.cpus[t].pc;
    && t > 0
    && (t !in w.table ==> pc.User?)
    && (t in w.table ==> (Attached(w, t) <==> !InConversion(pc)))
    && (fids.OnlyReturned? && Attached(w, t) ==> w.table[t] in w.published || pc == Return(w.table[t], ForThread))
    && (forall f :: f in Held(w, t) ==> f in w.fibers && w.fibers[f].holder == Some(t))
    && (Reserved(pc).Some? ==> 0 <= Reserved(pc).value <= w.fidCount && Reserved(pc).value !in w.published)
    && PcOk(w, t, fids)
  }

  ghost function Total(slices: seq<Slice>): int {
    if slices == [] then 0
    else Total(slices[..|slices| - 1]) + (slices[|slices| - 1].end - slices[|slices| - 1].start)
  }

  ghost predicate FiberOk(w: World, f: int)
    requires f in w.fibers
  {
    var fb := w.fibers[f];
    && 0 <= f <= w.fidCount
    && fb.running == Total(fb.slices)
    && (forall i :: 0 <= i < |fb.slices| ==> fb.slices[i].start <= fb.slices[i].end)
    && match fb.holder
       case None => fb.state == 0 && fb.activations == |fb.slices|
       case Some(t) =>
         && t in w.cpus && f in Held(w, t)
         && fb.state == (if Inactive(w.cpus[t].pc, f) then 0 else t)
         && fb.activations == |fb.slices| + (if Uncounted(w.cpus[t].pc, f) then 0 else 1)
         && (!Unstamped(w.cpus[t].pc, f) ==> fb.stampedBy == t && fb.lastActivation <= w.cpus[t].utime)
  }

  ghost predicate Apart(w: World, t: int, u: int)
    requires t in w.cpus && u in w.cpus
  {
    t != u && Reserved(w.cpus[t].pc).Some? ==> Reserved(w.cpus[t].pc) != Reserved(w.cpus[u].pc)
  }

  ghost predicate Inv(w: World, fids: Fids := OnlyReturned) {
    && w.fidCount >= NO_FIBERS
    && w.published <= w.fibers.Keys
    && w.table.Keys <= w.cpus.Keys
    && (forall t :: t in w.cpus ==> ThreadOk(w, t, fids))
    && (forall f :: f in w.fibers ==> FiberOk(w, f))
    && (forall t, u :: t in w.cpus && u in w.cpus ==> Apart(w, t, u))
  }

  // ---------------------------------------------------------------- one thread's step leaves the others alone

  /** `a` and `b` differ at most in the count of failed activations, which anyone may raise, and in the
      saved context if callers may name a fiber whose creation is not over. */
  ghost predicate Undisturbed(a: Fiber, b: Fiber, fids: Fids) {
    a == b.(failed := a.failed, saved := if fids.OnlyReturned? then b.saved else a.saved)
  }

  /** The step touches at most one fiber, which no other thread holds or is making. */
  ghost predicate Confined(w: World, t: int, e: Effect, fids: Fids := OnlyReturned)
    requires t in w.cpus
  {
    && e.fidCount >= w.fidCount
    && (e.fiber.Some? ==>
          var (f, fb) := e.fiber.value;
          && (f in w.published || Reserved(w.cpus[t].pc) == Some(f) || (fids.AnyNumber? && f in w.fibers))
          && ((f in w.fibers && Undisturbed(fb, w.fibers[f], fids))
              || ((f in w.fibers ==> w.fibers[f].holder == None || w.fibers[f].holder == Some(t))
                  && (fb.holder == None || fb.holder == Some(t)))))
    && (e.current.Some? ==> t in w.table || e.current.value == NO_FIBERS)
    && (e.publish.Some? ==> Reserved(w.cpus[t].pc) == e.publish && e.publish.value in w.fibers)
    && (Reserved(e.cpu.pc).Some? ==>
          || Reserved(e.cpu.pc) == Reserved(w.cpus[t].pc)
          || Reserved(e.cpu.pc).value > w.fidCount)
  }

  /** The stepping thread and the fibers it holds or changed are in order afterwards. */
  ghost predicate LocallyOk(w: World, t: int, e: Effect, fids: Fids := OnlyReturned)
    requires t in w.cpus
  {
    var w' := Apply(w, t, e);
    && ThreadOk(w', t, fids)
    && forall f :: f in w'.fibers && (w'.fibers[f].holder == Some(t) || (e.fiber.Some? && e.fiber.value.0 == f)) ==>
         FiberOk(w', f)
  }

  lemma OtherHeld(w: World, t: int, e: Effect, u: int, fids: Fids := OnlyReturned)
    requires Inv(w, fids) && t in w.cpus && Confined(w, t, e, fids) && u in w.cpus && u != t
    ensures var w' := Apply(w, t, e);
            && w'.cpus[u] == w.cpus[u] && (u in w'.table <==> u in w.table)
            && (u in w.table ==> w'.table[u] == w.table[u])
            && (Attached(w', u) <==> Attached(w, u)) && Held(w', u) == Held(w, u)
    ensures forall f :: f in Held(w, u) ==> f in w.fibers && w.fibers[f].holder == Some(u)
    ensures forall f :: f in Held(w, u) ==>
              f in Apply(w, t, e).fibers && Undisturbed(Apply(w, t, e).fibers[f], w.fibers[f], fids)
  {
    assert ThreadOk(w, u, fids);
    hide PcOk, FiberOk, Apart;
  }

  /** A fiber being made by another thread is left alone, if callers name only what was returned. */
  lemma OtherReserved(w: World, t: int, e: Effect, u: int, f: int, fids: Fids := OnlyReturned)
    requires Inv(w, fids) && t in w.cpus && Confined(w, t, e, fids) && u in w.cpus && u != t
    requires Reserved(w.cpus[u].pc) == Some(f)
    ensures var w' := Apply(w, t, e);
            && (f in w'.fibers <==> f in w.fibers)
            && (fids.OnlyReturned? && f in w.fibers ==> w'.fibers[f] == w.fibers[f])
            && f !in w'.published && f <= w'.fidCount
  {
    assert ThreadOk(w, u, fids) && Apart(w, u, t);
    hide PcOk, FiberOk;
  }

  lemma OtherPcOk(w: World, t: int, e: Effect, u: int, fids: Fids := OnlyReturned)
    requires Inv(w, fids) && t in w.cpus && Confined(w, t, e, fids) && u in w.cpus && u != t
    ensures PcOk(Apply(w, t, e), u, fids)
  {
    hide Confined, FiberOk, Apart;
    OtherHeld(w, t, e, u, fids);
    if Reserved(w.cpus[u].pc).Some? { OtherReserved(w, t, e, u, Reserved(w.cpus[u].pc).value, fids); }
    assert ThreadOk(w, u, fids);
    var w' := Apply(w, t, e);
    assert w.fibers.Keys <= w'.fibers.Keys && w.published <= w'.published;
  }

  lemma OtherThreadOk(w: World, t: int, e: Effect, u: int, fids: Fids := OnlyReturned)
    requires Inv(w, fids) && t in w.cpus && Confined(w, t, e, fids)
    requires u in w.cpus && u != t
    ensures ThreadOk(Apply(w, t, e), u, fids)
  {
    OtherHeld(w, t, e, u, fids);
    if Reserved(w.cpus[u].pc).Some? { OtherReserved(w, t, e, u, Reserved(w.cpus[u].pc).value, fids); }
    OtherPcOk(w, t, e, u, fids);
    assert ThreadOk(w, u, fids);
    hide PcOk, FiberOk, Apart, Confined, Held;
  }

  lemma OtherFiberOk(w: World, t: int, e: Effect, f: int, fids: Fids := OnlyReturned)
    requires Inv(w, fids) && t in w.cpus && Confined(w, t, e, fids)
    requires f in w.fibers && w.fibers[f].holder != Some(t) && (e.fiber.Some? ==> e.fiber.value.0 != f)
    ensures FiberOk(Apply(w, t, e), f)
  {
    assert FiberOk(w, f);
  }

  lemma LocalStep(w: World, t: int, e: Effect, fids: Fids := OnlyReturned)
    requires Inv(w, fids) && t in w.cpus && Confined(w, t, e, fids) && LocallyOk(w, t, e, fids)
    ensures Inv(Apply(w, t, e), fids)
  {
    var w' := Apply(w, t, e);
    forall u | u in w'.cpus ensures ThreadOk(w', u, fids) {
      if u != t { OtherThreadOk(w, t, e, u, fids); }
    }
    forall f | f in w'.fibers ensures FiberOk(w', f) {
      if !(w'.fibers[f].holder == Some(t) || (e.fiber.Some? && e.fiber.value.0 == f)) {
        OtherFiberOk(w, t, e, f, fids);
      }
    }
    forall u, v | u in w'.cpus && v in w'.cpus ensures Apart(w', u, v) {
      assert Apart(w, u, v);
      assert ThreadOk(w, u, fids) && ThreadOk(w, v, fids);
    }
  }
}
