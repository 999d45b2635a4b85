/** What every run keeps, in whatever order the events come out. */
module CalendarConservation {
  import opened Events
  import opened Calendar
  import opened CalendarRun
  import opened CalendarExact
  import opened Options

  ghost function Puts<T>(ops: seq<Op<T>>): multiset<Event<T>>
    decreases |ops|
  {
    if ops == [] then multiset{}
    else (if ops[0].OpPut? then multiset{ops[0].event} else multiset{}) + Puts(ops[1..])
  }

  ghost function Handed<T>(outs: seq<Option<Event<T>>>): multiset<Event<T>>
    decreases |outs|
  {
    if outs == [] then multiset{}
    else (if outs[0].Some? then multiset{outs[0].value} else multiset{}) + Handed(outs[1..])
  }

  /** A calendar whose size fits its number of buckets, a power of two from 2 to 32768. */
  ghost predicate Geometry<T>(q: Cal<T>) {
    && 2 <= |q.buckets| <= MAX_BUCKETS && PowerOfTwo(|q.buckets|)
    && (|q.buckets| < MAX_BUCKETS ==> q.size <= 2 * |q.buckets|)
  }

  /** Halving keeps up: a calendar never holds fewer than half as many events as it has buckets, less two. */
  ghost predicate Filled<T>(q: Cal<T>) {
    |q.buckets| / 2 - 2 <= q.size
  }

  /** The cursor of a calendar just set up at its `lastPrio`. */
  ghost predicate FreshCursor<T>(q: Cal<T>)
    requires |q.buckets| > 0 && q.width > 0.0
  {
    && q.lastBucket == BucketOf(q.lastPrio, q.width, |q.buckets|)
    && At(Virtual(q.lastPrio, q.width) + 1, q.width) < q.bucketTop < At(Virtual(q.lastPrio, q.width) + 2, q.width)
  }

  /** `width` is what the next events of `q` call for: one if there is at most one of them, else the width
      computed from as many as are sampled. */
  ghost predicate CalledFor<T>(q: Cal<T>, variant: Variant, width: real)
    requires Wf(q)
  {
    if q.size <= 1 then width == 1.0 else WidthOf(Sample(q, SampleSize(q.size), variant).0) == Some(width)
  }

  /** When a put resizes, and what it leaves of number of buckets, width and cursor. */
  lemma PutResizes<T>(q: Cal<T>, e: Event<T>, variant: Variant)
    requires Wf(q) && e.priority >= 0.0 && Put(q, e, variant).Some?
    ensures var r := Put(q, e, variant).value;
            && r.size == q.size + 1
            && (q.size < 2 * |q.buckets| || |q.buckets| >= 32768 ==>
                  && |r.buckets| == |q.buckets| && r.width == q.width
                  && r.lastBucket == q.lastBucket && r.bucketTop == q.bucketTop)
            && (q.size >= 2 * |q.buckets| && |q.buckets| < 32768 ==>
                  |r.buckets| == 2 * |q.buckets| && FreshCursor(r) && CalledFor(Enqueue(q, e), variant, r.width))
  {
    hide Wf, Bag, NewWidth, CalledFor;
    if MustGrow(Enqueue(q, e)) { ResizedCursor(Enqueue(q, e), 2 * |q.buckets|, variant); }
  }

  lemma ResizedCursor<T>(q: Cal<T>, n: nat, variant: Variant)
    requires Wf(q) && n > 0 && Resize(q, n, variant).Some?
    ensures var r := Resize(q, n, variant).value;
            r.width > 0.0 && |r.buckets| == n && FreshCursor(r) && CalledFor(q, variant, r.width)
  {
    hide Wf, Bag, EnqueueAll, AfterSampling, Listing, NewWidth, Virtual, FreshCursor, LocalInit, Pending, CalledFor;
    var q1, width := AfterSampling(q, variant), NewWidth(q, variant).value;
    ListingOfWf(q1);
    StartOfWf(q);
    NewWidthCalledFor(q, variant);
    InitialCursor(LocalInit<T>(n, width, q.lastPrio), n, width, q.lastPrio);
    SameCursor(LocalInit<T>(n, width, q.lastPrio), Resize(q, n, variant).value);
  }

  lemma NewWidthCalledFor<T>(q: Cal<T>, variant: Variant)
    requires Wf(q) && NewWidth(q, variant).Some?
    ensures CalledFor(q, variant, NewWidth(q, variant).value)
  {
    hide Sample, WidthOf;
  }

  lemma StartOfWf<T>(q: Cal<T>)
    requires Wf(q)
    ensures q.lastPrio >= 0.0
  {
  }

  lemma InitialCursor<T>(q: Cal<T>, n: nat, width: real, start: real)
    requires n > 0 && width > 0.0 && start >= 0.0 && q == LocalInit(n, width, start)
    ensures q.width > 0.0 && |q.buckets| == n && FreshCursor(q)
  {
    hide Wf, Bag, Virtual, Pending, At;
    var v := Virtual(start, width);
    AtSum(v + 1, 1, width);
    OneStep(width);
  }

  lemma OneStep(width: real)
    ensures At(1, width) == width
  {
  }

  lemma SameCursor<T>(q: Cal<T>, r: Cal<T>)
    requires |q.buckets| > 0 && q.width > 0.0 && FreshCursor(q)
    requires |r.buckets| == |q.buckets| && r.width == q.width
    requires r.lastBucket == q.lastBucket && r.lastPrio == q.lastPrio && r.bucketTop == q.bucketTop
    ensures FreshCursor(r)
  {
  }

  /** When a get resizes, and what it leaves of number of buckets, width and cursor. */
  lemma GetResizes<T>(q: Cal<T>, variant: Variant)
    requires Wf(q) && q.size > 0 && Get(q, variant).Some?
    ensures var (e, r) := Get(q, variant).value;
            && r.size == q.size - 1 && r.lastBucket == BucketOf(e.priority, r.width, |r.buckets|)
            && (q.size - 1 >= |q.buckets| / 2 - 2 ==> |r.buckets| == |q.buckets| && r.width == q.width)
            && (q.size - 1 < |q.buckets| / 2 - 2 ==>
                  && |r.buckets| == |q.buckets| / 2 && FreshCursor(r)
                  && CalledFor(Dequeue(q, variant).1, variant, r.width))
  {
    hide Wf, Bag, NewWidth, Resize, Dequeue, CalledFor;
    var q1 := Dequeue(q, variant).1;
    if MustShrink(q1) { ResizedCursor(q1, |q1.buckets| / 2, variant); }
  }

  lemma AddUp<T>(m0: multiset<T>, m1: multiset<T>, a: multiset<T>, p: multiset<T>, m2: multiset<T>, h: multiset<T>)
    requires m0 == m1 + a && m1 + p == m2 + h
    ensures m0 + p == m2 + (a + h)
  {
    assert m0 + p == (m1 + p) + a;
  }

  lemma HandedFirst<T>(out: Option<Event<T>>, outs: seq<Option<Event<T>>>)
    ensures Handed([out] + outs) == (if out.Some? then multiset{out.value} else multiset{}) + Handed(outs)
  {
    assert ([out] + outs)[1..] == outs;
  }

  ghost predicate Conserved<T>(q: Cal<T>, ops: seq<Op<T>>, outs: seq<Option<Event<T>>>, q1: Cal<T>) {
    Wf(q1) && Bag(q) + Puts(ops) == Bag(q1) + Handed(outs)
  }

  lemma ConservedAfterPut<T>(q: Cal<T>, e: Event<T>, q1: Cal<T>, ops: seq<Op<T>>, outs: seq<Option<Event<T>>>,
                             q2: Cal<T>)
    requires Bag(q1) == Bag(q) + multiset{e} && Conserved(q1, ops, outs, q2)
    ensures Conserved(q, [OpPut(e)] + ops, outs, q2)
  {
    hide Wf, Bag;
    assert ([OpPut(e)] + ops)[1..] == ops;
  }

  lemma ConservedAfterGet<T>(
      q: Cal<T>, out: Option<Event<T>>, q1: Cal<T>, ops: seq<Op<T>>, outs: seq<Option<Event<T>>>, q2: Cal<T>)
    requires Bag(q) == Bag(q1) + (if out.Some? then multiset{out.value} else multiset{})
    requires Conserved(q1, ops, outs, q2)
    ensures Conserved(q, [OpGet] + ops, [out] + outs, q2)
  {
    hide Wf, Bag;
    assert ([OpGet] + ops)[1..] == ops;
    HandedFirst(out, outs);
    AddUp(Bag(q), Bag(q1), if out.Some? then multiset{out.value} else multiset{}, Puts(ops), Bag(q2), Handed(outs));
  }

  lemma NothingConserved<T>(q: Cal<T>)
    ensures Bag(q) + Puts([]) == Bag(q) + Handed([])
  {
  }

  /** No event is lost, duplicated or invented by any run, ties and unsafe gaps included;
      every list stays sorted in its right bucket and the size stays the number of events. */
  lemma {:induction false} RunConserves<T>(q: Cal<T>, ops: seq<Op<T>>, variant: Variant)
    requires Wf(q) && CalRun(q, ops, variant).Some?
    ensures var (outs, q1) := CalRun(q, ops, variant).value;
            Wf(q1) && Bag(q) + Puts(ops) == Bag(q1) + Handed(outs)
    decreases |ops|
  {
    NothingConserved(q);
    hide Put, Wf, Get, CalGet, Bag, Handed, Puts, CalRun;
    if ops == [] {
      CalRunEnds(q, variant);
    } else {
      CalRunSteps(q, ops, variant);
      assert ops == [ops[0]] + ops[1..];
      match ops[0]
      case OpPut(e) =>
        var q1 := Put(q, e, variant).value;
        CalRunPutIs(q, e, ops[1..], variant);
        RunConserves(q1, ops[1..], variant);
        var (outs, q2) := CalRun(q1, ops[1..], variant).value;
        ConservedAfterPut(q, e, q1, ops[1..], outs, q2);
      case OpGet =>
        var (out, q1) := CalGet(q, variant).value;
        CalRunGetIs(q, ops[1..], variant);
        RunConserves(q1, ops[1..], variant);
        var (outs, q2) := CalRun(q1, ops[1..], variant).value;
        ConservedAfterGet(q, out, q1, ops[1..], outs, q2);
    }
  }

  lemma PutKeepsGeometry<T>(q: Cal<T>, e: Event<T>, variant: Variant)
    requires Wf(q) && Geometry(q) && e.priority >= 0.0 && Put(q, e, variant).Some?
    ensures Geometry(Put(q, e, variant).value)
  {
    hide Wf, Enqueue, Resize;
    if MustGrow(Enqueue(q, e)) { Doubled(|q.buckets|); }
  }

  lemma GetKeepsGeometry<T>(q: Cal<T>, variant: Variant)
    requires Wf(q) && q.size > 0 && Geometry(q) && Get(q, variant).Some?
    ensures Geometry(Get(q, variant).value.1)
  {
    hide Wf, Dequeue, Resize;
    if MustShrink(Dequeue(q, variant).1) { Halved(|q.buckets|); }
  }

  lemma {:induction false} RunKeepsGeometry<T>(q: Cal<T>, ops: seq<Op<T>>, variant: Variant)
    requires Wf(q) && Geometry(q) && CalRun(q, ops, variant).Some?
    ensures Geometry(CalRun(q, ops, variant).value.1)
    decreases |ops|
  {
    hide Put, Wf, Get, CalGet, Geometry, CalRun, Bag;
    if ops == [] {
      CalRunEnds(q, variant);
    } else {
      CalRunSteps(q, ops, variant);
      assert ops == [ops[0]] + ops[1..];
      match ops[0]
      case OpPut(e) =>
        CalRunPutIs(q, e, ops[1..], variant);
        PutKeepsGeometry(q, e, variant);
        RunKeepsGeometry(Put(q, e, variant).value, ops[1..], variant);
      case OpGet =>
        CalRunGetIs(q, ops[1..], variant);
        CalGetKeepsGeometry(q, variant);
        RunKeepsGeometry(CalGet(q, variant).value.1, ops[1..], variant);
    }
  }

  lemma PutKeepsFilled<T>(q: Cal<T>, e: Event<T>, variant: Variant)
    requires Wf(q) && Filled(q) && e.priority >= 0.0 && Put(q, e, variant).Some?
    ensures Filled(Put(q, e, variant).value)
  {
    hide *;
    PutResizes(q, e, variant);
    FilledIs(q);
    FilledIs(Put(q, e, variant).value);
    Halves(|q.buckets|);
  }

  lemma FilledIs<T>(q: Cal<T>)
    ensures Filled(q) <==> |q.buckets| / 2 - 2 <= q.size
  {
  }

  lemma Halves(n: nat)
    ensures 2 * n / 2 == n && (n >= 4 ==> n / 2 / 2 < n / 2)
  {
  }

  lemma GetKeepsFilled<T>(q: Cal<T>, variant: Variant)
    requires Wf(q) && q.size > 0 && Filled(q) && Get(q, variant).Some?
    ensures Filled(Get(q, variant).value.1)
  {
    hide *;
    GetResizes(q, variant);
    FilledIs(q);
    FilledIs(Get(q, variant).value.1);
    Halves(|q.buckets|);
  }

  /** In every run that goes through. With the bound of `RunKeepsGeometry` the number of buckets stays
      within a factor of the number of events, up to 32768. */
  lemma {:induction false} RunKeepsFilled<T>(q: Cal<T>, ops: seq<Op<T>>, variant: Variant)
    requires Wf(q) && Filled(q) && CalRun(q, ops, variant).Some?
    ensures Filled(CalRun(q, ops, variant).value.1)
    decreases |ops|
  {
    hide Put, Wf, Get, CalGet, Filled, CalRun, Bag;
    if ops == [] {
      CalRunEnds(q, variant);
    } else {
      CalRunSteps(q, ops, variant);
      assert ops == [ops[0]] + ops[1..];
      match ops[0]
      case OpPut(e) =>
        CalRunPutIs(q, e, ops[1..], variant);
        PutKeepsFilled(q, e, variant);
        RunKeepsFilled(Put(q, e, variant).value, ops[1..], variant);
      case OpGet =>
        CalRunGetIs(q, ops[1..], variant);
        CalGetKeepsFilled(q, variant);
        RunKeepsFilled(CalGet(q, variant).value.1, ops[1..], variant);
    }
  }

  lemma CalGetKeepsFilled<T>(q: Cal<T>, variant: Variant)
    requires Wf(q) && Filled(q) && CalGet(q, variant).Some?
    ensures Filled(CalGet(q, variant).value.1)
  {
    assert q.size >= 0;
    hide Wf, Get, Filled;
    if q.size > 0 { GetKeepsFilled(q, variant); }
  }

  lemma CalGetKeepsGeometry<T>(q: Cal<T>, variant: Variant)
    requires Wf(q) && Geometry(q) && CalGet(q, variant).Some?
    ensures Geometry(CalGet(q, variant).value.1)
  {
    assert q.size >= 0;
    hide Wf, Get, Geometry;
    if q.size > 0 { GetKeepsGeometry(q, variant); }
  }

  // ---------------------------------------------------------------- runs that are known to go through

  /** What a run from calqueue_init has come to: everything put is pending or was handed out. */
  ghost predicate AllAccounted<T>(ops: seq<Op<T>>, variant: Variant) {
    && CalRun(InitialCal<T>(), ops, variant).Some?
    && var (outs, q) := CalRun(InitialCal<T>(), ops, variant).value;
       Wf(q) && Geometry(q) && Filled(q) && Puts(ops) == Bag(q) + Handed(outs)
  }

  lemma Accounted<T>(ops: seq<Op<T>>, variant: Variant)
    requires CalRun(InitialCal<T>(), ops, variant).Some?
    ensures AllAccounted(ops, variant)
  {
    InitialGeometry<T>();
    hide Geometry, Filled, CalRun, Bag, Wf, InitialCal;
    RunConserves(InitialCal<T>(), ops, variant);
    RunKeepsGeometry(InitialCal<T>(), ops, variant);
    RunKeepsFilled(InitialCal<T>(), ops, variant);
    assert multiset{} + Puts(ops) == Puts(ops);
  }

  lemma InitialGeometry<T>()
    ensures Geometry(InitialCal<T>()) && Filled(InitialCal<T>()) && Bag(InitialCal<T>()) == multiset{}
  {
  }

  /** A run, ordered or not, goes through and loses nothing when the samples of its resizes are usable. */
  lemma UsableRunConserves<T>(q: Cal<T>, ops: seq<Op<T>>, variant: Variant)
    requires Wf(q) && Geometry(q) && RunUsable(q, ops, variant)
    ensures CalRun(q, ops, variant).Some?
    ensures var (outs, q1) := CalRun(q, ops, variant).value;
            Wf(q1) && Geometry(q1) && Bag(q) + Puts(ops) == Bag(q1) + Handed(outs)
  {
    hide *;
    RunSucceedsIff(q, ops, variant);
    RunConserves(q, ops, variant);
    RunKeepsGeometry(q, ops, variant);
  }

  /** The code as written loses nothing in a timely run that leaves safe gaps: every resize of it
      finds a usable width. */
  lemma TimelyRunConserves<T(!new)>(ops: seq<Op<T>>)
    requires TimelyRun(SortedQueue([], 0.0), ops) && GapsSafe(InitialCal<T>(), ops, AsWritten)
    ensures AllAccounted(ops, AsWritten)
  {
    hide *;
    RunFromInit(ops);
    Accounted(ops, AsWritten);
  }

  /** The repaired code loses nothing in any timely run. */
  lemma RepairedRunConserves<T(!new)>(ops: seq<Op<T>>)
    requires TimelyRun(SortedQueue([], 0.0), ops)
    ensures AllAccounted(ops, Repaired)
  {
    hide *;
    RepairedRunFromInit(ops);
    Accounted(ops, Repaired);
  }
}
