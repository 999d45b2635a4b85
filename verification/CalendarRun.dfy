/** Whole runs of the calendar queue against a sorted list. */
module CalendarRun {
  import opened Events
  import opened Calendar
  import opened CalendarDequeue
  import opened CalendarCursor
  import opened CalendarWidth
  import opened Options

  // ---------------------------------------------------------------- what every operation keeps

  ghost predicate Good<T>(q: Cal<T>) {
    CursorOk(q) && NothingLate(q) && SafeGap(q) && Distinct(Bag(q))
  }

  /** None of `k` removals in a row ends in a direct search that spoils the gap. */
  ghost predicate Unspoiled<T>(q: Cal<T>, k: nat, variant: Variant)
    requires Wf(q) && k <= q.size
  {
    k == 0 || (Unspoiled(q, k - 1, variant) && !GapSpoiled(Sample(q, k - 1, variant).1, variant))
  }

  ghost predicate SamplingUnspoiled<T>(q: Cal<T>, variant: Variant)
    requires Wf(q)
  {
    q.size < 2 || Unspoiled(q, SampleSize(q.size), variant)
  }

  /** What has come out so far, and a calendar that holds only later events. */
  ghost predicate SampledTo<T>(q: Cal<T>, s: seq<Event<T>>) {
    && Good(q)
    && StrictlySorted(s)
    && (s != [] ==> s[|s| - 1].priority == q.lastPrio && forall x :: x in Bag(q) ==> x.priority != q.lastPrio)
  }

  lemma UnspoiledStep<T>(q: Cal<T>, k: nat, variant: Variant)
    requires Wf(q) && 0 < k <= q.size
    ensures var q0 := Sample(q, k - 1, variant).1;
            Wf(q0) && q0.size > 0 &&
            (Unspoiled(q, k, variant) <==> Unspoiled(q, k - 1, variant) && !GapSpoiled(q0, variant))
  {
    hide Dequeue, GapSpoiled;
  }

  lemma {:induction false} GoodSample<T(!new)>(q: Cal<T>, k: nat, variant: Variant)
    requires Good(q) && Wf(q) && k <= q.size && Unspoiled(q, k, variant)
    ensures SampledTo(Sample(q, k, variant).1, Sample(q, k, variant).0)
  {
    hide *;
    if k == 0 {
      NothingSampled(q, variant);
    } else {
      SampleStep(q, k, variant);
      UnspoiledStep(q, k, variant);
      GoodSample(q, k - 1, variant);
      GoodSampleStep(Sample(q, k - 1, variant).1, Sample(q, k - 1, variant).0, variant);
    }
  }

  lemma NothingSampled<T>(q: Cal<T>, variant: Variant)
    requires Good(q)
    ensures SampledTo(Sample(q, 0, variant).1, Sample(q, 0, variant).0)
  {
  }

  lemma GoodSampleStep<T(!new)>(q: Cal<T>, s: seq<Event<T>>, variant: Variant)
    requires SampledTo(q, s) && q.size > 0 && !GapSpoiled(q, variant)
    ensures SampledTo(Dequeue(q, variant).1, s + [Dequeue(q, variant).0])
  {
    var (e, q1) := Dequeue(q, variant);
    GoodRemoval(q, variant);
    DistinctTaken(Bag(q), e);
    StrictAppend(s, e);
  }

  lemma DistinctTaken<T(!new)>(m: multiset<Event<T>>, e: Event<T>)
    requires Distinct(m) && e in m
    ensures Distinct(m - multiset{e}) && forall x :: x in m - multiset{e} ==> x.priority != e.priority
  {
    var m' := m - multiset{e};
    forall a | a in m' ensures m'[a] == 1 && a.priority != e.priority { assert a in m && m[a] == 1; }
  }

  lemma StrictAppend<T>(s: seq<Event<T>>, e: Event<T>)
    requires StrictlySorted(s) && (s != [] ==> s[|s| - 1].priority < e.priority)
    ensures StrictlySorted(s + [e])
  {
    forall i, j | 0 <= i < j < |s| + 1 ensures (s + [e])[i].priority < (s + [e])[j].priority {
      if j == |s| && i < |s| - 1 { assert s[i].priority < s[|s| - 1].priority; }
    }
  }

  /** A resize of a good calendar succeeds, keeps the contents and starts with gap zero. */
  lemma GoodResize<T(!new)>(q: Cal<T>, n: nat, variant: Variant)
    requires Good(q) && n >= 2 && SamplingUnspoiled(q, variant)
    ensures Resize(q, n, variant).Some? && Good(Resize(q, n, variant).value)
    ensures CursorGap(Resize(q, n, variant).value) == 0
  {
    GoodWidth(q, variant);
    FreshCursor(q, n, variant);
  }

  lemma GoodWidth<T(!new)>(q: Cal<T>, variant: Variant)
    requires Good(q) && SamplingUnspoiled(q, variant)
    ensures WidthUsable(NewWidth(q, variant))
  {
    if q.size >= 2 {
      GoodSample(q, SampleSize(q.size), variant);
      WidthBound(Sample(q, SampleSize(q.size), variant).0);
    }
  }

  lemma FreshCursor<T>(q: Cal<T>, n: nat, variant: Variant)
    requires Wf(q) && n >= 2 && Resize(q, n, variant).Some?
    ensures var r := Resize(q, n, variant).value; CursorOk(r) && CursorGap(r) == 0
  {
    var r := Resize(q, n, variant).value;
    CursorBucketOf(r, Virtual(q.lastPrio, r.width));
  }

  ghost predicate PutGapsSafe<T>(q: Cal<T>, e: Event<T>, variant: Variant)
    requires Wf(q) && e.priority >= 0.0
  {
    var q1 := Enqueue(q, e);
    MustGrow(q1) ==> SamplingUnspoiled(q1, variant)
  }

  ghost predicate GetGapsSafe<T>(q: Cal<T>, variant: Variant)
    requires Wf(q) && q.size > 0
  {
    var q1 := Dequeue(q, variant).1;
    !GapSpoiled(q, variant) && (MustShrink(q1) ==> SamplingUnspoiled(q1, variant))
  }

  /** An event may be put: it is not in the past and ties with nothing pending. */
  ghost predicate Timely<T(!new)>(m: multiset<Event<T>>, last: real, e: Event<T>) {
    e.priority >= last && forall x :: x in m ==> x.priority != e.priority
  }

  lemma GoodPut<T(!new)>(q: Cal<T>, e: Event<T>, variant: Variant)
    requires Good(q) && Timely(Bag(q), q.lastPrio, e) && PutGapsSafe(q, e, variant)
    ensures Put(q, e, variant).Some? && Good(Put(q, e, variant).value)
  {
    var q1 := Enqueue(q, e);
    GoodEnqueue(q, e);
    if MustGrow(q1) { GoodResize(q1, 2 * |q1.buckets|, variant); }
  }

  lemma GoodEnqueue<T(!new)>(q: Cal<T>, e: Event<T>)
    requires Good(q) && Timely(Bag(q), q.lastPrio, e)
    ensures e.priority >= 0.0 && Good(Enqueue(q, e))
  {
    DistinctAdd(Bag(q), e);
    var q1 := Enqueue(q, e);
    assert CursorOk(q1);
  }

  lemma DistinctAdd<T(!new)>(m: multiset<Event<T>>, e: Event<T>)
    requires Distinct(m) && forall x :: x in m ==> x.priority != e.priority
    ensures Distinct(m + multiset{e})
  {
    assert e !in m;
  }

  lemma GoodGet<T(!new)>(q: Cal<T>, variant: Variant)
    requires Good(q) && q.size > 0 && GetGapsSafe(q, variant)
    ensures Get(q, variant).Some?
    ensures var (e, q1) := Get(q, variant).value;
            Good(q1) && IsMin(e, Bag(q)) && e.priority >= q.lastPrio
  {
    GoodRemoval(q, variant);
    var q1 := Dequeue(q, variant).1;
    DistinctTaken(Bag(q), Dequeue(q, variant).0);
    if MustShrink(q1) { GoodResize(q1, |q1.buckets| / 2, variant); }
  }

  // ---------------------------------------------------------------- the sorted list

  datatype Op<T> = OpPut(event: Event<T>) | OpGet

  /** The simple form: pending events in order, and the time reached. */
  datatype SortedQueue<T> = SortedQueue(events: seq<Event<T>>, last: real)

  ghost function ListPut<T>(l: SortedQueue<T>, e: Event<T>): SortedQueue<T> {
    l.(events := Insert(l.events, e))
  }

  ghost function ListGet<T>(l: SortedQueue<T>): (Option<Event<T>>, SortedQueue<T>) {
    if l.events == [] then (None, l)
    else (Some(l.events[0]), SortedQueue(l.events[1..], l.events[0].priority))
  }

  /** What the gets of a run return, and the state left behind. */
  ghost function ListRun<T>(l: SortedQueue<T>, ops: seq<Op<T>>): (seq<Option<Event<T>>>, SortedQueue<T>)
    decreases |ops|
  {
    if ops == [] then ([], l)
    else
      match ops[0]
      case OpPut(e) => ListRun(ListPut(l, e), ops[1..])
      case OpGet =>
        var (out, l1) := ListGet(l);
        var (outs, l2) := ListRun(l1, ops[1..]);
        ([out] + outs, l2)
  }

  /** Every put of the run is timely when it happens. */
  ghost predicate TimelyRun<T(!new)>(l: SortedQueue<T>, ops: seq<Op<T>>)
    decreases |ops|
  {
    if ops == [] then true
    else
      match ops[0]
      case OpPut(e) => Timely(multiset(l.events), l.last, e) && TimelyRun(ListPut(l, e), ops[1..])
      case OpGet => TimelyRun(ListGet(l).1, ops[1..])
  }

  // ---------------------------------------------------------------- runs of the calendar

  ghost function CalGet<T>(q: Cal<T>, variant: Variant): (r: Option<(Option<Event<T>>, Cal<T>)>)
    requires Wf(q)
    ensures r.Some? ==>
              var (out, q1) := r.value;
              Wf(q1) && Bag(q) == Bag(q1) + if out.Some? then multiset{out.value} else multiset{}
  {
    hide Bag, Get;
    if q.size == 0 then Some((None, q))
    else
      match Get(q, variant)
      case None => None
      case Some((e, q1)) => Some((Some(e), q1))
  }

  /** None once a resize has computed a width that is not a positive number, or a put came
      with a negative priority. */
  ghost function CalRun<T>(q: Cal<T>, ops: seq<Op<T>>, variant: Variant): Option<(seq<Option<Event<T>>>, Cal<T>)>
    requires Wf(q)
    decreases |ops|
  {
    if ops == [] then Some(([], q))
    else
      match ops[0]
      case OpPut(e) =>
        if e.priority < 0.0 then None
        else
          (match Put(q, e, variant)
           case None => None
           case Some(q1) => CalRun(q1, ops[1..], variant))
      case OpGet =>
        match CalGet(q, variant)
        case None => None
        case Some((out, q1)) =>
          match CalRun(q1, ops[1..], variant)
          case None => None
          case Some((outs, q2)) => Some(([out] + outs, q2))
  }

  lemma CalRunEnds<T>(q: Cal<T>, variant: Variant)
    requires Wf(q)
    ensures CalRun(q, [], variant) == Some(([], q))
  {
    hide Wf;
  }

  lemma CalRunPutIs<T>(q: Cal<T>, e: Event<T>, ops: seq<Op<T>>, variant: Variant)
    requires Wf(q) && e.priority >= 0.0 && Put(q, e, variant).Some?
    ensures CalRun(q, [OpPut(e)] + ops, variant) == CalRun(Put(q, e, variant).value, ops, variant)
  {
    hide Put, Wf;
    assert ([OpPut(e)] + ops)[1..] == ops;
  }

  lemma CalRunGetIs<T>(q: Cal<T>, ops: seq<Op<T>>, variant: Variant)
    requires Wf(q) && CalGet(q, variant).Some?
    ensures var (out, q1) := CalGet(q, variant).value;
            CalRun(q, [OpGet] + ops, variant) ==
            match CalRun(q1, ops, variant)
            case None => None
            case Some((outs, q2)) => Some(([out] + outs, q2))
  {
    hide CalGet, Wf;
    assert ([OpGet] + ops)[1..] == ops;
  }

  lemma CalRunSteps<T>(q: Cal<T>, ops: seq<Op<T>>, variant: Variant)
    requires Wf(q) && ops != [] && CalRun(q, ops, variant).Some?
    ensures ops[0].OpPut? ==> ops[0].event.priority >= 0.0 && Put(q, ops[0].event, variant).Some?
    ensures ops[0].OpGet? ==> CalGet(q, variant).Some?
  {
    hide Put, CalGet, Wf;
  }

  /** No direct search of the run, those made while sampling included, spoils the gap. */
  ghost predicate GapsSafe<T>(q: Cal<T>, ops: seq<Op<T>>, variant: Variant)
    requires Wf(q)
    decreases |ops|
  {
    ops == [] ||
    match ops[0]
    case OpPut(e) =>
      e.priority >= 0.0 ==>
        PutGapsSafe(q, e, variant) &&
        (Put(q, e, variant).Some? ==> GapsSafe(Put(q, e, variant).value, ops[1..], variant))
    case OpGet =>
      (q.size > 0 ==> GetGapsSafe(q, variant)) &&
      (CalGet(q, variant).Some? ==> GapsSafe(CalGet(q, variant).value.1, ops[1..], variant))
  }

  ghost predicate Represents<T>(q: Cal<T>, l: SortedQueue<T>) {
    Good(q) && StrictlySorted(l.events) && multiset(l.events) == Bag(q) && l.last == q.lastPrio
  }

  /** Outputs never decrease, starting from `last`. */
  ghost predicate NonDecreasing<T>(outs: seq<Option<Event<T>>>, last: real) {
    if outs == [] then true
    else if outs[0].None? then NonDecreasing(outs[1..], last)
    else last <= outs[0].value.priority && NonDecreasing(outs[1..], outs[0].value.priority)
  }

  lemma SortedMinimum<T>(s: seq<Event<T>>, e: Event<T>, m: multiset<Event<T>>)
    requires StrictlySorted(s) && multiset(s) == m && IsMin(e, m)
    ensures s != [] && s[0] == e
  {
    assert e in s;
    assert s[0] in m;
    var i :| 0 <= i < |s| && s[i] == e;
  }

  lemma RepresentsPut<T(!new)>(q: Cal<T>, l: SortedQueue<T>, e: Event<T>, variant: Variant)
    requires Represents(q, l) && Timely(multiset(l.events), l.last, e) && PutGapsSafe(q, e, variant)
    ensures Put(q, e, variant).Some? && Represents(Put(q, e, variant).value, ListPut(l, e))
  {
    GoodPut(q, e, variant);
    InsertSorted(l.events, e);
    SortedDistinctStrict(Insert(l.events, e), Bag(Put(q, e, variant).value));
  }

  lemma RepresentsGet<T(!new)>(q: Cal<T>, l: SortedQueue<T>, variant: Variant)
    requires Represents(q, l) && (q.size > 0 ==> GetGapsSafe(q, variant))
    ensures CalGet(q, variant).Some?
    ensures CalGet(q, variant).value.0 == ListGet(l).0
    ensures Represents(CalGet(q, variant).value.1, ListGet(l).1)
  {
    assert |l.events| == |multiset(l.events)| == q.size;
    if q.size > 0 {
      GoodGet(q, variant);
      var (e, q1) := Get(q, variant).value;
      RepresentsNext(q, l, e, q1);
    }
  }

  lemma RepresentsNext<T(!new)>(q: Cal<T>, l: SortedQueue<T>, e: Event<T>, q1: Cal<T>)
    requires Represents(q, l) && IsMin(e, Bag(q))
    requires Good(q1) && Bag(q1) == Bag(q) - multiset{e} && q1.lastPrio == e.priority
    ensures ListGet(l).0 == Some(e) && Represents(q1, ListGet(l).1)
  {
    hide Good, Bag;
    SortedMinimum(l.events, e, Bag(q));
    TailElements(l.events);
  }

  ghost predicate RunAgrees<T>(q: Cal<T>, l: SortedQueue<T>, ops: seq<Op<T>>, variant: Variant)
    requires Wf(q)
  {
    && CalRun(q, ops, variant).Some?
    && CalRun(q, ops, variant).value.0 == ListRun(l, ops).0
    && Represents(CalRun(q, ops, variant).value.1, ListRun(l, ops).1)
  }

  lemma AgreeAtEnd<T>(q: Cal<T>, l: SortedQueue<T>, variant: Variant)
    requires Represents(q, l)
    ensures Wf(q) && RunAgrees(q, l, [], variant)
  {
  }

  lemma SafePutStep<T(!new)>(q: Cal<T>, l: SortedQueue<T>, ops: seq<Op<T>>, variant: Variant)
    requires Represents(q, l) && ops != [] && ops[0].OpPut?
    requires TimelyRun(l, ops) && GapsSafe(q, ops, variant)
    ensures var e := ops[0].event;
            && Wf(q) && e.priority >= 0.0 && Timely(multiset(l.events), l.last, e) && PutGapsSafe(q, e, variant)
            && TimelyRun(ListPut(l, e), ops[1..])
            && (Put(q, e, variant).Some? ==> GapsSafe(Put(q, e, variant).value, ops[1..], variant))
  {
    hide Put, PutGapsSafe, NothingLate, SafeGap;
    assert q.lastPrio >= 0.0;
  }

  lemma SafeGetStep<T(!new)>(q: Cal<T>, l: SortedQueue<T>, ops: seq<Op<T>>, variant: Variant)
    requires Represents(q, l) && ops != [] && ops[0].OpGet?
    requires TimelyRun(l, ops) && GapsSafe(q, ops, variant)
    ensures Wf(q) && (q.size > 0 ==> GetGapsSafe(q, variant))
    ensures TimelyRun(ListGet(l).1, ops[1..])
    ensures CalGet(q, variant).Some? ==> GapsSafe(CalGet(q, variant).value.1, ops[1..], variant)
  {
    hide CalGet, GetGapsSafe;
  }

  lemma AgreeAfterPut<T>(q: Cal<T>, l: SortedQueue<T>, e: Event<T>, ops: seq<Op<T>>, variant: Variant)
    requires Wf(q) && e.priority >= 0.0 && Put(q, e, variant).Some?
    requires RunAgrees(Put(q, e, variant).value, ListPut(l, e), ops, variant)
    ensures RunAgrees(q, l, [OpPut(e)] + ops, variant)
  {
    CalRunPutIs(q, e, ops, variant);
    hide Represents, Wf, Put, ListPut, CalRun;
    assert ([OpPut(e)] + ops)[1..] == ops;
  }

  lemma AgreeAfterGet<T>(q: Cal<T>, l: SortedQueue<T>, ops: seq<Op<T>>, variant: Variant)
    requires Wf(q) && CalGet(q, variant).Some? && CalGet(q, variant).value.0 == ListGet(l).0
    requires RunAgrees(CalGet(q, variant).value.1, ListGet(l).1, ops, variant)
    ensures RunAgrees(q, l, [OpGet] + ops, variant)
  {
    CalRunGetIs(q, ops, variant);
    hide Represents, Wf, CalGet, ListGet, CalRun;
    assert ([OpGet] + ops)[1..] == ops;
  }

  /** Whole runs: the calendar answers every get as the sorted list does. */
  lemma {:induction false} RunRefinesSortedList<T(!new)>(q: Cal<T>, l: SortedQueue<T>, ops: seq<Op<T>>,
      variant: Variant)
    requires Represents(q, l) && TimelyRun(l, ops) && GapsSafe(q, ops, variant)
    ensures RunAgrees(q, l, ops, variant)
    decreases |ops|
  {
    hide *;
    if ops == [] {
      AgreeAtEnd(q, l, variant);
    } else {
      assert ops == [ops[0]] + ops[1..];
      match ops[0]
      case OpPut(e) =>
        SafePutStep(q, l, ops, variant);
        RepresentsPut(q, l, e, variant);
        RunRefinesSortedList(Put(q, e, variant).value, ListPut(l, e), ops[1..], variant);
        AgreeAfterPut(q, l, e, ops[1..], variant);
      case OpGet =>
        SafeGetStep(q, l, ops, variant);
        RepresentsGet(q, l, variant);
        RunRefinesSortedList(CalGet(q, variant).value.1, ListGet(l).1, ops[1..], variant);
        AgreeAfterGet(q, l, ops[1..], variant);
    }
  }

  /** Timely puts make the outputs of the sorted list non-decreasing. */
  lemma {:induction false} ListNonDecreasing<T(!new)>(l: SortedQueue<T>, ops: seq<Op<T>>)
    requires TimelyRun(l, ops) && Sorted(l.events)
    requires forall i :: 0 <= i < |l.events| ==> l.events[i].priority >= l.last
    ensures NonDecreasing(ListRun(l, ops).0, l.last)
    decreases |ops|
  {
    if ops != [] {
      match ops[0]
      case OpPut(e) =>
        InsertSorted(l.events, e);
        InsertAbove(l.events, e, l.last);
        ListNonDecreasing(ListPut(l, e), ops[1..]);
      case OpGet =>
        ListNonDecreasing(ListGet(l).1, ops[1..]);
    }
  }

  lemma InsertAbove<T>(s: seq<Event<T>>, e: Event<T>, last: real)
    requires e.priority >= last && forall i :: 0 <= i < |s| ==> s[i].priority >= last
    ensures forall i :: 0 <= i < |Insert(s, e)| ==> Insert(s, e)[i].priority >= last
  {
    var r := Insert(s, e);
    forall i | 0 <= i < |r| ensures r[i].priority >= last {
      assert r[i] in multiset(r);
      assert r[i] == e || r[i] in s;
    }
  }

  // ---------------------------------------------------------------- from calqueue_init

  ghost function InitialCal<T>(): (q: Cal<T>)
    ensures Wf(q) && q.size == 0
  {
    LocalInit(2, 1.0, 0.0)
  }

  lemma InitialCursor<T>()
    ensures CursorOk(InitialCal<T>()) && CursorGap(InitialCal<T>()) == 0
  {
    CursorBucketOf(InitialCal<T>(), Virtual(0.0, 1.0));
  }

  lemma InitialRepresents<T>()
    ensures Represents(InitialCal<T>(), SortedQueue([], 0.0))
  {
    InitialCursor<T>();
    hide CursorOk, CursorGap;
    assert Bag(InitialCal<T>()) == multiset{};
  }

  /** The code as written, from calqueue_init: a priority queue in every run whose puts are
      timely and whose direct searches leave no gap of one. */
  lemma RunFromInit<T(!new)>(ops: seq<Op<T>>)
    requires TimelyRun(SortedQueue([], 0.0), ops) && GapsSafe(InitialCal<T>(), ops, AsWritten)
    ensures CalRun(InitialCal<T>(), ops, AsWritten).Some?
    ensures CalRun(InitialCal<T>(), ops, AsWritten).value.0 == ListRun(SortedQueue([], 0.0), ops).0
    ensures NonDecreasing(ListRun(SortedQueue([], 0.0), ops).0, 0.0)
  {
    hide Represents, CalRun, ListRun, GapsSafe, TimelyRun, NonDecreasing, InitialCal;
    InitialRepresents<T>();
    ListNonDecreasing(SortedQueue([], 0.0), ops);
    RunRefinesSortedList(InitialCal<T>(), SortedQueue([], 0.0), ops, AsWritten);
  }

  // ---------------------------------------------------------------- the repaired direct search

  lemma NeverSpoiled<T>(q: Cal<T>)
    requires CursorOk(q) && q.size > 0
    ensures !GapSpoiled(q, Repaired)
  {
    if DirectSearch(q) { CursorAfterDirectSearch(q, Repaired); }
  }

  lemma {:induction false} SampleNeverSpoiled<T>(q: Cal<T>, k: nat)
    requires CursorOk(q) && Wf(q) && k <= q.size
    ensures Unspoiled(q, k, Repaired) && CursorOk(Sample(q, k, Repaired).1)
  {
    hide *;
    if k == 0 {
      NothingSpoiled(q, Repaired);
    } else {
      SampleNeverSpoiled(q, k - 1);
      SampleStep(q, k, Repaired);
      UnspoiledStep(q, k, Repaired);
      NeverSpoiled(Sample(q, k - 1, Repaired).1);
      CursorKept(Sample(q, k - 1, Repaired).1, Repaired);
    }
  }

  lemma NothingSpoiled<T>(q: Cal<T>, variant: Variant)
    requires Wf(q)
    ensures Unspoiled(q, 0, variant) && Sample(q, 0, variant).1 == q
  {
  }

  lemma RepairedPutSafe<T>(q: Cal<T>, e: Event<T>)
    requires CursorOk(q) && e.priority >= 0.0
    ensures PutGapsSafe(q, e, Repaired)
    ensures Put(q, e, Repaired).Some? ==> CursorOk(Put(q, e, Repaired).value)
  {
    var q1 := Enqueue(q, e);
    assert CursorOk(q1);
    if MustGrow(q1) {
      if q1.size >= 2 { SampleNeverSpoiled(q1, SampleSize(q1.size)); }
      if Put(q, e, Repaired).Some? { FreshCursor(q1, 2 * |q1.buckets|, Repaired); }
    }
  }

  lemma RepairedGetSafe<T>(q: Cal<T>)
    requires CursorOk(q) && q.size > 0
    ensures GetGapsSafe(q, Repaired)
    ensures Get(q, Repaired).Some? ==> CursorOk(Get(q, Repaired).value.1)
  {
    NeverSpoiled(q);
    CursorKept(q, Repaired);
    var q1 := Dequeue(q, Repaired).1;
    if MustShrink(q1) {
      if q1.size >= 2 { SampleNeverSpoiled(q1, SampleSize(q1.size)); }
      if Get(q, Repaired).Some? { FreshCursor(q1, |q1.buckets| / 2, Repaired); }
    }
  }

  lemma {:induction false} RepairedGapsSafe<T>(q: Cal<T>, ops: seq<Op<T>>)
    requires CursorOk(q)
    ensures GapsSafe(q, ops, Repaired)
    decreases |ops|
  {
    if ops != [] {
      match ops[0]
      case OpPut(e) =>
        if e.priority >= 0.0 {
          RepairedPutSafe(q, e);
          if Put(q, e, Repaired).Some? { RepairedGapsSafe(Put(q, e, Repaired).value, ops[1..]); }
        }
      case OpGet =>
        if q.size > 0 { RepairedGetSafe(q); }
        if CalGet(q, Repaired).Some? { RepairedGapsSafe(CalGet(q, Repaired).value.1, ops[1..]); }
    }
  }

  /** With `bucketTop` recomputed after a direct search, timely puts are all that is needed. */
  lemma RepairedRunFromInit<T(!new)>(ops: seq<Op<T>>)
    requires TimelyRun(SortedQueue([], 0.0), ops)
    ensures CalRun(InitialCal<T>(), ops, Repaired).Some?
    ensures CalRun(InitialCal<T>(), ops, Repaired).value.0 == ListRun(SortedQueue([], 0.0), ops).0
    ensures NonDecreasing(ListRun(SortedQueue([], 0.0), ops).0, 0.0)
  {
    hide Represents, CursorOk, CalRun, ListRun, GapsSafe, TimelyRun, NonDecreasing, InitialCal;
    InitialRepresents<T>();
    InitialCursor<T>();
    RepairedGapsSafe(InitialCal<T>(), ops);
    ListNonDecreasing(SortedQueue([], 0.0), ops);
    RunRefinesSortedList(InitialCal<T>(), SortedQueue([], 0.0), ops, Repaired);
  }
}
