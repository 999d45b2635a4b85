/** For which runs the calendar queue answers as a sorted list does. */
module CalendarExact {
  import opened Options
  import opened Events
  import opened Calendar
  import opened CalendarDequeue
  import opened CalendarRun
  import opened CalendarWidth

  /** What a get needs to hand out a minimum: nothing lies below the bucket top of the step that
      reaches it, or a minimal event is the first reached that does. */
  ghost predicate Meets<T(!new)>(q: Cal<T>)
    requires Wf(q)
  {
    NothingAdmitted(q) || exists m :: IsMin(m, Bag(q)) && AdmittedFirst(q, m)
  }

  /** Every get of the run that finds an event meets the criterion. */
  ghost predicate GetsMeet<T(!new)>(q: Cal<T>, ops: seq<Op<T>>, variant: Variant)
    requires Wf(q)
    decreases |ops|
  {
    ops == [] ||
    match ops[0]
    case OpPut(e) =>
      e.priority >= 0.0 && Put(q, e, variant).Some? ==> GetsMeet(Put(q, e, variant).value, ops[1..], variant)
    case OpGet =>
      (q.size > 0 ==> Meets(q)) &&
      (CalGet(q, variant).Some? ==> GetsMeet(CalGet(q, variant).value.1, ops[1..], variant))
  }

  /** The calendar holds what the list holds, without ties. */
  ghost predicate SameEvents<T>(q: Cal<T>, l: SortedQueue<T>) {
    Wf(q) && Sorted(l.events) && multiset(l.events) == Bag(q) && Distinct(Bag(q))
  }

  lemma SamePut<T(!new)>(q: Cal<T>, l: SortedQueue<T>, e: Event<T>, variant: Variant)
    requires SameEvents(q, l) && e.priority >= 0.0 && Put(q, e, variant).Some?
    requires Timely(multiset(l.events), l.last, e)
    ensures SameEvents(Put(q, e, variant).value, ListPut(l, e))
  {
    hide Wf, Put, Bag, Insert, Distinct;
    InsertSorted(l.events, e);
    DistinctAdd(Bag(q), e);
  }

  /** A get that meets the criterion hands out the head of the list; one that does not hands out
      something else. */
  lemma SameGet<T(!new)>(q: Cal<T>, l: SortedQueue<T>, variant: Variant)
    requires SameEvents(q, l) && CalGet(q, variant).Some?
    ensures CalGet(q, variant).value.0 == ListGet(l).0 <==> (q.size > 0 ==> Meets(q))
    ensures (q.size > 0 ==> Meets(q)) ==> SameEvents(CalGet(q, variant).value.1, ListGet(l).1)
  {
    SizeOfBag(q, l);
    if q.size > 0 {
      GetIs(q, variant);
      hide Wf, Bag, Get, Dequeue, NothingAdmitted, AdmittedFirst;
      DequeueMinimumIff(q, variant);
      SortedDistinctStrict(l.events, Bag(q));
      HeadIsMin(l.events, Bag(q), Dequeue(q, variant).0);
      if Meets(q) { SameTail(q, l, Dequeue(q, variant).0, CalGet(q, variant).value.1); }
    }
  }

  lemma SizeOfBag<T>(q: Cal<T>, l: SortedQueue<T>)
    requires SameEvents(q, l)
    ensures q.size == |l.events|
  {
    assert |l.events| == |multiset(l.events)|;
  }

  lemma GetIs<T>(q: Cal<T>, variant: Variant)
    requires Wf(q) && q.size > 0 && CalGet(q, variant).Some?
    ensures var e := Dequeue(q, variant).0;
            CalGet(q, variant).value.0 == Some(e) && e in Bag(q) &&
              Bag(CalGet(q, variant).value.1) == Bag(q) - multiset{e}
  {
    hide Dequeue, Resize, Bag;
  }

  /** Of a list without ties exactly the head is a minimum. */
  lemma HeadIsMin<T>(s: seq<Event<T>>, m: multiset<Event<T>>, e: Event<T>)
    requires StrictlySorted(s) && multiset(s) == m && s != []
    ensures IsMin(e, m) <==> e == s[0]
  {
    forall x | x in m ensures s[0].priority <= x.priority {
      assert x in s;
      var i :| 0 <= i < |s| && s[i] == x;
    }
    assert s[0] in m;
    if IsMin(e, m) { SortedMinimum(s, e, m); }
  }

  lemma SameTail<T(!new)>(q: Cal<T>, l: SortedQueue<T>, e: Event<T>, q1: Cal<T>)
    requires SameEvents(q, l) && l.events != [] && e == l.events[0]
    requires Wf(q1) && Bag(q1) == Bag(q) - multiset{e}
    ensures SameEvents(q1, ListGet(l).1)
  {
    hide Wf, Bag;
    TailElements(l.events);
    DistinctTaken(Bag(q), e);
  }

  /** The code as written or repaired: in a timely run whose resizes all find a usable width, the gets
      answer as the sorted list does if and only if each of them meets the criterion. */
  lemma {:induction false} OutputsExact<T(!new)>(q: Cal<T>, l: SortedQueue<T>, ops: seq<Op<T>>, variant: Variant)
    requires SameEvents(q, l) && TimelyRun(l, ops) && CalRun(q, ops, variant).Some?
    ensures CalRun(q, ops, variant).value.0 == ListRun(l, ops).0 <==> GetsMeet(q, ops, variant)
    decreases |ops|
  {
    hide SameEvents, Put, CalGet, ListGet, ListPut, Timely, Meets;
    if ops != [] {
      assert Wf(q) by { EventsOf(q, l); }
      match ops[0]
      case OpPut(e) =>
        PutTimely(l, e, ops);
        SamePut(q, l, e, variant);
        OutputsExact(Put(q, e, variant).value, ListPut(l, e), ops[1..], variant);
      case OpGet =>
        SameGet(q, l, variant);
        var (out, q1) := CalGet(q, variant).value;
        if q.size > 0 ==> Meets(q) { OutputsExact(q1, ListGet(l).1, ops[1..], variant); }
        FirstOutputs(out, CalRun(q1, ops[1..], variant).value.0, ListGet(l).0, ListRun(ListGet(l).1, ops[1..]).0);
    }
  }

  lemma FirstOutputs<T>(a: T, s: seq<T>, b: T, t: seq<T>)
    ensures [a] + s == [b] + t <==> a == b && s == t
  {
    if [a] + s == [b] + t {
      assert ([a] + s)[0] == ([b] + t)[0];
      assert ([a] + s)[1..] == ([b] + t)[1..];
    }
  }

  lemma EventsOf<T>(q: Cal<T>, l: SortedQueue<T>)
    requires SameEvents(q, l)
    ensures Wf(q)
  {
  }

  lemma PutTimely<T(!new)>(l: SortedQueue<T>, e: Event<T>, ops: seq<Op<T>>)
    requires ops != [] && ops[0] == OpPut(e) && TimelyRun(l, ops)
    ensures Timely(multiset(l.events), l.last, e)
  {
  }

  /** From calqueue_init. */
  lemma RunFromInitExact<T(!new)>(ops: seq<Op<T>>, variant: Variant)
    requires TimelyRun(SortedQueue([], 0.0), ops) && CalRun(InitialCal<T>(), ops, variant).Some?
    ensures CalRun(InitialCal<T>(), ops, variant).value.0 == ListRun(SortedQueue([], 0.0), ops).0 <==>
            GetsMeet(InitialCal<T>(), ops, variant)
  {
    InitialSame<T>();
    hide *;
    OutputsExact(InitialCal<T>(), SortedQueue([], 0.0), ops, variant);
  }

  lemma InitialSame<T>()
    ensures SameEvents(InitialCal<T>(), SortedQueue([], 0.0))
  {
  }

  // ---------------------------------------------------------------- which runs go through

  ghost predicate PutUsable<T>(q: Cal<T>, e: Event<T>, variant: Variant)
    requires Wf(q) && e.priority >= 0.0
  {
    MustGrow(Enqueue(q, e)) ==> SamplesUsable(Enqueue(q, e), variant)
  }

  ghost predicate GetUsable<T>(q: Cal<T>, variant: Variant)
    requires Wf(q)
  {
    q.size > 0 && MustShrink(Dequeue(q, variant).1) ==> SamplesUsable(Dequeue(q, variant).1, variant)
  }

  /** The samples of every resize of the run are usable. */
  ghost predicate RunUsable<T>(q: Cal<T>, ops: seq<Op<T>>, variant: Variant)
    requires Wf(q)
    decreases |ops|
  {
    ops == [] ||
    match ops[0]
    case OpPut(e) =>
      e.priority >= 0.0 && PutUsable(q, e, variant) &&
      (Put(q, e, variant).Some? ==> RunUsable(Put(q, e, variant).value, ops[1..], variant))
    case OpGet =>
      GetUsable(q, variant) &&
      (CalGet(q, variant).Some? ==> RunUsable(CalGet(q, variant).value.1, ops[1..], variant))
  }

  lemma PutSucceedsIff<T>(q: Cal<T>, e: Event<T>, variant: Variant)
    requires Wf(q) && e.priority >= 0.0
    ensures Put(q, e, variant).Some? <==> PutUsable(q, e, variant)
  {
    hide Wf, Resize, SamplesUsable;
    var q1 := Enqueue(q, e);
    if MustGrow(q1) { ResizeSucceedsIff(q1, 2 * |q1.buckets|, variant); }
  }

  lemma GetSucceedsIff<T>(q: Cal<T>, variant: Variant)
    requires Wf(q)
    ensures CalGet(q, variant).Some? <==> GetUsable(q, variant)
  {
    assert q.size >= 0;
    hide Wf, Resize, SamplesUsable, Dequeue;
    if q.size > 0 {
      var q1 := Dequeue(q, variant).1;
      if MustShrink(q1) { ResizeSucceedsIff(q1, |q1.buckets| / 2, variant); }
    }
  }

  /** A run, ordered or not, goes through if and only if no put is negative and every resize finds
      usable samples. */
  lemma {:induction false} RunSucceedsIff<T>(q: Cal<T>, ops: seq<Op<T>>, variant: Variant)
    requires Wf(q)
    ensures CalRun(q, ops, variant).Some? <==> RunUsable(q, ops, variant)
    decreases |ops|
  {
    hide Wf, Put, CalGet, PutUsable, GetUsable;
    if ops != [] {
      match ops[0]
      case OpPut(e) =>
        if e.priority >= 0.0 {
          PutSucceedsIff(q, e, variant);
          if Put(q, e, variant).Some? { RunSucceedsIff(Put(q, e, variant).value, ops[1..], variant); }
        }
      case OpGet =>
        GetSucceedsIff(q, variant);
        if CalGet(q, variant).Some? { RunSucceedsIff(CalGet(q, variant).value.1, ops[1..], variant); }
    }
  }
}
