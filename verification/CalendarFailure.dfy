/** Resizes of the code as written that compute a negative width, and where that leaves the events. */
module CalendarFailure {
  import opened Options
  import opened Events
  import opened Calendar
  import opened CalendarCursor
  import opened CalendarDequeue
  import opened CalendarRun
  import opened CalendarTrace
  import opened CalendarWidth

  // ---------------------------------------------------------------- bucket numbers as C computes them

  /** A cast of a double to an integer drops the fraction. */
  ghost function Truncated(x: real): int {
    if x >= 0.0 then x.Floor else -(-x).Floor
  }

  /** The remainder takes the sign of the dividend. */
  function Remainder(a: int, n: int): int
    requires n > 0
  {
    if a >= 0 then a % n else -((-a) % n)
  }

  ghost function CBucket(priority: real, width: real, n: int): int
    requires width != 0.0 && n > 0
  {
    Remainder(Truncated(priority / width), n)
  }

  /** With a positive width casts and remainders are the floors and residues of the model. */
  lemma CBucketIs(priority: real, width: real, n: int)
    requires priority >= 0.0 && width > 0.0 && n > 0
    ensures CBucket(priority, width, n) == BucketOf(priority, width, n)
  {
    VirtualNonNegative(priority, width);
  }

  lemma NegativeQuotient(p: real, width: real)
    requires width != 0.0
    ensures p / -width == -(p / width)
  {
    var x := p / width;
    assert x * width == p;
    assert (-x) * -width == p;
  }

  /** With a negative width the bucket number is that of the width's size, negated: the event is
      linked in front of the calendar exactly when that number is not zero. */
  lemma CBucketNegative(priority: real, width: real, n: int)
    requires priority >= 0.0 && width < 0.0 && n > 0
    ensures CBucket(priority, width, n) == -BucketOf(priority, -width, n)
    ensures -n < CBucket(priority, width, n) <= 0
  {
    VirtualNonNegative(priority, -width);
    NegativeQuotient(priority, width);
    var x := priority / -width;
    assert priority / width == -x;
    if x == 0.0 {
      assert Truncated(priority / width) == 0;
    } else {
      assert Truncated(priority / width) == -x.Floor;
    }
  }

  // ---------------------------------------------------------------- five puts

  const P: Event<int> := Event(3.1, 1)
  const Q: Event<int> := Event(3.7, 2)
  const R: Event<int> := Event(4.2, 3)
  const S: Event<int> := Event(4.3, 4)
  const T: Event<int> := Event(4.4, 5)

  const PUTS: seq<Op<int>> := [OpPut(P), OpPut(Q), OpPut(R), OpPut(S), OpPut(T)]

  lemma FiveBuckets()
    ensures Virtual(3.1, 1.0) == 3 && Virtual(3.7, 1.0) == 3
    ensures Virtual(4.2, 1.0) == 4 && Virtual(4.3, 1.0) == 4 && Virtual(4.4, 1.0) == 4
  {
    VirtualUnique(3.1, 1.0, 3);
    VirtualUnique(3.7, 1.0, 3);
    VirtualUnique(4.2, 1.0, 4);
    VirtualUnique(4.3, 1.0, 4);
    VirtualUnique(4.4, 1.0, 4);
  }

  /** One sample more. */
  lemma OneMore<X>(q: Cal<X>, k: nat, s: seq<Event<X>>, q0: Cal<X>, e: Event<X>, q1: Cal<X>, more: seq<Event<X>>)
    requires Wf(q) && k < q.size && Sample(q, k, AsWritten) == (s, q0) && more == s + [e]
    requires Wf(q0) && q0.size > 0 && Dequeue(q0, AsWritten) == (e, q1)
    ensures Sample(q, k + 1, AsWritten) == (more, q1) && Wf(q1)
  {
    hide Wf, Dequeue, Sample;
    SampleStep(q, k + 1, AsWritten);
  }

  /** The calendar the fifth put samples. */
  ghost function Sampled(): Cal<int> {
    Small([R, S, T], [P, Q], 0, 0.0, 1.5)
  }

  lemma SampledSize()
    ensures Sampled().size == 5
  {
  }

  lemma Removal1()
    requires Wf(Sampled())
    ensures Dequeue(Sampled(), AsWritten) == (P, Small([R, S, T], [Q], 1, 3.1, 3.5))
  {
    hide Wf, Dequeue, Get;
    assert [P, Q][1..] == [Q];
    SmallDirect([R, S, T], [P, Q], 0, 0.0, 1.5, 1);
  }

  lemma Removal2()
    requires Wf(Small([R, S, T], [Q], 1, 3.1, 3.5))
    ensures Small([R, S, T], [Q], 1, 3.1, 3.5).size > 0
    ensures Dequeue(Small([R, S, T], [Q], 1, 3.1, 3.5), AsWritten) == (R, Small([S, T], [Q], 0, 4.2, 4.5))
  {
    hide Wf, Dequeue, Get;
    assert [R, S, T][1..] == [S, T];
    SmallHitNext([R, S, T], [Q], 1, 3.1, 3.5);
  }

  lemma Removal3()
    requires Wf(Small([S, T], [Q], 0, 4.2, 4.5))
    ensures Small([S, T], [Q], 0, 4.2, 4.5).size > 0
    ensures Dequeue(Small([S, T], [Q], 0, 4.2, 4.5), AsWritten) == (S, Small([T], [Q], 0, 4.3, 4.5))
  {
    hide Wf, Dequeue, Get;
    assert [S, T][1..] == [T];
    SmallHitHere([S, T], [Q], 0, 4.2, 4.5);
  }

  lemma Removal4()
    requires Wf(Small([T], [Q], 0, 4.3, 4.5))
    ensures Small([T], [Q], 0, 4.3, 4.5).size > 0
    ensures Dequeue(Small([T], [Q], 0, 4.3, 4.5), AsWritten) == (T, Small([], [Q], 0, 4.4, 4.5))
  {
    hide Wf, Dequeue, Get;
    assert [T][1..] == [];
    SmallHitHere([T], [Q], 0, 4.3, 4.5);
  }

  /** 3.7 comes out last: after the direct search for 3.1 it lies in a gap of one. */
  lemma Removal5()
    requires Wf(Small([], [Q], 0, 4.4, 4.5))
    ensures Small([], [Q], 0, 4.4, 4.5).size > 0
    ensures Dequeue(Small([], [Q], 0, 4.4, 4.5), AsWritten) == (Q, Small([], [], 1, 3.7, 5.5))
  {
    hide Wf, Dequeue, Get;
    assert [Q][1..] == [];
    SmallHitNext([], [Q], 0, 4.4, 4.5);
  }

  lemma FirstSamples()
    requires Wf(Sampled())
    ensures Wf(Small([S, T], [Q], 0, 4.2, 4.5))
    ensures Sample(Sampled(), 2, AsWritten) == ([P, R], Small([S, T], [Q], 0, 4.2, 4.5))
  {
    hide *;
    SampledSize();
    SampleNothing(Sampled(), AsWritten);
    Removal1();
    OneMore(Sampled(), 0, [], Sampled(), P, Small([R, S, T], [Q], 1, 3.1, 3.5), [P]);
    Removal2();
    OneMore(Sampled(), 1, [P], Small([R, S, T], [Q], 1, 3.1, 3.5), R, Small([S, T], [Q], 0, 4.2, 4.5), [P, R]);
  }

  lemma MoreSamples()
    requires Wf(Sampled())
    ensures Wf(Small([], [Q], 0, 4.4, 4.5))
    ensures Sample(Sampled(), 4, AsWritten) == ([P, R, S, T], Small([], [Q], 0, 4.4, 4.5))
  {
    hide *;
    SampledSize();
    FirstSamples();
    Removal3();
    OneMore(Sampled(), 2, [P, R], Small([S, T], [Q], 0, 4.2, 4.5), S, Small([T], [Q], 0, 4.3, 4.5), [P, R, S]);
    Removal4();
    OneMore(Sampled(), 3, [P, R, S], Small([T], [Q], 0, 4.3, 4.5), T, Small([], [Q], 0, 4.4, 4.5), [P, R, S, T]);
  }

  lemma Samples()
    requires Wf(Sampled())
    ensures Sampled().size == 5 && Sample(Sampled(), 5, AsWritten).0 == [P, R, S, T, Q]
  {
    hide *;
    SampledSize();
    MoreSamples();
    Removal5();
    OneMore(Sampled(), 4, [P, R, S, T], Small([], [Q], 0, 4.4, 4.5), Q, Small([], [], 1, 3.7, 5.5), [P, R, S, T, Q]);
  }

  lemma SampledWidth()
    ensures WidthOf([P, R, S, T, Q]) == Some(-0.5)
  {
    var s := [P, R, S, T, Q];
    GapSumTelescopes(s, 5);
    assert GapLimit(s) == 0.3;
    assert SmallGaps(s, 2, 0.3) == (0.0, 0);
    assert SmallGaps(s, 3, 0.3) == (0.1, 1);
    assert SmallGaps(s, 4, 0.3) == (0.2, 2);
    assert SmallGaps(s, 5, 0.3) == (-0.5, 3);
  }

  lemma PutFails(ops: seq<Op<int>>)
    requires Wf(Small([R, S], [P, Q], 0, 0.0, 1.5))
    ensures Wf(Sampled()) && NewWidth(Sampled(), AsWritten) == Some(-0.5)
    ensures CalRun(Small([R, S], [P, Q], 0, 0.0, 1.5), [OpPut(T)] + ops, AsWritten) == None
  {
    hide Wf, Sample, WidthOf, Insert, AfterSampling, Sampled;
    FifthEnqueue();
    Samples();
    SampledWidth();
    assert ([OpPut(T)] + ops)[0] == OpPut(T);
  }

  lemma FifthEnqueue()
    requires Wf(Small([R, S], [P, Q], 0, 0.0, 1.5))
    ensures Enqueue(Small([R, S], [P, Q], 0, 0.0, 1.5), T) == Sampled() && Wf(Sampled())
    ensures |Sampled().buckets| == 2
  {
    FiveBuckets();
    InsertAt([R, S], T, 2);
    assert Insert([R, S], T) == [R, S, T];
    hide Wf, Insert, Virtual;
    SmallEnqueue([R, S], [P, Q], 0, 0.0, 1.5, T);
  }

  lemma PutOn(even: seq<Event<int>>, odd: seq<Event<int>>, e: Event<int>,
              even': seq<Event<int>>, odd': seq<Event<int>>, ops: seq<Op<int>>)
    requires Wf(Small(even, odd, 0, 0.0, 1.5)) && |even| + |odd| < 4 && e.priority >= 0.0
    requires if Virtual(e.priority, 1.0) % 2 == 0 then even' == Insert(even, e) && odd' == odd
             else even' == even && odd' == Insert(odd, e)
    ensures Wf(Small(even', odd', 0, 0.0, 1.5))
    ensures CalRun(Small(even, odd, 0, 0.0, 1.5), [OpPut(e)] + ops, AsWritten) ==
            CalRun(Small(even', odd', 0, 0.0, 1.5), ops, AsWritten)
  {
    SmallPut(even, odd, 0, 0.0, 1.5, e);
    hide Put, Wf, CalRun, Insert, Small, Virtual;
    CalRunPutIs(Small(even, odd, 0, 0.0, 1.5), e, ops, AsWritten);
  }

  lemma Insertions()
    ensures Insert([], P) == [P] && Insert([P], Q) == [P, Q] && Insert([], R) == [R] && Insert([R], S) == [R, S]
  {
    InsertAt([P], Q, 1);
    InsertAt([R], S, 1);
  }

  lemma FivePutsFail()
    ensures CalRun(InitialCal<int>(), PUTS, AsWritten) == None
    ensures Wf(Sampled()) && NewWidth(Sampled(), AsWritten) == Some(-0.5)
  {
    hide Put, Wf, CalRun, Insert, InitialCal, NewWidth, Virtual;
    CalendarTrace.Start<int>();
    FiveBuckets();
    Insertions();
    assert Wf(InitialCal<int>());
    PutOn([], [], P, [], [P], [OpPut(Q), OpPut(R), OpPut(S), OpPut(T)]);
    PutOn([], [P], Q, [], [P, Q], [OpPut(R), OpPut(S), OpPut(T)]);
    PutOn([], [P, Q], R, [R], [P, Q], [OpPut(S), OpPut(T)]);
    PutOn([R], [P, Q], S, [R, S], [P, Q], [OpPut(T)]);
    PutFails([]);
    Peeled();
  }

  lemma Peeled()
    ensures PUTS == [OpPut(P)] + [OpPut(Q), OpPut(R), OpPut(S), OpPut(T)]
    ensures [OpPut(Q)] + [OpPut(R), OpPut(S), OpPut(T)] == [OpPut(Q), OpPut(R), OpPut(S), OpPut(T)]
    ensures [OpPut(R)] + [OpPut(S), OpPut(T)] == [OpPut(R), OpPut(S), OpPut(T)]
    ensures [OpPut(S)] + [OpPut(T)] == [OpPut(S), OpPut(T)]
    ensures var none: seq<Op<int>> := []; [OpPut(T)] + none == [OpPut(T)]
  {
  }

  lemma PutsTimely()
    ensures TimelyRun(SortedQueue([], 0.0), PUTS)
  {
    hide TimelyRun, ListRun, Insert;
    Peeled();
    NothingTimely(SortedQueue([P, Q, R, S, T], 0.0));
    PutLast([P, Q, R, S], T, [P, Q, R, S, T], []);
    PutLast([P, Q, R], S, [P, Q, R, S], [OpPut(T)]);
    PutLast([P, Q], R, [P, Q, R], [OpPut(S), OpPut(T)]);
    PutLast([P], Q, [P, Q], [OpPut(R), OpPut(S), OpPut(T)]);
    PutLast([], P, [P], [OpPut(Q), OpPut(R), OpPut(S), OpPut(T)]);
  }

  lemma NothingTimely(l: SortedQueue<int>)
    ensures TimelyRun(l, [])
  {
  }

  /** A put after everything pending. */
  lemma PutLast(s: seq<Event<int>>, e: Event<int>, more: seq<Event<int>>, ops: seq<Op<int>>)
    requires Sorted(s) && e.priority >= 0.0 && forall x | x in s :: x.priority < e.priority
    requires more == s + [e] && TimelyRun(SortedQueue(more, 0.0), ops)
    ensures TimelyRun(SortedQueue(s, 0.0), [OpPut(e)] + ops)
  {
    hide TimelyRun, ListRun;
    InsertAt(s, e, |s|);
    assert s[..|s|] + [e] + s[|s|..] == s + [e];
    ListPutFirst(SortedQueue(s, 0.0), e, ops);
  }

  /** Five timely puts into a new queue, without ties: the fifth computes a width of -0.5, and the code
      then links 3.1 and 3.7 two and three cells in front of the new calendar of four buckets. */
  lemma FivePuts()
    ensures TimelyRun(SortedQueue([], 0.0), PUTS) && CalRun(InitialCal<int>(), PUTS, AsWritten) == None
    ensures Wf(Sampled()) && NewWidth(Sampled(), AsWritten) == Some(-0.5)
    ensures CBucket(P.priority, -0.5, 4) == -2 && CBucket(Q.priority, -0.5, 4) == -3
    ensures CBucket(R.priority, -0.5, 4) == 0 && CBucket(S.priority, -0.5, 4) == 0 && CBucket(T.priority, -0.5, 4) == 0
  {
    PutsTimely();
    FivePutsFail();
  }
}
