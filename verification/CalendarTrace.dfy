/** A run of the code as written that is not a priority queue. */
module CalendarTrace {
  import opened Events
  import opened Calendar
  import opened CalendarDequeue
  import opened CalendarCursor
  import opened CalendarRun
  import opened Options

  const A: Event<int> := Event(3.1, 1)
  const B: Event<int> := Event(3.7, 2)
  const C: Event<int> := Event(4.2, 3)

  const TRACE: seq<Op<int>> := [OpPut(A), OpPut(B), OpPut(C), OpGet, OpGet, OpGet]

  /** A calendar of the initial geometry: two buckets of width one. */
  ghost function Small<T>(even: seq<Event<T>>, odd: seq<Event<T>>, last: int, prio: real, top: real): Cal<T> {
    Cal([even, odd], 1.0, |even| + |odd|, last, prio, top)
  }

  lemma Virtuals()
    ensures Virtual(0.0, 1.0) == 0
    ensures Virtual(A.priority, 1.0) == 3 && Virtual(B.priority, 1.0) == 3 && Virtual(C.priority, 1.0) == 4
  {
    VirtualUnique(0.0, 1.0, 0);
    VirtualUnique(A.priority, 1.0, 3);
    VirtualUnique(B.priority, 1.0, 3);
    VirtualUnique(C.priority, 1.0, 4);
  }

  lemma SmallPut<T>(even: seq<Event<T>>, odd: seq<Event<T>>, last: int, prio: real, top: real, e: Event<T>)
    requires Wf(Small(even, odd, last, prio, top)) && |even| + |odd| < 4 && e.priority >= 0.0
    ensures Put(Small(even, odd, last, prio, top), e, AsWritten) ==
            Some(if Virtual(e.priority, 1.0) % 2 == 0
                 then Small(Insert(even, e), odd, last, prio, top)
                 else Small(even, Insert(odd, e), last, prio, top))
  {
    SmallEnqueue(even, odd, last, prio, top, e);
    hide Wf, Insert, Resize, Enqueue;
    assert !MustGrow(Enqueue(Small(even, odd, last, prio, top), e));
  }

  lemma SmallEnqueue<T>(even: seq<Event<T>>, odd: seq<Event<T>>, last: int, prio: real, top: real, e: Event<T>)
    requires Wf(Small(even, odd, last, prio, top)) && e.priority >= 0.0
    ensures Enqueue(Small(even, odd, last, prio, top), e) ==
            if Virtual(e.priority, 1.0) % 2 == 0
            then Small(Insert(even, e), odd, last, prio, top)
            else Small(even, Insert(odd, e), last, prio, top)
  {
    hide Wf, Insert, Bag, Pending;
    var q1 := Enqueue(Small(even, odd, last, prio, top), e);
    if Virtual(e.priority, 1.0) % 2 == 0 {
      assert q1.buckets == [Insert(even, e), odd];
    } else {
      assert q1.buckets == [even, Insert(odd, e)];
    }
  }

  lemma SmallTake<T>(even: seq<Event<T>>, odd: seq<Event<T>>, last: int, prio: real, top: real, i: nat, newTop: real)
    requires Wf(Small(even, odd, last, prio, top)) && i < 2 && [even, odd][i] != []
    ensures Take(Small(even, odd, last, prio, top), i, newTop) ==
            if i == 0 then (even[0], Small(even[1..], odd, 0, even[0].priority, newTop))
            else (odd[0], Small(even, odd[1..], 1, odd[0].priority, newTop))
  {
    hide Wf, Pending;
    if i == 0 {
      assert [even, odd][0 := even[1..]] == [even[1..], odd];
    } else {
      assert [even, odd][1 := odd[1..]] == [even, odd[1..]];
    }
  }

  /** What a removal from bucket `i` comes to, the bucket top ending at `newTop`. */
  ghost function Taken<T>(even: seq<Event<T>>, odd: seq<Event<T>>, i: nat, newTop: real): (Event<T>, Cal<T>)
    requires i < 2 && [even, odd][i] != []
  {
    if i == 0 then (even[0], Small(even[1..], odd, 0, even[0].priority, newTop))
    else (odd[0], Small(even, odd[1..], 1, odd[0].priority, newTop))
  }

  /** A removal never makes a small calendar shrink. */
  lemma SmallDequeue<T>(even: seq<Event<T>>, odd: seq<Event<T>>, last: int, prio: real, top: real, i: nat, newTop: real)
    requires Wf(Small(even, odd, last, prio, top)) && i < 2 && [even, odd][i] != []
    requires Small(even, odd, last, prio, top).size > 0
    requires Target(Small(even, odd, last, prio, top)) == i
    requires newTop == top + At(FirstHit(Small(even, odd, last, prio, top), 0), 1.0)
    ensures Dequeue(Small(even, odd, last, prio, top), AsWritten) == Taken(even, odd, i, newTop)
    ensures Get(Small(even, odd, last, prio, top), AsWritten) == Some(Taken(even, odd, i, newTop))
  {
    hide Wf, Pending, FirstHit, Take, Target, Dequeue, Bag, Resize;
    DequeueIs(Small(even, odd, last, prio, top), i, newTop);
    SmallTake(even, odd, last, prio, newTop, i, newTop);
    assert Small(even, odd, last, prio, top).(bucketTop := newTop) == Small(even, odd, last, prio, newTop);
  }

  /** The bucket under the cursor holds an event below the bucket top. */
  lemma SmallHitHere<T>(even: seq<Event<T>>, odd: seq<Event<T>>, last: nat, prio: real, top: real)
    requires Wf(Small(even, odd, last, prio, top)) && last < 2
    requires [even, odd][last] != [] && [even, odd][last][0].priority < top
    ensures var q := Small(even, odd, last, prio, top);
            q.size > 0 && Dequeue(q, AsWritten) == Taken(even, odd, last, top)
            && Get(q, AsWritten) == Some(Taken(even, odd, last, top))
  {
    var q := Small(even, odd, last, prio, top);
    assert Hit(q, 0);
    assert FirstHit(q, 0) == 0;
    hide Wf, Pending, FirstHit, Get, Dequeue;
    SmallDequeue(even, odd, last, prio, top, last, top);
  }

  /** The scan hits one bucket on. */
  lemma SmallHitNext<T>(even: seq<Event<T>>, odd: seq<Event<T>>, last: nat, prio: real, top: real)
    requires Wf(Small(even, odd, last, prio, top)) && last < 2
    requires [even, odd][last] == [] || [even, odd][last][0].priority >= top
    requires [even, odd][1 - last] != [] && [even, odd][1 - last][0].priority < top + 1.0
    ensures var q, r := Small(even, odd, last, prio, top), Taken(even, odd, 1 - last, top + 1.0);
            q.size > 0 && Dequeue(q, AsWritten) == r && Get(q, AsWritten) == Some(r)
  {
    hide Wf, Pending, FirstHit, Get, Around, Target, Dequeue;
    NextTarget(even, odd, last, prio, top);
    SmallDequeue(even, odd, last, prio, top, 1 - last, top + 1.0);
  }

  lemma NextTarget<T>(even: seq<Event<T>>, odd: seq<Event<T>>, last: nat, prio: real, top: real)
    requires Wf(Small(even, odd, last, prio, top)) && last < 2
    requires [even, odd][last] == [] || [even, odd][last][0].priority >= top
    requires [even, odd][1 - last] != [] && [even, odd][1 - last][0].priority < top + 1.0
    ensures var q := Small(even, odd, last, prio, top);
            q.size > 0 && Target(q) == 1 - last && top + 1.0 == top + At(FirstHit(q, 0), 1.0)
  {
    var q := Small(even, odd, last, prio, top);
    assert Around(last, 0, 2) == last && Around(last, 1, 2) == 1 - last;
    hide Wf, Pending, Around;
    NextHit(q);
  }

  lemma NextHit<T>(q: Cal<T>)
    requires |q.buckets| == 2 && !Hit(q, 0) && Hit(q, 1)
    ensures FirstHit(q, 0) == 1
  {
  }

  /** Nothing lies below the bucket tops of the round; bucket `i` has the least head. */
  lemma SmallDirect<T>(even: seq<Event<T>>, odd: seq<Event<T>>, last: nat, prio: real, top: real, i: nat)
    requires Wf(Small(even, odd, last, prio, top)) && last < 2 && i < 2
    requires [even, odd][last] == [] || [even, odd][last][0].priority >= top
    requires [even, odd][1 - last] == [] || [even, odd][1 - last][0].priority >= top + 1.0
    requires if i == 0 then even != [] && (odd == [] || even[0].priority <= odd[0].priority)
             else odd != [] && (even == [] || odd[0].priority < even[0].priority)
    ensures var q, r := Small(even, odd, last, prio, top), Taken(even, odd, i, top + 2.0);
            q.size > 0 && Dequeue(q, AsWritten) == r && Get(q, AsWritten) == Some(r)
  {
    hide Wf, Pending, FirstHit, Get, Around, Target, Dequeue;
    DirectTarget(even, odd, last, prio, top, i);
    SmallDequeue(even, odd, last, prio, top, i, top + 2.0);
  }

  lemma DirectTarget<T>(even: seq<Event<T>>, odd: seq<Event<T>>, last: nat, prio: real, top: real, i: nat)
    requires Wf(Small(even, odd, last, prio, top)) && last < 2 && i < 2
    requires [even, odd][last] == [] || [even, odd][last][0].priority >= top
    requires [even, odd][1 - last] == [] || [even, odd][1 - last][0].priority >= top + 1.0
    requires if i == 0 then even != [] && (odd == [] || even[0].priority <= odd[0].priority)
             else odd != [] && (even == [] || odd[0].priority < even[0].priority)
    ensures var q := Small(even, odd, last, prio, top);
            q.size > 0 && Target(q) == i && top + 2.0 == top + At(FirstHit(q, 0), 1.0)
  {
    var q := Small(even, odd, last, prio, top);
    assert Around(last, 0, 2) == last && Around(last, 1, 2) == 1 - last;
    hide Wf, Pending, Around;
    NoHit(q);
    BestOfTwo(q.buckets, i);
  }

  lemma NoHit<T>(q: Cal<T>)
    requires |q.buckets| == 2 && !Hit(q, 0) && !Hit(q, 1)
    ensures FirstHit(q, 0) == 2
  {
  }

  lemma BestOfTwo<T>(buckets: seq<seq<Event<T>>>, i: nat)
    requires |buckets| == 2 && i < 2
    requires if i == 0 then buckets[0] != [] && (buckets[1] == [] || buckets[0][0].priority <= buckets[1][0].priority)
             else buckets[1] != [] && (buckets[0] == [] || buckets[1][0].priority < buckets[0][0].priority)
    ensures Best(buckets, 2) == i
  {
    assert Best(buckets, 0) == -1;
    assert Best(buckets, 1) == if buckets[0] == [] then -1 else 0;
  }

  lemma Start<T>()
    ensures InitialCal<T>() == Small([], [], 0, 0.0, 1.5)
  {
    Virtuals();
    assert InitialCal<T>().buckets == [[], []];
  }

  ghost function AfterPuts(): Cal<int> {
    Small([C], [A, B], 0, 0.0, 1.5)
  }

  lemma PutA(ops: seq<Op<int>>)
    ensures Wf(InitialCal<int>()) && Wf(Small([], [A], 0, 0.0, 1.5))
    ensures CalRun(InitialCal<int>(), [OpPut(A)] + ops, AsWritten) ==
            CalRun(Small([], [A], 0, 0.0, 1.5), ops, AsWritten)
  {
    Start<int>();
    Virtuals();
    assert Insert([], A) == [A];
    SmallPut([], [], 0, 0.0, 1.5, A);
    hide Put, Wf, CalRun, InitialCal;
    CalRunPutIs(Small([], [], 0, 0.0, 1.5), A, ops, AsWritten);
  }

  lemma PutB(ops: seq<Op<int>>)
    requires Wf(Small([], [A], 0, 0.0, 1.5))
    ensures Wf(Small([], [A, B], 0, 0.0, 1.5))
    ensures CalRun(Small([], [A], 0, 0.0, 1.5), [OpPut(B)] + ops, AsWritten) ==
            CalRun(Small([], [A, B], 0, 0.0, 1.5), ops, AsWritten)
  {
    Virtuals();
    InsertAt([A], B, 1);
    assert Insert([A], B) == [A, B];
    hide Put, Wf, CalRun;
    SmallPut([], [A], 0, 0.0, 1.5, B);
    CalRunPutIs(Small([], [A], 0, 0.0, 1.5), B, ops, AsWritten);
  }

  lemma PutC(ops: seq<Op<int>>)
    requires Wf(Small([], [A, B], 0, 0.0, 1.5))
    ensures Wf(AfterPuts())
    ensures CalRun(Small([], [A, B], 0, 0.0, 1.5), [OpPut(C)] + ops, AsWritten) == CalRun(AfterPuts(), ops, AsWritten)
  {
    Virtuals();
    assert Insert([], C) == [C];
    hide Put, Wf, CalRun;
    SmallPut([], [A, B], 0, 0.0, 1.5, C);
    CalRunPutIs(Small([], [A, B], 0, 0.0, 1.5), C, ops, AsWritten);
  }

  lemma GetFirst(q: Cal<int>, e: Event<int>, q1: Cal<int>,
                 ops: seq<Op<int>>, all: seq<Op<int>>, outs: seq<Option<Event<int>>>)
    requires Wf(q) && q.size > 0 && Get(q, AsWritten) == Some((e, q1)) && Wf(q1) && all == [OpGet] + ops
    requires CalRun(q1, ops, AsWritten).Some? && CalRun(q1, ops, AsWritten).value.0 == outs
    ensures CalRun(q, all, AsWritten).Some? && CalRun(q, all, AsWritten).value.0 == [Some(e)] + outs
  {
    hide Get, Wf;
    assert all[1..] == ops;
  }

  /** The direct search finds 3.1 and leaves the bucket top at 3.5, a gap of one. */
  lemma FirstGet()
    requires Wf(AfterPuts())
    ensures Get(AfterPuts(), AsWritten) == Some((A, Small([C], [B], 1, 3.1, 3.5)))
  {
    assert [A, B][1..] == [B];
    SmallDirect([C], [A, B], 0, 0.0, 1.5, 1);
  }

  lemma GapOfOne()
    ensures CursorGap(Small([C], [B], 1, 3.1, 3.5)) == 1
  {
    Virtuals();
    VirtualUnique(3.5, 1.0, 3);
  }

  /** 3.7 lies above 3.5, so the scan moves on and 4.2 comes out. */
  lemma SecondGet()
    requires Wf(Small([C], [B], 1, 3.1, 3.5))
    ensures Get(Small([C], [B], 1, 3.1, 3.5), AsWritten) == Some((C, Small([], [B], 0, 4.2, 4.5)))
  {
    assert [C][1..] == [];
    SmallHitNext([C], [B], 1, 3.1, 3.5);
  }

  lemma ThirdGet()
    requires Wf(Small([], [B], 0, 4.2, 4.5))
    ensures Get(Small([], [B], 0, 4.2, 4.5), AsWritten) == Some((B, Small([], [], 1, 3.7, 5.5)))
  {
    assert [B][1..] == [];
    SmallHitNext([], [B], 0, 4.2, 4.5);
  }

  lemma LastGet()
    requires Wf(Small([], [B], 0, 4.2, 4.5))
    ensures CalRun(Small([], [B], 0, 4.2, 4.5), [OpGet], AsWritten).Some?
    ensures CalRun(Small([], [B], 0, 4.2, 4.5), [OpGet], AsWritten).value.0 == [Some(B)]
  {
    hide *;
    Sizes();
    ThirdGet();
    CalRunEnds<int>(Small([], [], 1, 3.7, 5.5), AsWritten);
    GetFirst(Small([], [B], 0, 4.2, 4.5), B, Small([], [], 1, 3.7, 5.5), [], [OpGet], []);
    assert [Some(B)] + [] == [Some(B)];
  }

  lemma LastTwoGets()
    requires Wf(Small([C], [B], 1, 3.1, 3.5))
    ensures CalRun(Small([C], [B], 1, 3.1, 3.5), [OpGet, OpGet], AsWritten).Some?
    ensures CalRun(Small([C], [B], 1, 3.1, 3.5), [OpGet, OpGet], AsWritten).value.0 == [Some(C), Some(B)]
  {
    hide *;
    Sizes();
    SecondGet();
    LastGet();
    GetFirst(Small([C], [B], 1, 3.1, 3.5), C, Small([], [B], 0, 4.2, 4.5), [OpGet], [OpGet, OpGet], [Some(B)]);
    assert [Some(C)] + [Some(B)] == [Some(C), Some(B)];
  }

  lemma Gets()
    requires Wf(AfterPuts())
    ensures CalRun(AfterPuts(), [OpGet, OpGet, OpGet], AsWritten).Some?
    ensures CalRun(AfterPuts(), [OpGet, OpGet, OpGet], AsWritten).value.0 == [Some(A), Some(C), Some(B)]
  {
    hide *;
    Sizes();
    FirstGet();
    LastTwoGets();
    GetFirst(AfterPuts(), A, Small([C], [B], 1, 3.1, 3.5), [OpGet, OpGet], [OpGet, OpGet, OpGet], [Some(C), Some(B)]);
    assert [Some(A)] + [Some(C), Some(B)] == [Some(A), Some(C), Some(B)];
  }

  lemma Sizes()
    ensures AfterPuts().size > 0 && Small([C], [B], 1, 3.1, 3.5).size > 0 && Small([], [B], 0, 4.2, 4.5).size > 0
  {
  }

  lemma ListPutFirst(l: SortedQueue<int>, e: Event<int>, ops: seq<Op<int>>)
    requires Timely(multiset(l.events), l.last, e) && TimelyRun(ListPut(l, e), ops)
    ensures TimelyRun(l, [OpPut(e)] + ops)
    ensures ListRun(l, [OpPut(e)] + ops) == ListRun(ListPut(l, e), ops)
  {
    hide ListPut;
    assert ([OpPut(e)] + ops)[1..] == ops;
  }

  lemma Inserted()
    ensures Insert([], A) == [A] && Insert([A], B) == [A, B] && Insert([A, B], C) == [A, B, C]
  {
    InsertAt([A], B, 1);
    InsertAt([A, B], C, 2);
  }

  lemma ListTrace()
    ensures TimelyRun(SortedQueue([], 0.0), [OpPut(A)] + ([OpPut(B)] + ([OpPut(C)] + [OpGet, OpGet, OpGet])))
    ensures ListRun(SortedQueue([], 0.0), [OpPut(A)] + ([OpPut(B)] + ([OpPut(C)] + [OpGet, OpGet, OpGet]))).0 ==
            [Some(A), Some(B), Some(C)]
  {
    Inserted();
    hide TimelyRun, ListRun, Insert;
    ListGets();
    ListPutFirst(SortedQueue([A, B], 0.0), C, [OpGet, OpGet, OpGet]);
    ListPutFirst(SortedQueue([A], 0.0), B, [OpPut(C)] + [OpGet, OpGet, OpGet]);
    ListPutFirst(SortedQueue([], 0.0), A, [OpPut(B)] + ([OpPut(C)] + [OpGet, OpGet, OpGet]));
  }

  lemma ListGets()
    ensures ListRun(SortedQueue([A, B, C], 0.0), [OpGet, OpGet, OpGet]).0 == [Some(A), Some(B), Some(C)]
    ensures TimelyRun(SortedQueue([A, B, C], 0.0), [OpGet, OpGet, OpGet])
  {
    assert [A, B, C][1..] == [B, C] && [B, C][1..] == [C] && [C][1..] == [];
    var g: seq<Op<int>> := [OpGet, OpGet, OpGet];
    assert g[1..] == [OpGet, OpGet] && g[1..][1..] == [OpGet] && g[1..][1..][1..] == [];
    assert ListRun(SortedQueue([C], B.priority), [OpGet]).0 == [Some(C)];
    assert ListRun(SortedQueue([B, C], A.priority), [OpGet, OpGet]).0 == [Some(B), Some(C)];
  }

  /** A timely run from calqueue_init whose second and third get come in the wrong order. */
  lemma TimelyRunMisordered()
    ensures TimelyRun(SortedQueue([], 0.0), TRACE)
    ensures CalRun(InitialCal<int>(), TRACE, AsWritten).Some?
    ensures CalRun(InitialCal<int>(), TRACE, AsWritten).value.0 == [Some(A), Some(C), Some(B)]
    ensures ListRun(SortedQueue([], 0.0), TRACE).0 == [Some(A), Some(B), Some(C)]
  {
    assert TRACE == [OpPut(A)] + ([OpPut(B)] + ([OpPut(C)] + [OpGet, OpGet, OpGet]));
    hide *;
    ListTrace();
    PutA([OpPut(B)] + ([OpPut(C)] + [OpGet, OpGet, OpGet]));
    PutB([OpPut(C)] + [OpGet, OpGet, OpGet]);
    PutC([OpGet, OpGet, OpGet]);
    Gets();
  }
}
