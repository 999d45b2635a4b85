/** The calendar of calqueue.c as a value, with its operations as functions. */
module Calendar {
  import opened Events
  import opened Options

  /** `AsWritten` is calqueue.c. `Repaired` differs in one place only: a direct
      search recomputes `bucketTop` the way a fresh calendar does. */
  datatype Variant = AsWritten | Repaired

  datatype Cal<T> = Cal(
    buckets: seq<seq<Event<T>>>,
    width: real,
    size: int,
    lastBucket: int,
    lastPrio: real,
    bucketTop: real)

  const MAX_BUCKETS := 32768

  // ---------------------------------------------------------------- years and buckets

  /** The start of virtual bucket `n`. */
  ghost function At(n: int, width: real): real {
    n as real * width
  }

  ghost function Virtual(priority: real, width: real): int
    requires width > 0.0
  {
    (priority / width).Floor
  }

  lemma VirtualBounds(p: real, width: real)
    requires width > 0.0
    ensures At(Virtual(p, width), width) <= p < At(Virtual(p, width) + 1, width)
  {
    var v := Virtual(p, width);
    var x := p / width;
    var lo, hi := v as real, (v + 1) as real;
    assert lo <= x < hi;
    ScaleBounds(lo, x, hi, width);
    assert x * width == p;
    assert p < At(v + 1, width);
  }

  lemma ScaleBounds(lo: real, x: real, hi: real, width: real)
    requires width > 0.0 && lo <= x < hi
    ensures lo * width <= x * width < hi * width
  {
    assert (x - lo) * width >= 0.0;
    assert (hi - x) * width > 0.0;
  }

  lemma AtMonotone(a: int, b: int, width: real)
    requires width > 0.0 && a <= b
    ensures At(a, width) <= At(b, width)
  {
  }

  lemma AtSum(a: int, b: int, width: real)
    ensures At(a, width) + At(b, width) == At(a + b, width)
  {
    assert (a + b) as real == a as real + b as real;
  }

  lemma VirtualUnique(p: real, width: real, v: int)
    requires width > 0.0
    requires At(v, width) <= p < At(v + 1, width)
    ensures Virtual(p, width) == v
  {
    var u := Virtual(p, width);
    VirtualBounds(p, width);
    if u < v {
      AtMonotone(u + 1, v, width);
    } else if u > v {
      AtMonotone(v + 1, u, width);
    }
  }

  lemma VirtualMonotone(p: real, q: real, width: real)
    requires width > 0.0 && p <= q
    ensures Virtual(p, width) <= Virtual(q, width)
  {
    var u, v := Virtual(p, width), Virtual(q, width);
    VirtualBounds(p, width);
    VirtualBounds(q, width);
    if v < u {
      AtMonotone(v + 1, u, width);
    }
  }

  lemma VirtualNonNegative(p: real, width: real)
    requires width > 0.0 && p >= 0.0
    ensures Virtual(p, width) >= 0
  {
    VirtualUnique(0.0, width, 0);
    VirtualMonotone(0.0, p, width);
  }

  ghost function BucketOf(priority: real, width: real, n: int): int
    requires width > 0.0 && n > 0
  {
    Virtual(priority, width) % n
  }

  // ---------------------------------------------------------------- contents

  ghost function Pending<T>(buckets: seq<seq<Event<T>>>): multiset<Event<T>> {
    if buckets == [] then multiset{}
    else Pending(buckets[..|buckets| - 1]) + multiset(buckets[|buckets| - 1])
  }

  lemma {:induction false} PendingUpdate<T>(buckets: seq<seq<Event<T>>>, i: nat, s: seq<Event<T>>)
    requires i < |buckets|
    ensures multiset(buckets[i]) <= Pending(buckets)
    ensures Pending(buckets[i := s]) == Pending(buckets) - multiset(buckets[i]) + multiset(s)
  {
    var n := |buckets| - 1;
    if i == n {
      assert buckets[i := s][..n] == buckets[..n];
    } else {
      PendingUpdate(buckets[..n], i, s);
      assert buckets[i := s][..n] == buckets[..n][i := s];
    }
  }

  lemma {:induction false} PendingMember<T>(buckets: seq<seq<Event<T>>>, e: Event<T>)
    requires e in Pending(buckets)
    ensures exists i :: 0 <= i < |buckets| && e in buckets[i]
  {
    var n := |buckets| - 1;
    if e in multiset(buckets[n]) {
      assert e in buckets[n];
    } else {
      PendingMember(buckets[..n], e);
      var i :| 0 <= i < n && e in buckets[..n][i];
      assert e in buckets[i];
    }
  }

  lemma PendingHas<T>(buckets: seq<seq<Event<T>>>, i: nat, e: Event<T>)
    requires i < |buckets| && e in buckets[i]
    ensures e in Pending(buckets)
  {
    PendingUpdate(buckets, i, []);
    assert e in multiset(buckets[i]);
  }

  lemma {:induction false} PendingOfEmpty<T>(buckets: seq<seq<Event<T>>>)
    requires forall i :: 0 <= i < |buckets| ==> buckets[i] == []
    ensures Pending(buckets) == multiset{}
  {
    if buckets != [] {
      PendingOfEmpty(buckets[..|buckets| - 1]);
    }
  }

  // ---------------------------------------------------------------- well-formedness

  /** `s` is in order and holds only events of bucket `i`. */
  ghost predicate BucketOk<T>(s: seq<Event<T>>, i: int, width: real, n: int)
    requires width > 0.0 && n > 0
  {
    && Sorted(s)
    && forall j :: 0 <= j < |s| ==> s[j].priority >= 0.0 && BucketOf(s[j].priority, width, n) == i
  }

  ghost predicate Wf<T>(q: Cal<T>) {
    && |q.buckets| > 0
    && q.width > 0.0
    && q.size == |Pending(q.buckets)|
    && 0 <= q.lastBucket < |q.buckets|
    && q.lastPrio >= 0.0
    && forall i :: 0 <= i < |q.buckets| ==> BucketOk(q.buckets[i], i, q.width, |q.buckets|)
  }

  lemma WfMoved<T>(q: Cal<T>, top: real)
    requires Wf(q)
    ensures Wf(q.(bucketTop := top))
  {
  }

  ghost function Bag<T>(q: Cal<T>): multiset<Event<T>> {
    Pending(q.buckets)
  }

  ghost predicate NonNegative<T>(s: seq<Event<T>>) {
    forall j :: 0 <= j < |s| ==> s[j].priority >= 0.0
  }

  lemma NonNegativeConcat<T>(a: seq<Event<T>>, b: seq<Event<T>>)
    ensures NonNegative(a + b) <==> NonNegative(a) && NonNegative(b)
  {
    if NonNegative(a + b) {
      forall j | 0 <= j < |a| ensures a[j].priority >= 0.0 { assert (a + b)[j] == a[j]; }
      forall j | 0 <= j < |b| ensures b[j].priority >= 0.0 { assert (a + b)[|a| + j] == b[j]; }
    }
  }

  // ---------------------------------------------------------------- localinit

  ghost function BucketTopAt(virtual: int, width: real): real {
    At(virtual + 1, width) + 0.5 * width
  }

  ghost function LocalInit<T>(n: nat, width: real, start: real): (q: Cal<T>)
    requires n > 0 && width > 0.0 && start >= 0.0
    ensures Wf(q) && Bag(q) == multiset{}
    ensures q.size == 0 && |q.buckets| == n && q.lastPrio == start
  {
    var v := Virtual(start, width);
    var buckets := seq(n, _ => []);
    PendingOfEmpty<T>(buckets);
    Cal(buckets, width, 0, v % n, start, BucketTopAt(v, width))
  }

  // ---------------------------------------------------------------- insertion without resizing

  ghost function Enqueue<T>(q: Cal<T>, e: Event<T>): (r: Cal<T>)
    requires Wf(q) && e.priority >= 0.0
    ensures Wf(r) && Bag(r) == Bag(q) + multiset{e}
    ensures |r.buckets| == |q.buckets| && r.width == q.width && r.size == q.size + 1
    ensures r.lastBucket == q.lastBucket && r.lastPrio == q.lastPrio && r.bucketTop == q.bucketTop
  {
    var i := BucketOf(e.priority, q.width, |q.buckets|);
    EnqueueKeepsWf(q, e, i);
    q.(buckets := q.buckets[i := Insert(q.buckets[i], e)], size := q.size + 1)
  }

  lemma EnqueueKeepsWf<T>(q: Cal<T>, e: Event<T>, i: nat)
    requires Wf(q) && e.priority >= 0.0 && i == BucketOf(e.priority, q.width, |q.buckets|)
    ensures var r := q.(buckets := q.buckets[i := Insert(q.buckets[i], e)], size := q.size + 1);
            Wf(r) && Bag(r) == Bag(q) + multiset{e}
  {
    assert i < |q.buckets|;
    hide Wf, Insert, BucketOk, Pending, BucketOf;
    WfBucket(q, i);
    InsertBucketOk(q.buckets[i], e, i, q.width, |q.buckets|);
    InsertBag(q.buckets, i, e);
    ReplaceKeepsWf(q, i, Insert(q.buckets[i], e), q.size + 1);
  }

  lemma WfBucket<T>(q: Cal<T>, i: nat)
    requires Wf(q) && i < |q.buckets|
    ensures q.size == |Pending(q.buckets)| && BucketOk(q.buckets[i], i, q.width, |q.buckets|)
  {
  }

  lemma ReplaceKeepsWf<T>(q: Cal<T>, i: nat, s: seq<Event<T>>, size: int)
    requires Wf(q) && i < |q.buckets| && BucketOk(s, i, q.width, |q.buckets|)
    requires size == |Pending(q.buckets[i := s])|
    ensures Wf(q.(buckets := q.buckets[i := s], size := size))
  {
    hide BucketOk, Pending;
  }

  lemma InsertBag<T>(buckets: seq<seq<Event<T>>>, i: nat, e: Event<T>)
    requires i < |buckets|
    ensures Pending(buckets[i := Insert(buckets[i], e)]) == Pending(buckets) + multiset{e}
    ensures |Pending(buckets[i := Insert(buckets[i], e)])| == |Pending(buckets)| + 1
  {
    PendingUpdate(buckets, i, Insert(buckets[i], e));
  }

  lemma InsertBucketOk<T>(s: seq<Event<T>>, e: Event<T>, i: int, width: real, n: int)
    requires width > 0.0 && n > 0
    requires BucketOk(s, i, width, n) && e.priority >= 0.0 && BucketOf(e.priority, width, n) == i
    ensures BucketOk(Insert(s, e), i, width, n)
  {
    InsertSorted(s, e);
    var r := Insert(s, e);
    forall j | 0 <= j < |r| ensures r[j].priority >= 0.0 && BucketOf(r[j].priority, width, n) == i {
      assert r[j] in multiset(r);
      assert r[j] == e || r[j] in s;
    }
  }

  ghost function EnqueueAll<T>(q: Cal<T>, s: seq<Event<T>>): (r: Cal<T>)
    requires Wf(q) && NonNegative(s)
    ensures Wf(r) && Bag(r) == Bag(q) + multiset(s)
    ensures |r.buckets| == |q.buckets| && r.width == q.width && r.size == q.size + |s|
    ensures r.lastBucket == q.lastBucket && r.lastPrio == q.lastPrio && r.bucketTop == q.bucketTop
  {
    if s == [] then q
    else
      var n := |s| - 1;
      assert s == s[..n] + [s[n]];
      Enqueue(EnqueueAll(q, s[..n]), s[n])
  }

  lemma EnqueueNothing<T>(q: Cal<T>)
    requires Wf(q)
    ensures EnqueueAll(q, []) == q
  {
  }

  lemma EnqueueAllStep<T>(q: Cal<T>, s: seq<Event<T>>, e: Event<T>)
    requires Wf(q) && e.priority >= 0.0 && NonNegative(s)
    ensures NonNegative(s + [e]) && EnqueueAll(q, s + [e]) == Enqueue(EnqueueAll(q, s), e)
  {
    hide Enqueue, Wf;
    assert (s + [e])[..|s|] == s;
  }

  lemma {:induction false} EnqueueAllAppend<T>(q: Cal<T>, a: seq<Event<T>>, b: seq<Event<T>>)
    requires Wf(q) && NonNegative(a) && NonNegative(b)
    ensures NonNegative(a + b) && EnqueueAll(q, a + b) == EnqueueAll(EnqueueAll(q, a), b)
  {
    if b == [] {
      assert a + b == a;
    } else {
      var n := |b| - 1;
      assert b == b[..n] + [b[n]];
      assert a + b == (a + b[..n]) + [b[n]];
      EnqueueAllAppend(q, a, b[..n]);
      hide Enqueue, EnqueueAll, Wf;
      EnqueueAllStep(q, a + b[..n], b[n]);
      EnqueueAllStep(EnqueueAll(q, a), b[..n], b[n]);
    }
  }

  // ---------------------------------------------------------------- removal without resizing

  /** The bucket reached after `k` steps. */
  ghost function Around(start: int, k: int, n: int): (i: int)
    requires n > 0
    ensures 0 <= i < n
  {
    (start + k) % n
  }

  /** The head of the bucket reached after `k` steps lies below the bucket top of that step. */
  ghost predicate Hit<T>(q: Cal<T>, k: int)
    requires |q.buckets| > 0
  {
    var s := q.buckets[Around(q.lastBucket, k, |q.buckets|)];
    s != [] && s[0].priority < q.bucketTop + At(k, q.width)
  }

  /** The first step from `k` on that hits, or the number of buckets. */
  ghost function FirstHit<T>(q: Cal<T>, k: nat): (r: nat)
    requires |q.buckets| > 0 && k <= |q.buckets|
    ensures k <= r <= |q.buckets|
    ensures r < |q.buckets| ==> Hit(q, r)
    ensures forall i :: k <= i < r ==> !Hit(q, i)
    decreases |q.buckets| - k
  {
    if k == |q.buckets| || Hit(q, k) then k else FirstHit(q, k + 1)
  }

  /** The bucket the direct search settles on after looking at the first `hi` buckets; -1 for none. */
  ghost function Best<T>(buckets: seq<seq<Event<T>>>, hi: nat): (r: int)
    requires hi <= |buckets|
    ensures -1 <= r < hi
    ensures r >= 0 ==> buckets[r] != []
    ensures r == -1 ==> forall i :: 0 <= i < hi ==> buckets[i] == []
    ensures r >= 0 ==> forall i :: 0 <= i < hi && buckets[i] != [] ==> buckets[r][0].priority <= buckets[i][0].priority
    ensures forall i :: 0 <= i < r && buckets[i] != [] ==> buckets[r][0].priority < buckets[i][0].priority
  {
    if hi == 0 then -1
    else
      var b := Best(buckets, hi - 1);
      if buckets[hi - 1] != [] && (b == -1 || buckets[hi - 1][0].priority < buckets[b][0].priority)
      then hi - 1 else b
  }

  lemma NonEmptyBucket<T>(buckets: seq<seq<Event<T>>>)
    requires |Pending(buckets)| > 0
    ensures Best(buckets, |buckets|) >= 0
  {
    if forall i :: 0 <= i < |buckets| ==> buckets[i] == [] {
      PendingOfEmpty(buckets);
    }
  }

  lemma TailBag<T>(buckets: seq<seq<Event<T>>>, i: nat)
    requires i < |buckets| && buckets[i] != []
    ensures buckets[i][0] in Pending(buckets)
    ensures Pending(buckets[i := buckets[i][1..]]) == Pending(buckets) - multiset{buckets[i][0]}
  {
    var e := buckets[i][0];
    PendingUpdate(buckets, i, buckets[i][1..]);
    TailElements(buckets[i]);
    assert e in multiset(buckets[i]);
  }

  /** Hand out the head of bucket `i`, moving the cursor there. */
  ghost function Take<T>(q: Cal<T>, i: nat, top: real): (r: (Event<T>, Cal<T>))
    requires Wf(q) && i < |q.buckets| && q.buckets[i] != []
    ensures Wf(r.1) && r.0 == q.buckets[i][0]
    ensures r.0 in Bag(q) && Bag(r.1) == Bag(q) - multiset{r.0}
    ensures r.0.priority >= 0.0
    ensures |r.1.buckets| == |q.buckets| && r.1.width == q.width && r.1.size == q.size - 1
    ensures r.1.lastBucket == i && r.1.lastPrio == r.0.priority && r.1.bucketTop == top
  {
    var e := q.buckets[i][0];
    TailBag(q.buckets, i);
    assert BucketOk(q.buckets[i], i, q.width, |q.buckets|);
    assert BucketOk(q.buckets[i][1..], i, q.width, |q.buckets|);
    (e, q.(buckets := q.buckets[i := q.buckets[i][1..]], size := q.size - 1,
           lastBucket := i, lastPrio := e.priority, bucketTop := top))
  }

  /** The scan found nothing below the bucket tops of one whole round. */
  ghost predicate DirectSearch<T>(q: Cal<T>)
    requires |q.buckets| > 0
  {
    FirstHit(q, 0) == |q.buckets|
  }

  /** The bucket the next event is taken from. */
  ghost function Target<T>(q: Cal<T>): (i: nat)
    requires Wf(q) && q.size > 0
    ensures i < |q.buckets| && q.buckets[i] != []
    ensures BucketOf(q.buckets[i][0].priority, q.width, |q.buckets|) == i
  {
    var n := |q.buckets|;
    var k := FirstHit(q, 0);
    NonEmptyBucket(q.buckets);
    var i := if k < n then Around(q.lastBucket, k, n) else Best(q.buckets, n);
    assert BucketOk(q.buckets[i], i, q.width, n);
    i
  }

  ghost function Dequeue<T>(q: Cal<T>, variant: Variant): (r: (Event<T>, Cal<T>))
    requires Wf(q) && q.size > 0
    ensures Wf(r.1)
    ensures r.0 in Bag(q) && Bag(r.1) == Bag(q) - multiset{r.0}
    ensures r.0.priority >= 0.0
    ensures |r.1.buckets| == |q.buckets| && r.1.width == q.width && r.1.size == q.size - 1
    ensures r.1.lastPrio == r.0.priority
    ensures r.1.lastBucket == BucketOf(r.1.lastPrio, r.1.width, |r.1.buckets|)
  {
    var i := Target(q);
    var top :=
      if variant.AsWritten? || !DirectSearch(q) then q.bucketTop + At(FirstHit(q, 0), q.width)
      else BucketTopAt(Virtual(q.buckets[i][0].priority, q.width), q.width);
    Take(q, i, top)
  }

  lemma TakeIs<T>(q: Cal<T>, i: nat, top: real)
    requires Wf(q) && i < |q.buckets| && q.buckets[i] != []
    ensures var e := q.buckets[i][0];
            Take(q, i, top) ==
            (e, q.(buckets := q.buckets[i := q.buckets[i][1..]], size := q.size - 1,
                   lastBucket := i, lastPrio := e.priority, bucketTop := top))
  {
    hide Wf, Bag;
  }

  lemma DequeueIs<T>(q: Cal<T>, i: nat, top: real)
    requires Wf(q) && q.size > 0
    requires i == Target(q) && top == q.bucketTop + At(FirstHit(q, 0), q.width)
    ensures Wf(q.(bucketTop := top)) && Dequeue(q, AsWritten) == Take(q.(bucketTop := top), i, top)
  {
    hide Target, FirstHit, Bag, Wf, Take;
    WfMoved(q, top);
    TakeIs(q, i, top);
    TakeIs(q.(bucketTop := top), i, top);
  }

  // ---------------------------------------------------------------- sampling

  /** `k` removals in a row: what came out, and the calendar left behind. */
  ghost function Sample<T>(q: Cal<T>, k: nat, variant: Variant): (r: (seq<Event<T>>, Cal<T>))
    requires Wf(q) && k <= q.size
    ensures Wf(r.1) && |r.0| == k && r.1.size == q.size - k
    ensures |r.1.buckets| == |q.buckets| && r.1.width == q.width
    ensures Bag(q) == Bag(r.1) + multiset(r.0)
    ensures NonNegative(r.0)
  {
    if k == 0 then ([], q)
    else
      hide Dequeue, Wf, Bag;
      var (s, q1) := Sample(q, k - 1, variant);
      var (e, q2) := Dequeue(q1, variant);
      (s + [e], q2)
  }

  lemma SampleNothing<T>(q: Cal<T>, variant: Variant)
    requires Wf(q)
    ensures Sample(q, 0, variant) == ([], q)
  {
  }

  lemma SampleStep<T>(q: Cal<T>, k: nat, variant: Variant)
    requires Wf(q) && 0 < k <= q.size
    ensures var (s, q0) := Sample(q, k - 1, variant);
            && Wf(q0) && q0.size > 0
            && Sample(q, k, variant) == (s + [Dequeue(q0, variant).0], Dequeue(q0, variant).1)
  {
    hide Dequeue;
  }

  /** How many events `new_width` looks at: all of up to five, then one more for every ten pending, and
      25 from 200 on. */
  function SampleSize(size: nat): (r: nat)
    requires size >= 2
    ensures 2 <= r <= size && r <= 25
    ensures size <= 5 ==> r == size
    ensures 5 < size && r < 25 ==> 10 * (r - 5) <= size < 10 * (r - 4)
    ensures r == 25 <==> size >= 200
  {
    var k := if size <= 5 then size else 5 + size / 10;
    if k > 25 then 25 else k
  }

  /** The calendar once the samples are back and the cursor is restored. */
  ghost function AfterSampling<T>(q: Cal<T>, variant: Variant): (r: Cal<T>)
    requires Wf(q)
    ensures Wf(r) && Bag(r) == Bag(q) && r.size == q.size
    ensures |r.buckets| == |q.buckets| && r.width == q.width
    ensures r.lastBucket == q.lastBucket && r.lastPrio == q.lastPrio && r.bucketTop == q.bucketTop
  {
    if q.size < 2 then q
    else
      var (s, q1) := Sample(q, SampleSize(q.size), variant);
      EnqueueAll(q1, s).(lastBucket := q.lastBucket, lastPrio := q.lastPrio, bucketTop := q.bucketTop)
  }

  // ---------------------------------------------------------------- bucket width

  ghost function Gap<T>(s: seq<Event<T>>, i: nat): real
    requires 0 < i < |s|
  {
    s[i].priority - s[i - 1].priority
  }

  /** Sum of the separations among the first `k` samples. */
  ghost function GapSum<T>(s: seq<Event<T>>, k: nat): real
    requires 0 < k <= |s|
  {
    if k == 1 then 0.0 else GapSum(s, k - 1) + Gap(s, k - 1)
  }

  ghost function Average<T>(s: seq<Event<T>>): real
    requires |s| >= 2
  {
    GapSum(s, |s|) / (|s| - 1) as real
  }

  /** Larger separations are left out of the width. */
  ghost function GapLimit<T>(s: seq<Event<T>>): real
    requires |s| >= 2
  {
    Average(s) * 2.0
  }

  /** Sum and number of the separations below `limit` among the first `k` samples. */
  ghost function SmallGaps<T>(s: seq<Event<T>>, k: nat, limit: real): (r: (real, nat))
    requires 0 < k <= |s|
  {
    if k == 1 then (0.0, 0)
    else
      var (sum, j) := SmallGaps(s, k - 1, limit);
      if Gap(s, k - 1) < limit then (sum + Gap(s, k - 1), j + 1) else (sum, j)
  }

  /** Three times the mean of the small separations; None is C's 0.0 / 0. */
  ghost function WidthOf<T>(s: seq<Event<T>>): Option<real>
    requires |s| >= 2
  {
    var (sum, j) := SmallGaps(s, |s|, GapLimit(s));
    if j == 0 then None else Some(sum / j as real * 3.0)
  }

  ghost function NewWidth<T>(q: Cal<T>, variant: Variant): Option<real>
    requires Wf(q)
  {
    if q.size < 2 then Some(1.0) else WidthOf(Sample(q, SampleSize(q.size), variant).0)
  }

  // ---------------------------------------------------------------- resizing

  /** All events, bucket `hi - 1` first, in list order: the order in which they are copied. */
  ghost function Listing<T>(buckets: seq<seq<Event<T>>>, hi: nat): (r: seq<Event<T>>)
    requires hi <= |buckets|
    ensures multiset(r) == Pending(buckets[..hi])
  {
    if hi == 0 then []
    else
      assert buckets[..hi][..hi - 1] == buckets[..hi - 1];
      buckets[hi - 1] + Listing(buckets, hi - 1)
  }

  ghost predicate WidthUsable(w: Option<real>) {
    w.Some? && w.value > 0.0
  }

  lemma ListingOfWf<T>(q: Cal<T>)
    requires Wf(q)
    ensures var s := Listing(q.buckets, |q.buckets|);
            multiset(s) == Bag(q) && |s| == q.size && NonNegative(s)
  {
    var s := Listing(q.buckets, |q.buckets|);
    assert q.buckets[..|q.buckets|] == q.buckets;
    assert |s| == |multiset(s)|;
    forall j | 0 <= j < |s| ensures s[j].priority >= 0.0 {
      assert s[j] in multiset(s);
      PendingMember(q.buckets, s[j]);
      var i :| 0 <= i < |q.buckets| && s[j] in q.buckets[i];
      assert BucketOk(q.buckets[i], i, q.width, |q.buckets|);
    }
  }

  /** The calendar copied onto `n` buckets; None when the sampled width is not a positive number. The C
      program then goes on: with a negative width it links events where `CalendarFailure.CBucketNegative`
      says, with zero or NaN it has no defined behaviour. */
  ghost function Resize<T>(q: Cal<T>, n: nat, variant: Variant): (r: Option<Cal<T>>)
    requires Wf(q) && n > 0
    ensures r.Some? <==> WidthUsable(NewWidth(q, variant))
    ensures r.Some? ==>
              && Wf(r.value) && Bag(r.value) == Bag(q) && r.value.size == q.size
              && |r.value.buckets| == n && r.value.width == NewWidth(q, variant).value
              && r.value.lastPrio == q.lastPrio
  {
    var w := NewWidth(q, variant);
    if !WidthUsable(w) then None
    else
      var q1 := AfterSampling(q, variant);
      ListingOfWf(q1);
      var r := EnqueueAll(LocalInit(n, w.value, q.lastPrio), Listing(q1.buckets, |q1.buckets|));
      Some(r)
  }

  // ---------------------------------------------------------------- powers of two

  ghost predicate PowerOfTwo(n: nat) {
    n == 1 || (n > 0 && n % 2 == 0 && PowerOfTwo(n / 2))
  }

  lemma {:induction false} PowersApart(a: nat, b: nat)
    requires PowerOfTwo(a) && PowerOfTwo(b) && a < b
    ensures 2 * a <= b
  {
    if a > 1 { PowersApart(a / 2, b / 2); }
  }

  lemma MaxIsPower()
    ensures PowerOfTwo(MAX_BUCKETS)
  {
    assert PowerOfTwo(8);
    assert PowerOfTwo(64);
    assert PowerOfTwo(512);
    assert PowerOfTwo(4096);
  }

  lemma Doubled(n: nat)
    requires PowerOfTwo(n) && 0 < n < MAX_BUCKETS
    ensures PowerOfTwo(2 * n) && 2 * n <= MAX_BUCKETS
  {
    MaxIsPower();
    PowersApart(n, MAX_BUCKETS);
  }

  lemma Halved(n: nat)
    requires PowerOfTwo(n) && n > 1
    ensures PowerOfTwo(n / 2) && n % 2 == 0
  {
  }

  // ---------------------------------------------------------------- the operations

  ghost predicate MustGrow<T>(q: Cal<T>) {
    q.size > 2 * |q.buckets| && |q.buckets| < MAX_BUCKETS
  }

  ghost predicate MustShrink<T>(q: Cal<T>) {
    q.size < |q.buckets| / 2 - 2
  }

  ghost function Put<T>(q: Cal<T>, e: Event<T>, variant: Variant): (r: Option<Cal<T>>)
    requires Wf(q) && e.priority >= 0.0
    ensures r.Some? ==> Wf(r.value) && Bag(r.value) == Bag(q) + multiset{e} && r.value.lastPrio == q.lastPrio
  {
    var q1 := Enqueue(q, e);
    if MustGrow(q1) then Resize(q1, 2 * |q1.buckets|, variant) else Some(q1)
  }

  ghost function Get<T>(q: Cal<T>, variant: Variant): (r: Option<(Event<T>, Cal<T>)>)
    requires Wf(q) && q.size > 0
    ensures r.Some? ==>
              var (e, q1) := r.value;
              && Wf(q1) && e in Bag(q) && Bag(q1) == Bag(q) - multiset{e} && q1.lastPrio == e.priority
  {
    var (e, q1) := Dequeue(q, variant);
    if MustShrink(q1) then
      match Resize(q1, |q1.buckets| / 2, variant)
      case None => None
      case Some(q2) => Some((e, q2))
    else Some((e, q1))
  }

  /** `calqueue_put` in both of its modes: resizing is off while samples are put back. */
  ghost function PutMode<T>(q: Cal<T>, e: Event<T>, resizing: bool): (r: Option<Cal<T>>)
    requires Wf(q) && e.priority >= 0.0
    ensures !resizing || !MustGrow(Enqueue(q, e)) ==> r == Some(Enqueue(q, e))
    ensures r.Some? ==> Wf(r.value)
  {
    if resizing then Put(q, e, AsWritten) else Some(Enqueue(q, e))
  }

  /** `calqueue_deq` in both of its modes. */
  ghost function GetMode<T>(q: Cal<T>, resizing: bool): (r: Option<(Event<T>, Cal<T>)>)
    requires Wf(q) && q.size > 0
    ensures !resizing || !MustShrink(Dequeue(q, AsWritten).1) ==> r == Some(Dequeue(q, AsWritten))
    ensures r.Some? ==> Wf(r.value.1)
  {
    if resizing then Get(q, AsWritten) else Some(Dequeue(q, AsWritten))
  }

  lemma GetModeIs<T>(q: Cal<T>, resizing: bool)
    requires Wf(q) && q.size > 0
    ensures var (e, q1) := Dequeue(q, AsWritten);
            if resizing && MustShrink(q1) then
              var r := Resize(q1, |q1.buckets| / 2, AsWritten);
              GetMode(q, resizing) == if r.Some? then Some((e, r.value)) else None
            else
              GetMode(q, resizing) == Some((e, q1))
  {
    hide Dequeue, Resize, Wf;
  }
}
