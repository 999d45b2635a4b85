/** Sampling for a new bucket width: it undoes itself, and the width it yields. */
module CalendarWidth {
  import opened Events
  import opened Calendar
  import opened Options

  // ---------------------------------------------------------------- sampling undoes itself

  lemma BucketElements<T>(q: Cal<T>, i: nat, e: Event<T>)
    requires Wf(q) && Distinct(Bag(q)) && i < |q.buckets|
    ensures multiset(q.buckets[i])[e] ==
            if e in Bag(q) && BucketOf(e.priority, q.width, |q.buckets|) == i then 1 else 0
  {
    PendingUpdate(q.buckets, i, []);
    assert multiset(q.buckets[i])[e] <= Bag(q)[e];
    if e in multiset(q.buckets[i]) {
      var j :| 0 <= j < |q.buckets[i]| && q.buckets[i][j] == e;
      assert BucketOk(q.buckets[i], i, q.width, |q.buckets|);
    } else if e in Bag(q) {
      PendingMember(q.buckets, e);
      var k :| 0 <= k < |q.buckets| && e in q.buckets[k];
      assert BucketOk(q.buckets[k], k, q.width, |q.buckets|);
    }
  }

  /** Without ties the pending events, the width and the number of buckets fix every list. */
  lemma Canonical<T(!new)>(a: Cal<T>, b: Cal<T>)
    requires Wf(a) && Wf(b) && a.width == b.width && |a.buckets| == |b.buckets|
    requires Bag(a) == Bag(b) && Distinct(Bag(a))
    ensures a.buckets == b.buckets
  {
    hide Wf, Bag, Distinct;
    forall i | 0 <= i < |a.buckets| ensures a.buckets[i] == b.buckets[i] {
      SameBucket(a, b, i);
    }
  }

  lemma SameBucket<T(!new)>(a: Cal<T>, b: Cal<T>, i: nat)
    requires Wf(a) && Wf(b) && a.width == b.width && |a.buckets| == |b.buckets|
    requires Bag(a) == Bag(b) && Distinct(Bag(a)) && i < |a.buckets|
    ensures a.buckets[i] == b.buckets[i]
  {
    hide Wf, Bag, Distinct, BucketOf;
    forall e: Event<T> ensures multiset(a.buckets[i])[e] == multiset(b.buckets[i])[e] {
      BucketElements(a, i, e);
      BucketElements(b, i, e);
    }
    assert multiset(a.buckets[i]) == multiset(b.buckets[i]);
    StrictBucket(a, i);
    StrictBucket(b, i);
    StrictlySortedUnique(a.buckets[i], b.buckets[i]);
  }

  lemma StrictBucket<T>(q: Cal<T>, i: nat)
    requires Wf(q) && Distinct(Bag(q)) && i < |q.buckets|
    ensures StrictlySorted(q.buckets[i])
  {
    PendingUpdate(q.buckets, i, []);
    assert BucketOk(q.buckets[i], i, q.width, |q.buckets|);
    SortedDistinctStrict(q.buckets[i], Bag(q));
  }

  /** Taking the samples out and putting them back leaves the calendar exactly as found,
      whether or not the samples came out in order. */
  lemma SamplingUndone<T(!new)>(q: Cal<T>, variant: Variant)
    requires Wf(q) && Distinct(Bag(q))
    ensures AfterSampling(q, variant) == q
  {
    Canonical(AfterSampling(q, variant), q);
  }

  // ---------------------------------------------------------------- the width

  ghost predicate SmallPositiveGap<T>(s: seq<Event<T>>, limit: real, i: int) {
    0 < i < |s| && 0.0 < Gap(s, i) < limit
  }

  lemma {:induction false} GapSumTelescopes<T>(s: seq<Event<T>>, k: nat)
    requires 0 < k <= |s|
    ensures GapSum(s, k) == s[k - 1].priority - s[0].priority
  {
    if k > 1 { GapSumTelescopes(s, k - 1); }
  }

  lemma {:induction false} SmallGapsPositive<T>(s: seq<Event<T>>, k: nat, limit: real)
    requires 0 < k <= |s| && Sorted(s)
    ensures SmallGaps(s, k, limit).0 >= 0.0
    ensures SmallGaps(s, k, limit).0 > 0.0 <==> exists i :: i < k && SmallPositiveGap(s, limit, i)
  {
    if k > 1 {
      SmallGapsPositive(s, k - 1, limit);
      assert SmallPositiveGap(s, limit, k - 1) <==> 0.0 < Gap(s, k - 1) < limit;
      if i :| i < k && SmallPositiveGap(s, limit, i) {
        assert i == k - 1 || i < k - 1;
      }
    }
  }

  /** Separations of at least `limit` add up. */
  lemma {:induction false} LargeGapsAddUp<T>(s: seq<Event<T>>, k: nat, limit: real)
    requires 0 < k <= |s| && forall i :: 0 < i < k ==> Gap(s, i) >= limit
    ensures GapSum(s, k) >= (k - 1) as real * limit
  {
    if k > 1 {
      LargeGapsAddUp(s, k - 1, limit);
      assert (k - 1) as real * limit == (k - 2) as real * limit + limit;
    }
  }

  lemma TwiceTheSum<T>(s: seq<Event<T>>)
    requires |s| >= 2
    ensures (|s| - 1) as real * GapLimit(s) == 2.0 * GapSum(s, |s|)
  {
    var n, avg := (|s| - 1) as real, Average(s);
    assert n * avg == GapSum(s, |s|);
    assert n * (avg * 2.0) == 2.0 * (n * avg);
  }

  /** Some separation lies below twice the average, unless all events coincide. */
  lemma SmallGapExists<T>(s: seq<Event<T>>) returns (i: int)
    requires |s| >= 2 && StrictlySorted(s)
    ensures SmallPositiveGap(s, GapLimit(s), i)
  {
    GapSumTelescopes(s, |s|);
    TwiceTheSum(s);
    if forall i :: 0 < i < |s| ==> Gap(s, i) >= GapLimit(s) {
      LargeGapsAddUp(s, |s|, GapLimit(s));
      assert false;
    }
    i :| 0 < i < |s| && Gap(s, i) < GapLimit(s);
  }

  lemma ScaleOrder(a: real, b: real, n: real)
    requires n > 0.0
    ensures a >= b ==> a * n >= b * n
  {
    if a >= b { assert (a - b) * n >= 0.0; }
  }

  lemma QuotientBounds(sum: real, j: nat, limit: real)
    requires j > 0 && sum < j as real * limit
    ensures sum / j as real < limit
    ensures sum / j as real > 0.0 <==> sum > 0.0
    ensures sum / j as real < 0.0 <==> sum < 0.0
  {
    var x := sum / j as real;
    assert x * j as real == sum;
    ScaleOrder(x, limit, j as real);
    ScaleOrder(x, 0.0, j as real);
    ScaleOrder(0.0, x, j as real);
  }

  /** The separations among the first `k` samples that are left out of the width. */
  ghost function WideGaps<T>(s: seq<Event<T>>, k: nat, limit: real): real
    requires 0 < k <= |s|
  {
    if k == 1 then 0.0 else WideGaps(s, k - 1, limit) + if Gap(s, k - 1) >= limit then Gap(s, k - 1) else 0.0
  }

  /** Counted separations and those left out make up the whole stretch; none is counted exactly when
      all are left out. */
  lemma {:induction false} GapsSplit<T>(s: seq<Event<T>>, k: nat, limit: real)
    requires 0 < k <= |s|
    ensures var (sum, j) := SmallGaps(s, k, limit);
            && sum + WideGaps(s, k, limit) == s[k - 1].priority - s[0].priority
            && (j == 0 ==> sum == 0.0) && (j > 0 ==> sum < j as real * limit)
            && (j == 0 <==> forall i :: 0 < i < k ==> Gap(s, i) >= limit)
  {
    if k > 1 {
      GapsSplit(s, k - 1, limit);
      var (sum, j) := SmallGaps(s, k - 1, limit);
      assert (j + 1) as real * limit == j as real * limit + limit by {
        assert (j + 1) as real == j as real + 1.0;
      }
      assert j == 0 ==> j as real * limit == 0.0;
    }
  }

  /** For samples in whatever order they came out: the width is a positive number exactly when the
      separations of at least twice the average add up to less than the whole stretch, and it is
      negative exactly when they add up to more. A usable width is below six averages. */
  lemma WidthUsableIff<T>(s: seq<Event<T>>)
    requires |s| >= 2
    ensures var wide, whole := WideGaps(s, |s|, GapLimit(s)), s[|s| - 1].priority - s[0].priority;
            && (WidthUsable(WidthOf(s)) <==> wide < whole)
            && (WidthOf(s).Some? && WidthOf(s).value < 0.0 <==> wide > whole)
    ensures WidthOf(s).None? <==> forall i :: 0 < i < |s| ==> Gap(s, i) >= GapLimit(s)
    ensures WidthUsable(WidthOf(s)) ==> 0.0 < WidthOf(s).value < 6.0 * Average(s)
  {
    hide SmallGaps, WideGaps;
    GapsSplit(s, |s|, GapLimit(s));
    var (sum, j) := SmallGaps(s, |s|, GapLimit(s));
    if j > 0 { QuotientBounds(sum, j, GapLimit(s)); }
  }

  /** The separations counted among the first `k` samples. */
  ghost function Counted<T>(s: seq<Event<T>>, k: nat, limit: real): set<int>
    requires k <= |s|
  {
    set i | 0 < i < k && Gap(s, i) < limit
  }

  lemma {:induction false} CountsThem<T>(s: seq<Event<T>>, k: nat, limit: real)
    requires 0 < k <= |s|
    ensures SmallGaps(s, k, limit).1 == |Counted(s, k, limit)|
  {
    if k > 1 {
      CountsThem(s, k - 1, limit);
      var less, all := Counted(s, k - 1, limit), Counted(s, k, limit);
      assert all == if Gap(s, k - 1) < limit then less + {k - 1} else less;
    } else {
      assert Counted(s, 1, limit) == {};
    }
  }

  /** The width times the number of separations below twice the average is three times what they add up
      to, the average being that of the whole stretch; without such a separation there is no width. */
  lemma WidthExact<T>(s: seq<Event<T>>)
    requires |s| >= 2
    ensures var whole := s[|s| - 1].priority - s[0].priority;
            var n := |Counted(s, |s|, GapLimit(s))|;
            && (|s| - 1) as real * GapLimit(s) == 2.0 * whole
            && (WidthOf(s).None? <==> n == 0)
            && (n > 0 ==> WidthOf(s).value * n as real == 3.0 * (whole - WideGaps(s, |s|, GapLimit(s))))
  {
    GapSumTelescopes(s, |s|);
    TwiceTheSum(s);
    CountsThem(s, |s|, GapLimit(s));
    GapsSplit(s, |s|, GapLimit(s));
    hide SmallGaps, WideGaps, GapLimit, Counted, GapSum;
    var (sum, j) := SmallGaps(s, |s|, GapLimit(s));
    if j > 0 { Tripled(sum, j as real); }
  }

  lemma Tripled(sum: real, n: real)
    requires n > 0.0
    ensures sum / n * 3.0 * n == 3.0 * sum
  {
    var x := sum / n;
    assert x * n == sum;
    assert x * 3.0 * n == 3.0 * (x * n);
  }

  /** For samples in order, ties included: the width is never negative, and positive exactly when some
      separation is positive and below twice the average. */
  lemma WidthUsableSorted<T>(s: seq<Event<T>>)
    requires |s| >= 2 && Sorted(s)
    ensures WidthUsable(WidthOf(s)) <==> exists i :: SmallPositiveGap(s, GapLimit(s), i)
    ensures WidthOf(s).Some? ==> WidthOf(s).value >= 0.0
  {
    hide SmallGaps, WideGaps, GapLimit, Sorted, Gap;
    SmallGapsPositive(s, |s|, GapLimit(s));
    GapsSplit(s, |s|, GapLimit(s));
    var (sum, j) := SmallGaps(s, |s|, GapLimit(s));
    if j > 0 { QuotientBounds(sum, j, GapLimit(s)); }
  }

  /** Strictly increasing samples always give a usable width. */
  lemma WidthBound<T>(s: seq<Event<T>>)
    requires |s| >= 2 && StrictlySorted(s)
    ensures WidthOf(s).Some? && 0.0 < WidthOf(s).value < 6.0 * Average(s)
  {
    var i := SmallGapExists(s);
    WidthUsableSorted(s);
    WidthUsableIff(s);
  }

  /** What a resize needs of the samples it takes. */
  ghost predicate SamplesUsable<T>(q: Cal<T>, variant: Variant)
    requires Wf(q)
  {
    q.size < 2 ||
    var s := Sample(q, SampleSize(q.size), variant).0;
    WideGaps(s, |s|, GapLimit(s)) < s[|s| - 1].priority - s[0].priority
  }

  /** A resize goes through exactly when the wide separations among its samples leave something over. */
  lemma ResizeSucceedsIff<T>(q: Cal<T>, n: nat, variant: Variant)
    requires Wf(q) && n > 0
    ensures Resize(q, n, variant).Some? <==> SamplesUsable(q, variant)
  {
    hide Wf, AfterSampling, WidthOf;
    if q.size >= 2 { WidthUsableIff(Sample(q, SampleSize(q.size), variant).0); }
  }
}
