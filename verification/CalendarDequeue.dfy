/** Which event one removal hands out: the scan, the direct search and the cursor. */
module CalendarDequeue {
  import opened Events
  import opened Calendar

  // ---------------------------------------------------------------- exact criterion for one removal

  /** How many steps the scan takes to reach the bucket of `e`. */
  ghost function Step<T>(q: Cal<T>, e: Event<T>): int
    requires |q.buckets| > 0 && q.width > 0.0
  {
    (BucketOf(e.priority, q.width, |q.buckets|) - q.lastBucket) % |q.buckets|
  }

  /** `e` lies below the bucket top in force when the scan reaches its bucket. */
  ghost predicate Admitted<T>(q: Cal<T>, e: Event<T>)
    requires |q.buckets| > 0 && q.width > 0.0
  {
    e.priority < q.bucketTop + At(Step(q, e), q.width)
  }

  lemma ModuloStep(a: int, b: int, n: int)
    requires n > 0 && 0 <= a < n && 0 <= b < n
    ensures 0 <= (b - a) % n < n && (a + (b - a) % n) % n == b
  {
    if b >= a {
      ModuloSmall(b - a, n);
      ModuloSmall(b, n);
    } else {
      ModuloShift(b - a, n);
      ModuloSmall(b - a + n, n);
      ModuloShift(b, n);
      ModuloSmall(b, n);
    }
  }

  lemma ModuloSmall(a: int, n: int)
    requires n > 0 && 0 <= a < n
    ensures a % n == a
  {
  }

  lemma ModuloShift(a: int, n: int)
    requires n > 0
    ensures (a + n) % n == a % n
  {
    var x, y := a / n, (a + n) / n;
    assert a == x * n + a % n && a + n == y * n + (a + n) % n;
    assert (y - x - 1) * n == a % n - (a + n) % n by {
      assert (y - x - 1) * n == y * n - x * n - n;
    }
    MultipleBound(y - x - 1, n);
  }

  lemma MultipleBound(c: int, n: int)
    requires n > 0
    ensures c >= 1 ==> c * n >= n
    ensures c <= -1 ==> c * n <= -n
  {
    if c >= 1 {
      assert (c - 1) * n >= 0;
    } else if c <= -1 {
      assert (-c - 1) * n >= 0;
    }
  }

  lemma ModuloInverse(a: int, k: int, n: int)
    requires n > 0 && 0 <= a < n && 0 <= k < n
    ensures ((a + k) % n - a) % n == k
  {
    if a + k < n {
      ModuloSmall(a + k, n);
      ModuloSmall(k, n);
    } else {
      ModuloShift(a + k - n, n);
      ModuloSmall(a + k - n, n);
      ModuloShift(k - n, n);
      ModuloSmall(k, n);
    }
  }

  lemma PendingBucket<T>(q: Cal<T>, e: Event<T>) returns (i: nat, j: nat)
    requires Wf(q) && e in Bag(q)
    ensures i < |q.buckets| && j < |q.buckets[i]| && q.buckets[i][j] == e
    ensures i == BucketOf(e.priority, q.width, |q.buckets|) && e.priority >= 0.0
    ensures q.buckets[i][0].priority <= e.priority
    ensures (q.lastBucket + Step(q, e)) % |q.buckets| == i && 0 <= Step(q, e) < |q.buckets|
  {
    PendingMember(q.buckets, e);
    i :| 0 <= i < |q.buckets| && e in q.buckets[i];
    j :| 0 <= j < |q.buckets[i]| && q.buckets[i][j] == e;
    assert BucketOk(q.buckets[i], i, q.width, |q.buckets|);
    ModuloStep(q.lastBucket, i, |q.buckets|);
  }

  lemma HeadAt<T>(q: Cal<T>, k: nat) returns (i: nat)
    requires Wf(q) && k < |q.buckets|
    requires q.buckets[(q.lastBucket + k) % |q.buckets|] != []
    ensures i == (q.lastBucket + k) % |q.buckets| < |q.buckets|
    ensures q.buckets[i][0] in Bag(q)
    ensures BucketOf(q.buckets[i][0].priority, q.width, |q.buckets|) == i && q.buckets[i][0].priority >= 0.0
    ensures Step(q, q.buckets[i][0]) == k
  {
    i := (q.lastBucket + k) % |q.buckets|;
    assert BucketOk(q.buckets[i], i, q.width, |q.buckets|);
    PendingHas(q.buckets, i, q.buckets[i][0]);
    ModuloInverse(q.lastBucket, k, |q.buckets|);
  }

  /** An admitted event makes the scan hit, at the latest at its own step. */
  lemma AdmittedHits<T>(q: Cal<T>, e: Event<T>)
    requires Wf(q) && e in Bag(q) && Admitted(q, e)
    ensures FirstHit(q, 0) <= Step(q, e) < |q.buckets|
  {
    var i, j := PendingBucket(q, e);
    assert Hit(q, Step(q, e));
  }

  lemma DirectSearchMin<T>(q: Cal<T>, variant: Variant)
    requires Wf(q) && q.size > 0 && DirectSearch(q)
    ensures IsMin(Dequeue(q, variant).0, Bag(q))
  {
    NonEmptyBucket(q.buckets);
    var b := Best(q.buckets, |q.buckets|);
    forall x | x in Bag(q) ensures q.buckets[b][0].priority <= x.priority {
      var i, j := PendingBucket(q, x);
      assert q.buckets[i] != [];
    }
  }

  lemma ScanHitResult<T>(q: Cal<T>, variant: Variant)
    requires Wf(q) && q.size > 0 && !DirectSearch(q)
    ensures Admitted(q, Dequeue(q, variant).0) && Step(q, Dequeue(q, variant).0) == FirstHit(q, 0)
  {
    var k := FirstHit(q, 0);
    assert Hit(q, k);
    var i := HeadAt(q, k);
  }

  /** No admitted event is reached by the scan before `m`. */
  ghost predicate AdmittedFirst<T(!new)>(q: Cal<T>, m: Event<T>)
    requires Wf(q)
  {
    m in Bag(q) && Admitted(q, m) && forall x :: x in Bag(q) && Admitted(q, x) ==> Step(q, m) <= Step(q, x)
  }

  ghost predicate NothingAdmitted<T(!new)>(q: Cal<T>)
    requires Wf(q)
  {
    forall x :: x in Bag(q) ==> !Admitted(q, x)
  }

  /** For every well-formed calendar: a removal hands out a minimum exactly when
      nothing is admitted, or a minimal event is admitted first. */
  lemma DequeueMinimumIff<T(!new)>(q: Cal<T>, variant: Variant)
    requires Wf(q) && q.size > 0
    ensures IsMin(Dequeue(q, variant).0, Bag(q)) <==>
            NothingAdmitted(q) || exists m :: IsMin(m, Bag(q)) && AdmittedFirst(q, m)
  {
    DirectSearchIff(q);
    if DirectSearch(q) {
      DirectSearchMin(q, variant);
    } else {
      ScanHitFirst(q, variant);
      if m :| IsMin(m, Bag(q)) && AdmittedFirst(q, m) {
        ScanHitBelow(q, variant, m);
      }
    }
  }

  lemma DirectSearchIff<T(!new)>(q: Cal<T>)
    requires Wf(q) && q.size > 0
    ensures DirectSearch(q) <==> NothingAdmitted(q)
  {
    if DirectSearch(q) {
      forall x | x in Bag(q) && Admitted(q, x) ensures false { AdmittedHits(q, x); }
    } else {
      ScanHitResult(q, AsWritten);
    }
  }

  lemma ScanHitFirst<T(!new)>(q: Cal<T>, variant: Variant)
    requires Wf(q) && q.size > 0 && !DirectSearch(q)
    ensures AdmittedFirst(q, Dequeue(q, variant).0)
    ensures Step(q, Dequeue(q, variant).0) == FirstHit(q, 0)
  {
    ScanHitResult(q, variant);
    forall x | x in Bag(q) && Admitted(q, x) ensures FirstHit(q, 0) <= Step(q, x) { AdmittedHits(q, x); }
  }

  /** What a scan hit returns is no later than any admitted event reached by the same step. */
  lemma ScanHitBelow<T>(q: Cal<T>, variant: Variant, m: Event<T>)
    requires Wf(q) && q.size > 0 && !DirectSearch(q)
    requires m in Bag(q) && Admitted(q, m) && Step(q, m) <= FirstHit(q, 0)
    ensures Dequeue(q, variant).0.priority <= m.priority
  {
    AdmittedHits(q, m);
    var i, j := PendingBucket(q, m);
  }

  // ---------------------------------------------------------------- the cursor

  /** The virtual bucket whose (half-width extended) top `bucketTop` is. */
  ghost function CursorBucket<T>(q: Cal<T>): int
    requires q.width > 0.0
  {
    Virtual(q.bucketTop, q.width) - 1
  }

  /** How far the bucket of `lastPrio` is ahead of `bucketTop`. A fresh calendar has 0. */
  ghost function CursorGap<T>(q: Cal<T>): int
    requires q.width > 0.0
  {
    Virtual(q.lastPrio, q.width) - CursorBucket(q)
  }

  ghost predicate SafeGap<T>(q: Cal<T>)
    requires q.width > 0.0
  {
    CursorGap(q) >= 2 || -(|q.buckets| - 2) <= CursorGap(q) <= 0
  }

  ghost predicate OnGrid<T>(q: Cal<T>)
    requires q.width > 0.0
  {
    q.bucketTop == BucketTopAt(CursorBucket(q), q.width)
  }

  ghost predicate CursorOk<T>(q: Cal<T>) {
    && Wf(q)
    && |q.buckets| >= 2
    && q.lastBucket == BucketOf(q.lastPrio, q.width, |q.buckets|)
    && OnGrid(q)
  }

  ghost predicate NothingLate<T>(q: Cal<T>) {
    forall x :: x in Bag(q) ==> x.priority >= q.lastPrio
  }

  lemma CursorBucketOf<T>(q: Cal<T>, t: int)
    requires q.width > 0.0 && q.bucketTop == BucketTopAt(t, q.width)
    ensures CursorBucket(q) == t && OnGrid(q)
  {
    assert (t + 2) as real == (t + 1) as real + 1.0;
    VirtualUnique(q.bucketTop, q.width, t + 1);
  }

  lemma TopAfter(t: int, k: int, width: real)
    ensures BucketTopAt(t, width) + At(k, width) == BucketTopAt(t + k, width)
  {
    AtSum(t + 1, k, width);
  }

  /** The slack of half a width never reaches two buckets ahead. */
  lemma BelowTop(p: real, width: real, t: int)
    requires width > 0.0
    ensures Virtual(p, width) <= t ==> p < BucketTopAt(t, width)
    ensures Virtual(p, width) >= t + 2 ==> p >= BucketTopAt(t, width)
  {
    var u := Virtual(p, width);
    VirtualBounds(p, width);
    if u <= t {
      AtMonotone(u + 1, t + 1, width);
    } else if u >= t + 2 {
      AtMonotone(t + 2, u, width);
      assert (t + 2) as real == (t + 1) as real + 1.0;
    }
  }

  lemma SameResidue(v: int, k: int, u: int, n: int)
    requires n > 0 && 0 <= k < n && u >= v && u % n == (v % n + k) % n
    ensures u == v + k || u >= v + k + n
  {
    var c := ResidueDistance(v, k, u, n);
    MultipleBound(c, n);
  }

  lemma ResidueDistance(v: int, k: int, u: int, n: int) returns (c: int)
    requires n > 0 && 0 <= k < n && u % n == (v % n + k) % n
    ensures u == v + k + c * n
  {
    var x, y := v % n, u % n;
    var wraps := x + k >= n;
    assert y == if wraps then x + k - n else x + k by {
      if wraps {
        ModuloShift(x + k - n, n);
        ModuloSmall(x + k - n, n);
      } else {
        ModuloSmall(x + k, n);
      }
    }
    c := Turns(v, v / n, x, u, u / n, y, k, n);
  }

  lemma Turns(v: int, a: int, x: int, u: int, b: int, y: int, k: int, n: int) returns (c: int)
    requires v == a * n + x && u == b * n + y
    requires y == x + k || y == x + k - n
    ensures u == v + k + c * n
  {
    c := if y == x + k then b - a else b - a - 1;
    Distribute(b, a, n);
    Distribute(b - a, 1, n);
  }

  lemma Distribute(b: int, a: int, n: int)
    ensures (b - a) * n == b * n - a * n
  {
  }

  /** Where the virtual bucket of a pending event can lie, given the step that reaches it. */
  lemma StepVirtual<T>(q: Cal<T>, e: Event<T>)
    requires CursorOk(q) && e in Bag(q) && e.priority >= q.lastPrio
    ensures var u, v := Virtual(e.priority, q.width), Virtual(q.lastPrio, q.width);
            u == v + Step(q, e) || u >= v + Step(q, e) + |q.buckets|
  {
    var i, j := PendingBucket(q, e);
    VirtualMonotone(q.lastPrio, e.priority, q.width);
    SameResidue(Virtual(q.lastPrio, q.width), Step(q, e), Virtual(e.priority, q.width), |q.buckets|);
  }

  /** Under a safe gap the admitted events are those of the current year, or there are none. */
  lemma AdmittedUnderSafeGap<T>(q: Cal<T>, e: Event<T>)
    requires CursorOk(q) && SafeGap(q) && e in Bag(q) && e.priority >= q.lastPrio
    ensures var u, v := Virtual(e.priority, q.width), Virtual(q.lastPrio, q.width);
            Admitted(q, e) <==> CursorGap(q) <= 0 && u == v + Step(q, e)
  {
    StepVirtual(q, e);
    var t, k := CursorBucket(q), Step(q, e);
    TopAfter(t, k, q.width);
    BelowTop(e.priority, q.width, t + k);
  }

  /** The scan or the direct search returns a global minimum. */
  lemma SafeGapMinimum<T(!new)>(q: Cal<T>, variant: Variant)
    requires CursorOk(q) && NothingLate(q) && SafeGap(q) && q.size > 0
    ensures IsMin(Dequeue(q, variant).0, Bag(q))
  {
    if DirectSearch(q) {
      DirectSearchMin(q, variant);
    } else {
      ScanHitResult(q, variant);
      var e := Dequeue(q, variant).0;
      forall x | x in Bag(q) ensures e.priority <= x.priority {
        if x.priority < e.priority {
          EarlierAdmitted(q, x, e);
          ScanHitBelow(q, variant, x);
        }
      }
    }
  }

  /** An event earlier than one of the current year is itself of the current year. */
  lemma EarlierAdmitted<T>(q: Cal<T>, x: Event<T>, e: Event<T>)
    requires CursorOk(q) && NothingLate(q) && SafeGap(q)
    requires x in Bag(q) && e in Bag(q) && x.priority < e.priority && Admitted(q, e)
    ensures Admitted(q, x) && Step(q, x) <= Step(q, e)
  {
    AdmittedUnderSafeGap(q, e);
    AdmittedUnderSafeGap(q, x);
    StepVirtual(q, x);
    VirtualMonotone(x.priority, e.priority, q.width);
    var i, j := PendingBucket(q, x);
    var i', j' := PendingBucket(q, e);
  }
}
