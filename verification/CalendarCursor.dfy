/** How removals move the cursor, and for which cursors every removal is right. */
module CalendarCursor {
  import opened Events
  import opened Calendar
  import opened CalendarDequeue

  lemma CursorAfterHit<T>(q: Cal<T>, variant: Variant)
    requires CursorOk(q) && q.size > 0 && !DirectSearch(q)
    ensures var q1 := Dequeue(q, variant).1;
            CursorOk(q1) && CursorBucket(q1) == CursorBucket(q) + FirstHit(q, 0)
  {
    var q1 := Dequeue(q, variant).1;
    TopAfter(CursorBucket(q), FirstHit(q, 0), q.width);
    CursorBucketOf(q1, CursorBucket(q) + FirstHit(q, 0));
  }

  lemma CursorAfterDirectSearch<T>(q: Cal<T>, variant: Variant)
    requires CursorOk(q) && q.size > 0 && DirectSearch(q)
    ensures var q1 := Dequeue(q, variant).1;
            && CursorOk(q1)
            && (variant.AsWritten? ==> CursorBucket(q1) == CursorBucket(q) + |q.buckets|)
            && (variant.Repaired? ==> CursorGap(q1) == 0)
  {
    var q1 := Dequeue(q, variant).1;
    NonEmptyBucket(q.buckets);
    if variant.AsWritten? {
      TopAfter(CursorBucket(q), |q.buckets|, q.width);
      CursorBucketOf(q1, CursorBucket(q) + |q.buckets|);
    } else {
      CursorBucketOf(q1, Virtual(q1.lastPrio, q.width));
    }
  }

  lemma CursorKept<T>(q: Cal<T>, variant: Variant)
    requires CursorOk(q) && q.size > 0
    ensures CursorOk(Dequeue(q, variant).1)
  {
    if DirectSearch(q) {
      CursorAfterDirectSearch(q, variant);
    } else {
      CursorAfterHit(q, variant);
    }
  }

  /** A scan hit keeps a safe gap as it is. */
  lemma ScanHitKeepsGap<T(!new)>(q: Cal<T>, variant: Variant)
    requires CursorOk(q) && NothingLate(q) && SafeGap(q) && q.size > 0 && !DirectSearch(q)
    ensures CursorGap(Dequeue(q, variant).1) == CursorGap(q) <= 0
  {
    CursorAfterHit(q, variant);
    ScanHitResult(q, variant);
    AdmittedUnderSafeGap(q, Dequeue(q, variant).0);
  }

  /** From a safe gap, a direct search can spoil the gap in one way only: the event found lies
      exactly one virtual bucket past the round just scanned. */
  lemma DirectSearchGap<T(!new)>(q: Cal<T>)
    requires CursorOk(q) && NothingLate(q) && SafeGap(q) && q.size > 0 && DirectSearch(q)
    ensures var (e, q1) := Dequeue(q, AsWritten);
            && CursorGap(q1) == Virtual(e.priority, q.width) - CursorBucket(q) - |q.buckets|
            && (SafeGap(q1) <==> CursorGap(q1) != 1)
  {
    CursorAfterDirectSearch(q, AsWritten);
    var e := Dequeue(q, AsWritten).0;
    DirectSearchIff(q);
    AdmittedUnderSafeGap(q, e);
    StepVirtual(q, e);
    var i, j := PendingBucket(q, e);
  }

  ghost predicate GapSpoiled<T>(q: Cal<T>, variant: Variant)
    requires Wf(q) && q.size > 0
  {
    DirectSearch(q) && CursorGap(Dequeue(q, variant).1) == 1
  }

  /** One removal from a good cursor: a minimum comes out, nothing pending is late, and the gap
      stays safe unless a direct search of the code as written leaves a gap of exactly one. */
  lemma GoodRemoval<T(!new)>(q: Cal<T>, variant: Variant)
    requires CursorOk(q) && NothingLate(q) && SafeGap(q) && q.size > 0
    ensures var (e, q1) := Dequeue(q, variant);
            && IsMin(e, Bag(q)) && e.priority >= q.lastPrio
            && CursorOk(q1) && NothingLate(q1)
            && (SafeGap(q1) <==> !GapSpoiled(q, variant))
            && (variant.Repaired? ==> SafeGap(q1))
  {
    SafeGapMinimum(q, variant);
    CursorKept(q, variant);
    if DirectSearch(q) {
      CursorAfterDirectSearch(q, variant);
      if variant.AsWritten? { DirectSearchGap(q); }
    } else {
      ScanHitKeepsGap(q, variant);
    }
  }

  // ---------------------------------------------------------------- the gap condition is exact

  ghost predicate SameCursor<T>(c: Cal<T>, q: Cal<T>) {
    && |c.buckets| == |q.buckets| && c.width == q.width
    && c.lastBucket == q.lastBucket && c.lastPrio == q.lastPrio && c.bucketTop == q.bucketTop
  }

  /** `c` is a calendar with the cursor of `q`, holding something, nothing of it late. */
  ghost predicate FilledAt<T>(c: Cal<T>, q: Cal<T>) {
    SameCursor(c, q) && CursorOk(c) && NothingLate(c) && c.size > 0
  }

  ghost function Emptied<T>(q: Cal<T>): (c: Cal<T>)
    requires CursorOk(q)
    ensures CursorOk(c) && SameCursor(c, q) && Bag(c) == multiset{} && c.size == 0
  {
    var buckets: seq<seq<Event<T>>> := seq(|q.buckets|, _ => []);
    PendingOfEmpty(buckets);
    q.(buckets := buckets, size := 0)
  }

  /** Two events, the later of which an unsafe cursor hands out first. */
  ghost function Misordered<T>(q: Cal<T>, payload: T): (Event<T>, Event<T>)
    requires CursorOk(q)
  {
    var w, v := q.width, Virtual(q.lastPrio, q.width);
    if CursorGap(q) == 1 then
      var early := if q.lastPrio > At(v, w) + 0.75 * w then q.lastPrio else At(v, w) + 0.75 * w;
      (Event(early, payload), Event(At(v + 1, w) + 0.25 * w, payload))
    else
      (Event(At(v + 1, w) + 0.25 * w, payload), Event(At(v + |q.buckets|, w) + 0.25 * w, payload))
  }

  lemma InVirtual(u: int, r: real, width: real)
    requires width > 0.0 && 0.0 <= r < width
    ensures Virtual(At(u, width) + r, width) == u
  {
    assert (u + 1) as real == u as real + 1.0;
    VirtualUnique(At(u, width) + r, width, u);
  }

  lemma MisorderedVirtual<T>(q: Cal<T>, payload: T)
    requires CursorOk(q) && !SafeGap(q)
    ensures var (a, b) := Misordered(q, payload);
            var v, w := Virtual(q.lastPrio, q.width), q.width;
            && q.lastPrio <= a.priority < b.priority
            && (CursorGap(q) == 1 ==>
                  && Virtual(a.priority, w) == v && Virtual(b.priority, w) == v + 1
                  && a.priority >= At(v, w) + 0.5 * w && b.priority < At(v + 1, w) + 0.5 * w)
            && (CursorGap(q) != 1 ==>
                  && Virtual(a.priority, w) == v + 1 && Virtual(b.priority, w) == v + |q.buckets|
                  && b.priority < At(v + |q.buckets|, w) + 0.5 * w)
  {
    var (a, b) := Misordered(q, payload);
    var w, v := q.width, Virtual(q.lastPrio, q.width);
    VirtualBounds(q.lastPrio, w);
    assert (v + 1) as real == v as real + 1.0;
    InVirtual(v + 1, 0.25 * w, w);
    if CursorGap(q) == 1 {
      VirtualUnique(a.priority, w, v);
    } else {
      InVirtual(v + |q.buckets|, 0.25 * w, w);
      AtMonotone(v + 2, v + |q.buckets|, w);
      assert (v + 2) as real == (v + 1) as real + 1.0;
    }
  }

  ghost function Spoiled<T>(q: Cal<T>, payload: T): (c: Cal<T>)
    requires CursorOk(q) && !SafeGap(q)
    ensures FilledAt(c, q)
    ensures var (a, b) := Misordered(q, payload); Bag(c) == multiset{a, b}
  {
    var (a, b) := Misordered(q, payload);
    MisorderedVirtual(q, payload);
    Enqueue(Enqueue(Emptied(q), a), b)
  }

  lemma StepOfVirtual<T>(q: Cal<T>, e: Event<T>, k: int)
    requires CursorOk(q) && 0 <= k < |q.buckets|
    requires Virtual(e.priority, q.width) % |q.buckets| == (Virtual(q.lastPrio, q.width) + k) % |q.buckets|
    ensures Step(q, e) == k
  {
    ResidueStep(Virtual(e.priority, q.width), Virtual(q.lastPrio, q.width), k, |q.buckets|);
  }

  lemma ResidueStep(u: int, v: int, k: int, n: int)
    requires 0 <= k < n && u % n == (v + k) % n
    ensures (u % n - v % n) % n == k
  {
    ModuloAdd(v, k, n);
    ModuloInverse(v % n, k, n);
  }

  lemma ModuloAdd(v: int, k: int, n: int)
    requires n > 0 && 0 <= k < n
    ensures (v + k) % n == (v % n + k) % n
  {
    var a, x := v / n, v % n;
    assert v == a * n + x;
    ModuloMultiple(a, x + k, n);
  }

  lemma {:induction false} ModuloMultiple(a: int, x: int, n: int)
    requires n > 0
    ensures (a * n + x) % n == x % n
    decreases if a >= 0 then a else -a
  {
    if a > 0 {
      ModuloMultiple(a - 1, x, n);
      ModuloShift((a - 1) * n + x, n);
      assert (a - 1) * n + x + n == a * n + x;
    } else if a < 0 {
      ModuloMultiple(a + 1, x, n);
      ModuloShift(a * n + x, n);
      assert (a + 1) * n + x == a * n + x + n;
    }
  }

  /** An unsafe gap goes wrong on some contents. */
  lemma UnsafeGapFails<T(!new)>(q: Cal<T>, payload: T)
    requires CursorOk(q) && !SafeGap(q)
    ensures var c := Spoiled(q, payload);
            FilledAt(c, q) && !IsMin(Dequeue(c, AsWritten).0, Bag(c))
  {
    var c := Spoiled(q, payload);
    var (a, b) := Misordered(q, payload);
    MisorderedVirtual(q, payload);
    UnsafeAdmission(q, payload);
    AdmittedHits(c, b);
    if Dequeue(c, AsWritten).0 == a {
      ScanHitResult(c, AsWritten);
      OtherTaken(c, a, b);
    }
  }

  lemma OtherTaken<T(!new)>(c: Cal<T>, a: Event<T>, b: Event<T>)
    requires CursorOk(c) && c.size > 0
    requires b in Bag(c) && Admitted(c, b) && !DirectSearch(c)
    requires !Admitted(c, a) || Step(c, a) > Step(c, b)
    ensures Dequeue(c, AsWritten).0 != a
  {
    AdmittedHits(c, b);
    ScanHitResult(c, AsWritten);
  }

  lemma UnsafeAdmission<T(!new)>(q: Cal<T>, payload: T)
    requires CursorOk(q) && !SafeGap(q)
    ensures var c, (a, b) := Spoiled(q, payload), Misordered(q, payload);
            Admitted(c, b) && (!Admitted(c, a) || Step(c, a) > Step(c, b))
  {
    hide Misordered, Spoiled, Admitted, Step, At, OnGrid, Bag, NothingLate, BucketOk, Pending;
    var c := Spoiled(q, payload);
    var (a, b) := Misordered(q, payload);
    MisorderedVirtual(q, payload);
    if CursorGap(q) == 1 {
      GapOneAdmission(c, a, b);
    } else {
      GapBehindAdmission(c, a, b);
    }
  }

  /** A gap of one skips the upper half of a bucket. */
  lemma GapOneAdmission<T>(c: Cal<T>, a: Event<T>, b: Event<T>)
    requires CursorOk(c) && CursorGap(c) == 1
    requires Virtual(a.priority, c.width) == Virtual(c.lastPrio, c.width)
    requires Virtual(b.priority, c.width) == Virtual(c.lastPrio, c.width) + 1
    requires a.priority >= At(Virtual(c.lastPrio, c.width), c.width) + 0.5 * c.width
    requires b.priority < At(Virtual(c.lastPrio, c.width) + 1, c.width) + 0.5 * c.width
    ensures Admitted(c, b) && !Admitted(c, a)
  {
    StepOfVirtual(c, a, 0);
    StepOfVirtual(c, b, 1);
    TopAfter(CursorBucket(c), 0, c.width);
    TopAfter(CursorBucket(c), 1, c.width);
  }

  /** A gap too far behind admits an event of the next year at the first step. */
  lemma GapBehindAdmission<T>(c: Cal<T>, a: Event<T>, b: Event<T>)
    requires CursorOk(c) && CursorGap(c) <= -(|c.buckets| - 1)
    requires Virtual(a.priority, c.width) == Virtual(c.lastPrio, c.width) + 1
    requires Virtual(b.priority, c.width) == Virtual(c.lastPrio, c.width) + |c.buckets|
    requires b.priority < At(Virtual(c.lastPrio, c.width) + |c.buckets|, c.width) + 0.5 * c.width
    ensures Admitted(c, b) && Step(c, a) > Step(c, b)
  {
    var n, v, t := |c.buckets|, Virtual(c.lastPrio, c.width), CursorBucket(c);
    StepOfVirtual(c, a, 1);
    ModuloShift(v, n);
    StepOfVirtual(c, b, 0);
    TopAfter(t, 0, c.width);
    AtMonotone(v + n, t + 1, c.width);
  }

  /** The code as written hands out a minimum from every possible contents of a given cursor
      exactly when the gap of that cursor is safe. */
  lemma SafeGapExact<T(!new)>(q: Cal<T>, payload: T)
    requires CursorOk(q)
    ensures SafeGap(q) <==>
            forall c: Cal<T> :: FilledAt(c, q) ==> IsMin(Dequeue(c, AsWritten).0, Bag(c))
  {
    if SafeGap(q) {
      forall c: Cal<T> | FilledAt(c, q) ensures IsMin(Dequeue(c, AsWritten).0, Bag(c)) {
        SafeGapMinimum(c, AsWritten);
      }
    } else {
      UnsafeGapFails(q, payload);
    }
  }
}
