/** calqueue.c: the calendar queue updated in place. */
module Calqueue {
  import opened Events
  import opened Calendar
  import opened CalendarDequeue
  import opened Options

  const CALQ_SPACE := 65536

  /** Buckets `i` and above have been put into `q0`, which is now `c`. */
  ghost predicate CopiedDownTo<T>(buckets: seq<seq<Event<T>>>, i: nat, q0: Cal<T>, done: seq<Event<T>>, c: Cal<T>) {
    && Wf(q0) && i <= |buckets|
    && NonNegative(Listing(buckets, |buckets|)) && NonNegative(done)
    && Listing(buckets, |buckets|) == done + Listing(buckets, i)
    && c == EnqueueAll(q0, done)
  }

  lemma CopyStart<T>(q1: Cal<T>, q0: Cal<T>)
    requires Wf(q0) && Wf(q1)
    ensures CopiedDownTo(q1.buckets, |q1.buckets|, q0, [], q0)
    ensures |Listing(q1.buckets, |q1.buckets|)| == q1.size
  {
    ListingOfWf(q1);
    EnqueueNothing(q0);
  }

  lemma CopyAhead<T>(buckets: seq<seq<Event<T>>>, i: nat, q0: Cal<T>, done: seq<Event<T>>, c: Cal<T>)
    requires i < |buckets| && CopiedDownTo(buckets, i + 1, q0, done, c)
    ensures NonNegative(buckets[i])
    ensures c.size + |buckets[i]| <= q0.size + |Listing(buckets, |buckets|)|
  {
    hide Wf;
    assert Listing(buckets, i + 1) == buckets[i] + Listing(buckets, i);
    NonNegativeConcat(done, buckets[i] + Listing(buckets, i));
    NonNegativeConcat(buckets[i], Listing(buckets, i));
  }

  lemma CopyStep<T>(buckets: seq<seq<Event<T>>>, i: nat, q0: Cal<T>, done: seq<Event<T>>, c: Cal<T>)
    requires i < |buckets| && CopiedDownTo(buckets, i + 1, q0, done, c)
    ensures Wf(c) && NonNegative(buckets[i])
    ensures CopiedDownTo(buckets, i, q0, done + buckets[i], EnqueueAll(c, buckets[i]))
  {
    CopyAhead(buckets, i, q0, done, c);
    ListingGrows(buckets, i, done);
    hide Wf, EnqueueAll, NonNegative, Listing;
    EnqueueAllAppend(q0, done, buckets[i]);
  }

  lemma ListingGrows<T>(buckets: seq<seq<Event<T>>>, i: nat, done: seq<Event<T>>)
    requires i < |buckets|
    ensures done + Listing(buckets, i + 1) == (done + buckets[i]) + Listing(buckets, i)
  {
  }

  lemma CopyEnd<T>(buckets: seq<seq<Event<T>>>, q0: Cal<T>, done: seq<Event<T>>, c: Cal<T>)
    requires CopiedDownTo(buckets, 0, q0, done, c)
    ensures Wf(q0) && NonNegative(Listing(buckets, |buckets|))
    ensures c == EnqueueAll(q0, Listing(buckets, |buckets|))
  {
    hide Wf, EnqueueAll;
    assert Listing(buckets, |buckets|) == done;
  }

  lemma NextAround(lb: int, k: int, n: int)
    requires 0 <= lb < n && 0 <= k < n
    ensures Around(lb, 0, n) == lb
    ensures var i := Around(lb, k, n);
            && Around(lb, k + 1, n) == (if i + 1 == n then 0 else i + 1)
            && (Around(lb, k + 1, n) == lb <==> k + 1 == n)
  {
    ModuloSmall(lb, n);
    if lb + k < n {
      ModuloSmall(lb + k, n);
      if lb + k + 1 < n { ModuloSmall(lb + k + 1, n); } else { ModuloShift(0, n); }
    } else {
      ModuloShift(lb + k - n, n);
      ModuloSmall(lb + k - n, n);
      ModuloShift(lb + k + 1 - n, n);
      ModuloSmall(lb + k + 1 - n, n);
    }
  }

  lemma GapSumStep<T>(s: seq<Event<T>>, e: Event<T>)
    requires s != []
    ensures GapSum(s + [e], |s| + 1) == GapSum(s, |s|) + (e.priority - s[|s| - 1].priority)
  {
    GapSumPrefix(s, e, |s|);
  }

  lemma {:induction false} GapSumPrefix<T>(s: seq<Event<T>>, e: Event<T>, k: nat)
    requires 0 < k <= |s|
    ensures GapSum(s + [e], k) == GapSum(s, k)
  {
    if k > 1 { GapSumPrefix(s, e, k - 1); }
  }

  lemma SmallGapsNone<T>(s: seq<Event<T>>, limit: real)
    requires |s| > 0
    ensures SmallGaps(s, 1, limit) == (0.0, 0)
  {
  }

  lemma SmallGapsStep<T>(s: seq<Event<T>>, k: nat, limit: real)
    requires 1 < k <= |s|
    ensures var (sum, j) := SmallGaps(s, k - 1, limit);
            SmallGaps(s, k, limit) == if Gap(s, k - 1) < limit then (sum + Gap(s, k - 1), j + 1) else (sum, j)
  {
  }

  lemma EnqueueIs<T>(q: Cal<T>, e: Event<T>)
    requires Wf(q) && e.priority >= 0.0
    ensures var i := BucketOf(e.priority, q.width, |q.buckets|);
            Enqueue(q, e) == q.(buckets := q.buckets[i := Insert(q.buckets[i], e)], size := q.size + 1)
  {
    hide Wf, Insert, Bag;
  }

  lemma AtNext(k: int, width: real)
    ensures At(0, width) == 0.0 && At(k, width) + width == At(k + 1, width)
  {
    AtSum(k, 1, width);
  }

  /** The scan is at its step `k`, looking at bucket `i` below `top`, and has hit nothing. */
  ghost predicate ScanAt<T>(q: Cal<T>, k: nat, i: int, top: real) {
    && Wf(q) && k <= |q.buckets|
    && i == Around(q.lastBucket, k, |q.buckets|)
    && top == q.bucketTop + At(k, q.width)
    && forall j :: 0 <= j < k ==> !Hit(q, j)
  }

  lemma ScanStart<T>(q: Cal<T>)
    requires Wf(q)
    ensures ScanAt(q, 0, q.lastBucket, q.bucketTop)
  {
    NextAround(q.lastBucket, 0, |q.buckets|);
    AtNext(0, q.width);
  }

  lemma ScanNext<T>(q: Cal<T>, k: nat, i: int, top: real)
    requires ScanAt(q, k, i, top) && k < |q.buckets|
    requires 0 <= i < |q.buckets| && (q.buckets[i] == [] || q.buckets[i][0].priority >= top)
    ensures var i' := if i + 1 == |q.buckets| then 0 else i + 1;
            ScanAt(q, k + 1, i', top + q.width) && (i' == q.lastBucket <==> k + 1 == |q.buckets|)
  {
    assert !Hit(q, k);
    NextAround(q.lastBucket, k, |q.buckets|);
    AtNext(k, q.width);
  }

  /** A hit at step `k`, or a whole round without one, is what `FirstHit` says. */
  lemma ScanEnd<T>(q: Cal<T>, k: nat, i: int, top: real)
    requires ScanAt(q, k, i, top)
    requires k < |q.buckets| ==> 0 <= i < |q.buckets| && q.buckets[i] != [] && q.buckets[i][0].priority < top
    ensures Wf(q) && FirstHit(q, 0) == k
    ensures i == Around(q.lastBucket, k, |q.buckets|) && top == q.bucketTop + At(k, q.width)
  {
    if k < |q.buckets| { assert Hit(q, k); }
  }

  class Calqueue<T> {
    const calq: array<seq<Event<T>>>
    var firstSub: nat
    var nBuckets: nat
    var qSize: int
    var lastBucket: int
    var resizeEnabled: bool
    var topThreshold: int
    var botThreshold: int
    var lastPrio: real
    var bucketTop: real
    var cWidth: real

    /** The calendar this object represents. */
    ghost var cal: Cal<T>

    ghost predicate Placed()
      reads this
    {
      && calq.Length == CALQ_SPACE
      && 2 <= nBuckets <= MAX_BUCKETS && PowerOfTwo(nBuckets)
      && (firstSub == 0 || firstSub == CALQ_SPACE - nBuckets)
      && topThreshold == 2 * nBuckets && botThreshold == nBuckets / 2 - 2
    }

    /** `calendar[i]` is cell `firstSub + i` of the whole array. */
    ghost predicate Represents()
      requires Placed()
      reads this, calq
    {
      && cal == Cal(cal.buckets, cWidth, qSize, lastBucket, lastPrio, bucketTop)
      && |cal.buckets| == nBuckets
      && forall i :: 0 <= i < nBuckets ==> calq[firstSub + i] == cal.buckets[i]
    }

    ghost predicate Valid()
      reads this, calq
    {
      Placed() && Represents() && Wf(cal)
    }

    /** Between calls a calendar that may still grow is not over its threshold. */
    ghost predicate Settled()
      reads this
    {
      resizeEnabled && (nBuckets < MAX_BUCKETS ==> qSize <= 2 * nBuckets)
    }

    twostate predicate SamePlace()
      reads this
    {
      firstSub == old(firstSub) && nBuckets == old(nBuckets) && resizeEnabled == old(resizeEnabled)
    }

    /** Cells that do not belong to the current calendar are as before. */
    twostate predicate OthersUnchanged()
      reads this, calq
    {
      forall j :: 0 <= j < calq.Length && !(firstSub <= j < firstSub + nBuckets) ==> calq[j] == old(calq[j])
    }

    constructor ()
      ensures Valid() && Settled() && cal == Calendar.LocalInit(2, 1.0, 0.0)
      ensures fresh(calq)
    {
      calq := new seq<Event<T>>[CALQ_SPACE];
      new;
      LocalInit(0, 2, 1.0, 0.0);
      resizeEnabled := true;
    }

    method LocalInit(base: nat, n: nat, width: real, start: real)
      requires calq.Length == CALQ_SPACE && 2 <= n <= MAX_BUCKETS && PowerOfTwo(n)
      requires base == 0 || base == CALQ_SPACE - n
      requires width > 0.0 && start >= 0.0
      modifies this, calq
      ensures Valid() && cal == Calendar.LocalInit(n, width, start)
      ensures firstSub == base && nBuckets == n && resizeEnabled == old(resizeEnabled)
      ensures OthersUnchanged()
    {
      hide PowerOfTwo, Wf, Bag, Pending;
      firstSub := base;
      nBuckets := n;
      ClearCells();
      cWidth := width;
      qSize := 0;
      lastPrio := start;
      var v := (start / cWidth).Floor;
      lastBucket := v % n;
      bucketTop := (v + 1) as real * cWidth + 0.5 * cWidth;
      botThreshold := n / 2 - 2;
      topThreshold := 2 * n;
      cal := Calendar.LocalInit(n, width, start);
    }

    method ClearCells()
      requires firstSub + nBuckets <= calq.Length
      modifies calq
      ensures forall j :: firstSub <= j < firstSub + nBuckets ==> calq[j] == []
      ensures OthersUnchanged()
    {
      for i := 0 to nBuckets
        invariant forall j :: firstSub <= j < firstSub + i ==> calq[j] == []
        invariant OthersUnchanged()
      {
        calq[firstSub + i] := [];
      }
    }

    /** The list of the event's bucket gains the event, after its equals. */
    method Link(e: Event<T>)
      requires Valid() && e.priority >= 0.0
      modifies this`qSize, this`cal, calq
      ensures Valid() && OthersUnchanged() && cal == Enqueue(old(cal), e)
    {
      EnqueueIs(cal, e);
      hide Wf, Insert, Bag, Enqueue, PowerOfTwo, BucketOf;
      var i := BucketIndex(e.priority);
      var list := InsertInto(calq[firstSub + i], e);
      SetBucket(i, list, qSize + 1);
    }

    /** Replace the list of one bucket. */
    method SetBucket(i: nat, list: seq<Event<T>>, size: int)
      requires Placed() && Represents() && i < nBuckets
      modifies this`qSize, this`cal, calq
      ensures Placed() && Represents() && OthersUnchanged()
      ensures cal == old(cal).(buckets := old(cal).buckets[i := list], size := size)
    {
      calq[firstSub + i] := list;
      qSize := size;
      cal := cal.(buckets := cal.buckets[i := list], size := size);
    }

    method BucketIndex(priority: real) returns (i: nat)
      requires Valid() && priority >= 0.0
      ensures i == BucketOf(priority, cWidth, nBuckets) < nBuckets
      ensures calq[firstSub + i] == cal.buckets[i] && Sorted(cal.buckets[i])
    {
      VirtualNonNegative(priority, cWidth);
      i := (priority / cWidth).Floor % nBuckets;
      assert BucketOk(cal.buckets[i], i, cWidth, nBuckets);
    }

    static method InsertInto(list: seq<Event<T>>, e: Event<T>) returns (r: seq<Event<T>>)
      requires Sorted(list)
      ensures r == Insert(list, e)
    {
      var k := Position(list, e.priority);
      r := list[..k] + [e] + list[k..];
      InsertAt(list, e, k);
    }

    /** Where the traversal of a sorted list stops. */
    static method Position(list: seq<Event<T>>, priority: real) returns (k: nat)
      requires Sorted(list)
      ensures k <= |list|
      ensures forall j :: 0 <= j < k ==> list[j].priority <= priority
      ensures k < |list| ==> list[k].priority > priority
    {
      if list == [] || list[0].priority > priority {
        k := 0;
      } else {
        var traverse := 0;
        while traverse + 1 < |list| && list[traverse + 1].priority <= priority
          invariant 0 <= traverse < |list| && list[traverse].priority <= priority
        {
          traverse := traverse + 1;
        }
        k := traverse + 1;
      }
    }

    /** Insert an event, then double the calendar if needed. */
    method Put(priority: real, payload: T) returns (ok: bool)
      requires Valid() && priority >= 0.0
      requires resizeEnabled ==> Settled()
      modifies this, calq
      ensures ok == PutMode(old(cal), Event(priority, payload), old(resizeEnabled)).Some?
      ensures ok ==> cal == PutMode(old(cal), Event(priority, payload), old(resizeEnabled)).value
      ensures ok ==> Valid() && resizeEnabled == old(resizeEnabled)
      ensures ok && resizeEnabled ==> Settled()
      ensures ok && resizeEnabled ==>
                nBuckets ==
                if old(qSize) >= 2 * old(nBuckets) && old(nBuckets) < 32768 then 2 * old(nBuckets) else old(nBuckets)
      ensures !old(resizeEnabled) || !MustGrow(Enqueue(old(cal), Event(priority, payload))) ==>
                SamePlace() && OthersUnchanged()
      decreases if resizeEnabled && MustGrow(Enqueue(cal, Event(priority, payload))) then 4 else 1
    {
      hide Wf, Enqueue, Calendar.Resize, PowerOfTwo;
      Link(Event(priority, payload));
      ok := true;
      if qSize > topThreshold && nBuckets < MAX_BUCKETS {
        Doubled(nBuckets);
        ok := Resize(2 * nBuckets);
      }
    }

    /** Copy the calendar onto `newSize` buckets at the other end of the cells, with a new width.
        Does nothing while sampling is under way. */
    method Resize(newSize: nat) returns (ok: bool)
      requires Valid()
      requires resizeEnabled ==>
                 && 2 <= newSize <= MAX_BUCKETS && PowerOfTwo(newSize)
                 && newSize + nBuckets <= CALQ_SPACE && qSize <= 2 * newSize
      modifies this, calq
      ensures !old(resizeEnabled) ==> ok && Valid() && SamePlace() && OthersUnchanged() && cal == old(cal)
      ensures old(resizeEnabled) ==>
                && ok == Calendar.Resize(old(cal), newSize, AsWritten).Some?
                && (ok ==> Valid() && Settled() && cal == Calendar.Resize(old(cal), newSize, AsWritten).value)
      decreases if resizeEnabled then 3 else 0
    {
      hide Wf, PowerOfTwo, Bag, Calendar.NewWidth, AfterSampling, Listing, EnqueueAll, Calendar.LocalInit;
      ok := true;
      if !resizeEnabled {
        return;
      }
      var width := NewWidth();
      if width.None? || width.value <= 0.0 {
        return false;
      }
      MoveTo(newSize, width.value);
    }

    /** A new calendar at the other end of the cells takes over all events. */
    method MoveTo(newSize: nat, width: real)
      requires Valid() && resizeEnabled && width > 0.0
      requires 2 <= newSize <= MAX_BUCKETS && PowerOfTwo(newSize)
      requires newSize + nBuckets <= CALQ_SPACE && qSize <= 2 * newSize
      modifies this, calq
      ensures Valid() && Settled()
      ensures var listing := Listing(old(cal).buckets, |old(cal).buckets|);
              && NonNegative(listing) && old(cal).lastPrio >= 0.0
              && cal == EnqueueAll(Calendar.LocalInit(newSize, width, old(cal).lastPrio), listing)
      decreases 2, 2
    {
      assert lastPrio >= 0.0;
      ListingOfWf(cal);
      ghost var q1 := cal;
      hide Wf, PowerOfTwo, Bag, Listing, EnqueueAll, Calendar.LocalInit, NonNegative;
      var oldFirst, oldBuckets := firstSub, nBuckets;
      LocalInit(if firstSub == 0 then CALQ_SPACE - newSize else 0, newSize, width, lastPrio);
      assert forall i :: 0 <= i < oldBuckets ==> calq[oldFirst + i] == q1.buckets[i];
      CopyFrom(oldFirst, oldBuckets, q1);
    }

    /** Put every event found in the old cells, last bucket first, into the new calendar. */
    method CopyFrom(oldFirst: nat, oldBuckets: nat, ghost q1: Cal<T>)
      requires Valid() && resizeEnabled && Wf(q1) && qSize == 0 && q1.size <= 2 * nBuckets
      requires oldFirst + oldBuckets <= firstSub || firstSub + nBuckets <= oldFirst
      requires oldFirst + oldBuckets <= CALQ_SPACE
      requires |q1.buckets| == oldBuckets && forall i :: 0 <= i < oldBuckets ==> calq[oldFirst + i] == q1.buckets[i]
      modifies this, calq
      ensures Valid() && SamePlace()
      ensures var listing := Listing(q1.buckets, oldBuckets);
              && NonNegative(listing)
              && cal == EnqueueAll(old(cal), listing)
      decreases 2, 1
    {
      ghost var q0 := cal;
      ghost var done: seq<Event<T>> := [];
      hide Wf, CopiedDownTo, Listing, EnqueueAll, PowerOfTwo, Bag, NonNegative;
      CopyStart(q1, q0);
      var i := oldBuckets;
      while i > 0
        invariant 0 <= i <= oldBuckets
        invariant Valid() && SamePlace() && OthersUnchanged()
        invariant CopiedDownTo(q1.buckets, i, q0, done, cal)
      {
        i := i - 1;
        var list := calq[oldFirst + i];
        CopyAhead(q1.buckets, i, q0, done, cal);
        CopyStep(q1.buckets, i, q0, done, cal);
        CopyList(list);
        done := done + list;
      }
      CopyEnd(q1.buckets, q0, done, cal);
    }

    /** Put the events of one list. */
    method CopyList(list: seq<Event<T>>)
      requires Valid() && resizeEnabled && qSize + |list| <= 2 * nBuckets
      requires NonNegative(list)
      modifies this, calq
      ensures Valid() && SamePlace() && OthersUnchanged()
      ensures cal == EnqueueAll(old(cal), list)
      decreases 2, 0
    {
      hide Wf, Enqueue, EnqueueAll;
      ghost var q := cal;
      EnqueueNothing(q);
      var k := 0;
      assert list[..0] == [];
      while k < |list|
        invariant 0 <= k <= |list|
        invariant Valid() && SamePlace() && OthersUnchanged()
        invariant cal == EnqueueAll(q, list[..k])
      {
        EnqueueAllStep(q, list[..k], list[k]);
        assert list[..k + 1] == list[..k] + [list[k]];
        var ok := Put(list[k].priority, list[k].payload);
        k := k + 1;
      }
      assert list[..k] == list;
    }

    /** Sample the next events, put them back, and compute a width from their separations. */
    method NewWidth() returns (width: Option<real>)
      requires Valid() && resizeEnabled
      modifies this, calq
      ensures Valid() && SamePlace()
      ensures cal == AfterSampling(old(cal), AsWritten)
      ensures width == Calendar.NewWidth(old(cal), AsWritten)
      decreases 2, 2
    {
      hide Sample, EnqueueAll, Wf, SmallGaps, GapLimit, PowerOfTwo, Bag;
      if qSize < 2 {
        return Some(1.0);
      }
      var oldLastBucket, oldLastPrio, oldBucketTop := lastBucket, lastPrio, bucketTop;
      resizeEnabled := false;
      var sum, j := MeasureGaps(SampleSize(qSize));
      width := if j == 0 then None else Some(sum / j as real * 3.0);
      lastBucket := oldLastBucket;
      lastPrio := oldLastPrio;
      bucketTop := oldBucketTop;
      cal := cal.(lastBucket := oldLastBucket, lastPrio := oldLastPrio, bucketTop := oldBucketTop);
      resizeEnabled := true;
      assert cal == AfterSampling(old(cal), AsWritten);
    }

    /** Take samples, put them back, and add up the separations below twice the average. */
    method MeasureGaps(nSamples: nat) returns (sum: real, j: nat)
      requires Valid() && !resizeEnabled && 2 <= nSamples <= qSize
      modifies this, calq
      ensures Valid() && SamePlace()
      ensures var (s, q1) := Sample(old(cal), nSamples, AsWritten);
              cal == EnqueueAll(q1, s) && (sum, j) == SmallGaps(s, nSamples, GapLimit(s))
      decreases 2, 1
    {
      hide Sample, EnqueueAll, Wf, SmallGaps, GapSum, Placed, NonNegative, Bag, Pending;
      var temp, average := TakeSamples(nSamples);
      average := average / (nSamples - 1) as real;
      sum, j := PutSamplesBack(temp, average * 2.0);
    }

    method TakeSamples(nSamples: nat) returns (temp: seq<Event<T>>, sum: real)
      requires Valid() && !resizeEnabled && 2 <= nSamples <= qSize
      modifies this, calq
      ensures Valid() && SamePlace()
      ensures (temp, cal) == Sample(old(cal), nSamples, AsWritten)
      ensures sum == GapSum(temp, nSamples)
      decreases 2, 0
    {
      hide Wf, Dequeue, Sample, MustShrink, Placed, GetMode, NonNegative;
      ghost var q := cal;
      SampleNothing(q, AsWritten);
      temp, sum := [], 0.0;
      for i := 0 to nSamples
        invariant Valid() && SamePlace()
        invariant (temp, cal) == Sample(q, i, AsWritten)
        invariant sum == if i > 0 then GapSum(temp, i) else 0.0
      {
        SampleStep(q, i + 1, AsWritten);
        var ok, e := Deq();
        if i > 0 {
          sum := sum + (e.value.priority - temp[i - 1].priority);
          GapSumStep(temp, e.value);
        }
        temp := temp + [e.value];
      }
    }

    method PutSamplesBack(temp: seq<Event<T>>, limit: real) returns (sum: real, j: nat)
      requires Valid() && !resizeEnabled && |temp| >= 2
      requires NonNegative(temp)
      modifies this, calq
      ensures Valid() && SamePlace()
      ensures cal == EnqueueAll(old(cal), temp)
      ensures (sum, j) == SmallGaps(temp, |temp|, limit)
      decreases 2, 0
    {
      hide Wf, Enqueue, EnqueueAll, MustGrow, Placed, SmallGaps;
      ghost var q := cal;
      EnqueueNothing(q);
      sum, j := 0.0, 0;
      SmallGapsNone(temp, limit);
      EnqueueAllStep(q, [], temp[0]);
      assert temp[..1] == [] + [temp[0]];
      var ok := Put(temp[0].priority, temp[0].payload);
      for i := 1 to |temp|
        invariant Valid() && SamePlace()
        invariant cal == EnqueueAll(q, temp[..i])
        invariant (sum, j) == SmallGaps(temp, i, limit)
      {
        SmallGapsStep(temp, i + 1, limit);
        if temp[i].priority - temp[i - 1].priority < limit {
          sum := sum + (temp[i].priority - temp[i - 1].priority);
          j := j + 1;
        }
        EnqueueAllStep(q, temp[..i], temp[i]);
        assert temp[..i + 1] == temp[..i] + [temp[i]];
        ok := Put(temp[i].priority, temp[i].payload);
      }
      assert temp[..|temp|] == temp;
    }

    /** Hand out the event the scan or the direct search finds, then halve the calendar if needed. */
    method Deq() returns (ok: bool, e: Option<Event<T>>)
      requires Valid()
      requires resizeEnabled ==> Settled()
      modifies this, calq
      ensures old(cal).size <= 0 ==> ok && e.None? && cal == old(cal)
      ensures old(cal).size > 0 ==> e == Some(Dequeue(old(cal), AsWritten).0)
      ensures old(cal).size > 0 ==> ok == GetMode(old(cal), old(resizeEnabled)).Some?
      ensures old(cal).size > 0 && ok ==> cal == GetMode(old(cal), old(resizeEnabled)).value.1
      ensures ok ==> Valid() && resizeEnabled == old(resizeEnabled)
      ensures ok && resizeEnabled ==> Settled()
      ensures ok && resizeEnabled && old(qSize) > 0 ==>
                nBuckets == if old(qSize) - 1 < old(nBuckets) / 2 - 2 then old(nBuckets) / 2 else old(nBuckets)
      ensures !old(resizeEnabled) ==> SamePlace()
      decreases if resizeEnabled && cal.size > 0 && MustShrink(Dequeue(cal, AsWritten).1) then 4 else 1
    {
      assert cal.size >= 0;
      hide Wf, Dequeue, Calendar.Get, Calendar.Resize, GetMode, PowerOfTwo;
      if qSize == 0 {
        return true, None;
      }
      GetModeIs(cal, resizeEnabled);
      var event := Unlink();
      ok, e := true, Some(event);
      if qSize < botThreshold {
        Halved(nBuckets);
        ok := Resize(nBuckets / 2);
      }
    }

    method Unlink() returns (e: Event<T>)
      requires Valid() && qSize > 0
      modifies this`bucketTop, this`lastBucket, this`lastPrio, this`qSize, this`cal, calq
      ensures Valid()
      ensures (e, cal) == Dequeue(old(cal), AsWritten)
    {
      ghost var q := cal;
      var i := Locate();
      DequeueIs(q, i, bucketTop);
      hide Wf, Dequeue, Take, Target;
      e := TakeHead(i);
    }

    method TakeHead(i: nat) returns (e: Event<T>)
      requires Valid() && i < nBuckets && cal.buckets[i] != []
      modifies this`lastBucket, this`lastPrio, this`qSize, this`cal, calq
      ensures Valid()
      ensures (e, cal) == Take(old(cal), i, bucketTop)
    {
      TakeIs(cal, i, bucketTop);
      ghost var taken := Take(cal, i, bucketTop);
      hide Wf, Take, PowerOfTwo;
      var list := calq[firstSub + i];
      e := list[0];
      lastBucket := i;
      lastPrio := e.priority;
      cal := cal.(lastBucket := i, lastPrio := e.priority);
      SetBucket(i, list[1..], qSize - 1);
      assert cal == taken.1;
    }

    /** The bucket to take from, found by the scan or else by the direct search. */
    method Locate() returns (i: nat)
      requires Valid() && qSize > 0
      modifies this`bucketTop, this`cal
      ensures i == Target(old(cal))
      ensures Valid() && cal == old(cal).(bucketTop := bucketTop)
      ensures bucketTop == old(bucketTop) + At(FirstHit(old(cal), 0), cWidth)
    {
      ghost var q := cal;
      NonEmptyBucket(q.buckets);
      hide Wf, FirstHit, Best;
      var found;
      i, found := Scan();
      if !found {
        i := SearchDirectly();
      }
    }

    /** One round over the buckets, raising the bucket top by one width at every step. */
    method Scan() returns (i: nat, found: bool)
      requires Valid()
      modifies this`bucketTop, this`cal
      ensures var k := FirstHit(old(cal), 0);
              && (found <==> k < nBuckets)
              && (found ==> i == Around(lastBucket, k, nBuckets))
              && bucketTop == old(bucketTop) + At(k, cWidth)
      ensures Valid() && cal == old(cal).(bucketTop := bucketTop)
    {
      ghost var q := cal;
      ghost var k: nat := 0;
      i, found := lastBucket, false;
      ScanStart(q);
      hide Wf, FirstHit, ScanAt, PowerOfTwo, Around, At;
      while true
        invariant cal == q && !found
        invariant k < nBuckets && i < nBuckets && ScanAt(q, k, i, bucketTop)
        decreases nBuckets - k
      {
        var list := calq[firstSub + i];
        assert list == q.buckets[i];
        if list != [] && list[0].priority < bucketTop {
          found := true;
          break;
        }
        ScanNext(q, k, i, bucketTop);
        i := if i + 1 == nBuckets then 0 else i + 1;
        bucketTop := bucketTop + cWidth;
        k := k + 1;
        if i == lastBucket {
          break;
        }
      }
      ScanEnd(q, k, i, bucketTop);
      WfMoved(q, bucketTop);
      cal := cal.(bucketTop := bucketTop);
    }

    /** The first bucket among those with the smallest head. */
    method SearchDirectly() returns (best: int)
      requires Valid()
      ensures best == Best(cal.buckets, nBuckets)
    {
      hide Wf;
      best := -1;
      var lowest := 0.0;
      for i := 0 to nBuckets
        invariant best == Best(cal.buckets, i)
        invariant best >= 0 ==> lowest == cal.buckets[best][0].priority
      {
        assert calq[firstSub + i] == cal.buckets[i];
        if calq[firstSub + i] != [] && (best == -1 || calq[firstSub + i][0].priority < lowest) {
          best := i;
          lowest := calq[firstSub + i][0].priority;
        }
      }
    }

    method Get() returns (ok: bool, payload: Option<T>)
      requires Valid() && Settled()
      modifies this, calq
      ensures old(cal).size == 0 ==> ok && payload.None? && cal == old(cal)
      ensures old(cal).size > 0 ==> ok == Calendar.Get(old(cal), AsWritten).Some?
      ensures old(cal).size > 0 ==> payload == Some(Dequeue(old(cal), AsWritten).0.payload)
      ensures old(cal).size > 0 && ok ==> cal == Calendar.Get(old(cal), AsWritten).value.1
      ensures ok && old(qSize) > 0 ==>
                nBuckets == if old(qSize) - 1 < old(nBuckets) / 2 - 2 then old(nBuckets) / 2 else old(nBuckets)
      ensures ok ==> Valid() && Settled()
    {
      hide Wf, Dequeue, Calendar.Get;
      var e;
      ok, e := Deq();
      payload := if e.None? then None else Some(e.value.payload);
    }

    method Empty() returns (empty: bool)
      requires Valid()
      ensures empty <==> Bag(cal) == multiset{}
    {
      empty := qSize == 0;
    }
  }
}
