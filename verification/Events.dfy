/** Timed events and the sorted event lists kept in each bucket of the calendar. */
module Events {

  datatype Event<T> = Event(priority: real, payload: T)

  ghost predicate Sorted<T>(s: seq<Event<T>>) {
    forall i, j :: 0 <= i < j < |s| ==> s[i].priority <= s[j].priority
  }

  ghost predicate StrictlySorted<T>(s: seq<Event<T>>) {
    forall i, j :: 0 <= i < j < |s| ==> s[i].priority < s[j].priority
  }

  /** No two pending events carry the same priority. */
  ghost predicate Distinct<T>(m: multiset<Event<T>>) {
    && (forall a :: a in m ==> m[a] == 1)
    && (forall a, b :: a in m && b in m && a.priority == b.priority ==> a == b)
  }

  /** `e` may be handed out first: nothing pending is earlier. */
  ghost predicate IsMin<T>(e: Event<T>, m: multiset<Event<T>>) {
    e in m && forall x :: x in m ==> e.priority <= x.priority
  }

  /** Insertion after every element of equal or smaller priority. */
  ghost function Insert<T>(s: seq<Event<T>>, e: Event<T>): (r: seq<Event<T>>)
    ensures multiset(r) == multiset(s) + multiset{e}
    ensures |r| == |s| + 1
  {
    if s == [] || s[0].priority > e.priority then [e] + s
    else
      assert s == [s[0]] + s[1..];
      [s[0]] + Insert(s[1..], e)
  }

  lemma {:induction false} InsertSorted<T>(s: seq<Event<T>>, e: Event<T>)
    requires Sorted(s)
    ensures Sorted(Insert(s, e))
  {
    if s == [] || s[0].priority > e.priority {
    } else {
      InsertSorted(s[1..], e);
      var t := Insert(s[1..], e);
      forall j | 0 <= j < |t| ensures s[0].priority <= t[j].priority {
        assert t[j] in multiset(t);
        if t[j] != e {
          assert t[j] in multiset(s[1..]);
          assert t[j] in s[1..];
        }
      }
    }
  }

  /** The position a traversal of the list arrives at. */
  lemma {:induction false} InsertAt<T>(s: seq<Event<T>>, e: Event<T>, k: nat)
    requires k <= |s|
    requires forall i :: 0 <= i < k ==> s[i].priority <= e.priority
    requires k < |s| ==> s[k].priority > e.priority
    ensures Insert(s, e) == s[..k] + [e] + s[k..]
  {
    if k > 0 {
      var t := s[1..];
      assert Insert(t, e) == t[..k - 1] + [e] + t[k - 1..] by { InsertAt(t, e, k - 1); }
      Regroup(s, e, k);
    }
  }

  lemma Regroup<T>(s: seq<T>, e: T, k: nat)
    requires 0 < k <= |s|
    ensures [s[0]] + (s[1..][..k - 1] + [e] + s[1..][k - 1..]) == s[..k] + [e] + s[k..]
  {
    assert s[1..][k - 1..] == s[k..];
    assert [s[0]] + s[1..][..k - 1] == s[..k];
  }

  lemma SameHead<T>(a: seq<Event<T>>, b: seq<Event<T>>)
    requires StrictlySorted(a) && StrictlySorted(b)
    requires multiset(a) == multiset(b) && a != [] && b != []
    ensures a[0] == b[0]
  {
    assert a[0] in multiset(b) && b[0] in multiset(a);
    var i :| 0 <= i < |b| && b[i] == a[0];
    var j :| 0 <= j < |a| && a[j] == b[0];
  }

  lemma TailElements<T>(s: seq<Event<T>>)
    requires s != []
    ensures multiset(s[1..]) == multiset(s) - multiset{s[0]}
  {
    assert s == [s[0]] + s[1..];
  }

  /** A list without ties is determined by its elements. */
  lemma {:induction false} StrictlySortedUnique<T>(a: seq<Event<T>>, b: seq<Event<T>>)
    requires StrictlySorted(a) && StrictlySorted(b)
    requires multiset(a) == multiset(b)
    ensures a == b
  {
    assert |a| == |multiset(a)| == |multiset(b)| == |b|;
    if a != [] {
      SameHead(a, b);
      TailElements(a);
      TailElements(b);
      StrictlySortedUnique(a[1..], b[1..]);
      assert a == [a[0]] + a[1..] && b == [b[0]] + b[1..];
    }
  }

  lemma SortedDistinctStrict<T>(s: seq<Event<T>>, m: multiset<Event<T>>)
    requires Sorted(s) && multiset(s) <= m && Distinct(m)
    ensures StrictlySorted(s)
  {
    forall i, j | 0 <= i < j < |s| ensures s[i].priority < s[j].priority {
      assert s[i] in multiset(s) && s[j] in multiset(s);
      if s[i].priority == s[j].priority {
        assert s[i] == s[j];
        TwoOccurrences(s, i, j);
        assert false;
      }
    }
  }

  lemma TwoOccurrences<T>(s: seq<Event<T>>, i: nat, j: nat)
    requires i < j < |s| && s[i] == s[j]
    ensures multiset(s)[s[i]] >= 2
  {
    assert s == s[..j] + s[j..];
    assert s[i] in s[..j] && s[j..][0] == s[i];
    assert s[i] in multiset(s[..j]) && s[i] in multiset(s[j..]);
  }
}
