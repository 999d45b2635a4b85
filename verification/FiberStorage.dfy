/** Fiber-local storage of fiber.c: a bitmap of allocated indices and an array of values. */
module FiberStorage {

  const FLS_MAX_SIZE := 4096

  const SUCCESS := 0
  const ESRCH := 3
  const EAGAIN := 11
  const EACCES := 13
  const EEXIST := 17
  const EINVAL := 22

  datatype Fls = Fls(bmp: seq<bool>, data: seq<int>)

  predicate Sized(s: Fls) {
    |s.bmp| == |s.data| == FLS_MAX_SIZE
  }

  function Zeroed(): (s: Fls)
    ensures Sized(s)
  {
    Fls(seq(FLS_MAX_SIZE, _ => false), seq(FLS_MAX_SIZE, _ => 0))
  }

  type SizedFls = s: Fls | Sized(s) witness Zeroed()

  type FlsIndex = i: int | 0 <= i < FLS_MAX_SIZE

  /** `k` is the least clear position, or the length if all are set. */
  ghost predicate FirstClear(bmp: seq<bool>, k: nat) {
    k <= |bmp| && (forall j :: 0 <= j < k ==> bmp[j]) && (k < |bmp| ==> !bmp[k])
  }

  ghost function FirstZeroBit(bmp: seq<bool>, from: nat): (k: nat)
    requires from <= |bmp| && forall j :: 0 <= j < from ==> bmp[j]
    ensures FirstClear(bmp, k)
    decreases |bmp| - from
  {
    if from == |bmp| || !bmp[from] then from else FirstZeroBit(bmp, from + 1)
  }

  ghost function ChangeBit(s: Fls, i: int): Fls
    requires 0 <= i < |s.bmp|
  {
    s.(bmp := s.bmp[i := !s.bmp[i]])
  }

  ghost predicate InRange(i: int) {
    0 <= i < FLS_MAX_SIZE
  }

  /** The index returned (or a negative error number) and the storage afterwards. */
  ghost function Alloc(s: Fls): (r: (int, Fls))
    requires Sized(s)
    ensures Sized(r.1)
  {
    var idx := FirstZeroBit(s.bmp, 0);
    if idx < FLS_MAX_SIZE then (idx, ChangeBit(s, idx)) else (-EINVAL, s)
  }

  ghost function GetValue(s: Fls, i: int): int
    requires Sized(s)
  {
    if !InRange(i) then -ESRCH else if !s.bmp[i] then -EACCES else s.data[i]
  }

  ghost function Free(s: Fls, i: int): (r: (int, Fls))
    requires Sized(s)
    ensures Sized(r.1)
  {
    if !InRange(i) then (-EINVAL, s) else if !s.bmp[i] then (-EACCES, s) else (SUCCESS, ChangeBit(s, i))
  }

  ghost function SetValue(s: Fls, i: int, value: int): (r: (int, Fls))
    requires Sized(s)
    ensures Sized(r.1)
  {
    if !InRange(i) then (-EINVAL, s)
    else if !s.bmp[i] then (-EACCES, s)
    else (i, s.(data := s.data[i := value]))
  }

  ghost function Live(s: Fls): set<int>
    requires Sized(s)
  {
    set i | 0 <= i < FLS_MAX_SIZE && s.bmp[i]
  }

  /** An index handed out was free, is the least free one, and is all that changes. */
  lemma AllocTakesLeastFree(s: Fls)
    requires Sized(s)
    ensures var (i, s1) := Alloc(s);
            if forall j :: InRange(j) ==> j in Live(s) then i == -EINVAL && s1 == s
            else
              && InRange(i) && i !in Live(s) && (forall j :: 0 <= j < i ==> j in Live(s))
              && Live(s1) == Live(s) + {i} && s1.data == s.data
  {
    var (i, s1) := Alloc(s);
    if i >= 0 {
      assert InRange(i) && i !in Live(s);
      assert Live(s1) == Live(s) + {i};
    }
  }

  /** Toggling is an exact clear on a live index; the value stays behind. */
  lemma FreeClearsExactly(s: Fls, i: int)
    requires Sized(s)
    ensures var (r, s1) := Free(s, i);
            && (r == SUCCESS <==> i in Live(s))
            && Live(s1) == Live(s) - {i} && s1.data == s.data
  {
    var s1 := Free(s, i).1;
    assert Live(s1) == Live(s) - {i};
  }

  lemma SetThenGet(s: Fls, i: int, value: int, j: int)
    requires Sized(s) && i in Live(s)
    ensures var (r, s1) := SetValue(s, i, value);
            r == i && Live(s1) == Live(s) && GetValue(s1, j) == if j == i then value else GetValue(s, j)
  {
  }

  /** What every call answers to which index, and that a refused one changes nothing. */
  lemma CodesExact(s: Fls, i: int, value: int)
    requires Sized(s)
    ensures i in Live(s) ==> GetValue(s, i) == s.data[i]
    ensures i !in Live(s) ==> GetValue(s, i) == if 0 <= i < 4096 then -13 else -3
    ensures var (r, s1) := Free(s, i);
            && (r == 0 <==> i in Live(s)) && (r == -13 <==> 0 <= i < 4096 && i !in Live(s))
            && (r == -22 <==> !(0 <= i < 4096)) && (r != 0 ==> s1 == s)
    ensures var (r, s1) := SetValue(s, i, value);
            && (r >= 0 <==> i in Live(s)) && (r == -13 <==> 0 <= i < 4096 && i !in Live(s))
            && (r == -22 <==> !(0 <= i < 4096)) && (r < 0 ==> s1 == s) && (r >= 0 ==> r == i)
  {
  }

  /** A new storage has nothing live, refuses every index, and first hands out index 0, holding zero. */
  lemma NewStorage(i: int, value: int)
    ensures Live(Zeroed()) == {}
    ensures 0 <= i < 4096 ==>
              GetValue(Zeroed(), i) == Free(Zeroed(), i).0 == SetValue(Zeroed(), i, value).0 == -13
    ensures Alloc(Zeroed()).0 == 0 && GetValue(Alloc(Zeroed()).1, 0) == 0
  {
    hide FirstZeroBit;
    var s := Zeroed();
    assert !s.bmp[0] && s.data[0] == 0;
    assert FirstZeroBit(s.bmp, 0) == 0;
  }

  /** Once freed, an index is refused by every call; once handed out, it shows the word stored there. */
  lemma FreedIsRefused(s: Fls, i: int, value: int)
    requires Sized(s) && i in Live(s)
    ensures var s1 := Free(s, i).1;
            GetValue(s1, i) == -13 && Free(s1, i) == (-13, s1) && SetValue(s1, i, value) == (-13, s1)
  {
    hide FirstZeroBit;
    FreeClearsExactly(s, i);
    CodesExact(Free(s, i).1, i, value);
  }

  lemma AllocatedShowsWord(s: Fls)
    requires Sized(s) && Alloc(s).0 >= 0
    ensures var (i, s1) := Alloc(s); 0 <= i < 4096 && i !in Live(s) && GetValue(s1, i) == s.data[i]
  {
    AllocTakesLeastFree(s);
    CodesExact(Alloc(s).1, Alloc(s).0, 0);
  }

  /** An index freed and handed out again still shows its old value. */
  lemma ReallocatedShowsOldValue(s: Fls, i: int)
    requires Sized(s) && i in Live(s) && forall j :: 0 <= j < i ==> j in Live(s)
    ensures var s1 := Free(s, i).1;
            Alloc(s1).0 == i && GetValue(Alloc(s1).1, i) == GetValue(s, i)
  {
    var s1 := Free(s, i).1;
    var idx := FirstZeroBit(s1.bmp, 0);
    forall j | 0 <= j < i ensures s1.bmp[j] { assert j in Live(s); }
    assert !s1.bmp[i];
    assert idx == i;
  }

  // ---------------------------------------------------------------- the storage updated in place

  class Storage {
    const bmp: array<bool>
    const data: array<int>

    ghost predicate Valid()
      reads this
    {
      bmp.Length == FLS_MAX_SIZE && data.Length == FLS_MAX_SIZE
    }

    ghost function View(): (s: Fls)
      requires Valid()
      reads this, bmp, data
      ensures Sized(s)
    {
      Fls(bmp[..], data[..])
    }

    constructor ()
      ensures Valid() && fresh(bmp) && fresh(data)
      ensures View() == Zeroed()
    {
      bmp := new bool[FLS_MAX_SIZE](_ => false);
      data := new int[FLS_MAX_SIZE](_ => 0);
      new;
      assert bmp[..] == Zeroed().bmp && data[..] == Zeroed().data;
    }

    method FindFirstZeroBit() returns (idx: nat)
      requires Valid()
      ensures idx == FirstZeroBit(View().bmp, 0)
    {
      idx := 0;
      while idx < FLS_MAX_SIZE && bmp[idx]
        invariant idx <= FLS_MAX_SIZE
        invariant forall j :: 0 <= j < idx ==> View().bmp[j]
        invariant FirstZeroBit(View().bmp, 0) == FirstZeroBit(View().bmp, idx)
      {
        idx := idx + 1;
      }
    }

    method Toggle(idx: nat)
      requires Valid() && idx < FLS_MAX_SIZE
      modifies bmp
      ensures View() == ChangeBit(old(View()), idx)
    {
      bmp[idx] := !bmp[idx];
    }

    method Allocate() returns (r: int)
      requires Valid()
      modifies bmp
      ensures (r, View()) == Alloc(old(View()))
    {
      var idx := FindFirstZeroBit();
      if idx < FLS_MAX_SIZE {
        Toggle(idx);
        return idx;
      }
      return -EINVAL;
    }

    method Get(index: int) returns (r: int)
      requires Valid()
      ensures r == GetValue(View(), index)
    {
      if index < 0 || index >= FLS_MAX_SIZE {
        return -ESRCH;
      }
      if !bmp[index] {
        return -EACCES;
      }
      return data[index];
    }

    method Release(index: int) returns (r: int)
      requires Valid()
      modifies bmp
      ensures (r, View()) == Free(old(View()), index)
    {
      if index < 0 || index >= FLS_MAX_SIZE {
        return -EINVAL;
      }
      if !bmp[index] {
        return -EACCES;
      }
      Toggle(index);
      return SUCCESS;
    }

    method Set(index: int, value: int) returns (r: int)
      requires Valid()
      modifies data
      ensures (r, View()) == SetValue(old(View()), index, value)
    {
      if index < 0 || index >= FLS_MAX_SIZE {
        return -EINVAL;
      }
      if !bmp[index] {
        return -EACCES;
      }
      data[index] := value;
      return index;
    }
  }
}
