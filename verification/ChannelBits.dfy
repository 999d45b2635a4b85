/** The packed channel words of model.h. */
module ChannelBits {

  const CHANNELS_PER_CELL := 1000
  const BITS := 32

  /** Words allocated, and words cleared and used. */
  const WORDS := 64
  const USED_WORDS := 32

  // ---------------------------------------------------------------- packed words

  /** One shifted left by `k`. */
  function Mask(k: nat): bv32
    requires k < BITS
  {
    if k == 0 then 1 else Mask(k - 1) << 1
  }

  lemma {:induction false} MaskNonZero(k: nat)
    requires k < BITS
    ensures Mask(k) != 0
    decreases BITS - k
  {
    if k == BITS - 1 {
      TopMask();
    } else {
      MaskNonZero(k + 1);
    }
  }

  lemma TopMask()
    ensures Mask(BITS - 1) == 0x8000_0000
  {
    assert Mask(3) == 0x8;
    assert Mask(7) == 0x80;
    assert Mask(11) == 0x800;
    assert Mask(15) == 0x8000;
    assert Mask(19) == 0x8_0000;
    assert Mask(23) == 0x80_0000;
    assert Mask(27) == 0x800_0000;
    assert Mask(31) == 0x8000_0000;
  }

  predicate Apart(x: bv32, y: bv32) {
    x & y == 0
  }

  lemma {:induction false} MasksApart(j: nat, k: nat)
    requires j < k < BITS
    ensures Apart(Mask(j), Mask(k)) && Apart(Mask(k), Mask(j))
  {
    hide Apart;
    if j == 0 {
      OddEven(Mask(k - 1));
    } else {
      MasksApart(j - 1, k - 1);
      ShiftedApart(Mask(j - 1), Mask(k - 1));
    }
  }

  lemma OddEven(x: bv32)
    ensures Apart(1, x << 1) && Apart(x << 1, 1)
  {
  }

  lemma ShiftedApart(x: bv32, y: bv32)
    requires Apart(x, y)
    ensures Apart(x << 1, y << 1) && Apart(y << 1, x << 1)
  {
  }

  /** An unsigned int of the channel state. */
  datatype Word = Word(bits: bv32)

  function And(x: bv32, y: bv32): bv32 {
    x & y
  }

  function Or(x: bv32, y: bv32): bv32 {
    x | y
  }

  function AndNot(x: bv32, y: bv32): bv32 {
    x & !y
  }

  predicate Has(w: Word, k: nat)
    requires k < BITS
  {
    And(w.bits, Mask(k)) != 0
  }

  function With(w: Word, k: nat): Word
    requires k < BITS
  {
    Word(Or(w.bits, Mask(k)))
  }

  function Without(w: Word, k: nat): Word
    requires k < BITS
  {
    Word(AndNot(w.bits, Mask(k)))
  }

  lemma OrSame(w: bv32, m: bv32)
    ensures And(Or(w, m), m) == m
  {
  }

  lemma OrOther(w: bv32, m: bv32, x: bv32)
    requires Apart(m, x)
    ensures And(Or(w, m), x) == And(w, x)
  {
  }

  lemma AndNotSame(w: bv32, m: bv32)
    ensures And(AndNot(w, m), m) == 0
  {
  }

  lemma AndNotOther(w: bv32, m: bv32, x: bv32)
    requires Apart(m, x)
    ensures And(AndNot(w, m), x) == And(w, x)
  {
  }

  lemma ApartMasks(j: nat, k: nat)
    requires j < BITS && k < BITS && j != k
    ensures Apart(Mask(j), Mask(k))
  {
    hide Apart, Mask;
    if j < k { MasksApart(j, k); } else { MasksApart(k, j); }
  }

  lemma WithSame(w: Word, k: nat)
    requires k < BITS
    ensures Has(With(w, k), k)
  {
    hide Mask, And, Or, AndNot;
    MaskNonZero(k);
    OrSame(w.bits, Mask(k));
  }

  lemma WithoutSame(w: Word, k: nat)
    requires k < BITS
    ensures !Has(Without(w, k), k)
  {
    hide Mask, And, Or, AndNot;
    AndNotSame(w.bits, Mask(k));
  }

  lemma WithOther(w: Word, k: nat, j: nat)
    requires k < BITS && j < BITS && j != k
    ensures Has(With(w, k), j) == Has(w, j)
  {
    hide Mask, Apart, And, Or, AndNot;
    ApartMasks(k, j);
    OrOther(w.bits, Mask(k), Mask(j));
  }

  lemma WithoutOther(w: Word, k: nat, j: nat)
    requires k < BITS && j < BITS && j != k
    ensures Has(Without(w, k), j) == Has(w, j)
  {
    hide Mask, Apart, And, Or, AndNot;
    ApartMasks(k, j);
    AndNotOther(w.bits, Mask(k), Mask(j));
  }

  predicate BitAt(words: seq<Word>, i: nat)
    requires i < BITS * |words|
  {
    Has(words[i / BITS], i % BITS)
  }

  ghost function SetBits(words: seq<Word>): set<int> {
    set i: nat | i < BITS * |words| && BitAt(words, i)
  }

  function WithBit(words: seq<Word>, i: nat): seq<Word>
    requires i < BITS * |words|
  {
    words[i / BITS := With(words[i / BITS], i % BITS)]
  }

  function WithoutBit(words: seq<Word>, i: nat): seq<Word>
    requires i < BITS * |words|
  {
    words[i / BITS := Without(words[i / BITS], i % BITS)]
  }

  lemma Places(i: nat, j: nat)
    requires i != j
    ensures i / BITS != j / BITS || i % BITS != j % BITS
  {
  }

  lemma BitAfterSet(words: seq<Word>, i: nat, j: nat)
    requires i < BITS * |words| && j < BITS * |words|
    ensures BitAt(WithBit(words, i), j) <==> j == i || BitAt(words, j)
  {
    hide Has, With;
    WithSame(words[i / BITS], i % BITS);
    if j != i {
      Places(i, j);
      if i / BITS == j / BITS { WithOther(words[i / BITS], i % BITS, j % BITS); }
    }
  }

  lemma BitAfterReset(words: seq<Word>, i: nat, j: nat)
    requires i < BITS * |words| && j < BITS * |words|
    ensures BitAt(WithoutBit(words, i), j) <==> j != i && BitAt(words, j)
  {
    hide Has, Without;
    WithoutSame(words[i / BITS], i % BITS);
    if j != i {
      Places(i, j);
      if i / BITS == j / BITS { WithoutOther(words[i / BITS], i % BITS, j % BITS); }
    }
  }

  /** Setting and clearing a bit of the packed words adds and removes exactly that channel. */
  lemma SetAndReset(words: seq<Word>, i: nat)
    requires i < BITS * |words|
    ensures SetBits(WithBit(words, i)) == SetBits(words) + {i}
    ensures SetBits(WithoutBit(words, i)) == SetBits(words) - {i}
  {
    hide BitAt, WithBit, WithoutBit;
    SameLength(words, i);
    forall j: nat | j < BITS * |words|
      ensures BitAt(WithBit(words, i), j) <==> j == i || BitAt(words, j)
      ensures BitAt(WithoutBit(words, i), j) <==> j != i && BitAt(words, j)
    {
      BitAfterSet(words, i, j);
      BitAfterReset(words, i, j);
    }
  }

  lemma SameLength(words: seq<Word>, i: nat)
    requires i < BITS * |words|
    ensures |WithBit(words, i)| == |words| && |WithoutBit(words, i)| == |words|
  {
  }

  lemma NoBits(words: seq<Word>)
    requires forall i :: 0 <= i < |words| ==> words[i] == Word(0)
    ensures SetBits(words) == {}
  {
    hide Has;
    forall i: nat | i < BITS * |words| ensures !BitAt(words, i) {
      ZeroHasNone(i % BITS);
    }
  }

  lemma ZeroAnd(m: bv32)
    ensures And(0, m) == 0
  {
  }

  lemma ZeroHasNone(k: nat)
    requires k < BITS
    ensures !Has(Word(0), k)
  {
    hide Mask, And;
    ZeroAnd(Mask(k));
  }
}
