/** The random numbers of numerical.c. */
module Generator {
  import opened Options

  const WORD := 0x1_0000_0000
  const HALF := 0x1_0000

  const A1 := 36969
  const A2 := 18000

  /** The modulus behind the first multiply-with-carry step. */
  const MODULUS := A1 * HALF - 1

  /** Largest value of the C library's `random()`. */
  const RANDOM_MAX := 0x7fff_ffff

  const SCALE := 0.0000000002328306435454494

  /** One multiply-with-carry step on a 32-bit word, wrapping as unsigned arithmetic does. */
  function Carry(a: nat, x: nat): nat {
    (a * (x % HALF) + x / HALF) % WORD
  }

  /** The two words of the seed, low word first. */
  function Next(seed: nat): nat {
    Carry(A1, seed % WORD) + WORD * Carry(A2, seed / WORD)
  }

  /** The number made of the two words. */
  function Mixed(s1: nat, s2: nat): real {
    ((((s1 * HALF) % WORD + s1 / HALF + s2) % WORD) as real + 1.0) * SCALE
  }

  function Output(seed: nat): real {
    Mixed(seed % WORD, seed / WORD)
  }

  // ---------------------------------------------------------------- the first word

  /** Neither step ever wraps 32 bits. */
  lemma CarryExact(a: nat, x: nat)
    requires a <= A1 && x < WORD
    ensures Carry(a, x) == a * (x % HALF) + x / HALF
  {
    var low, high := x % HALF, x / HALF;
    assert low < HALF && high < HALF;
    Scaled(a, A1, low);
    NoWrap(a * low + high);
  }

  lemma Scaled(a: nat, b: nat, y: nat)
    requires a <= b
    ensures 0 <= a * y <= b * y
  {
  }

  lemma NoWrap(x: nat)
    requires x < WORD
    ensures x % WORD == x
  {
  }

  /** The step divides by 2^16 modulo 36969 * 2^16 - 1. */
  lemma CarryDivides(x: nat)
    requires x < WORD
    ensures HALF * Carry(A1, x) == x + MODULUS * (x % HALF)
  {
    CarryExact(A1, x);
  }

  lemma CarryRange(x: nat)
    requires 1 <= x < MODULUS
    ensures 1 <= Carry(A1, x) < MODULUS
  {
    CarryExact(A1, x);
  }

  /** Multiplying by 2^16 modulo 36969 * 2^16 - 1 takes the step back. */
  lemma CarryInverse(x: nat)
    requires x < MODULUS
    ensures (HALF * Carry(A1, x)) % MODULUS == x
  {
    CarryDivides(x);
    Remainder(x, x % HALF);
  }

  lemma Remainder(x: nat, k: nat)
    requires x < MODULUS
    ensures (x + MODULUS * k) % MODULUS == x
  {
    var q, r := (x + MODULUS * k) / MODULUS, (x + MODULUS * k) % MODULUS;
    assert MODULUS * (q - k) == x - r;
  }

  lemma CarryInjective(x: nat, y: nat)
    requires x < MODULUS && y < MODULUS && Carry(A1, x) == Carry(A1, y)
    ensures x == y
  {
    CarryInverse(x);
    CarryInverse(y);
  }

  // ---------------------------------------------------------------- the seed

  /** A seed as `random()` leaves it, or any later one: the low word is a unit residue, the high word
      is zero and stays zero. */
  predicate Seeded(seed: nat) {
    1 <= seed < MODULUS
  }

  lemma SeededKept(seed: nat)
    requires Seeded(seed)
    ensures Seeded(Next(seed)) && Next(seed) == Carry(A1, seed)
  {
    CarryRange(seed);
    assert seed / WORD == 0 && seed % WORD == seed;
  }

  function Iterate(seed: nat, n: nat): nat {
    if n == 0 then seed else Next(Iterate(seed, n - 1))
  }

  /** A non-zero seed from `random()` is never replaced again, however many numbers are drawn. */
  lemma {:induction false} NeverReseeded(r: nat, n: nat)
    requires 0 < r <= RANDOM_MAX
    ensures Seeded(Iterate(r, n)) && Iterate(r, n) != 0
  {
    if n > 0 {
      NeverReseeded(r, n - 1);
      SeededKept(Iterate(r, n - 1));
    }
  }

  /** Different seeds never meet. */
  lemma {:induction false} StreamsApart(r: nat, s: nat, n: nat)
    requires 0 < r <= RANDOM_MAX && 0 < s <= RANDOM_MAX && r != s
    ensures Iterate(r, n) != Iterate(s, n)
  {
    if n > 0 {
      StreamsApart(r, s, n - 1);
      NeverReseeded(r, n - 1);
      NeverReseeded(s, n - 1);
      SeededKept(Iterate(r, n - 1));
      SeededKept(Iterate(s, n - 1));
      if Iterate(r, n) == Iterate(s, n) { CarryInjective(Iterate(r, n - 1), Iterate(s, n - 1)); }
    }
  }

  /** Strictly between 0 and 1, for every seed. */
  lemma OutputRange(seed: nat)
    ensures 0.0 < Output(seed) < 1.0
  {
    var s1, s2 := seed % WORD, seed / WORD;
    var y := ((s1 * HALF) % WORD + s1 / HALF + s2) % WORD;
    assert 0 <= y < WORD;
    assert y as real <= 4294967295.0;
    assert 4294967296.0 * SCALE < 1.0;
  }

  /** And as close to both as one step of a 32-bit number goes, but for rounding of the scale. */
  lemma OutputReaches()
    ensures Output(0) < 1.0 / 4294967296.0 && Output(WORD * (WORD - 1)) > 1.0 - 1.0 / 1073741824.0
  {
    Halves(0, WORD - 1);
    hide Mixed;
    MixedEnds();
  }

  lemma MixedEnds()
    ensures Mixed(0, 0) == SCALE && Mixed(0, WORD - 1) == 4294967296.0 * SCALE
  {
  }

  /** The multipliers, from a seed of one and from a high word of one. */
  lemma Multipliers()
    ensures Next(1) == 36969 && Next(WORD) == 18000 * WORD
  {
  }

  /** The halves of the low word, exchanged. */
  function Rotated(x: nat): nat {
    (x * HALF) % WORD + x / HALF
  }

  lemma RotatedHalves(x: nat)
    requires x < WORD
    ensures Rotated(x) == HALF * (x % HALF) + x / HALF && x / HALF < HALF
  {
    assert x * HALF == (x / HALF) * WORD + HALF * (x % HALF);
  }

  lemma RotatedInjective(x: nat, y: nat)
    requires x < WORD && y < WORD && Rotated(x) == Rotated(y)
    ensures x == y
  {
    RotatedHalves(x);
    RotatedHalves(y);
  }

  /** With the high word zero the number is that of the rotated low word. */
  lemma SeededOutput(seed: nat)
    requires Seeded(seed)
    ensures Output(seed) == (Rotated(seed) as real + 1.0) * SCALE
  {
    RotatedHalves(seed);
    assert seed / WORD == 0 && seed % WORD == seed;
    NoWrap(Rotated(seed));
  }

  /** Threads seeded differently never draw the same number at the same turn. */
  lemma OutputsApart(r: nat, s: nat, n: nat)
    requires 0 < r <= RANDOM_MAX && 0 < s <= RANDOM_MAX && r != s
    ensures Output(Iterate(r, n)) != Output(Iterate(s, n))
  {
    NeverReseeded(r, n);
    NeverReseeded(s, n);
    StreamsApart(r, s, n);
    hide Output, Rotated, Iterate;
    SeededOutput(Iterate(r, n));
    SeededOutput(Iterate(s, n));
    if Rotated(Iterate(r, n)) == Rotated(Iterate(s, n)) { RotatedInjective(Iterate(r, n), Iterate(s, n)); }
  }

  // ---------------------------------------------------------------- the numbers of a thread

  /** What the C library's `random()` may return. */
  type RandomValue = x: nat | x <= RANDOM_MAX

  /** The seed after `k` numbers; `entropy(k)` is what `random()` returns if drawing number `k` calls it. */
  function SeedAt(entropy: nat -> RandomValue, k: nat): nat {
    if k == 0 then 0
    else
      var seed := SeedAt(entropy, k - 1);
      Next(if seed == 0 then entropy(k - 1) else seed)
  }

  /** Number `k`. */
  function NumberAt(entropy: nat -> RandomValue, k: nat): (u: real)
    ensures 0.0 < u < 1.0
  {
    hide SeedAt, Output;
    OutputRange(SeedAt(entropy, k + 1));
    Output(SeedAt(entropy, k + 1))
  }

  /** Once `random()` has not returned zero, all numbers come from that one value. */
  lemma {:induction false} OneSeed(entropy: nat -> RandomValue, k: nat)
    requires entropy(0) != 0 && k > 0
    ensures SeedAt(entropy, k) == Iterate(entropy(0), k)
    ensures NumberAt(entropy, k - 1) == Output(Iterate(entropy(0), k))
  {
    if k > 1 {
      OneSeed(entropy, k - 1);
      NeverReseeded(entropy(0), k - 1);
    } else {
      assert SeedAt(entropy, 0) == 0 && Iterate(entropy(0), 0) == entropy(0);
    }
    hide Next, Output, Iterate;
  }

  // ---------------------------------------------------------------- Random and Expent

  /** `ln` is taken to be negative below 1, as the logarithm is. */
  ghost predicate NegativeBelowOne(ln: real -> real) {
    forall u: real :: 0.0 < u < 1.0 ==> ln(u) < 0.0
  }

  /** The exponential draw around `mean` that the number `u` gives. */
  function ExpentOf(mean: real, u: real, ln: real -> real): real {
    -mean * ln(1.0 - u)
  }

  /** `exp` undoes `ln` between 0 and 1. */
  ghost predicate Undoes(exp: real -> real, ln: real -> real) {
    forall v: real :: 0.0 < v < 1.0 ==> exp(ln(v)) == v
  }

  /** The draw is the point that an exponential variable of this mean exceeds with probability 1 - u. */
  lemma ExpentQuantile(mean: real, u: real, ln: real -> real, exp: real -> real)
    requires mean > 0.0 && 0.0 < u < 1.0 && Undoes(exp, ln)
    ensures exp(-ExpentOf(mean, u, ln) / mean) == 1.0 - u
  {
    var l := ln(1.0 - u);
    Quotient(mean, l);
    assert ExpentOf(mean, u, ln) == -mean * l;
    assert exp(l) == 1.0 - u;
  }

  lemma Quotient(mean: real, l: real)
    requires mean > 0.0
    ensures -(-mean * l) / mean == l
  {
    assert -(-mean * l) == mean * l;
  }

  /** It scales with the mean. */
  lemma ExpentScales(c: real, mean: real, u: real, ln: real -> real)
    ensures ExpentOf(c * mean, u, ln) == c * ExpentOf(mean, u, ln) && ExpentOf(0.0, u, ln) == 0.0
  {
    var l := ln(1.0 - u);
    assert -(c * mean) * l == c * (-mean * l);
  }

  class Random {
    /** What `random()` returns if number `k` needs it. */
    const entropy: nat -> RandomValue
    var masterSeed: nat
    /** How many numbers have been drawn; the code keeps no such count. */
    var drawn: nat

    constructor (entropy: nat -> RandomValue)
      ensures this.entropy == entropy && Valid() && drawn == 0
    {
      this.entropy := entropy;
      masterSeed, drawn := 0, 0;
    }

    ghost predicate Valid()
      reads this
    {
      masterSeed == SeedAt(entropy, drawn)
    }

    method Draw() returns (u: real)
      requires Valid()
      modifies this
      ensures u == NumberAt(entropy, old(drawn)) && Valid() && drawn == old(drawn) + 1
      ensures masterSeed == Next(if old(masterSeed) == 0 then entropy(old(drawn)) else old(masterSeed))
    {
      NumberIs(entropy, drawn);
      if masterSeed == 0 {
        masterSeed := entropy(drawn);
      }
      StepIs(masterSeed);
      hide SeedAt, NumberAt, Next, Output, Carry, Mixed;
      var seed1, seed2 := masterSeed % WORD, masterSeed / WORD;
      seed1 := Carry(A1, seed1);
      seed2 := Carry(A2, seed2);
      masterSeed := seed1 + WORD * seed2;
      drawn := drawn + 1;
      u := Mixed(seed1, seed2);
    }

    /** Exponentially distributed around `mean`; None is the exit on a negative mean. */
    method Expent(mean: real, ln: real -> real) returns (x: Option<real>)
      requires Valid() && NegativeBelowOne(ln)
      modifies this
      ensures mean < 0.0 ==> x.None? && Valid() && drawn == old(drawn)
      ensures mean >= 0.0 ==>
                && x == Some(ExpentOf(mean, NumberAt(entropy, old(drawn)), ln)) && x.value >= 0.0
                && Valid() && drawn == old(drawn) + 1
      ensures mean > 0.0 ==> x.value > 0.0
    {
      hide NumberAt, SeedAt, Next;
      if mean < 0.0 {
        return None;
      }
      var u := Draw();
      ScaledLog(mean, u, ln);
      x := Some(ExpentOf(mean, u, ln));
    }
  }

  lemma Halves(seed1: nat, seed2: nat)
    requires seed1 < WORD
    ensures (seed1 + WORD * seed2) % WORD == seed1 && (seed1 + WORD * seed2) / WORD == seed2
  {
  }

  /** The step and its number, word by word. */
  lemma StepIs(seed: nat)
    ensures var seed1, seed2 := Carry(A1, seed % WORD), Carry(A2, seed / WORD);
            Next(seed) == seed1 + WORD * seed2 && Output(Next(seed)) == Mixed(seed1, seed2)
  {
    Halves(Carry(A1, seed % WORD), Carry(A2, seed / WORD));
    hide Mixed;
  }

  lemma NumberIs(entropy: nat -> RandomValue, k: nat)
    ensures var seed := SeedAt(entropy, k); SeedAt(entropy, k + 1) == Next(if seed == 0 then entropy(k) else seed)
    ensures NumberAt(entropy, k) == Output(SeedAt(entropy, k + 1))
  {
    hide Next, Output;
  }

  lemma ScaledLog(mean: real, u: real, ln: real -> real)
    requires mean >= 0.0 && 0.0 < u < 1.0 && NegativeBelowOne(ln)
    ensures -mean * ln(1.0 - u) >= 0.0
    ensures mean > 0.0 ==> -mean * ln(1.0 - u) > 0.0
  {
    var l := ln(1.0 - u);
    assert l < 0.0;
    assert mean * l <= 0.0;
  }
}
