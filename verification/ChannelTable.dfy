/** The channels of a cell as channel.c keeps them: packed words and a linked list of busy channels. */
module ChannelTable {
  import opened ChannelBits
  import opened Generator

  const CROSS_PATH_GAIN := 0.00000000000005
  const PATH_GAIN := 0.0000000001
  const MIN_POWER := 3.0
  const MAX_POWER := 3000.0
  const SIR_AIM := 10.0

  /** A busy channel with its fading and power. */
  class Channel {
    const channelId: int
    var fading: real
    var power: real
    var next: Channel?
    var prev: Channel?

    constructor (id: int, behind: Channel?)
      ensures channelId == id && next == null && prev == behind
    {
      channelId := id;
      fading, power := 0.0, 0.0;
      next, prev := null, behind;
    }
  }

  function NodeAt(chain: seq<Channel>, i: int): Channel? {
    if 0 <= i < |chain| then chain[i] else null
  }

  ghost function Nodes(chain: seq<Channel>): set<Channel> {
    set i | 0 <= i < |chain| :: chain[i]
  }

  ghost function Ids(chain: seq<Channel>): set<int> {
    set i | 0 <= i < |chain| :: chain[i].channelId
  }

  ghost predicate DistinctIds(chain: seq<Channel>) {
    forall i, j | 0 <= i < j < |chain| :: chain[i].channelId != chain[j].channelId
  }

  ghost predicate Wired(chain: seq<Channel>, i: int)
    requires 0 <= i < |chain|
    reads Nodes(chain)`prev, Nodes(chain)`next
  {
    chain[i].prev == NodeAt(chain, i + 1) && chain[i].next == NodeAt(chain, i - 1)
  }

  /** `prev` leads down the chain from its head and `next` leads back up; both end in null. */
  ghost predicate Linked(head: Channel?, chain: seq<Channel>)
    reads Nodes(chain)`prev, Nodes(chain)`next
  {
    head == NodeAt(chain, 0) && forall i | 0 <= i < |chain| :: Wired(chain, i)
  }

  /** Where `n` steps along `prev` lead. */
  ghost function Walk(c: Channel?, n: nat, nodes: set<Channel>): Channel?
    reads nodes
  {
    if n == 0 || c == null || c !in nodes then c else Walk(c.prev, n - 1, nodes)
  }

  /** Walking down visits the chain in order and ends in null after its last node. */
  lemma {:induction false} WalkEnds(head: Channel?, chain: seq<Channel>, n: nat, i: nat)
    requires Linked(head, chain) && i + n <= |chain|
    ensures Walk(NodeAt(chain, i), n, Nodes(chain)) == NodeAt(chain, i + n)
  {
    if n > 0 {
      assert Wired(chain, i) && chain[i] in Nodes(chain);
      WalkEnds(head, chain, n - 1, i + 1);
    }
  }

  /** The list is acyclic, and `next` and `prev` undo each other. */
  lemma MutuallyInverse(head: Channel?, chain: seq<Channel>)
    requires Linked(head, chain)
    ensures Walk(head, |chain|, Nodes(chain)) == null
    ensures forall c | c in Nodes(chain) && c.prev != null :: c.prev in Nodes(chain) && c.prev.next == c
    ensures forall c | c in Nodes(chain) && c.next != null :: c.next in Nodes(chain) && c.next.prev == c
  {
    WalkEnds(head, chain, |chain|, 0);
    forall i | 0 <= i < |chain|
      ensures chain[i].prev != null ==> chain[i].prev in Nodes(chain) && chain[i].prev.next == chain[i]
      ensures chain[i].next != null ==> chain[i].next in Nodes(chain) && chain[i].next.prev == chain[i]
    {
      assert Wired(chain, i);
      if i > 0 { assert Wired(chain, i - 1); }
      if i + 1 < |chain| { assert Wired(chain, i + 1); }
    }
  }

  ghost predicate PowersOk(chain: seq<Channel>)
    reads Nodes(chain)`power
  {
    forall i | 0 <= i < |chain| :: MIN_POWER <= chain[i].power <= MAX_POWER
  }

  ghost function Powers(chain: seq<Channel>): (p: seq<real>)
    reads Nodes(chain)`power
    ensures |p| == |chain| && forall i :: 0 <= i < |p| ==> p[i] == chain[i].power
  {
    if chain == [] then []
    else
      var n := |chain| - 1;
      assert Nodes(chain[..n]) <= Nodes(chain);
      Powers(chain[..n]) + [chain[n].power]
  }

  ghost predicate Faded(chain: seq<Channel>, n: nat)
    requires n <= |chain|
    reads Nodes(chain)`fading
  {
    forall i | 0 <= i < n :: chain[i].fading > 0.0
  }

  ghost predicate Positive(f: real -> real) {
    forall x: real :: f(x) > 0.0
  }

  /** How many numbers an allocation draws when `b` channels are busy: two for the interference of each,
      two for the power if there is any, and one for each fading that is drawn again. */
  function TakenByAllocation(b: nat): nat {
    2 * b + (if b == 0 then 0 else 2) + (b + 1)
  }

  lemma {:induction false} IdsSize(chain: seq<Channel>)
    requires DistinctIds(chain)
    ensures |Ids(chain)| == |chain|
  {
    hide Ids, DistinctIds;
    if chain == [] {
      NoIds();
    } else {
      IdsOfLast(chain);
      IdsSize(chain[..|chain| - 1]);
    }
  }

  lemma NoIds()
    ensures Ids([]) == {}
  {
  }

  lemma IdsOfLast(chain: seq<Channel>)
    requires chain != [] && DistinctIds(chain)
    ensures var rest, last := chain[..|chain| - 1], chain[|chain| - 1].channelId;
            DistinctIds(rest) && last !in Ids(rest) && Ids(chain) == Ids(rest) + {last}
  {
    var rest, last := chain[..|chain| - 1], chain[|chain| - 1].channelId;
    forall id | id in Ids(chain) ensures id in Ids(rest) + {last} {
      var i :| 0 <= i < |chain| && chain[i].channelId == id;
      if i < |rest| { assert rest[i].channelId == id; }
    }
    forall id | id in Ids(rest) + {last} ensures id in Ids(chain) {
      if id in Ids(rest) {
        var i :| 0 <= i < |rest| && rest[i].channelId == id;
        assert chain[i].channelId == id;
      }
    }
  }

  /** `id` is the least channel not in `busy`. */
  ghost predicate LeastFree(id: int, busy: set<int>) {
    0 <= id < CHANNELS_PER_CELL && id !in busy && forall j :: 0 <= j < id ==> j in busy
  }

  /** The channels below `n`. */
  ghost function UpTo(n: nat): (s: set<int>)
    ensures |s| == n && forall i :: i in s <==> 0 <= i < n
  {
    if n == 0 then {} else UpTo(n - 1) + {n - 1}
  }

  class Channels {
    const channelState: array<Word>
    var channels: Channel?
    const rng: Random
    const ln: real -> real
    const pow10: real -> real

    /** The list as it stands, newest channel first. */
    ghost var chain: seq<Channel>

    ghost predicate Settings()
      reads this
    {
      channelState.Length == WORDS && NegativeBelowOne(ln) && Positive(pow10)
    }

    ghost function Words(): (w: seq<Word>)
      requires Settings()
      reads this, channelState
      ensures |w| == USED_WORDS
    {
      channelState[..USED_WORDS]
    }

    ghost predicate ListOk()
      reads this, Nodes(chain)`prev, Nodes(chain)`next
    {
      Linked(channels, chain) && DistinctIds(chain) && Ids(chain) <= UpTo(CHANNELS_PER_CELL)
    }

    ghost predicate Valid()
      reads this, chain, channelState
    {
      Settings() && ListOk() && PowersOk(chain) && Faded(chain, |chain|) && SetBits(Words()) == Ids(chain)
    }

    /** Number `k` of the thread, and the fading drawn with it. */
    ghost function Number(k: nat): real {
      NumberAt(rng.entropy, k)
    }

    ghost function Fade(k: nat): real {
      ExpentOf(1.0, Number(k), ln)
    }

    /** Every channel's fading was drawn anew, from number `k` on. */
    ghost predicate FadedFrom(k: nat)
      reads this, Nodes(chain)`fading
    {
      forall i :: 0 <= i < |chain| ==> chain[i].fading == Fade(k + i)
    }

    /** The number that comes next once an allocation begun at number `k`, with `b` channels busy, has
        given the new one its power. */
    ghost function AfterPower(k: nat, b: nat): nat {
      k + 2 * b + if b == 0 then 0 else 2
    }

    /** A gain of up to ten times `scale`. */
    ghost function GainOf(scale: real, k: nat): real {
      scale * pow10(Number(k))
    }

    /** The interference of channels of these powers, each with a fading and a gain of its own, from
        number `k` on. */
    ghost function InterferenceOf(powers: seq<real>, k: nat): real {
      if powers == [] then 0.0
      else
        var n := |powers| - 1;
        InterferenceOf(powers[..n], k) + GainOf(CROSS_PATH_GAIN, k + 2 * n + 1) * powers[n] * Fade(k + 2 * n)
    }

    /** The power brings the signal to ten times the interference, or as near as its limits allow; the
        least power if there is none. */
    ghost predicate Fits(power: real, interference: real, k: nat) {
      var signal := power * (GainOf(PATH_GAIN, k + 1) * Fade(k));
      if interference == 0.0 then power == MIN_POWER
      else
        && MIN_POWER <= power <= MAX_POWER
        && (power > MIN_POWER ==> signal <= 10.0 * interference)
        && (power < MAX_POWER ==> signal >= 10.0 * interference)
    }

    ghost function Busy(): set<int>
      reads this
    {
      Ids(chain)
    }

    constructor (rng: Random, ln: real -> real, pow10: real -> real)
      requires NegativeBelowOne(ln) && Positive(pow10)
      ensures Valid() && chain == [] && Busy() == {} && fresh(channelState) && this.rng == rng
    {
      channelState := new Word[WORDS];
      channels, chain := null, [];
      this.rng, this.ln, this.pow10 := rng, ln, pow10;
      new;
      hide SetBits;
      ClearWords();
    }

    method ClearWords()
      requires Settings()
      modifies channelState
      ensures SetBits(Words()) == {}
    {
      for i := 0 to CHANNELS_PER_CELL / BITS + 1
        invariant forall j :: 0 <= j < i ==> channelState[j] == Word(0)
      {
        channelState[i] := Word(0);
      }
      NoBits(Words());
    }


    /** Expent(1.0). */
    method Fading() returns (x: real)
      requires Settings() && rng.Valid()
      modifies rng
      ensures x > 0.0 && x == Fade(old(rng.drawn)) && rng.Valid() && rng.drawn == old(rng.drawn) + 1
    {
      hide NumberAt, SeedAt, ExpentOf;
      var e := rng.Expent(1.0, ln);
      x := e.value;
    }

    /** generate_path_gain and generate_cross_path_gain. */
    method Gain(scale: real) returns (g: real)
      requires Settings() && scale > 0.0 && rng.Valid()
      modifies rng
      ensures g > 0.0 && g == GainOf(scale, old(rng.drawn)) && rng.Valid() && rng.drawn == old(rng.drawn) + 1
    {
      hide NumberAt, SeedAt;
      var variation := rng.Draw();
      variation := 10.0 * variation;
      variation := pow10(variation / 10.0);
      g := scale * variation;
    }

    method CheckChannel(i: nat) returns (busy: bool)
      requires Settings() && i < CHANNELS_PER_CELL
      ensures busy <==> i in SetBits(Words())
    {
      busy := Has(channelState[i / BITS], i % BITS);
    }

    method SetChannel(i: nat)
      requires Settings() && i < CHANNELS_PER_CELL
      modifies channelState
      ensures SetBits(Words()) == SetBits(old(Words())) + {i}
    {
      hide SetBits, With;
      SetAndReset(Words(), i);
      channelState[i / BITS] := With(channelState[i / BITS], i % BITS);
      assert Words() == WithBit(old(Words()), i);
    }

    method ResetChannel(i: nat)
      requires Settings() && i < CHANNELS_PER_CELL
      modifies channelState
      ensures SetBits(Words()) == SetBits(old(Words())) - {i}
    {
      hide SetBits, Without;
      SetAndReset(Words(), i);
      channelState[i / BITS] := Without(channelState[i / BITS], i % BITS);
      assert Words() == WithoutBit(old(Words()), i);
    }

    method FadingRecheck()
      requires Settings() && ListOk() && rng.Valid()
      modifies rng, Nodes(chain)`fading
      ensures Faded(chain, |chain|) && rng.Valid() && rng.drawn == old(rng.drawn) + |chain|
      ensures FadedFrom(old(rng.drawn))
    {
      hide Ids, UpTo, SeedAt, NumberAt, ExpentOf;
      var ch := channels;
      ghost var k := 0;
      while ch != null
        invariant 0 <= k <= |chain| && ch == NodeAt(chain, k)
        invariant Faded(chain, k) && rng.Valid() && rng.drawn == old(rng.drawn) + k
        invariant forall i :: 0 <= i < k ==> chain[i].fading == Fade(old(rng.drawn) + i)
        decreases |chain| - k
      {
        assert Wired(chain, k);
        ch.fading := Fading();
        ch := ch.prev;
        k := k + 1;
      }
    }

    /** The least free channel, or -1. */
    method FindFree() returns (index: int)
      requires Settings()
      ensures index == -1 ==> UpTo(CHANNELS_PER_CELL) <= SetBits(Words())
      ensures index != -1 ==> LeastFree(index, SetBits(Words()))
    {
      index := -1;
      for i := 0 to CHANNELS_PER_CELL
        invariant forall j :: 0 <= j < i ==> j in SetBits(Words())
      {
        var busy := CheckChannel(i);
        if !busy {
          return i;
        }
      }
    }

    method Contribution(ch: Channel) returns (x: real)
      requires Settings() && ch.power > 0.0 && rng.Valid()
      modifies rng, ch`fading
      ensures x > 0.0 && rng.Valid() && rng.drawn == old(rng.drawn) + 2
      ensures x == GainOf(CROSS_PATH_GAIN, old(rng.drawn) + 1) * ch.power * Fade(old(rng.drawn))
    {
      hide SeedAt, Fade, GainOf;
      ch.fading := Fading();
      var gain := Gain(CROSS_PATH_GAIN);
      PositiveProduct(gain, ch.power, ch.fading);
      x := gain * ch.power * ch.fading;
    }

    /** Interference of the other channels, whose fading is drawn anew. */
    method Interference() returns (summ: real)
      requires Settings() && ListOk() && chain != [] && PowersOk(chain[1..]) && rng.Valid()
      modifies rng, Nodes(chain)`fading
      ensures if |chain| == 1 then summ == 0.0 else summ > 0.0
      ensures rng.Valid() && rng.drawn == old(rng.drawn) + 2 * (|chain| - 1)
      ensures summ == InterferenceOf(old(Powers(chain[1..])), old(rng.drawn))
    {
      hide DistinctIds, Ids, UpTo, SeedAt, Fade, GainOf, InterferenceOf, Powers, PowersOk;
      ghost var powers := OtherPowers(chain);
      NoInterference(rng.drawn);
      summ := 0.0;
      assert Wired(chain, 0);
      var ch := channels.prev;
      ghost var k := 1;
      while ch != null
        invariant 1 <= k <= |chain| && ch == NodeAt(chain, k)
        invariant if k == 1 then summ == 0.0 else summ > 0.0
        invariant rng.Valid() && rng.drawn == old(rng.drawn) + 2 * (k - 1)
        invariant summ == InterferenceOf(powers[..k - 1], old(rng.drawn))
        decreases |chain| - k
      {
        assert Wired(chain, k) && ch.power == powers[k - 1];
        AddsUp(powers, k - 1, old(rng.drawn));
        var x := Contribution(ch);
        summ := summ + x;
        ch := ch.prev;
        k := k + 1;
      }
      assert powers[..k - 1] == powers;
    }

    lemma NoInterference(k: nat)
      ensures InterferenceOf([], k) == 0.0
    {
    }

    lemma AddsUp(powers: seq<real>, i: nat, k: nat)
      requires i < |powers|
      ensures InterferenceOf(powers[..i + 1], k) ==
              InterferenceOf(powers[..i], k) + GainOf(CROSS_PATH_GAIN, k + 2 * i + 1) * powers[i] * Fade(k + 2 * i)
    {
      hide Fade, GainOf;
      var more := powers[..i + 1];
      assert more[..|more| - 1] == powers[..i] && more[|more| - 1] == powers[i];
    }

    /** The power a new channel gets, clamped to its limits. */
    method SetPower(c: Channel, summ: real)
      requires Settings() && summ >= 0.0 && rng.Valid()
      modifies rng, c`fading, c`power
      ensures MIN_POWER <= c.power <= MAX_POWER && Fits(c.power, summ, old(rng.drawn))
      ensures summ == 0.0 ==> rng.Valid() && rng.drawn == old(rng.drawn)
      ensures summ > 0.0 ==> rng.Valid() && rng.drawn == old(rng.drawn) + 2
    {
      hide SeedAt, Fade, GainOf, Fits;
      NothingToReach(old(rng.drawn));
      if summ == 0.0 {
        c.power := MIN_POWER;
      } else {
        c.fading := Fading();
        var gain := Gain(PATH_GAIN);
        PositiveProduct(gain, c.fading, 1.0);
        c.power := (SIR_AIM * summ) / (gain * c.fading);
        Aimed(summ, gain, c.fading, c.power, old(rng.drawn));
        if c.power < MIN_POWER { c.power := MIN_POWER; }
        if c.power > MAX_POWER { c.power := MAX_POWER; }
      }
    }

    lemma NothingToReach(k: nat)
      ensures Fits(MIN_POWER, 0.0, k)
    {
    }

    /** The power aimed at, within the limits. */
    lemma Aimed(summ: real, gain: real, fading: real, aim: real, k: nat)
      requires summ > 0.0 && gain > 0.0 && fading > 0.0 && gain * fading != 0.0
      requires gain == GainOf(PATH_GAIN, k + 1) && fading == Fade(k)
      requires aim == (SIR_AIM * summ) / (gain * fading)
      ensures Fits(if aim < MIN_POWER then MIN_POWER else if aim > MAX_POWER then MAX_POWER else aim, summ, k)
    {
      hide GainOf, Fade;
      PositiveProduct(gain, fading, 1.0);
      Monotone(summ, gain * fading, aim, MIN_POWER);
      Monotone(summ, gain * fading, aim, MAX_POWER);
      Monotone(summ, gain * fading, aim, aim);
    }

    /** Take the least free channel and put it at the head of the list; -1 stands for the abort,
        and happens only when every channel is busy. */
    method Allocation() returns (index: int)
      requires Valid() && rng.Valid()
      modifies this`channels, this`chain, channelState, rng, Nodes(chain)`fading, Nodes(chain)`next
      ensures Valid()
      ensures rng.Valid() && rng.drawn == old(rng.drawn) + if index == -1 then 0 else TakenByAllocation(|old(Busy())|)
      ensures index == -1 ==> Busy() == old(Busy()) == UpTo(CHANNELS_PER_CELL) && chain == old(chain)
      ensures index != -1 ==>
                && LeastFree(index, old(Busy())) && Busy() == old(Busy()) + {index}
                && |chain| == |old(chain)| + 1 && fresh(chain[0]) && chain[1..] == old(chain)
                && chain[0].channelId == index
      ensures index != -1 ==>
                && Fits(chain[0].power, InterferenceOf(old(Powers(chain)), old(rng.drawn)),
                        old(rng.drawn) + 2 * |old(chain)|)
                && FadedFrom(AfterPower(old(rng.drawn), |old(chain)|))
      ensures fresh(Nodes(chain) - old(Nodes(chain)))
    {
      hide SetBits, Ids, DistinctIds, Linked, UpTo, PowersOk, Faded, SeedAt, TakenByAllocation;
      hide Fits, InterferenceOf, Powers, Fade;
      BusySize();
      index := FindFree();
      if index == -1 {
        assert Busy() == UpTo(CHANNELS_PER_CELL);
        return;
      }
      SetChannel(index);
      PushHead(index);
      assert PowersOk(chain[1..]);
      Tune();
    }

    /** Give the newest channel its power, and draw all fading again. */
    method Tune()
      requires Settings() && ListOk() && chain != [] && PowersOk(chain[1..]) && rng.Valid()
      modifies rng, Nodes(chain)`fading, channels`power
      ensures PowersOk(chain) && Faded(chain, |chain|)
      ensures rng.Valid() && rng.drawn == old(rng.drawn) + TakenByAllocation(|chain| - 1)
      ensures Fits(chain[0].power, InterferenceOf(old(Powers(chain[1..])), old(rng.drawn)),
                   old(rng.drawn) + 2 * (|chain| - 1))
      ensures FadedFrom(AfterPower(old(rng.drawn), |chain| - 1))
    {
      hide Ids, DistinctIds, Linked, UpTo, PowersOk, Faded, SeedAt, ListOk, Settings;
      hide Fits, InterferenceOf, Powers, Fade;
      HeadIs();
      var summ := Interference();
      SetPower(channels, summ);
      PowersOfPush(chain);
      FadingRecheck();
    }

    lemma HeadIs()
      requires ListOk() && chain != []
      ensures channels == chain[0] && channels in Nodes(chain) && channels !in Nodes(chain[1..])
    {
    }

    lemma BusySize()
      requires ListOk()
      ensures |Busy()| == |chain|
    {
      IdsSize(chain);
    }

    method PushHead(index: int)
      requires Settings() && ListOk() && LeastFree(index, Ids(chain))
      modifies this`channels, this`chain, Nodes(chain)`next
      ensures ListOk() && |chain| == |old(chain)| + 1 && chain[1..] == old(chain)
      ensures channels == chain[0] && channels.channelId == index && fresh(channels)
      ensures Ids(chain) == Ids(old(chain)) + {index}
    {
      var c := new Channel(index, channels);
      IdsOfPush(c, chain);
      hide Ids, DistinctIds, Linked, UpTo;
      Attach(c);
    }

    method Attach(c: Channel)
      requires Linked(channels, chain) && DistinctIds(chain) && c !in chain && c.next == null && c.prev == channels
      modifies this`channels, this`chain, Nodes(chain)`next
      ensures Linked(channels, chain) && chain == [c] + old(chain)
    {
      ghost var was := chain;
      label Before:
      if channels != null {
        channels.next := c;
      }
      channels := c;
      chain := [c] + chain;
      forall i | 0 <= i < |chain| ensures Wired(chain, i) {
        if i > 0 { assert old@Before(Wired(was, i - 1)); }
      }
    }

    /** Remove the channel from the list and free it; false stands for the abort, and happens only
        when the channel is not busy. */
    method Deallocation(ch: int) returns (ok: bool)
      requires Valid() && rng.Valid()
      modifies this`channels, this`chain, channelState, rng, Nodes(chain)`fading, Nodes(chain)`next, Nodes(chain)`prev
      ensures Valid()
      ensures rng.Valid() && rng.drawn == old(rng.drawn) + if ok then |Busy()| else 0
      ensures ok ==> FadedFrom(old(rng.drawn))
      ensures ok <==> ch in old(Busy())
      ensures !ok ==> chain == old(chain)
      ensures ok ==> Busy() == old(Busy()) - {ch}
      ensures ok ==> exists k :: 0 <= k < |old(chain)| && old(chain)[k].channelId == ch && chain == Omit(old(chain), k)
      ensures Nodes(chain) <= old(Nodes(chain))
    {
      hide SetBits, Ids, DistinctIds, Linked, UpTo, PowersOk, Faded, FadedFrom, Omit, SeedAt;
      ghost var k;
      var c;
      c, k := Find(ch);
      ok := c != null;
      if !ok {
        return;
      }
      ghost var was := chain;
      IdsOfOmit(chain, k);
      Unlink(c, k);
      NodesOfOmit(was, k);
      ResetChannel(ch);
      FadingRecheck();
      BusySize();
    }

    /** Walk down the list until the channel is found. */
    method Find(ch: int) returns (c: Channel?, ghost k: nat)
      requires Linked(channels, chain)
      ensures c == null <==> ch !in Ids(chain)
      ensures c != null ==> k < |chain| && chain[k] == c && c.channelId == ch
    {
      c, k := channels, 0;
      while c != null
        invariant k <= |chain| && c == NodeAt(chain, k)
        invariant forall i :: 0 <= i < k ==> chain[i].channelId != ch
        decreases |chain| - k
      {
        if c.channelId == ch {
          break;
        }
        assert Wired(chain, k);
        c := c.prev;
        k := k + 1;
      }
    }

    /** Take the node out, wherever it is. */
    method Unlink(c: Channel, ghost k: nat)
      requires Linked(channels, chain) && DistinctIds(chain) && k < |chain| && chain[k] == c
      modifies this`channels, this`chain, Nodes(chain)`next, Nodes(chain)`prev
      ensures Linked(channels, chain) && chain == Omit(old(chain), k)
    {
      ghost var was := chain;
      label Before:
      assert Wired(chain, 0) && Wired(chain, k);
      if c == channels {
        channels := c.prev;
        if channels != null {
          channels.next := null;
        }
      } else {
        if c.next != null {
          c.next.prev := c.prev;
        }
        if c.prev != null {
          c.prev.next := c.next;
        }
      }
      chain := Omit(chain, k);
      OmitAt(was, k, 0);
      forall i | 0 <= i < |chain| ensures Wired(chain, i) {
        OmitAt(was, k, i - 1);
        OmitAt(was, k, i);
        OmitAt(was, k, i + 1);
        assert old@Before(Wired(was, if i < k then i else i + 1));
      }
    }
  }

  lemma PositiveProduct(a: real, b: real, c: real)
    requires a > 0.0 && b > 0.0 && c > 0.0
    ensures a * b * c > 0.0 && a * b > 0.0
  {
    assert a * b > 0.0;
  }

  lemma OtherPowers(chain: seq<Channel>) returns (powers: seq<real>)
    requires chain != [] && PowersOk(chain[1..])
    ensures powers == Powers(chain[1..]) && |powers| == |chain| - 1
    ensures forall i :: 0 <= i < |powers| ==> powers[i] == chain[i + 1].power && powers[i] > 0.0
  {
    powers := Powers(chain[1..]);
    assert forall i :: 0 <= i < |powers| ==> chain[1..][i] == chain[i + 1];
  }

  /** A power below the one aimed at gives less signal, one above it more. */
  lemma Monotone(summ: real, loss: real, aim: real, p: real)
    requires loss > 0.0 && aim == (SIR_AIM * summ) / loss
    ensures (p <= aim ==> p * loss <= 10.0 * summ) && (p >= aim ==> p * loss >= 10.0 * summ)
  {
    assert aim * loss == 10.0 * summ;
    if p <= aim { assert (aim - p) * loss >= 0.0; }
    if p >= aim { assert (p - aim) * loss >= 0.0; }
  }

  lemma PowersOfPush(chain: seq<Channel>)
    requires chain != [] && PowersOk(chain[1..]) && MIN_POWER <= chain[0].power <= MAX_POWER
    ensures PowersOk(chain)
  {
    assert forall i | 0 < i < |chain| :: chain[i] == chain[1..][i - 1];
  }

  lemma NodesOfOmit(chain: seq<Channel>, k: nat)
    requires k < |chain| && PowersOk(chain)
    ensures Nodes(Omit(chain, k)) <= Nodes(chain) && PowersOk(Omit(chain, k))
  {
  }

  lemma IdsOfPush(c: Channel, was: seq<Channel>)
    requires DistinctIds(was) && c.channelId !in Ids(was)
    ensures Ids([c] + was) == Ids(was) + {c.channelId} && DistinctIds([c] + was)
  {
    var chain := [c] + was;
    assert forall i :: 0 < i < |chain| ==> chain[i] == was[i - 1];
    forall id | id in Ids(was) ensures id in Ids(chain) {
      var i :| 0 <= i < |was| && was[i].channelId == id;
      assert chain[i + 1].channelId == id;
    }
    assert chain[0].channelId in Ids(chain);
  }

  ghost function Omit(chain: seq<Channel>, k: nat): seq<Channel>
    requires k < |chain|
  {
    chain[..k] + chain[k + 1..]
  }

  /** Element `i` of a chain without its element `k`. */
  lemma OmitAt(chain: seq<Channel>, k: nat, i: int)
    requires k < |chain|
    ensures NodeAt(Omit(chain, k), i) == if i < k then NodeAt(chain, i) else NodeAt(chain, i + 1)
  {
  }

  lemma IdsOfOmit(chain: seq<Channel>, k: nat)
    requires k < |chain| && DistinctIds(chain)
    ensures Ids(Omit(chain, k)) == Ids(chain) - {chain[k].channelId} && DistinctIds(Omit(chain, k))
  {
    var rest := Omit(chain, k);
    forall i | 0 <= i < |rest| ensures rest[i] == chain[if i < k then i else i + 1] { OmitAt(chain, k, i); }
    forall id | id in Ids(chain) && id != chain[k].channelId ensures id in Ids(rest) {
      var i :| 0 <= i < |chain| && chain[i].channelId == id;
      var j := if i < k then i else i - 1;
      assert rest[j] == chain[i];
    }
    forall id | id in Ids(rest) ensures id in Ids(chain) && id != chain[k].channelId {
      var j :| 0 <= j < |rest| && rest[j].channelId == id;
      var i := if j < k then j else j + 1;
      assert rest[j] == chain[i];
    }
  }
}
