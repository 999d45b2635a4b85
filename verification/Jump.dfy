/** set_jmp and long_jmp of jmp.S on a machine of 64-bit registers, status flags, FPU state and memory. */
module Jump {

  datatype Flags = Flags(sf: bool, zf: bool, af: bool, pf: bool, cf: bool, ovf: bool)

  /** Memory holds quadwords at addresses divisible by 8. */
  type Memory = map<int, int>

  datatype State = State(
    rax: int, rdx: int, rcx: int, rbx: int, rsp: int, rbp: int, rsi: int, rdi: int,
    r8: int, r9: int, r10: int, r11: int, r12: int, r13: int, r14: int, r15: int,
    rip: int, flags: Flags, fpu: seq<int>, mem: Memory)

  /** The context buffer read back, field by field; `others` is the FXSAVE block. */
  datatype Context = Context(
    rax: int, rdx: int, rcx: int, rbx: int, rsp: int, rbp: int, rsi: int, rdi: int,
    r8: int, r9: int, r10: int, r11: int, r12: int, r13: int, r14: int, r15: int,
    rip: int, flags: int, others: seq<int>)

  const FX_QUADS := 64
  const FX_OFFSET := 144
  const BUFFER_QUADS := 82
  const BUFFER_SIZE := 656

  function Read(mem: Memory, a: int): int {
    if a in mem then mem[a] else 0
  }

  function ReadQuads(mem: Memory, a: int, n: nat): (s: seq<int>)
    ensures |s| == n && forall i :: 0 <= i < n ==> s[i] == Read(mem, a + 8 * i)
  {
    seq(n, i requires 0 <= i < n => Read(mem, a + 8 * i))
  }

  function WriteQuads(mem: Memory, a: int, s: seq<int>): (r: Memory)
    ensures ReadQuads(r, a, |s|) == s
    ensures forall b | !(a <= b < a + 8 * |s|) :: Read(r, b) == Read(mem, b)
    decreases |s|
  {
    if s == [] then mem
    else
      var n := |s| - 1;
      var m := WriteQuads(mem, a, s[..n]);
      assert ReadQuads(m, a, n) == s[..n];
      m[a + 8 * n := s[n]]
  }

  /** The 82 quadwords of a context buffer. */
  function Buffer(mem: Memory, env: int): (b: seq<int>)
    ensures |b| == BUFFER_QUADS
  {
    ReadQuads(mem, env, BUFFER_QUADS)
  }

  function Load(mem: Memory, env: int): Context {
    var b := Buffer(mem, env);
    Context(b[0], b[1], b[2], b[3], b[4], b[5], b[6], b[7], b[8], b[9], b[10], b[11], b[12], b[13], b[14], b[15],
            b[16], b[17], b[18..])
  }

  lemma Fields(mem: Memory, env: int)
    ensures Load(mem, env) == Context(
              Read(mem, env), Read(mem, env + 8), Read(mem, env + 16), Read(mem, env + 24),
              Read(mem, env + 32), Read(mem, env + 40), Read(mem, env + 48), Read(mem, env + 56),
              Read(mem, env + 64), Read(mem, env + 72), Read(mem, env + 80), Read(mem, env + 88),
              Read(mem, env + 96), Read(mem, env + 104), Read(mem, env + 112), Read(mem, env + 120),
              Read(mem, env + 128), Read(mem, env + 136), ReadQuads(mem, env + FX_OFFSET, FX_QUADS))
  {
    hide Read;
    assert Buffer(mem, env)[18..] == ReadQuads(mem, env + FX_OFFSET, FX_QUADS);
  }

  // ---------------------------------------------------------------- flags in rax

  function Bit(b: bool, value: int): int {
    if b then value else 0
  }

  /** What `lahf` puts into bits 8 to 15: SF ZF 0 AF 0 PF 1 CF. */
  function FlagByte(f: Flags): int {
    Bit(f.sf, 128) + Bit(f.zf, 64) + Bit(f.af, 16) + Bit(f.pf, 4) + 2 + Bit(f.cf, 1)
  }

  function WithAh(x: int, b: int): int {
    (x / 65536) * 65536 + b * 256 + x % 256
  }

  function WithAl(x: int, b: int): int {
    (x / 256) * 256 + b
  }

  /** `lahf` followed by `seto %al`. */
  function FlagWord(rax: int, f: Flags): int {
    WithAl(WithAh(rax, FlagByte(f)), Bit(f.ovf, 1))
  }

  /** `addb $0x7f, %al`: signed overflow happens exactly when a byte from 1 to 0x7f was there. */
  function AddOverflows(al: int): bool {
    var signed := if al >= 128 then al - 256 else al;
    signed + 127 > 127
  }

  function FlagsFrom(ah: int, overflow: bool): Flags {
    Flags((ah / 128) % 2 == 1, (ah / 64) % 2 == 1, (ah / 16) % 2 == 1, (ah / 4) % 2 == 1, ah % 2 == 1, overflow)
  }

  /** `addb` then `sahf` on the saved word. */
  function RestoredFlags(word: int): Flags {
    FlagsFrom((word / 256) % 256, AddOverflows(word % 256))
  }

  /** The flags `sahf` takes are the bits of the byte that make it up together with the three it ignores;
      the addition overflows exactly for a positive byte. */
  lemma StatusBits(ah: int, al: int)
    requires 0 <= ah < 256 && 0 <= al < 256
    ensures var f := FlagsFrom(ah, AddOverflows(al));
            && ah == Bit(f.sf, 128) + Bit(f.zf, 64) + (ah / 32) % 2 * 32 + Bit(f.af, 16) + (ah / 8) % 2 * 8
                     + Bit(f.pf, 4) + (ah / 2) % 2 * 2 + Bit(f.cf, 1)
            && (f.ovf <==> 1 <= al <= 127)
  {
    BinaryDigits(ah);
    DigitOf(ah / 128);
    DigitOf(ah / 64);
    DigitOf(ah / 16);
    DigitOf(ah / 4);
    DigitOf(ah);
  }

  lemma DigitOf(x: int)
    ensures x % 2 == 0 || x % 2 == 1
  {
  }

  lemma BinaryDigits(x: int)
    requires 0 <= x < 256
    ensures x == (x / 128) % 2 * 128 + (x / 64) % 2 * 64 + (x / 32) % 2 * 32 + (x / 16) % 2 * 16 + (x / 8) % 2 * 8
                 + (x / 4) % 2 * 4 + (x / 2) % 2 * 2 + x % 2
  {
    Nested(x);
    Digits(x, x / 2, x / 4, x / 8, x / 16, x / 32, x / 64, x / 128);
  }

  lemma Nested(x: int)
    ensures x / 4 == x / 2 / 2 && x / 8 == x / 4 / 2 && x / 16 == x / 8 / 2
    ensures x / 32 == x / 16 / 2 && x / 64 == x / 32 / 2 && x / 128 == x / 64 / 2
  {
  }

  lemma Digits(a: int, b: int, c: int, d: int, e: int, f: int, g: int, h: int)
    requires b == a / 2 && c == b / 2 && d == c / 2 && e == d / 2 && f == e / 2 && g == f / 2 && h == g / 2
    requires 0 <= h < 2
    ensures a == h % 2 * 128 + g % 2 * 64 + f % 2 * 32 + e % 2 * 16 + d % 2 * 8 + c % 2 * 4 + b % 2 * 2 + a % 2
  {
  }

  /** All six status flags come back, OF rebuilt by the addition; it is saved as a low byte of one. */
  lemma FlagsRoundTrip(rax: int, f: Flags)
    ensures RestoredFlags(FlagWord(rax, f)) == f
    ensures FlagWord(rax, f) % 256 == (if f.ovf then 1 else 0) && FlagWord(rax, f) / 65536 == rax / 65536
  {
    FlagByteBack(f);
    HighWord(rax, FlagByte(f), Bit(f.ovf, 1));
    WordBytes(rax, FlagByte(f), Bit(f.ovf, 1));
    hide FlagsFrom, FlagByte, WithAh, WithAl;
  }

  /** The low two bytes of a word are the ones put there. */
  lemma WordBytes(rax: int, ah: int, al: int)
    requires 0 <= ah < 256 && 0 <= al < 256
    ensures var w := WithAl(WithAh(rax, ah), al); w % 256 == al && (w / 256) % 256 == ah
  {
    var high := (rax / 65536) * 256 + ah;
    assert WithAh(rax, ah) == 256 * high + rax % 256;
    assert WithAh(rax, ah) / 256 == high;
    assert high % 256 == ah;
  }

  lemma HighWord(rax: int, ah: int, al: int)
    requires 0 <= ah < 256 && 0 <= al < 256
    ensures WithAl(WithAh(rax, ah), al) / 65536 == rax / 65536
  {
    assert WithAh(rax, ah) == 256 * ((rax / 65536) * 256 + ah) + rax % 256;
    assert WithAh(rax, ah) / 256 == (rax / 65536) * 256 + ah;
  }

  lemma FlagByteBack(f: Flags)
    ensures 0 <= FlagByte(f) < 256 && FlagsFrom(FlagByte(f), f.ovf) == f
    ensures (FlagByte(f) / 32) % 2 == 0 && (FlagByte(f) / 8) % 2 == 0 && (FlagByte(f) / 2) % 2 == 1
  {
    var ah := FlagByte(f);
    assert (ah / 128) % 2 == Bit(f.sf, 1);
    assert (ah / 64) % 2 == Bit(f.zf, 1);
  }

  // ---------------------------------------------------------------- what the two routines do

  /** `a` is not a quadword of the buffer at `env`. */
  predicate Outside(a: int, env: int) {
    a + 8 <= env || env + BUFFER_SIZE <= a
  }

  /** The stack slots set_jmp uses lie outside the buffer its argument names. */
  predicate SetJmpReady(s: State) {
    && s.rsp % 8 == 0 && s.rdi % 8 == 0 && |s.fpu| == FX_QUADS
    && Outside(s.rsp - 24, s.rdi) && Outside(s.rsp - 16, s.rdi) && Outside(s.rsp - 8, s.rdi)
    && Outside(s.rsp, s.rdi) && Outside(s.rsp + 8, s.rdi)
  }

  /** The state of a call, as the buffer is to hold it: the stack pointer one quadword below the
      return address, rdi as the macro pushed it. */
  function Captured(s: State): Context {
    Context(
      s.rax, s.rdx, s.rcx, s.rbx, s.rsp - 8, s.rbp, s.rsi, Read(s.mem, s.rsp + 8),
      s.r8, s.r9, s.r10, s.r11, s.r12, s.r13, s.r14, s.r15,
      Read(s.mem, s.rsp), FlagWord(s.rax, s.flags), s.fpu)
  }

  /** Entered with the return address on top of the stack and the pushed rdi above it. Control
      returns with 0 in rax, rdx and r11 used up; besides the buffer only the three slots below the
      return address change in memory. */
  ghost predicate SetJmpDone(s: State, s': State) {
    && s' == s.(rax := 0, rdx := FlagWord(s.rax, s.flags), r11 := Read(s.mem, s.rsp),
                rsp := s.rsp + 8, rip := Read(s.mem, s.rsp), flags := s'.flags, mem := s'.mem)
    && Load(s'.mem, s.rdi) == Captured(s)
    && forall a | Outside(a, s.rdi) && a % 8 == 0 && !(s.rsp - 24 <= a < s.rsp) :: Read(s'.mem, a) == Read(s.mem, a)
  }

  /** The two slots long_jmp writes lie outside the buffer. */
  predicate LongJmpReady(s: State) {
    var rsp := Read(s.mem, s.rdi + 32);
    s.rdi % 8 == 0 && rsp % 8 == 0 && Outside(rsp, s.rdi) && Outside(rsp + 8, s.rdi)
  }

  /** The state long_jmp leaves, read from the buffer. */
  function Resumed(s: State): State {
    var c := Load(s.mem, s.rdi);
    State(
      s.rsi, c.rdx, c.rcx, c.rbx, c.rsp + 16, c.rbp, c.rsi, c.rdi,
      c.r8, c.r9, c.r10, c.r11, c.r12, c.r13, c.r14, c.r15,
      c.rip, RestoredFlags(c.flags), c.others, s.mem[c.rsp + 8 := c.rip][c.rsp := s.rsi])
  }

  /** Whatever ran in between, as long as the buffer is intact: long_jmp resumes where set_jmp
      returned, on the same stack, with the registers, flags and FPU state of the call, rdi as the
      macro had pushed it, and rax the value passed. */
  lemma RoundTrip(s0: State, s1: State, s2: State)
    requires SetJmpDone(s0, s1)
    requires s2.rdi == s0.rdi && Load(s2.mem, s0.rdi) == Load(s1.mem, s0.rdi)
    ensures Resumed(s2) == s0.(
              rip := s1.rip, rsp := s1.rsp, rax := s2.rsi, rdi := Read(s0.mem, s0.rsp + 8), mem := Resumed(s2).mem)
  {
    FlagsRoundTrip(s0.rax, s0.flags);
    hide FlagWord, RestoredFlags, Load, Read;
  }

  /** Of memory it writes the return address back where it was and the value into the slot below, on the
      stack resumed, and nothing else. */
  lemma ResumedMemory(s0: State, s1: State, s2: State, a: int)
    requires SetJmpDone(s0, s1)
    requires s2.rdi == s0.rdi && Load(s2.mem, s0.rdi) == Load(s1.mem, s0.rdi)
    ensures var m := Resumed(s2).mem;
            && Read(m, s0.rsp) == s1.rip && Read(m, s0.rsp - 8) == s2.rsi
            && (a != s0.rsp && a != s0.rsp - 8 ==> Read(m, a) == Read(s2.mem, a))
  {
    hide FlagWord, RestoredFlags, Load;
  }

  /** context_switch passes the saved rax, so the resumed test `set_jmp(...) == 0` takes the saving
      branch again exactly when the low word of rax was zero at the call. */
  lemma ResumedTest(s0: State, s1: State, s2: State)
    requires SetJmpDone(s0, s1)
    requires s2.rdi == s0.rdi && Load(s2.mem, s0.rdi) == Load(s1.mem, s0.rdi)
    requires s2.rsi == Read(s2.mem, s2.rdi)
    ensures Resumed(s2).rax == s0.rax
    ensures Resumed(s2).rax % 0x1_0000_0000 == 0 <==> s0.rax % 0x1_0000_0000 == 0
  {
    Fields(s2.mem, s2.rdi);
  }

  // ---------------------------------------------------------------- the routines

  /** Store `x` in quadword `k` of the buffer at `env`; `m` is the memory before the buffer was touched. */
  function Put(ghost m: Memory, mem: Memory, env: int, k: nat, x: int): (r: Memory)
    requires env % 8 == 0 && k < BUFFER_QUADS && SameOutside(m, mem, env)
    ensures SameOutside(m, r, env)
    ensures Buffer(r, env) == Buffer(mem, env)[k := x]
  {
    mem[env + 8 * k := x]
  }

  method Push(s0: State, x: int) returns (s: State)
    ensures s == s0.(rsp := s0.rsp - 8, mem := s0.mem[s0.rsp - 8 := x])
  {
    s := s0.(rsp := s0.rsp - 8);
    s := s.(mem := s.mem[s.rsp := x]);
  }

  method SetJmp(start: State) returns (s: State)
    requires SetJmpReady(start)
    ensures SetJmpDone(start, s)
  {
    hide Load, Read, FlagWord, Buffer, ReadQuads, SameOutside, PushedOn, FlagByte;
    hide Outside, Captured, CallerSaved, RestSaved;
    s := PushState(start);
    ghost var m := s.mem;
    SlotsOutsideBuffer(start);
    s := SaveCaller(s);
    ghost var b1, s1 := Buffer(s.mem, s.rdi), s;
    s := SaveRest(m, s);
    CapturedWhole(start, m, b1, s1, s.mem);
    s := Leave(s);
  }

  /** Save rax, r11 and the status flags on the stack. */
  method PushState(start: State) returns (s: State)
    ensures s == start.(rax := FlagWord(start.rax, start.flags), rsp := start.rsp - 24, mem := s.mem)
    ensures PushedOn(start, s.mem)
  {
    s := Push(start, start.rax);
    s := Push(s, s.r11);
    s := s.(rax := WithAh(s.rax, FlagByte(s.flags)));
    s := s.(rax := WithAl(s.rax, Bit(s.flags.ovf, 1)));
    s := Push(s, s.rax);
    PushesKeep(start, s.rax);
  }

  /** Drop the three slots and return 0. */
  method Leave(s0: State) returns (s: State)
    ensures s == s0.(rsp := s0.rsp + 32, rax := 0, rip := Read(s0.mem, s0.rsp + 24), flags := s.flags)
  {
    s := s0.(rsp := s0.rsp + 24);
    s := s.(flags := Flags(false, true, s.flags.af, true, false, false));
    s := s.(rax := 0);
    s := s.(rip := Read(s.mem, s.rsp));
    s := s.(rsp := s.rsp + 8);
  }

  /** rax points to the context; store rax to rdi. */
  method SaveCaller(s0: State) returns (s: State)
    requires s0.rdi % 8 == 0 && s0.rsp % 8 == 0
    requires Outside(s0.rsp + 16, s0.rdi) && Outside(s0.rsp + 32, s0.rdi)
    ensures s == s0.(rax := s0.rdi, r11 := Read(s0.mem, s0.rsp + 32), mem := s.mem)
    ensures SameOutside(s0.mem, s.mem, s0.rdi)
    ensures CallerSaved(Buffer(s.mem, s0.rdi), s0)
  {
    ghost var m := s0.mem;
    NothingChanged(m, s0.rdi);
    hide SameOutside, Buffer, ReadQuads, Read, Put;
    s := s0.(rax := s0.rdi);
    s := s.(r11 := Read(s.mem, s.rsp + 16));
    var mem := s.mem;
    mem := Put(m, mem, s.rax, 0, s.r11);
    mem := Put(m, mem, s.rax, 1, s.rdx);
    mem := Put(m, mem, s.rax, 2, s.rcx);
    mem := Put(m, mem, s.rax, 3, s.rbx);
    mem := Put(m, mem, s.rax, 4, s.rsp);
    FieldRead(mem, s.rax, 4);
    mem := Put(m, mem, s.rax, 4, Read(mem, s.rax + 32) + 16);
    mem := Put(m, mem, s.rax, 5, s.rbp);
    mem := Put(m, mem, s.rax, 6, s.rsi);
    Kept(m, mem, s0.rdi, s0.rsp + 32);
    s := s.(r11 := Read(mem, s.rsp + 32));
    mem := Put(m, mem, s.rax, 7, s.r11);
    s := s.(mem := mem);
  }

  /** Store r8 to r15, the flags, the return address and the FPU state. */
  method SaveRest(ghost m: Memory, s0: State) returns (s: State)
    requires SameOutside(m, s0.mem, s0.rdi)
    requires s0.rax == s0.rdi && s0.rdi % 8 == 0 && s0.rsp % 8 == 0 && |s0.fpu| == FX_QUADS
    requires Outside(s0.rsp, s0.rdi) && Outside(s0.rsp + 8, s0.rdi) && Outside(s0.rsp + 24, s0.rdi)
    ensures s == s0.(rdx := Read(m, s0.rsp), r11 := Read(m, s0.rsp + 24), mem := s.mem)
    ensures SameOutside(m, s.mem, s0.rdi)
    ensures RestSaved(Buffer(s0.mem, s0.rdi), Buffer(s.mem, s0.rdi), m, s0)
  {
    hide SameOutside, Buffer, ReadQuads, Read, Put;
    s := s0;
    var mem := s.mem;
    mem := Put(m, mem, s.rax, 8, s.r8);
    mem := Put(m, mem, s.rax, 9, s.r9);
    mem := Put(m, mem, s.rax, 10, s.r10);
    Kept(m, mem, s.rdi, s.rsp + 8);
    s := s.(r11 := Read(mem, s.rsp + 8));
    mem := Put(m, mem, s.rax, 11, s.r11);
    mem := Put(m, mem, s.rax, 12, s.r12);
    mem := Put(m, mem, s.rax, 13, s.r13);
    mem := Put(m, mem, s.rax, 14, s.r14);
    mem := Put(m, mem, s.rax, 15, s.r15);
    Kept(m, mem, s.rdi, s.rsp);
    s := s.(rdx := Read(mem, s.rsp));
    mem := Put(m, mem, s.rax, 17, s.rdx);
    Kept(m, mem, s.rdi, s.rsp + 24);
    s := s.(r11 := Read(mem, s.rsp + 24));
    mem := Put(m, mem, s.rax, 16, s.r11);
    ghost var m1 := mem;
    mem := WriteQuads(mem, s.rax + FX_OFFSET, s.fpu);
    BlockWritten(m, m1, mem, s.rdi, s.fpu);
    s := s.(mem := mem);
  }

  method LongJmp(start: State) returns (s: State)
    requires LongJmpReady(start)
    ensures s == Resumed(start)
  {
    hide Read, ReadQuads, Load, RestoredFlags, LongJmpReady;
    s := PutReturn(start);
    Fields(s.mem, s.rdi);
    s := RestoreGeneral(s);
    s := RestoreFlags(s);
    s := Land(s);
  }

  method RestoreGeneral(s0: State) returns (s: State)
    ensures s == s0.(
              rdx := Read(s0.mem, s0.rax + 8), rcx := Read(s0.mem, s0.rax + 16), rbx := Read(s0.mem, s0.rax + 24),
              rsp := Read(s0.mem, s0.rax + 32), rbp := Read(s0.mem, s0.rax + 40), rsi := Read(s0.mem, s0.rax + 48),
              r8 := Read(s0.mem, s0.rax + 64), r9 := Read(s0.mem, s0.rax + 72), r10 := Read(s0.mem, s0.rax + 80),
              r11 := Read(s0.mem, s0.rax + 88), r12 := Read(s0.mem, s0.rax + 96), r13 := Read(s0.mem, s0.rax + 104),
              r14 := Read(s0.mem, s0.rax + 112))
  {
    hide Read;
    s := s0.(rdx := Read(s0.mem, s0.rax + 8));
    s := s.(rcx := Read(s.mem, s.rax + 16));
    s := s.(rbx := Read(s.mem, s.rax + 24));
    s := s.(rsp := Read(s.mem, s.rax + 32));
    s := s.(rbp := Read(s.mem, s.rax + 40));
    s := s.(rsi := Read(s.mem, s.rax + 48));
    s := s.(r8 := Read(s.mem, s.rax + 64));
    s := s.(r9 := Read(s.mem, s.rax + 72));
    s := s.(r10 := Read(s.mem, s.rax + 80));
    s := s.(r11 := Read(s.mem, s.rax + 88));
    s := s.(r12 := Read(s.mem, s.rax + 96));
    s := s.(r13 := Read(s.mem, s.rax + 104));
    s := s.(r14 := Read(s.mem, s.rax + 112));
  }

  /** Restore rdi, r15 and the FPU state, change stack, pop the value and the return address. */
  method Land(s0: State) returns (s: State)
    ensures var rsp := Read(s0.mem, s0.rdi + 32);
            s == s0.(rax := Read(s0.mem, rsp), rdi := Read(s0.mem, s0.rdi + 56), r15 := Read(s0.mem, s0.rdi + 120),
                     fpu := ReadQuads(s0.mem, s0.rdi + FX_OFFSET, FX_QUADS), rsp := rsp + 16,
                     rip := Read(s0.mem, rsp + 8))
  {
    hide Read, ReadQuads;
    s := s0.(rax := s0.rdi);
    s := s.(rdi := Read(s.mem, s.rax + 56));
    s := s.(r15 := Read(s.mem, s.rax + 120));
    s := s.(fpu := ReadQuads(s.mem, s.rax + FX_OFFSET, FX_QUADS));
    s := s.(rsp := Read(s.mem, s.rax + 32));
    s := s.(rax := Read(s.mem, s.rsp));
    s := s.(rsp := s.rsp + 8);
    s := s.(rip := Read(s.mem, s.rsp));
    s := s.(rsp := s.rsp + 8);
  }

  /** Put the return address and the value on the stack to be resumed. */
  method PutReturn(s0: State) returns (s: State)
    requires LongJmpReady(s0)
    ensures s == s0.(rax := s0.rdi, r10 := s.r10, r11 := s.r11, mem := s.mem)
    ensures var c := Load(s0.mem, s0.rdi);
            && s.mem == s0.mem[c.rsp + 8 := c.rip][c.rsp := s0.rsi] && Load(s.mem, s0.rdi) == c
            && Read(s.mem, c.rsp) == s0.rsi && Read(s.mem, c.rsp + 8) == c.rip
  {
    Fields(s0.mem, s0.rdi);
    s := s0.(rax := s0.rdi);
    s := s.(r10 := Read(s.mem, s.rax + 128));
    s := s.(r11 := Read(s.mem, s.rax + 32));
    SlotsOutside(s.mem, s.rdi, s.r11, s.r10, s.rsi);
    hide Read, Load;
    s := s.(mem := s.mem[s.r11 + 8 := s.r10]);
    s := s.(mem := s.mem[s.r11 := s.rsi]);
  }

  method RestoreFlags(s0: State) returns (s: State)
    ensures s == s0.(rax := s.rax, flags := RestoredFlags(Read(s0.mem, s0.rax + 136)))
  {
    hide Read, WithAl, FlagsFrom, AddOverflows;
    s := s0.(rax := Read(s0.mem, s0.rax + 136));
    var overflow := AddOverflows(s.rax % 256);
    AddKeepsAh(s.rax);
    s := s.(rax := WithAl(s.rax, (s.rax % 256 + 127) % 256));
    s := s.(flags := FlagsFrom((s.rax / 256) % 256, overflow));
  }

  // ---------------------------------------------------------------- reading back what was written

  ghost predicate SameOutside(m: Memory, m': Memory, env: int) {
    forall a | Outside(a, env) && a % 8 == 0 :: Read(m', a) == Read(m, a)
  }

  /** Quadwords 0 to 7, `s` being the state after the three pushes. */
  ghost predicate CallerSaved(b: seq<int>, s: State)
    requires |b| == BUFFER_QUADS
  {
    && b[0] == Read(s.mem, s.rsp + 16) && b[1] == s.rdx && b[2] == s.rcx && b[3] == s.rbx
    && b[4] == s.rsp + 16 && b[5] == s.rbp && b[6] == s.rsi && b[7] == Read(s.mem, s.rsp + 32)
  }

  /** Quadwords 8 on; those before stay. `m` is the memory after the pushes. */
  ghost predicate RestSaved(b0: seq<int>, b: seq<int>, m: Memory, s: State)
    requires |b0| == |b| == BUFFER_QUADS
  {
    && (forall i :: 0 <= i < 8 ==> b[i] == b0[i])
    && b[8] == s.r8 && b[9] == s.r9 && b[10] == s.r10 && b[11] == Read(m, s.rsp + 8)
    && b[12] == s.r12 && b[13] == s.r13 && b[14] == s.r14 && b[15] == s.r15
    && b[16] == Read(m, s.rsp + 24) && b[17] == Read(m, s.rsp) && b[18..] == s.fpu
  }

  lemma NothingChanged(m: Memory, env: int)
    ensures SameOutside(m, m, env)
  {
  }

  lemma Kept(m: Memory, m': Memory, env: int, a: int)
    requires SameOutside(m, m', env) && Outside(a, env) && a % 8 == 0
    ensures Read(m', a) == Read(m, a)
  {
  }

  lemma FieldRead(m: Memory, env: int, k: nat)
    requires k < BUFFER_QUADS
    ensures Read(m, env + 8 * k) == Buffer(m, env)[k]
  {
  }

  lemma BlockWritten(m0: Memory, m: Memory, m': Memory, env: int, s: seq<int>)
    requires |s| == FX_QUADS && ReadQuads(m', env + FX_OFFSET, FX_QUADS) == s && SameOutside(m0, m, env)
    requires forall b | !(env + FX_OFFSET <= b < env + FX_OFFSET + 8 * FX_QUADS) :: Read(m', b) == Read(m, b)
    ensures Buffer(m', env) == Buffer(m, env)[..18] + s && SameOutside(m0, m', env)
  {
    hide Read;
    var b, b' := Buffer(m, env), Buffer(m', env);
    forall i | 18 <= i < BUFFER_QUADS ensures b'[i] == s[i - 18] {
      assert s[i - 18] == Read(m', env + FX_OFFSET + 8 * (i - 18));
    }
  }

  /** The stack after the three pushes. */
  ghost predicate PushedOn(s: State, m: Memory) {
    && Read(m, s.rsp - 24) == FlagWord(s.rax, s.flags)
    && Read(m, s.rsp - 16) == s.r11 && Read(m, s.rsp - 8) == s.rax
    && forall a | !(s.rsp - 24 <= a < s.rsp) :: Read(m, a) == Read(s.mem, a)
  }

  lemma PushesKeep(s: State, word: int)
    requires word == FlagWord(s.rax, s.flags)
    ensures PushedOn(s, s.mem[s.rsp - 8 := s.rax][s.rsp - 16 := s.r11][s.rsp - 24 := word])
  {
  }

  lemma SlotsOutsideBuffer(s: State)
    requires SetJmpReady(s)
    ensures s.rdi % 8 == 0 && s.rsp % 8 == 0 && (s.rsp - 24) % 8 == 0 && |s.fpu| == FX_QUADS
    ensures Outside(s.rsp - 24, s.rdi) && Outside(s.rsp - 24 + 8, s.rdi) && Outside(s.rsp - 24 + 16, s.rdi)
    ensures Outside(s.rsp - 24 + 24, s.rdi) && Outside(s.rsp - 24 + 32, s.rdi)
  {
  }

  lemma CapturedWhole(s: State, m: Memory, b1: seq<int>, s1: State, m2: Memory)
    requires SetJmpReady(s) && PushedOn(s, m) && SameOutside(m, m2, s.rdi) && |b1| == BUFFER_QUADS
    requires CallerSaved(b1, s.(rsp := s.rsp - 24, rax := FlagWord(s.rax, s.flags), mem := m))
    requires RestSaved(b1, Buffer(m2, s.rdi), m, s1)
    requires s1 == s.(rsp := s.rsp - 24, rax := s.rdi, r11 := s1.r11, mem := s1.mem)
    ensures Load(m2, s.rdi) == Captured(s)
    ensures forall a | Outside(a, s.rdi) && a % 8 == 0 && !(s.rsp - 24 <= a < s.rsp) :: Read(m2, a) == Read(s.mem, a)
    ensures Read(m, s.rsp) == Read(s.mem, s.rsp) && Read(m2, s.rsp) == Read(s.mem, s.rsp)
    ensures Read(m, s.rsp - 24) == FlagWord(s.rax, s.flags)
  {
    hide FlagWord, Buffer, Read;
  }

  lemma SlotsOutside(m: Memory, env: int, rsp: int, ret: int, val: int)
    requires Outside(rsp, env) && Outside(rsp + 8, env)
    ensures Load(m[rsp + 8 := ret][rsp := val], env) == Load(m, env)
    ensures Read(m[rsp + 8 := ret][rsp := val], rsp) == val && Read(m[rsp + 8 := ret][rsp := val], rsp + 8) == ret
  {
    var m' := m[rsp + 8 := ret][rsp := val];
    assert Buffer(m', env) == Buffer(m, env);
    hide Buffer;
  }

  lemma AddKeepsAh(word: int)
    ensures (WithAl(word, (word % 256 + 127) % 256) / 256) % 256 == (word / 256) % 256
  {
    var al := (word % 256 + 127) % 256;
    assert (256 * (word / 256) + al) / 256 == word / 256;
  }
}
