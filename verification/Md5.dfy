/** MD5 compression (sections 3.3 and 3.4 of RFC 1321) and the unrolled routine that computes it. */
module Md5 {

  /** A 32-bit word. Wrapping the bits keeps bit-level reasoning out of proofs about whole runs. */
  datatype Word = W(v: bv32)

  /** The four chaining words. */
  datatype Regs = Regs(a: Word, b: Word, c: Word, d: Word)

  type Block = s: seq<Word> | |s| == 16 witness seq(16, i => W(0))

  datatype Round = F | G | H | I

  function FF(b: bv32, c: bv32, d: bv32): bv32 { d ^ (b & (c ^ d)) }

  function GG(b: bv32, c: bv32, d: bv32): bv32 { c ^ (d & (b ^ c)) }

  function HH(b: bv32, c: bv32, d: bv32): bv32 { b ^ c ^ d }

  function II(b: bv32, c: bv32, d: bv32): bv32 { c ^ (b | !d) }

  function Mix(f: Round, b: Word, c: Word, d: Word): Word {
    match f
    case F => W(FF(b.v, c.v, d.v))
    case G => W(GG(b.v, c.v, d.v))
    case H => W(HH(b.v, c.v, d.v))
    case I => W(II(b.v, c.v, d.v))
  }

  function RL(x: bv32, n: nat): bv32
    requires 0 < n < 32
  {
    (x << n) | (x >> (32 - n))
  }

  function RR(x: bv32, n: nat): bv32
    requires 0 < n < 32
  {
    (x >> n) | (x << (32 - n))
  }

  function Add(x: bv32, y: bv32): bv32 { x + y }

  function Sub(x: bv32, y: bv32): bv32 { x - y }

  /** The sum that MD5_STEP rotates. */
  function Sum(a: bv32, x: bv32, m: bv32, ac: bv32): bv32 { a + (x + m + ac) }

  /** What MD5_REVERSE_STEP subtracts. */
  function Rest(u: bv32, x: bv32, a: bv32, ac: bv32): bv32 { u - x - a - ac }

  /** Rotate the sum left and add the newest register: the second half of MD5_STEP. */
  function Turn(x: bv32, n: nat, b: Word): Word
    requires 0 < n < 32
  {
    W(Add(RL(x, n), b.v))
  }

  /** The way back through Turn: the first half of MD5_REVERSE_STEP. */
  function Unturn(q: Word, n: nat, b: Word): bv32
    requires 0 < n < 32
  {
    RR(Sub(q.v, b.v), n)
  }

  /** What one MD5_STEP leaves in its first register. */
  function StepValue(f: Round, a: Word, b: Word, c: Word, d: Word, m: Word, ac: bv32, rc: nat): Word
    requires 0 < rc < 32
  {
    Turn(Sum(a.v, Mix(f, b, c, d).v, m.v, ac), rc, b)
  }

  /** The message word MD5_REVERSE_STEP derives, so that the step leads to q. */
  function ReverseValue(f: Round, a: Word, b: Word, c: Word, d: Word, q: Word, ac: bv32, rc: nat): Word
    requires 0 < rc < 32
  {
    W(Rest(Unturn(q, rc, b), Mix(f, b, c, d).v, a.v, ac))
  }

  // ---------------------------------------------------------------- a step can be undone

  /** The rotations with their amounts spelled out. */
  lemma LeftIs(x: bv32)
    ensures RL(x, 5) == (x << 5) | (x >> 27)
    ensures RL(x, 7) == (x << 7) | (x >> 25)
    ensures RL(x, 12) == (x << 12) | (x >> 20)
    ensures RL(x, 17) == (x << 17) | (x >> 15)
    ensures RL(x, 22) == (x << 22) | (x >> 10)
  {}

  lemma RightIs(x: bv32)
    ensures RR(x, 5) == (x >> 5) | (x << 27)
    ensures RR(x, 7) == (x >> 7) | (x << 25)
    ensures RR(x, 12) == (x >> 12) | (x << 20)
    ensures RR(x, 17) == (x >> 17) | (x << 15)
    ensures RR(x, 22) == (x >> 22) | (x << 10)
  {}

  lemma RotateBack5(x: bv32)
    ensures RL(RR(x, 5), 5) == x
  {
    hide RL, RR;
    RightIs(x);
    LeftIs(RR(x, 5));
  }

  lemma RotateBack7(x: bv32)
    ensures RL(RR(x, 7), 7) == x
  {
    hide RL, RR;
    RightIs(x);
    LeftIs(RR(x, 7));
  }

  lemma RotateBack12(x: bv32)
    ensures RL(RR(x, 12), 12) == x
  {
    hide RL, RR;
    RightIs(x);
    LeftIs(RR(x, 12));
  }

  lemma RotateBack17(x: bv32)
    ensures RL(RR(x, 17), 17) == x
  {
    hide RL, RR;
    RightIs(x);
    LeftIs(RR(x, 17));
  }

  lemma RotateBack22(x: bv32)
    ensures RL(RR(x, 22), 22) == x
  {
    hide RL, RR;
    RightIs(x);
    LeftIs(RR(x, 22));
  }

  lemma RotateBack(x: bv32, n: nat)
    requires n in {5, 7, 12, 17, 22}
    ensures RL(RR(x, n), n) == x
  {
    hide RL, RR;
    if n == 5 {
      RotateBack5(x);
    } else if n == 7 {
      RotateBack7(x);
    } else if n == 12 {
      RotateBack12(x);
    } else if n == 17 {
      RotateBack17(x);
    } else {
      RotateBack22(x);
    }
  }

  lemma AddBack(x: bv32, y: bv32) ensures Add(Sub(x, y), y) == x { assert Add(x - y, y) == x; }

  lemma SumBack(a: bv32, x: bv32, u: bv32, ac: bv32) ensures Sum(a, x, Rest(u, x, a, ac), ac) == u { assert Sum(a, x, u - x - a - ac, ac) == u; }

  lemma TurnBack(q: Word, n: nat, b: Word)
    requires n in {5, 7, 12, 17, 22}
    ensures Turn(Unturn(q, n, b), n, b) == q
  {
    hide RL, RR, Add, Sub;
    RotateBack(Sub(q.v, b.v), n);
    AddBack(q.v, b.v);
  }

  /** MD5_REVERSE_STEP is right: feeding the derived word to MD5_STEP gives back the state word. */
  lemma ReverseStep(f: Round, a: Word, b: Word, c: Word, d: Word, q: Word, ac: bv32, rc: nat)
    requires rc in {5, 7, 12, 17, 22}
    ensures StepValue(f, a, b, c, d, ReverseValue(f, a, b, c, d, q, ac, rc), ac, rc) == q
  {
    hide Turn, Unturn, Mix, Sum, Rest;
    SumBack(a.v, Mix(f, b, c, d).v, Unturn(q, rc, b), ac);
    TurnBack(q, rc, b);
  }

  // ---------------------------------------------------------------- the schedule of RFC 1321

  /** One operation [abcd k s i] of section 3.4: round function, message word k, rotation s, constant T[i]. */
  datatype Row = Row(f: Round, k: nat, s: nat, t: bv32)

  function RoundOne(i: nat): (r: Row)
    requires i < 16
    ensures r.f == F && r.k < 16 && 0 < r.s < 32
  {
    match i
    case 0 => Row(F, 0, 7, 0xd76aa478)
    case 1 => Row(F, 1, 12, 0xe8c7b756)
    case 2 => Row(F, 2, 17, 0x242070db)
    case 3 => Row(F, 3, 22, 0xc1bdceee)
    case 4 => Row(F, 4, 7, 0xf57c0faf)
    case 5 => Row(F, 5, 12, 0x4787c62a)
    case 6 => Row(F, 6, 17, 0xa8304613)
    case 7 => Row(F, 7, 22, 0xfd469501)
    case 8 => Row(F, 8, 7, 0x698098d8)
    case 9 => Row(F, 9, 12, 0x8b44f7af)
    case 10 => Row(F, 10, 17, 0xffff5bb1)
    case 11 => Row(F, 11, 22, 0x895cd7be)
    case 12 => Row(F, 12, 7, 0x6b901122)
    case 13 => Row(F, 13, 12, 0xfd987193)
    case 14 => Row(F, 14, 17, 0xa679438e)
    case _ => Row(F, 15, 22, 0x49b40821)
  }

  function RoundTwo(i: nat): (r: Row)
    requires i < 16
    ensures r.f == G && r.k < 16 && 0 < r.s < 32
  {
    match i
    case 0 => Row(G, 1, 5, 0xf61e2562)
    case 1 => Row(G, 6, 9, 0xc040b340)
    case 2 => Row(G, 11, 14, 0x265e5a51)
    case 3 => Row(G, 0, 20, 0xe9b6c7aa)
    case 4 => Row(G, 5, 5, 0xd62f105d)
    case 5 => Row(G, 10, 9, 0x02441453)
    case 6 => Row(G, 15, 14, 0xd8a1e681)
    case 7 => Row(G, 4, 20, 0xe7d3fbc8)
    case 8 => Row(G, 9, 5, 0x21e1cde6)
    case 9 => Row(G, 14, 9, 0xc33707d6)
    case 10 => Row(G, 3, 14, 0xf4d50d87)
    case 11 => Row(G, 8, 20, 0x455a14ed)
    case 12 => Row(G, 13, 5, 0xa9e3e905)
    case 13 => Row(G, 2, 9, 0xfcefa3f8)
    case 14 => Row(G, 7, 14, 0x676f02d9)
    case _ => Row(G, 12, 20, 0x8d2a4c8a)
  }

  function RoundThree(i: nat): (r: Row)
    requires i < 16
    ensures r.f == H && r.k < 16 && 0 < r.s < 32
  {
    match i
    case 0 => Row(H, 5, 4, 0xfffa3942)
    case 1 => Row(H, 8, 11, 0x8771f681)
    case 2 => Row(H, 11, 16, 0x6d9d6122)
    case 3 => Row(H, 14, 23, 0xfde5380c)
    case 4 => Row(H, 1, 4, 0xa4beea44)
    case 5 => Row(H, 4, 11, 0x4bdecfa9)
    case 6 => Row(H, 7, 16, 0xf6bb4b60)
    case 7 => Row(H, 10, 23, 0xbebfbc70)
    case 8 => Row(H, 13, 4, 0x289b7ec6)
    case 9 => Row(H, 0, 11, 0xeaa127fa)
    case 10 => Row(H, 3, 16, 0xd4ef3085)
    case 11 => Row(H, 6, 23, 0x04881d05)
    case 12 => Row(H, 9, 4, 0xd9d4d039)
    case 13 => Row(H, 12, 11, 0xe6db99e5)
    case 14 => Row(H, 15, 16, 0x1fa27cf8)
    case _ => Row(H, 2, 23, 0xc4ac5665)
  }

  function RoundFour(i: nat): (r: Row)
    requires i < 16
    ensures r.f == I && r.k < 16 && 0 < r.s < 32
  {
    match i
    case 0 => Row(I, 0, 6, 0xf4292244)
    case 1 => Row(I, 7, 10, 0x432aff97)
    case 2 => Row(I, 14, 15, 0xab9423a7)
    case 3 => Row(I, 5, 21, 0xfc93a039)
    case 4 => Row(I, 12, 6, 0x655b59c3)
    case 5 => Row(I, 3, 10, 0x8f0ccc92)
    case 6 => Row(I, 10, 15, 0xffeff47d)
    case 7 => Row(I, 1, 21, 0x85845dd1)
    case 8 => Row(I, 8, 6, 0x6fa87e4f)
    case 9 => Row(I, 15, 10, 0xfe2ce6e0)
    case 10 => Row(I, 6, 15, 0xa3014314)
    case 11 => Row(I, 13, 21, 0x4e0811a1)
    case 12 => Row(I, 4, 6, 0xf7537e82)
    case 13 => Row(I, 11, 10, 0xbd3af235)
    case 14 => Row(I, 2, 15, 0x2ad7d2bb)
    case _ => Row(I, 9, 21, 0xeb86d391)
  }

  function RowOf(t: nat): (r: Row)
    requires t < 64
    ensures r.k < 16 && 0 < r.s < 32
  {
    if t < 16 then RoundOne(t) else if t < 32 then RoundTwo(t - 16)
    else if t < 48 then RoundThree(t - 32) else RoundFour(t - 48)
  }

  /** Step t on the register file, with the names rotated so that the newest value is always b. */
  function Advance(t: nat, r: Regs, block: Block): Regs
    requires t < 64
  {
    var row := RowOf(t);
    Regs(r.d, StepValue(row.f, r.a, r.b, r.c, r.d, block[row.k], row.t, row.s), r.b, r.c)
  }

  /** Steps lo, lo + 1, ..., hi - 1. */
  function Run(lo: nat, hi: nat, r: Regs, block: Block): Regs
    requires lo <= hi <= 64
    decreases hi - lo, block
  {
    if lo == hi then r else Run(lo + 1, hi, Advance(lo, r, block), block)
  }

  function Plus(x: Word, y: Word): Word { W(x.v + y.v) }

  function PlusRegs(r: Regs, s: Regs): Regs {
    Regs(Plus(r.a, s.a), Plus(r.b, s.b), Plus(r.c, s.c), Plus(r.d, s.d))
  }

  /** The compression function of section 3.4 of RFC 1321. */
  function Compress(ihv: Regs, block: Block): Regs {
    PlusRegs(ihv, Run(0, 64, ihv, block))
  }

  lemma {:induction false} RunSplit(lo: nat, mid: nat, hi: nat, r: Regs, block: Block)
    requires lo <= mid <= hi <= 64
    ensures Run(lo, hi, r, block) == Run(mid, hi, Run(lo, mid, r, block), block)
    decreases mid - lo
  {
    if lo != mid {
      RunSplit(lo + 1, mid, hi, Advance(lo, r, block), block);
    }
  }

  lemma RunStep(t: nat, hi: nat, r: Regs, block: Block)
    requires t < hi <= 64
    ensures Run(t, hi, r, block) == Run(t + 1, hi, Advance(t, r, block), block)
  {}

  lemma RunEnd(t: nat, r: Regs, block: Block)
    requires t <= 64
    ensures Run(t, t, r, block) == r
  {}

  // ---------------------------------------------------------------- the unrolled code

  method FirstRound(r: Regs, block: array<Word>) returns (a: Word, b: Word, c: Word, d: Word)
    requires block.Length == 16
    ensures Regs(a, b, c, d) == Run(0, 16, r, block[..])
  {
    hide StepValue, Run;
    ghost var w := block[..];
    ghost var o: Word;
    a, b, c, d := r.a, r.b, r.c, r.d;
    o := a;
    a := StepValue(F, a, b, c, d, block[0], 0xd76aa478, 7);
    RunStep(0, 16, Regs(o, b, c, d), w);
    o := d;
    d := StepValue(F, d, a, b, c, block[1], 0xe8c7b756, 12);
    RunStep(1, 16, Regs(o, a, b, c), w);
    o := c;
    c := StepValue(F, c, d, a, b, block[2], 0x242070db, 17);
    RunStep(2, 16, Regs(o, d, a, b), w);
    o := b;
    b := StepValue(F, b, c, d, a, block[3], 0xc1bdceee, 22);
    RunStep(3, 16, Regs(o, c, d, a), w);
    o := a;
    a := StepValue(F, a, b, c, d, block[4], 0xf57c0faf, 7);
    RunStep(4, 16, Regs(o, b, c, d), w);
    o := d;
    d := StepValue(F, d, a, b, c, block[5], 0x4787c62a, 12);
    RunStep(5, 16, Regs(o, a, b, c), w);
    o := c;
    c := StepValue(F, c, d, a, b, block[6], 0xa8304613, 17);
    RunStep(6, 16, Regs(o, d, a, b), w);
    o := b;
    b := StepValue(F, b, c, d, a, block[7], 0xfd469501, 22);
    RunStep(7, 16, Regs(o, c, d, a), w);
    o := a;
    a := StepValue(F, a, b, c, d, block[8], 0x698098d8, 7);
    RunStep(8, 16, Regs(o, b, c, d), w);
    o := d;
    d := StepValue(F, d, a, b, c, block[9], 0x8b44f7af, 12);
    RunStep(9, 16, Regs(o, a, b, c), w);
    o := c;
    c := StepValue(F, c, d, a, b, block[10], 0xffff5bb1, 17);
    RunStep(10, 16, Regs(o, d, a, b), w);
    o := b;
    b := StepValue(F, b, c, d, a, block[11], 0x895cd7be, 22);
    RunStep(11, 16, Regs(o, c, d, a), w);
    o := a;
    a := StepValue(F, a, b, c, d, block[12], 0x6b901122, 7);
    RunStep(12, 16, Regs(o, b, c, d), w);
    o := d;
    d := StepValue(F, d, a, b, c, block[13], 0xfd987193, 12);
    RunStep(13, 16, Regs(o, a, b, c), w);
    o := c;
    c := StepValue(F, c, d, a, b, block[14], 0xa679438e, 17);
    RunStep(14, 16, Regs(o, d, a, b), w);
    o := b;
    b := StepValue(F, b, c, d, a, block[15], 0x49b40821, 22);
    RunStep(15, 16, Regs(o, c, d, a), w);
    RunEnd(16, Regs(a, b, c, d), w);
  }

  method SecondRound(r: Regs, block: array<Word>) returns (a: Word, b: Word, c: Word, d: Word)
    requires block.Length == 16
    ensures Regs(a, b, c, d) == Run(16, 32, r, block[..])
  {
    hide StepValue, Run;
    ghost var w := block[..];
    ghost var o: Word;
    a, b, c, d := r.a, r.b, r.c, r.d;
    o := a;
    a := StepValue(G, a, b, c, d, block[1], 0xf61e2562, 5);
    RunStep(16, 32, Regs(o, b, c, d), w);
    o := d;
    d := StepValue(G, d, a, b, c, block[6], 0xc040b340, 9);
    RunStep(17, 32, Regs(o, a, b, c), w);
    o := c;
    c := StepValue(G, c, d, a, b, block[11], 0x265e5a51, 14);
    RunStep(18, 32, Regs(o, d, a, b), w);
    o := b;
    b := StepValue(G, b, c, d, a, block[0], 0xe9b6c7aa, 20);
    RunStep(19, 32, Regs(o, c, d, a), w);
    o := a;
    a := StepValue(G, a, b, c, d, block[5], 0xd62f105d, 5);
    RunStep(20, 32, Regs(o, b, c, d), w);
    o := d;
    d := StepValue(G, d, a, b, c, block[10], 0x02441453, 9);
    RunStep(21, 32, Regs(o, a, b, c), w);
    o := c;
    c := StepValue(G, c, d, a, b, block[15], 0xd8a1e681, 14);
    RunStep(22, 32, Regs(o, d, a, b), w);
    o := b;
    b := StepValue(G, b, c, d, a, block[4], 0xe7d3fbc8, 20);
    RunStep(23, 32, Regs(o, c, d, a), w);
    o := a;
    a := StepValue(G, a, b, c, d, block[9], 0x21e1cde6, 5);
    RunStep(24, 32, Regs(o, b, c, d), w);
    o := d;
    d := StepValue(G, d, a, b, c, block[14], 0xc33707d6, 9);
    RunStep(25, 32, Regs(o, a, b, c), w);
    o := c;
    c := StepValue(G, c, d, a, b, block[3], 0xf4d50d87, 14);
    RunStep(26, 32, Regs(o, d, a, b), w);
    o := b;
    b := StepValue(G, b, c, d, a, block[8], 0x455a14ed, 20);
    RunStep(27, 32, Regs(o, c, d, a), w);
    o := a;
    a := StepValue(G, a, b, c, d, block[13], 0xa9e3e905, 5);
    RunStep(28, 32, Regs(o, b, c, d), w);
    o := d;
    d := StepValue(G, d, a, b, c, block[2], 0xfcefa3f8, 9);
    RunStep(29, 32, Regs(o, a, b, c), w);
    o := c;
    c := StepValue(G, c, d, a, b, block[7], 0x676f02d9, 14);
    RunStep(30, 32, Regs(o, d, a, b), w);
    o := b;
    b := StepValue(G, b, c, d, a, block[12], 0x8d2a4c8a, 20);
    RunStep(31, 32, Regs(o, c, d, a), w);
    RunEnd(32, Regs(a, b, c, d), w);
  }

  method ThirdRound(r: Regs, block: array<Word>) returns (a: Word, b: Word, c: Word, d: Word)
    requires block.Length == 16
    ensures Regs(a, b, c, d) == Run(32, 48, r, block[..])
  {
    hide StepValue, Run;
    ghost var w := block[..];
    ghost var o: Word;
    a, b, c, d := r.a, r.b, r.c, r.d;
    o := a;
    a := StepValue(H, a, b, c, d, block[5], 0xfffa3942, 4);
    RunStep(32, 48, Regs(o, b, c, d), w);
    o := d;
    d := StepValue(H, d, a, b, c, block[8], 0x8771f681, 11);
    RunStep(33, 48, Regs(o, a, b, c), w);
    o := c;
    c := StepValue(H, c, d, a, b, block[11], 0x6d9d6122, 16);
    RunStep(34, 48, Regs(o, d, a, b), w);
    o := b;
    b := StepValue(H, b, c, d, a, block[14], 0xfde5380c, 23);
    RunStep(35, 48, Regs(o, c, d, a), w);
    o := a;
    a := StepValue(H, a, b, c, d, block[1], 0xa4beea44, 4);
    RunStep(36, 48, Regs(o, b, c, d), w);
    o := d;
    d := StepValue(H, d, a, b, c, block[4], 0x4bdecfa9, 11);
    RunStep(37, 48, Regs(o, a, b, c), w);
    o := c;
    c := StepValue(H, c, d, a, b, block[7], 0xf6bb4b60, 16);
    RunStep(38, 48, Regs(o, d, a, b), w);
    o := b;
    b := StepValue(H, b, c, d, a, block[10], 0xbebfbc70, 23);
    RunStep(39, 48, Regs(o, c, d, a), w);
    o := a;
    a := StepValue(H, a, b, c, d, block[13], 0x289b7ec6, 4);
    RunStep(40, 48, Regs(o, b, c, d), w);
    o := d;
    d := StepValue(H, d, a, b, c, block[0], 0xeaa127fa, 11);
    RunStep(41, 48, Regs(o, a, b, c), w);
    o := c;
    c := StepValue(H, c, d, a, b, block[3], 0xd4ef3085, 16);
    RunStep(42, 48, Regs(o, d, a, b), w);
    o := b;
    b := StepValue(H, b, c, d, a, block[6], 0x04881d05, 23);
    RunStep(43, 48, Regs(o, c, d, a), w);
    o := a;
    a := StepValue(H, a, b, c, d, block[9], 0xd9d4d039, 4);
    RunStep(44, 48, Regs(o, b, c, d), w);
    o := d;
    d := StepValue(H, d, a, b, c, block[12], 0xe6db99e5, 11);
    RunStep(45, 48, Regs(o, a, b, c), w);
    o := c;
    c := StepValue(H, c, d, a, b, block[15], 0x1fa27cf8, 16);
    RunStep(46, 48, Regs(o, d, a, b), w);
    o := b;
    b := StepValue(H, b, c, d, a, block[2], 0xc4ac5665, 23);
    RunStep(47, 48, Regs(o, c, d, a), w);
    RunEnd(48, Regs(a, b, c, d), w);
  }

  method FourthRound(r: Regs, block: array<Word>) returns (a: Word, b: Word, c: Word, d: Word)
    requires block.Length == 16
    ensures Regs(a, b, c, d) == Run(48, 64, r, block[..])
  {
    hide StepValue, Run;
    ghost var w := block[..];
    ghost var o: Word;
    a, b, c, d := r.a, r.b, r.c, r.d;
    o := a;
    a := StepValue(I, a, b, c, d, block[0], 0xf4292244, 6);
    RunStep(48, 64, Regs(o, b, c, d), w);
    o := d;
    d := StepValue(I, d, a, b, c, block[7], 0x432aff97, 10);
    RunStep(49, 64, Regs(o, a, b, c), w);
    o := c;
    c := StepValue(I, c, d, a, b, block[14], 0xab9423a7, 15);
    RunStep(50, 64, Regs(o, d, a, b), w);
    o := b;
    b := StepValue(I, b, c, d, a, block[5], 0xfc93a039, 21);
    RunStep(51, 64, Regs(o, c, d, a), w);
    o := a;
    a := StepValue(I, a, b, c, d, block[12], 0x655b59c3, 6);
    RunStep(52, 64, Regs(o, b, c, d), w);
    o := d;
    d := StepValue(I, d, a, b, c, block[3], 0x8f0ccc92, 10);
    RunStep(53, 64, Regs(o, a, b, c), w);
    o := c;
    c := StepValue(I, c, d, a, b, block[10], 0xffeff47d, 15);
    RunStep(54, 64, Regs(o, d, a, b), w);
    o := b;
    b := StepValue(I, b, c, d, a, block[1], 0x85845dd1, 21);
    RunStep(55, 64, Regs(o, c, d, a), w);
    o := a;
    a := StepValue(I, a, b, c, d, block[8], 0x6fa87e4f, 6);
    RunStep(56, 64, Regs(o, b, c, d), w);
    o := d;
    d := StepValue(I, d, a, b, c, block[15], 0xfe2ce6e0, 10);
    RunStep(57, 64, Regs(o, a, b, c), w);
    o := c;
    c := StepValue(I, c, d, a, b, block[6], 0xa3014314, 15);
    RunStep(58, 64, Regs(o, d, a, b), w);
    o := b;
    b := StepValue(I, b, c, d, a, block[13], 0x4e0811a1, 21);
    RunStep(59, 64, Regs(o, c, d, a), w);
    o := a;
    a := StepValue(I, a, b, c, d, block[4], 0xf7537e82, 6);
    RunStep(60, 64, Regs(o, b, c, d), w);
    o := d;
    d := StepValue(I, d, a, b, c, block[11], 0xbd3af235, 10);
    RunStep(61, 64, Regs(o, a, b, c), w);
    o := c;
    c := StepValue(I, c, d, a, b, block[2], 0x2ad7d2bb, 15);
    RunStep(62, 64, Regs(o, d, a, b), w);
    o := b;
    b := StepValue(I, b, c, d, a, block[9], 0xeb86d391, 21);
    RunStep(63, 64, Regs(o, c, d, a), w);
    RunEnd(64, Regs(a, b, c, d), w);
  }

  function RegsOf(s: seq<Word>): Regs
    requires |s| == 4
  {
    Regs(s[0], s[1], s[2], s[3])
  }

  method Md5Compress(ihv: array<Word>, block: array<Word>)
    requires ihv.Length == 4 && block.Length == 16 && ihv != block
    modifies ihv
    ensures RegsOf(ihv[..]) == Compress(RegsOf(old(ihv[..])), block[..])
  {
    hide StepValue, Run, Plus;
    ghost var w := block[..];
    ghost var r := Regs(ihv[0], ihv[1], ihv[2], ihv[3]);
    RunSplit(0, 16, 64, r, w);
    var a, b, c, d := FirstRound(Regs(ihv[0], ihv[1], ihv[2], ihv[3]), block);
    RunSplit(16, 32, 64, Regs(a, b, c, d), w);
    a, b, c, d := SecondRound(Regs(a, b, c, d), block);
    RunSplit(32, 48, 64, Regs(a, b, c, d), w);
    a, b, c, d := ThirdRound(Regs(a, b, c, d), block);
    a, b, c, d := FourthRound(Regs(a, b, c, d), block);
    ihv[0] := Plus(ihv[0], a);
    ihv[1] := Plus(ihv[1], b);
    ihv[2] := Plus(ihv[2], c);
    ihv[3] := Plus(ihv[3], d);
  }
}
