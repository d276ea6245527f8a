/** What the four block searches share: thread-local state, the state array Q and the step filters. */
module SearchCommon {
  import opened Md5

  /** A candidate at the final comparison, with the chaining words the search has predicted for it. */
  datatype Dot = Dot(block: Block, b: Word, c: Word, d: Word)

  /** The prediction is what the compression function really returns. */
  ghost predicate Honest(iv: Regs, dot: Dot) {
    var r := Compress(iv, dot.block);
    r.b == dot.b && r.c == dot.c && r.d == dot.d
  }

  /** The thread-local variables a search uses. A poll of the abort flag that finds it set is the
      one after the remaining `polls`; every run that ends is one for some number of polls. */
  class Thread {
    var seed1: bv32
    var seed2: bv32
    var polls: nat
    /** What the search has printed: one entry per candidate that reached the final comparison. */
    var dots: seq<Dot>

    constructor (s1: bv32, s2: bv32, n: nat)
      ensures seed1 == s1 && seed2 == s2 && polls == n && dots == []
    {
      seed1, seed2, polls, dots := s1, s2, n, [];
    }

    /** xrng64: returns the old second seed and keeps a live generator live. */
    method Draw() returns (r: bv32)
      modifies this`seed1, this`seed2
      ensures r == seed1 == old(seed2)
      ensures (seed1, seed2) == NextSeeds(old(seed1), old(seed2))
    {
      hide Stir;
      var t := seed1 ^ (seed1 << 10);
      seed1 := seed2;
      seed2 := Stirred(seed2, t);
      r := seed1;
    }

    /** The next n draws, in order. */
    method Draws(n: nat) returns (rs: seq<Word>)
      modifies this`seed1, this`seed2
      ensures |rs| == n && forall i :: 0 <= i < n ==> rs[i] == DrawnAt(old(seed1), old(seed2), i)
      ensures (seed1, seed2) == SeedsAfter(old(seed1), old(seed2), n)
    {
      hide NextSeeds;
      rs := [];
      for i := 0 to n
        invariant |rs| == i && forall j :: 0 <= j < i ==> rs[j] == DrawnAt(old(seed1), old(seed2), j)
        invariant (seed1, seed2) == SeedsAfter(old(seed1), old(seed2), i)
      {
        var r := Draw();
        rs := rs + [W(r)];
      }
    }

    /** check_abort. */
    method CheckAbort() returns (aborted: bool)
      modifies this`polls
      ensures aborted == (old(polls) == 0)
      ensures polls == if aborted then 0 else old(polls) - 1
    {
      if polls == 0 {
        return true;
      }
      polls := polls - 1;
      return false;
    }
  }

  method Stirred(s: bv32, t: bv32) returns (r: bv32)
    ensures r == Stir(s, t)
  {
    r := s ^ (s >> 10) ^ t ^ (t >> 13);
  }

  function Stir(s: bv32, t: bv32): bv32 { (s ^ (s >> 10)) ^ (t ^ (t >> 13)) }

  function NextSeeds(s1: bv32, s2: bv32): (bv32, bv32) {
    var t := s1 ^ (s1 << 10);
    (s2, Stir(s2, t))
  }

  /** The generator after n draws, and what draw i returns. */
  function SeedsAfter(s1: bv32, s2: bv32, n: nat): (bv32, bv32) {
    if n == 0 then (s1, s2) else var (t1, t2) := SeedsAfter(s1, s2, n - 1); NextSeeds(t1, t2)
  }

  function DrawnAt(s1: bv32, s2: bv32, i: nat): Word { W(SeedsAfter(s1, s2, i + 1).0) }

  function DrawsOf(s1: bv32, s2: bv32, n: nat): (rs: seq<Word>)
    ensures |rs| == n && forall i :: 0 <= i < n ==> rs[i] == DrawnAt(s1, s2, i)
  {
    seq(n, i requires 0 <= i < n => DrawnAt(s1, s2, i))
  }

  lemma SeedStaysLive(s1: bv32, s2: bv32)
    ensures NextSeeds(s1, s2) == (0, 0) <==> (s1, s2) == (0, 0)
  {}

  // ---------------------------------------------------------------- the state array

  /** Q[Qoff + t] is q[t + 3]; At(q, t) is the register file before step t. */
  function At(q: seq<Word>, t: nat): Regs
    requires t + 4 <= |q|
  {
    Regs(q[t], q[t + 3], q[t + 2], q[t + 1])
  }

  /** Step t of the compression leads from the recorded state words to the next one. */
  ghost predicate Fits(q: seq<Word>, block: Block, t: nat)
    requires t < 64 && t + 5 <= |q|
  {
    Advance(t, At(q, t), block).b == q[t + 4]
  }

  ghost predicate FitsAll(q: seq<Word>, block: Block, lo: nat, hi: nat)
    requires hi <= 64 && hi + 4 <= |q|
  {
    forall t :: lo <= t < hi ==> Fits(q, block, t)
  }

  lemma {:induction false} FitsRun(q: seq<Word>, block: Block, lo: nat, hi: nat)
    requires lo <= hi <= 64 && hi + 4 <= |q|
    requires forall t :: lo <= t < hi ==> Fits(q, block, t)
    ensures Run(lo, hi, At(q, lo), block) == At(q, hi)
    decreases hi - lo
  {
    hide StepValue, RowOf;
    if lo < hi {
      assert Fits(q, block, lo);
      FitsRun(q, block, lo + 1, hi);
    }
  }

  /** MD5_REVERSE_STEP(t, ac, rc): afterwards step t fits, and no other word has changed. */
  method Reverse(q: array<Word>, block: array<Word>, t: nat, ac: bv32, rc: nat)
    requires q.Length == 68 && block.Length == 16 && q != block
    requires t < 16 && RowOf(t) == Row(F, t, rc, ac) && rc in {7, 12, 17, 22}
    modifies block
    ensures Fits(q[..], block[..], t)
    ensures block[t] == ReverseValue(F, q[t], q[t + 3], q[t + 2], q[t + 1], q[t + 4], ac, rc)
    ensures forall i :: 0 <= i < 16 && i != t ==> block[i] == old(block[i])
  {
    hide StepValue, ReverseValue;
    block[t] := ReverseValue(F, q[t], q[t + 3], q[t + 2], q[t + 1], q[t + 4], ac, rc);
    ReverseStep(F, q[t], q[t + 3], q[t + 2], q[t + 1], q[t + 4], ac, rc);
  }

  // ---------------------------------------------------------------- the filters

  predicate Top(x: bv32) { x >> 31 != 0 }

  /** Bit 31 of the newest state word differs from that of the one two steps older. */
  predicate Opposite(r: Regs) { Flipped(r.b, r.d) }

  predicate Flipped(x: Word, y: Word) { Top(x.v ^ y.v) }

  /** Bit 15 of the sum that step 34 rotates. */
  predicate Bit15(r: Regs, block: Block) {
    Sum(r.a.v, Mix(H, r.b, r.c, r.d).v, block[11].v, 0x6d9d6122) & 0x8000 != 0
  }

  /** The six conditions on steps 24 to 51: bit 15 in step 34, then five sign comparisons. */
  ghost predicate Survives(start: Regs, block: Block, bit15: bool) {
    && Bit15(Run(24, 34, start, block), block) == bit15
    && !Opposite(Run(24, 48, start, block))
    && !Opposite(Run(24, 49, start, block))
    && Opposite(Run(24, 50, start, block))
    && !Opposite(Run(24, 51, start, block))
    && !Opposite(Run(24, 52, start, block))
  }

  /** The sign comparisons after steps lo to hi - 1, t counting the steps done; only step 59 must flip the sign. */
  ghost predicate SignsFrom(lo: nat, hi: nat, start: Regs, block: Block)
    requires lo <= hi <= 63
  {
    forall t :: lo < t <= hi ==> Opposite(Run(lo, t, start, block)) == (t == 60)
  }

  // ---------------------------------------------------------------- how the searches spell the sums

  function Add3(x: bv32, y: bv32, z: bv32): bv32 { x + y + z }

  lemma SubSub(u: bv32, p: bv32, q: bv32)
    ensures Sub(Sub(u, p), q) == Sub(u, Add(p, q))
  {
    assert Sub(u - p, q) == Sub(u, p + q);
  }

  lemma AddRight(x: bv32, a: bv32, ac: bv32)
    ensures Add(x, Add(a, ac)) == Add3(x, a, ac)
  {
    assert Add(x, a + ac) == Add3(x, a, ac);
  }

  lemma AddLeft(x: bv32, a: bv32, ac: bv32)
    ensures Add(Add(x, a), ac) == Add3(x, a, ac)
  {
    assert Add(x + a, ac) == Add3(x, a, ac);
  }

  lemma AddRotate(x: bv32, y: bv32, z: bv32) ensures Add3(x, y, z) == Add3(y, z, x) {}

  lemma AddSwap(x: bv32, y: bv32, z: bv32) ensures Add3(x, y, z) == Add3(x, z, y) {}

  lemma RestIs(u: bv32, x: bv32, a: bv32, ac: bv32)
    ensures Sub(u, Add3(x, a, ac)) == Rest(u, x, a, ac)
  {
    assert Sub(u, x + a + ac) == Rest(u, x, a, ac);
  }

  /** Five spellings of the reverse step; each recovers the rotated sum. */
  lemma SumBackA(u: bv32, x: bv32, a: bv32, ac: bv32)
    ensures Sum(a, x, Sub(u, Add3(x, a, ac)), ac) == u
  {
    hide *;
    RestIs(u, x, a, ac);
    SumBack(a, x, u, ac);
  }

  lemma SumBackB(u: bv32, x: bv32, a: bv32, ac: bv32)
    ensures Sum(a, x, Sub(Sub(u, x), Add(a, ac)), ac) == u
  {
    hide *;
    SubSub(u, x, Add(a, ac));
    AddRight(x, a, ac);
    SumBackA(u, x, a, ac);
  }

  lemma SumBackC(u: bv32, x: bv32, a: bv32, ac: bv32)
    ensures Sum(a, x, Sub(u, Add(x, Add(a, ac))), ac) == u
  {
    hide *;
    AddRight(x, a, ac);
    SumBackA(u, x, a, ac);
  }

  lemma SumBackD(u: bv32, x: bv32, a: bv32, ac: bv32)
    ensures Sum(a, x, Sub(Sub(Sub(u, ac), x), a), ac) == u
  {
    hide *;
    SubSub(u, ac, x);
    SubSub(u, Add(ac, x), a);
    AddLeft(ac, x, a);
    AddRotate(ac, x, a);
    SumBackA(u, x, a, ac);
  }

  lemma SumBackE(u: bv32, x: bv32, a: bv32, ac: bv32)
    ensures Sum(a, x, Sub(Sub(Sub(u, x), ac), a), ac) == u
  {
    hide *;
    SubSub(u, x, ac);
    SubSub(u, Add(x, ac), a);
    AddLeft(x, ac, a);
    AddSwap(x, ac, a);
    SumBackA(u, x, a, ac);
  }

  /** Four spellings of the forward step. */
  lemma SumForwardA(x: bv32, a: bv32, m: bv32, ac: bv32)
    ensures Add(m, Add3(x, a, ac)) == Sum(a, x, m, ac)
  {
    assert Add(m, x + a + ac) == Sum(a, x, m, ac);
  }

  lemma SumForwardB(x: bv32, a: bv32, m: bv32, ac: bv32)
    ensures Add(Add3(x, a, ac), m) == Sum(a, x, m, ac)
  {
    assert Add(x + a + ac, m) == Sum(a, x, m, ac);
  }

  lemma SumForwardC(x: bv32, a: bv32, m: bv32, ac: bv32)
    ensures Add(x, Add3(a, ac, m)) == Sum(a, x, m, ac)
  {
    assert Add(x, a + ac + m) == Sum(a, x, m, ac);
  }

  lemma SumForwardD(x: bv32, a: bv32, m: bv32, ac: bv32)
    ensures Add(Add3(a, ac, m), x) == Sum(a, x, m, ac)
  {
    assert Add(a + ac + m, x) == Sum(a, x, m, ac);
  }

  /** A message word that gives back the rotated sum makes the step lead to q. */
  lemma Solves(f: Round, a: Word, b: Word, c: Word, d: Word, m: Word, q: Word, ac: bv32, rc: nat)
    requires rc in {5, 7, 12, 17, 22}
    requires Sum(a.v, Mix(f, b, c, d).v, m.v, ac) == Unturn(q, rc, b)
    ensures StepValue(f, a, b, c, d, m, ac, rc) == q
  {
    hide Sum, Mix, Turn, Unturn;
    TurnBack(q, rc, b);
  }

  // ---------------------------------------------------------------- neutral bits

  function Xor(x: bv32, m: bv32): bv32 { x ^ m }

  function Flip(x: Word, m: bv32): Word { W(Xor(x.v, m)) }

  lemma ThirdRaw(b: bv32, c: bv32, d: bv32, m: bv32)
    requires m & !b == 0
    ensures (d ^ m) ^ (b & (c ^ (d ^ m))) == d ^ (b & (c ^ d))
  {}

  lemma ThirdFF(b: bv32, c: bv32, d: bv32, m: bv32)
    requires m & !b == 0
    ensures FF(b, c, d ^ m) == FF(b, c, d)
  {
    ThirdRaw(b, c, d, m);
  }

  lemma SecondRaw(b: bv32, c: bv32, d: bv32, m: bv32)
    requires m & b == 0
    ensures d ^ (b & ((c ^ m) ^ d)) == d ^ (b & (c ^ d))
  {}

  lemma SecondFF(b: bv32, c: bv32, d: bv32, m: bv32)
    requires m & b == 0
    ensures FF(b, c ^ m, d) == FF(b, c, d)
  {
    SecondRaw(b, c, d, m);
  }

  /** Bits of the third argument that change only where the first is set do not matter. */
  lemma NeutralThird(b: Word, c: Word, d: Word, m: bv32)
    requires m & !b.v == 0
    ensures Mix(F, b, c, Flip(d, m)) == Mix(F, b, c, d)
  {
    hide FF;
    ThirdFF(b.v, c.v, d.v, m);
  }

  /** Bits of the second argument that change only where the first is clear do not matter. */
  lemma NeutralSecond(b: Word, c: Word, d: Word, m: bv32)
    requires m & b.v == 0
    ensures Mix(F, b, Flip(c, m), d) == Mix(F, b, c, d)
  {
    hide FF;
    SecondFF(b.v, c.v, d.v, m);
  }
  /** Steps 24 to 33. */
  method StepsTo34(r: Regs, block: array<Word>) returns (a: Word, b: Word, c: Word, d: Word)
    requires block.Length == 16
    ensures Regs(c, d, a, b) == Run(24, 34, r, block[..])
  {
    hide StepValue, Run;
    ghost var w := block[..];
    ghost var o: Word;
    a, b, c, d := r.a, r.b, r.c, r.d;
    o := a;
    a := StepValue(G, a, b, c, d, block[9], 0x21e1cde6, 5);
    RunStep(24, 34, Regs(o, b, c, d), w);
    o := d;
    d := StepValue(G, d, a, b, c, block[14], 0xc33707d6, 9);
    RunStep(25, 34, Regs(o, a, b, c), w);
    o := c;
    c := StepValue(G, c, d, a, b, block[3], 0xf4d50d87, 14);
    RunStep(26, 34, Regs(o, d, a, b), w);
    o := b;
    b := StepValue(G, b, c, d, a, block[8], 0x455a14ed, 20);
    RunStep(27, 34, Regs(o, c, d, a), w);
    o := a;
    a := StepValue(G, a, b, c, d, block[13], 0xa9e3e905, 5);
    RunStep(28, 34, Regs(o, b, c, d), w);
    o := d;
    d := StepValue(G, d, a, b, c, block[2], 0xfcefa3f8, 9);
    RunStep(29, 34, Regs(o, a, b, c), w);
    o := c;
    c := StepValue(G, c, d, a, b, block[7], 0x676f02d9, 14);
    RunStep(30, 34, Regs(o, d, a, b), w);
    o := b;
    b := StepValue(G, b, c, d, a, block[12], 0x8d2a4c8a, 20);
    RunStep(31, 34, Regs(o, c, d, a), w);
    o := a;
    a := StepValue(H, a, b, c, d, block[5], 0xfffa3942, 4);
    RunStep(32, 34, Regs(o, b, c, d), w);
    o := d;
    d := StepValue(H, d, a, b, c, block[8], 0x8771f681, 11);
    RunStep(33, 34, Regs(o, a, b, c), w);
    RunEnd(34, Regs(c, d, a, b), w);
  }

  /** Steps 35 to 47. */
  method StepsTo48(r: Regs, block: array<Word>) returns (a: Word, b: Word, c: Word, d: Word)
    requires block.Length == 16
    ensures Regs(a, b, c, d) == Run(35, 48, r, block[..])
  {
    hide StepValue, Run;
    ghost var w := block[..];
    ghost var o: Word;
    b, c, d, a := r.a, r.b, r.c, r.d;
    o := b;
    b := StepValue(H, b, c, d, a, block[14], 0xfde5380c, 23);
    RunStep(35, 48, Regs(o, c, d, a), w);
    o := a;
    a := StepValue(H, a, b, c, d, block[1], 0xa4beea44, 4);
    RunStep(36, 48, Regs(o, b, c, d), w);
    o := d;
    d := StepValue(H, d, a, b, c, block[4], 0x4bdecfa9, 11);
    RunStep(37, 48, Regs(o, a, b, c), w);
    o := c;
    c := StepValue(H, c, d, a, b, block[7], 0xf6bb4b60, 16);
    RunStep(38, 48, Regs(o, d, a, b), w);
    o := b;
    b := StepValue(H, b, c, d, a, block[10], 0xbebfbc70, 23);
    RunStep(39, 48, Regs(o, c, d, a), w);
    o := a;
    a := StepValue(H, a, b, c, d, block[13], 0x289b7ec6, 4);
    RunStep(40, 48, Regs(o, b, c, d), w);
    o := d;
    d := StepValue(H, d, a, b, c, block[0], 0xeaa127fa, 11);
    RunStep(41, 48, Regs(o, a, b, c), w);
    o := c;
    c := StepValue(H, c, d, a, b, block[3], 0xd4ef3085, 16);
    RunStep(42, 48, Regs(o, d, a, b), w);
    o := b;
    b := StepValue(H, b, c, d, a, block[6], 0x04881d05, 23);
    RunStep(43, 48, Regs(o, c, d, a), w);
    o := a;
    a := StepValue(H, a, b, c, d, block[9], 0xd9d4d039, 4);
    RunStep(44, 48, Regs(o, b, c, d), w);
    o := d;
    d := StepValue(H, d, a, b, c, block[12], 0xe6db99e5, 11);
    RunStep(45, 48, Regs(o, a, b, c), w);
    o := c;
    c := StepValue(H, c, d, a, b, block[15], 0x1fa27cf8, 16);
    RunStep(46, 48, Regs(o, d, a, b), w);
    o := b;
    b := StepValue(H, b, c, d, a, block[2], 0xc4ac5665, 23);
    RunStep(47, 48, Regs(o, c, d, a), w);
    RunEnd(48, Regs(a, b, c, d), w);
  }

  lemma Extend(lo: nat, t: nat, r: Regs, block: Block)
    requires lo <= t < 64
    ensures Run(lo, t + 1, r, block) == Advance(t, Run(lo, t, r, block), block)
  {
    RunSplit(lo, t, t + 1, r, block);
  }

  /** Steps 24 to 47 in scalar form. */
  method ScalarTo48(r: Regs, block: array<Word>, bit15: bool)
    returns (pass: bool, a: Word, b: Word, c: Word, d: Word)
    requires block.Length == 16
    ensures pass == (Bit15(Run(24, 34, r, block[..]), block[..]) == bit15 && !Opposite(Run(24, 48, r, block[..])))
    ensures pass ==> Regs(a, b, c, d) == Run(24, 48, r, block[..])
  {
    hide StepValue, Run, Sum, Turn, Mix, RowOf;
    ghost var w := block[..];
    a, b, c, d := StepsTo34(r, block);
    var sum := Sum(c.v, Mix(H, d, a, b).v, block[11].v, 0x6d9d6122);
    if (sum & 0x8000 != 0) != bit15 {
      return false, a, b, c, d;
    }
    Step34(Regs(c, d, a, b), w);
    Extend(24, 34, r, w);
    c := Turn(sum, 16, d);
    RunSplit(24, 35, 48, r, w);
    a, b, c, d := StepsTo48(Regs(b, c, d, a), block);
    if (b.v ^ d.v) & 0x80000000 != 0 {
      return false, a, b, c, d;
    }
    pass := true;
  }

  lemma Step34(r: Regs, block: Block)
    ensures Advance(34, r, block)
         == Regs(r.d, Turn(Sum(r.a.v, Mix(H, r.b, r.c, r.d).v, block[11].v, 0x6d9d6122), 16, r.b), r.b, r.c)
  {}

  lemma Rows48To51()
    ensures RowOf(48) == Row(I, 0, 6, 0xf4292244) && RowOf(49) == Row(I, 7, 10, 0x432aff97)
    ensures RowOf(50) == Row(I, 14, 15, 0xab9423a7) && RowOf(51) == Row(I, 5, 21, 0xfc93a039)
  {}

  lemma StepIs(t: nat, r: Regs, block: Block, f: Round, k: nat, rc: nat, ac: bv32)
    requires t < 64 && RowOf(t) == Row(f, k, rc, ac)
    ensures Advance(t, r, block) == Regs(r.d, StepValue(f, r.a, r.b, r.c, r.d, block[k], ac, rc), r.b, r.c)
  {
    hide StepValue;
  }

  lemma OppositeIs(r: Regs)
    ensures Opposite(r) == Flipped(r.b, r.d) == Flipped(r.d, r.b)
  {
    hide Top;
    XorSwapsRaw(r.b.v, r.d.v);
  }

  lemma XorSwapsRaw(x: bv32, y: bv32) ensures x ^ y == y ^ x {}

  /** Steps 24 to 51 in scalar form, leaving at the first condition that fails. */
  method ScalarFilter(r: Regs, block: array<Word>, bit15: bool)
    returns (pass: bool, a: Word, b: Word, c: Word, d: Word)
    requires block.Length == 16
    ensures pass == Survives(r, block[..], bit15)
    ensures pass ==> Regs(a, b, c, d) == Run(24, 52, r, block[..])
  {
    hide StepValue, Run, Bit15, Advance, RowOf, Flipped, Opposite;
    ghost var w := block[..];
    pass, a, b, c, d := ScalarTo48(r, block, bit15);
    if !pass {
      return;
    }
    Rows48To51();
    StepIs(48, Regs(a, b, c, d), w, I, 0, 6, 0xf4292244);
    a := StepValue(I, a, b, c, d, block[0], 0xf4292244, 6);
    Extend(24, 48, r, w);
    OppositeIs(Regs(d, a, b, c));
    if Flipped(a, c) {
      return false, a, b, c, d;
    }
    StepIs(49, Regs(d, a, b, c), w, I, 7, 10, 0x432aff97);
    d := StepValue(I, d, a, b, c, block[7], 0x432aff97, 10);
    Extend(24, 49, r, w);
    OppositeIs(Regs(c, d, a, b));
    if !Flipped(b, d) {
      return false, a, b, c, d;
    }
    StepIs(50, Regs(c, d, a, b), w, I, 14, 15, 0xab9423a7);
    c := StepValue(I, c, d, a, b, block[14], 0xab9423a7, 15);
    Extend(24, 50, r, w);
    OppositeIs(Regs(b, c, d, a));
    if Flipped(a, c) {
      return false, a, b, c, d;
    }
    StepIs(51, Regs(b, c, d, a), w, I, 5, 21, 0xfc93a039);
    b := StepValue(I, b, c, d, a, block[5], 0xfc93a039, 21);
    Extend(24, 51, r, w);
    OppositeIs(Regs(a, b, c, d));
    if Flipped(b, d) {
      return false, a, b, c, d;
    }
    pass := true;
  }

  /** Steps 52 to 57, leaving at the first sign comparison that fails. */
  method TailStart(r: Regs, block: array<Word>) returns (pass: bool, a: Word, b: Word, c: Word, d: Word)
    requires block.Length == 16
    ensures pass == SignsFrom(52, 58, r, block[..])
    ensures pass ==> Regs(c, d, a, b) == Run(52, 58, r, block[..])
  {
    hide StepValue, Run;
    ghost var w := block[..];
    a, b, c, d := r.a, r.b, r.c, r.d;
    RunEnd(52, r, w);
    a := StepValue(I, a, b, c, d, block[12], 0x655b59c3, 6);
    Extend(52, 52, r, w);
    if Flipped(a, c) {
      return false, a, b, c, d;
    }
    d := StepValue(I, d, a, b, c, block[3], 0x8f0ccc92, 10);
    Extend(52, 53, r, w);
    if Flipped(b, d) {
      return false, a, b, c, d;
    }
    c := StepValue(I, c, d, a, b, block[10], 0xffeff47d, 15);
    Extend(52, 54, r, w);
    if Flipped(a, c) {
      return false, a, b, c, d;
    }
    b := StepValue(I, b, c, d, a, block[1], 0x85845dd1, 21);
    Extend(52, 55, r, w);
    if Flipped(b, d) {
      return false, a, b, c, d;
    }
    a := StepValue(I, a, b, c, d, block[8], 0x6fa87e4f, 6);
    Extend(52, 56, r, w);
    if Flipped(a, c) {
      return false, a, b, c, d;
    }
    d := StepValue(I, d, a, b, c, block[15], 0xfe2ce6e0, 10);
    Extend(52, 57, r, w);
    if Flipped(b, d) {
      return false, a, b, c, d;
    }
    pass := true;
  }

  /** Steps 52 to 63, leaving at the first sign comparison that fails. */
  method Tail(r: Regs, block: array<Word>) returns (pass: bool, a: Word, b: Word, c: Word, d: Word)
    requires block.Length == 16
    ensures pass == SignsFrom(52, 63, r, block[..])
    ensures pass ==> Regs(a, b, c, d) == Run(52, 64, r, block[..])
  {
    hide StepValue, Run;
    ghost var w := block[..];
    pass, a, b, c, d := TailStart(r, block);
    if !pass {
      return;
    }
    c := StepValue(I, c, d, a, b, block[6], 0xa3014314, 15);
    Extend(52, 58, r, w);
    if Flipped(a, c) {
      return false, a, b, c, d;
    }
    b := StepValue(I, b, c, d, a, block[13], 0x4e0811a1, 21);
    Extend(52, 59, r, w);
    if !Flipped(b, d) {
      return false, a, b, c, d;
    }
    a := StepValue(I, a, b, c, d, block[4], 0xf7537e82, 6);
    Extend(52, 60, r, w);
    if Flipped(a, c) {
      return false, a, b, c, d;
    }
    d := StepValue(I, d, a, b, c, block[11], 0xbd3af235, 10);
    Extend(52, 61, r, w);
    if Flipped(b, d) {
      return false, a, b, c, d;
    }
    c := StepValue(I, c, d, a, b, block[2], 0x2ad7d2bb, 15);
    Extend(52, 62, r, w);
    if Flipped(a, c) {
      return false, a, b, c, d;
    }
    b := StepValue(I, b, c, d, a, block[9], 0xeb86d391, 21);
    Extend(52, 63, r, w);
    pass := true;
  }

  // ---------------------------------------------------------------- q22 to q24

  /** Partial sums for steps 21 to 23, kept while Q9 and Q10 change. */
  datatype Ahead = Ahead(tt22: bv32, tt23: bv32, tt24: bv32)

  function AheadOf(q: seq<Word>, block: Block): Ahead
    requires |q| == 68
  {
    Ahead(
      Add3(Mix(G, q[24], q[23], q[22]).v, q[21].v, 0x02441453),
      Add3(q[22].v, 0xd8a1e681, block[15].v),
      Add3(q[23].v, 0xe7d3fbc8, block[4].v))
  }

  function ForwardSum(q23: Word, q24: Word, t: Ahead, d: Word): bv32 { Add(t.tt23, Mix(G, d, q24, q23).v) }

  /** The state before step 24 for this word 10. */
  function ForwardRegs(q23: Word, q24: Word, t: Ahead, m10: bv32): Regs {
    var d := Turn(Add(t.tt22, m10), 9, q24);
    var c := Turn(ForwardSum(q23, q24, t, d), 14, d);
    Regs(q24, Turn(Add(t.tt24, Mix(G, c, d, q24).v), 20, c), c, d)
  }

  /** The conditions on q22 to q24; the searches differ in whether bit 31 of q22 has to be set. */
  predicate ForwardOk(high: bool, q23: Word, q24: Word, t: Ahead, m10: bv32) {
    var r := ForwardRegs(q23, q24, t, m10);
    && ((r.d.v & 0x80000000 != 0) == high)
    && ForwardSum(q23, q24, t, r.d) & 0x20000 == 0
    && r.c.v & 0x80000000 == 0
    && r.b.v & 0x80000000 != 0
  }

  /** Steps 21 to 23, leaving at the first condition that fails. */
  method Forward(q: array<Word>, high: bool, t: Ahead, m10: bv32) returns (pass: bool, r: Regs)
    requires q.Length == 68
    ensures pass == ForwardOk(high, q[23], q[24], t, m10)
    ensures pass ==> r == ForwardRegs(q[23], q[24], t, m10)
  {
    hide Mix, Add, Turn;
    var aa, bb := q[24], q[23];
    pass, r := false, Regs(aa, bb, bb, bb);
    var dd := Turn(Add(t.tt22, m10), 9, aa);
    if (dd.v & 0x80000000 != 0) != high {
      return;
    }
    var ccs := Add(t.tt23, Mix(G, dd, aa, bb).v);
    if ccs & 0x20000 != 0 {
      return;
    }
    var cc := Turn(ccs, 14, dd);
    if cc.v & 0x80000000 != 0 {
      return;
    }
    bb := Turn(Add(t.tt24, Mix(G, cc, dd, aa).v), 20, cc);
    if bb.v & 0x80000000 == 0 {
      return;
    }
    pass, r := true, Regs(aa, bb, cc, dd);
  }

  // ---------------------------------------------------------------- the comparison

  /** block2: bit 31 of words 4 and 14 and bit 15 of word 11 are the message difference. */
  function Perturb(block: Block, up: bool): Block {
    block[4 := Plus(block[4], W(0x80000000))]
         [11 := Plus(block[11], W(if up then 0x8000 else 0xffff8000))]
         [14 := Plus(block[14], W(0x80000000))]
  }

  function AddDelta(r: Regs): Regs {
    Regs(Plus(r.a, W(0x80000000)),
         Plus(Plus(r.b, W(0x80000000)), W(0x02000000)),
         Plus(Plus(r.c, W(0x80000000)), W(0x02000000)),
         Plus(Plus(r.d, W(0x80000000)), W(0x02000000)))
  }

  /** The chaining value after the first block suits the Wang search of the second block. */
  predicate WangReady(r: Regs) {
    && (r.c.v ^ r.b.v) & 0x86000000 == 0x02000000
    && (r.b.v ^ r.d.v) & 0x82000000 == 0
    && r.b.v & 0x06000020 == 0
  }

  /** The chaining value after the first block suits one of the Stevens searches. */
  predicate StevensReady(r: Regs) {
    && (r.b.v ^ r.c.v) & 0x80000000 == 0
    && (r.b.v ^ r.d.v) & 0x80000000 == 0
    && r.d.v & 0x02000000 == 0
    && r.c.v & 0x02000000 == 0
    && r.b.v & 0x02000000 == 0
    && (r.c.v ^ r.b.v) & 1 == 0
  }

  predicate Useful(r: Regs) { WangReady(r) || StevensReady(r) }

  method CompressOf(iv: Regs, block: array<Word>) returns (r: Regs)
    requires block.Length == 16
    ensures r == Compress(iv, block[..])
  {
    hide Compress;
    var ihv := new Word[4] [iv.a, iv.b, iv.c, iv.d];
    assert RegsOf(ihv[..]) == iv;
    Md5Compress(ihv, block);
    r := Regs(ihv[0], ihv[1], ihv[2], ihv[3]);
  }

  /** A copy of the block with the message difference added. */
  method PerturbedCopy(block: array<Word>, up: bool) returns (block2: array<Word>)
    requires block.Length == 16
    ensures fresh(block2) && block2.Length == 16 && block2[..] == Perturb(block[..], up)
  {
    hide Plus;
    block2 := new Word[16](i requires 0 <= i < 16 reads block => block[i]);
    block2[4] := Plus(block2[4], W(0x80000000));
    block2[11] := Plus(block2[11], W(if up then 0x8000 else 0xffff8000));
    block2[14] := Plus(block2[14], W(0x80000000));
    assert block2[..] == Perturb(block[..], up);
  }

  datatype Outcome = Found | Exhausted | Aborted

  /** The whole compression, from the state before step 24 and the state after the vector part. */
  lemma CompressFrom(iv: Regs, start: Regs, middle: Regs, w: Block)
    requires Run(0, 24, iv, w) == start && Run(24, 52, start, w) == middle
    ensures Compress(iv, w) == PlusRegs(iv, Run(52, 64, middle, w))
  {
    hide Advance, PlusRegs;
    RunSplit(0, 24, 64, iv, w);
    RunSplit(24, 52, 64, start, w);
  }

  // ---------------------------------------------------------------- keeping steps in place

  lemma FitsIs(q: seq<Word>, block: Block, t: nat, f: Round, k: nat, rc: nat, ac: bv32)
    requires t < 64 && t + 5 <= |q| && RowOf(t) == Row(f, k, rc, ac)
    ensures Fits(q, block, t) == (StepValue(f, q[t], q[t + 3], q[t + 2], q[t + 1], block[k], ac, rc) == q[t + 4])
  {
    hide StepValue, RowOf;
  }

  /** A step depends on five state words and one message word. */
  lemma FitsSame(q: seq<Word>, q': seq<Word>, block: Block, block': Block, t: nat)
    requires t < 64 && t + 5 <= |q| && |q| == |q'|
    requires q[t..t + 5] == q'[t..t + 5] && block[RowOf(t).k] == block'[RowOf(t).k]
    ensures Fits(q, block, t) == Fits(q', block', t)
  {
    hide StepValue, RowOf;
    var x, y := q[t..t + 5], q'[t..t + 5];
    assert x[0] == y[0] && x[1] == y[1] && x[2] == y[2] && x[3] == y[3] && x[4] == y[4];
  }

  lemma MixOnly(f: Round, a: Word, b: Word, c: Word, d: Word, c': Word, d': Word, m: Word, ac: bv32, rc: nat)
    requires 0 < rc < 32 && Mix(f, b, c, d) == Mix(f, b, c', d')
    ensures StepValue(f, a, b, c, d, m, ac, rc) == StepValue(f, a, b, c', d', m, ac, rc)
  {
    hide Mix, Sum, Turn;
  }

  /** Step 20 is run forward for every value of Q4. */
  lemma Step20(q: seq<Word>, block: Block, tt21: bv32)
    requires |q| == 68
    requires tt21 == Add3(Mix(G, q[23], q[22], q[21]).v, q[20].v, 0xd62f105d)
    requires q[24] == Turn(Add(tt21, block[5].v), 5, q[23])
    ensures Fits(q, block, 20)
  {
    hide Fits, Turn, Mix, Sub, Add, Add3, Sum;
    SumForwardB(Mix(G, q[23], q[22], q[21]).v, q[20].v, block[5].v, 0xd62f105d);
    FitsIs(q, block, 20, G, 5, 5, 0xd62f105d);
  }

  lemma RoundOneRows()
    ensures RowOf(0) == Row(F, 0, 7, 0xd76aa478) && RowOf(2) == Row(F, 2, 17, 0x242070db)
    ensures RowOf(3) == Row(F, 3, 22, 0xc1bdceee) && RowOf(4) == Row(F, 4, 7, 0xf57c0faf)
    ensures RowOf(5) == Row(F, 5, 12, 0x4787c62a) && RowOf(6) == Row(F, 6, 17, 0xa8304613)
    ensures RowOf(7) == Row(F, 7, 22, 0xfd469501) && RowOf(11) == Row(F, 11, 22, 0x895cd7be)
    ensures RowOf(14) == Row(F, 14, 17, 0xa679438e) && RowOf(15) == Row(F, 15, 22, 0x49b40821)
    ensures RowOf(20).k == 5
  {}

  lemma WordsBeforeQ4(t: nat)
    requires 0 <= t < 3 || 14 <= t < 20
    ensures var k := RowOf(t).k; k !in {3, 4, 5, 7, 8, 9, 10, 12, 13}
  {}

  lemma Rows6And11() ensures RowOf(6).k == 6 && RowOf(11).k == 11 {}

  /** Step 6 survives changes of Q4 in bits that Q6 has. */
  lemma KeepStep6(q: seq<Word>, block: Block, q4: Word, m: bv32)
    requires |q| == 68 && Fits(q[7 := q4], block, 6)
    requires q[7] == Flip(q4, m) && m & !q[9].v == 0
    ensures Fits(q, block, 6)
  {
    hide Fits, StepValue, Mix, Flip;
    NeutralThird(q[9], q[8], q4, m);
    FitsIs(q, block, 6, F, 6, 17, 0xa8304613);
    FitsIs(q[7 := q4], block, 6, F, 6, 17, 0xa8304613);
    MixOnly(F, q[6], q[9], q[8], q[7], q[8], q4, block[6], 0xa8304613, 17);
  }

  /** Words 3, 4 and 7 for the current Q4. */
  function Rederived(q: seq<Word>, block: Block): (r: Block)
    requires |q| == 68
  {
    block[3 := ReverseValue(F, q[3], q[6], q[5], q[4], q[7], 0xc1bdceee, 22)]
         [4 := ReverseValue(F, q[4], q[7], q[6], q[5], q[8], 0xf57c0faf, 7)]
         [7 := ReverseValue(F, q[7], q[10], q[9], q[8], q[11], 0xfd469501, 22)]
  }

  /** Word 5 and q21 for the current Q4. */
  function Word5(q: seq<Word>): Word
    requires |q| == 68
  {
    ReverseValue(F, q[5], q[8], q[7], q[6], q[9], 0x4787c62a, 12)
  }

  function Sum21(q: seq<Word>): bv32
    requires |q| == 68
  {
    Add3(Mix(G, q[23], q[22], q[21]).v, q[20].v, 0xd62f105d)
  }

  function Q21(q: seq<Word>): Word
    requires |q| == 68
  {
    Turn(Add(Sum21(q), Word5(q).v), 5, q[23])
  }

  predicate Ok21(q: seq<Word>)
    requires |q| == 68
  {
    (Q21(q).v ^ q[23].v) & 0x80020000 == 0
  }

  /** The state words and the block for a value of Q4. */
  function Q4State(q: seq<Word>, q4: Word): (r: seq<Word>)
    requires |q| == 68
    ensures |r| == 68
  {
    q[7 := q4][24 := Q21(q[7 := q4])]
  }

  function Q4Block(q: seq<Word>, block: Block, q4: Word): Block
    requires |q| == 68
  {
    Rederived(Q4State(q, q4), block[5 := Word5(q[7 := q4])])
  }

  lemma Q4Local(q: seq<Word>, q': seq<Word>, block: Block, block': Block, q4: Word)
    requires |q| == |q'| == 68
    requires forall i :: 0 <= i < 68 && i !in {7, 12, 13, 24} ==> q'[i] == q[i]
    requires forall i :: 0 <= i < 16 && i !in {3, 4, 5, 7, 8, 9, 10, 12, 13} ==> block'[i] == block[i]
    ensures Ok21(q'[7 := q4]) == Ok21(q[7 := q4])
    ensures forall i :: 0 <= i < 68 && i !in {12, 13} ==> Q4State(q', q4)[i] == Q4State(q, q4)[i]
    ensures forall i :: 0 <= i < 16 && i !in {8, 9, 10, 12, 13} ==> Q4Block(q', block', q4)[i] == Q4Block(q, block, q4)[i]
  {
    hide ReverseValue, Turn, Add, Mix, Add3;
    var s, s' := q[7 := q4], q'[7 := q4];
    assert Word5(s') == Word5(s) && Sum21(s') == Sum21(s) && Q21(s') == Q21(s);
  }

  method Rederive(q: array<Word>, block: array<Word>)
    requires q.Length == 68 && block.Length == 16 && q != block
    requires Fits(q[..], block[..], 5) && Fits(q[..], block[..], 20)
    modifies block
    ensures Fits(q[..], block[..], 3) && Fits(q[..], block[..], 4) && Fits(q[..], block[..], 5)
    ensures Fits(q[..], block[..], 7) && Fits(q[..], block[..], 20)
    ensures block[..] == Rederived(q[..], old(block[..]))
  {
    hide Fits, RowOf, ReverseValue;
    RoundOneRows();
    ghost var b0 := block[..];
    Reverse(q, block, 3, 0xc1bdceee, 22);
    ghost var b1 := block[..];
    Reverse(q, block, 4, 0xf57c0faf, 7);
    ghost var b2 := block[..];
    Reverse(q, block, 7, 0xfd469501, 22);
    FitsSame(q[..], q[..], b1, block[..], 3);
    FitsSame(q[..], q[..], b2, block[..], 4);
    FitsSame(q[..], q[..], b0, block[..], 5);
    FitsSame(q[..], q[..], b0, block[..], 20);
  }

  method Sum21Of(q: array<Word>) returns (tt21: bv32)
    requires q.Length == 68
    ensures tt21 == Sum21(q[..])
  {
    hide Mix, Add3;
    tt21 := Add3(Mix(G, q[23], q[22], q[21]).v, q[20].v, 0xd62f105d);
  }

  /** Put a value of Q4 in place: words 5 and q21, and, if q21 passes, words 3, 4 and 7. */
  method PlaceQ4(q: array<Word>, block: array<Word>, q4: Word, tt21: bv32) returns (pass: bool)
    requires q.Length == 68 && block.Length == 16 && q != block && tt21 == Sum21(q[..])
    modifies q, block
    ensures pass == Ok21(old(q[..])[7 := q4])
    ensures q[..] == if pass then Q4State(old(q[..]), q4) else old(q[..])[7 := q4]
    ensures block[..] == if pass then Q4Block(old(q[..]), old(block[..]), q4)
                         else old(block[..])[5 := Word5(old(q[..])[7 := q4])]
    ensures pass ==> Fits(q[..], block[..], 3) && Fits(q[..], block[..], 4) && Fits(q[..], block[..], 5)
    ensures pass ==> Fits(q[..], block[..], 7) && Fits(q[..], block[..], 20)
  {
    hide Fits, Turn, Mix, Add, Add3, RowOf, ReverseValue, Rederived;
    RoundOneRows();
    ghost var q0, block0 := q[..], block[..];
    q[7] := q4;
    Reverse(q, block, 5, 0x4787c62a, 12);
    var q21 := Turn(Add(tt21, block[5].v), 5, q[23]);
    ghost var s := q0[7 := q4];
    assert q[..] == s && block[..] == block0[5 := Word5(s)];
    assert q21 == Q21(s);
    if (q21.v ^ q[23].v) & 0x80020000 != 0 {
      return false;
    }
    q[24] := q21;
    Step20(q[..], block[..], tt21);
    FitsSame(s, q[..], block[..], block[..], 5);
    Rederive(q, block);
    pass := true;
  }

  /** What placing a value of Q4 leaves alone. */
  lemma Q4Frame(q: seq<Word>, block: Block, q4: Word)
    requires |q| == 68
    ensures forall i :: 0 <= i < 68 && i != 7 && i != 24 ==> Q4State(q, q4)[i] == q[i]
    ensures forall i :: 0 <= i < 16 && i !in {3, 4, 5, 7} ==> Q4Block(q, block, q4)[i] == block[i]
    ensures Q4State(q, q4)[7] == q4
  {
    hide ReverseValue, Q21;
  }

  /** A random word with some bits left free, some forced, and some copied from an earlier state word. */
  function Drawn(r: Word, free: bv32, forced: bv32, from: Word, same: bv32, opposite: bv32): (x: Word)
    ensures Disjoint(free, forced, same, opposite) ==> Meets(x, r, from, free, forced, same, opposite)
  {
    hide Meets, DrawnBits;
    if Disjoint(free, forced, same, opposite) then
      DrawnMeets(r.v, free, forced, from.v, same, opposite);
      W(DrawnBits(r.v, free, forced, from.v, same, opposite))
    else W(DrawnBits(r.v, free, forced, from.v, same, opposite))
  }

  function DrawnBits(r: bv32, free: bv32, forced: bv32, from: bv32, same: bv32, opposite: bv32): bv32 {
    (r & free) | forced | (from & same) | (!from & opposite)
  }

  lemma DrawnMeets(r: bv32, free: bv32, forced: bv32, from: bv32, same: bv32, opposite: bv32)
    requires Disjoint(free, forced, same, opposite)
    ensures Meets(W(DrawnBits(r, free, forced, from, same, opposite)), W(r), W(from), free, forced, same, opposite)
  {
    hide DrawnBits, Disjoint, Agree, Differ, Set, Clear, Others;
    FreeBits(r, free, forced, from, same, opposite);
    SetBits(r, free, forced, from, same, opposite);
    SameBits(r, free, forced, from, same, opposite);
    OppositeBits(r, free, forced, from, same, opposite);
  }

  lemma FreeBits(r: bv32, free: bv32, forced: bv32, from: bv32, same: bv32, opposite: bv32)
    requires Disjoint(free, forced, same, opposite)
    ensures Agree(DrawnBits(r, free, forced, from, same, opposite), r, free)
  {}

  lemma SetBits(r: bv32, free: bv32, forced: bv32, from: bv32, same: bv32, opposite: bv32)
    ensures Set(DrawnBits(r, free, forced, from, same, opposite), forced)
    ensures Clear(DrawnBits(r, free, forced, from, same, opposite), Others(free, forced, same, opposite))
  {}

  lemma SameBits(r: bv32, free: bv32, forced: bv32, from: bv32, same: bv32, opposite: bv32)
    requires Disjoint(free, forced, same, opposite)
    ensures Agree(DrawnBits(r, free, forced, from, same, opposite), from, same)
  {}

  lemma OppositeBits(r: bv32, free: bv32, forced: bv32, from: bv32, same: bv32, opposite: bv32)
    requires Disjoint(free, forced, same, opposite)
    ensures Differ(DrawnBits(r, free, forced, from, same, opposite), from, opposite)
  {}

  predicate Disjoint(a: bv32, b: bv32, c: bv32, d: bv32) {
    a & b == 0 && (a | b) & c == 0 && (a | b | c) & d == 0
  }

  /** Bit conditions on a state word: the free bits are those of r, the ones are set, some are as in an earlier word and
      some the opposite, and all others are clear. */
  predicate Meets(x: Word, r: Word, from: Word, free: bv32, ones: bv32, same: bv32, differ: bv32) {
    && Agree(x.v, r.v, free) && Set(x.v, ones) && Agree(x.v, from.v, same) && Differ(x.v, from.v, differ)
    && Clear(x.v, Others(free, ones, same, differ))
  }

  predicate Agree(x: bv32, y: bv32, bits: bv32) { (x ^ y) & bits == 0 }

  predicate Differ(x: bv32, y: bv32, bits: bv32) { (x ^ y) & bits == bits }

  predicate Set(x: bv32, bits: bv32) { x & bits == bits }

  predicate Clear(x: bv32, bits: bv32) { x & bits == 0 }

  function Others(a: bv32, b: bv32, c: bv32, d: bv32): bv32 { !(a | b | c | d) }

  lemma KeptByWord2(q: seq<Word>, w: Block, w': Block)
    requires |q| == 68 && forall i :: 0 <= i < 16 && i != 2 ==> w'[i] == w[i]
    requires Fits(q, w, 1) && Fits(q, w, 16) && Fits(q, w, 17) && Fits(q, w, 18) && Fits(q, w, 19)
    ensures Fits(q, w', 1) && Fits(q, w', 16) && Fits(q, w', 17) && Fits(q, w', 18) && Fits(q, w', 19)
  {
    hide Fits, RowOf;
    RowsAround17();
    FitsSame(q, q, w, w', 1);
    FitsSame(q, q, w, w', 16);
    FitsSame(q, q, w, w', 17);
    FitsSame(q, q, w, w', 18);
    FitsSame(q, q, w, w', 19);
  }

  lemma RowsAround17()
    ensures RowOf(1).k == 1 && RowOf(16).k == 1 && RowOf(17).k == 6 && RowOf(18).k == 11 && RowOf(19).k == 0
  {}

  /** Steps 21 to 23, run forward before the scan. */
  lemma Steps21To23(q: seq<Word>, w: Block, r: Regs)
    requires |q| == 68 && r == ForwardRegs(q[23], q[24], AheadOf(q, w), w[10].v)
    requires q[25] == r.d && q[26] == r.c && q[27] == r.b
    ensures Fits(q, w, 21) && Fits(q, w, 22) && Fits(q, w, 23)
  {
    hide Fits, Turn, Mix, Sub, Add, Add3, Sum, Unturn;
    SumForwardB(Mix(G, q[24], q[23], q[22]).v, q[21].v, w[10].v, 0x02441453);
    FitsIs(q, w, 21, G, 10, 9, 0x02441453);
    SumForwardD(Mix(G, q[25], q[24], q[23]).v, q[22].v, w[15].v, 0xd8a1e681);
    FitsIs(q, w, 22, G, 15, 14, 0xd8a1e681);
    SumForwardD(Mix(G, q[26], q[25], q[24]).v, q[23].v, w[4].v, 0xe7d3fbc8);
    FitsIs(q, w, 23, G, 4, 20, 0xe7d3fbc8);
  }
}
