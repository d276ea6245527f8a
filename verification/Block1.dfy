/** find_block1 and the five searches behind it: Wang and the four Stevens variants. */
module Block1 {
  import opened Md5
  import opened SearchCommon

  datatype Variant = Wang | S00 | S01 | S10 | S11

  // ---------------------------------------------------------------- what a second block must do

  /** The chaining value of the other message, as each search derives it from its own. */
  function OtherIv(v: Variant, iv: Regs): Regs {
    if v == Wang then AddDelta(iv)
    else
      Regs(Plus(iv.a, W(0x80000000)),
           Minus(Plus(iv.b, W(0x80000000)), W(0x02000000)),
           Minus(Plus(iv.c, W(0x80000000)), W(0x02000000)),
           Minus(Plus(iv.d, W(0x80000000)), W(0x02000000)))
  }

  function Minus(x: Word, y: Word): Word { W(x.v - y.v) }

  /** The exit condition: both messages arrive at the same chaining value. */
  predicate SecondPair(v: Variant, iv: Regs, block: Block) {
    Compress(OtherIv(v, iv), Perturb(block, v != Wang)) == Compress(iv, block)
  }

  method IsSecondPair(v: Variant, iv: Regs, block: array<Word>) returns (yes: bool)
    requires block.Length == 16
    ensures yes == SecondPair(v, iv, block[..])
  {
    hide Compress, Plus, Perturb, OtherIv;
    var block2 := PerturbedCopy(block, v != Wang);
    var r1 := CompressOf(iv, block);
    var r2 := CompressOf(OtherIv(v, iv), block2);
    yes := r2 == r1;
  }

  /** The search has only appended comparisons whose final registers are those of the compression function. */
  ghost predicate Extends(iv: Regs, d0: seq<Dot>, d1: seq<Dot>) {
    d0 <= d1 && forall i :: |d0| <= i < |d1| ==> Honest(iv, d1[i])
  }

  lemma ExtendsChain(iv: Regs, d0: seq<Dot>, d1: seq<Dot>, d2: seq<Dot>)
    requires Extends(iv, d0, d1) && Extends(iv, d1, d2)
    ensures Extends(iv, d0, d2)
  {
    hide Honest;
  }

  lemma ExtendsSelf(iv: Regs, d: seq<Dot>) ensures Extends(iv, d, d) {}

  // ---------------------------------------------------------------- the bits each search may change

  /** The bits of Q9 that the inner loop changes. */
  function ScanMask(v: Variant): bv32 {
    match v
    case Wang => 0x6074041c
    case S00 => 0x04310d12
    case S01 => 0x44310d02
    case S10 => 0x2471042a
    case S11 => 0x04710c12
  }

  function ScanCount(v: Variant): (n: nat)
    ensures n <= 1024
  {
    if v == Wang || v == S10 then 1024 else 512
  }

  /** q9mask2 of the Wang search, q9mask of the Stevens searches. */
  function Q9Scan(v: Variant, k: bv32): bv32 { ScanBits(v, k) & ScanMask(v) }

  function ScanBits(v: Variant, k: bv32): bv32 {
    match v
    case Wang => (k << 1) ^ (k << 7) ^ (k << 14) ^ (k << 15) ^ (k << 22)
    case S00 => (k << 1) ^ (k << 3) ^ (k << 6) ^ (k << 8) ^ (k << 11) ^ (k << 14) ^ (k << 18)
    case S01 => (k << 1) ^ (k << 7) ^ (k << 9) ^ (k << 12) ^ (k << 15) ^ (k << 19) ^ (k << 22)
    case S10 =>
      (k << 1) ^ (k << 2) ^ (k << 3) ^ (k << 7) ^ (k << 12) ^ (k << 15) ^ (k << 18) ^ (k << 20)
    case S11 => (k << 1) ^ (k << 3) ^ (k << 8) ^ (k << 12) ^ (k << 15) ^ (k << 18)
  }

  lemma ScanInside(v: Variant, k: bv32)
    ensures Q9Scan(v, k) & !ScanMask(v) == 0
  {
    hide ScanMask, ScanBits;
    Masked(ScanBits(v, k), ScanMask(v));
  }

  lemma Masked(x: bv32, m: bv32) ensures (x & m) & !m == 0 {}

  lemma ScanKeeps(v: Variant, k: bv32, q10: bv32, q11: bv32)
    requires q10 & ScanMask(v) == 0 && q11 & ScanMask(v) == ScanMask(v)
    ensures Q9Scan(v, k) & q10 == 0 && Q9Scan(v, k) & !q11 == 0
  {
    hide Q9Scan, ScanMask;
    ScanInside(v, k);
    MaskedBits(Q9Scan(v, k), ScanMask(v), q10, q11);
  }

  lemma MaskedBits(x: bv32, m: bv32, y: bv32, z: bv32)
    requires x & !m == 0 && y & m == 0 && z & m == m
    ensures x & y == 0 && x & !z == 0
  {}

  // ---------------------------------------------------------------- the inner loop over Q9

  /** The state array with q22 to q24, which the search keeps in locals, in their places. */
  ghost function Later(q: seq<Word>, r: Regs): (e: seq<Word>)
    requires |q| == 68
    ensures |e| == 68
  {
    q[25 := r.d][26 := r.c][27 := r.b]
  }

  /** Everything is in place except words 8, 9 and 12; q9 is the value of Q9 that words 10 and 11 were made for. */
  ghost predicate Inner(v: Variant, iv: Regs, q: seq<Word>, block: Block, q9: Word, r: Regs) {
    && |q| == 68
    && At(q, 0) == iv
    && (forall t :: 0 <= t < 8 || 13 <= t < 24 ==> Fits(q, block, t))
    && FitsAll(q[12 := q9], block, 10, 12)
    && At(q, 24) == r
    && RoomToScan(v, q[13], q[14])
  }

  /** Q10 has none of the bits the inner loop changes in Q9, and Q11 has all of them. */
  predicate RoomToScan(v: Variant, q10: Word, q11: Word) {
    q10.v & ScanMask(v) == 0 && q11.v & ScanMask(v) == ScanMask(v)
  }

  lemma WordsOfInner(t: nat)
    requires 0 <= t < 8 || 13 <= t < 24
    ensures RowOf(t).k !in {8, 9, 12}
  {}

  lemma Rows10And11() ensures RowOf(10).k == 10 && RowOf(11).k == 11 {}

  lemma InnerKept(v: Variant, iv: Regs, q: seq<Word>, q': seq<Word>, block: Block, block': Block, q9: Word, r: Regs)
    requires Inner(v, iv, q, block, q9, r) && |q'| == 68
    requires forall i :: 0 <= i < 68 && i != 12 ==> q'[i] == q[i]
    requires forall i :: 0 <= i < 16 && i !in {8, 9, 12} ==> block'[i] == block[i]
    ensures Inner(v, iv, q', block', q9, r)
  {
    hide Fits, RowOf, RoomToScan;
    FitsKept(q, q', block, block');
    assert q[12 := q9] == q'[12 := q9];
    Rows10And11();
    FitsSame(q[12 := q9], q'[12 := q9], block, block', 10);
    FitsSame(q[12 := q9], q'[12 := q9], block, block', 11);
  }

  lemma FitsKept(q: seq<Word>, q': seq<Word>, block: Block, block': Block)
    requires |q| == |q'| == 68
    requires forall t :: 0 <= t < 8 || 13 <= t < 24 ==> Fits(q, block, t)
    requires forall i :: 0 <= i < 68 && i != 12 ==> q'[i] == q[i]
    requires forall i :: 0 <= i < 16 && i !in {8, 9, 12} ==> block'[i] == block[i]
    ensures forall t :: 0 <= t < 8 || 13 <= t < 24 ==> Fits(q', block', t)
  {
    hide Fits, RowOf;
    forall t: nat | t < 8 || 13 <= t < 24
      ensures Fits(q', block', t)
    {
      WordsOfInner(t);
      FitsSame(q, q', block, block', t);
    }
  }

  /** Step 10 survives a change of Q9 in bits that Q10 does not have. */
  lemma KeepStep10(q: seq<Word>, block: Block, q9: Word, m: bv32)
    requires |q| == 68 && Fits(q[12 := q9], block, 10)
    requires q[12] == Flip(q9, m) && m & q[13].v == 0
    ensures Fits(q, block, 10)
  {
    hide Fits, StepValue, Mix, Flip;
    NeutralSecond(q[13], q9, q[11], m);
    FitsIs(q, block, 10, F, 10, 17, 0xffff5bb1);
    FitsIs(q[12 := q9], block, 10, F, 10, 17, 0xffff5bb1);
    MixOnly(F, q[10], q[13], q[12], q[11], q9, q[11], block[10], 0xffff5bb1, 17);
  }

  /** Step 11 survives changes of Q9 in bits that Q11 has and of Q10 in bits that Q11 does not have. */
  lemma KeepStep11(q: seq<Word>, q': seq<Word>, block: Block, m9: bv32, m10: bv32)
    requires |q| == |q'| == 68 && Fits(q', block, 11)
    requires q[11] == q'[11] && q[14] == q'[14] && q[15] == q'[15]
    requires q[12] == Flip(q'[12], m9) && q[13] == Flip(q'[13], m10)
    requires m9 & !q[14].v == 0 && m10 & q[14].v == 0
    ensures Fits(q, block, 11)
  {
    hide Fits, StepValue, Mix, Flip;
    NeutralThird(q[14], q[13], q'[12], m9);
    NeutralSecond(q[14], q'[13], q'[12], m10);
    FitsIs(q, block, 11, F, 11, 22, 0x895cd7be);
    FitsIs(q', block, 11, F, 11, 22, 0x895cd7be);
    MixOnly(F, q[11], q[14], q[13], q[12], q'[13], q'[12], block[11], 0x895cd7be, 22);
  }

  lemma FlipNothing(x: Word) ensures Flip(x, 0) == x {}

  /** With words 8, 9 and 12 rederived for the current Q9, steps 0 to 23 lead to the recorded state. */
  lemma InnerPrepared(v: Variant, iv: Regs, q: seq<Word>, block: Block, q9: Word, r: Regs, k: bv32)
    requires Inner(v, iv, q, block, q9, r) && q[12] == Flip(q9, Q9Scan(v, k))
    requires Fits(q, block, 8) && Fits(q, block, 9) && Fits(q, block, 12)
    ensures Run(0, 24, iv, block) == r
  {
    hide Fits, Run, Flip, Q9Scan, ScanMask;
    var m := Q9Scan(v, k);
    ScanKeeps(v, k, q[13].v, q[14].v);
    KeepStep10(q, block, q9, m);
    FlipNothing(q[13]);
    NothingBits(q[14].v);
    KeepStep11(q, q[12 := q9], block, m, 0);
    FitsRun(q, block, 0, 24);
  }

  lemma NothingBits(x: bv32) ensures 0 & x == 0 {}

  /** The state words and the block of candidate k of the inner loop. */
  ghost function ScanState(v: Variant, q: seq<Word>, q9: Word, k: nat): (r: seq<Word>)
    requires |q| == 68 && k < 1024
    ensures |r| == 68
  {
    q[12 := Flip(q9, Q9Scan(v, k as bv32))]
  }

  ghost function ScanBlock(v: Variant, q: seq<Word>, block: Block, q9: Word, k: nat): Block
    requires |q| == 68 && k < 1024
  {
    var s := ScanState(v, q, q9, k);
    block[8 := ReverseValue(F, s[8], s[11], s[10], s[9], s[12], 0x698098d8, 7)]
         [9 := ReverseValue(F, s[9], s[12], s[11], s[10], s[13], 0x8b44f7af, 12)]
         [12 := ReverseValue(F, s[12], s[15], s[14], s[13], s[16], 0x6b901122, 7)]
  }

  /** Candidate k passes every filter and meets the exit condition. */
  ghost predicate Succeeds(v: Variant, iv: Regs, q: seq<Word>, block: Block, q9: Word, r: Regs, k: nat)
    requires |q| == 68 && k < 1024
  {
    var w := ScanBlock(v, q, block, q9, k);
    Survives(r, w, v == Wang) && SignsFrom(52, 63, Run(24, 52, r, w), w) && SecondPair(v, iv, w)
  }

  lemma ScanBlockLocal(v: Variant, q: seq<Word>, q': seq<Word>, block: Block, block': Block, q9: Word, k: nat)
    requires |q| == |q'| == 68 && k < 1024
    requires forall i :: 0 <= i < 68 && i != 12 ==> q'[i] == q[i]
    requires forall i :: 0 <= i < 16 && i !in {8, 9, 12} ==> block'[i] == block[i]
    ensures ScanBlock(v, q', block', q9, k) == ScanBlock(v, q, block, q9, k)
  {
    hide ReverseValue, Flip, Q9Scan;
    assert ScanState(v, q', q9, k) == ScanState(v, q, q9, k);
  }

  lemma RowsOfScan()
    ensures RowOf(8) == Row(F, 8, 7, 0x698098d8) && RowOf(9) == Row(F, 9, 12, 0x8b44f7af)
    ensures RowOf(12) == Row(F, 12, 7, 0x6b901122)
  {}

  /** Put candidate k in place: Q9 and words 8, 9 and 12. */
  method PlaceCandidate(v: Variant, q: array<Word>, block: array<Word>, q9: Word, k: nat)
    requires q.Length == 68 && block.Length == 16 && q != block && k < 1024
    modifies q, block
    ensures q[..] == ScanState(v, old(q[..]), q9, k)
    ensures block[..] == ScanBlock(v, old(q[..]), old(block[..]), q9, k)
    ensures Fits(q[..], block[..], 8) && Fits(q[..], block[..], 9) && Fits(q[..], block[..], 12)
  {
    hide Fits, RowOf, ReverseValue, StepValue, Flip, Q9Scan;
    RowsOfScan();
    q[12] := Flip(q9, Q9Scan(v, k as bv32));
    block[8] := ReverseValue(F, q[8], q[11], q[10], q[9], q[12], 0x698098d8, 7);
    block[9] := ReverseValue(F, q[9], q[12], q[11], q[10], q[13], 0x8b44f7af, 12);
    block[12] := ReverseValue(F, q[12], q[15], q[14], q[13], q[16], 0x6b901122, 7);
    ReverseFits(q[..], block[..], 8, 0x698098d8, 7);
    ReverseFits(q[..], block[..], 9, 0x8b44f7af, 12);
    ReverseFits(q[..], block[..], 12, 0x6b901122, 7);
  }

  lemma ReverseFits(q: seq<Word>, block: Block, t: nat, ac: bv32, rc: nat)
    requires |q| == 68 && t < 16 && RowOf(t) == Row(F, t, rc, ac) && rc in {7, 12, 17, 22}
    requires block[t] == ReverseValue(F, q[t], q[t + 3], q[t + 2], q[t + 1], q[t + 4], ac, rc)
    ensures Fits(q, block, t)
  {
    hide StepValue, ReverseValue, RowOf;
    ReverseStep(F, q[t], q[t + 3], q[t + 2], q[t + 1], q[t + 4], ac, rc);
  }

  ghost predicate NoneSucceeds(v: Variant, iv: Regs, q: seq<Word>, block: Block, q9: Word, r: Regs, n: nat) {
    |q| == 68 && forall k :: 0 <= k < n <= 1024 ==> !Succeeds(v, iv, q, block, q9, r, k)
  }

  lemma NoneSucceedsAtFirst(v: Variant, iv: Regs, q: seq<Word>, block: Block, q9: Word, r: Regs)
    requires |q| == 68
    ensures NoneSucceeds(v, iv, q, block, q9, r, 0)
  {}

  lemma NoneSucceedsNext(v: Variant, iv: Regs, q: seq<Word>, block: Block, q9: Word, r: Regs, k: nat)
    requires k < 1024 && NoneSucceeds(v, iv, q, block, q9, r, k) && !Succeeds(v, iv, q, block, q9, r, k)
    ensures NoneSucceeds(v, iv, q, block, q9, r, k + 1)
  {
    hide Succeeds;
  }

  /** The inner loop: every value of Q9 in turn, through the scalar filters to the comparison. */
  method InnerScan(th: Thread, q: array<Word>, block: array<Word>, v: Variant, iv: Regs, q9: Word, r: Regs)
    returns (found: bool)
    requires q.Length == 68 && block.Length == 16 && q != block
    requires Inner(v, iv, Later(q[..], r), block[..], q9, r)
    modifies th`dots, q, block
    ensures forall i :: 0 <= i < 68 && i != 12 ==> q[i] == old(q[i])
    ensures forall i :: 0 <= i < 16 && i !in {8, 9, 12} ==> block[i] == old(block[i])
    ensures !found ==> NoneSucceeds(v, iv, old(q[..]), old(block[..]), q9, r, ScanCount(v))
    ensures found ==> SecondPair(v, iv, block[..])
    ensures Extends(iv, old(th.dots), th.dots)
  {
    hide Inner, Succeeds, NoneSucceeds, SecondPair, Extends, ScanBlock, ScanState, Survives, SignsFrom, Run;
    ghost var q0, block0 := q[..], block[..];
    ExtendsSelf(iv, th.dots);
    NoneSucceedsAtFirst(v, iv, q0, block0, q9, r);
    for k := 0 to ScanCount(v)
      invariant |q[..]| == 68
      invariant forall i :: 0 <= i < 68 && i != 12 ==> q[i] == q0[i]
      invariant forall i :: 0 <= i < 16 && i !in {8, 9, 12} ==> block[i] == block0[i]
      invariant NoneSucceeds(v, iv, q0, block0, q9, r, k)
      invariant Extends(iv, old(th.dots), th.dots)
    {
      ghost var dots0 := th.dots;
      InnerKept(v, iv, Later(q0, r), Later(q[..], r), block0, block[..], q9, r);
      ScanBlockLocal(v, q0, q[..], block0, block[..], q9, k);
      found := TryCandidate(th, q, block, v, iv, q9, r, k);
      ExtendsChain(iv, old(th.dots), dots0, th.dots);
      if found {
        return;
      }
      SucceedsIs(v, iv, q0, block0, q9, r, k);
      NoneSucceedsNext(v, iv, q0, block0, q9, r, k);
    }
    found := false;
  }

  lemma SucceedsIs(v: Variant, iv: Regs, q: seq<Word>, block: Block, q9: Word, r: Regs, k: nat)
    requires |q| == 68 && k < 1024
    ensures var w := ScanBlock(v, q, block, q9, k);
      Succeeds(v, iv, q, block, q9, r, k)
      == (Survives(r, w, v == Wang) && SignsFrom(52, 63, Run(24, 52, r, w), w) && SecondPair(v, iv, w))
  {
    hide ScanBlock, Survives, SignsFrom, Run, SecondPair;
  }

  /** One value of Q9. */
  method TryCandidate(th: Thread, q: array<Word>, block: array<Word>, v: Variant, iv: Regs, q9: Word, r: Regs,
                      k: nat) returns (found: bool)
    requires q.Length == 68 && block.Length == 16 && q != block && k < 1024
    requires Inner(v, iv, Later(q[..], r), block[..], q9, r)
    modifies th`dots, q, block
    ensures forall i :: 0 <= i < 68 && i != 12 ==> q[i] == old(q[i])
    ensures forall i :: 0 <= i < 16 && i !in {8, 9, 12} ==> block[i] == old(block[i])
    ensures block[..] == ScanBlock(v, old(q[..]), old(block[..]), q9, k)
    ensures found == (Survives(r, block[..], v == Wang)
      && SignsFrom(52, 63, Run(24, 52, r, block[..]), block[..]) && SecondPair(v, iv, block[..]))
    ensures Extends(iv, old(th.dots), th.dots)
  {
    hide Fits, Inner, Survives, SignsFrom, Run, SecondPair, Compress, Extends, Honest, Plus, Flip, Q9Scan, ReverseValue;
    ghost var q0, block0 := q[..], block[..];
    ExtendsSelf(iv, th.dots);
    PlaceCandidate(v, q, block, q9, k);
    ghost var later := Later(q[..], r);
    InnerKept(v, iv, Later(q0, r), later, block0, block[..], q9, r);
    FitsSame(q[..], later, block[..], block[..], 8);
    FitsSame(q[..], later, block[..], block[..], 9);
    FitsSame(q[..], later, block[..], block[..], 12);
    InnerPrepared(v, iv, later, block[..], q9, r, k as bv32);
    var pass, a, b, c, d := ScalarFilter(r, block, v == Wang);
    if !pass {
      return false;
    }
    pass, a, b, c, d := Tail(Regs(a, b, c, d), block);
    if !pass {
      return false;
    }
    CompressFrom(iv, r, Run(24, 52, r, block[..]), block[..]);
    th.dots := th.dots + [Dot(block[..], Plus(iv.b, b), Plus(iv.c, c), Plus(iv.d, d))];
    HonestLast(iv, old(th.dots), th.dots[|th.dots| - 1]);
    found := IsSecondPair(v, iv, block);
  }

  lemma HonestLast(iv: Regs, dots: seq<Dot>, dot: Dot)
    requires var r := Compress(iv, dot.block); r.b == dot.b && r.c == dot.c && r.d == dot.d
    ensures Extends(iv, dots, dots + [dot])
  {
    hide Compress;
  }

  // ---------------------------------------------------------------- the loop over Q9 and Q10

  /** The bits of Q10 and of Q9 that the outer of the two loops may change. */
  function Mask10(v: Variant): bv32 {
    match v
    case Wang => 0x18000020
    case S00 => 0x08000020
    case S01 => 0x08000030
    case S10 => 0x08000004
    case S11 => 0x08000040
  }

  function Mask9(v: Variant): bv32 {
    match v
    case Wang => 0x00084000
    case S00 => 0x00002000
    case S01 => 0x80002000
    case S10 => 0x00004200
    case S11 => 0x80000280
  }

  function ChoiceCount(v: Variant): (n: nat)
    ensures n <= 32
  {
    if v == S00 then 8 else if v == S10 then 16 else 32
  }

  /** q9q10mask of the Stevens searches; before masking, the common part of q9mask and q10mask of the Wang search. */
  function Choice(v: Variant, k: bv32): bv32 {
    match v
    case Wang => (k << 5) ^ (k << 13) ^ (k << 17) ^ (k << 24)
    case S00 => ((k << 5) ^ (k << 12) ^ (k << 25)) & 0x08002020
    case S01 => ((k << 4) ^ (k << 11) ^ (k << 24) ^ (k << 27)) & 0x88002030
    case S10 => ((k << 2) ^ (k << 8) ^ (k << 11) ^ (k << 25)) & 0x08004204
    case S11 => ((k << 5) ^ (k << 6) ^ (k << 7) ^ (k << 24) ^ (k << 27)) & 0x880002a0
  }

  /** The Wang search flips the chosen bits, the Stevens searches set them. */
  function Chosen(v: Variant, x: Word, m: bv32): Word {
    if v == Wang then Flip(x, m) else W(Or(x.v, m))
  }

  /** Which bits Chosen really changes. */
  function Changed(v: Variant, x: Word, m: bv32): bv32 {
    if v == Wang then m else AndNot(m, x.v)
  }

  function Or(x: bv32, y: bv32): bv32 { x | y }

  function AndNot(x: bv32, y: bv32): bv32 { x & !y }

  predicate Apart(x: bv32, y: bv32) { x & y == 0 }

  lemma OrFlips(x: bv32, m: bv32)
    ensures Or(x, m) == Xor(x, AndNot(m, x))
  {
    calc {
      Or(x, m);
      x | m;
      { OrRaw(x, m); }
      x ^ (m & !x);
      Xor(x, m & !x);
      Xor(x, AndNot(m, x));
    }
  }

  lemma OrRaw(x: bv32, m: bv32) ensures x | m == x ^ (m & !x) {}

  lemma ChosenFlips(v: Variant, x: Word, m: bv32)
    ensures Chosen(v, x, m) == Flip(x, Changed(v, x, m))
  {
    hide AndNot, Or, Xor;
    OrFlips(x.v, m);
  }

  /** What the draw of a Stevens search leaves of the bits that the loop over Q9 and Q10 sets: one of them is already
      set in the 10 and in the 11 search, none in the others. */
  predicate DrawnForChoices(v: Variant, q9: Word, q10: Word) {
    && q9.v & Mask9(v) == (if v == S10 then 0x4000 else 0)
    && q10.v & Mask10(v) == (if v == S11 then 0x40 else 0)
  }

  /** The drawn Q9, Q10 and Q11 leave room for both loops: real changes of Q10 fall where Q11 is clear, real
      changes of Q9 where Q11 is set, and the inner loop still has its bits. */
  ghost predicate Room(v: Variant, q9: Word, q10: Word, q11: Word) {
    && (v != Wang ==> DrawnForChoices(v, q9, q10))
    && Apart(Changed(v, q10, Mask10(v)), q11.v)
    && Apart(Changed(v, q9, Mask9(v)), AndNot(0xffffffff, q11.v))
    && RoomToScan(v, q10, q11)
  }

  lemma ChoiceKeeps(v: Variant, q9: Word, q10: Word, q11: Word, c: bv32)
    requires Room(v, q9, q10, q11)
    ensures Apart(Changed(v, q10, Part(c, Mask10(v))), q11.v)
    ensures Apart(Changed(v, q9, Part(c, Mask9(v))), AndNot(0xffffffff, q11.v))
    ensures RoomToScan(v, Chosen(v, q10, Part(c, Mask10(v))), q11)
  {
    hide RoomToScan, Chosen, Mask9, Mask10, Changed, Apart, AndNot, Part, DrawnForChoices;
    LessChange(v, q10, c, Mask10(v), q11.v);
    LessChange(v, q9, c, Mask9(v), AndNot(0xffffffff, q11.v));
    StillRoom(v, q10, q11, c);
  }

  function Part(c: bv32, m: bv32): bv32 { c & m }

  lemma LessChange(v: Variant, x: Word, c: bv32, m: bv32, y: bv32)
    requires Apart(Changed(v, x, m), y)
    ensures Apart(Changed(v, x, Part(c, m)), y)
  {
    hide Apart, AndNot, Part;
    if v == Wang {
      LessApart(c, m, y);
    } else {
      LessApartOf(c, m, x.v, y);
    }
  }

  lemma LessApart(c: bv32, m: bv32, y: bv32)
    requires Apart(m, y)
    ensures Apart(Part(c, m), y)
  {}

  lemma LessApartOf(c: bv32, m: bv32, x: bv32, y: bv32)
    requires Apart(AndNot(m, x), y)
    ensures Apart(AndNot(Part(c, m), x), y)
  {}

  lemma StillRoom(v: Variant, q10: Word, q11: Word, c: bv32)
    requires RoomToScan(v, q10, q11)
    ensures RoomToScan(v, Chosen(v, q10, Part(c, Mask10(v))), q11)
  {
    assert q10.v & ScanMask(v) == 0 && q11.v & ScanMask(v) == ScanMask(v);
    hide *;
    MasksApart(v);
    ChosenClear(v, q10, c, Mask10(v), ScanMask(v));
    RoomIs(v, Chosen(v, q10, Part(c, Mask10(v))), q11);
  }

  lemma RoomIs(v: Variant, q10: Word, q11: Word)
    requires q10.v & ScanMask(v) == 0 && q11.v & ScanMask(v) == ScanMask(v)
    ensures RoomToScan(v, q10, q11)
  {}

  lemma ChosenClear(v: Variant, x: Word, c: bv32, m: bv32, a: bv32)
    requires x.v & a == 0 && m & a == 0
    ensures Chosen(v, x, Part(c, m)).v & a == 0
  {
    hide Part, Xor, Or;
    StillClear(x.v, c, m, a);
  }

  lemma StillClear(x: bv32, c: bv32, m: bv32, a: bv32)
    requires x & a == 0 && m & a == 0
    ensures Xor(x, Part(c, m)) & a == 0 && Or(x, Part(c, m)) & a == 0
  {}

  lemma MasksApart(v: Variant)
    ensures Mask10(v) & ScanMask(v) == 0
  {}

  /** Steps 0 to 7 and 14 to 20 are in place, and step 11 is for the drawn values of Q9 and Q10. */
  ghost predicate Outer(v: Variant, iv: Regs, q: seq<Word>, block: Block, q9: Word, q10: Word) {
    && |q| == 68
    && At(q, 0) == iv
    && (forall t :: 0 <= t < 8 || 14 <= t < 21 ==> Fits(q, block, t))
    && FitsAll(q[12 := q9][13 := q10], block, 11, 12)
    && Room(v, q9, q10, q[14])
  }

  /** Step 10 when word 10 is derived from the current Q9 and Q10. */
  lemma DeriveStep10(q: seq<Word>, w: Block)
    requires |q| == 68
    requires w[10] == W(Sub(Unturn(q[14], 17, q[13]), Add(Mix(F, q[13], q[12], q[11]).v, Add(q[10].v, 0xffff5bb1))))
    ensures Fits(q, w, 10)
  {
    hide Fits, StepValue, Unturn, Mix, Sub, Add, Sum;
    SumBackC(Unturn(q[14], 17, q[13]), Mix(F, q[13], q[12], q[11]).v, q[10].v, 0xffff5bb1);
    Solves(F, q[10], q[13], q[12], q[11], w[10], q[14], 0xffff5bb1, 17);
    FitsIs(q, w, 10, F, 10, 17, 0xffff5bb1);
  }

  /** Partial sums kept during the loop over Q9 and Q10. */
  datatype Sums = Sums(tt10: bv32, ahead: Ahead)

  ghost predicate SumsOf(q: seq<Word>, block: Block, t: Sums)
    requires |q| == 68
  {
    t == SumsIn(q, block)
  }

  function SumsIn(q: seq<Word>, block: Block): Sums
    requires |q| == 68
  {
    Sums(Add(q[10].v, 0xffff5bb1), AheadOf(q, block))
  }

  /** Which searches want bit 31 of q22 set. */
  predicate High(v: Variant) { v == S00 || v == S11 }

  lemma WordsOfOuter(t: nat)
    requires 0 <= t < 8 || 14 <= t < 21
    ensures RowOf(t).k !in {8, 9, 10, 12, 13}
  {}

  lemma OuterKept(v: Variant, iv: Regs, q: seq<Word>, q': seq<Word>, block: Block, block': Block, q9: Word, q10: Word)
    requires Outer(v, iv, q, block, q9, q10) && |q'| == 68
    requires forall i :: 0 <= i < 68 && i !in {12, 13} ==> q'[i] == q[i]
    requires forall i :: 0 <= i < 16 && i !in {8, 9, 10, 12, 13} ==> block'[i] == block[i]
    ensures Outer(v, iv, q', block', q9, q10)
  {
    hide Fits, RowOf, Room;
    forall t: nat | t < 8 || 14 <= t < 21
      ensures Fits(q', block', t)
    {
      WordsOfOuter(t);
      FitsSame(q, q', block, block', t);
    }
    assert q'[12 := q9][13 := q10] == q[12 := q9][13 := q10];
    Rows10And11();
    FitsSame(q[12 := q9][13 := q10], q'[12 := q9][13 := q10], block, block', 11);
  }

  lemma SumsKept(q: seq<Word>, q': seq<Word>, block: Block, block': Block, t: Sums)
    requires |q| == |q'| == 68 && SumsOf(q, block, t)
    requires forall i :: 0 <= i < 68 && i !in {12, 13} ==> q'[i] == q[i]
    requires block[4] == block'[4] && block[15] == block'[15]
    ensures SumsOf(q', block', t)
  {
    hide Mix, Add, Add3;
  }

  /** Whatever the choice, word 11 stays right and the inner loop keeps its bits. */
  lemma ChoiceStep11(v: Variant, iv: Regs, q: seq<Word>, block: Block, q9b: Word, q10b: Word, c: bv32)
    requires Outer(v, iv, q, block, q9b, q10b)
    requires q[12] == Chosen(v, q9b, Part(c, Mask9(v))) && q[13] == Chosen(v, q10b, Part(c, Mask10(v)))
    ensures Fits(q, block, 11) && RoomToScan(v, q[13], q[14])
  {
    hide Fits, RowOf, Flip, Chosen, Changed, Apart, AndNot, Part, RoomToScan, Mask9, Mask10, ScanMask;
    var m9, m10 := Changed(v, q9b, Part(c, Mask9(v))), Changed(v, q10b, Part(c, Mask10(v)));
    ChoiceKeeps(v, q9b, q10b, q[14], c);
    ChosenFlips(v, q9b, Part(c, Mask9(v)));
    ChosenFlips(v, q10b, Part(c, Mask10(v)));
    ApartIs(m10, m9, q[14].v);
    assert Fits(q[12 := q9b][13 := q10b], block, 11);
    KeepStep11(q, q[12 := q9b][13 := q10b], block, m9, m10);
  }

  /** With Q9, Q10 and words 10 and 13 stored, the inner loop can start. */
  lemma InnerFrom(v: Variant, iv: Regs, q: seq<Word>, block: Block, q9b: Word, q10b: Word, t: Sums, c: bv32, r: Regs)
    requires Outer(v, iv, q, block, q9b, q10b) && SumsOf(q, block, t)
    requires q[12] == Chosen(v, q9b, Part(c, Mask9(v))) && q[13] == Chosen(v, q10b, Part(c, Mask10(v)))
    requires block[10] == W(Sub(Unturn(q[14], 17, q[13]), Add(Mix(F, q[13], q[12], q[11]).v, t.tt10)))
    requires Fits(q, block, 13)
    requires r == ForwardRegs(q[23], q[24], t.ahead, block[10].v)
    ensures Inner(v, iv, Later(q, r), block, q[12], r)
  {
    hide Fits, RowOf, Mix, Add, Add3, Sub, Unturn, Turn, Chosen, RoomToScan, Room, Part, Mask9, Mask10;
    var e := Later(q, r);
    ChoiceStep11(v, iv, q, block, q9b, q10b, c);
    DeriveStep10(q, block);
    Steps21To23(e, block, r);
    forall j: nat | j < 8 || 10 <= j < 12 || 13 <= j < 21
      ensures Fits(e, block, j)
    {
      FitsSame(q, e, block, block, j);
    }
    assert e[12 := q[12]] == e;
  }

  lemma ApartIs(x: bv32, y: bv32, z: bv32)
    requires Apart(x, z) && Apart(y, AndNot(0xffffffff, z))
    ensures x & z == 0 && y & !z == 0
  {}

  // ---------------------------------------------------------------- every choice is tried

  /** The values of Q9 and Q10 for a choice, and word 10 for them. */
  ghost function Q9Of(v: Variant, q9b: Word, k: nat): Word
    requires k < 32
  {
    Chosen(v, q9b, Part(Choice(v, k as bv32), Mask9(v)))
  }

  ghost function Q10Of(v: Variant, q10b: Word, k: nat): Word
    requires k < 32
  {
    Chosen(v, q10b, Part(Choice(v, k as bv32), Mask10(v)))
  }

  ghost function Word10(q: seq<Word>, t: Sums, q9: Word, q10: Word): bv32
    requires |q| == 68
  {
    Sub(Unturn(q[14], 17, q10), Add(Mix(F, q10, q9, q[11]).v, t.tt10))
  }

  /** The state words and the block that the inner loop starts from. */
  ghost function ChoiceState(q: seq<Word>, q9: Word, q10: Word): (s: seq<Word>)
    requires |q| == 68
    ensures |s| == 68
  {
    q[12 := q9][13 := q10]
  }

  ghost function ChoiceBlock(q: seq<Word>, block: Block, t: Sums, q9: Word, q10: Word): Block
    requires |q| == 68
  {
    block[10 := W(Word10(q, t, q9, q10))]
         [13 := ReverseValue(F, q[13], q[16], q[15], q[14], q[17], 0xfd987193, 12)]
  }

  /** A choice is spent: a condition on q22 to q24 fails, or no value of Q9 in the inner loop succeeds. */
  ghost predicate Spent(v: Variant, iv: Regs, q: seq<Word>, block: Block, t: Sums, q9b: Word, q10b: Word, k: nat)
    requires |q| == 68 && k < 32
  {
    var q9, q10 := Q9Of(v, q9b, k), Q10Of(v, q10b, k);
    var m10 := Word10(q, t, q9, q10);
    ForwardOk(High(v), q[23], q[24], t.ahead, m10) ==>
      NoneSucceeds(v, iv, ChoiceState(q, q9, q10), ChoiceBlock(ChoiceState(q, q9, q10), block, t, q9, q10), q9,
                   ForwardRegs(q[23], q[24], t.ahead, m10), ScanCount(v))
  }

  ghost predicate AllSpent(v: Variant, iv: Regs, q: seq<Word>, block: Block, t: Sums, q9b: Word, q10b: Word, n: nat) {
    |q| == 68 && forall k :: 0 <= k < n <= 32 ==> Spent(v, iv, q, block, t, q9b, q10b, k)
  }

  lemma NoneSucceedsLocal(v: Variant, iv: Regs, q: seq<Word>, block: Block, block': Block, q9: Word, r: Regs, n: nat)
    requires NoneSucceeds(v, iv, q, block, q9, r, n)
    requires forall i :: 0 <= i < 16 && i !in {8, 9, 12} ==> block'[i] == block[i]
    ensures NoneSucceeds(v, iv, q, block', q9, r, n)
  {
    hide Survives, SignsFrom, Run, SecondPair, ScanBlock;
    forall k | 0 <= k < n <= 1024
      ensures !Succeeds(v, iv, q, block', q9, r, k)
    {
      ScanBlockLocal(v, q, q, block, block', q9, k);
      assert !Succeeds(v, iv, q, block, q9, r, k);
    }
  }

  /** Whether a choice is spent does not depend on what the loop itself rewrites. */
  lemma SpentLocal(v: Variant, iv: Regs, q: seq<Word>, q': seq<Word>, block: Block, block': Block, t: Sums,
                   q9b: Word, q10b: Word, k: nat)
    requires |q| == |q'| == 68 && k < 32 && Spent(v, iv, q, block, t, q9b, q10b, k)
    requires forall i :: 0 <= i < 68 && i !in {12, 13} ==> q'[i] == q[i]
    requires forall i :: 0 <= i < 16 && i !in {8, 9, 10, 12, 13} ==> block'[i] == block[i]
    ensures Spent(v, iv, q', block', t, q9b, q10b, k)
  {
    hide Mix, Add, Sub, Unturn, Turn, Chosen, Choice, Part, Mask9, Mask10, NoneSucceeds, ForwardOk, ForwardRegs,
         ReverseValue, Q9Of, Q10Of;
    var q9, q10 := Q9Of(v, q9b, k), Q10Of(v, q10b, k);
    assert ChoiceState(q', q9, q10) == ChoiceState(q, q9, q10);
    var s := ChoiceState(q, q9, q10);
    if ForwardOk(High(v), q[23], q[24], t.ahead, Word10(q, t, q9, q10)) {
      NoneSucceedsLocal(v, iv, s, ChoiceBlock(s, block, t, q9, q10), ChoiceBlock(s, block', t, q9, q10), q9,
                        ForwardRegs(q[23], q[24], t.ahead, Word10(q, t, q9, q10)), ScanCount(v));
    }
  }

  lemma AllSpentNext(v: Variant, iv: Regs, q: seq<Word>, block: Block, t: Sums, q9b: Word, q10b: Word, k: nat)
    requires k < 32 && AllSpent(v, iv, q, block, t, q9b, q10b, k) && Spent(v, iv, q, block, t, q9b, q10b, k)
    ensures AllSpent(v, iv, q, block, t, q9b, q10b, k + 1)
  {
    hide Spent;
  }

  /** Q9, Q10 and words 10 and 13 of a choice, and q22 to q24; it passes exactly under the conditions on these. */
  method PlaceChoice(q: array<Word>, block: array<Word>, v: Variant, iv: Regs, q9b: Word, q10b: Word, t: Sums, k: nat)
    returns (pass: bool, q9: Word, r: Regs)
    requires q.Length == 68 && block.Length == 16 && q != block && k < 32
    requires Outer(v, iv, q[..], block[..], q9b, q10b) && SumsOf(q[..], block[..], t)
    modifies q, block
    ensures Outer(v, iv, q[..], block[..], q9b, q10b) && SumsOf(q[..], block[..], t)
    ensures q9 == Q9Of(v, q9b, k)
    ensures var q10, q0, block0 := Q10Of(v, q10b, k), old(q[..]), old(block[..]);
      var m10 := Word10(q0, t, q9, q10);
      && pass == ForwardOk(High(v), q0[23], q0[24], t.ahead, m10)
      && (pass ==>
            && r == ForwardRegs(q0[23], q0[24], t.ahead, m10)
            && q[..] == ChoiceState(q0, q9, q10)
            && block[..] == ChoiceBlock(ChoiceState(q0, q9, q10), block0, t, q9, q10)
            && Inner(v, iv, Later(q[..], r), block[..], q9, r))
      && (!pass ==> q[..] == q0 && block[..] == block0)
  {
    hide Outer, Inner, Fits, RowOf, SumsOf, Mix, Add, Add3, Sub, Unturn, Turn, Chosen, Choice, Mask9, Mask10, Part, Later,
         ForwardOk, ForwardRegs, ReverseValue, Room, DrawnForChoices;
    ghost var q0, block0 := q[..], block[..];
    Row13();
    var c := Choice(v, k as bv32);
    var q10 := Chosen(v, q10b, Part(c, Mask10(v)));
    q9 := Chosen(v, q9b, Part(c, Mask9(v)));
    var m10 := Sub(Unturn(q[14], 17, q10), Add(Mix(F, q10, q9, q[11]).v, t.tt10));
    pass, r := Forward(q, v in {S00, S11}, t.ahead, m10);
    if !pass {
      return;
    }
    block[10] := W(m10);
    q[12] := q9;
    q[13] := q10;
    Reverse(q, block, 13, 0xfd987193, 12);
    OuterKept(v, iv, q0, q[..], block0, block[..], q9b, q10b);
    SumsKept(q0, q[..], block0, block[..], t);
    InnerFrom(v, iv, q[..], block[..], q9b, q10b, t, c, r);
    assert q[..] == ChoiceState(q0, q9, q10);
    assert block[..] == ChoiceBlock(ChoiceState(q0, q9, q10), block0, t, q9, q10);
  }

  /** One choice of Q9 and Q10. */
  method TryChoice(th: Thread, q: array<Word>, block: array<Word>, v: Variant, iv: Regs,
                   q9b: Word, q10b: Word, t: Sums, k: nat) returns (found: bool)
    requires q.Length == 68 && block.Length == 16 && q != block && k < 32
    requires Outer(v, iv, q[..], block[..], q9b, q10b) && SumsOf(q[..], block[..], t)
    modifies th`dots, q, block
    ensures forall i :: 0 <= i < 68 && i !in {12, 13} ==> q[i] == old(q[i])
    ensures forall i :: 0 <= i < 16 && i !in {8, 9, 10, 12, 13} ==> block[i] == old(block[i])
    ensures !found ==> Outer(v, iv, q[..], block[..], q9b, q10b) && SumsOf(q[..], block[..], t)
    ensures !found ==> Spent(v, iv, old(q[..]), old(block[..]), t, q9b, q10b, k)
    ensures found ==> SecondPair(v, iv, block[..])
    ensures Extends(iv, old(th.dots), th.dots)
  {
    hide Outer, Inner, SecondPair, Extends, NoneSucceeds, SumsOf, Later, ForwardOk, ForwardRegs, Q9Of, Q10Of, Word10,
         ChoiceState, ChoiceBlock;
    ghost var q0, block0 := q[..], block[..];
    ExtendsSelf(iv, th.dots);
    var pass, q9, r := PlaceChoice(q, block, v, iv, q9b, q10b, t, k);
    ChoiceFrame(q0, block0, t, q9, Q10Of(v, q10b, k));
    if !pass {
      return false;
    }
    ghost var q1, block1 := q[..], block[..];
    found := InnerScan(th, q, block, v, iv, q9, r);
    if !found {
      OuterKept(v, iv, q1, q[..], block1, block[..], q9b, q10b);
      SumsKept(q1, q[..], block1, block[..], t);
    }
  }

  lemma ChoiceFrame(q: seq<Word>, block: Block, t: Sums, q9: Word, q10: Word)
    requires |q| == 68
    ensures var s := ChoiceState(q, q9, q10); var w := ChoiceBlock(s, block, t, q9, q10);
      && (forall i :: 0 <= i < 68 && i !in {12, 13} ==> s[i] == q[i])
      && forall i :: 0 <= i < 16 && i !in {8, 9, 10, 12, 13} ==> w[i] == block[i]
  {
    hide Mix, Add, Sub, Unturn;
  }

  /** The loop over the choices of Q9 and Q10: without a result, every one of them is spent. */
  method TryChoices(th: Thread, q: array<Word>, block: array<Word>, v: Variant, iv: Regs,
                    q9b: Word, q10b: Word) returns (found: bool)
    requires q.Length == 68 && block.Length == 16 && q != block
    requires Outer(v, iv, q[..], block[..], q9b, q10b)
    modifies th`dots, q, block
    ensures forall i :: 0 <= i < 68 && i !in {12, 13} ==> q[i] == old(q[i])
    ensures forall i :: 0 <= i < 16 && i !in {8, 9, 10, 12, 13} ==> block[i] == old(block[i])
    ensures !found ==> Outer(v, iv, q[..], block[..], q9b, q10b)
    ensures !found ==>
      AllSpent(v, iv, old(q[..]), old(block[..]), SumsIn(old(q[..]), old(block[..])), q9b, q10b, ChoiceCount(v))
    ensures found ==> SecondPair(v, iv, block[..])
    ensures Extends(iv, old(th.dots), th.dots)
  {
    hide Outer, SecondPair, Extends, Spent, SumsIn;
    ghost var q0, block0 := q[..], block[..];
    ExtendsSelf(iv, th.dots);
    var t := SumsFor(q, block);
    for k := 0 to ChoiceCount(v)
      invariant forall i :: 0 <= i < 68 && i !in {12, 13} ==> q[i] == q0[i]
      invariant forall i :: 0 <= i < 16 && i !in {8, 9, 10, 12, 13} ==> block[i] == block0[i]
      invariant Outer(v, iv, q[..], block[..], q9b, q10b) && SumsOf(q[..], block[..], t)
      invariant AllSpent(v, iv, q0, block0, t, q9b, q10b, k)
      invariant Extends(iv, old(th.dots), th.dots)
    {
      ghost var q1, block1, dots0 := q[..], block[..], th.dots;
      found := TryChoice(th, q, block, v, iv, q9b, q10b, t, k);
      ExtendsChain(iv, old(th.dots), dots0, th.dots);
      if found {
        return;
      }
      SpentLocal(v, iv, q1, q0, block1, block0, t, q9b, q10b, k);
      AllSpentNext(v, iv, q0, block0, t, q9b, q10b, k);
    }
    found := false;
  }

  lemma Row13() ensures RowOf(13) == Row(F, 13, 12, 0xfd987193) {}

  method SumsFor(q: array<Word>, block: array<Word>) returns (t: Sums)
    requires q.Length == 68 && block.Length == 16
    ensures SumsOf(q[..], block[..], t)
  {
    hide Mix, Add, Add3;
    t := Sums(Add(q[10].v, 0xffff5bb1), AheadOf(q[..], block[..]));
  }

  // ---------------------------------------------------------------- Q1 and Q17 to Q20

  /** The draw: Q2 to Q16 and the words derived straight from them. */
  ghost predicate Stage1(v: Variant, iv: Regs, q: seq<Word>, block: Block) {
    && |q| == 68
    && At(q, 0) == iv
    && (forall t :: t in {6, 11, 14, 15} ==> Fits(q, block, t))
    && Room(v, q[12], q[13], q[14])
    && RoomForQ4(v, q[9])
  }

  /** The bits of Q4 that the Wang search changes; the Stevens searches have no such loop. */
  function Q4Bits(v: Variant): bv32 { if v == Wang then 0x01c0e000 else 0 }

  /** Q6 has all of those bits. */
  predicate RoomForQ4(v: Variant, q6: Word) { Q4Bits(v) & !q6.v == 0 }

  lemma Stage1Kept(v: Variant, iv: Regs, q: seq<Word>, q': seq<Word>, block: Block, block': Block)
    requires Stage1(v, iv, q, block) && |q'| == 68
    requires forall i :: 0 <= i < 68 && i !in {4, 20, 21, 22, 23, 24} ==> q'[i] == q[i]
    requires forall i :: 0 <= i < 16 && i !in {0, 1, 2, 3, 4, 5, 7} ==> block'[i] == block[i]
    ensures Stage1(v, iv, q', block')
  {
    hide Fits, RowOf, Room, RoomForQ4;
    RoundOneRows();
    FitsSame(q, q', block, block', 6);
    FitsSame(q, q', block, block', 11);
    FitsSame(q, q', block, block', 14);
    FitsSame(q, q', block, block', 15);
  }

  /** q1, with the bits a variant forces, copies or leaves free. */
  function Q1Of(v: Variant, q0: Word, q2: Word, r: bv32): Word {
    match v
    case Wang => Drawn(W(r), 0x01c0e71f, 0x04200040, q2, 0xf01e1080, 0)
    case S00 => Drawn(W(r), 0x7dfdf7be, 0x02020801, q0, 0x80000000, 0)
    case S01 => W((0x02000021 ^ (q0.v & 0x80000020)) | (r & 0x7dfff39e))
    case S10 => W((0x02000941 ^ (q0.v & 0x80000000)) | (r & 0x7dfdf6be))
    case S11 => W((0x02000861 ^ (q0.v & 0x80000020)) | (r & 0x7dfff79e))
  }

  /** The conditions on q17 to q20. */
  predicate Ok17(v: Variant, q17: Word, q16: Word) {
    && (if v == Wang || v == S11 then (q17.v ^ q16.v) & 0xc0008008 == 0x40000000
        else (q17.v ^ q16.v) & 0x80008008 == 0x80000000)
    && q17.v & 0x00020000 == 0
  }

  predicate Ok18(v: Variant, q18: Word, q17: Word) {
    (q18.v ^ q17.v) & 0xa0020000 == if v == Wang then 0x00020000 else 0x80020000
  }

  predicate Ok19(v: Variant, q19: Word) {
    q19.v & 0x80020000 == if v == S00 || v == S11 then 0x80000000 else 0
  }

  predicate Ok20(q20: Word, q19: Word) { (q20.v ^ q19.v) & 0x80040000 == 0x00040000 }

  /** Steps 0, 1 and 16 to 19 around a drawn q1. */
  lemma StepsOfQ1(q: seq<Word>, w: Block, tt0: bv32, tt1: bv32, tt17: bv32, tt18: bv32, tt19: bv32)
    requires |q| == 68
    requires tt0 == Add3(Mix(F, q[3], q[2], q[1]).v, q[0].v, 0xd76aa478)
    requires tt1 == Add(q[1].v, 0xe8c7b756)
    requires tt17 == Add3(Mix(G, q[19], q[18], q[17]).v, q[16].v, 0xf61e2562)
    requires tt18 == Add3(q[17].v, 0xc040b340, w[6].v)
    requires tt19 == Add3(q[18].v, 0x265e5a51, w[11].v)
    requires w[0] == W(Sub(Unturn(q[4], 7, q[3]), tt0))
    requires w[1] == W(Sub(Sub(Unturn(q[5], 12, q[4]), Mix(F, q[4], q[3], q[2]).v), tt1))
    requires q[20] == Turn(Add(tt17, w[1].v), 5, q[19])
    requires q[21] == Turn(Add(Mix(G, q[20], q[19], q[18]).v, tt18), 9, q[20])
    requires q[22] == Turn(Add(Mix(G, q[21], q[20], q[19]).v, tt19), 14, q[21])
    requires q[23] == Turn(Add(Add3(Mix(G, q[22], q[21], q[20]).v, q[19].v, 0xe9b6c7aa), w[0].v), 20, q[22])
    ensures forall t :: t in {0, 1, 16, 17, 18, 19} ==> Fits(q, w, t)
  {
    hide Fits, Turn, Unturn, Mix, Sub, Add, Add3, Sum;
    SumBackA(Unturn(q[4], 7, q[3]), Mix(F, q[3], q[2], q[1]).v, q[0].v, 0xd76aa478);
    Solves(F, q[0], q[3], q[2], q[1], w[0], q[4], 0xd76aa478, 7);
    FitsIs(q, w, 0, F, 0, 7, 0xd76aa478);
    SumBackB(Unturn(q[5], 12, q[4]), Mix(F, q[4], q[3], q[2]).v, q[1].v, 0xe8c7b756);
    Solves(F, q[1], q[4], q[3], q[2], w[1], q[5], 0xe8c7b756, 12);
    FitsIs(q, w, 1, F, 1, 12, 0xe8c7b756);
    SumForwardB(Mix(G, q[19], q[18], q[17]).v, q[16].v, w[1].v, 0xf61e2562);
    FitsIs(q, w, 16, G, 1, 5, 0xf61e2562);
    SumForwardC(Mix(G, q[20], q[19], q[18]).v, q[17].v, w[6].v, 0xc040b340);
    FitsIs(q, w, 17, G, 6, 9, 0xc040b340);
    SumForwardC(Mix(G, q[21], q[20], q[19]).v, q[18].v, w[11].v, 0x265e5a51);
    FitsIs(q, w, 18, G, 11, 14, 0x265e5a51);
    SumForwardB(Mix(G, q[22], q[21], q[20]).v, q[19].v, w[0].v, 0xe9b6c7aa);
    FitsIs(q, w, 19, G, 0, 20, 0xe9b6c7aa);
  }

  /** Words 0 and 1 for q1, q17 to q20 behind it, and the conditions on them. */
  function M1Of(q: seq<Word>, q1: Word): bv32
    requires |q| == 68
  {
    Sub(Sub(Unturn(q[5], 12, q1), Mix(F, q1, q[3], q[2]).v), Add(q[1].v, 0xe8c7b756))
  }

  function M0Of(q: seq<Word>, q1: Word): bv32
    requires |q| == 68
  {
    Sub(Unturn(q1, 7, q[3]), Add3(Mix(F, q[3], q[2], q[1]).v, q[0].v, 0xd76aa478))
  }

  function Q17Of(q: seq<Word>, m1: bv32): Word
    requires |q| == 68
  {
    Turn(Add(Add3(Mix(G, q[19], q[18], q[17]).v, q[16].v, 0xf61e2562), m1), 5, q[19])
  }

  function Q18Of(q: seq<Word>, block: Block, q17: Word): Word
    requires |q| == 68
  {
    Turn(Add(Mix(G, q17, q[19], q[18]).v, Add3(q[17].v, 0xc040b340, block[6].v)), 9, q17)
  }

  function Q19Of(q: seq<Word>, block: Block, q17: Word, q18: Word): Word
    requires |q| == 68
  {
    Turn(Add(Mix(G, q18, q17, q[19]).v, Add3(q[18].v, 0x265e5a51, block[11].v)), 14, q18)
  }

  function Q20Of(q16: Word, m0: bv32, q17: Word, q18: Word, q19: Word): Word {
    Turn(Add(Add3(Mix(G, q19, q18, q17).v, q16.v, 0xe9b6c7aa), m0), 20, q19)
  }

  predicate Passes1(v: Variant, q: seq<Word>, block: Block, q1: Word)
    requires |q| == 68
  {
    var q17 := Q17Of(q, M1Of(q, q1));
    var q18 := Q18Of(q, block, q17);
    var q19 := Q19Of(q, block, q17, q18);
    Ok17(v, q17, q[19]) && Ok18(v, q18, q17) && Ok19(v, q19) && Ok20(Q20Of(q[19], M0Of(q, q1), q17, q18, q19), q19)
  }

  /** Draw q1 and run steps 16 to 19, leaving at the first condition that fails. */
  method DrawQ1(th: Thread, q: array<Word>, block: array<Word>, v: Variant)
    returns (ok: bool, q1: Word, q17: Word, q18: Word, q19: Word, q20: Word)
    requires q.Length == 68 && block.Length == 16
    modifies th`seed1, th`seed2
    ensures q1 == Q1Of(v, q[3], q[5], old(th.seed2)) && ok == Passes1(v, q[..], block[..], q1)
    ensures ok ==> q17 == Q17Of(q[..], M1Of(q[..], q1)) && q18 == Q18Of(q[..], block[..], q17)
    ensures ok ==> q19 == Q19Of(q[..], block[..], q17, q18) && q20 == Q20Of(q[19], M0Of(q[..], q1), q17, q18, q19)
  {
    hide Mix, Add, Add3, Sub, Unturn, Turn, Q1Of, Ok17, Ok18, Ok19, Ok20, NextSeeds;
    var r := th.Draw();
    q1 := Q1Of(v, q[3], q[5], r);
    ok, q18, q19, q20 := false, q1, q1, q1;
    var m1 := Sub(Sub(Unturn(q[5], 12, q1), Mix(F, q1, q[3], q[2]).v), Add(q[1].v, 0xe8c7b756));
    var q16 := q[19];
    q17 := Turn(Add(Add3(Mix(G, q[19], q[18], q[17]).v, q[16].v, 0xf61e2562), m1), 5, q16);
    if !Ok17(v, q17, q16) {
      return;
    }
    q18 := Turn(Add(Mix(G, q17, q16, q[18]).v, Add3(q[17].v, 0xc040b340, block[6].v)), 9, q17);
    if !Ok18(v, q18, q17) {
      return;
    }
    q19 := Turn(Add(Mix(G, q18, q17, q16).v, Add3(q[18].v, 0x265e5a51, block[11].v)), 14, q18);
    if !Ok19(v, q19) {
      return;
    }
    var m0 := Sub(Unturn(q1, 7, q[3]), Add3(Mix(F, q[3], q[2], q[1]).v, q[0].v, 0xd76aa478));
    q20 := Turn(Add(Add3(Mix(G, q19, q18, q17).v, q16.v, 0xe9b6c7aa), m0), 20, q19);
    ok := Ok20(q20, q19);
  }

  /** One attempt at q1. */
  method TryQ1(th: Thread, q: array<Word>, block: array<Word>, v: Variant, iv: Regs) returns (ok: bool)
    requires q.Length == 68 && block.Length == 16 && q != block
    requires Stage1(v, iv, q[..], block[..])
    modifies th`seed1, th`seed2, q, block
    ensures Stage1(v, iv, q[..], block[..])
    ensures ok == Passes1(v, old(q[..]), old(block[..]), Q1Of(v, old(q[3]), old(q[5]), old(th.seed2)))
    ensures ok ==> q[4] == Q1Of(v, old(q[3]), old(q[5]), old(th.seed2))
    ensures !ok ==> q[..] == old(q[..]) && block[..] == old(block[..])
    ensures ok ==> forall t :: t in {0, 1, 16, 17, 18, 19} ==> Fits(q[..], block[..], t)
  {
    hide Stage1, Fits, Mix, Add, Add3, Sub, Unturn, Turn, Q1Of, Passes1;
    ghost var q0, block0 := q[..], block[..];
    var q1, q17, q18, q19, q20;
    ok, q1, q17, q18, q19, q20 := DrawQ1(th, q, block, v);
    if !ok {
      return;
    }
    var tt0 := Add3(Mix(F, q[3], q[2], q[1]).v, q[0].v, 0xd76aa478);
    var tt1 := Add(q[1].v, 0xe8c7b756);
    block[0] := W(Sub(Unturn(q1, 7, q[3]), tt0));
    block[1] := W(Sub(Sub(Unturn(q[5], 12, q1), Mix(F, q1, q[3], q[2]).v), tt1));
    q[4] := q1;
    q[20], q[21], q[22], q[23] := q17, q18, q19, q20;
    Stage1Kept(v, iv, q0, q[..], block0, block[..]);
    StepsOfQ1(q[..], block[..], tt0, tt1, Add3(Mix(G, q[19], q[18], q[17]).v, q[16].v, 0xf61e2562),
              Add3(q[17].v, 0xc040b340, block[6].v), Add3(q[18].v, 0x265e5a51, block[11].v));
  }

  // ---------------------------------------------------------------- drawing the state words

  /** (r & free) | (forced ^ (from & same)). */
  function DrawnXor(r: Word, free: bv32, forced: bv32, from: Word, same: bv32): Word {
    W((r.v & free) | (forced ^ (from.v & same)))
  }

  function Also(x: Word, from: Word, same: bv32): Word { W(x.v | (from.v & same)) }

  function Without(x: Word, bits: bv32): Word { W(x.v & !bits) }

  lemma AlsoIs(x: Word, from: Word, bit: bv32)
    requires x.v & bit == 0
    ensures Without(Also(x, from, bit), bit) == x && Without(Also(x, from, bit), !bit) == Without(from, !bit)
  {}

  lemma DrawnXorMeets(r: Word, free: bv32, forced: bv32, from: Word, same: bv32)
    requires free & (forced | same) == 0
    ensures Meets(DrawnXor(r, free, forced, from, same), r, from, free, forced & !same, same & !forced, same & forced)
  {
    hide DrawnXor, Agree, Differ, Set, Clear, Others;
    XorFree(r, free, forced, from, same);
    XorOthers(r, free, forced, from, same);
    XorSame(r, free, forced, from, same);
    XorDiffer(r, free, forced, from, same);
  }

  lemma XorFree(r: Word, free: bv32, forced: bv32, from: Word, same: bv32)
    requires free & (forced | same) == 0
    ensures Agree(DrawnXor(r, free, forced, from, same).v, r.v, free)
    ensures Set(DrawnXor(r, free, forced, from, same).v, forced & !same)
  {}

  lemma XorOthers(r: Word, free: bv32, forced: bv32, from: Word, same: bv32)
    ensures Clear(DrawnXor(r, free, forced, from, same).v, Others(free, forced & !same, same & !forced, same & forced))
  {}

  lemma XorSame(r: Word, free: bv32, forced: bv32, from: Word, same: bv32)
    requires free & (forced | same) == 0
    ensures Agree(DrawnXor(r, free, forced, from, same).v, from.v, same & !forced)
  {}

  lemma XorDiffer(r: Word, free: bv32, forced: bv32, from: Word, same: bv32)
    requires free & (forced | same) == 0
    ensures Differ(DrawnXor(r, free, forced, from, same).v, from.v, same & forced)
  {}

  lemma ClearElsewhere(x: Word, r: Word, from: Word, free: bv32, ones: bv32, same: bv32, differ: bv32, bit: bv32)
    requires Meets(x, r, from, free, ones, same, differ) && bit & (free | ones | same | differ) == 0
    ensures x.v & bit == 0
  {}

  /** What the neutral-bit arguments need of the words Q2 to Q16 of a draw. */
  ghost predicate Seeded(v: Variant, ws: seq<Word>) {
    |ws| == 15 && Room(v, ws[7], ws[8], ws[9]) && RoomForQ4(v, ws[4])
  }

  /** Q2 to Q16 as the Wang search draws them, bit by bit. */
  predicate PathWang(w3: Word, rs: seq<Word>, ws: seq<Word>)
    requires |rs| == 13 && |ws| == 15
  {
    && Meets(ws[0], rs[0], w3, 0x71de7799, 0x0c008840, 0, 0x80000000)
    && Meets(ws[1], rs[1], ws[0], 0x01c06601, 0x3e1f0966, 0x80000018, 0)
    && Meets(ws[2], W(0), ws[1], 0, 0x3a040010, 0x80000601, 0)
    && Meets(ws[3], rs[2], w3, 0x03c0e000, 0x482f0e50, 0x80000000, 0)
    && Meets(ws[4], rs[3], w3, 0x600c0000, 0x05e2ec56, 0x80000000, 0)
    && Meets(Without(ws[5], 0x01000000), rs[4], w3, 0x604c203e, 0x16819e01, 0, 0x80000000)
    && Without(ws[5], !0x01000000) == Without(ws[4], !0x01000000)
    && Meets(ws[6], rs[5], ws[5], 0x604c7c1c, 0x043283e0, 0x80000002, 0)
    && Meets(ws[7], rs[6], ws[6], 0x00002800, 0x1c0101c1, 0x80001000, 0)
    && Meets(ws[8], W(0), w3, 0, 0x078bcbc0, 0, 0x80000000)
    && Meets(ws[9], rs[7], w3, 0x07800000, 0x607dc7df, 0, 0x80000000)
    && Meets(ws[10], rs[8], ws[9], 0x00f00f7f, 0x00081080, 0xe7000000, 0)
    && Meets(ws[11], rs[9], w3, 0x00701f77, 0x3f0fe008, 0x80000000, 0)
    && Meets(ws[12], rs[10], w3, 0x00701f77, 0x408be088, 0x80000000, 0)
    && Meets(ws[13], rs[11], ws[12], 0x00ff3ff7, 0x7d000000, 0, 0)
    && Meets(ws[14], rs[12], ws[13], 0x4ffdffff, 0x20000000, 0, 0x00020000)
  }

  /** Q2 to Q16 as the 00 search draws them, bit by bit. */
  predicate PathS00(w3: Word, rs: seq<Word>, ws: seq<Word>)
    requires |rs| == 14 && |ws| == 15
  {
    && Meets(ws[0], rs[0], w3, 0x49a0e73e, 0x221f00c1, 0x80000000, 0)
    && Meets(ws[1], rs[1], ws[0], 0x0000040c, 0x3fce1a71, 0x8000e000, 0)
    && Meets(ws[2], rs[2], ws[1], 0x00000004, 0x25f281a2, 0x00000008, 0x80000000)
    && Meets(ws[3], rs[3], ws[2], 0x00000004, 0x67fd823b, 0, 0)
    && Meets(ws[4], rs[4], ws[3], 0x00001044, 0x15e5829a, 0, 0)
    && Meets(ws[5], rs[5], ws[4], 0x00200806, 0x950430b0, 0, 0)
    && Meets(ws[6], rs[6], ws[5], 0x60050110, 0x1bd29ca2, 0x00000004, 0)
    && Meets(ws[7], rs[7], ws[6], 0x40044000, 0xb8820004, 0, 0)
    && Meets(ws[8], W(0), ws[7], 0, 0xf288b209, 0x00044000, 0)
    && Meets(ws[9], rs[8], ws[8], 0x12888008, 0x85712f57, 0, 0)
    && Meets(ws[10], rs[9], ws[9], 0x1ed98d7f, 0xc0023080, 0, 0x00200000)
    && Meets(ws[11], rs[10], ws[10], 0x0efb1d77, 0x1000c008, 0, 0)
    && Meets(ws[12], rs[11], ws[11], 0x0fff5d77, 0xa000a288, 0, 0)
    && Meets(ws[13], rs[12], ws[12], 0x0efe7ff7, 0xe0008000, 0, 0x00010000)
    && Meets(ws[14], rs[13], ws[13], 0x0ffdffff, 0xf0000000, 0, 0x00020000)
  }

  /** Q2 to Q16 as the 01 search draws them, bit by bit. */
  predicate PathS01(w3: Word, rs: seq<Word>, ws: seq<Word>)
    requires |rs| == 13 && |ws| == 15
  {
    && Meets(ws[0], rs[0], w3, 0x4db0e03e, 0x32460441, 0x80000000, 0)
    && Meets(ws[1], rs[1], ws[0], 0x0c000008, 0x123c3af1, 0x80800002, 0)
    && Meets(ws[2], W(0), ws[1], 0, 0x6398f812, 0x08000000, 0x80000000)
    && Meets(ws[3], rs[2], ws[2], 0x82000000, 0x4c66e99e, 0, 0)
    && Meets(ws[4], rs[3], ws[3], 0x80000000, 0x27180590, 0, 0)
    && Meets(ws[5], rs[4], ws[4], 0x00010130, 0x51ea9e47, 0, 0)
    && Meets(ws[6], rs[5], ws[5], 0x40200800, 0xb7c291e5, 0, 0)
    && Meets(ws[7], rs[6], ws[6], 0x00044000, 0x380002b4, 0, 0)
    && Meets(ws[8], W(0), ws[7], 0, 0xb282b208, 0x00044000, 0)
    && Meets(ws[9], rs[7], ws[8], 0x12808008, 0xc5712f47, 0, 0)
    && Meets(ws[10], rs[8], ws[9], 0x1ef18d7f, 0x000a3080, 0, 0)
    && Meets(ws[11], rs[9], ws[10], 0x1efb1d77, 0x4004c008, 0, 0)
    && Meets(ws[12], rs[10], ws[11], 0x1fff5d77, 0x6000a288, 0, 0)
    && Meets(ws[13], rs[11], ws[12], 0x1efe7ff7, 0xa0008000, 0, 0x00010000)
    && Meets(ws[14], rs[12], ws[13], 0x1ffdffff, 0x20000000, 0, 0x00020000)
  }

  /** Q2 to Q16 as the 10 search draws them, bit by bit. */
  predicate PathS10(w3: Word, rs: seq<Word>, ws: seq<Word>)
    requires |rs| == 14 && |ws| == 15
  {
    && Meets(ws[0], rs[0], w3, 0x79b0c6ba, 0x024c3841, 0x80000000, 0)
    && Meets(ws[1], rs[1], ws[0], 0x19300210, 0x2603096d, 0x80000082, 0)
    && Meets(ws[2], rs[2], ws[1], 0x10300000, 0xe4cae30c, 0x01000030, 0)
    && Meets(ws[3], rs[3], ws[2], 0x10000000, 0x63494061, 0x00300000, 0)
    && Meets(ws[4], W(0), ws[3], 0, 0x7deaff68, 0, 0)
    && Meets(ws[5], rs[4], ws[4], 0x20444000, 0x09091ee0, 0, 0)
    && Meets(ws[6], rs[5], ws[5], 0x09040000, 0xb2529f6d, 0, 0)
    && Meets(ws[7], rs[6], ws[6], 0x00040000, 0x10885184, 0, 0)
    && Meets(ws[8], rs[7], ws[7], 0x00000080, 0x428afb11, 0x00040000, 0)
    && Meets(ws[9], rs[8], ws[8], 0x128a8110, 0x6571266b, 0x0000080, 0)
    && Meets(ws[10], rs[9], ws[9], 0x3ef38d7f, 0x00003080, 0, 0x00080000)
    && Meets(ws[11], rs[10], ws[10], 0x3efb1d77, 0x0004c008, 0, 0)
    && Meets(ws[12], rs[11], ws[11], 0x5fff5d77, 0x8000a288, 0, 0)
    && Meets(ws[13], rs[12], ws[12], 0x1efe7ff7, 0xe0008000, 0, 0x00010000)
    && Meets(ws[14], rs[13], ws[13], 0x5ffdffff, 0x20000000, 0, 0x00020000)
  }

  /** Q2 to Q16 as the 11 search draws them, bit by bit. */
  predicate PathS11(w3: Word, rs: seq<Word>, ws: seq<Word>)
    requires |rs| == 14 && |ws| == 15
  {
    && Meets(ws[0], rs[0], w3, 0x75bef63e, 0x0a410041, 0x80000000, 0)
    && Meets(ws[1], rs[1], ws[0], 0x10345614, 0x0202a9e1, 0x84000002, 0)
    && Meets(ws[2], rs[2], ws[1], 0x00145400, 0xe84ba909, 0x00000014, 0)
    && Meets(ws[3], rs[3], ws[2], 0x80000000, 0x75e90b1d, 0x00145400, 0)
    && Meets(ws[4], W(0), ws[3], 0, 0x7c23ff5a, 0x80000000, 0)
    && Meets(ws[5], rs[4], ws[4], 0x40000880, 0x114bf41a, 0, 0)
    && Meets(ws[6], rs[5], ws[5], 0x00002090, 0xb352dd01, 0, 0)
    && Meets(ws[7], rs[6], ws[6], 0x00044000, 0x7a803124, 0, 0)
    && Meets(ws[8], rs[7], ws[7], 0x00002000, 0xf28a92c9, 0x00044000, 0)
    && Meets(ws[9], rs[8], ws[8], 0x128a8108, 0xc5710ed7, 0x00002000, 0)
    && Meets(ws[10], rs[9], ws[9], 0x9edb8d7f, 0x20003080, 0, 0x00200000)
    && Meets(ws[11], rs[10], ws[10], 0x3efb1d77, 0x4004c008, 0x80000000, 0)
    && Meets(ws[12], rs[11], ws[11], 0x1fff5d77, 0x0000a288, 0, 0)
    && Meets(ws[13], rs[12], ws[12], 0x1efe7ff7, 0x20008000, 0, 0x00010000)
    && Meets(ws[14], rs[13], ws[13], 0x1ffdffff, 0x20000000, 0, 0x40020000)
  }

  /** The draw of search v. */
  ghost predicate Path(v: Variant, w3: Word, s1: bv32, s2: bv32, ws: seq<Word>)
    requires |ws| == 15
  {
    match v
    case Wang => PathWang(w3, DrawsOf(s1, s2, 13), ws)
    case S00 => PathS00(w3, DrawsOf(s1, s2, 14), ws)
    case S01 => PathS01(w3, DrawsOf(s1, s2, 13), ws)
    case S10 => PathS10(w3, DrawsOf(s1, s2, 14), ws)
    case S11 => PathS11(w3, DrawsOf(s1, s2, 14), ws)
  }

  lemma NoQ4Bits(v: Variant, q9: Word)
    requires v != Wang
    ensures RoomForQ4(v, q9)
  {}

  lemma RoomWang(r9: Word, r12: Word, r14: Word, q3: Word, q9: Word, q11: Word, q12: Word, q13: Word, q14: Word)
    requires q9 == Drawn(r9, 0x600c0000, 0x05e2ec56, q3, 0x80000000, 0)
    requires q12 == Drawn(r12, 0x00002800, 0x1c0101c1, q11, 0x80001000, 0)
    requires q13 == Drawn(W(0), 0, 0x078bcbc0, q3, 0, 0x80000000)
    requires q14 == Drawn(r14, 0x07800000, 0x607dc7df, q3, 0, 0x80000000)
    ensures Room(Wang, q12, q13, q14) && RoomForQ4(Wang, q9)
  {
    hide Disjoint, Meets;
  }

  /** In every draw the free, set, equal and opposite bits are different bits. */
  lemma ApartWang()
    ensures Disjoint(0x71de7799, 0x0c008840, 0, 0x80000000)
    ensures Disjoint(0x01c06601, 0x3e1f0966, 0x80000018, 0)
    ensures Disjoint(0, 0x3a040010, 0x80000601, 0)
    ensures Disjoint(0x03c0e000, 0x482f0e50, 0x80000000, 0)
    ensures Disjoint(0x600c0000, 0x05e2ec56, 0x80000000, 0)
    ensures Disjoint(0x604c203e, 0x16819e01, 0, 0x80000000)
    ensures Disjoint(0x604c7c1c, 0x043283e0, 0x80000002, 0)
    ensures Disjoint(0x00002800, 0x1c0101c1, 0x80001000, 0)
    ensures Disjoint(0, 0x078bcbc0, 0, 0x80000000)
    ensures Disjoint(0x07800000, 0x607dc7df, 0, 0x80000000)
    ensures Disjoint(0x00f00f7f, 0x00081080, 0xe7000000, 0)
    ensures Disjoint(0x00701f77, 0x3f0fe008, 0x80000000, 0)
    ensures Disjoint(0x00701f77, 0x408be088, 0x80000000, 0)
    ensures Disjoint(0x00ff3ff7, 0x7d000000, 0, 0)
    ensures Disjoint(0x4ffdffff, 0x20000000, 0, 0x00020000)
  {}

  /** Q2 to Q16 of the Wang search. */
  method SeedWang(th: Thread, w3: Word) returns (ws: seq<Word>)
    modifies th`seed1, th`seed2
    ensures Seeded(Wang, ws) && PathWang(w3, DrawsOf(old(th.seed1), old(th.seed2), 13), ws)
  {
    hide Drawn, DrawnXor, Also, Meets, Disjoint, NextSeeds, SeedsAfter, DrawnAt, Room, RoomForQ4;
    ApartWang();
    var rs := th.Draws(13);
    assert rs == DrawsOf(old(th.seed1), old(th.seed2), 13);
    var w5 := Drawn(rs[0], 0x71de7799, 0x0c008840, w3, 0, 0x80000000);
    var w6 := Drawn(rs[1], 0x01c06601, 0x3e1f0966, w5, 0x80000018, 0);
    var w7 := Drawn(W(0), 0, 0x3a040010, w6, 0x80000601, 0);
    var w8 := Drawn(rs[2], 0x03c0e000, 0x482f0e50, w3, 0x80000000, 0);
    var w9 := Drawn(rs[3], 0x600c0000, 0x05e2ec56, w3, 0x80000000, 0);
    var d10 := Drawn(rs[4], 0x604c203e, 0x16819e01, w3, 0, 0x80000000);
    ClearElsewhere(d10, rs[4], w3, 0x604c203e, 0x16819e01, 0, 0x80000000, 0x01000000);
    AlsoIs(d10, w9, 0x01000000);
    var w10 := Also(d10, w9, 0x01000000);
    var w11 := Drawn(rs[5], 0x604c7c1c, 0x043283e0, w10, 0x80000002, 0);
    var w12 := Drawn(rs[6], 0x00002800, 0x1c0101c1, w11, 0x80001000, 0);
    var w13 := Drawn(W(0), 0, 0x078bcbc0, w3, 0, 0x80000000);
    var w14 := Drawn(rs[7], 0x07800000, 0x607dc7df, w3, 0, 0x80000000);
    RoomWang(rs[3], rs[6], rs[7], w3, w9, w11, w12, w13, w14);
    var w15 := Drawn(rs[8], 0x00f00f7f, 0x00081080, w14, 0xe7000000, 0);
    var w16 := Drawn(rs[9], 0x00701f77, 0x3f0fe008, w3, 0x80000000, 0);
    var w17 := Drawn(rs[10], 0x00701f77, 0x408be088, w3, 0x80000000, 0);
    var w18 := Drawn(rs[11], 0x00ff3ff7, 0x7d000000, w17, 0, 0);
    var w19 := Drawn(rs[12], 0x4ffdffff, 0x20000000, w18, 0, 0x00020000);
    ws := [w5, w6, w7, w8, w9, w10, w11, w12, w13, w14, w15, w16, w17, w18, w19];
  }

  lemma RoomS00(r12: Word, r14: Word, q11: Word, q12: Word, q13: Word, q14: Word)
    requires q12 == Drawn(r12, 0x40044000, 0xb8820004, q11, 0, 0)
    requires q13 == Drawn(W(0), 0, 0xf288b209, q12, 0x00044000, 0)
    requires q14 == Drawn(r14, 0x12888008, 0x85712f57, q13, 0, 0)
    ensures Room(S00, q12, q13, q14)
  {
    hide Disjoint, Meets;
  }

  lemma ApartS00()
    ensures Disjoint(0x49a0e73e, 0x221f00c1, 0x80000000, 0)
    ensures Disjoint(0x0000040c, 0x3fce1a71, 0x8000e000, 0)
    ensures Disjoint(0x00000004, 0x67fd823b, 0, 0)
    ensures Disjoint(0x00001044, 0x15e5829a, 0, 0)
    ensures Disjoint(0x00200806, 0x950430b0, 0, 0)
    ensures Disjoint(0x60050110, 0x1bd29ca2, 0x00000004, 0)
    ensures Disjoint(0x40044000, 0xb8820004, 0, 0)
    ensures Disjoint(0, 0xf288b209, 0x00044000, 0)
    ensures Disjoint(0x12888008, 0x85712f57, 0, 0)
    ensures Disjoint(0x1ed98d7f, 0xc0023080, 0, 0x00200000)
    ensures Disjoint(0x0efb1d77, 0x1000c008, 0, 0)
    ensures Disjoint(0x0fff5d77, 0xa000a288, 0, 0)
    ensures Disjoint(0x0efe7ff7, 0xe0008000, 0, 0x00010000)
    ensures Disjoint(0x0ffdffff, 0xf0000000, 0, 0x00020000)
  {}

  /** Q2 to Q16 of the Stevens 00 search. */
  method SeedS00(th: Thread, w3: Word) returns (ws: seq<Word>)
    modifies th`seed1, th`seed2
    ensures Seeded(S00, ws) && PathS00(w3, DrawsOf(old(th.seed1), old(th.seed2), 14), ws)
  {
    hide Drawn, DrawnXor, Also, Meets, Disjoint, NextSeeds, SeedsAfter, DrawnAt, Room, RoomForQ4;
    ApartS00();
    var rs := th.Draws(14);
    assert rs == DrawsOf(old(th.seed1), old(th.seed2), 14);
    var w5 := Drawn(rs[0], 0x49a0e73e, 0x221f00c1, w3, 0x80000000, 0);
    var w6 := Drawn(rs[1], 0x0000040c, 0x3fce1a71, w5, 0x8000e000, 0);
    var w7 := DrawnXor(rs[2], 0x00000004, 0xa5f281a2, w6, 0x80000008);
    DrawnXorMeets(rs[2], 0x00000004, 0xa5f281a2, w6, 0x80000008);
    var w8 := Drawn(rs[3], 0x00000004, 0x67fd823b, w7, 0, 0);
    var w9 := Drawn(rs[4], 0x00001044, 0x15e5829a, w8, 0, 0);
    var w10 := Drawn(rs[5], 0x00200806, 0x950430b0, w9, 0, 0);
    var w11 := Drawn(rs[6], 0x60050110, 0x1bd29ca2, w10, 0x00000004, 0);
    var w12 := Drawn(rs[7], 0x40044000, 0xb8820004, w11, 0, 0);
    var w13 := Drawn(W(0), 0, 0xf288b209, w12, 0x00044000, 0);
    var w14 := Drawn(rs[8], 0x12888008, 0x85712f57, w13, 0, 0);
    RoomS00(rs[7], rs[8], w11, w12, w13, w14);
    var w15 := Drawn(rs[9], 0x1ed98d7f, 0xc0023080, w14, 0, 0x00200000);
    var w16 := Drawn(rs[10], 0x0efb1d77, 0x1000c008, w15, 0, 0);
    var w17 := Drawn(rs[11], 0x0fff5d77, 0xa000a288, w16, 0, 0);
    var w18 := Drawn(rs[12], 0x0efe7ff7, 0xe0008000, w17, 0, 0x00010000);
    var w19 := Drawn(rs[13], 0x0ffdffff, 0xf0000000, w18, 0, 0x00020000);
    NoQ4Bits(S00, w9);
    ws := [w5, w6, w7, w8, w9, w10, w11, w12, w13, w14, w15, w16, w17, w18, w19];
  }

  lemma RoomS01(r12: Word, r14: Word, q11: Word, q12: Word, q13: Word, q14: Word)
    requires q12 == Drawn(r12, 0x00044000, 0x380002b4, q11, 0, 0)
    requires q13 == Drawn(W(0), 0, 0xb282b208, q12, 0x00044000, 0)
    requires q14 == Drawn(r14, 0x12808008, 0xc5712f47, q13, 0, 0)
    ensures Room(S01, q12, q13, q14)
  {
    hide Disjoint, Meets;
  }

  lemma ApartS01()
    ensures Disjoint(0x4db0e03e, 0x32460441, 0x80000000, 0)
    ensures Disjoint(0x0c000008, 0x123c3af1, 0x80800002, 0)
    ensures Disjoint(0x82000000, 0x4c66e99e, 0, 0)
    ensures Disjoint(0x80000000, 0x27180590, 0, 0)
    ensures Disjoint(0x00010130, 0x51ea9e47, 0, 0)
    ensures Disjoint(0x40200800, 0xb7c291e5, 0, 0)
    ensures Disjoint(0x00044000, 0x380002b4, 0, 0)
    ensures Disjoint(0, 0xb282b208, 0x00044000, 0)
    ensures Disjoint(0x12808008, 0xc5712f47, 0, 0)
    ensures Disjoint(0x1ef18d7f, 0x000a3080, 0, 0)
    ensures Disjoint(0x1efb1d77, 0x4004c008, 0, 0)
    ensures Disjoint(0x1fff5d77, 0x6000a288, 0, 0)
    ensures Disjoint(0x1efe7ff7, 0xa0008000, 0, 0x00010000)
    ensures Disjoint(0x1ffdffff, 0x20000000, 0, 0x00020000)
  {}

  /** Q2 to Q16 of the Stevens 01 search. */
  method SeedS01(th: Thread, w3: Word) returns (ws: seq<Word>)
    modifies th`seed1, th`seed2
    ensures Seeded(S01, ws) && PathS01(w3, DrawsOf(old(th.seed1), old(th.seed2), 13), ws)
  {
    hide Drawn, DrawnXor, Also, Meets, Disjoint, NextSeeds, SeedsAfter, DrawnAt, Room, RoomForQ4;
    ApartS01();
    var rs := th.Draws(13);
    assert rs == DrawsOf(old(th.seed1), old(th.seed2), 13);
    var w5 := Drawn(rs[0], 0x4db0e03e, 0x32460441, w3, 0x80000000, 0);
    var w6 := Drawn(rs[1], 0x0c000008, 0x123c3af1, w5, 0x80800002, 0);
    var w7 := DrawnXor(W(0), 0, 0xe398f812, w6, 0x88000000);
    DrawnXorMeets(W(0), 0, 0xe398f812, w6, 0x88000000);
    var w8 := Drawn(rs[2], 0x82000000, 0x4c66e99e, w7, 0, 0);
    var w9 := Drawn(rs[3], 0x80000000, 0x27180590, w8, 0, 0);
    var w10 := Drawn(rs[4], 0x00010130, 0x51ea9e47, w9, 0, 0);
    var w11 := Drawn(rs[5], 0x40200800, 0xb7c291e5, w10, 0, 0);
    var w12 := Drawn(rs[6], 0x00044000, 0x380002b4, w11, 0, 0);
    var w13 := Drawn(W(0), 0, 0xb282b208, w12, 0x00044000, 0);
    var w14 := Drawn(rs[7], 0x12808008, 0xc5712f47, w13, 0, 0);
    RoomS01(rs[6], rs[7], w11, w12, w13, w14);
    var w15 := Drawn(rs[8], 0x1ef18d7f, 0x000a3080, w14, 0, 0);
    var w16 := Drawn(rs[9], 0x1efb1d77, 0x4004c008, w15, 0, 0);
    var w17 := Drawn(rs[10], 0x1fff5d77, 0x6000a288, w16, 0, 0);
    var w18 := Drawn(rs[11], 0x1efe7ff7, 0xa0008000, w17, 0, 0x00010000);
    var w19 := Drawn(rs[12], 0x1ffdffff, 0x20000000, w18, 0, 0x00020000);
    NoQ4Bits(S01, w9);
    ws := [w5, w6, w7, w8, w9, w10, w11, w12, w13, w14, w15, w16, w17, w18, w19];
  }

  lemma RoomS10(r12: Word, r13: Word, r14: Word, q11: Word, q12: Word, q13: Word, q14: Word)
    requires q12 == Drawn(r12, 0x00040000, 0x10885184, q11, 0, 0)
    requires q13 == Drawn(r13, 0x00000080, 0x428afb11, q12, 0x00040000, 0)
    requires q14 == Drawn(r14, 0x128a8110, 0x6571266b, q13, 0x0000080, 0)
    ensures Room(S10, q12, q13, q14)
  {
    hide Disjoint, Meets;
  }

  lemma ApartS10()
    ensures Disjoint(0x79b0c6ba, 0x024c3841, 0x80000000, 0)
    ensures Disjoint(0x19300210, 0x2603096d, 0x80000082, 0)
    ensures Disjoint(0x10300000, 0xe4cae30c, 0x01000030, 0)
    ensures Disjoint(0x10000000, 0x63494061, 0x00300000, 0)
    ensures Disjoint(0, 0x7deaff68, 0, 0)
    ensures Disjoint(0x20444000, 0x09091ee0, 0, 0)
    ensures Disjoint(0x09040000, 0xb2529f6d, 0, 0)
    ensures Disjoint(0x00040000, 0x10885184, 0, 0)
    ensures Disjoint(0x00000080, 0x428afb11, 0x00040000, 0)
    ensures Disjoint(0x128a8110, 0x6571266b, 0x0000080, 0)
    ensures Disjoint(0x3ef38d7f, 0x00003080, 0, 0x00080000)
    ensures Disjoint(0x3efb1d77, 0x0004c008, 0, 0)
    ensures Disjoint(0x5fff5d77, 0x8000a288, 0, 0)
    ensures Disjoint(0x1efe7ff7, 0xe0008000, 0, 0x00010000)
    ensures Disjoint(0x5ffdffff, 0x20000000, 0, 0x00020000)
  {}

  /** Q2 to Q16 of the Stevens 10 search. */
  method SeedS10(th: Thread, w3: Word) returns (ws: seq<Word>)
    modifies th`seed1, th`seed2
    ensures Seeded(S10, ws) && PathS10(w3, DrawsOf(old(th.seed1), old(th.seed2), 14), ws)
  {
    hide Drawn, DrawnXor, Also, Meets, Disjoint, NextSeeds, SeedsAfter, DrawnAt, Room, RoomForQ4;
    ApartS10();
    var rs := th.Draws(14);
    assert rs == DrawsOf(old(th.seed1), old(th.seed2), 14);
    var w5 := Drawn(rs[0], 0x79b0c6ba, 0x024c3841, w3, 0x80000000, 0);
    var w6 := Drawn(rs[1], 0x19300210, 0x2603096d, w5, 0x80000082, 0);
    var w7 := Drawn(rs[2], 0x10300000, 0xe4cae30c, w6, 0x01000030, 0);
    var w8 := Drawn(rs[3], 0x10000000, 0x63494061, w7, 0x00300000, 0);
    var w9 := Drawn(W(0), 0, 0x7deaff68, w8, 0, 0);
    var w10 := Drawn(rs[4], 0x20444000, 0x09091ee0, w9, 0, 0);
    var w11 := Drawn(rs[5], 0x09040000, 0xb2529f6d, w10, 0, 0);
    var w12 := Drawn(rs[6], 0x00040000, 0x10885184, w11, 0, 0);
    var w13 := Drawn(rs[7], 0x00000080, 0x428afb11, w12, 0x00040000, 0);
    var w14 := Drawn(rs[8], 0x128a8110, 0x6571266b, w13, 0x0000080, 0);
    RoomS10(rs[6], rs[7], rs[8], w11, w12, w13, w14);
    var w15 := Drawn(rs[9], 0x3ef38d7f, 0x00003080, w14, 0, 0x00080000);
    var w16 := Drawn(rs[10], 0x3efb1d77, 0x0004c008, w15, 0, 0);
    var w17 := Drawn(rs[11], 0x5fff5d77, 0x8000a288, w16, 0, 0);
    var w18 := Drawn(rs[12], 0x1efe7ff7, 0xe0008000, w17, 0, 0x00010000);
    var w19 := Drawn(rs[13], 0x5ffdffff, 0x20000000, w18, 0, 0x00020000);
    NoQ4Bits(S10, w9);
    ws := [w5, w6, w7, w8, w9, w10, w11, w12, w13, w14, w15, w16, w17, w18, w19];
  }

  lemma RoomS11(r12: Word, r13: Word, r14: Word, q11: Word, q12: Word, q13: Word, q14: Word)
    requires q12 == Drawn(r12, 0x00044000, 0x7a803124, q11, 0, 0)
    requires q13 == Drawn(r13, 0x00002000, 0xf28a92c9, q12, 0x00044000, 0)
    requires q14 == Drawn(r14, 0x128a8108, 0xc5710ed7, q13, 0x00002000, 0)
    ensures Room(S11, q12, q13, q14)
  {
    hide Disjoint, Meets;
  }

  lemma ApartS11()
    ensures Disjoint(0x75bef63e, 0x0a410041, 0x80000000, 0)
    ensures Disjoint(0x10345614, 0x0202a9e1, 0x84000002, 0)
    ensures Disjoint(0x00145400, 0xe84ba909, 0x00000014, 0)
    ensures Disjoint(0x80000000, 0x75e90b1d, 0x00145400, 0)
    ensures Disjoint(0, 0x7c23ff5a, 0x80000000, 0)
    ensures Disjoint(0x40000880, 0x114bf41a, 0, 0)
    ensures Disjoint(0x00002090, 0xb352dd01, 0, 0)
    ensures Disjoint(0x00044000, 0x7a803124, 0, 0)
    ensures Disjoint(0x00002000, 0xf28a92c9, 0x00044000, 0)
    ensures Disjoint(0x128a8108, 0xc5710ed7, 0x00002000, 0)
    ensures Disjoint(0x9edb8d7f, 0x20003080, 0, 0x00200000)
    ensures Disjoint(0x3efb1d77, 0x4004c008, 0x80000000, 0)
    ensures Disjoint(0x1fff5d77, 0x0000a288, 0, 0)
    ensures Disjoint(0x1efe7ff7, 0x20008000, 0, 0x00010000)
    ensures Disjoint(0x1ffdffff, 0x20000000, 0, 0x40020000)
  {}

  /** Q2 to Q16 of the Stevens 11 search. */
  method SeedS11(th: Thread, w3: Word) returns (ws: seq<Word>)
    modifies th`seed1, th`seed2
    ensures Seeded(S11, ws) && PathS11(w3, DrawsOf(old(th.seed1), old(th.seed2), 14), ws)
  {
    hide Drawn, DrawnXor, Also, Meets, Disjoint, NextSeeds, SeedsAfter, DrawnAt, Room, RoomForQ4;
    ApartS11();
    var rs := th.Draws(14);
    assert rs == DrawsOf(old(th.seed1), old(th.seed2), 14);
    var w5 := Drawn(rs[0], 0x75bef63e, 0x0a410041, w3, 0x80000000, 0);
    var w6 := Drawn(rs[1], 0x10345614, 0x0202a9e1, w5, 0x84000002, 0);
    var w7 := Drawn(rs[2], 0x00145400, 0xe84ba909, w6, 0x00000014, 0);
    var w8 := Drawn(rs[3], 0x80000000, 0x75e90b1d, w7, 0x00145400, 0);
    var w9 := Drawn(W(0), 0, 0x7c23ff5a, w8, 0x80000000, 0);
    var w10 := Drawn(rs[4], 0x40000880, 0x114bf41a, w9, 0, 0);
    var w11 := Drawn(rs[5], 0x00002090, 0xb352dd01, w10, 0, 0);
    var w12 := Drawn(rs[6], 0x00044000, 0x7a803124, w11, 0, 0);
    var w13 := Drawn(rs[7], 0x00002000, 0xf28a92c9, w12, 0x00044000, 0);
    var w14 := Drawn(rs[8], 0x128a8108, 0xc5710ed7, w13, 0x00002000, 0);
    RoomS11(rs[6], rs[7], rs[8], w11, w12, w13, w14);
    var w15 := Drawn(rs[9], 0x9edb8d7f, 0x20003080, w14, 0, 0x00200000);
    var w16 := Drawn(rs[10], 0x3efb1d77, 0x4004c008, w15, 0x80000000, 0);
    var w17 := Drawn(rs[11], 0x1fff5d77, 0x0000a288, w16, 0, 0);
    var w18 := Drawn(rs[12], 0x1efe7ff7, 0x20008000, w17, 0, 0x00010000);
    var w19 := Drawn(rs[13], 0x1ffdffff, 0x20000000, w18, 0, 0x40020000);
    NoQ4Bits(S11, w9);
    ws := [w5, w6, w7, w8, w9, w10, w11, w12, w13, w14, w15, w16, w17, w18, w19];
  }

  method Seed(th: Thread, q: array<Word>, v: Variant)
    requires q.Length == 68
    modifies th`seed1, th`seed2, q
    ensures forall i :: 0 <= i < 5 || 20 <= i < 68 ==> q[i] == old(q[i])
    ensures Seeded(v, q[5..20]) && Path(v, old(q[3]), old(th.seed1), old(th.seed2), q[5..20])
  {
    hide Seeded, PathWang, PathS00, PathS01, PathS10, PathS11;
    var ws: seq<Word>;
    match v {
      case Wang => ws := SeedWang(th, q[3]);
      case S00 => ws := SeedS00(th, q[3]);
      case S01 => ws := SeedS01(th, q[3]);
      case S10 => ws := SeedS10(th, q[3]);
      case S11 => ws := SeedS11(th, q[3]);
    }
    SeededLength(v, ws);
    Store(q, ws);
    assert q[5..20] == ws;
  }

  lemma SeededLength(v: Variant, ws: seq<Word>)
    requires Seeded(v, ws)
    ensures |ws| == 15
  {}

  method Store(q: array<Word>, ws: seq<Word>)
    requires q.Length == 68 && |ws| == 15
    modifies q
    ensures forall i :: 0 <= i < 5 || 20 <= i < 68 ==> q[i] == old(q[i])
    ensures forall i :: 5 <= i < 20 ==> q[i] == ws[i - 5]
  {
    forall i | 5 <= i < 20 {
      q[i] := ws[i - 5];
    }
  }

  /** Words 5, 6, 7, 11, 14 and 15. */
  method DeriveFirst(q: array<Word>, block: array<Word>)
    requires q.Length == 68 && block.Length == 16 && q != block
    modifies block
    ensures forall t :: t in {6, 11, 14, 15} ==> Fits(q[..], block[..], t)
  {
    hide Fits, RowOf;
    RoundOneRows();
    Reverse(q, block, 5, 0x4787c62a, 12);
    Reverse(q, block, 6, 0xa8304613, 17);
    ghost var b6 := block[..];
    Reverse(q, block, 7, 0xfd469501, 22);
    Reverse(q, block, 11, 0x895cd7be, 22);
    ghost var b11 := block[..];
    Reverse(q, block, 14, 0xa679438e, 17);
    ghost var b14 := block[..];
    Reverse(q, block, 15, 0x49b40821, 22);
    FitsSame(q[..], q[..], b6, block[..], 6);
    FitsSame(q[..], q[..], b11, block[..], 11);
    FitsSame(q[..], q[..], b14, block[..], 14);
  }

  lemma Stage1Is(v: Variant, iv: Regs, q: seq<Word>, block: Block)
    requires |q| == 68 && At(q, 0) == iv && Seeded(v, q[5..20])
    requires forall t :: t in {6, 11, 14, 15} ==> Fits(q, block, t)
    ensures Stage1(v, iv, q, block)
  {
    hide Fits, Room, RoomForQ4;
  }

  // ---------------------------------------------------------------- the Stevens searches

  /** Stage1 and the steps that word 5, q1 and q17 to q21 settle. */
  ghost predicate Stage2(v: Variant, iv: Regs, q: seq<Word>, block: Block) {
    Stage1(v, iv, q, block) && forall t :: t in {0, 1, 5, 16, 17, 18, 19, 20} ==> Fits(q, block, t)
  }

  /** Draw q1 until the conditions on q17 to q21 hold, at most 4096 times. */
  method FindQ1(th: Thread, q: array<Word>, block: array<Word>, v: Variant, iv: Regs) returns (ok: bool)
    requires q.Length == 68 && block.Length == 16 && q != block
    requires Stage1(v, iv, q[..], block[..])
    modifies th`seed1, th`seed2, q, block
    ensures Stage1(v, iv, q[..], block[..])
    ensures ok ==> Stage2(v, iv, q[..], block[..])
  {
    hide Stage1, Fits, Stage2;
    for counter := 0 to 4096
      invariant Stage1(v, iv, q[..], block[..])
    {
      ok := TryQ1(th, q, block, v, iv);
      if ok {
        ok := AddWord5(q, block, v, iv);
        if ok {
          return;
        }
      }
    }
    ok := false;
  }

  /** The condition on q21. */
  predicate Settled21(q21: Word, q20: Word) { (q21.v ^ q20.v) & 0x80020000 == 0 }

  /** Word 5, and q21 from it. */
  method AddWord5(q: array<Word>, block: array<Word>, v: Variant, iv: Regs) returns (ok: bool)
    requires q.Length == 68 && block.Length == 16 && q != block
    requires Stage1(v, iv, q[..], block[..])
    requires forall t :: t in {0, 1, 16, 17, 18, 19} ==> Fits(q[..], block[..], t)
    modifies q, block
    ensures Stage1(v, iv, q[..], block[..])
    ensures ok ==> Stage2(v, iv, q[..], block[..])
  {
    hide Stage1, Fits, RowOf, Mix, Add, Add3, Turn, Settled21;
    RoundOneRows();
    ghost var q0, block0 := q[..], block[..];
    Reverse(q, block, 5, 0x4787c62a, 12);
    Stage1Kept(v, iv, q0, q[..], block0, block[..]);
    var tt21 := Add3(Mix(G, q[23], q[22], q[21]).v, q[20].v, 0xd62f105d);
    var q21 := Turn(Add(tt21, block[5].v), 5, q[23]);
    if !Settled21(q21, q[23]) {
      return false;
    }
    ghost var q1 := q[..];
    q[24] := q21;
    Stage1Kept(v, iv, q0, q[..], block0, block[..]);
    Step20(q[..], block[..], tt21);
    FitsSame(q1, q[..], block[..], block[..], 5);
    KeptByWord5(q0, q[..], block0, block[..]);
    ok := true;
  }

  lemma KeptByWord5(q: seq<Word>, q': seq<Word>, w: Block, w': Block)
    requires |q| == |q'| == 68 && forall i :: 0 <= i < 16 && i != 5 ==> w'[i] == w[i]
    requires forall i :: 0 <= i < 24 ==> q[i] == q'[i]
    requires forall t :: t in {0, 1, 16, 17, 18, 19} ==> Fits(q, w, t)
    ensures forall t :: t in {0, 1, 16, 17, 18, 19} ==> Fits(q', w', t)
  {
    hide Fits, RowOf;
    RowsAround17();
    RoundOneRows();
    FitsSame(q, q', w, w', 0);
    FitsSame(q, q', w, w', 1);
    FitsSame(q, q', w, w', 16);
    FitsSame(q, q', w, w', 17);
    FitsSame(q, q', w, w', 18);
    FitsSame(q, q', w, w', 19);
  }

  /** Words 2, 3, 4 and 7 complete the stage before the loop over Q9 and Q10. */
  method Complete(q: array<Word>, block: array<Word>, v: Variant, iv: Regs)
    requires q.Length == 68 && block.Length == 16 && q != block
    requires Stage2(v, iv, q[..], block[..])
    modifies block
    ensures Outer(v, iv, q[..], block[..], q[12], q[13])
  {
    hide Stage1, Fits, RowOf, Outer;
    RoundOneRows();
    ghost var b0 := block[..];
    Reverse(q, block, 2, 0x242070db, 17);
    ghost var b2 := block[..];
    FitsSame(q[..], q[..], b0, b2, 5);
    FitsSame(q[..], q[..], b0, b2, 20);
    Rederive(q, block);
    FitsSame(q[..], q[..], b2, block[..], 2);
    Stage1Kept(v, iv, q[..], q[..], b0, block[..]);
    RowsAround17();
    FitsSame(q[..], q[..], b0, block[..], 0);
    FitsSame(q[..], q[..], b0, block[..], 1);
    FitsSame(q[..], q[..], b0, block[..], 16);
    FitsSame(q[..], q[..], b0, block[..], 17);
    FitsSame(q[..], q[..], b0, block[..], 18);
    FitsSame(q[..], q[..], b0, block[..], 19);
    OuterFrom(v, iv, q[..], block[..]);
  }

  lemma OuterFrom(v: Variant, iv: Regs, q: seq<Word>, block: Block)
    requires Stage1(v, iv, q, block)
    requires forall t :: t in {0, 1, 2, 3, 4, 5, 7, 16, 17, 18, 19, 20} ==> Fits(q, block, t)
    ensures Outer(v, iv, q, block, q[12], q[13])
  {
    hide Fits, Room;
    assert q[12 := q[12]][13 := q[13]] == q;
  }

  /** find_block1_stevens_00, _01, _10 and _11. */
  method FindBlock1Stevens(th: Thread, block: array<Word>, v: Variant, iv: Regs) returns (found: bool)
    requires block.Length == 16 && v != Wang
    modifies th, block
    ensures found ==> SecondPair(v, iv, block[..])
    ensures !found ==> th.polls == 0
    ensures Extends(iv, old(th.dots), th.dots)
  {
    hide Extends, SecondPair;
    var q := new Word[68](i => W(0));
    q[0], q[1], q[2], q[3] := iv.a, iv.d, iv.c, iv.b;
    ExtendsSelf(iv, th.dots);
    while true
      invariant At(q[..], 0) == iv
      invariant Extends(iv, old(th.dots), th.dots)
      decreases th.polls
    {
      var aborted := th.CheckAbort();
      if aborted {
        return false;
      }
      ghost var dots0 := th.dots;
      found := TryDraw(th, q, block, v, iv);
      ExtendsChain(iv, old(th.dots), dots0, th.dots);
      if found {
        return true;
      }
    }
  }

  /** One draw of the state words and all that is tried with it. */
  method TryDraw(th: Thread, q: array<Word>, block: array<Word>, v: Variant, iv: Regs) returns (found: bool)
    requires q.Length == 68 && block.Length == 16 && q != block && At(q[..], 0) == iv
    modifies th`seed1, th`seed2, th`dots, q, block
    ensures At(q[..], 0) == iv
    ensures found ==> SecondPair(v, iv, block[..])
    ensures Extends(iv, old(th.dots), th.dots)
  {
    hide Stage1, Stage2, Outer, Fits, Seeded, Path, Extends, SecondPair;
    ExtendsSelf(iv, th.dots);
    Seed(th, q, v);
    DeriveFirst(q, block);
    Stage1Is(v, iv, q[..], block[..]);
    var ok := FindQ1(th, q, block, v, iv);
    Stage1At(v, iv, q[..], block[..]);
    if !ok {
      return false;
    }
    Complete(q, block, v, iv);
    found := TryChoices(th, q, block, v, iv, q[12], q[13]);
  }

  lemma Stage1At(v: Variant, iv: Regs, q: seq<Word>, block: Block)
    requires Stage1(v, iv, q, block)
    ensures |q| == 68 && At(q, 0) == iv
  {}

  // ---------------------------------------------------------------- the Wang search

  /** Draw q1 until the conditions on q17 to q20 hold, at most 4096 times; word 2 follows. */
  method FindQ1Wang(th: Thread, q: array<Word>, block: array<Word>, iv: Regs) returns (ok: bool)
    requires q.Length == 68 && block.Length == 16 && q != block
    requires Stage1(Wang, iv, q[..], block[..])
    modifies th`seed1, th`seed2, q, block
    ensures Stage1(Wang, iv, q[..], block[..])
    ensures ok ==> WangStage(iv, q[..], block[..], q[7], q[12], q[13])
  {
    hide Stage1, WangStage, Fits;
    for counter := 0 to 4096
      invariant Stage1(Wang, iv, q[..], block[..])
    {
      ok := TryQ1(th, q, block, Wang, iv);
      if ok {
        AddWord2(q, block, iv);
        return;
      }
    }
    ok := false;
  }

  /** Word 2 completes the stage before the loop over Q4. */
  method AddWord2(q: array<Word>, block: array<Word>, iv: Regs)
    requires q.Length == 68 && block.Length == 16 && q != block
    requires Stage1(Wang, iv, q[..], block[..])
    requires forall t :: t in {0, 1, 16, 17, 18, 19} ==> Fits(q[..], block[..], t)
    modifies block
    ensures Stage1(Wang, iv, q[..], block[..])
    ensures WangStage(iv, q[..], block[..], q[7], q[12], q[13])
  {
    hide Stage1, WangStage, Fits, RowOf;
    RoundOneRows();
    ghost var block0 := block[..];
    Reverse(q, block, 2, 0x242070db, 17);
    Stage1Kept(Wang, iv, q[..], q[..], block0, block[..]);
    FitsSame(q[..], q[..], block0, block[..], 0);
    KeptByWord2(q[..], block0, block[..]);
    WangStageFrom(iv, q[..], block[..]);
  }

  /** The state and message words before the loop over Q4; q4, q9b and q10b are the drawn values. */
  ghost predicate WangStage(iv: Regs, q: seq<Word>, block: Block, q4: Word, q9b: Word, q10b: Word) {
    && |q| == 68
    && At(q, 0) == iv
    && (forall t :: 0 <= t < 3 || 14 <= t < 20 ==> Fits(q, block, t))
    && FitsAll(q[7 := q4], block, 6, 7)
    && FitsAll(q[12 := q9b][13 := q10b], block, 11, 12)
    && Room(Wang, q9b, q10b, q[14])
    && RoomForQ4(Wang, q[9])
  }

  lemma WangStageFrom(iv: Regs, q: seq<Word>, block: Block)
    requires Stage1(Wang, iv, q, block)
    requires forall t :: t in {0, 1, 2, 16, 17, 18, 19} ==> Fits(q, block, t)
    ensures WangStage(iv, q, block, q[7], q[12], q[13])
  {
    hide Fits, Room, RoomForQ4;
    assert q[7 := q[7]] == q && q[12 := q[12]][13 := q[13]] == q;
  }

  lemma WangStageKept(iv: Regs, q: seq<Word>, q': seq<Word>, block: Block, block': Block,
                      q4: Word, q9b: Word, q10b: Word)
    requires WangStage(iv, q, block, q4, q9b, q10b) && |q'| == 68
    requires forall i :: 0 <= i < 68 && i !in {7, 12, 13, 24} ==> q'[i] == q[i]
    requires forall i :: 0 <= i < 16 && i !in {3, 4, 5, 7, 8, 9, 10, 12, 13} ==> block'[i] == block[i]
    ensures WangStage(iv, q', block', q4, q9b, q10b)
  {
    hide Fits, RowOf, Room, RoomForQ4;
    forall t: nat | t < 3 || 14 <= t < 20
      ensures Fits(q', block', t)
    {
      WordsBeforeQ4(t);
      FitsSame(q, q', block, block', t);
    }
    Rows6And11();
    FitsSame(q[7 := q4], q'[7 := q4], block, block', 6);
    FitsSame(q[12 := q9b][13 := q10b], q'[12 := q9b][13 := q10b], block, block', 11);
  }

  lemma WangStageAt(iv: Regs, q: seq<Word>, block: Block, q4: Word, q9b: Word, q10b: Word)
    requires WangStage(iv, q, block, q4, q9b, q10b)
    ensures |q| == 68 && At(q, 0) == iv
  {}

  /** The change of Q4. */
  function Q4Mask(k: bv32): bv32 { ((k << 13) ^ (k << 19)) & 0x01c0e000 }

  lemma Q4BitsKeepWord6(q6: Word, k: bv32)
    requires RoomForQ4(Wang, q6)
    ensures Q4Mask(k) & !q6.v == 0
  {}

  /** With words 3, 4, 5 and 7 rederived for the current Q4, steps 0 to 7 and 14 to 20 are in place. */
  lemma OuterFromQ4(iv: Regs, q: seq<Word>, block: Block, q4: Word, q9b: Word, q10b: Word, k: bv32)
    requires WangStage(iv, q, block, q4, q9b, q10b) && q[7] == Flip(q4, Q4Mask(k))
    requires Fits(q, block, 3) && Fits(q, block, 4) && Fits(q, block, 5) && Fits(q, block, 7) && Fits(q, block, 20)
    ensures Outer(Wang, iv, q, block, q9b, q10b)
  {
    hide Fits, Flip, Q4Mask, Room, RoomForQ4;
    Q4BitsKeepWord6(q[9], k);
    KeepStep6(q, block, q4, Q4Mask(k));
  }

  /** A value of Q4 is spent: the condition on q21 fails, or every choice of Q9 and Q10 is spent for it. */
  ghost predicate Q4Spent(iv: Regs, q: seq<Word>, block: Block, q9b: Word, q10b: Word, q4: Word)
    requires |q| == 68
  {
    Ok21(q[7 := q4]) ==>
      var s, w := Q4State(q, q4), Q4Block(q, block, q4);
      AllSpent(Wang, iv, s, w, SumsIn(s, w), q9b, q10b, ChoiceCount(Wang))
  }

  ghost predicate Q4SpentAt(iv: Regs, q: seq<Word>, block: Block, q9b: Word, q10b: Word, q4: Word, k: nat)
    requires |q| == 68 && k < 64
  {
    Q4Spent(iv, q, block, q9b, q10b, Flip(q4, Q4Mask(k as bv32)))
  }

  ghost predicate AllQ4Spent(iv: Regs, q: seq<Word>, block: Block, q9b: Word, q10b: Word, q4: Word, n: nat) {
    |q| == 68 && forall k :: 0 <= k < n <= 64 ==> Q4SpentAt(iv, q, block, q9b, q10b, q4, k)
  }

  lemma AllQ4SpentNext(iv: Regs, q: seq<Word>, block: Block, q9b: Word, q10b: Word, q4: Word, k: nat)
    requires k < 64 && AllQ4Spent(iv, q, block, q9b, q10b, q4, k)
    requires Q4Spent(iv, q, block, q9b, q10b, Flip(q4, Q4Mask(k as bv32)))
    ensures AllQ4Spent(iv, q, block, q9b, q10b, q4, k + 1)
  {
    hide Q4Spent, Q4Mask, Flip;
  }

  lemma AllSpentLocal(v: Variant, iv: Regs, q: seq<Word>, q': seq<Word>, block: Block, block': Block, t: Sums,
                      q9b: Word, q10b: Word, n: nat)
    requires |q| == |q'| == 68 && AllSpent(v, iv, q, block, t, q9b, q10b, n)
    requires forall i :: 0 <= i < 68 && i !in {12, 13} ==> q'[i] == q[i]
    requires forall i :: 0 <= i < 16 && i !in {8, 9, 10, 12, 13} ==> block'[i] == block[i]
    ensures AllSpent(v, iv, q', block', t, q9b, q10b, n)
  {
    hide Spent;
    forall k | 0 <= k < n <= 32
      ensures Spent(v, iv, q', block', t, q9b, q10b, k)
    {
      assert Spent(v, iv, q, block, t, q9b, q10b, k);
      SpentLocal(v, iv, q, q', block, block', t, q9b, q10b, k);
    }
  }

  lemma SumsLocal(q: seq<Word>, q': seq<Word>, block: Block, block': Block)
    requires |q| == |q'| == 68
    requires forall i :: 0 <= i < 68 && i !in {12, 13} ==> q'[i] == q[i]
    requires block'[4] == block[4] && block'[15] == block[15]
    ensures SumsIn(q', block') == SumsIn(q, block)
  {
    hide Mix, Add, Add3;
  }

  lemma Q4SpentLocal(iv: Regs, q: seq<Word>, q': seq<Word>, block: Block, block': Block, q9b: Word, q10b: Word, q4: Word)
    requires |q| == |q'| == 68 && Q4Spent(iv, q, block, q9b, q10b, q4)
    requires forall i :: 0 <= i < 68 && i !in {7, 12, 13, 24} ==> q'[i] == q[i]
    requires forall i :: 0 <= i < 16 && i !in {3, 4, 5, 7, 8, 9, 10, 12, 13} ==> block'[i] == block[i]
    ensures Q4Spent(iv, q', block', q9b, q10b, q4)
  {
    Q4Local(q, q', block, block', q4);
    hide Ok21, Q4State, Q4Block, AllSpent, SumsIn;
    if Ok21(q[7 := q4]) {
      var s, w, s', w' := Q4State(q, q4), Q4Block(q, block, q4), Q4State(q', q4), Q4Block(q', block', q4);
      SumsLocal(s, s', w, w');
      AllSpentLocal(Wang, iv, s, s', w, w', SumsIn(s, w), q9b, q10b, ChoiceCount(Wang));
    }
  }

  /** One value of Q4: words 3, 4, 5 and 7 are rederived. */
  method TryQ4Value(th: Thread, q: array<Word>, block: array<Word>, iv: Regs, q4: Word, q9b: Word, q10b: Word, k: nat)
    returns (found: bool)
    requires q.Length == 68 && block.Length == 16 && q != block && k < 64
    requires WangStage(iv, q[..], block[..], q4, q9b, q10b)
    modifies th`dots, q, block
    ensures At(q[..], 0) == iv
    ensures forall i :: 0 <= i < 68 && i !in {7, 12, 13, 24} ==> q[i] == old(q[i])
    ensures forall i :: 0 <= i < 16 && i !in {3, 4, 5, 7, 8, 9, 10, 12, 13} ==> block[i] == old(block[i])
    ensures !found ==> WangStage(iv, q[..], block[..], q4, q9b, q10b)
    ensures !found ==> Q4Spent(iv, old(q[..]), old(block[..]), q9b, q10b, Flip(q4, Q4Mask(k as bv32)))
    ensures found ==> SecondPair(Wang, iv, block[..])
    ensures Extends(iv, old(th.dots), th.dots)
  {
    hide WangStage, Outer, SecondPair, Fits, Flip, Q4Mask, Extends, AllSpent, SumsIn, Q4State, Q4Block, Ok21, Word5, Sum21, Mix, Add3;
    ghost var q0, block0 := q[..], block[..];
    ExtendsSelf(iv, th.dots);
    WangStageAt(iv, q[..], block[..], q4, q9b, q10b);
    var tt21 := Sum21Of(q);
    var q4k := Flip(q4, Q4Mask(k as bv32));
    Q4Frame(q0, block0, q4k);
    var pass := PlaceQ4(q, block, q4k, tt21);
    WangStageKept(iv, q0, q[..], block0, block[..], q4, q9b, q10b);
    if !pass {
      WangStageAt(iv, q[..], block[..], q4, q9b, q10b);
      return false;
    }
    OuterFromQ4(iv, q[..], block[..], q4, q9b, q10b, k as bv32);
    ghost var q2, block2 := q[..], block[..];
    found := TryChoices(th, q, block, Wang, iv, q9b, q10b);
    WangStageKept(iv, q2, q[..], block2, block[..], q4, q9b, q10b);
    WangStageAt(iv, q[..], block[..], q4, q9b, q10b);
  }

  /** The loop over the changes of Q4: without a result, every value of Q4 is spent. */
  method TryQ4(th: Thread, q: array<Word>, block: array<Word>, iv: Regs) returns (found: bool)
    requires q.Length == 68 && block.Length == 16 && q != block
    requires WangStage(iv, q[..], block[..], q[7], q[12], q[13])
    modifies th`dots, q, block
    ensures At(q[..], 0) == iv
    ensures !found ==> AllQ4Spent(iv, old(q[..]), old(block[..]), old(q[12]), old(q[13]), old(q[7]), 64)
    ensures found ==> SecondPair(Wang, iv, block[..])
    ensures Extends(iv, old(th.dots), th.dots)
  {
    hide WangStage, SecondPair, Extends, Flip, Q4Mask, Q4Spent;
    ghost var q0, block0 := q[..], block[..];
    ExtendsSelf(iv, th.dots);
    var q4, q9b, q10b := q[7], q[12], q[13];
    WangStageAt(iv, q[..], block[..], q4, q9b, q10b);
    for counter := 0 to 64
      invariant WangStage(iv, q[..], block[..], q4, q9b, q10b)
      invariant Extends(iv, old(th.dots), th.dots)
      invariant At(q[..], 0) == iv
      invariant AllQ4Spent(iv, q0, block0, q9b, q10b, q4, counter)
      invariant forall i :: 0 <= i < 68 && i !in {7, 12, 13, 24} ==> q[i] == q0[i]
      invariant forall i :: 0 <= i < 16 && i !in {3, 4, 5, 7, 8, 9, 10, 12, 13} ==> block[i] == block0[i]
    {
      ghost var q1, block1, dots0 := q[..], block[..], th.dots;
      found := TryQ4Value(th, q, block, iv, q4, q9b, q10b, counter);
      ExtendsChain(iv, old(th.dots), dots0, th.dots);
      if found {
        return;
      }
      Q4SpentLocal(iv, q1, q0, block1, block0, q9b, q10b, Flip(q4, Q4Mask(counter as bv32)));
      AllQ4SpentNext(iv, q0, block0, q9b, q10b, q4, counter);
    }
    found := false;
  }

  /** find_block1_wang. */
  method FindBlock1Wang(th: Thread, block: array<Word>, iv: Regs) returns (found: bool)
    requires block.Length == 16
    modifies th, block
    ensures found ==> SecondPair(Wang, iv, block[..])
    ensures !found ==> th.polls == 0
    ensures Extends(iv, old(th.dots), th.dots)
  {
    hide Stage1, WangStage, Fits, Seeded, Path, Extends, SecondPair;
    var q := new Word[68](i => W(0));
    q[0], q[1], q[2], q[3] := iv.a, iv.d, iv.c, iv.b;
    ExtendsSelf(iv, th.dots);
    while true
      invariant At(q[..], 0) == iv
      invariant Extends(iv, old(th.dots), th.dots)
      decreases th.polls
    {
      var aborted := th.CheckAbort();
      if aborted {
        return false;
      }
      Seed(th, q, Wang);
      DeriveFirst(q, block);
      Stage1Is(Wang, iv, q[..], block[..]);
      var ok := FindQ1Wang(th, q, block, iv);
      Stage1At(Wang, iv, q[..], block[..]);
      if !ok {
        continue;
      }
      ghost var dots0 := th.dots;
      found := TryQ4(th, q, block, iv);
      ExtendsChain(iv, old(th.dots), dots0, th.dots);
      if found {
        return;
      }
    }
  }

  // ---------------------------------------------------------------- the choice of search

  /** Two second blocks that join the two chaining values the first blocks lead to. */
  predicate Joins(iv: Regs, block: Block) {
    Compress(AddDelta(iv), Perturb(block, false)) == Compress(iv, block)
  }

  /** The chaining value a search is given. */
  function IvFor(v: Variant, iv: Regs): Regs { if v == Wang then iv else AddDelta(iv) }

  /** The block find_block1 returns when search v has returned this one. */
  function Adjusted(v: Variant, block: Block): Block { if v == Wang then block else Perturb(block, true) }

  function VariantFor(iv: Regs): Variant {
    if !StevensReady(iv) then Wang
    else if iv.b.v & 0x40 != 0 then (if iv.b.v & 1 != 0 then S11 else S10)
    else (if iv.b.v & 1 != 0 then S01 else S00)
  }

  lemma TopTwice(x: bv32) ensures Plus(Plus(W(x), W(0x80000000)), W(0x80000000)) == W(x) {}

  lemma DeltaShuffle(x: bv32)
    ensures Minus(Plus(Plus(Plus(W(x), W(0x80000000)), W(0x02000000)), W(0x80000000)), W(0x02000000)) == W(x)
  {}

  /** A Stevens search, started from the other message's chaining value, arrives back at ours. */
  lemma OtherOfOther(v: Variant, iv: Regs)
    requires v != Wang
    ensures OtherIv(v, AddDelta(iv)) == iv
  {
    hide Plus, Minus;
    TopTwice(iv.a.v);
    DeltaShuffle(iv.b.v);
    DeltaShuffle(iv.c.v);
    DeltaShuffle(iv.d.v);
  }

  lemma Bit15Back(x: bv32)
    ensures Plus(Plus(W(x), W(0x8000)), W(0xffff8000)) == W(x)
    ensures Plus(Plus(W(x), W(0xffff8000)), W(0x8000)) == W(x)
  {}

  /** The two message differences undo each other. */
  lemma PerturbBack(block: Block, up: bool)
    ensures Perturb(Perturb(block, up), !up) == block
  {
    hide Plus;
    TopTwice(block[4].v);
    Bit15Back(block[11].v);
    TopTwice(block[14].v);
  }

  /** Whichever search found it and whichever sign it used, the adjusted block joins the two chaining values. */
  lemma AdjustedJoins(v: Variant, iv: Regs, block: Block)
    requires SecondPair(v, IvFor(v, iv), block)
    ensures Joins(iv, Adjusted(v, block))
  {
    hide Compress, Perturb, Plus, OtherIv;
    if v == Wang {
      assert OtherIv(Wang, iv) == AddDelta(iv) by {
        OtherOfWang(iv);
      }
    } else {
      OtherOfOther(v, iv);
      PerturbBack(block, true);
    }
  }

  lemma OtherOfWang(iv: Regs) ensures OtherIv(Wang, iv) == AddDelta(iv) {}

  /** The Wang and the Stevens conditions exclude each other. */
  lemma OnlyOneIsReady(iv: Regs)
    ensures !(WangReady(iv) && StevensReady(iv))
  {}

  /** Behind a first block of find_block0, every search is given what it is made for. */
  lemma VariantSuits(iv: Regs)
    requires Useful(iv)
    ensures VariantFor(iv) == Wang <==> WangReady(iv)
  {
    OnlyOneIsReady(iv);
  }

  /** find_block1. */
  method FindBlock1(th: Thread, block: array<Word>, iv: Regs) returns (found: bool)
    requires block.Length == 16
    modifies th, block
    ensures found ==> Joins(iv, block[..])
    ensures !found ==> th.polls == 0
    ensures Extends(IvFor(VariantFor(iv), iv), old(th.dots), th.dots)
  {
    hide SecondPair, Extends, Plus, Joins, AddDelta, Perturb;
    var v := VariantFor(iv);
    if v == Wang {
      found := FindBlock1Wang(th, block, iv);
    } else {
      found := FindBlock1Stevens(th, block, v, AddDelta(iv));
    }
    if found {
      AdjustedJoins(v, iv, block[..]);
      if v != Wang {
        Readjust(block);
      }
    }
  }

  /** The post-adjustment of words 4, 11 and 14. */
  method Readjust(block: array<Word>)
    requires block.Length == 16
    modifies block
    ensures block[..] == Perturb(old(block[..]), true)
  {
    hide Plus;
    block[4] := Plus(block[4], W(0x80000000));
    block[11] := Plus(block[11], W(0x8000));
    block[14] := Plus(block[14], W(0x80000000));
  }
}
