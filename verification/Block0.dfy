/** find_block0: the first near-collision block. */
module Block0 {
  import opened Md5
  import opened SearchCommon
  import opened Lanes

  // ---------------------------------------------------------------- the scan over Q9

  function Q4Mask(k: bv32): bv32 { ((k << 2) ^ (k << 26)) & 0x38000004 }

  function Q9Q10Mask(k: bv32): bv32 { ((k << 13) ^ (k << 4)) & 0x2060 }

  function Q9Mask(k: bv32): bv32 { Q9Terms(k) & 0x0eb94f16 }

  function Q9Terms(k: bv32): bv32 {
    Xor(Xor(Xor(Xor(Xor(Xor(Xor(k << 1, k << 2), k << 5), k << 7), k << 8), k << 10), k << 11), k << 13)
  }

  /** What stays the same during one scan: state words, partial sums and the state before step 24. */
  datatype Scan = Scan(q7: Word, q8: Word, q9: Word, q10: Word, tt8: bv32, tt9: bv32, base12: bv32, start: Regs)

  function Q9At(s: Scan, k: nat): Word
    requires k < 65536
  {
    Flip(s.q9, Q9Mask(k as bv32))
  }

  function Word8(s: Scan, q9: Word): Word { W(Sub(Unturn(q9, 7, s.q8), s.tt8)) }

  function Word9(s: Scan, q9: Word): Word {
    W(Sub(Sub(Unturn(s.q10, 12, q9), Mix(F, q9, s.q8, s.q7).v), s.tt9))
  }

  function Word12(s: Scan, q9: Word): Word { W(Sub(s.base12, q9.v)) }

  function Candidate(s: Scan, block: Block, k: nat): Block
    requires k < 65536
  {
    var q9 := Q9At(s, k);
    LaneBlock(block, Word8(s, q9), Word9(s, q9), Word12(s, q9))
  }

  /** Candidate k is compared: it passes every filter, and its real chaining value suits a second search. */
  ghost predicate Reaches(iv: Regs, s: Scan, block: Block, k: nat)
    requires k < 65536
  {
    var w := Candidate(s, block, k);
    && Survives(s.start, w, false)
    && SignsFrom(52, 63, Run(24, 52, s.start, w), w)
    && (WangReady(Compress(iv, w)) || StevensReady(Compress(iv, w)))
  }

  ghost function DotOf(iv: Regs, w: Block): Dot {
    var r := Compress(iv, w);
    Dot(w, r.b, r.c, r.d)
  }

  /** The comparisons made for candidates lo to hi - 1, in order, each candidate once. */
  ghost function Dots(iv: Regs, s: Scan, block: Block, lo: nat, hi: nat): seq<Dot>
    requires lo <= hi <= 65536
    decreases hi - lo
  {
    if lo == hi then []
    else Dots(iv, s, block, lo, hi - 1)
         + if Reaches(iv, s, block, hi - 1) then [DotOf(iv, Candidate(s, block, hi - 1))] else []
  }

  lemma {:induction false} DotsSplit(iv: Regs, s: Scan, block: Block, lo: nat, mid: nat, hi: nat)
    requires lo <= mid <= hi <= 65536
    ensures Dots(iv, s, block, lo, hi) == Dots(iv, s, block, lo, mid) + Dots(iv, s, block, mid, hi)
    decreases hi - mid
  {
    hide Reaches, DotOf, Candidate;
    if mid < hi {
      DotsSplit(iv, s, block, lo, mid, hi - 1);
    }
  }

  /** The exit condition: the perturbed block leads to a chaining value that differs by the fixed delta. */
  predicate FirstPair(iv: Regs, block: Block) {
    Compress(iv, Perturb(block, true)) == AddDelta(Compress(iv, block))
  }

  method IsFirstPair(iv: Regs, block: array<Word>) returns (yes: bool)
    requires block.Length == 16
    ensures yes == FirstPair(iv, block[..])
  {
    hide Compress, Plus, Perturb;
    var block2 := PerturbedCopy(block, true);
    var r1 := CompressOf(iv, block);
    var r2 := CompressOf(iv, block2);
    yes := r2 == AddDelta(r1);
  }

  /** Every candidate block already leads from the chaining value to the recorded state before step 24. */
  ghost predicate Prepared(iv: Regs, s: Scan, block: Block) {
    forall k :: 0 <= k < 65536 ==> Run(0, 24, iv, Candidate(s, block, k)) == s.start
  }

  /** Words 8, 9 and 12 of the block are scratch space of the scan. */
  ghost predicate Agrees(block: Block, base: Block) {
    forall i :: 0 <= i < 16 && i != 8 && i != 9 && i != 12 ==> block[i] == base[i]
  }

  lemma LaneOf(block: Block, base: Block, m8: Word, m9: Word, m12: Word)
    requires Agrees(block, base)
    ensures LaneBlock(block, m8, m9, m12) == LaneBlock(base, m8, m9, m12)
  {}

  /** One surviving lane: finish it in scalar code and compare if the prediction looks useful. */
  method TryLane(th: Thread, block: array<Word>, iv: Regs, s: Scan, ghost base: Block, k: nat, r: Regs)
    returns (found: bool)
    requires block.Length == 16 && k < 65536
    requires Agrees(block[..], base) && Prepared(iv, s, base)
    requires Survives(s.start, Candidate(s, base, k), false)
    requires r == Run(24, 52, s.start, Candidate(s, base, k))
    modifies th`dots, block
    ensures block[..] == Candidate(s, base, k)
    ensures th.dots == old(th.dots) + Dots(iv, s, base, k, k + 1)
    ensures found == (Reaches(iv, s, base, k) && FirstPair(iv, block[..]))
  {
    hide Survives, SignsFrom, Run, Compress, Plus, FirstPair, WangReady, StevensReady, Word8, Word9, Word12, Q9At;
    var q9 := Q9At(s, k);
    block[12] := Word12(s, q9);
    block[8] := Word8(s, q9);
    block[9] := Word9(s, q9);
    ghost var w := Candidate(s, base, k);
    assert block[..] == w;
    assert Dots(iv, s, base, k, k) == [];
    var pass, a, b, c, d := Tail(r, block);
    if !pass {
      return false;
    }
    CompressFrom(iv, s.start, r, w);
    var ihv := Regs(Plus(iv.a, a), Plus(iv.b, b), Plus(iv.c, c), Plus(iv.d, d));
    assert ihv == Compress(iv, w);
    if !(WangReady(ihv) || StevensReady(ihv)) {
      return false;
    }
    th.dots := th.dots + [Dot(block[..], ihv.b, ihv.c, ihv.d)];
    found := IsFirstPair(iv, block);
  }

  /** No candidate from lo to hi - 1 is compared successfully. */
  ghost predicate NoneBefore(iv: Regs, s: Scan, block: Block, lo: nat, hi: nat) {
    forall k :: lo <= k < hi <= 65536 ==> !(Reaches(iv, s, block, k) && FirstPair(iv, Candidate(s, block, k)))
  }

  /** Candidate k is the first from lo on that is compared successfully. */
  ghost predicate IsFirst(iv: Regs, s: Scan, block: Block, lo: nat, k: nat)
    requires k < 65536
  {
    NoneBefore(iv, s, block, lo, k) && Reaches(iv, s, block, k) && FirstPair(iv, Candidate(s, block, k))
  }

  /** The vector part for candidates base4 to base4 + 7. */
  method FilterLanes(block: array<Word>, s: Scan, ghost base: Block, base4: nat)
    returns (alive: Mask, states: seq<Regs>)
    requires block.Length == 16 && base4 + 8 <= 65536
    requires Agrees(block[..], base)
    ensures |states| == 8
    ensures forall l :: 0 <= l < 8 ==>
      && (alive[l] != 0) == Survives(s.start, Candidate(s, base, base4 + l), false)
      && states[l] == Run(24, 52, s.start, Candidate(s, base, base4 + l))
  {
    hide Survives, Run, Candidate, Word8, Word9, Word12, Q9At, Agrees;
    var vq9 := seq(8, l requires 0 <= l < 8 => Q9At(s, base4 + l));
    var vb12 := seq(8, l requires 0 <= l < 8 => Word12(s, vq9[l]));
    var vb8 := seq(8, l requires 0 <= l < 8 => Word8(s, vq9[l]));
    var vb9 := seq(8, l requires 0 <= l < 8 => Word9(s, vq9[l]));
    var va, vb, vc, vd;
    ghost var keep;
    alive, va, vb, vc, vd, keep := VecFilter(s.start, block, vb8, vb9, vb12);
    states := seq(8, l requires 0 <= l < 8 => Regs(va[l], vb[l], vc[l], vd[l]));
    forall l | 0 <= l < 8
      ensures (alive[l] != 0) == Survives(s.start, Candidate(s, base, base4 + l), false)
      ensures states[l] == Run(24, 52, s.start, Candidate(s, base, base4 + l))
    {
      CandidateIs(s, base, base4 + l);
      LaneOf(block[..], base, vb8[l], vb9[l], vb12[l]);
    }
  }

  /** Candidates base4 to base4 + 7: vector filter, then the scalar tail of the lanes still alive. */
  method TryLanes(th: Thread, block: array<Word>, iv: Regs, s: Scan, ghost base: Block, base4: nat)
    returns (found: bool, ghost n: nat)
    requires block.Length == 16 && base4 + 8 <= 65536
    requires Agrees(block[..], base) && Prepared(iv, s, base)
    modifies th`dots, block
    ensures Agrees(block[..], base)
    ensures base4 <= n <= base4 + 8
    ensures th.dots == old(th.dots) + Dots(iv, s, base, base4, n)
    ensures !found ==> n == base4 + 8
    ensures found ==> base4 < n && block[..] == Candidate(s, base, n - 1) && IsFirst(iv, s, base, base4, n - 1)
    ensures !found ==> NoneBefore(iv, s, base, base4, n)
  {
    hide Survives, Run, Prepared, Reaches, FirstPair, Candidate, Agrees, Dots;
    var alive, states := FilterLanes(block, s, base, base4);
    found, n := false, base4;
    DotsEmpty(iv, s, base, base4);
    for l := 0 to 8
      invariant n == base4 + l
      invariant Agrees(block[..], base)
      invariant th.dots == old(th.dots) + Dots(iv, s, base, base4, n)
      invariant NoneBefore(iv, s, base, base4, n)
    {
      ghost var k := base4 + l;
      DotsSplit(iv, s, base, base4, k, k + 1);
      n := k + 1;
      if alive[l] == 0 {
        DotsNone(iv, s, base, k);
        continue;
      }
      CandidateAgrees(s, base, k);
      found := TryLane(th, block, iv, s, base, base4 + l, states[l]);
      if found {
        return;
      }
    }
  }

  lemma DotsEmpty(iv: Regs, s: Scan, block: Block, lo: nat)
    requires lo <= 65536
    ensures Dots(iv, s, block, lo, lo) == []
  {}

  lemma CandidateAgrees(s: Scan, base: Block, k: nat)
    requires k < 65536
    ensures Agrees(Candidate(s, base, k), base)
  {}

  lemma CandidateIs(s: Scan, block: Block, k: nat)
    requires k < 65536
    ensures Candidate(s, block, k)
         == LaneBlock(block, Word8(s, Q9At(s, k)), Word9(s, Q9At(s, k)), Word12(s, Q9At(s, k)))
  {}

  lemma DotsNone(iv: Regs, s: Scan, block: Block, k: nat)
    requires k < 65536 && !Survives(s.start, Candidate(s, block, k), false)
    ensures Dots(iv, s, block, k, k + 1) == [] && !Reaches(iv, s, block, k)
  {
    hide Survives, Candidate;
    assert Dots(iv, s, block, k, k) == [];
  }

  lemma AgreesAtFirst(iv: Regs, s: Scan, base: Block)
    ensures Agrees(base, base) && Dots(iv, s, base, 0, 0) == []
  {}

  /** The scan: 65536 values of Q9, eight at a time, polling the abort flag every 4096. */
  method ScanQ9(th: Thread, block: array<Word>, iv: Regs, s: Scan) returns (outcome: Outcome, ghost n: nat)
    requires block.Length == 16
    requires Prepared(iv, s, block[..])
    modifies th`dots, th`polls, block
    ensures th.polls <= old(th.polls)
    ensures Agrees(block[..], old(block[..]))
    ensures n <= 65536
    ensures th.dots == old(th.dots) + Dots(iv, s, old(block[..]), 0, n)
    ensures outcome == Exhausted ==> n == 65536
    ensures outcome == Aborted ==> th.polls == 0 && n % 4096 == 0
    ensures outcome == Found ==>
      0 < n && block[..] == Candidate(s, old(block[..]), n - 1) && IsFirst(iv, s, old(block[..]), 0, n - 1)
    ensures outcome != Found ==> NoneBefore(iv, s, old(block[..]), 0, n)
  {
    hide Run, Prepared, Reaches, FirstPair, Candidate, Agrees, Dots, Perturb, AddDelta;
    ghost var base := block[..];
    var base4 := 0;
    n := 0;
    AgreesAtFirst(iv, s, base);
    while base4 < 65536
      invariant base4 % 8 == 0 && n == base4 <= 65536
      invariant th.polls <= old(th.polls)
      invariant Agrees(block[..], base)
      invariant th.dots == old(th.dots) + Dots(iv, s, base, 0, n)
      invariant NoneBefore(iv, s, base, 0, n)
    {
      if base4 % 4096 == 0 {
        var aborted := th.CheckAbort();
        if aborted {
          return Aborted, n;
        }
      }
      var found;
      found, n := TryLanes(th, block, iv, s, base, base4);
      DotsSplit(iv, s, base, 0, base4, n);
      if found {
        return Found, n;
      }
      base4 := base4 + 8;
    }
    outcome := Exhausted;
  }

  // ---------------------------------------------------------------- the changes of Q9 and Q10

  /** The state words and the message words before the Q9/Q10 loop, with Q9 reset to q9b. */
  ghost predicate Stage3(iv: Regs, q: seq<Word>, block: Block, q9b: Word) {
    && |q| == 68
    && At(q, 0) == iv
    && (forall t :: 0 <= t < 8 || 14 <= t < 21 ==> Fits(q, block, t))
    && FitsAll(q[12 := q9b], block, 11, 12)
    && q[14].v & 0x0eb94f16 == 0x0eb94f16
    && q[14].v & 0x2000 == 0x2000
    && q[14].v & 0x60 == 0
    && q[13].v & 0x0eb94f16 == 0
  }

  /** Steps 8, 9, 12 and 13: the words the scan derives from Q9. */
  lemma Steps8To13(q: seq<Word>, w: Block, q9: Word, q10: Word, tt8: bv32, tt9: bv32, tt12: bv32, tt13: bv32)
    requires |q| == 68 && q[12] == q9 && q[13] == q10
    requires tt8 == Add3(Mix(F, q[11], q[10], q[9]).v, q[8].v, 0x698098d8)
    requires tt9 == Add(q[9].v, 0x8b44f7af)
    requires tt12 == Sub(Unturn(q[16], 7, q[15]), 0x6b901122)
    requires tt13 == Sub(Sub(Unturn(q[17], 12, q[16]), Mix(F, q[16], q[15], q[14]).v), 0xfd987193)
    requires w[8] == W(Sub(Unturn(q9, 7, q[11]), tt8))
    requires w[9] == W(Sub(Sub(Unturn(q10, 12, q9), Mix(F, q9, q[11], q[10]).v), tt9))
    requires w[12] == W(Sub(Sub(tt12, Mix(F, q[15], q[14], q10).v), q9.v))
    requires w[13] == W(Sub(tt13, q10.v))
    ensures Fits(q, w, 8) && Fits(q, w, 9) && Fits(q, w, 12) && Fits(q, w, 13)
  {
    hide Fits, StepValue, Unturn, Mix, Sub, Add, Add3, Sum;
    SumBackA(Unturn(q9, 7, q[11]), Mix(F, q[11], q[10], q[9]).v, q[8].v, 0x698098d8);
    Solves(F, q[8], q[11], q[10], q[9], w[8], q9, 0x698098d8, 7);
    FitsIs(q, w, 8, F, 8, 7, 0x698098d8);
    SumBackB(Unturn(q10, 12, q9), Mix(F, q9, q[11], q[10]).v, q[9].v, 0x8b44f7af);
    Solves(F, q[9], q9, q[11], q[10], w[9], q10, 0x8b44f7af, 12);
    FitsIs(q, w, 9, F, 9, 12, 0x8b44f7af);
    SumBackD(Unturn(q[16], 7, q[15]), Mix(F, q[15], q[14], q10).v, q9.v, 0x6b901122);
    Solves(F, q9, q[15], q[14], q10, w[12], q[16], 0x6b901122, 7);
    FitsIs(q, w, 12, F, 12, 7, 0x6b901122);
    SumBackE(Unturn(q[17], 12, q[16]), Mix(F, q[16], q[15], q[14]).v, q10.v, 0xfd987193);
    Solves(F, q10, q[16], q[15], q[14], w[13], q[17], 0xfd987193, 12);
    FitsIs(q, w, 13, F, 13, 12, 0xfd987193);
  }

  lemma MaskInside(k: bv32)
    ensures Q9Mask(k) & !0x0eb94f16 == 0
  {}

  lemma ScanBitsKeepWord10(q10: bv32, mask: bv32, k: bv32)
    requires q10 & 0x0eb94f16 == 0
    ensures Q9Mask(k) & (q10 ^ (mask & 0x60)) == 0
  {
    hide Q9Mask;
    MaskInside(k);
  }

  lemma ScanBitsKeepWord11(q11: bv32, k: bv32)
    requires q11 & 0x0eb94f16 == 0x0eb94f16
    ensures Q9Mask(k) & !q11 == 0
  {
    hide Q9Mask;
    MaskInside(k);
  }

  lemma LoopBitsKeepWord11(q11: bv32, mask: bv32)
    requires q11 & 0x2000 == 0x2000 && q11 & 0x60 == 0
    ensures (mask & 0x2000) & !q11 == 0 && (mask & 0x60) & q11 == 0
  {}

  /** Word 10 is derived before the scan, yet no value of Q9 in the scan disturbs step 10. */
  lemma Step10(q: seq<Word>, w: Block, q9: Word, q13: Word, mask: bv32, k: bv32)
    requires |q| == 68
    requires q13.v & 0x0eb94f16 == 0
    requires q[13] == Flip(q13, mask & 0x60) && q[12] == Flip(q9, Q9Mask(k))
    requires w[10] == W(Sub(Unturn(q[14], 17, q[13]),
                            Add(Mix(F, q[13], q9, q[11]).v, Add(q[10].v, 0xffff5bb1))))
    ensures Fits(q, w, 10)
  {
    hide Fits, StepValue, Unturn, Mix, Sub, Add, Sum, Q9Mask;
    ScanBitsKeepWord10(q13.v, mask, k);
    NeutralSecond(q[13], q9, q[11], Q9Mask(k));
    SumBackC(Unturn(q[14], 17, q[13]), Mix(F, q[13], q9, q[11]).v, q[10].v, 0xffff5bb1);
    Solves(F, q[10], q[13], q[12], q[11], w[10], q[14], 0xffff5bb1, 17);
    FitsIs(q, w, 10, F, 10, 17, 0xffff5bb1);
  }

  lemma Mix11(b: Word, q13: Word, q9: Word, mask: bv32, k: bv32)
    requires b.v & 0x0eb94f16 == 0x0eb94f16 && b.v & 0x2000 == 0x2000 && b.v & 0x60 == 0
    ensures Mix(F, b, Flip(q13, mask & 0x60), Flip(Flip(q9, mask & 0x2000), Q9Mask(k))) == Mix(F, b, q13, q9)
  {
    hide Mix, Q9Mask, Flip;
    ScanBitsKeepWord11(b.v, k);
    LoopBitsKeepWord11(b.v, mask);
    NeutralThird(b, Flip(q13, mask & 0x60), Flip(q9, mask & 0x2000), Q9Mask(k));
    NeutralThird(b, Flip(q13, mask & 0x60), q9, mask & 0x2000);
    NeutralSecond(b, q13, q9, mask & 0x60);
  }

  /** Word 11 is derived once for a whole Q1..Q16 draw, and neither loop over Q9 and Q10 disturbs step 11. */
  lemma Step11(q: seq<Word>, q': seq<Word>, w: Block, w': Block, mask: bv32, k: bv32)
    requires |q| == |q'| == 68 && Fits(q', w', 11)
    requires q[11] == q'[11] && q[14] == q'[14] && q[15] == q'[15] && w[11] == w'[11]
    requires q[14].v & 0x0eb94f16 == 0x0eb94f16 && q[14].v & 0x2000 == 0x2000 && q[14].v & 0x60 == 0
    requires q[13] == Flip(q'[13], mask & 0x60)
    requires q[12] == Flip(Flip(q'[12], mask & 0x2000), Q9Mask(k))
    ensures Fits(q, w, 11)
  {
    hide Fits, StepValue, Mix, Q9Mask, Flip;
    Mix11(q[14], q'[13], q'[12], mask, k);
    FitsIs(q, w, 11, F, 11, 22, 0x895cd7be);
    FitsIs(q', w', 11, F, 11, 22, 0x895cd7be);
    MixOnly(F, q[11], q[14], q[13], q[12], q'[13], q'[12], w[11], 0x895cd7be, 22);
  }

  /** The partial sums of one pass of the Q4 loop. */
  datatype Sums = Sums(tt8: bv32, tt9: bv32, tt10: bv32, tt12: bv32, tt13: bv32, ahead: Ahead)

  ghost predicate SumsOf(q: seq<Word>, block: Block, t: Sums)
    requires |q| == 68
  {
    t == SumsIn(q, block)
  }

  function SumsIn(q: seq<Word>, block: Block): Sums
    requires |q| == 68
  {
    Sums(
      Add3(Mix(F, q[11], q[10], q[9]).v, q[8].v, 0x698098d8),
      Add(q[9].v, 0x8b44f7af),
      Add(q[10].v, 0xffff5bb1),
      Sub(Unturn(q[16], 7, q[15]), 0x6b901122),
      Sub(Sub(Unturn(q[17], 12, q[16]), Mix(F, q[16], q[15], q[14]).v), 0xfd987193),
      AheadOf(q, block))
  }

  /** The block words and state words of Stage3 that the loop over Q9 and Q10 never touches. */
  lemma WordsOfStage3(t: nat)
    requires 0 <= t < 8 || 14 <= t < 21
    ensures var k := RowOf(t).k; k !in {8, 9, 10, 12, 13}
  {}

  lemma Stage3Kept(iv: Regs, q: seq<Word>, q': seq<Word>, block: Block, block': Block, q9b: Word)
    requires Stage3(iv, q, block, q9b) && |q'| == 68
    requires forall i :: 0 <= i < 68 && i != 12 ==> q[i] == q'[i]
    requires forall i :: 0 <= i < 16 && i !in {8, 9, 10, 12, 13} ==> block[i] == block'[i]
    ensures Stage3(iv, q', block', q9b)
  {
    hide Fits, RowOf;
    forall t: nat | t < 8 || 14 <= t < 21
      ensures Fits(q', block', t)
    {
      WordsOfStage3(t);
      FitsSame(q, q', block, block', t);
    }
    Row11();
    FitsSame(q[12 := q9b], q'[12 := q9b], block, block', 11);
  }

  lemma Row11() ensures RowOf(11).k == 11 {}

  /** For every value of Q9 in the scan, steps 0 to 23 lead from the chaining value to the state before step 24. */
  lemma ScanPrepared(iv: Regs, q: seq<Word>, block: Block, q9b: Word, mask: bv32, s: Scan, t: Sums)
    requires |q| == 68 && Stage3(iv, q, block, q9b) && SumsOf(q, block, t)
    requires q[12] == Flip(q9b, mask & 0x2000) && s.q10 == Flip(q[13], mask & 0x60)
    requires s.q7 == q[10] && s.q8 == q[11] && s.q9 == q[12] && s.tt8 == t.tt8 && s.tt9 == t.tt9
    requires s.base12 == Sub(t.tt12, Mix(F, q[15], q[14], s.q10).v)
    requires block[10] == W(Sub(Unturn(q[14], 17, s.q10), Add(Mix(F, s.q10, q[12], q[11]).v, t.tt10)))
    requires block[13] == W(Sub(t.tt13, s.q10.v))
    requires s.start == ForwardRegs(q[23], q[24], t.ahead, block[10].v)
    ensures Prepared(iv, s, block)
  {
    hide Fits, Run, Candidate, Stage3, SumsOf, Turn, Mix, Add, Sub, Unturn, Flip;
    forall k: nat | k < 65536
      ensures Run(0, 24, iv, Candidate(s, block, k)) == s.start
    {
      CandidatePrepared(iv, q, block, q9b, mask, s, t, k);
    }
  }

  lemma CandidatePrepared(iv: Regs, q: seq<Word>, block: Block, q9b: Word, mask: bv32, s: Scan, t: Sums, k: nat)
    requires |q| == 68 && Stage3(iv, q, block, q9b) && SumsOf(q, block, t)
    requires q[12] == Flip(q9b, mask & 0x2000) && s.q10 == Flip(q[13], mask & 0x60)
    requires s.q7 == q[10] && s.q8 == q[11] && s.q9 == q[12] && s.tt8 == t.tt8 && s.tt9 == t.tt9
    requires s.base12 == Sub(t.tt12, Mix(F, q[15], q[14], s.q10).v)
    requires block[10] == W(Sub(Unturn(q[14], 17, s.q10), Add(Mix(F, s.q10, q[12], q[11]).v, t.tt10)))
    requires block[13] == W(Sub(t.tt13, s.q10.v))
    requires s.start == ForwardRegs(q[23], q[24], t.ahead, block[10].v)
    requires k < 65536
    ensures Run(0, 24, iv, Candidate(s, block, k)) == s.start
  {
    hide Fits, Run, Turn, Mix, Add, Sub, Unturn, Flip, Q9Mask, Add3, Candidate, Stage3, StateOf;
    var w, qc := Candidate(s, block, k), StateOf(q, s, k);
    CandidateStage(iv, q, block, q9b, mask, s, k);
    CandidateWords(q, block, s, k);
    StageBits(iv, q, block, q9b);
    Steps8To13(qc, w, Q9At(s, k), s.q10, t.tt8, t.tt9, t.tt12, t.tt13);
    Step10(qc, w, q[12], q[13], mask, k as bv32);
    Steps21To23(qc, w, s.start);
    FitsRun(qc, w, 0, 24);
  }

  lemma CandidateWords(q: seq<Word>, block: Block, s: Scan, k: nat)
    requires |q| == 68 && k < 65536
    ensures var qc, w := StateOf(q, s, k), Candidate(s, block, k);
      && w[4] == block[4] && w[10] == block[10] && w[13] == block[13] && w[15] == block[15]
      && w[8] == Word8(s, Q9At(s, k)) && w[9] == Word9(s, Q9At(s, k)) && w[12] == Word12(s, Q9At(s, k))
      && (forall i :: 0 <= i < 68 && i != 12 && i != 13 && i != 25 && i != 26 && i != 27 ==> qc[i] == q[i])
      && qc[12] == Q9At(s, k) && qc[13] == s.q10
      && qc[25] == s.start.d && qc[26] == s.start.c && qc[27] == s.start.b
  {
    hide Word8, Word9, Word12, Q9At;
  }

  /** The state array of candidate k: the locals of the search in their places. */
  ghost function StateOf(q: seq<Word>, s: Scan, k: nat): (r: seq<Word>)
    requires |q| == 68 && k < 65536
    ensures |r| == 68
  {
    q[12 := Q9At(s, k)][13 := s.q10][25 := s.start.d][26 := s.start.c][27 := s.start.b]
  }

  lemma StageBits(iv: Regs, q: seq<Word>, block: Block, q9b: Word)
    requires Stage3(iv, q, block, q9b)
    ensures At(q, 0) == iv && q[13].v & 0x0eb94f16 == 0
  {}

  /** Steps 0 to 7, 11 and 14 to 20 of a candidate, carried over from before the loops. */
  lemma CandidateStage(iv: Regs, q: seq<Word>, block: Block, q9b: Word, mask: bv32, s: Scan, k: nat)
    requires Stage3(iv, q, block, q9b) && k < 65536
    requires s.q10 == Flip(q[13], mask & 0x60) && s.q9 == q[12] == Flip(q9b, mask & 0x2000)
    ensures var qc, w := StateOf(q, s, k), Candidate(s, block, k);
      Fits(qc, w, 11) && forall j: nat :: j < 8 || 14 <= j < 21 ==> Fits(qc, w, j)
  {
    hide Fits, RowOf, Q9Mask, Flip, Word8, Word9, Word12;
    var w, qc := Candidate(s, block, k), StateOf(q, s, k);
    forall j: nat | j < 8 || 14 <= j < 21
      ensures Fits(qc, w, j)
    {
      WordsOfStage3(j);
      FitsSame(q, qc, block, w, j);
    }
    Step11(qc, q[12 := q9b], w, block, mask, k as bv32);
  }

  // ---------------------------------------------------------------- the loops around the scan

  /** Every comparison from index n on was honest, and its block leads to a useful chaining value. */
  ghost predicate HonestFrom(iv: Regs, dots: seq<Dot>, n: nat) {
    n <= |dots| && forall i :: n <= i < |dots| ==> Honest(iv, dots[i]) && Useful(Compress(iv, dots[i].block))
  }

  /** The search has only appended honest comparisons. */
  ghost predicate ExtendsUseful(iv: Regs, d0: seq<Dot>, d1: seq<Dot>) {
    d0 <= d1 && HonestFrom(iv, d1, |d0|)
  }

  lemma UsefulChain(iv: Regs, d0: seq<Dot>, d1: seq<Dot>, d2: seq<Dot>)
    requires ExtendsUseful(iv, d0, d1) && ExtendsUseful(iv, d1, d2)
    ensures ExtendsUseful(iv, d0, d2)
  {
    hide Honest, Useful, Compress;
  }

  lemma UsefulSelf(iv: Regs, d: seq<Dot>) ensures ExtendsUseful(iv, d, d) {}

  /** What a search promises when it returns. */
  ghost predicate Solved(iv: Regs, block: Block) {
    FirstPair(iv, block) && Useful(Compress(iv, block))
  }

  lemma DotHonest(iv: Regs, s: Scan, block: Block, k: nat)
    requires k < 65536 && Reaches(iv, s, block, k)
    ensures var dot := DotOf(iv, Candidate(s, block, k)); Honest(iv, dot) && Useful(Compress(iv, dot.block))
  {
    hide Compress, Candidate, WangReady, StevensReady, Survives, SignsFrom;
  }

  lemma {:induction false} DotsHonest(iv: Regs, s: Scan, block: Block, dots: seq<Dot>, hi: nat)
    requires hi <= 65536
    ensures ExtendsUseful(iv, dots, dots + Dots(iv, s, block, 0, hi))
  {
    hide Compress, Useful, Honest, Reaches, DotOf, Candidate;
    if hi == 0 {
      assert dots + [] == dots;
    } else {
      var before := dots + Dots(iv, s, block, 0, hi - 1);
      DotsHonest(iv, s, block, dots, hi - 1);
      if Reaches(iv, s, block, hi - 1) {
        var dot := DotOf(iv, Candidate(s, block, hi - 1));
        DotHonest(iv, s, block, hi - 1);
        assert dots + Dots(iv, s, block, 0, hi) == before + [dot];
      } else {
        assert dots + Dots(iv, s, block, 0, hi) == before;
      }
    }
  }

  method SumsFor(q: array<Word>, block: array<Word>) returns (t: Sums)
    requires q.Length == 68 && block.Length == 16
    ensures SumsOf(q[..], block[..], t)
  {
    hide Mix, Add, Add3, Sub, Unturn;
    t := Sums(
      Add3(Mix(F, q[11], q[10], q[9]).v, q[8].v, 0x698098d8),
      Add(q[9].v, 0x8b44f7af),
      Add(q[10].v, 0xffff5bb1),
      Sub(Unturn(q[16], 7, q[15]), 0x6b901122),
      Sub(Sub(Unturn(q[17], 12, q[16]), Mix(F, q[16], q[15], q[14]).v), 0xfd987193),
      AheadOf(q[..], block[..]));
  }

  lemma SumsKept(q: seq<Word>, q': seq<Word>, block: Block, block': Block, t: Sums)
    requires |q| == |q'| == 68 && SumsOf(q, block, t)
    requires forall i :: 0 <= i < 68 && i != 12 ==> q[i] == q'[i]
    requires block[4] == block'[4] && block[15] == block'[15]
    ensures SumsOf(q', block', t)
  {
    hide Mix, Add, Add3, Sub, Unturn;
  }

  // ---------------------------------------------------------------- one choice of Q9 and Q10

  /** Q10 for a choice, word 10 for it, and the state before step 24. */
  function Q10Of(q13: Word, mask: bv32): Word { Flip(q13, mask & 0x60) }

  function Q9Of(q9b: Word, mask: bv32): Word { Flip(q9b, mask & 0x2000) }

  function Word10(q: seq<Word>, t: Sums, q9b: Word, mask: bv32): bv32
    requires |q| == 68
  {
    Sub(Unturn(q[14], 17, Q10Of(q[13], mask)), Add(Mix(F, Q10Of(q[13], mask), Q9Of(q9b, mask), q[11]).v, t.tt10))
  }

  /** The scan of Q9 for a choice, and the block it starts from. */
  function ScanOf(q: seq<Word>, t: Sums, q9b: Word, mask: bv32): Scan
    requires |q| == 68
  {
    var q10 := Q10Of(q[13], mask);
    Scan(q[10], q[11], Q9Of(q9b, mask), q10, t.tt8, t.tt9, Sub(t.tt12, Mix(F, q[15], q[14], q10).v),
         ForwardRegs(q[23], q[24], t.ahead, Word10(q, t, q9b, mask)))
  }

  function ScanBlockOf(q: seq<Word>, block: Block, t: Sums, q9b: Word, mask: bv32): Block
    requires |q| == 68
  {
    block[10 := W(Word10(q, t, q9b, mask))][13 := W(Sub(t.tt13, Q10Of(q[13], mask).v))]
  }

  /** Steps 21 to 23 for one choice of Q9 and Q10; if no condition fails, words 10 and 13 are completed and the scan
      of Q9 is set up. */
  method SetUp(q: array<Word>, block: array<Word>, iv: Regs, q9b: Word, t: Sums, mask: bv32)
    returns (pass: bool, s: Scan)
    requires q.Length == 68 && block.Length == 16 && q != block
    requires Stage3(iv, q[..], block[..], q9b) && SumsOf(q[..], block[..], t)
    modifies q, block
    ensures forall i :: 0 <= i < 68 && i != 12 ==> q[i] == old(q[i])
    ensures pass == ForwardOk(true, old(q[23]), old(q[24]), t.ahead, Word10(old(q[..]), t, q9b, mask))
    ensures block[..] == if pass then ScanBlockOf(old(q[..]), old(block[..]), t, q9b, mask) else old(block[..])
    ensures pass ==> s == ScanOf(old(q[..]), t, q9b, mask) && Prepared(iv, s, block[..])
  {
    hide Stage3, SumsOf, Prepared, Mix, Sub, Add, Unturn, Flip, ForwardOk, ForwardRegs;
    ghost var q0, block0 := q[..], block[..];
    var q10 := Flip(q[13], mask & 0x60);
    q[12] := Flip(q9b, mask & 0x2000);
    var m10 := Sub(Unturn(q[14], 17, q10), Add(Mix(F, q10, q[12], q[11]).v, t.tt10));
    var start;
    pass, start := Forward(q, true, t.ahead, m10);
    var base12 := Sub(t.tt12, Mix(F, q[15], q[14], q10).v);
    s := Scan(q[10], q[11], q[12], q10, t.tt8, t.tt9, base12, start);
    if pass {
      block[10] := W(m10);
      block[13] := W(Sub(t.tt13, q10.v));
      Stage3Kept(iv, q0, q[..], block0, block[..], q9b);
      SumsKept(q0, q[..], block0, block[..], t);
      ScanPrepared(iv, q[..], block[..], q9b, mask, s, t);
    }
  }

  /** A choice is spent: a condition on q22 to q24 fails, or no candidate of its scan is compared successfully. */
  ghost predicate Spent(iv: Regs, q: seq<Word>, block: Block, t: Sums, q9b: Word, mask: bv32)
    requires |q| == 68
  {
    ForwardOk(true, q[23], q[24], t.ahead, Word10(q, t, q9b, mask)) ==>
      NoneBefore(iv, ScanOf(q, t, q9b, mask), ScanBlockOf(q, block, t, q9b, mask), 0, 65536)
  }

  ghost predicate SpentAt(iv: Regs, q: seq<Word>, block: Block, t: Sums, q9b: Word, k: nat)
    requires |q| == 68 && k < 8
  {
    Spent(iv, q, block, t, q9b, Q9Q10Mask(k as bv32))
  }

  /** The first n choices are. */
  ghost predicate AllSpent(iv: Regs, q: seq<Word>, block: Block, t: Sums, q9b: Word, n: nat) {
    |q| == 68 && forall k :: 0 <= k < n <= 8 ==> SpentAt(iv, q, block, t, q9b, k)
  }

  lemma AllSpentNext(iv: Regs, q: seq<Word>, block: Block, t: Sums, q9b: Word, k: nat)
    requires k < 8 && AllSpent(iv, q, block, t, q9b, k) && Spent(iv, q, block, t, q9b, Q9Q10Mask(k as bv32))
    ensures AllSpent(iv, q, block, t, q9b, k + 1)
  {
    hide Spent, Q9Q10Mask;
  }

  lemma NoneBeforeLocal(iv: Regs, s: Scan, block: Block, block': Block, hi: nat)
    requires NoneBefore(iv, s, block, 0, hi) && Agrees(block', block)
    ensures NoneBefore(iv, s, block', 0, hi)
  {
    hide Run, Survives, SignsFrom, Compress, FirstPair, WangReady, StevensReady, Candidate, Agrees;
    forall k | 0 <= k < hi <= 65536
      ensures !(Reaches(iv, s, block', k) && FirstPair(iv, Candidate(s, block', k)))
    {
      CandidateSame(s, block, block', k);
    }
  }

  lemma CandidateSame(s: Scan, block: Block, block': Block, k: nat)
    requires k < 65536 && Agrees(block', block)
    ensures Candidate(s, block', k) == Candidate(s, block, k)
  {
    hide Q9At, Word8, Word9, Word12;
    var q9 := Q9At(s, k);
    LaneOf(block', block, Word8(s, q9), Word9(s, q9), Word12(s, q9));
  }

  /** Whether a choice is spent does not depend on what the loop itself rewrites. */
  lemma SpentLocal(iv: Regs, q: seq<Word>, q': seq<Word>, block: Block, block': Block, t: Sums, q9b: Word, mask: bv32)
    requires |q| == |q'| == 68 && Spent(iv, q, block, t, q9b, mask)
    requires forall i :: 0 <= i < 68 && i != 12 ==> q'[i] == q[i]
    requires forall i :: 0 <= i < 16 && i !in {8, 9, 10, 12, 13} ==> block'[i] == block[i]
    ensures Spent(iv, q', block', t, q9b, mask)
  {
    hide ForwardOk, ForwardRegs, NoneBefore, Mix, Sub, Add, Unturn, Q9Of, Q10Of;
    if ForwardOk(true, q[23], q[24], t.ahead, Word10(q, t, q9b, mask)) {
      NoneBeforeLocal(iv, ScanOf(q, t, q9b, mask), ScanBlockOf(q, block, t, q9b, mask),
                      ScanBlockOf(q', block', t, q9b, mask), 65536);
    }
  }

  /** One choice of Q9 and Q10. */
  method TryChoice(th: Thread, q: array<Word>, block: array<Word>, iv: Regs, q9b: Word, t: Sums, mask: bv32)
    returns (outcome: Outcome)
    requires q.Length == 68 && block.Length == 16 && q != block
    requires Stage3(iv, q[..], block[..], q9b) && SumsOf(q[..], block[..], t)
    modifies th`dots, th`polls, q, block
    ensures forall i :: 0 <= i < 68 && i != 12 ==> q[i] == old(q[i])
    ensures forall i :: 0 <= i < 16 && i !in {8, 9, 10, 12, 13} ==> block[i] == old(block[i])
    ensures th.polls <= old(th.polls)
    ensures outcome == Aborted ==> th.polls == 0
    ensures outcome == Exhausted ==> Stage3(iv, q[..], block[..], q9b) && SumsOf(q[..], block[..], t)
    ensures outcome == Exhausted ==> Spent(iv, old(q[..]), old(block[..]), t, q9b, mask)
    ensures outcome == Found ==> Solved(iv, block[..])
    ensures ExtendsUseful(iv, old(th.dots), th.dots)
  {
    hide Stage3, SumsOf, Solved, ExtendsUseful, Prepared, Dots, Reaches, Candidate, FirstPair, NoneBefore, ForwardOk, ScanOf,
         ScanBlockOf, Word10;
    ghost var q0, block0, dots0 := q[..], block[..], th.dots;
    UsefulSelf(iv, th.dots);
    var pass, s := SetUp(q, block, iv, q9b, t, mask);
    outcome := Exhausted;
    ScanBlockFrame(q0, block0, t, q9b, mask);
    if pass {
      ghost var block1 := block[..];
      ghost var n;
      outcome, n := ScanQ9(th, block, iv, s);
      DotsHonest(iv, s, block1, dots0, n);
      AgreesFrame(block[..], block1);
      if outcome == Found {
        ReachesSolved(iv, s, block1, n - 1);
      }
    }
    if outcome == Exhausted {
      Stage3Kept(iv, q0, q[..], block0, block[..], q9b);
      SumsKept(q0, q[..], block0, block[..], t);
    }
  }

  lemma ScanBlockFrame(q: seq<Word>, block: Block, t: Sums, q9b: Word, mask: bv32)
    requires |q| == 68
    ensures forall i :: 0 <= i < 16 && i != 10 && i != 13 ==> ScanBlockOf(q, block, t, q9b, mask)[i] == block[i]
  {
    hide Sub, Word10;
  }

  lemma AgreesFrame(block: Block, base: Block)
    requires Agrees(block, base)
    ensures forall i :: 0 <= i < 16 && i !in {8, 9, 12} ==> block[i] == base[i]
  {}

  /** The loop over the changes of Q9 and Q10 that keep steps 0 to 20 and word 11: it gives up only when every choice
      is spent. */
  method TryQ9Q10(th: Thread, q: array<Word>, block: array<Word>, iv: Regs, q9b: Word) returns (outcome: Outcome)
    requires q.Length == 68 && block.Length == 16 && q != block
    requires Stage3(iv, q[..], block[..], q9b)
    modifies th`dots, th`polls, q, block
    ensures forall i :: 0 <= i < 68 && i != 12 ==> q[i] == old(q[i])
    ensures forall i :: 0 <= i < 16 && i !in {8, 9, 10, 12, 13} ==> block[i] == old(block[i])
    ensures th.polls <= old(th.polls)
    ensures outcome == Aborted ==> th.polls == 0
    ensures outcome == Exhausted ==> Stage3(iv, q[..], block[..], q9b)
    ensures outcome == Exhausted ==>
      AllSpent(iv, old(q[..]), old(block[..]), SumsIn(old(q[..]), old(block[..])), q9b, 8)
    ensures outcome == Found ==> Solved(iv, block[..])
    ensures ExtendsUseful(iv, old(th.dots), th.dots)
  {
    hide Stage3, Q9Q10Mask, Solved, ExtendsUseful, Spent, SumsIn;
    ghost var q0, block0 := q[..], block[..];
    var t := SumsFor(q, block);
    UsefulSelf(iv, th.dots);
    for counter3 := 0 to 8
      invariant Stage3(iv, q[..], block[..], q9b) && SumsOf(q[..], block[..], t)
      invariant th.polls <= old(th.polls)
      invariant ExtendsUseful(iv, old(th.dots), th.dots)
      invariant AllSpent(iv, q0, block0, t, q9b, counter3)
      invariant forall i :: 0 <= i < 68 && i != 12 ==> q[i] == q0[i]
      invariant forall i :: 0 <= i < 16 && i !in {8, 9, 10, 12, 13} ==> block[i] == block0[i]
    {
      ghost var q1, block1, dots0 := q[..], block[..], th.dots;
      var mask := Q9Q10Mask(counter3 as bv32);
      outcome := TryChoice(th, q, block, iv, q9b, t, mask);
      UsefulChain(iv, old(th.dots), dots0, th.dots);
      if outcome != Exhausted {
        return;
      }
      SpentLocal(iv, q1, q0, block1, block0, t, q9b, mask);
      AllSpentNext(iv, q0, block0, t, q9b, counter3);
    }
    outcome := Exhausted;
  }

  lemma ReachesSolved(iv: Regs, s: Scan, block: Block, k: nat)
    requires k < 65536 && Reaches(iv, s, block, k) && FirstPair(iv, Candidate(s, block, k))
    ensures Solved(iv, Candidate(s, block, k))
  {
    hide Compress, Candidate, FirstPair;
  }

  /** The state words and the message words before the loop over Q4; q4 and q9b are the drawn values. */
  ghost predicate Stage2(iv: Regs, q: seq<Word>, block: Block, q4: Word, q9b: Word) {
    && |q| == 68
    && At(q, 0) == iv
    && (forall t :: 0 <= t < 3 || 14 <= t < 20 ==> Fits(q, block, t))
    && FitsAll(q[7 := q4], block, 6, 7)
    && FitsAll(q[12 := q9b], block, 11, 12)
    && q[9].v & 0x38000004 == 0x38000004
    && q[14].v & 0x0eb94f16 == 0x0eb94f16
    && q[14].v & 0x2000 == 0x2000
    && q[14].v & 0x60 == 0
    && q[13].v & 0x0eb94f16 == 0
  }

  lemma Stage2At(iv: Regs, q: seq<Word>, block: Block, q4: Word, q9b: Word)
    requires Stage2(iv, q, block, q4, q9b)
    ensures |q| == 68 && At(q, 0) == iv
  {}

  lemma Stage2Kept(iv: Regs, q: seq<Word>, q': seq<Word>, block: Block, block': Block, q4: Word, q9b: Word)
    requires Stage2(iv, q, block, q4, q9b) && |q'| == 68
    requires forall i :: 0 <= i < 68 && i != 7 && i != 12 && i != 24 ==> q[i] == q'[i]
    requires forall i :: 0 <= i < 16 && i !in {3, 4, 5, 7, 8, 9, 10, 12, 13} ==> block[i] == block'[i]
    ensures Stage2(iv, q', block', q4, q9b)
  {
    hide Fits, RowOf;
    forall t: nat | t < 3 || 14 <= t < 20
      ensures Fits(q', block', t)
    {
      WordsBeforeQ4(t);
      FitsSame(q, q', block, block', t);
    }
    Rows6And11();
    FitsSame(q[7 := q4], q'[7 := q4], block, block', 6);
    FitsSame(q[12 := q9b], q'[12 := q9b], block, block', 11);
  }

  lemma Q4BitsKeepWord6(q6: bv32, k: bv32)
    requires q6 & 0x38000004 == 0x38000004
    ensures Q4Mask(k) & !q6 == 0
  {}

  /** Word 6 is derived once, and the loop over Q4 does not disturb step 6. */
  lemma Step6(q: seq<Word>, block: Block, q4: Word, k: bv32)
    requires |q| == 68 && Fits(q[7 := q4], block, 6)
    requires q[7] == Flip(q4, Q4Mask(k)) && q[9].v & 0x38000004 == 0x38000004
    ensures Fits(q, block, 6)
  {
    hide Fits, Q4Mask, Flip;
    Q4BitsKeepWord6(q[9].v, k);
    KeepStep6(q, block, q4, Q4Mask(k));
  }

  /** From the words rederived for a value of Q4 to the stage before the inner loops. */
  lemma Stage3From(iv: Regs, q: seq<Word>, block: Block, q4: Word, q9b: Word, k: bv32)
    requires Stage2(iv, q, block, q4, q9b) && q[7] == Flip(q4, Q4Mask(k))
    requires Fits(q, block, 3) && Fits(q, block, 4) && Fits(q, block, 5) && Fits(q, block, 7) && Fits(q, block, 20)
    ensures Stage3(iv, q, block, q9b)
  {
    hide Fits, Flip, Q4Mask;
    Step6(q, block, q4, k);
  }

  /** A value of Q4 is spent: the condition on q21 fails, or every choice of Q9 and Q10 is spent for it. */
  ghost predicate Q4Spent(iv: Regs, q: seq<Word>, block: Block, q9b: Word, q4: Word)
    requires |q| == 68
  {
    Ok21(q[7 := q4]) ==>
      var s, w := Q4State(q, q4), Q4Block(q, block, q4);
      AllSpent(iv, s, w, SumsIn(s, w), q9b, 8)
  }

  ghost predicate Q4SpentAt(iv: Regs, q: seq<Word>, block: Block, q9b: Word, q4: Word, k: nat)
    requires |q| == 68 && k < 16
  {
    Q4Spent(iv, q, block, q9b, Flip(q4, Q4Mask(k as bv32)))
  }

  ghost predicate AllQ4Spent(iv: Regs, q: seq<Word>, block: Block, q9b: Word, q4: Word, n: nat) {
    |q| == 68 && forall k :: 0 <= k < n <= 16 ==> Q4SpentAt(iv, q, block, q9b, q4, k)
  }

  lemma AllQ4SpentNext(iv: Regs, q: seq<Word>, block: Block, q9b: Word, q4: Word, k: nat)
    requires k < 16 && AllQ4Spent(iv, q, block, q9b, q4, k)
    requires Q4Spent(iv, q, block, q9b, Flip(q4, Q4Mask(k as bv32)))
    ensures AllQ4Spent(iv, q, block, q9b, q4, k + 1)
  {
    hide Q4Spent, Q4Mask, Flip;
  }

  lemma AllSpentLocal(iv: Regs, q: seq<Word>, q': seq<Word>, block: Block, block': Block, t: Sums, q9b: Word, n: nat)
    requires |q| == |q'| == 68 && AllSpent(iv, q, block, t, q9b, n)
    requires forall i :: 0 <= i < 68 && i != 12 ==> q'[i] == q[i]
    requires forall i :: 0 <= i < 16 && i !in {8, 9, 10, 12, 13} ==> block'[i] == block[i]
    ensures AllSpent(iv, q', block', t, q9b, n)
  {
    hide Spent, Q9Q10Mask;
    forall k | 0 <= k < n <= 8
      ensures SpentAt(iv, q', block', t, q9b, k)
    {
      assert SpentAt(iv, q, block, t, q9b, k);
      SpentLocal(iv, q, q', block, block', t, q9b, Q9Q10Mask(k as bv32));
    }
  }

  lemma SumsLocal(q: seq<Word>, q': seq<Word>, block: Block, block': Block)
    requires |q| == |q'| == 68
    requires forall i :: 0 <= i < 68 && i != 12 ==> q'[i] == q[i]
    requires block'[4] == block[4] && block'[15] == block[15]
    ensures SumsIn(q', block') == SumsIn(q, block)
  {
    hide Mix, Add, Add3, Sub, Unturn;
  }

  lemma Q4SpentLocal(iv: Regs, q: seq<Word>, q': seq<Word>, block: Block, block': Block, q9b: Word, q4: Word)
    requires |q| == |q'| == 68 && Q4Spent(iv, q, block, q9b, q4)
    requires forall i :: 0 <= i < 68 && i !in {7, 12, 24} ==> q'[i] == q[i]
    requires forall i :: 0 <= i < 16 && i !in {3, 4, 5, 7, 8, 9, 10, 12, 13} ==> block'[i] == block[i]
    ensures Q4Spent(iv, q', block', q9b, q4)
  {
    Q4Local(q, q', block, block', q4);
    Q4Row13(q, q', q4);
    hide Ok21, Q4State, Q4Block, AllSpent, SumsIn;
    if Ok21(q[7 := q4]) {
      var s, w, s', w' := Q4State(q, q4), Q4Block(q, block, q4), Q4State(q', q4), Q4Block(q', block', q4);
      SumsLocal(s, s', w, w');
      AllSpentLocal(iv, s, s', w, w', SumsIn(s, w), q9b, 8);
    }
  }

  lemma Q4Row13(q: seq<Word>, q': seq<Word>, q4: Word)
    requires |q| == |q'| == 68 && q'[13] == q[13]
    ensures Q4State(q', q4)[13] == Q4State(q, q4)[13]
  {
    hide Q21;
  }

  /** One value of Q4: words 3, 4, 5 and 7 are rederived. */
  method TryQ4Value(th: Thread, q: array<Word>, block: array<Word>, iv: Regs, q4: Word, q9b: Word, k: nat)
    returns (outcome: Outcome)
    requires q.Length == 68 && block.Length == 16 && q != block && k < 16
    requires Stage2(iv, q[..], block[..], q4, q9b)
    modifies th`dots, th`polls, q, block
    ensures At(q[..], 0) == iv
    ensures forall i :: 0 <= i < 68 && i !in {7, 12, 24} ==> q[i] == old(q[i])
    ensures forall i :: 0 <= i < 16 && i !in {3, 4, 5, 7, 8, 9, 10, 12, 13} ==> block[i] == old(block[i])
    ensures th.polls <= old(th.polls)
    ensures outcome == Aborted ==> th.polls == 0
    ensures outcome == Exhausted ==> Stage2(iv, q[..], block[..], q4, q9b)
    ensures outcome == Exhausted ==> Q4Spent(iv, old(q[..]), old(block[..]), q9b, Flip(q4, Q4Mask(k as bv32)))
    ensures outcome == Found ==> Solved(iv, block[..])
    ensures ExtendsUseful(iv, old(th.dots), th.dots)
  {
    hide Stage2, Stage3, Solved, Fits, Flip, Q4Mask, ExtendsUseful, AllSpent, SumsIn, Q4State, Q4Block, Ok21, Word5, Sum21, Mix, Add3;
    ghost var q0, block0 := q[..], block[..];
    UsefulSelf(iv, th.dots);
    Stage2At(iv, q[..], block[..], q4, q9b);
    var tt21 := Sum21Of(q);
    var q4k := Flip(q4, Q4Mask(k as bv32));
    Q4Frame(q0, block0, q4k);
    var pass := PlaceQ4(q, block, q4k, tt21);
    Stage2Kept(iv, q0, q[..], block0, block[..], q4, q9b);
    if !pass {
      Stage2At(iv, q[..], block[..], q4, q9b);
      return Exhausted;
    }
    Stage3From(iv, q[..], block[..], q4, q9b, k as bv32);
    ghost var q2, block2 := q[..], block[..];
    outcome := TryQ9Q10(th, q, block, iv, q9b);
    Stage2Kept(iv, q2, q[..], block2, block[..], q4, q9b);
    Stage2At(iv, q[..], block[..], q4, q9b);
  }

  /** The loop over the changes of Q4: it gives up only when every value of Q4 is spent. */
  method TryQ4(th: Thread, q: array<Word>, block: array<Word>, iv: Regs) returns (outcome: Outcome)
    requires q.Length == 68 && block.Length == 16 && q != block
    requires Stage2(iv, q[..], block[..], q[7], q[12])
    modifies th`dots, th`polls, q, block
    ensures At(q[..], 0) == iv
    ensures th.polls <= old(th.polls)
    ensures outcome == Aborted ==> th.polls == 0
    ensures outcome == Exhausted ==> AllQ4Spent(iv, old(q[..]), old(block[..]), old(q[12]), old(q[7]), 16)
    ensures outcome == Found ==> Solved(iv, block[..])
    ensures ExtendsUseful(iv, old(th.dots), th.dots)
  {
    hide Stage2, Solved, ExtendsUseful, Flip, Q4Mask, Q4Spent;
    ghost var q0, block0 := q[..], block[..];
    UsefulSelf(iv, th.dots);
    Stage2At(iv, q[..], block[..], q[7], q[12]);
    var q4, q9b := q[7], q[12];
    for counter2 := 0 to 16
      invariant Stage2(iv, q[..], block[..], q4, q9b)
      invariant th.polls <= old(th.polls)
      invariant ExtendsUseful(iv, old(th.dots), th.dots)
      invariant At(q[..], 0) == iv
      invariant AllQ4Spent(iv, q0, block0, q9b, q4, counter2)
      invariant forall i :: 0 <= i < 68 && i !in {7, 12, 24} ==> q[i] == q0[i]
      invariant forall i :: 0 <= i < 16 && i !in {3, 4, 5, 7, 8, 9, 10, 12, 13} ==> block[i] == block0[i]
    {
      ghost var q1, block1, dots0 := q[..], block[..], th.dots;
      outcome := TryQ4Value(th, q, block, iv, q4, q9b, counter2);
      UsefulChain(iv, old(th.dots), dots0, th.dots);
      if outcome != Exhausted {
        return;
      }
      Q4SpentLocal(iv, q1, q0, block1, block0, q9b, Flip(q4, Q4Mask(counter2 as bv32)));
      AllQ4SpentNext(iv, q0, block0, q9b, q4, counter2);
    }
    outcome := Exhausted;
  }

  // ---------------------------------------------------------------- drawing the state words

  /** The bit conditions of a draw that the neutral-bit arguments rest on. */
  ghost predicate DrawBits(q: seq<Word>)
    requires |q| == 68
  {
    BitsFor(q[9], q[13], q[14])
  }

  predicate BitsFor(q6: Word, q10: Word, q11: Word) {
    && q6.v & 0x38000004 == 0x38000004
    && q11.v & 0x0eb94f16 == 0x0eb94f16
    && q11.v & 0x2000 == 0x2000
    && q11.v & 0x60 == 0
    && q10.v & 0x0eb94f16 == 0
  }

  lemma DrawnBits(r10: Word, r11: Word, q6: Word, q9: Word, q10: Word, q11: Word)
    requires q6 == W(0xb84b82d6)
    requires q10 == Drawn(r10, 0x40000000, 0x1040b089, q9, 0, 0)
    requires q11 == Drawn(r11, 0x10408008, 0x0fbb7f16, q10, 0, 0x40000000)
    ensures BitsFor(q6, q10, q11)
  {
    hide Disjoint, Meets;
  }

  /** q1 and q3 to q16 as the first block draws them, bit by bit. */
  predicate Path(rs: seq<Word>, ws: seq<Word>)
    requires |rs| == 12 && |ws| == 16
  {
    PathTo11(rs, ws[..11]) && PathFrom12(rs, ws[10], ws[11..])
  }

  predicate PathTo11(rs: seq<Word>, ws: seq<Word>)
    requires |rs| == 12 && |ws| == 11
  {
    && ws[0] == rs[0]
    && Meets(ws[2], rs[1], ws[0], 0xfe87bc3f, 0x017841c0, 0, 0)
    && Meets(ws[3], rs[2], ws[2], 0x44000033, 0x000002c0, 0x0287bc00, 0)
    && Meets(ws[4], W(0), ws[3], 0, 0x41ffffc8, 0x04000033, 0)
    && ws[5] == W(0xb84b82d6)
    && Meets(ws[6], rs[3], ws[5], 0x68000084, 0x02401b43, 0, 0)
    && Meets(ws[7], rs[4], ws[6], 0x2b8f6e04, 0x005090d3, 0, 0x40000000)
    && Meets(ws[8], W(0), ws[7], 0, 0x20040068, 0x00020000, 0x40000000)
    && Meets(ws[9], rs[5], ws[8], 0x40000000, 0x1040b089, 0, 0)
    && Meets(ws[10], rs[6], ws[9], 0x10408008, 0x0fbb7f16, 0, 0x40000000)
  }

  predicate PathFrom12(rs: seq<Word>, w14: Word, ws: seq<Word>)
    requires |rs| == 12 && |ws| == 5
  {
    && Meets(ws[0], rs[7], w14, 0x1ed9df7f, 0x00022080, 0, 0x40200000)
    && Meets(ws[1], rs[8], ws[0], 0x5efb4f77, 0x20049008, 0, 0)
    && Meets(ws[2], rs[9], ws[1], 0x1fff5f77, 0x0000a088, 0, 0x40000000)
    && Meets(ws[3], rs[10], ws[2], 0x5efe7ff7, 0x80008000, 0, 0x00010000)
    && Meets(ws[4], rs[11], ws[3], 0x1ffdffff, 0xa0000000, 0, 0x40020000)
  }

  lemma ApartAll()
    ensures Disjoint(0xfe87bc3f, 0x017841c0, 0, 0)
    ensures Disjoint(0x44000033, 0x000002c0, 0x0287bc00, 0)
    ensures Disjoint(0, 0x41ffffc8, 0x04000033, 0)
    ensures Disjoint(0x68000084, 0x02401b43, 0, 0)
    ensures Disjoint(0x2b8f6e04, 0x005090d3, 0, 0x40000000)
    ensures Disjoint(0, 0x20040068, 0x00020000, 0x40000000)
    ensures Disjoint(0x40000000, 0x1040b089, 0, 0)
    ensures Disjoint(0x10408008, 0x0fbb7f16, 0, 0x40000000)
    ensures Disjoint(0x1ed9df7f, 0x00022080, 0, 0x40200000)
    ensures Disjoint(0x5efb4f77, 0x20049008, 0, 0)
    ensures Disjoint(0x1fff5f77, 0x0000a088, 0, 0x40000000)
    ensures Disjoint(0x5efe7ff7, 0x80008000, 0, 0x00010000)
    ensures Disjoint(0x1ffdffff, 0xa0000000, 0, 0x40020000)
  {}

  /** q1 and q3 to q16, drawn at random under the sufficient conditions of the differential path, around a given q2. */
  method DrawAll(th: Thread, w5: Word) returns (ws: seq<Word>)
    modifies th`seed1, th`seed2
    ensures |ws| == 16 && ws[1] == w5 && Path(DrawsOf(old(th.seed1), old(th.seed2), 12), ws)
    ensures BitsFor(ws[5], ws[9], ws[10])
  {
    hide PathTo11, PathFrom12, BitsFor, NextSeeds, SeedsAfter, DrawnAt;
    var rs := th.Draws(12);
    assert rs == DrawsOf(old(th.seed1), old(th.seed2), 12);
    var first := WordsTo11(rs, w5);
    var last := WordsFrom12(rs, first[10]);
    ws := first + last;
    assert ws[..11] == first && ws[11..] == last;
  }

  method WordsTo11(rs: seq<Word>, w5: Word) returns (ws: seq<Word>)
    requires |rs| == 12
    ensures |ws| == 11 && ws[1] == w5 && PathTo11(rs, ws) && BitsFor(ws[5], ws[9], ws[10])
  {
    hide Drawn, Meets, Disjoint, BitsFor;
    ApartAll();
    var w4 := rs[0];
    var w6 := Drawn(rs[1], 0xfe87bc3f, 0x017841c0, w4, 0, 0);
    var w7 := Drawn(rs[2], 0x44000033, 0x000002c0, w6, 0x0287bc00, 0);
    var w8 := Drawn(W(0), 0, 0x41ffffc8, w7, 0x04000033, 0);
    var w9 := W(0xb84b82d6);
    var w10 := Drawn(rs[3], 0x68000084, 0x02401b43, w9, 0, 0);
    var w11 := Drawn(rs[4], 0x2b8f6e04, 0x005090d3, w10, 0, 0x40000000);
    var w12 := Drawn(W(0), 0, 0x20040068, w11, 0x00020000, 0x40000000);
    var w13 := Drawn(rs[5], 0x40000000, 0x1040b089, w12, 0, 0);
    var w14 := Drawn(rs[6], 0x10408008, 0x0fbb7f16, w13, 0, 0x40000000);
    DrawnBits(rs[5], rs[6], w9, w12, w13, w14);
    ws := [w4, w5, w6, w7, w8, w9, w10, w11, w12, w13, w14];
  }

  method WordsFrom12(rs: seq<Word>, w14: Word) returns (ws: seq<Word>)
    requires |rs| == 12
    ensures |ws| == 5 && PathFrom12(rs, w14, ws)
  {
    hide Drawn, Meets, Disjoint;
    ApartAll();
    var w15 := Drawn(rs[7], 0x1ed9df7f, 0x00022080, w14, 0, 0x40200000);
    var w16 := Drawn(rs[8], 0x5efb4f77, 0x20049008, w15, 0, 0);
    var w17 := Drawn(rs[9], 0x1fff5f77, 0x0000a088, w16, 0, 0x40000000);
    var w18 := Drawn(rs[10], 0x5efe7ff7, 0x80008000, w17, 0, 0x00010000);
    var w19 := Drawn(rs[11], 0x1ffdffff, 0xa0000000, w18, 0, 0x40020000);
    ws := [w15, w16, w17, w18, w19];
  }

  /** The draw is put in place. */
  method Seed(th: Thread, q: array<Word>)
    requires q.Length == 68
    modifies th`seed1, th`seed2, q
    ensures forall i :: 0 <= i < 4 || 20 <= i < 68 ==> q[i] == old(q[i])
    ensures DrawBits(q[..]) && Path(DrawsOf(old(th.seed1), old(th.seed2), 12), q[4..20])
  {
    hide Path, BitsFor;
    var ws := DrawAll(th, q[5]);
    forall i | 4 <= i < 20 {
      q[i] := ws[i - 4];
    }
    assert q[4..20] == ws;
  }

  /** The words derived straight from a draw. */
  ghost predicate Stage1(iv: Regs, q: seq<Word>, block: Block) {
    && |q| == 68
    && At(q, 0) == iv
    && (forall t :: t in {0, 6, 11, 14, 15} ==> Fits(q, block, t))
    && DrawBits(q)
  }

  /** Words 0, 6, 7, 11, 14 and 15. */
  method DeriveFirst(q: array<Word>, block: array<Word>)
    requires q.Length == 68 && block.Length == 16 && q != block
    modifies block
    ensures forall t :: t in {0, 6, 11, 14, 15} ==> Fits(q[..], block[..], t)
  {
    hide Fits, RowOf;
    RoundOneRows();
    Reverse(q, block, 0, 0xd76aa478, 7);
    ghost var b0 := block[..];
    Reverse(q, block, 6, 0xa8304613, 17);
    ghost var b6 := block[..];
    Reverse(q, block, 7, 0xfd469501, 22);
    Reverse(q, block, 11, 0x895cd7be, 22);
    ghost var b11 := block[..];
    Reverse(q, block, 14, 0xa679438e, 17);
    ghost var b14 := block[..];
    Reverse(q, block, 15, 0x49b40821, 22);
    FitsSame(q[..], q[..], b0, block[..], 0);
    FitsSame(q[..], q[..], b6, block[..], 6);
    FitsSame(q[..], q[..], b11, block[..], 11);
    FitsSame(q[..], q[..], b14, block[..], 14);
  }

  /** Steps 1 and 16 to 19, run around a drawn q17. */
  lemma Steps16To19(q: seq<Word>, w: Block, tt1: bv32, tt17: bv32, tt18: bv32, tt19: bv32, tt20: bv32)
    requires |q| == 68
    requires tt1 == Add3(Mix(F, q[4], q[3], q[2]).v, q[1].v, 0xe8c7b756)
    requires tt17 == Add3(Mix(G, q[19], q[18], q[17]).v, q[16].v, 0xf61e2562)
    requires tt18 == Add3(q[17].v, 0xc040b340, w[6].v)
    requires tt19 == Add3(q[18].v, 0x265e5a51, w[11].v)
    requires tt20 == Add3(q[19].v, 0xe9b6c7aa, w[0].v)
    requires w[1] == W(Sub(Unturn(q[20], 5, q[19]), tt17))
    requires q[5] == Turn(Add(w[1].v, tt1), 12, q[4])
    requires q[21] == Turn(Add(Mix(G, q[20], q[19], q[18]).v, tt18), 9, q[20])
    requires q[22] == Turn(Add(Mix(G, q[21], q[20], q[19]).v, tt19), 14, q[21])
    requires q[23] == Turn(Add(Mix(G, q[22], q[21], q[20]).v, tt20), 20, q[22])
    ensures Fits(q, w, 1) && Fits(q, w, 16) && Fits(q, w, 17) && Fits(q, w, 18) && Fits(q, w, 19)
  {
    hide Fits, Turn, Unturn, Mix, Sub, Add, Add3, Sum;
    SumForwardA(Mix(F, q[4], q[3], q[2]).v, q[1].v, w[1].v, 0xe8c7b756);
    FitsIs(q, w, 1, F, 1, 12, 0xe8c7b756);
    SumBackA(Unturn(q[20], 5, q[19]), Mix(G, q[19], q[18], q[17]).v, q[16].v, 0xf61e2562);
    Solves(G, q[16], q[19], q[18], q[17], w[1], q[20], 0xf61e2562, 5);
    FitsIs(q, w, 16, G, 1, 5, 0xf61e2562);
    SumForwardC(Mix(G, q[20], q[19], q[18]).v, q[17].v, w[6].v, 0xc040b340);
    FitsIs(q, w, 17, G, 6, 9, 0xc040b340);
    SumForwardC(Mix(G, q[21], q[20], q[19]).v, q[18].v, w[11].v, 0x265e5a51);
    FitsIs(q, w, 18, G, 11, 14, 0x265e5a51);
    SumForwardC(Mix(G, q[22], q[21], q[20]).v, q[19].v, w[0].v, 0xe9b6c7aa);
    FitsIs(q, w, 19, G, 0, 20, 0xe9b6c7aa);
  }

  /** The words that FindQ17 writes leave steps 0, 6, 11, 14 and 15 alone. */
  lemma Stage2From(iv: Regs, q: seq<Word>, q': seq<Word>, block: Block, block': Block)
    requires Stage1(iv, q, block) && |q'| == 68
    requires forall i :: 0 <= i < 68 && i !in {5, 20, 21, 22, 23} ==> q'[i] == q[i]
    requires forall i :: 0 <= i < 16 && i !in {1, 2, 5} ==> block'[i] == block[i]
    requires forall t :: t in {1, 2, 16, 17, 18, 19} ==> Fits(q', block', t)
    ensures Stage2(iv, q', block', q'[7], q'[12])
  {
    hide Fits, RowOf;
    RoundOneRows();
    FitsSame(q, q', block, block', 0);
    FitsSame(q, q', block, block', 6);
    FitsSame(q, q', block, block', 11);
    FitsSame(q, q', block, block', 14);
    FitsSame(q, q', block, block', 15);
    assert q'[7 := q'[7]] == q' && q'[12 := q'[12]] == q';
  }

  /** Partial sums kept while q17 is drawn. */
  datatype DrawSums = DrawSums(tt1: bv32, tt17: bv32, tt18: bv32, tt19: bv32, tt20: bv32, tt5: bv32)

  ghost predicate DrawSumsOf(q: seq<Word>, block: Block, t: DrawSums)
    requires |q| == 68
  {
    && t.tt1 == Add3(Mix(F, q[4], q[3], q[2]).v, q[1].v, 0xe8c7b756)
    && t.tt17 == Add3(Mix(G, q[19], q[18], q[17]).v, q[16].v, 0xf61e2562)
    && t.tt18 == Add3(q[17].v, 0xc040b340, block[6].v)
    && t.tt19 == Add3(q[18].v, 0x265e5a51, block[11].v)
    && t.tt20 == Add3(q[19].v, 0xe9b6c7aa, block[0].v)
    && t.tt5 == Sub(Sub(Unturn(q[9], 12, q[8]), Mix(F, q[8], q[7], q[6]).v), 0x4787c62a)
  }

  method SumsForDraw(q: array<Word>, block: array<Word>) returns (t: DrawSums)
    requires q.Length == 68 && block.Length == 16
    ensures DrawSumsOf(q[..], block[..], t)
  {
    hide Unturn, Mix, Sub, Add3;
    t := DrawSums(
      Add3(Mix(F, q[4], q[3], q[2]).v, q[1].v, 0xe8c7b756),
      Add3(Mix(G, q[19], q[18], q[17]).v, q[16].v, 0xf61e2562),
      Add3(q[17].v, 0xc040b340, block[6].v),
      Add3(q[18].v, 0x265e5a51, block[11].v),
      Add3(q[19].v, 0xe9b6c7aa, block[0].v),
      Sub(Sub(Unturn(q[9], 12, q[8]), Mix(F, q[8], q[7], q[6]).v), 0x4787c62a));
  }

  /** q17 for a draw, and the conditions on q18 to q20 behind it. */
  function Q17Of(q16: Word, r: bv32): Word { Flip(Drawn(W(r), 0x3ffd7ff7, 0, q16, 0xc0008008, 0), 0x40000000) }

  predicate Passes17(q: seq<Word>, t: DrawSums, q17: Word)
    requires |q| == 68
  {
    var q18 := Q18Of(q, t, q17);
    var q19 := Q19Of(q, t, q17, q18);
    var q20 := Q20Of(t, q17, q18, q19);
    && (q18.v ^ q17.v) & 0xa0020000 == 0x00020000
    && q19.v & 0x80020000 == 0x80000000
    && (q20.v ^ q19.v) & 0x80040000 == 0x00040000
  }

  function Q18Of(q: seq<Word>, t: DrawSums, q17: Word): Word
    requires |q| == 68
  {
    Turn(Add(Mix(G, q17, q[19], q[18]).v, t.tt18), 9, q17)
  }

  function Q19Of(q: seq<Word>, t: DrawSums, q17: Word, q18: Word): Word
    requires |q| == 68
  {
    Turn(Add(Mix(G, q18, q17, q[19]).v, t.tt19), 14, q18)
  }

  function Q20Of(t: DrawSums, q17: Word, q18: Word, q19: Word): Word {
    Turn(Add(Mix(G, q19, q18, q17).v, t.tt20), 20, q19)
  }

  /** Draw q17 and run steps 17 to 19, leaving at the first condition that fails. */
  method DrawQ17(th: Thread, q: array<Word>, t: DrawSums)
    returns (ok: bool, q17: Word, q18: Word, q19: Word, q20: Word)
    requires q.Length == 68
    modifies th`seed1, th`seed2
    ensures q17 == Q17Of(q[19], old(th.seed2)) && ok == Passes17(q[..], t, q17)
    ensures ok ==> q18 == Q18Of(q[..], t, q17) && q19 == Q19Of(q[..], t, q17, q18) && q20 == Q20Of(t, q17, q18, q19)
  {
    hide Turn, Mix, Add, Flip, Drawn, NextSeeds;
    var q16 := q[19];
    var r := th.Draw();
    q17 := Flip(Drawn(W(r), 0x3ffd7ff7, 0, q16, 0xc0008008, 0), 0x40000000);
    ok, q19, q20 := false, q17, q17;
    q18 := Turn(Add(Mix(G, q17, q16, q[18]).v, t.tt18), 9, q17);
    if (q18.v ^ q17.v) & 0xa0020000 != 0x00020000 {
      return;
    }
    q19 := Turn(Add(Mix(G, q18, q17, q16).v, t.tt19), 14, q18);
    if q19.v & 0x80020000 != 0x80000000 {
      return;
    }
    q20 := Turn(Add(Mix(G, q19, q18, q17).v, t.tt20), 20, q19);
    ok := (q20.v ^ q19.v) & 0x80040000 == 0x00040000;
  }

  /** One attempt at q17: the conditions on q17 to q20 hold, or nothing has changed. */
  method TryQ17(th: Thread, q: array<Word>, block: array<Word>, t: DrawSums) returns (ok: bool)
    requires q.Length == 68 && block.Length == 16 && q != block && DrawSumsOf(q[..], block[..], t)
    modifies th`seed1, th`seed2, q, block
    ensures ok == Passes17(old(q[..]), t, Q17Of(old(q[19]), old(th.seed2)))
    ensures ok ==> q[20] == Q17Of(old(q[19]), old(th.seed2))
    ensures !ok ==> q[..] == old(q[..]) && block[..] == old(block[..])
    ensures forall i :: 0 <= i < 68 && i !in {5, 20, 21, 22, 23} ==> q[i] == old(q[i])
    ensures forall i :: 0 <= i < 16 && i != 1 && i != 5 ==> block[i] == old(block[i])
    ensures ok ==> forall t :: t in {1, 16, 17, 18, 19} ==> Fits(q[..], block[..], t)
  {
    hide Fits, Turn, Unturn, Mix, Sub, Add, Add3, Passes17, Q17Of;
    var q17, q18, q19, q20;
    ok, q17, q18, q19, q20 := DrawQ17(th, q, t);
    if !ok {
      return;
    }
    block[1] := W(Sub(Unturn(q17, 5, q[19]), t.tt17));
    var q2 := Turn(Add(block[1].v, t.tt1), 12, q[4]);
    block[5] := W(Sub(t.tt5, q2.v));
    q[5] := q2;
    q[20], q[21], q[22], q[23] := q17, q18, q19, q20;
    Steps16To19(q[..], block[..], t.tt1, t.tt17, t.tt18, t.tt19, t.tt20);
  }

  /** Draw q17 until the conditions on q17 to q20 hold, at most 128 times; then words 1, 2 and 5 follow. */
  method FindQ17(th: Thread, q: array<Word>, block: array<Word>, iv: Regs) returns (ok: bool)
    requires q.Length == 68 && block.Length == 16 && q != block
    requires Stage1(iv, q[..], block[..])
    modifies th`seed1, th`seed2, q, block
    ensures At(q[..], 0) == iv
    ensures ok ==> Stage2(iv, q[..], block[..], q[7], q[12])
  {
    hide Stage1, Stage2, Fits, RowOf, DrawSumsOf;
    Stage1At(iv, q[..], block[..]);
    RoundOneRows();
    ghost var q0, block0 := q[..], block[..];
    var t := SumsForDraw(q, block);
    var counter := 0;
    while counter < 128
      invariant q[..] == q0 && block[..] == block0
    {
      counter := counter + 1;
      ok := TryQ17(th, q, block, t);
      if ok {
        ghost var block1 := block[..];
        Reverse(q, block, 2, 0x242070db, 17);
        KeptByWord2(q[..], block1, block[..]);
        Stage2From(iv, q0, q[..], block0, block[..]);
        return;
      }
    }
    ok := false;
  }

  lemma Stage1At(iv: Regs, q: seq<Word>, block: Block)
    requires Stage1(iv, q, block)
    ensures |q| == 68 && At(q, 0) == iv
  {}

  /** find_block0. It returns with a block that meets the exit condition and leads to a chaining value one
      of the second searches is made for; on the way, whatever is drawn, every candidate it compares was
      predicted correctly. Without a result, the abort flag was seen. */
  method FindBlock0(th: Thread, block: array<Word>, iv: Regs) returns (found: bool)
    requires block.Length == 16
    modifies th, block
    ensures found ==> Solved(iv, block[..])
    ensures !found ==> th.polls == 0
    ensures ExtendsUseful(iv, old(th.dots), th.dots)
  {
    hide Path, Stage1, Stage2, Fits, Solved, ExtendsUseful, DrawBits;
    var q := new Word[68](i => W(0));
    q[0], q[1], q[2], q[3] := iv.a, iv.d, iv.c, iv.b;
    UsefulSelf(iv, th.dots);
    while true
      invariant At(q[..], 0) == iv
      invariant ExtendsUseful(iv, old(th.dots), th.dots)
      decreases th.polls
    {
      var aborted := th.CheckAbort();
      if aborted {
        return false;
      }
      Seed(th, q);
      DeriveFirst(q, block);
      Stage1Is(iv, q[..], block[..]);
      var ok := FindQ17(th, q, block, iv);
      if !ok {
        continue;
      }
      ghost var dots0 := th.dots;
      var outcome := TryQ4(th, q, block, iv);
      UsefulChain(iv, old(th.dots), dots0, th.dots);
      if outcome == Found {
        return true;
      } else if outcome == Aborted {
        return false;
      }
    }
  }

  lemma Stage1Is(iv: Regs, q: seq<Word>, block: Block)
    requires |q| == 68 && At(q, 0) == iv && DrawBits(q)
    requires forall t :: t in {0, 6, 11, 14, 15} ==> Fits(q, block, t)
    ensures Stage1(iv, q, block)
  {}
}
