/** The bit conditions and the tables of the searches, bit by bit. */
module Conditions {
  import opened Md5
  import opened SearchCommon
  import Block0
  import opened Block1

  // ---------------------------------------------------------------- the conditions

  predicate Bit(x: Word, i: nat)
    requires i < 32
  {
    (x.v >> i) & 1 == 1
  }

  /** q17 against q16: bit 31 the same and bit 30 flipped for the Wang and the 11 search, bit 31 flipped for the others;
      bits 15 and 3 the same; bit 17 clear. */
  lemma ConditionsOn17(v: Variant, q17: Word, q16: Word)
    ensures Ok17(v, q17, q16) <==>
      && (Bit(q17, 31) == Bit(q16, 31) <==> v in {Wang, S11})
      && (v in {Wang, S11} ==> Bit(q17, 30) != Bit(q16, 30))
      && Bit(q17, 15) == Bit(q16, 15) && Bit(q17, 3) == Bit(q16, 3) && !Bit(q17, 17)
  {}

  /** q18 against q17: bit 17 flipped, bit 29 the same, bit 31 the same for the Wang search and flipped for the others. */
  lemma ConditionsOn18(v: Variant, q18: Word, q17: Word)
    ensures Ok18(v, q18, q17) <==>
      Bit(q18, 17) != Bit(q17, 17) && Bit(q18, 29) == Bit(q17, 29) && (Bit(q18, 31) == Bit(q17, 31) <==> v == Wang)
  {}

  /** q19: bit 17 clear, bit 31 set for the 00 and the 11 search only. */
  lemma ConditionsOn19(v: Variant, q19: Word)
    ensures Ok19(v, q19) <==> !Bit(q19, 17) && (Bit(q19, 31) <==> v in {S00, S11})
  {}

  /** q20 against q19: bit 18 flipped, bit 31 the same. */
  lemma ConditionsOn20(q20: Word, q19: Word)
    ensures Ok20(q20, q19) <==> Bit(q20, 18) != Bit(q19, 18) && Bit(q20, 31) == Bit(q19, 31)
  {}

  /** q21 against q20: bits 31 and 17 the same. */
  lemma ConditionsOn21(q21: Word, q20: Word)
    ensures Settled21(q21, q20) <==> Bit(q21, 31) == Bit(q20, 31) && Bit(q21, 17) == Bit(q20, 17)
  {}

  /** A chaining value for the Wang search. */
  lemma WangConditions(r: Regs)
    ensures WangReady(r) <==>
      && Bit(r.c, 31) == Bit(r.b, 31) == Bit(r.d, 31)
      && Bit(r.c, 26) == Bit(r.b, 26) && Bit(r.c, 25) != Bit(r.b, 25) && Bit(r.d, 25) == Bit(r.b, 25)
      && !Bit(r.b, 26) && !Bit(r.b, 25) && !Bit(r.b, 5)
  {}

  /** A chaining value for the Stevens searches. */
  lemma StevensConditions(r: Regs)
    ensures StevensReady(r) <==>
      && Bit(r.b, 31) == Bit(r.c, 31) == Bit(r.d, 31)
      && !Bit(r.b, 25) && !Bit(r.c, 25) && !Bit(r.d, 25) && Bit(r.b, 0) == Bit(r.c, 0)
  {}

  /** Which search is chosen: bits 6 and 0 of the second word name the Stevens search. */
  lemma ChosenVariant(r: Regs)
    ensures VariantFor(r) == Wang <==> !StevensReady(r)
    ensures StevensReady(r) ==>
      VariantFor(r) == (match (Bit(r.b, 6), Bit(r.b, 0))
                        case (true, true) => S11
                        case (true, false) => S10
                        case (false, true) => S01
                        case (false, false) => S00)
  {
    hide StevensReady;
  }

  /** q1 of each search: free bits of the draw, set bits, and bits equal or opposite to those of an earlier word. */
  lemma WangQ1(q0: Word, q2: Word, r: bv32)
    ensures Meets(Q1Of(Wang, q0, q2, r), W(r), q2, 0x01c0e71f, 0x04200040, 0xf01e1080, 0)
  {
    hide Drawn, Meets;
  }

  lemma Q1Of00(q0: Word, q2: Word, r: bv32)
    ensures Meets(Q1Of(S00, q0, q2, r), W(r), q0, 0x7dfdf7be, 0x02020801, 0x80000000, 0)
  {
    hide Drawn, Meets;
  }

  lemma Q1Of01(q0: Word, q2: Word, r: bv32)
    ensures Meets(Q1Of(S01, q0, q2, r), W(r), q0, 0x7dfff39e, 0x02000001, 0x80000000, 0x20)
  {
    hide Drawn, Meets;
    Drawn01(q0, q2, r);
  }

  lemma Drawn01(q0: Word, q2: Word, r: bv32)
    ensures Q1Of(S01, q0, q2, r) == Drawn(W(r), 0x7dfff39e, 0x02000001, q0, 0x80000000, 0x20)
  {
    hide Disjoint, Meets;
  }

  lemma Q1Of10(q0: Word, q2: Word, r: bv32)
    ensures Meets(Q1Of(S10, q0, q2, r), W(r), q0, 0x7dfdf6be, 0x02000941, 0x80000000, 0)
  {
    hide Drawn, Meets;
    Drawn10(q0, q2, r);
  }

  lemma Drawn10(q0: Word, q2: Word, r: bv32)
    ensures Q1Of(S10, q0, q2, r) == Drawn(W(r), 0x7dfdf6be, 0x02000941, q0, 0x80000000, 0)
  {
    hide Disjoint, Meets;
  }

  lemma Q1Of11(q0: Word, q2: Word, r: bv32)
    ensures Meets(Q1Of(S11, q0, q2, r), W(r), q0, 0x7dfff79e, 0x02000841, 0x80000000, 0x20)
  {
    hide Drawn, Meets;
    Drawn11(q0, q2, r);
  }

  lemma Drawn11(q0: Word, q2: Word, r: bv32)
    ensures Q1Of(S11, q0, q2, r) == Drawn(W(r), 0x7dfff79e, 0x02000841, q0, 0x80000000, 0x20)
  {
    hide Disjoint, Meets;
  }

  /** q17 of the first block, drawn against q16: bits 31, 15 and 3 the same, bit 30 flipped, bit 17 clear. */
  lemma FirstQ17(q16: Word, r: bv32)
    ensures Meets(Block0.Q17Of(q16, r), W(r), q16, 0x3ffd7ff7, 0, 0x80008008, 0x40000000)
  {
    hide Drawn, Meets;
    DrawnFirst(q16, r);
  }

  lemma DrawnFirst(q16: Word, r: bv32)
    ensures Block0.Q17Of(q16, r) == Drawn(W(r), 0x3ffd7ff7, 0, q16, 0x80008008, 0x40000000)
  {
    hide Disjoint, Meets;
  }

  // ---------------------------------------------------------------- the tables

  /** The pattern that bit i of a table index stands for. */
  function Pick(k: bv32, i: nat, pattern: bv32): bv32
    requires i < 32
  {
    if (k >> i) & 1 == 1 then pattern else 0
  }

  /** The table for Q4 of the first block. */
  lemma Q4Table(k: bv32)
    requires k < 16
    ensures Block0.Q4Mask(k) ==
      Pick(k, 0, 0x00000004) ^ Pick(k, 1, 0x08000000) ^ Pick(k, 2, 0x10000000) ^ Pick(k, 3, 0x20000000)
  {}

  /** The table for Q9 and Q10 of the first block. */
  lemma Q9Q10Table(k: bv32)
    requires k < 8
    ensures Block0.Q9Q10Mask(k) ==
      Pick(k, 0, 0x00002000) ^ Pick(k, 1, 0x00000020) ^ Pick(k, 2, 0x00000040)
  {}

  /** The table for Q4 of the Wang search, which changes exactly the bits of Q4Bits. */
  lemma WangQ4Table(k: bv32)
    requires k < 64
    ensures Q4Mask(k) ==
      Pick(k, 0, 0x00002000) ^ Pick(k, 1, 0x00004000) ^ Pick(k, 2, 0x00008000) ^ Pick(k, 3, 0x00400000)
      ^ Pick(k, 4, 0x00800000) ^ Pick(k, 5, 0x01000000)
    ensures Q4Bits(Wang) == Q4Mask(63)
  {}

  /** The inner loop of the Wang search. */
  lemma ScanWang(k: bv32)
    requires k < 1024
    ensures Q9Scan(Wang, k) ==
      Pick(k, 0, 0x00400000) ^ Pick(k, 1, 0x00000004) ^ Pick(k, 2, 0x00000008) ^ Pick(k, 3, 0x00040410)
      ^ Pick(k, 4, 0x00040000) ^ Pick(k, 5, 0x00100000) ^ Pick(k, 6, 0x00300000) ^ Pick(k, 7, 0x20600000)
      ^ Pick(k, 8, 0x40400000) ^ Pick(k, 9, 0x00000400)
    ensures ScanCount(Wang) == 1024
  {}

  /** The inner loop of the 00 search. */
  lemma ScanS00(k: bv32)
    requires k < 512
    ensures Q9Scan(S00, k) ==
      Pick(k, 0, 0x00000902) ^ Pick(k, 1, 0x00000010) ^ Pick(k, 2, 0x00110500) ^ Pick(k, 3, 0x00200810)
      ^ Pick(k, 4, 0x00000400) ^ Pick(k, 5, 0x00010900) ^ Pick(k, 6, 0x00100000) ^ Pick(k, 7, 0x00200500)
      ^ Pick(k, 8, 0x04010800)
    ensures ScanCount(S00) == 512
  {}

  /** The inner loop of the 01 search. */
  lemma ScanS01(k: bv32)
    requires k < 512
    ensures Q9Scan(S01, k) ==
      Pick(k, 0, 0x00000002) ^ Pick(k, 1, 0x00110500) ^ Pick(k, 2, 0x00200800) ^ Pick(k, 3, 0x00000400)
      ^ Pick(k, 4, 0x04010800) ^ Pick(k, 5, 0x00100000) ^ Pick(k, 6, 0x00200000) ^ Pick(k, 7, 0x04010100)
      ^ Pick(k, 8, 0x40100000)
    ensures ScanCount(S01) == 512
  {}

  /** The inner loop of the 10 search. */
  lemma ScanS10(k: bv32)
    requires k < 1024
    ensures Q9Scan(S10, k) ==
      Pick(k, 0, 0x0010000a) ^ Pick(k, 1, 0x00210008) ^ Pick(k, 2, 0x00500028) ^ Pick(k, 3, 0x00200420)
      ^ Pick(k, 4, 0x00410020) ^ Pick(k, 5, 0x00100000) ^ Pick(k, 6, 0x04200000) ^ Pick(k, 7, 0x00400400)
      ^ Pick(k, 8, 0x04100400) ^ Pick(k, 9, 0x20210400)
    ensures ScanCount(S10) == 1024
  {}

  /** The inner loop of the 11 search. */
  lemma ScanS11(k: bv32)
    requires k < 512
    ensures Q9Scan(S11, k) ==
      Pick(k, 0, 0x00000002) ^ Pick(k, 1, 0x00010010) ^ Pick(k, 2, 0x00100400) ^ Pick(k, 3, 0x00200810)
      ^ Pick(k, 4, 0x00410000) ^ Pick(k, 5, 0x00100000) ^ Pick(k, 6, 0x00200000) ^ Pick(k, 7, 0x00400400)
      ^ Pick(k, 8, 0x04110800)
    ensures ScanCount(S11) == 512
  {}

  /** The loop over Q9 and Q10 of the Wang search. */
  lemma ChoicesWang(k: bv32)
    requires k < 32
    ensures ChoiceCount(Wang) == 32
    ensures Part(Choice(Wang, k), Mask9(Wang)) ==
      Pick(k, 1, 0x00004000) ^ Pick(k, 2, 0x00080000)
    ensures Part(Choice(Wang, k), Mask10(Wang)) ==
      Pick(k, 0, 0x00000020) ^ Pick(k, 3, 0x08000000) ^ Pick(k, 4, 0x10000000)
  {}

  /** The loop over Q9 and Q10 of the 00 search. */
  lemma ChoicesS00(k: bv32)
    requires k < 8
    ensures ChoiceCount(S00) == 8
    ensures Part(Choice(S00, k), Mask9(S00)) ==
      Pick(k, 1, 0x00002000)
    ensures Part(Choice(S00, k), Mask10(S00)) ==
      Pick(k, 0, 0x00000020) ^ Pick(k, 2, 0x08000000)
  {}

  /** The loop over Q9 and Q10 of the 01 search. */
  lemma ChoicesS01(k: bv32)
    requires k < 32
    ensures ChoiceCount(S01) == 32
    ensures Part(Choice(S01, k), Mask9(S01)) ==
      Pick(k, 2, 0x00002000) ^ Pick(k, 4, 0x80000000)
    ensures Part(Choice(S01, k), Mask10(S01)) ==
      Pick(k, 0, 0x08000010) ^ Pick(k, 1, 0x00000020) ^ Pick(k, 3, 0x08000000)
  {}

  /** The loop over Q9 and Q10 of the 10 search. */
  lemma ChoicesS10(k: bv32)
    requires k < 16
    ensures ChoiceCount(S10) == 16
    ensures Part(Choice(S10, k), Mask9(S10)) ==
      Pick(k, 1, 0x00000200) ^ Pick(k, 3, 0x00004000)
    ensures Part(Choice(S10, k), Mask10(S10)) ==
      Pick(k, 0, 0x00000004) ^ Pick(k, 2, 0x08000000)
  {}

  /** The loop over Q9 and Q10 of the 11 search. */
  lemma ChoicesS11(k: bv32)
    requires k < 32
    ensures ChoiceCount(S11) == 32
    ensures Part(Choice(S11, k), Mask9(S11)) ==
      Pick(k, 0, 0x00000080) ^ Pick(k, 1, 0x00000080) ^ Pick(k, 2, 0x00000280) ^ Pick(k, 3, 0x00000200)
      ^ Pick(k, 4, 0x80000200)
    ensures Part(Choice(S11, k), Mask10(S11)) ==
      Pick(k, 0, 0x08000000) ^ Pick(k, 3, 0x08000000)
  {}
}
