/** The mask tables: the loops over Q4 and Q9 try no value twice, two of the loops over Q9 and Q10 try each twice. */
module Masks {
  import opened Md5
  import opened SearchCommon
  import Block0
  import opened Block1

  // ---------------------------------------------------------------- the first block's loop over Q9

  lemma XorIs(x: bv32, y: bv32) ensures Xor(x, y) == x ^ y {}

  lemma GroupsRaw(a: bv32, b: bv32, c: bv32) ensures (a ^ b) ^ c == a ^ (b ^ c) {}

  lemma XorSwaps(a: bv32, b: bv32)
    ensures Xor(a, b) == Xor(b, a)
  {
    hide Xor;
    XorIs(a, b);
    XorIs(b, a);
    XorSwapsRaw(a, b);
  }

  lemma XorGroups(a: bv32, b: bv32, c: bv32)
    ensures Xor(Xor(a, b), c) == Xor(a, Xor(b, c))
  {
    hide Xor;
    XorIs(a, b);
    XorIs(b, c);
    XorIs(a ^ b, c);
    XorIs(a, b ^ c);
    GroupsRaw(a, b, c);
  }

  lemma Shuffle(a: bv32, b: bv32, c: bv32, d: bv32)
    ensures Xor(Xor(a, b), Xor(c, d)) == Xor(Xor(a, c), Xor(b, d))
  {
    hide Xor;
    XorGroups(a, b, Xor(c, d));
    XorGroups(b, c, d);
    XorSwaps(b, c);
    XorGroups(c, b, d);
    XorGroups(a, c, Xor(b, d));
  }

  lemma ShiftXor(j: bv32, k: bv32)
    ensures (j ^ k) << 1 == (j << 1) ^ (k << 1)
    ensures (j ^ k) << 2 == (j << 2) ^ (k << 2)
    ensures (j ^ k) << 5 == (j << 5) ^ (k << 5)
    ensures (j ^ k) << 7 == (j << 7) ^ (k << 7)
    ensures (j ^ k) << 8 == (j << 8) ^ (k << 8)
    ensures (j ^ k) << 10 == (j << 10) ^ (k << 10)
    ensures (j ^ k) << 11 == (j << 11) ^ (k << 11)
    ensures (j ^ k) << 13 == (j << 13) ^ (k << 13)
  {}

  lemma Shift1(j: bv32, k: bv32)
    ensures Xor(j, k) << 1 == Xor(j << 1, k << 1)
  {
    calc {
      Xor(j, k) << 1;
      { XorIs(j, k); }
      (j ^ k) << 1;
      { ShiftXor(j, k); }
      (j << 1) ^ (k << 1);
      { XorIs(j << 1, k << 1); }
      Xor(j << 1, k << 1);
    }
  }

  lemma Shift2(j: bv32, k: bv32)
    ensures Xor(j, k) << 2 == Xor(j << 2, k << 2)
  {
    calc {
      Xor(j, k) << 2;
      { XorIs(j, k); }
      (j ^ k) << 2;
      { ShiftXor(j, k); }
      (j << 2) ^ (k << 2);
      { XorIs(j << 2, k << 2); }
      Xor(j << 2, k << 2);
    }
  }

  lemma Shift5(j: bv32, k: bv32)
    ensures Xor(j, k) << 5 == Xor(j << 5, k << 5)
  {
    calc {
      Xor(j, k) << 5;
      { XorIs(j, k); }
      (j ^ k) << 5;
      { ShiftXor(j, k); }
      (j << 5) ^ (k << 5);
      { XorIs(j << 5, k << 5); }
      Xor(j << 5, k << 5);
    }
  }

  lemma Shift7(j: bv32, k: bv32)
    ensures Xor(j, k) << 7 == Xor(j << 7, k << 7)
  {
    calc {
      Xor(j, k) << 7;
      { XorIs(j, k); }
      (j ^ k) << 7;
      { ShiftXor(j, k); }
      (j << 7) ^ (k << 7);
      { XorIs(j << 7, k << 7); }
      Xor(j << 7, k << 7);
    }
  }

  lemma Shift8(j: bv32, k: bv32)
    ensures Xor(j, k) << 8 == Xor(j << 8, k << 8)
  {
    calc {
      Xor(j, k) << 8;
      { XorIs(j, k); }
      (j ^ k) << 8;
      { ShiftXor(j, k); }
      (j << 8) ^ (k << 8);
      { XorIs(j << 8, k << 8); }
      Xor(j << 8, k << 8);
    }
  }

  lemma Shift10(j: bv32, k: bv32)
    ensures Xor(j, k) << 10 == Xor(j << 10, k << 10)
  {
    calc {
      Xor(j, k) << 10;
      { XorIs(j, k); }
      (j ^ k) << 10;
      { ShiftXor(j, k); }
      (j << 10) ^ (k << 10);
      { XorIs(j << 10, k << 10); }
      Xor(j << 10, k << 10);
    }
  }

  lemma Shift11(j: bv32, k: bv32)
    ensures Xor(j, k) << 11 == Xor(j << 11, k << 11)
  {
    calc {
      Xor(j, k) << 11;
      { XorIs(j, k); }
      (j ^ k) << 11;
      { ShiftXor(j, k); }
      (j << 11) ^ (k << 11);
      { XorIs(j << 11, k << 11); }
      Xor(j << 11, k << 11);
    }
  }

  lemma Shift13(j: bv32, k: bv32)
    ensures Xor(j, k) << 13 == Xor(j << 13, k << 13)
  {
    calc {
      Xor(j, k) << 13;
      { XorIs(j, k); }
      (j ^ k) << 13;
      { ShiftXor(j, k); }
      (j << 13) ^ (k << 13);
      { XorIs(j << 13, k << 13); }
      Xor(j << 13, k << 13);
    }
  }

  /** The terms of the entries of j and k join to those of the entry of j ^ k. */
  lemma TermsXor(j: bv32, k: bv32)
    ensures Block0.Q9Terms(Xor(j, k)) == Xor(Block0.Q9Terms(j), Block0.Q9Terms(k))
  {
    hide Xor;
    Shift1(j, k);
    Shift2(j, k);
    Shift5(j, k);
    Shift7(j, k);
    Shift8(j, k);
    Shift10(j, k);
    Shift11(j, k);
    Shift13(j, k);
    var j2, k2 := Xor(j << 1, j << 2), Xor(k << 1, k << 2);
    var j3, k3 := Xor(j2, j << 5), Xor(k2, k << 5);
    var j4, k4 := Xor(j3, j << 7), Xor(k3, k << 7);
    var j5, k5 := Xor(j4, j << 8), Xor(k4, k << 8);
    var j6, k6 := Xor(j5, j << 10), Xor(k5, k << 10);
    var j7, k7 := Xor(j6, j << 11), Xor(k6, k << 11);
    Shuffle(j << 1, k << 1, j << 2, k << 2);
    Shuffle(j2, k2, j << 5, k << 5);
    Shuffle(j3, k3, j << 7, k << 7);
    Shuffle(j4, k4, j << 8, k << 8);
    Shuffle(j5, k5, j << 10, k << 10);
    Shuffle(j6, k6, j << 11, k << 11);
    Shuffle(j7, k7, j << 13, k << 13);
  }

  lemma EmptyEntry(d: bv32)
    requires d < 65536 && Block0.Q9Mask(d) == 0
    ensures d == 0
  {}

  /** The 65536 entries of the table for Q9 are different: the scan tries no value twice. */
  lemma Q9Once(j: bv32, k: bv32)
    requires j < 65536 && k < 65536 && Block0.Q9Mask(j) == Block0.Q9Mask(k)
    ensures j == k
  {
    hide Block0.Q9Terms, Xor;
    TermsXor(j, k);
    EqualParts(Block0.Q9Terms(j), Block0.Q9Terms(k));
    SmallXor(j, k);
    EmptyEntry(Xor(j, k));
  }

  lemma EqualParts(x: bv32, y: bv32)
    requires x & 0x0eb94f16 == y & 0x0eb94f16
    ensures Xor(x, y) & 0x0eb94f16 == 0
  {}

  lemma SmallXor(j: bv32, k: bv32)
    requires j < 65536 && k < 65536
    ensures Xor(j, k) < 65536
    ensures Xor(j, k) == 0 <==> j == k
  {
    hide Xor;
    XorIs(j, k);
    SmallRaw(j, k);
    ZeroRaw(j, k);
  }

  lemma SmallRaw(j: bv32, k: bv32)
    requires j < 65536 && k < 65536
    ensures j ^ k < 65536
  {}

  lemma ZeroRaw(j: bv32, k: bv32) ensures j ^ k == 0 <==> j == k {}

  // ---------------------------------------------------------------- the other loops

  lemma Q4Once(j: bv32, k: bv32)
    requires j < 16 && k < 16 && Block0.Q4Mask(j) == Block0.Q4Mask(k)
    ensures j == k
  {}

  lemma WangQ4Once(j: bv32, k: bv32)
    requires j < 64 && k < 64 && Block1.Q4Mask(j) == Block1.Q4Mask(k)
    ensures j == k
  {}

  lemma ScanOnceWang(j: bv32, k: bv32)
    requires j < 1024 && k < 1024 && Q9Scan(Wang, j) == Q9Scan(Wang, k)
    ensures j == k
  {}

  lemma ScanOnceS00(j: bv32, k: bv32)
    requires j < 512 && k < 512 && Q9Scan(S00, j) == Q9Scan(S00, k)
    ensures j == k
  {}

  lemma ScanOnceS01(j: bv32, k: bv32)
    requires j < 512 && k < 512 && Q9Scan(S01, j) == Q9Scan(S01, k)
    ensures j == k
  {}

  lemma ScanOnceS10(j: bv32, k: bv32)
    requires j < 1024 && k < 1024 && Q9Scan(S10, j) == Q9Scan(S10, k)
    ensures j == k
  {}

  lemma ScanOnceS11(j: bv32, k: bv32)
    requires j < 512 && k < 512 && Q9Scan(S11, j) == Q9Scan(S11, k)
    ensures j == k
  {}

  /** The change of the loop counter that changes neither Q9 nor Q10, if there is one. */
  function Idle(v: Variant): bv32 {
    if v == S10 then 8 else if v == S11 then 13 else 0
  }

  /** The bits of the two masks that a choice can really change. */
  function Live9(v: Variant): bv32 { if v == S10 then 0x200 else Mask9(v) }

  function Live10(v: Variant): bv32 { if v == S11 then 0x08000000 else Mask10(v) }

  predicate Agree(c: bv32, d: bv32, bits: bv32) { Part(c, bits) == Part(d, bits) }

  lemma XorCancels(x: bv32, p: bv32, q: bv32) ensures Xor(x, p) == Xor(x, q) <==> p == q {}

  lemma OrIs(x: bv32, y: bv32) ensures Or(x, y) == x | y {}

  lemma AndNotIs(x: bv32, y: bv32) ensures AndNot(x, y) == x & !y {}

  lemma RestRaw(x: bv32, p: bv32)
    ensures (x | p) & !x == p & !x
    ensures x | (p & !x) == x | p
  {}

  lemma OrRest(x: bv32, p: bv32)
    ensures AndNot(Or(x, p), x) == AndNot(p, x)
  {
    hide Or, AndNot;
    OrIs(x, p);
    AndNotIs(x | p, x);
    AndNotIs(p, x);
    RestRaw(x, p);
  }

  lemma OrOfRest(x: bv32, p: bv32)
    ensures Or(x, AndNot(p, x)) == Or(x, p)
  {
    hide Or, AndNot;
    AndNotIs(p, x);
    OrIs(x, p & !x);
    OrIs(x, p);
    RestRaw(x, p);
  }

  lemma OrCancels(x: bv32, p: bv32, q: bv32)
    ensures Or(x, p) == Or(x, q) <==> AndNot(p, x) == AndNot(q, x)
  {
    hide Or, AndNot;
    OrRest(x, p);
    OrRest(x, q);
    OrOfRest(x, p);
    OrOfRest(x, q);
  }

  lemma PartOfRest(c: bv32, m: bv32, x: bv32)
    ensures AndNot(Part(c, m), x) == Part(c, AndNot(m, x))
  {
    assert (c & m) & !x == c & (m & !x);
  }

  lemma SameValue(v: Variant, x: Word, c: bv32, d: bv32, m: bv32, live: bv32)
    requires live == if v == Wang then m else AndNot(m, x.v)
    ensures Chosen(v, x, Part(c, m)) == Chosen(v, x, Part(d, m)) <==> Agree(c, d, live)
  {
    hide Or, Xor, Part, AndNot;
    if v == Wang {
      XorCancels(x.v, Part(c, m), Part(d, m));
    } else {
      OrCancels(x.v, Part(c, m), Part(d, m));
      PartOfRest(c, m, x.v);
      PartOfRest(d, m, x.v);
    }
  }

  lemma LiveBits(v: Variant, q9: Word, q10: Word)
    requires v != Wang && DrawnForChoices(v, q9, q10)
    ensures AndNot(Mask9(v), q9.v) == Live9(v) && AndNot(Mask10(v), q10.v) == Live10(v)
  {}

  lemma ChangesDiffer(v: Variant, j: bv32, k: bv32)
    requires j < 32 && k < 32 && (v == S00 ==> j < 8 && k < 8) && (v == S10 ==> j < 16 && k < 16)
    ensures Agree(Choice(v, j), Choice(v, k), Live9(v)) && Agree(Choice(v, j), Choice(v, k), Live10(v))
        <==> j == k || j ^ k == Idle(v)
  {
    match v
    case Wang =>
    case S00 =>
    case S01 =>
    case S10 =>
    case S11 =>
  }

  /** Two choices give the same Q9 and Q10 exactly if their numbers differ in the idle pattern: the Wang, 00 and 01
      searches try every choice once, the 10 and 11 searches try every choice twice. */
  lemma ChoicesDiffer(v: Variant, q9: Word, q10: Word, j: bv32, k: bv32)
    requires j < 32 && k < 32 && (v == S00 ==> j < 8 && k < 8) && (v == S10 ==> j < 16 && k < 16)
    requires v != Wang ==> DrawnForChoices(v, q9, q10)
    ensures (Chosen(v, q9, Part(Choice(v, j), Mask9(v))) == Chosen(v, q9, Part(Choice(v, k), Mask9(v)))
          && Chosen(v, q10, Part(Choice(v, j), Mask10(v))) == Chosen(v, q10, Part(Choice(v, k), Mask10(v))))
        <==> j == k || j ^ k == Idle(v)
  {
    hide Choice, Chosen, Part, Mask9, Mask10, Agree, Live9, Live10, AndNot, Idle;
    if v == Wang {
      LiveWang();
    } else {
      LiveBits(v, q9, q10);
    }
    ChangesDiffer(v, j, k);
    SameValue(v, q9, Choice(v, j), Choice(v, k), Mask9(v), Live9(v));
    SameValue(v, q10, Choice(v, j), Choice(v, k), Mask10(v), Live10(v));
  }

  lemma LiveWang() ensures Live9(Wang) == Mask9(Wang) && Live10(Wang) == Mask10(Wang) {}

  /** So it is in every run: whenever a search reaches the loop over Q9 and Q10, two turns of it place the same Q9 and
      Q10 exactly if their numbers are equal or differ in the idle pattern. */
  lemma TurnsDiffer(v: Variant, iv: Regs, q: seq<Word>, block: Block, q9: Word, q10: Word, j: nat, k: nat)
    requires Outer(v, iv, q, block, q9, q10) && j < ChoiceCount(v) && k < ChoiceCount(v)
    ensures Q9Of(v, q9, j) == Q9Of(v, q9, k) && Q10Of(v, q10, j) == Q10Of(v, q10, k)
        <==> j == k || Differ(j as bv32, k as bv32, Idle(v))
  {
    hide Choice, Chosen, Part, Mask9, Mask10, Idle, DrawnForChoices, Outer, Differ, ChoiceCount, Q9Of, Q10Of;
    OuterDrawn(v, iv, q, block, q9, q10);
    BitsBelow(v, j);
    BitsBelow(v, k);
    SameBits(j, k);
    PlacedIs(v, q9, q10, j);
    PlacedIs(v, q9, q10, k);
    DifferIs(j as bv32, k as bv32, Idle(v));
    ChoicesDiffer(v, q9, q10, j as bv32, k as bv32);
  }

  lemma PlacedIs(v: Variant, q9: Word, q10: Word, j: nat)
    requires j < 32
    ensures Q9Of(v, q9, j) == Chosen(v, q9, Part(Choice(v, j as bv32), Mask9(v)))
    ensures Q10Of(v, q10, j) == Chosen(v, q10, Part(Choice(v, j as bv32), Mask10(v)))
  {}

  predicate Differ(j: bv32, k: bv32, pattern: bv32) { j ^ k == pattern }

  lemma DifferIs(j: bv32, k: bv32, pattern: bv32) ensures Differ(j, k, pattern) <==> j ^ k == pattern {}

  lemma OuterDrawn(v: Variant, iv: Regs, q: seq<Word>, block: Block, q9: Word, q10: Word)
    requires Outer(v, iv, q, block, q9, q10)
    ensures v != Wang ==> DrawnForChoices(v, q9, q10)
  {
    hide Fits, RowOf, DrawnForChoices, RoomToScan, Changed, Mask9, Mask10;
  }

  lemma BitsBack(j: nat) requires j < 32 ensures (j as bv32) as nat == j {}

  lemma BitsBelow32(j: nat) requires j < 32 ensures (j as bv32) < 32 {}

  lemma BitsBelow16(j: nat) requires j < 16 ensures (j as bv32) < 16 {}

  lemma BitsBelow8(j: nat) requires j < 8 ensures (j as bv32) < 8 {}

  lemma SameBits(j: nat, k: nat)
    requires j < 32 && k < 32
    ensures (j as bv32) == (k as bv32) <==> j == k
  {
    if j as bv32 == k as bv32 {
      BitsBack(j);
      BitsBack(k);
    }
  }

  lemma BitsBelow(v: Variant, j: nat)
    requires j < ChoiceCount(v)
    ensures j < 32 && (j as bv32) < 32 && (v == S00 ==> (j as bv32) < 8) && (v == S10 ==> (j as bv32) < 16)
  {
    BitsBelow32(j);
    if v == S00 {
      BitsBelow8(j);
    } else if v == S10 {
      BitsBelow16(j);
    }
  }
}
