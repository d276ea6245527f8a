/** The fixed layout of a serialized state. */
module Serializer {
  import opened Common
  import opened Types
  import opened States

  /** A signed 32-bit integer cast to an unsigned one. */
  function Unsigned(x: I32): (r: U32)
    ensures r == x || r == x + 0x1_0000_0000
  {
    if x < 0 then x + 0x1_0000_0000 else x
  }

  function BoolByte(b: bool): U8 { if b then 1 else 0 }

  // ---------------------------------------------------------------- the pieces of the layout

  function HoldPiece(h: ActiveHold): (b: seq<U8>)
    ensures |b| == 6
  {
    [BoolByte(h.present)] + Le(if h.present then h.endTick else 0, 4) + [if h.present then h.strength else 0]
  }

  function SlidePiece(h: ActiveSlide): (b: seq<U8>)
    ensures |b| == 7
  {
    [BoolByte(h.present)] + Le(if h.present then h.endTick else 0, 4)
    + [if h.present then h.targetLane else 0, if h.present then h.pathId else 0]
  }

  function TapPiece(h: LatestTap): (b: seq<U8>)
    ensures |b| == 2
  {
    [BoolByte(h.present), if h.present then h.strength else 0]
  }

  function BreakPiece(h: LatestBreak): (b: seq<U8>)
    ensures |b| == 3
  {
    [BoolByte(h.present), if h.present then h.strength else 0, if h.present then h.flashFrames else 0]
  }

  function TouchPiece(h: LatestTouch): (b: seq<U8>)
    ensures |b| == 3
  {
    [BoolByte(h.present), BoolByte(h.present && h.hold), if h.present then h.strength else 0]
  }

  function PhaseOf(phase: bv64): U64 { phase as int }

  function HeadPiece(s: State): (b: seq<U8>)
    ensures |b| == 20
  {
    ['M' as int, 'M' as int, 'S' as int, '9' as int, 1, 0, 0, 0] + Le(Unsigned(s.speed), 4) + Le(Unsigned(s.rotation), 4)
    + [s.mirror, s.alpha, s.assetSlot, s.assetMode]
  }

  function TailPiece(s: State): (b: seq<U8>)
    ensures |b| == 13
  {
    Le(s.warningCount, 4) + [s.latestWarningSeverity] + Le(PhaseOf(s.phase), 8)
  }

  /** Every piece has a fixed place: 1 + 8 + 33 + 1 + 8 + 8 + 8 + 8 + 33 + 33 + 1 of them. */
  function PieceAt(s: State, k: nat): seq<U8>
    requires Sized(s) && k < 142
  {
    if k == 0 then HeadPiece(s)
    else if k < 9 then Le(s.energy[k - 1], 2)
    else if k < 42 then Le(s.touchEnergy[k - 9], 2)
    else if k == 42 then [s.breakRemaining]
    else if k < 51 then HoldPiece(s.holds[k - 43])
    else if k < 59 then SlidePiece(s.slides[k - 51])
    else if k < 67 then TapPiece(s.taps[k - 59])
    else if k < 75 then BreakPiece(s.breaks[k - 67])
    else if k < 108 then HoldPiece(s.touchHolds[k - 75])
    else if k < 141 then TouchPiece(s.touches[k - 108])
    else TailPiece(s)
  }

  function WidthAt(k: nat): nat {
    if k == 0 then 20
    else if k < 42 then 2
    else if k == 42 then 1
    else if k < 51 then 6
    else if k < 59 then 7
    else if k < 67 then 2
    else if k < 75 then 3
    else if k < 108 then 6
    else if k < 141 then 3
    else 13
  }

  lemma WidthOfPiece(s: State, k: nat)
    requires Sized(s) && k < 142
    ensures |PieceAt(s, k)| == WidthAt(k)
  {
    hide Le, HoldPiece, SlidePiece, TapPiece, BreakPiece, TouchPiece, HeadPiece, TailPiece;
  }

  /** Where piece k starts. */
  function Start(k: nat): nat
    requires k <= 142
  {
    if k == 0 then 0
    else if k <= 42 then 18 + 2 * k
    else if k <= 51 then 103 + 6 * (k - 43)
    else if k <= 59 then 151 + 7 * (k - 51)
    else if k <= 67 then 207 + 2 * (k - 59)
    else if k <= 75 then 223 + 3 * (k - 67)
    else if k <= 108 then 247 + 6 * (k - 75)
    else if k <= 141 then 445 + 3 * (k - 108)
    else 557
  }

  lemma StartNext(k: nat)
    requires k < 142
    ensures Start(k + 1) == Start(k) + WidthAt(k)
  {}

  /** The first n pieces. */
  function Pieces(s: State, n: nat): (b: seq<U8>)
    requires Sized(s) && n <= 142
    ensures |b| == Start(n)
  {
    if n == 0 then []
    else
      StartNext(n - 1);
      WidthOfPiece(s, n - 1);
      Pieces(s, n - 1) + PieceAt(s, n - 1)
  }

  function Serialize(s: State): (b: seq<U8>)
    requires Sized(s)
    ensures |b| == 557
  {
    Pieces(s, 142)
  }

  // ---------------------------------------------------------------- writing it into the buffer

  class Writer {
    const bytes: array<U8>
    var offset: nat

    constructor (bytes: array<U8>)
      ensures this.bytes == bytes && offset == 0
    {
      this.bytes, offset := bytes, 0;
    }

    method AppendByte(value: U8)
      requires offset < bytes.Length
      modifies bytes, this`offset
      ensures offset == old(offset) + 1 && bytes[..offset] == old(bytes[..offset]) + [value]
    {
      bytes[offset] := value;
      offset := offset + 1;
    }

    /** append_u16, append_u32 and append_u64. */
    method AppendLe(x: nat, width: nat)
      requires offset + width <= bytes.Length
      modifies bytes, this`offset
      ensures offset == old(offset) + width && bytes[..offset] == old(bytes[..offset]) + Le(x, width)
    {
      var value := x;
      for i := 0 to width
        invariant offset == old(offset) + i
        invariant bytes[..offset] + Le(value, width - i) == old(bytes[..offset]) + Le(x, width)
      {
        ghost var before, rest := bytes[..offset], Le(value, width - i);
        assert rest == [value % 256] + Le(value / 256, width - i - 1);
        AppendByte(value % 256);
        value := value / 256;
        assert bytes[..offset] + Le(value, width - i - 1) == before + rest;
      }
    }

    method AppendHold(h: ActiveHold)
      requires offset + 6 <= bytes.Length
      modifies bytes, this`offset
      ensures offset == old(offset) + 6 && bytes[..offset] == old(bytes[..offset]) + HoldPiece(h)
    {
      hide Le;
      AppendByte(if h.present then 1 else 0);
      AppendLe(if h.present then h.endTick else 0, 4);
      AppendByte(if h.present then h.strength else 0);
    }

    method AppendSlide(h: ActiveSlide)
      requires offset + 7 <= bytes.Length
      modifies bytes, this`offset
      ensures offset == old(offset) + 7 && bytes[..offset] == old(bytes[..offset]) + SlidePiece(h)
    {
      hide Le;
      AppendByte(if h.present then 1 else 0);
      AppendLe(if h.present then h.endTick else 0, 4);
      AppendByte(if h.present then h.targetLane else 0);
      AppendByte(if h.present then h.pathId else 0);
    }

    method AppendHead(s: State)
      requires offset + 20 <= bytes.Length
      modifies bytes, this`offset
      ensures offset == old(offset) + 20 && bytes[..offset] == old(bytes[..offset]) + HeadPiece(s)
    {
      hide Le;
      AppendMagic();
      AppendLe(Unsigned(s.speed), 4);
      AppendLe(Unsigned(s.rotation), 4);
      AppendFour(s.mirror, s.alpha, s.assetSlot, s.assetMode);
    }

    method AppendFour(x: U8, y: U8, z: U8, t: U8)
      requires offset + 4 <= bytes.Length
      modifies bytes, this`offset
      ensures offset == old(offset) + 4 && bytes[..offset] == old(bytes[..offset]) + [x, y, z, t]
    {
      AppendByte(x);
      AppendByte(y);
      AppendByte(z);
      AppendByte(t);
    }

    method AppendMagic()
      requires offset + 8 <= bytes.Length
      modifies bytes, this`offset
      ensures offset == old(offset) + 8
      ensures bytes[..offset] == old(bytes[..offset]) + ['M' as int, 'M' as int, 'S' as int, '9' as int, 1, 0, 0, 0]
    {
      var magic: seq<U8> := ['M' as int, 'M' as int, 'S' as int, '9' as int, 1, 0, 0, 0];
      for i := 0 to 8
        invariant offset == old(offset) + i && bytes[..offset] == old(bytes[..offset]) + magic[..i]
      {
        AppendByte(magic[i]);
      }
    }

    method AppendTail(s: State)
      requires offset + 13 <= bytes.Length
      modifies bytes, this`offset
      ensures offset == old(offset) + 13 && bytes[..offset] == old(bytes[..offset]) + TailPiece(s)
    {
      hide Le, PhaseOf;
      AppendLe(s.warningCount, 4);
      AppendByte(s.latestWarningSeverity);
      AppendLe(PhaseOf(s.phase), 8);
    }

    /** The loops over the small records. */
    method AppendEntry(s: State, k: nat)
      requires Sized(s) && 59 <= k < 141 && !(75 <= k < 108) && offset + WidthAt(k) <= bytes.Length
      modifies bytes, this`offset
      ensures offset == old(offset) + WidthAt(k) && bytes[..offset] == old(bytes[..offset]) + PieceAt(s, k)
    {
      if k < 67 {
        var h := s.taps[k - 59];
        AppendByte(if h.present then 1 else 0);
        AppendByte(if h.present then h.strength else 0);
      } else if k < 75 {
        var h := s.breaks[k - 67];
        AppendByte(if h.present then 1 else 0);
        AppendByte(if h.present then h.strength else 0);
        AppendByte(if h.present then h.flashFrames else 0);
      } else {
        var h := s.touches[k - 108];
        AppendByte(if h.present then 1 else 0);
        AppendByte(if h.present && h.hold then 1 else 0);
        AppendByte(if h.present then h.strength else 0);
      }
    }

    method AppendPiece(s: State, k: nat)
      requires Sized(s) && k < 142 && offset + WidthAt(k) <= bytes.Length
      modifies bytes, this`offset
      ensures offset == old(offset) + WidthAt(k) && bytes[..offset] == old(bytes[..offset]) + PieceAt(s, k)
    {
      hide Le, HoldPiece, SlidePiece, TapPiece, BreakPiece, TouchPiece, HeadPiece, TailPiece;
      if k == 0 {
        AppendHead(s);
      } else if k < 9 {
        AppendLe(s.energy[k - 1], 2);
      } else if k < 42 {
        AppendLe(s.touchEnergy[k - 9], 2);
      } else if k == 42 {
        AppendByte(s.breakRemaining);
      } else if k < 51 {
        AppendHold(s.holds[k - 43]);
      } else if k < 59 {
        AppendSlide(s.slides[k - 51]);
      } else if 75 <= k < 108 {
        AppendHold(s.touchHolds[k - 75]);
      } else if k < 141 {
        AppendEntry(s, k);
      } else {
        AppendTail(s);
      }
    }
  }

  /** serialize_state_into: the buffer is filled exactly. */
  method SerializeStateInto(s: State, bytes: array<U8>)
    requires Sized(s) && bytes.Length == 557
    modifies bytes
    ensures bytes[..] == Serialize(s)
  {
    hide PieceAt, WidthAt;
    var w := new Writer(bytes);
    for k := 0 to 142
      invariant w.offset == Start(k) && w.bytes[..w.offset] == Pieces(s, k)
    {
      StartNext(k);
      StartBound(k + 1);
      w.AppendPiece(s, k);
    }
  }

  lemma StartBound(k: nat)
    requires k <= 142
    ensures Start(k) <= 557
  {}

  // ---------------------------------------------------------------- what the bytes determine

  function CanonHold(h: ActiveHold): ActiveHold { if h.present then h else ActiveHold(false, 0, 0) }

  function CanonSlide(h: ActiveSlide): ActiveSlide { if h.present then h else ActiveSlide(false, 0, 0, 0) }

  function CanonTap(h: LatestTap): LatestTap { if h.present then h else LatestTap(false, 0) }

  function CanonBreak(h: LatestBreak): LatestBreak { if h.present then h else LatestBreak(false, 0, 0) }

  function CanonTouch(h: LatestTouch): LatestTouch { if h.present then h else LatestTouch(false, false, 0) }

  /** The states agree in everything but the payload of absent entries. */
  ghost predicate SameState(s: State, t: State)
    requires Sized(s) && Sized(t)
  {
    && s.speed == t.speed && s.rotation == t.rotation && s.mirror == t.mirror && s.alpha == t.alpha
    && s.assetSlot == t.assetSlot && s.assetMode == t.assetMode
    && s.energy == t.energy && s.touchEnergy == t.touchEnergy && s.breakRemaining == t.breakRemaining
    && (forall k :: 0 <= k < 8 ==> CanonHold(s.holds[k]) == CanonHold(t.holds[k]))
    && (forall k :: 0 <= k < 8 ==> CanonSlide(s.slides[k]) == CanonSlide(t.slides[k]))
    && (forall k :: 0 <= k < 8 ==> CanonTap(s.taps[k]) == CanonTap(t.taps[k]))
    && (forall k :: 0 <= k < 8 ==> CanonBreak(s.breaks[k]) == CanonBreak(t.breaks[k]))
    && (forall k :: 0 <= k < SensorCount ==> CanonHold(s.touchHolds[k]) == CanonHold(t.touchHolds[k]))
    && (forall k :: 0 <= k < SensorCount ==> CanonTouch(s.touches[k]) == CanonTouch(t.touches[k]))
    && s.warningCount == t.warningCount && s.latestWarningSeverity == t.latestWarningSeverity && s.phase == t.phase
  }

  lemma SplitEqual(a: seq<U8>, b: seq<U8>, c: seq<U8>, d: seq<U8>)
    requires |a| == |c| && a + b == c + d
    ensures a == c && b == d
  {
    assert (a + b)[..|a|] == a && (c + d)[..|c|] == c;
    assert (a + b)[|a|..] == b && (c + d)[|c|..] == d;
  }

  lemma {:induction false} PiecesEqual(s: State, t: State, n: nat)
    requires Sized(s) && Sized(t) && n <= 142 && Pieces(s, n) == Pieces(t, n)
    ensures forall k :: 0 <= k < n ==> PieceAt(s, k) == PieceAt(t, k)
  {
    hide PieceAt, Start;
    if n > 0 {
      SplitEqual(Pieces(s, n - 1), PieceAt(s, n - 1), Pieces(t, n - 1), PieceAt(t, n - 1));
      PiecesEqual(s, t, n - 1);
    }
  }

  lemma {:induction false} PiecesSame(s: State, t: State, n: nat)
    requires Sized(s) && Sized(t) && n <= 142 && forall k :: 0 <= k < n ==> PieceAt(s, k) == PieceAt(t, k)
    ensures Pieces(s, n) == Pieces(t, n)
  {
    hide PieceAt, Start;
    if n > 0 {
      PiecesSame(s, t, n - 1);
    }
  }

  lemma HoldPieceEqual(g: ActiveHold, h: ActiveHold)
    ensures HoldPiece(g) == HoldPiece(h) <==> CanonHold(g) == CanonHold(h)
  {
    hide Le;
    if HoldPiece(g) == HoldPiece(h) {
      assert HoldPiece(g)[0] == HoldPiece(h)[0] && HoldPiece(g)[5] == HoldPiece(h)[5];
      assert HoldPiece(g)[1..5] == HoldPiece(h)[1..5];
      Powers();
      LeInjective(if g.present then g.endTick else 0, if h.present then h.endTick else 0, 4);
    }
  }

  lemma SlidePieceEqual(g: ActiveSlide, h: ActiveSlide)
    ensures SlidePiece(g) == SlidePiece(h) <==> CanonSlide(g) == CanonSlide(h)
  {
    hide Le;
    if SlidePiece(g) == SlidePiece(h) {
      assert SlidePiece(g)[0] == SlidePiece(h)[0] && SlidePiece(g)[5] == SlidePiece(h)[5];
      assert SlidePiece(g)[6] == SlidePiece(h)[6] && SlidePiece(g)[1..5] == SlidePiece(h)[1..5];
      Powers();
      LeInjective(if g.present then g.endTick else 0, if h.present then h.endTick else 0, 4);
    }
  }

  lemma SmallPiecesEqual(a: LatestTap, b: LatestTap, c: LatestBreak, d: LatestBreak, e: LatestTouch, f: LatestTouch)
    ensures TapPiece(a) == TapPiece(b) <==> CanonTap(a) == CanonTap(b)
    ensures BreakPiece(c) == BreakPiece(d) <==> CanonBreak(c) == CanonBreak(d)
    ensures TouchPiece(e) == TouchPiece(f) <==> CanonTouch(e) == CanonTouch(f)
  {
    assert TapPiece(a) == TapPiece(b) ==> TapPiece(a)[0] == TapPiece(b)[0] && TapPiece(a)[1] == TapPiece(b)[1];
    assert BreakPiece(c) == BreakPiece(d) ==>
      BreakPiece(c)[0] == BreakPiece(d)[0] && BreakPiece(c)[1] == BreakPiece(d)[1] && BreakPiece(c)[2] == BreakPiece(d)[2];
    assert TouchPiece(e) == TouchPiece(f) ==>
      TouchPiece(e)[0] == TouchPiece(f)[0] && TouchPiece(e)[1] == TouchPiece(f)[1] && TouchPiece(e)[2] == TouchPiece(f)[2];
  }

  lemma EnergyPieceEqual(x: U16, y: U16)
    ensures Le(x, 2) == Le(y, 2) <==> x == y
  {
    Powers();
    if Le(x, 2) == Le(y, 2) {
      LeInjective(x, y, 2);
    }
  }

  ghost predicate SameHead(s: State, t: State) {
    && s.speed == t.speed && s.rotation == t.rotation && s.mirror == t.mirror && s.alpha == t.alpha
    && s.assetSlot == t.assetSlot && s.assetMode == t.assetMode
  }

  lemma HeadPieceEqual(s: State, t: State)
    ensures HeadPiece(s) == HeadPiece(t) <==> SameHead(s, t)
  {
    hide Le;
    var a, b := HeadPiece(s), HeadPiece(t);
    if a == b {
      assert a[8..12] == b[8..12] && a[12..16] == b[12..16];
      assert a[16] == b[16] && a[17] == b[17] && a[18] == b[18] && a[19] == b[19];
      assert a[8..12] == Le(Unsigned(s.speed), 4) && b[8..12] == Le(Unsigned(t.speed), 4);
      assert a[12..16] == Le(Unsigned(s.rotation), 4) && b[12..16] == Le(Unsigned(t.rotation), 4);
      Powers();
      LeInjective(Unsigned(s.speed), Unsigned(t.speed), 4);
      LeInjective(Unsigned(s.rotation), Unsigned(t.rotation), 4);
    }
  }

  lemma PhaseInjective(x: bv64, y: bv64)
    requires PhaseOf(x) == PhaseOf(y)
    ensures x == y
  {
    assert PhaseOf(x) as bv64 == x && PhaseOf(y) as bv64 == y;
  }

  lemma TailPieceEqual(s: State, t: State)
    ensures TailPiece(s) == TailPiece(t) <==>
      s.warningCount == t.warningCount && s.latestWarningSeverity == t.latestWarningSeverity && s.phase == t.phase
  {
    hide Le, PhaseOf;
    var a, b := TailPiece(s), TailPiece(t);
    if a == b {
      assert a[0..4] == b[0..4] && a[4] == b[4] && a[5..13] == b[5..13];
      assert a[0..4] == Le(s.warningCount, 4) && b[0..4] == Le(t.warningCount, 4);
      assert a[5..13] == Le(PhaseOf(s.phase), 8) && b[5..13] == Le(PhaseOf(t.phase), 8);
      Powers();
      LeInjective(s.warningCount, t.warningCount, 4);
      LeInjective(PhaseOf(s.phase), PhaseOf(t.phase), 8);
      PhaseInjective(s.phase, t.phase);
    }
  }

  /** Two states have the same bytes exactly if they agree in everything but the payload of absent entries. */
  lemma SameBytes(s: State, t: State)
    requires Sized(s) && Sized(t)
    ensures Serialize(s) == Serialize(t) <==> SameState(s, t)
  {
    if Serialize(s) == Serialize(t) {
      BytesDetermine(s, t);
    }
    if SameState(s, t) {
      forall k | 0 <= k < 142
        ensures PieceAt(s, k) == PieceAt(t, k)
      {
        SamePiece(s, t, k);
      }
      PiecesSame(s, t, 142);
    }
  }

  lemma SamePiece(s: State, t: State, k: nat)
    requires Sized(s) && Sized(t) && SameState(s, t) && k < 142
    ensures PieceAt(s, k) == PieceAt(t, k)
  {
    hide Le;
  }

  lemma BytesDetermine(s: State, t: State)
    requires Sized(s) && Sized(t) && Serialize(s) == Serialize(t)
    ensures SameState(s, t)
  {
    hide Le, HoldPiece, SlidePiece, TapPiece, BreakPiece, TouchPiece, HeadPiece, TailPiece;
    PiecesEqual(s, t, 142);
    assert PieceAt(s, 0) == PieceAt(t, 0) && PieceAt(s, 42) == PieceAt(t, 42) && PieceAt(s, 141) == PieceAt(t, 141);
    HeadPieceEqual(s, t);
    TailPieceEqual(s, t);
    assert [s.breakRemaining][0] == [t.breakRemaining][0];
    LaneEntries(s, t);
    SensorEntries(s, t);
  }

  lemma LaneEntries(s: State, t: State)
    requires Sized(s) && Sized(t) && forall k :: 0 <= k < 142 ==> PieceAt(s, k) == PieceAt(t, k)
    ensures s.energy == t.energy
    ensures forall k :: 0 <= k < 8 ==>
      && CanonHold(s.holds[k]) == CanonHold(t.holds[k]) && CanonSlide(s.slides[k]) == CanonSlide(t.slides[k])
      && CanonTap(s.taps[k]) == CanonTap(t.taps[k]) && CanonBreak(s.breaks[k]) == CanonBreak(t.breaks[k])
  {
    hide Le, HoldPiece, SlidePiece, TapPiece, BreakPiece, TouchPiece, HeadPiece, TailPiece;
    forall k | 0 <= k < 8
      ensures s.energy[k] == t.energy[k]
      ensures CanonHold(s.holds[k]) == CanonHold(t.holds[k]) && CanonSlide(s.slides[k]) == CanonSlide(t.slides[k])
      ensures CanonTap(s.taps[k]) == CanonTap(t.taps[k]) && CanonBreak(s.breaks[k]) == CanonBreak(t.breaks[k])
    {
      assert PieceAt(s, k + 1) == PieceAt(t, k + 1) && PieceAt(s, k + 43) == PieceAt(t, k + 43);
      assert PieceAt(s, k + 51) == PieceAt(t, k + 51) && PieceAt(s, k + 59) == PieceAt(t, k + 59);
      assert PieceAt(s, k + 67) == PieceAt(t, k + 67);
      EnergyPieceEqual(s.energy[k], t.energy[k]);
      HoldPieceEqual(s.holds[k], t.holds[k]);
      SlidePieceEqual(s.slides[k], t.slides[k]);
      SmallPiecesEqual(s.taps[k], t.taps[k], s.breaks[k], t.breaks[k], s.touches[k], t.touches[k]);
    }
  }

  lemma SensorEntries(s: State, t: State)
    requires Sized(s) && Sized(t) && forall k :: 0 <= k < 142 ==> PieceAt(s, k) == PieceAt(t, k)
    ensures s.touchEnergy == t.touchEnergy
    ensures forall k :: 0 <= k < SensorCount ==>
      && CanonHold(s.touchHolds[k]) == CanonHold(t.touchHolds[k])
      && CanonTouch(s.touches[k]) == CanonTouch(t.touches[k])
  {
    hide Le, HoldPiece, SlidePiece, TapPiece, BreakPiece, TouchPiece, HeadPiece, TailPiece;
    forall k | 0 <= k < SensorCount
      ensures s.touchEnergy[k] == t.touchEnergy[k]
      ensures CanonHold(s.touchHolds[k]) == CanonHold(t.touchHolds[k])
      ensures CanonTouch(s.touches[k]) == CanonTouch(t.touches[k])
    {
      assert PieceAt(s, k + 9) == PieceAt(t, k + 9) && PieceAt(s, k + 75) == PieceAt(t, k + 75);
      assert PieceAt(s, k + 108) == PieceAt(t, k + 108);
      EnergyPieceEqual(s.touchEnergy[k], t.touchEnergy[k]);
      HoldPieceEqual(s.touchHolds[k], t.touchHolds[k]);
      SmallPiecesEqual(s.taps[0], t.taps[0], s.breaks[0], t.breaks[0], s.touches[k], t.touches[k]);
    }
  }
}
