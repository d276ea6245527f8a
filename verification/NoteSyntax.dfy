/** What the text of a note says: the parser accepts exactly the texts below, with exactly these meanings. */
module NoteSyntax {
  import opened Common
  import opened Types
  import opened Text
  import opened Simai

  // ---------------------------------------------------------------- durations

  predicate CommonFactor(a: nat, b: nat, k: nat) { k > 1 && a % k == 0 && b % k == 0 }

  lemma Multiple(k: nat, m: int)
    requires k > 0
    ensures (k * m) % k == 0 && (k * m) / k == m
  {
    QuotientIs(k * m, k, m, 0);
  }

  /** The step of the Euclidean algorithm keeps the common factors. */
  lemma SameFactors(a: nat, b: nat, k: nat)
    requires b > 0 && k > 1
    ensures CommonFactor(a, b, k) <==> CommonFactor(b, a % b, k)
  {
    var q, r := a / b, a % b;
    assert a == b * q + r;
    if b % k == 0 {
      var y := b / k;
      assert b == k * y;
      if a % k == 0 {
        assert r == k * (a / k - y * q) by { Regroup(k, y, q, a / k); }
        Multiple(k, a / k - y * q);
      }
      if r % k == 0 {
        assert a == k * (y * q + r / k) by { Regroup(k, y, q, y * q + r / k); }
        Multiple(k, y * q + r / k);
      }
    }
  }

  lemma Regroup(k: nat, y: nat, q: nat, x: int)
    ensures k * x - (k * y) * q == k * (x - y * q)
  {}

  lemma {:induction false} FactorsOfGcd(a: nat, b: nat, k: nat)
    requires k > 1
    ensures CommonFactor(a, b, k) <==> Gcd(a, b) % k == 0
    decreases b
  {
    if b > 0 {
      SameFactors(a, b, k);
      FactorsOfGcd(b, a % b, k);
    }
  }

  lemma {:induction false} GcdPositive(a: nat, b: nat)
    requires a > 0 || b > 0
    ensures Gcd(a, b) > 0
    decreases b
  {
    if b > 0 {
      GcdPositive(b, a % b);
    }
  }

  /** The test of the source refuses exactly the pairs that can be reduced. */
  lemma Reduced(a: nat, b: nat)
    requires a > 0 || b > 0
    ensures Gcd(a, b) == 1 <==> forall k :: !CommonFactor(a, b, k)
  {
    GcdPositive(a, b);
    var g := Gcd(a, b);
    if g > 1 {
      FactorsOfGcd(a, b, g);
    }
    forall k | CommonFactor(a, b, k)
      ensures g != 1
    {
      FactorsOfGcd(a, b, k);
    }
  }

  /** D:N lasts t ticks: N of the D parts of a whole, in lowest terms and exact on the grid. */
  ghost predicate Lasts(d: nat, n: nat, t: nat) {
    && 0 < d <= MaxU32 && 0 < n <= MaxU32
    && (forall k :: !CommonFactor(d, n, k))
    && t * d == TicksPerWhole * n
  }

  function DurationText(d: nat, n: nat): string { Decimal(d) + ":" + Decimal(n) }

  lemma DurationReads(d: nat, n: nat, t: nat)
    requires Lasts(d, n, t)
    ensures ParseDuration(DurationText(d, n)) == Some(t)
  {
    hide Decimal, Gcd, ParseNumber, DurationText;
    var s := DurationText(d, n);
    DurationSplit(d, n);
    NumberBothWays(Decimal(d), d, MaxU32);
    NumberBothWays(Decimal(n), n, MaxU32);
    Reduced(d, n);
    DividesEvenly(t, d, TicksPerWhole * n);
  }

  lemma DividesEvenly(t: nat, d: nat, x: nat)
    requires d > 0 && t * d == x
    ensures x % d == 0 && x / d == t
  {
    Multiple(d, t);
    assert t * d == d * t;
  }

  lemma DurationSplit(d: nat, n: nat)
    ensures var s := DurationText(d, n); var colon := Find(s, ':', 0);
      && colon < |s| && Find(s, ':', colon + 1) == |s|
      && s[..colon] == Decimal(d) && s[colon + 1..] == Decimal(n)
  {
    DecimalReads(d);
    DecimalReads(n);
    hide Decimal;
    var s := DurationText(d, n);
    FindAt(s, ':', 0, |Decimal(d)|);
    FindAt(s, ':', |Decimal(d)| + 1, |s|);
  }

  lemma DurationPrints(s: string)
    requires ParseDuration(s).Some?
    ensures exists d, n :: s == DurationText(d, n) && Lasts(d, n, ParseDuration(s).value)
  {
    hide ParseNumber, Decimal, Gcd;
    var colon := Find(s, ':', 0);
    var d, n := ParseUint(s[..colon]).value, ParseUint(s[colon + 1..]).value;
    NumberBothWays(s[..colon], d, MaxU32);
    NumberBothWays(s[colon + 1..], n, MaxU32);
    Reduced(d, n);
    assert s == DurationText(d, n);
    var x := TicksPerWhole * n;
    assert x == x / d * d + x % d;
    assert Lasts(d, n, ParseDuration(s).value);
  }

  /** parse_duration accepts exactly the printed pairs that are exact and in lowest terms, as what they say. */
  lemma DurationBothWays(s: string, t: nat)
    ensures ParseDuration(s) == Some(t) <==> exists d, n :: s == DurationText(d, n) && Lasts(d, n, t)
  {
    hide ParseDuration, DurationText, Lasts;
    if ParseDuration(s) == Some(t) {
      DurationPrints(s);
    }
    if d, n :| s == DurationText(d, n) && Lasts(d, n, t) {
      DurationReads(d, n, t);
    }
  }

  // ---------------------------------------------------------------- sensors

  lemma SensorReads(k: nat)
    requires k < SensorCount
    ensures Sensor(TouchName(k)) == Some(k)
  {}

  /** touch_sensor reads exactly the names that touch_name prints. */
  lemma SensorBothWays(s: string, k: nat)
    ensures Sensor(s) == Some(k) <==> k < SensorCount && s == TouchName(k)
  {
    if k < SensorCount {
      SensorReads(k);
    }
  }

  /** The names: a letter for the ring, and the place on it. */
  lemma NamesOfRings(place: nat)
    requires place < 8
    ensures TouchName(place) == "A" + Decimal(place + 1) && TouchName(8 + place) == "B" + Decimal(place + 1)
    ensures TouchName(17 + place) == "D" + Decimal(place + 1) && TouchName(25 + place) == "E" + Decimal(place + 1)
    ensures TouchName(16) == "C"
  {}

  // ---------------------------------------------------------------- notes

  function SourceName(touch: bool, index: nat): string
    requires index < if touch then SensorCount else 8
  {
    if touch then TouchName(index) else Decimal(index + 1)
  }

  /** The texts of a note: the button or sensor, the sign of its kind, and its duration if it has one. */
  ghost predicate Says(note: string, s: Shape) {
    && s.index < (if IsTouch(s.kind) then SensorCount else 8) && s.target < 8
    && (s.kind != Slide ==> s.target == 0) && (!IsTimed(s.kind) ==> s.duration == 0)
    && var name := SourceName(IsTouch(s.kind), s.index);
    match s.kind
    case Tap => note == name
    case TouchTap => note == name
    case Break => note == name + "b"
    case Hold => Timed(note, name + "h", s.duration)
    case TouchHold => Timed(note, name + "h", s.duration)
    case Slide => Timed(note, name + "-" + Decimal(s.target + 1), s.duration)
  }

  ghost predicate Timed(note: string, head: string, t: nat) {
    exists d, n :: note == head + "[" + DurationText(d, n) + "]" && Lasts(d, n, t)
  }

  lemma OneDigit(n: nat)
    requires n < 10
    ensures Decimal(n) == [Digit(n)]
  {}

  lemma HeadReads(touch: bool, index: nat, rest: string)
    requires index < if touch then SensorCount else 8
    ensures var name := SourceName(touch, index); ParseHead(name + rest) == Some((!touch, index, |name|))
  {
    var name := SourceName(touch, index);
    if touch {
      SensorReads(index);
      assert (name + rest)[..|name|] == name;
    }
  }

  lemma HeadPrints(note: string)
    requires ParseHead(note).Some?
    ensures var (button, index, size) := ParseHead(note).value; note[..size] == SourceName(!button, index)
  {
    var (button, index, size) := ParseHead(note).value;
    if size == 2 {
      SensorBothWays(note[..2], index);
    }
  }

  lemma PlainDuration(d: nat, n: nat)
    ensures var t := DurationText(d, n); forall i :: 0 <= i < |t| ==> t[i] != '[' && t[i] != ']'
  {
    DecimalReads(d);
    DecimalReads(n);
    hide Decimal;
  }

  lemma BracketReads(head: string, from: nat, t: string)
    requires from <= |head| && forall i :: from <= i < |head| ==> head[i] != '['
    requires forall i :: 0 <= i < |t| ==> t[i] != '[' && t[i] != ']'
    ensures var note := head + "[" + t + "]";
      Bracket(note, from) == |head| && note[..|head|] == head && note[|head| + 1..|note| - 1] == t
  {
    var note := head + "[" + t + "]";
    FindAt(note, '[', from, |head|);
    FindAt(note, '[', |head| + 1, |note|);
    FindAt(note, ']', |head| + 1, |note| - 1);
  }

  lemma BracketPrints(note: string, from: nat)
    requires from <= |note|
    ensures var open := Bracket(note, from);
      open < |note| ==> note == note[..open] + "[" + note[open + 1..|note| - 1] + "]"
  {}

  lemma TimedReads(name: string, sign: string, t: nat, note: string, at: nat)
    requires Timed(note, name + sign, t) && at == |name| + |sign|
    requires forall i :: 0 <= i < |sign| ==> sign[i] != '['
    ensures at < |note| && Bracket(note, |name|) == at && note[..|name|] == name && note[|name|..at] == sign
    ensures ParseDuration(note[at + 1..|note| - 1]) == Some(t)
  {
    hide Bracket, ParseDuration, DurationText, Lasts;
    var d, n :| note == name + sign + "[" + DurationText(d, n) + "]" && Lasts(d, n, t);
    PlainDuration(d, n);
    DurationReads(d, n, t);
    BracketReads(name + sign, |name|, DurationText(d, n));
  }

  lemma UntimedReads(note: string, s: Shape)
    requires Says(note, s) && !IsTimed(s.kind)
    ensures Classify(note) == Some(s)
  {
    hide ParseHead, SourceName, Bracket, ParseDuration;
    var name := SourceName(IsTouch(s.kind), s.index);
    NameSize(IsTouch(s.kind), s.index);
    if s.kind == Break {
      HeadReads(false, s.index, "b");
    } else {
      HeadReads(IsTouch(s.kind), s.index, "");
      assert name + "" == name;
    }
  }

  lemma NameSize(touch: bool, index: nat)
    requires index < if touch then SensorCount else 8
    ensures 1 <= |SourceName(touch, index)| <= 2 && (!touch ==> |SourceName(touch, index)| == 1)
  {}

  function SignOf(s: Shape): string {
    if s.kind == Slide then "-" + Decimal(s.target + 1) else "h"
  }

  lemma SignBothWays(button: bool, index: nat, sign: string, duration: nat, s: Shape)
    requires index < (if button then 8 else SensorCount) && duration > 0 && IsTimed(s.kind)
    ensures TimedShape(button, index, sign, Some(duration)) == Some(s)
      <==> sign == SignOf(s) && s == Shape(s.kind, index, s.target, duration) && IsTouch(s.kind) == !button
           && (if s.kind == Slide then s.target < 8 else s.target == 0)
  {
    if s.target < 8 {
      OneDigit(s.target + 1);
    }
  }

  lemma TimedNoteReads(note: string, s: Shape)
    requires s.index < (if IsTouch(s.kind) then SensorCount else 8) && s.target < 8
    requires s.kind != Slide ==> s.target == 0
    requires IsTimed(s.kind) && Timed(note, SourceName(IsTouch(s.kind), s.index) + SignOf(s), s.duration)
    ensures Classify(note) == Some(s)
  {
    var name, sign := SourceName(IsTouch(s.kind), s.index), SignOf(s);
    hide ParseHead, SourceName, Bracket, ParseDuration, Timed, TimedShape, SignOf, Classify;
    SignPlain(s);
    NameSize(IsTouch(s.kind), s.index);
    assert s.duration > 0 by { TimedLasts(note, name + sign, s.duration); }
    TimedReads(name, sign, s.duration, note, |name| + |sign|);
    SignReads(note, s, name, sign, |name| + |sign|);
  }

  lemma TimedLasts(note: string, head: string, t: nat)
    requires Timed(note, head, t)
    ensures t > 0
  {
    hide DurationText;
  }

  lemma SignReads(note: string, s: Shape, name: string, sign: string, at: nat)
    requires s.index < (if IsTouch(s.kind) then SensorCount else 8) && s.target < 8 && s.duration > 0
    requires (s.kind != Slide ==> s.target == 0) && IsTimed(s.kind)
    requires name == SourceName(IsTouch(s.kind), s.index) && (!IsTouch(s.kind) ==> |name| == 1)
    requires sign == SignOf(s) && sign != "" && sign[0] != 'b' && |name| + |sign| == at < |note|
    requires Bracket(note, |name|) == at && note[..|name|] == name && note[|name|..at] == sign
    requires ParseDuration(note[at + 1..|note| - 1]) == Some(s.duration)
    ensures Classify(note) == Some(s)
  {
    hide ParseHead, SourceName, Bracket, ParseDuration, TimedShape, SignOf, Classify;
    Apart(note, name, sign);
    HeadReads(IsTouch(s.kind), s.index, note[|name|..]);
    SignBothWays(!IsTouch(s.kind), s.index, sign, s.duration, s);
    TimedClassifies(note, !IsTouch(s.kind), s.index, |name|);
  }

  lemma SignPlain(s: Shape)
    requires s.target < 8
    ensures SignOf(s) != "" && SignOf(s)[0] != 'b' && forall i :: 0 <= i < |SignOf(s)| ==> SignOf(s)[i] != '['
  {
    OneDigit(s.target + 1);
  }

  lemma Apart(note: string, name: string, sign: string)
    requires |name| + |sign| <= |note| && note[..|name|] == name && note[|name|..|name| + |sign|] == sign != ""
    ensures note == name + note[|name|..] && note[|name|] == sign[0]
  {
    assert note[|name|..|name| + |sign|][0] == note[|name|];
  }

  lemma TimedClassifies(note: string, button: bool, index: nat, size: nat)
    requires ParseHead(note) == Some((button, index, size)) && Bracket(note, size) < |note|
    requires size < |note| && note[size] != 'b' && (button ==> size == 1)
    ensures var open := Bracket(note, size);
      Classify(note) == TimedShape(button, index, note[size..open], ParseDuration(note[open + 1..|note| - 1]))
  {
    hide ParseHead, Bracket, ParseDuration, TimedShape;
  }

  lemma NoteReads(note: string, s: Shape)
    requires Says(note, s)
    ensures Classify(note) == Some(s)
  {
    hide Classify, SourceName, Timed;
    if IsTimed(s.kind) {
      TimedSays(note, s);
      TimedNoteReads(note, s);
    } else {
      UntimedReads(note, s);
    }
  }

  lemma NotePrints(note: string)
    requires Classify(note).Some?
    ensures Says(note, Classify(note).value)
  {
    hide ParseHead, SourceName, Bracket, ParseDuration, Timed, Decimal, TimedShape;
    HeadPrints(note);
    var (button, index, size) := ParseHead(note).value;
    NameSize(!button, index);
    var s := Classify(note).value;
    if IsTimed(s.kind) {
      TimedNotePrints(note, s, button, index, size);
    } else if s.kind == Break {
      assert note == note[..1] + "b";
    } else {
      assert note == note[..size];
    }
  }

  lemma TimedNotePrints(note: string, s: Shape, button: bool, index: nat, size: nat)
    requires Classify(note) == Some(s) && IsTimed(s.kind) && ParseHead(note) == Some((button, index, size))
    requires index < (if button then 8 else SensorCount) && note[..size] == SourceName(!button, index)
    ensures Says(note, s)
  {
    hide ParseHead, SourceName, Bracket, ParseDuration, Timed, Decimal, TimedShape, SignOf;
    var open := Bracket(note, size);
    var duration := note[open + 1..|note| - 1];
    assert open < |note| && TimedShape(button, index, note[size..open], ParseDuration(duration)) == Some(s);
    assert ParseDuration(duration).Some? by { NoDuration(button, index, note[size..open]); }
    SignBothWays(button, index, note[size..open], ParseDuration(duration).value, s);
    BracketPrints(note, size);
    DurationIsTimed(note, note[..open], duration, s.duration);
    assert note[..open] == note[..size] + note[size..open];
    TimedSays(note, s);
  }

  lemma NoDuration(button: bool, index: nat, sign: string)
    requires index < if button then 8 else SensorCount
    ensures TimedShape(button, index, sign, None) == None
  {}

  lemma TimedSays(note: string, s: Shape)
    requires s.index < (if IsTouch(s.kind) then SensorCount else 8) && s.target < 8
    requires (s.kind != Slide ==> s.target == 0) && IsTimed(s.kind)
    ensures Says(note, s) <==> Timed(note, SourceName(IsTouch(s.kind), s.index) + SignOf(s), s.duration)
  {
    hide Timed, SourceName, Decimal;
    var name := SourceName(IsTouch(s.kind), s.index);
    if s.kind == Slide {
      assert name + SignOf(s) == name + "-" + Decimal(s.target + 1);
    }
  }

  lemma DurationIsTimed(note: string, head: string, duration: string, t: nat)
    requires note == head + "[" + duration + "]" && ParseDuration(duration) == Some(t)
    ensures Timed(note, head, t)
  {
    hide ParseDuration, DurationText, Lasts;
    DurationBothWays(duration, t);
  }

  /** parse_note accepts exactly the texts above, as what they say. */
  lemma NoteBothWays(note: string, s: Shape)
    ensures Classify(note) == Some(s) <==> Says(note, s)
  {
    hide Classify, Says;
    if Classify(note) == Some(s) {
      NotePrints(note);
    }
    if Says(note, s) {
      NoteReads(note, s);
    }
  }

  // ---------------------------------------------------------------- a known body

  const HoldBody := "1h[4:1],E"

  function HoldNote(): Note { Note(Hold, 0, 384, 0, 0, 0, 128, 0, "0 HOLD B1 384 128", 0) }

  /** A hold of one quarter of four: 384 ticks. */
  lemma KnownNote(note: string)
    requires note == "1h[4:1]"
    ensures Classify(note) == Some(Shape(Hold, 0, 0, 384))
  {
    Decimals();
    assert Lasts(4, 1, 384) by {
      forall k ensures !CommonFactor(4, 1, k) {}
    }
    hide Decimal, Lasts;
    assert note == (SourceName(false, 0) + "h") + "[" + DurationText(4, 1) + "]";
    NoteReads(note, Shape(Hold, 0, 0, 384));
  }

  lemma Decimals()
    ensures Decimal(0) == "0" && Decimal(1) == "1" && Decimal(4) == "4" && Decimal(384) == "384"
  {
    assert Decimal(3) == "3" && Decimal(8) == "8";
    assert Decimal(38) == Decimal(3) + [Digit(8)];
    assert Decimal(384) == Decimal(38) + [Digit(4)];
  }

  lemma KnownNoteOf(b: Body)
    requires b.tick == 0
    ensures NoteOf(b, Shape(Hold, 0, 0, 384), 0) == HoldNote()
  {
    Decimals();
    hide Decimal;
  }

  /** The first cell: one hold, and the step to tick 384. */
  lemma KnownCell(b: Body, whole: U32, body: string, cell: string)
    requires Fresh(b) && |body| == 9 && body[0..7] == cell == "1h[4:1]"
    ensures var r := ParseCell(b, whole, body, 0, 7);
      && r.Some? && !r.value.ended && r.value.tick == 384 && r.value.maxTick == 384
      && r.value.notes == [HoldNote()] && r.value.raised == [] && r.value.warnings == []
  {
    var b0 := b.(cells := b.cells + [Cell(cell, 0)]);
    NoControls(b0, whole, body, cell);
    KnownNoted(b0);
    KnownNotes(b0, body, cell);
    KnownStep(Noted(b0, Shape(Hold, 0, 0, 384), 0), body);
    hide Noted, ParseNotes, ParseControls, Step, NoteOf;
    assert cell != "E";
  }

  /** As at the start of a body. */
  predicate Fresh(b: Body) {
    && Shaped(b) && b.tick == 0 && b.division == 4 && !b.ended && b.buttons[0] == NoSource
    && b.notes == [] && b.raised == [] && b.warnings == [] && b.maxTick == 0
  }

  lemma NoControls(b: Body, whole: U32, body: string, cell: string)
    requires Shaped(b) && cell != "" && cell[0] == '1'
    ensures ParseControls(b, whole, body, cell, 0, 0) == Some((b, 0))
  {}

  lemma KnownStep(b: Body, body: string)
    requires Shaped(b) && b.tick == 0 && b.division == 4 && b.raised == [] && b.warnings == [] && b.maxTick == 384
    ensures var r := Step(b, body, 0, 7, 0, 1);
      && r.tick == 384 && r.maxTick == 384 && r.ended == b.ended && r.notes == b.notes
      && r.raised == [] && r.warnings == []
  {}

  lemma KnownNotes(b: Body, body: string, cell: string)
    requires Shaped(b) && cell == "1h[4:1]" && body != ""
    ensures ParseNotes(b, body, cell, 0, 0) == Some((Noted(b, Shape(Hold, 0, 0, 384), 0), 1))
  {
    KnownNote(cell);
    FindAt(cell, '/', 0, 7);
    hide Classify, Noted;
    assert cell[0..7] == cell;
  }

  lemma KnownNoted(b: Body)
    requires Shaped(b) && b.tick == 0 && b.buttons[0] == NoSource && b.notes == [] && b.raised == [] && b.maxTick == 0
    ensures var r := Noted(b, Shape(Hold, 0, 0, 384), 0);
      && r.notes == [HoldNote()] && r.raised == [] && r.maxTick == 384
      && r.tick == 0 && r.division == b.division && r.ended == b.ended && r.warnings == b.warnings
  {
    KnownNoteOf(b);
    hide NoteOf;
  }

  /** The body "1h[4:1],E" is one hold from tick 0 to tick 384. */
  lemma KnownBody(whole: U32, body: string)
    requires body == HoldBody
    ensures var r := ParseBody(whole, body);
      && r.Some? && r.value.notes == [HoldNote()] && r.value.maxTick == 384
      && r.value.raised == [] && r.value.warnings == []
  {
    var b := StartBody(whole);
    assert Fresh(b);
    hide StartBody, ParseCell, ParseCells;
    assert body[0..7] == "1h[4:1]";
    KnownCell(b, whole, body, body[0..7]);
    LastCell(ParseCell(b, whole, body, 0, 7).value, whole, body);
    TwoCells(b, whole, body);
  }

  lemma TwoCells(b: Body, whole: U32, body: string)
    requires Shaped(b) && |body| == 9 && body[7] == ',' && ',' !in body[..7] && body[8] != ','
    requires ParseCell(b, whole, body, 0, 7).Some?
    ensures ParseCells(b, whole, body, 0) == ParseCell(ParseCell(b, whole, body, 0, 7).value, whole, body, 8, 9)
  {
    hide ParseCell;
    FindAt(body, ',', 0, 7);
    FindAt(body, ',', 8, 9);
  }

  lemma LastCell(b: Body, whole: U32, body: string)
    requires Shaped(b) && !b.ended && body == HoldBody
    ensures ParseCell(b, whole, body, 8, 9) == Some(b.(cells := b.cells + [Cell("E", 8)], ended := true))
  {
    assert body[8..9] == "E";
  }
}
