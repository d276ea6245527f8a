/** The chart parser. A position in the body stands for the source location of its character. */
module Simai {
  import opened Common
  import opened Types
  import opened Text

  datatype WarningCode = EmptyChart | RedundantBpm | RedundantDivision | DenseEach

  datatype ErrorCode = BpmRange | TimelineRange | SlideSelf | DuplicateSource | ActiveOverlap | EventLimit

  datatype Warning = Warning(code: WarningCode, at: nat, severity: U8)

  datatype SemanticError = SemanticError(code: ErrorCode, at: nat, detail: U32)

  datatype Cell = Cell(canonical: string, at: nat)

  datatype Note = Note(kind: EventType, tick: U32, endTick: U32, lane: U8, targetLane: U8, sensor: U8,
                       strength: U8, path: U8, canonical: string, at: nat)

  /** The last tick and the latest end seen for one button or sensor. */
  datatype Source = Source(haveTick: bool, tick: U32, activeEnd: U32)

  /** BodyParser, with everything noted and raised so far in order. */
  datatype Body = Body(
    tick: nat, division: nat, bpm: U32, initialBpm: bool, initialDivision: bool, pending: bool, ended: bool,
    buttons: seq<Source>, touches: seq<Source>, notes: seq<Note>, raised: seq<SemanticError>,
    warnings: seq<Warning>, cells: seq<Cell>, maxTick: U32)

  predicate Shaped(b: Body) {
    |b.buttons| == 8 && |b.touches| == SensorCount && 0 < b.division
  }

  /** saturated_u32. */
  function Saturated(x: nat): (r: U32)
    ensures r <= x && (r < x ==> r == 0xffff_ffff)
  {
    Min(x, MaxU32)
  }

  /** location_at: behind the body it is the last character. */
  function Place(body: string, i: nat): (at: nat)
    ensures i < |body| ==> at == i
    ensures 0 < |body| <= i ==> at + 1 == |body|
  {
    if i < |body| || body == "" then i else |body| - 1
  }

  predicate IsTouch(kind: EventType) { kind == TouchTap || kind == TouchHold }

  predicate IsTimed(kind: EventType) { kind == Hold || kind == Slide || kind == TouchHold }

  // ---------------------------------------------------------------- one note

  /** What a note says, apart from when: the button or sensor, a slide's target, the duration in ticks. */
  datatype Shape = Shape(kind: EventType, index: nat, target: nat, duration: nat)

  /** touch_sensor. */
  function Sensor(s: string): (r: Option<nat>)
    ensures r.Some? ==> r.value < SensorCount
  {
    if s == "C" then Some(16)
    else if |s| != 2 || s[1] < '1' || s[1] > '8' then None
    else
      var ring := (s[1] - '1') as nat;
      match s[0]
      case 'A' => Some(ring)
      case 'B' => Some(8 + ring)
      case 'D' => Some(17 + ring)
      case 'E' => Some(25 + ring)
      case _ => None
  }

  function Gcd(a: nat, b: nat): (g: nat)
    decreases b
  {
    if b == 0 then a else Gcd(b, a % b)
  }

  /** parse_duration: a reduced D:N that is exact on the grid. */
  function ParseDuration(s: string): (r: Option<nat>)
    ensures r.Some? ==> r.value > 0
  {
    var colon := Find(s, ':', 0);
    if colon == |s| || Find(s, ':', colon + 1) < |s| then None
    else
      var d, n := ParseUint(s[..colon]), ParseUint(s[colon + 1..]);
      if d.None? || n.None? || d.value == 0 || n.value == 0 || Gcd(d.value, n.value) != 1
         || TicksPerWhole * n.value % d.value != 0 then None
      else
        ExactQuotient(TicksPerWhole * n.value, d.value);
        Some(TicksPerWhole * n.value / d.value)
  }

  lemma ExactQuotient(x: nat, d: nat)
    requires x > 0 && d > 0 && x % d == 0
    ensures x / d > 0
  {
    assert x == x / d * d + x % d;
  }

  /** The part before [, if the note ends with exactly one [ ... ]. */
  function Bracket(note: string, from: nat): (open: nat)
    requires from <= |note|
    ensures from <= open <= |note|
    ensures open < |note| ==> open + 2 <= |note|
  {
    var open := Find(note, '[', from);
    if open == |note| || note[|note| - 1] != ']' || Find(note, '[', open + 1) < |note|
       || Find(note, ']', open + 1) != |note| - 1 then |note|
    else open
  }

  /** The start of parse_note: button or sensor, and how many characters name it. */
  function ParseHead(note: string): (r: Option<(bool, nat, nat)>)
    ensures r.Some? ==> r.value.2 <= |note| && r.value.1 < (if r.value.0 then 8 else SensorCount)
  {
    if note == "" then None
    else if '1' <= note[0] <= '8' then Some((true, (note[0] - '1') as nat, 1))
    else if note[0] == 'C' then Some((false, 16, 1))
    else if note[0] in ['A', 'B', 'D', 'E'] && |note| >= 2 then
      var sensor := Sensor(note[..2]);
      if sensor.None? then None else Some((false, sensor.value, 2))
    else None
  }

  /** The syntax of one note. */
  function Classify(note: string): (r: Option<Shape>)
    ensures r.Some? ==> r.value.index < if IsTouch(r.value.kind) then SensorCount else 8
    ensures r.Some? ==> r.value.target < 8 && (IsTimed(r.value.kind) <==> r.value.duration > 0)
  {
    var head := ParseHead(note);
    if head.None? then None
    else
      var (button, index, size) := head.value;
      if |note| == size then Some(Shape(if button then Tap else TouchTap, index, 0, 0))
      else if button && |note| == 2 && note[1] == 'b' then Some(Shape(Break, index, 0, 0))
      else
        var open := Bracket(note, size);
        if open == |note| then None
        else TimedShape(button, index, note[size..open], ParseDuration(note[open + 1..|note| - 1]))
  }

  /** A note with a duration, by the sign between its name and the bracket. */
  function TimedShape(button: bool, index: nat, sign: string, duration: Option<nat>): (r: Option<Shape>)
    requires index < if button then 8 else SensorCount
    requires duration.Some? ==> duration.value > 0
    ensures r.Some? ==> r.value.index < if IsTouch(r.value.kind) then SensorCount else 8
    ensures r.Some? ==> r.value.target < 8 && IsTimed(r.value.kind) && r.value.duration > 0
  {
    if duration.None? then None
    else if sign == "h" then Some(Shape(if button then Hold else TouchHold, index, 0, duration.value))
    else if button && |sign| == 2 && sign[0] == '-' && '1' <= sign[1] <= '8' then
      Some(Shape(Slide, index, (sign[1] - '1') as nat, duration.value))
    else None
  }

  function StrengthOf(kind: EventType): U8 {
    match kind
    case Tap => 128
    case Break => 255
    case Hold => 128
    case Slide => 0
    case TouchTap => 192
    case TouchHold => 192
  }

  /** touch_name. */
  function TouchName(sensor: nat): string
    requires sensor < SensorCount
  {
    if sensor < 8 then "A" + Decimal(sensor + 1)
    else if sensor < 16 then "B" + Decimal(sensor - 7)
    else if sensor == 16 then "C"
    else if sensor < 25 then "D" + Decimal(sensor - 16)
    else "E" + Decimal(sensor - 24)
  }

  /** canonical_event. */
  function CanonicalText(n: Note): string
    requires n.sensor < SensorCount
  {
    Decimal(n.tick) + " " +
    match n.kind
    case Tap => "TAP B" + Decimal(n.lane + 1) + " 128"
    case Break => "BREAK B" + Decimal(n.lane + 1) + " 255 3"
    case Hold => "HOLD B" + Decimal(n.lane + 1) + " " + Decimal(n.endTick) + " 128"
    case Slide => "SLIDE B" + Decimal(n.lane + 1) + " " + Decimal(n.endTick) + " B" + Decimal(n.targetLane + 1) + " 0"
    case TouchTap => "TOUCH " + TouchName(n.sensor) + " 192"
    case TouchHold => "TOUCH_HOLD " + TouchName(n.sensor) + " " + Decimal(n.endTick) + " 192"
  }

  /** A note before its canonical text is made. */
  function PlainNote(b: Body, s: Shape, at: nat): (n: Note)
    requires s.index < (if IsTouch(s.kind) then SensorCount else 8) && s.target < 8
    ensures ValidKey(KeyOf(n)) && n.lane < 8 && n.sensor < SensorCount
  {
    Note(s.kind, Saturated(b.tick), if IsTimed(s.kind) then Saturated(b.tick + s.duration) else 0,
         if IsTouch(s.kind) then 0 else s.index, s.target, if IsTouch(s.kind) then s.index else 0,
         StrengthOf(s.kind), 0, "", at)
  }

  function NoteOf(b: Body, s: Shape, at: nat): (n: Note)
    requires s.index < (if IsTouch(s.kind) then SensorCount else 8) && s.target < 8
    ensures ValidKey(KeyOf(n)) && n.lane < 8
  {
    var n := PlainNote(b, s, at);
    n.(canonical := CanonicalText(n))
  }

  // ---------------------------------------------------------------- the source table

  datatype SourceKey = SourceKey(touch: bool, index: nat)

  /** event_source. */
  function KeyOf(n: Note): SourceKey {
    if IsTouch(n.kind) then SourceKey(true, n.sensor) else SourceKey(false, n.lane)
  }

  predicate ValidKey(k: SourceKey) { k.index < if k.touch then SensorCount else 8 }

  function Slot(b: Body, k: SourceKey): Source
    requires Shaped(b) && ValidKey(k)
  {
    if k.touch then b.touches[k.index] else b.buttons[k.index]
  }

  function WithSlot(b: Body, k: SourceKey, s: Source): (r: Body)
    requires Shaped(b) && ValidKey(k)
    ensures Shaped(r)
  {
    if k.touch then b.(touches := b.touches[k.index := s]) else b.(buttons := b.buttons[k.index := s])
  }

  /** source_detail. */
  function DetailOf(k: SourceKey): U32
    requires ValidKey(k)
  {
    if k.touch then 0x100 + k.index else k.index
  }

  function SlotAfter(s: Source, n: Note): Source {
    Source(true, n.tick, if IsTimed(n.kind) then Max(s.activeEnd, n.endTick) else s.activeEnd)
  }

  /** The errors a note raises, in the order of parse_note. */
  function ErrorsOf(b: Body, s: Shape, n: Note): seq<SemanticError>
    requires Shaped(b) && ValidKey(KeyOf(n)) && n.lane < 8
  {
    var slot := Slot(b, KeyOf(n));
    (if IsTimed(s.kind) && b.tick + s.duration > MaxTimelineTick then
       [SemanticError(TimelineRange, n.at, Saturated(b.tick + s.duration))] else [])
    + (if s.kind == Slide && n.targetLane == n.lane then [SemanticError(SlideSelf, n.at, n.lane + 1)] else [])
    + (if b.tick > MaxTimelineTick then [SemanticError(TimelineRange, n.at, Saturated(b.tick))] else [])
    + (if slot.haveTick && slot.tick == n.tick then [SemanticError(DuplicateSource, n.at, DetailOf(KeyOf(n)))]
       else if slot.activeEnd > n.tick then [SemanticError(ActiveOverlap, n.at, slot.activeEnd)] else [])
    + (if |b.notes| == MaxEvents then [SemanticError(EventLimit, n.at, MaxEvents + 1)] else [])
  }

  /** parse_note, for a note of this shape. */
  function Noted(b: Body, s: Shape, at: nat): (r: Body)
    requires Shaped(b) && s.index < (if IsTouch(s.kind) then SensorCount else 8) && s.target < 8
    ensures Shaped(r)
  {
    var n := NoteOf(b, s, at);
    var k := KeyOf(n);
    WithSlot(b, k, SlotAfter(Slot(b, k), n))
    .(notes := b.notes + [n], raised := b.raised + ErrorsOf(b, s, n),
      maxTick := if IsTimed(s.kind) then Max(b.maxTick, n.endTick) else b.maxTick)
  }

  function ParseNote(b: Body, note: string, at: nat): (r: Option<Body>)
    requires Shaped(b)
    ensures r.Some? ==> Shaped(r.value)
  {
    var s := Classify(note);
    if s.None? then None else Some(Noted(b, s.value, at))
  }

  // ---------------------------------------------------------------- one cell

  /** The notes of a cell from position `from` on, separated by slashes, and how many there are. */
  function ParseNotes(b: Body, body: string, cell: string, begin: nat, from: nat): (r: Option<(Body, nat)>)
    requires Shaped(b) && from <= |cell|
    ensures r.Some? ==> Shaped(r.value.0)
    decreases |cell| - from
  {
    var slash := Find(cell, '/', from);
    var b1 := ParseNote(b, cell[from..slash], Place(body, begin + from));
    if b1.None? then None
    else if slash == |cell| then Some((b1.value, 1))
    else
      var rest := ParseNotes(b1.value, body, cell, begin, slash + 1);
      if rest.None? then None else Some((rest.value.0, rest.value.1 + 1))
  }

  predicate StartsWith(s: string, from: nat, t: string) {
    from + |t| <= |s| && s[from..from + |t|] == t
  }

  /** A tempo control. */
  function Tempo(b: Body, whole: U32, cell: string, close: nat, bpm: U32, at: nat): (r: Body)
    requires Shaped(b) && close < |cell|
    ensures Shaped(r)
  {
    var conventional := b.initialBpm && b.initialDivision && b.tick == 0 && bpm == whole
                        && StartsWith(cell, close + 1, "{4}");
    b.(warnings := if bpm == b.bpm && !conventional then b.warnings + [Warning(RedundantBpm, at, 1)] else b.warnings,
       raised := if bpm < 30000 || bpm > 400000 then b.raised + [SemanticError(BpmRange, at, bpm)] else b.raised,
       bpm := bpm, initialBpm := false, pending := conventional)
  }

  /** A division control. */
  function Divide(b: Body, division: nat, at: nat): (r: Body)
    requires Shaped(b) && 0 < division
    ensures Shaped(r)
  {
    var conventional := b.pending && division == 4;
    b.(warnings := if division == b.division && !conventional then b.warnings + [Warning(RedundantDivision, at, 1)]
                   else b.warnings,
       division := division, initialDivision := false, pending := false)
  }

  predicate ExactDivision(division: Option<U32>) {
    division.Some? && division.value != 0 && TicksPerWhole % division.value == 0
  }

  /** One control at the cursor; the result is the state and the position behind it. */
  function ParseControl(b: Body, whole: U32, body: string, cell: string, begin: nat, cursor: nat)
    : (r: Option<(Body, nat)>)
    requires Shaped(b) && cursor < |cell|
    ensures r.Some? ==> Shaped(r.value.0) && cursor < r.value.1 <= |cell|
  {
    var tempo := cell[cursor] == '(';
    var close := Find(cell, if tempo then ')' else '}', cursor + 1);
    var at := Place(body, begin + cursor);
    if close == |cell| then None
    else if tempo then
      var bpm := ParseBpm(cell[cursor + 1..close]);
      if bpm.None? then None else Some((Tempo(b, whole, cell, close, bpm.value, at), close + 1))
    else
      var division := ParseUint(cell[cursor + 1..close]);
      if ExactDivision(division) then Some((Divide(b, division.value, at), close + 1)) else None
  }

  predicate AtControl(cell: string, cursor: nat) { cursor < |cell| && (cell[cursor] == '(' || cell[cursor] == '{') }

  /** parse_controls. */
  function ParseControls(b: Body, whole: U32, body: string, cell: string, begin: nat, cursor: nat)
    : (r: Option<(Body, nat)>)
    requires Shaped(b) && cursor <= |cell|
    ensures r.Some? ==> Shaped(r.value.0) && cursor <= r.value.1 <= |cell|
    decreases |cell| - cursor
  {
    if !AtControl(cell, cursor) then Some((b, cursor))
    else
      var r := ParseControl(b, whole, body, cell, begin, cursor);
      if r.None? then None else ParseControls(r.value.0, whole, body, cell, begin, r.value.1)
  }

  /** The end of a cell: the dense warning, and the step to the next tick. */
  function Step(b: Body, body: string, begin: nat, end: nat, cursor: nat, count: nat): (r: Body)
    requires Shaped(b)
    ensures Shaped(r)
  {
    var tick := b.tick + TicksPerWhole / b.division;
    b.(warnings := if count >= 4 then b.warnings + [Warning(DenseEach, Place(body, begin + cursor), 1)]
                   else b.warnings,
       tick := tick,
       raised := if tick > MaxTimelineTick then
         b.raised + [SemanticError(TimelineRange, Place(body, if end < |body| then end else begin), Saturated(tick))]
         else b.raised,
       maxTick := Max(b.maxTick, Saturated(tick)))
  }

  /** parse_cell, for the characters from begin to end. */
  function ParseCell(b: Body, whole: U32, body: string, begin: nat, end: nat): (r: Option<Body>)
    requires Shaped(b) && begin <= end <= |body|
    ensures r.Some? ==> Shaped(r.value)
  {
    var cell := body[begin..end];
    if cell == "E" then
      if end < |body| || b.ended then None
      else Some(b.(cells := b.cells + [Cell("E", Place(body, begin))], ended := true))
    else if b.ended then None
    else
      var b0 := b.(cells := b.cells + [Cell(cell, Place(body, begin))]);
      var c := ParseControls(b0, whole, body, cell, begin, 0);
      if c.None? then None
      else
        var (b1, cursor) := c.value;
        if cursor == |cell| then Some(Step(b1, body, begin, end, cursor, 0))
        else
          var n := ParseNotes(b1, body, cell, begin, cursor);
          if n.None? then None else Some(Step(n.value.0, body, begin, end, cursor, n.value.1))
  }

  /** The cells from position `begin` on, separated by commas. */
  function ParseCells(b: Body, whole: U32, body: string, begin: nat): (r: Option<Body>)
    requires Shaped(b) && begin <= |body|
    ensures r.Some? ==> Shaped(r.value)
    decreases |body| - begin
  {
    var end := Find(body, ',', begin);
    var r := ParseCell(b, whole, body, begin, end);
    if r.None? || end == |body| then r else ParseCells(r.value, whole, body, end + 1)
  }

  const NoSource := Source(false, 0, 0)

  function StartBody(whole: U32): (b: Body)
    ensures Shaped(b)
  {
    Body(0, 4, whole, true, true, false, false, seq(8, _ => NoSource), seq(SensorCount, _ => NoSource),
         [], [], [], [], 0)
  }

  /** The whole body, from its first character to the final E. */
  function ParseBody(whole: U32, body: string): Option<Body> {
    var r := ParseCells(StartBody(whole), whole, body, 0);
    if r.None? || !r.value.ended then None
    else if r.value.notes == [] then
      Some(r.value.(warnings := r.value.warnings + [Warning(EmptyChart, 0, 1)]))
    else r
  }
}
