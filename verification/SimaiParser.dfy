/** The parser as it runs: one object whose fields are updated note by note, and the chart it leaves behind. */
module SimaiParser {
  import opened Common
  import opened Types
  import opened Text
  import opened Simai

  // ---------------------------------------------------------------- the errors kept

  predicate Earlier(e: SemanticError, f: SemanticError) { e.at < f.at || (e.at == f.at && e.detail < f.detail) }

  /** std::find_if by code. */
  function FindCode(errors: seq<SemanticError>, code: ErrorCode): (i: nat)
    ensures i <= |errors| && (i < |errors| ==> errors[i].code == code)
    ensures forall j :: 0 <= j < i ==> errors[j].code != code
  {
    if errors == [] || errors[0].code == code then 0 else 1 + FindCode(errors[1..], code)
  }

  /** add_candidate. */
  function AddCandidate(kept: seq<SemanticError>, e: SemanticError): seq<SemanticError> {
    var i := FindCode(kept, e.code);
    if i == |kept| then kept + [e] else if Earlier(e, kept[i]) then kept[i := e] else kept
  }

  function Candidates(raised: seq<SemanticError>): seq<SemanticError> {
    if raised == [] then [] else AddCandidate(Candidates(raised[..|raised| - 1]), raised[|raised| - 1])
  }

  /** One error of each code that was raised, and no later one than any raised with that code. */
  ghost predicate LeastOfEach(kept: seq<SemanticError>, raised: seq<SemanticError>) {
    && (forall i, j :: 0 <= i < j < |kept| ==> kept[i].code != kept[j].code)
    && (forall i :: 0 <= i < |kept| ==> kept[i] in raised)
    && forall e :: e in raised ==> Covered(kept, e)
  }

  lemma EarlierChain(e: SemanticError, k: SemanticError, f: SemanticError)
    requires Earlier(e, k) && !Earlier(f, k)
    ensures !Earlier(f, e)
  {}

  lemma AddKeepsCodes(kept: seq<SemanticError>, e: SemanticError)
    requires forall i, j :: 0 <= i < j < |kept| ==> kept[i].code != kept[j].code
    ensures var after := AddCandidate(kept, e);
      forall i, j :: 0 <= i < j < |after| ==> after[i].code != after[j].code
  {
    hide Earlier;
  }

  lemma AddKeepsMembers(kept: seq<SemanticError>, raised: seq<SemanticError>, e: SemanticError)
    requires forall i :: 0 <= i < |kept| ==> kept[i] in raised
    ensures var after := AddCandidate(kept, e); forall i :: 0 <= i < |after| ==> after[i] in raised + [e]
  {
    hide Earlier;
  }

  ghost predicate Covered(kept: seq<SemanticError>, f: SemanticError) {
    exists i :: 0 <= i < |kept| && kept[i].code == f.code && !Earlier(f, kept[i])
  }

  lemma AddKeepsCover(kept: seq<SemanticError>, e: SemanticError, f: SemanticError)
    requires f == e || Covered(kept, f)
    ensures Covered(AddCandidate(kept, e), f)
  {
    var after, k := AddCandidate(kept, e), FindCode(kept, e.code);
    if f == e {
      assert after[k].code == e.code && !Earlier(e, after[k]);
    } else {
      var i :| 0 <= i < |kept| && kept[i].code == f.code && !Earlier(f, kept[i]);
      if i == k && Earlier(e, kept[k]) {
        EarlierChain(e, kept[k], f);
      }
      assert after[i].code == f.code && !Earlier(f, after[i]);
    }
  }

  lemma KeepsLeast(kept: seq<SemanticError>, raised: seq<SemanticError>, e: SemanticError)
    requires LeastOfEach(kept, raised)
    ensures LeastOfEach(AddCandidate(kept, e), raised + [e])
  {
    hide AddCandidate, Covered;
    AddKeepsCodes(kept, e);
    AddKeepsMembers(kept, raised, e);
    forall f | f in raised + [e]
      ensures Covered(AddCandidate(kept, e), f)
    {
      AddKeepsCover(kept, e, f);
    }
  }

  lemma {:induction false} CandidatesAreLeast(raised: seq<SemanticError>)
    ensures LeastOfEach(Candidates(raised), raised)
  {
    hide AddCandidate, LeastOfEach;
    if raised == [] {
      NoneIsLeast();
    } else {
      var e, rest := raised[|raised| - 1], raised[..|raised| - 1];
      CandidatesAreLeast(rest);
      KeepsLeast(Candidates(rest), rest, e);
      assert raised == rest + [e];
    }
  }

  lemma NoneIsLeast() ensures LeastOfEach([], []) {}

  // ---------------------------------------------------------------- the counts

  datatype Counts = Counts(total: nat, tap: nat, slide: nat, hold: nat, touch: nat, breaks: nat)

  /** increment_count. */
  function Counted(c: Counts, kind: EventType): Counts {
    var d := match kind
      case Tap => c.(tap := c.tap + 1)
      case Break => c.(breaks := c.breaks + 1)
      case Hold => c.(hold := c.hold + 1)
      case Slide => c.(slide := c.slide + 1)
      case TouchTap => c.(touch := c.touch + 1)
      case TouchHold => c.(touch := c.touch + 1);
    d.(total := d.total + 1)
  }

  function CountsOf(notes: seq<Note>): Counts {
    if notes == [] then Counts(0, 0, 0, 0, 0, 0)
    else Counted(CountsOf(notes[..|notes| - 1]), notes[|notes| - 1].kind)
  }

  function NumberOf(notes: seq<Note>, kind: EventType): nat {
    if notes == [] then 0
    else NumberOf(notes[..|notes| - 1], kind) + if notes[|notes| - 1].kind == kind then 1 else 0
  }

  /** Each count is the number of notes of its kinds. */
  lemma {:induction false} CountsByKind(notes: seq<Note>)
    ensures var c := CountsOf(notes);
      && c.tap == NumberOf(notes, Tap) && c.slide == NumberOf(notes, Slide) && c.hold == NumberOf(notes, Hold)
      && c.touch == NumberOf(notes, TouchTap) + NumberOf(notes, TouchHold) && c.breaks == NumberOf(notes, Break)
  {
    if notes != [] {
      CountsByKind(notes[..|notes| - 1]);
    }
  }

  lemma {:induction false} CountsAddUp(notes: seq<Note>)
    ensures var c := CountsOf(notes); c.total == c.tap + c.slide + c.hold + c.touch + c.breaks == |notes|
  {
    if notes != [] {
      CountsAddUp(notes[..|notes| - 1]);
    }
  }

  /** canonical_event: piece by piece. */
  method CanonicalEvent(n: Note) returns (out: string)
    requires n.sensor < SensorCount
    ensures out == CanonicalText(n)
  {
    hide TouchName, Decimal;
    out := Decimal(n.tick) + " ";
    match n.kind {
      case Tap => out := out + "TAP B" + Decimal(n.lane + 1) + " 128";
      case Break => out := out + "BREAK B" + Decimal(n.lane + 1) + " 255 3";
      case Hold => out := out + "HOLD B" + Decimal(n.lane + 1) + " " + Decimal(n.endTick) + " 128";
      case Slide =>
        out := out + "SLIDE B" + Decimal(n.lane + 1) + " " + Decimal(n.endTick);
        out := out + " B" + Decimal(n.targetLane + 1) + " 0";
      case TouchTap => out := out + "TOUCH " + TouchName(n.sensor) + " 192";
      case TouchHold => out := out + "TOUCH_HOLD " + TouchName(n.sensor) + " " + Decimal(n.endTick) + " 192";
    }
  }

  // ---------------------------------------------------------------- the object

  /** BodyParser. The ghost fields remember every note and every error, in order; the real fields keep only what
      the source keeps. */
  class BodyParser {
    const whole: U32
    const body: string
    var tick: nat
    var division: nat
    var bpm: U32
    var initialBpm: bool
    var initialDivision: bool
    var pending: bool
    var ended: bool
    var parsedEvents: nat
    var buttons: seq<Source>
    var touches: seq<Source>
    var events: seq<Note>
    var counts: Counts
    var warnings: seq<Warning>
    var candidates: seq<SemanticError>
    var cells: seq<Cell>
    var maxTick: U32
    ghost var notes: seq<Note>
    ghost var raised: seq<SemanticError>

    ghost function View(): Body
      reads this
    {
      Body(tick, division, bpm, initialBpm, initialDivision, pending, ended, buttons, touches, notes, raised,
           warnings, cells, maxTick)
    }

    ghost predicate Valid()
      reads this
    {
      && |buttons| == 8 && |touches| == SensorCount && 0 < division
      && parsedEvents == |notes|
      && events == notes[..Min(|notes|, MaxEvents)]
      && counts == CountsOf(notes)
      && candidates == Candidates(raised)
    }

    constructor (whole: U32, body: string)
      ensures this.whole == whole && this.body == body && Valid() && View() == StartBody(whole)
    {
      this.whole, this.body := whole, body;
      tick, division, bpm, initialBpm, initialDivision, pending, ended := 0, 4, whole, true, true, false, false;
      parsedEvents, events, counts, warnings, candidates, cells, maxTick :=
        0, [], Counts(0, 0, 0, 0, 0, 0), [], [], [], 0;
      buttons, touches := seq(8, _ => NoSource), seq(SensorCount, _ => NoSource);
      notes, raised := [], [];
    }

    lemma IsShaped()
      requires Valid()
      ensures Shaped(View())
    {}

    function Entry(k: SourceKey): Source
      requires ValidKey(k) && |buttons| == 8 && |touches| == SensorCount
      reads this
    {
      if k.touch then touches[k.index] else buttons[k.index]
    }

    method AddError(code: ErrorCode, at: nat, detail: U32)
      requires Valid()
      modifies this`candidates, this`raised
      ensures Valid() && raised == old(raised) + [SemanticError(code, at, detail)]
    {
      var e := SemanticError(code, at, detail);
      assert (raised + [e])[..|raised|] == raised;
      var i := FindCode(candidates, code);
      if i == |candidates| {
        candidates := candidates + [e];
      } else if at < candidates[i].at || (at == candidates[i].at && detail < candidates[i].detail) {
        candidates := candidates[i := e];
      }
      raised := raised + [e];
    }

    /** add_error. */
    method Raise(code: ErrorCode, at: nat, detail: U32)
      requires Valid()
      modifies this`candidates, this`raised
      ensures Valid() && View() == old(View()).(raised := old(View()).raised + [SemanticError(code, at, detail)])
    {
      hide Valid;
      AddError(code, at, detail);
    }

    /** add_warning. */
    method AddWarning(code: WarningCode, at: nat)
      requires Valid()
      modifies this`warnings
      ensures Valid() && View() == old(View()).(warnings := old(View()).warnings + [Warning(code, at, 1)])
    {
      warnings := warnings + [Warning(code, at, 1)];
    }

    /** The source table for one note: the clash it makes, and the new entry. */
    method TakeSource(n: Note)
      requires Valid() && ValidKey(KeyOf(n))
      modifies this`candidates, this`raised, this`buttons, this`touches
      ensures Valid()
      ensures raised == old(raised) + ClashError(old(Entry(KeyOf(n))), n)
      ensures KeyOf(n).touch ==>
        buttons == old(buttons) && touches == old(touches)[KeyOf(n).index := SlotAfter(old(Entry(KeyOf(n))), n)]
      ensures !KeyOf(n).touch ==>
        touches == old(touches) && buttons == old(buttons)[KeyOf(n).index := SlotAfter(old(Entry(KeyOf(n))), n)]
    {
      hide Candidates, CountsOf;
      var touch := n.kind == TouchTap || n.kind == TouchHold;
      var slot := if touch then touches[n.sensor] else buttons[n.lane];
      if slot.haveTick && slot.tick == n.tick {
        AddError(DuplicateSource, n.at, if touch then 0x100 + n.sensor else n.lane);
      } else if slot.activeEnd > n.tick {
        AddError(ActiveOverlap, n.at, slot.activeEnd);
      }
      slot := slot.(haveTick := true, tick := n.tick);
      if n.kind in {Hold, Slide, TouchHold} && slot.activeEnd < n.endTick {
        slot := slot.(activeEnd := n.endTick);
      }
      if touch {
        touches := touches[n.sensor := slot];
      } else {
        buttons := buttons[n.lane := slot];
      }
    }

    /** The errors about the timeline and the slide target. */
    method CheckNote(s: Shape, n: Note)
      requires Valid() && n.lane < 8
      modifies this`candidates, this`raised, this`maxTick
      ensures Valid()
      ensures raised == old(raised) + TimeErrors(tick, s, n)
      ensures maxTick == if IsTimed(s.kind) then Max(old(maxTick), n.endTick) else old(maxTick)
    {
      hide Candidates, CountsOf;
      if IsTimed(s.kind) {
        maxTick := Max(maxTick, n.endTick);
        if tick + s.duration > 1048575 {
          AddError(TimelineRange, n.at, Saturated(tick + s.duration));
        }
      }
      assert raised == old(raised) + EndErrors(tick, s, n);
      if s.kind == Slide && n.targetLane == n.lane {
        AddError(SlideSelf, n.at, n.lane + 1);
      }
      if tick > 1048575 {
        AddError(TimelineRange, n.at, Saturated(tick));
      }
    }

    /** The note itself. */
    method StoreNote(n: Note)
      requires Valid()
      modifies this`candidates, this`raised, this`counts, this`parsedEvents, this`events, this`notes
      ensures Valid()
      ensures notes == old(notes) + [n] && raised == old(raised) + LimitErrors(|old(notes)|, n)
    {
      hide Candidates, Counted;
      assert (notes + [n])[..|notes|] == notes;
      if parsedEvents < MaxEvents {
        assert notes[..|notes|] == notes;
      }
      counts := Counted(counts, n.kind);
      parsedEvents := parsedEvents + 1;
      notes := notes + [n];
      if parsedEvents == 200001 {
        AddError(EventLimit, n.at, parsedEvents);
      }
      if parsedEvents <= 200000 {
        events := events + [n];
      }
    }

    /** A classified note: its errors, its place in the table, its place in the chart. */
    method Record(s: Shape, n: Note)
      requires Valid() && ValidKey(KeyOf(n)) && n.lane < 8
      modifies this`candidates, this`raised, this`maxTick, this`buttons, this`touches
      modifies this`counts, this`parsedEvents, this`events, this`notes
      ensures Valid()
      ensures Recorded(old(View()), s, n, old(Entry(KeyOf(n))), View())
    {
      hide Valid, SlotAfter, TimeErrors, ClashError, LimitErrors, Saturated, KeyOf, ValidKey, IsTimed;
      IsShaped();
      CheckNote(s, n);
      TakeSource(n);
      StoreNote(n);
    }

    /** The event of a note, with its canonical text. */
    method NewNote(s: Shape, at: nat) returns (n: Note)
      requires Valid() && s.index < (if IsTouch(s.kind) then SensorCount else 8) && s.target < 8
      ensures n == NoteOf(View(), s, at)
    {
      hide CanonicalText;
      var begin := if tick < 0xffff_ffff then tick else 0xffff_ffff;
      var end := if tick + s.duration < 0xffff_ffff then tick + s.duration else 0xffff_ffff;
      match s.kind {
        case Tap => n := Note(Tap, begin, 0, s.index, s.target, 0, 128, 0, "", at);
        case Break => n := Note(Break, begin, 0, s.index, s.target, 0, 255, 0, "", at);
        case Hold => n := Note(Hold, begin, end, s.index, s.target, 0, 128, 0, "", at);
        case Slide => n := Note(Slide, begin, end, s.index, s.target, 0, 0, 0, "", at);
        case TouchTap => n := Note(TouchTap, begin, 0, 0, s.target, s.index, 192, 0, "", at);
        case TouchHold => n := Note(TouchHold, begin, end, 0, s.target, s.index, 192, 0, "", at);
      }
      assert n == PlainNote(View(), s, at);
      var text := CanonicalEvent(n);
      n := n.(canonical := text);
    }

    /** parse_note. */
    method TakeNote(note: string, at: nat) returns (ok: bool)
      requires Valid()
      modifies this
      ensures ok == ParseNote(old(View()), note, at).Some?
      ensures ok ==> Valid() && View() == ParseNote(old(View()), note, at).value
    {
      hide Valid, Classify, Noted, NoteOf, PlainNote, CanonicalText, Recorded;
      var s := Classify(note);
      if s.None? {
        return false;
      }
      IsShaped();
      ghost var b := View();
      var n := NewNote(s.value, at);
      ghost var slot := Entry(KeyOf(n));
      Record(s.value, n);
      NotedIs(b, s.value, at, n, slot, View());
      ok := true;
    }

    /** The loop over the notes of a cell. */
    method TakeNotes(cell: string, begin: nat, cursor: nat) returns (ok: bool, count: nat)
      requires Valid() && cursor <= |cell|
      modifies this
      ensures ok == ParseNotes(old(View()), body, cell, begin, cursor).Some?
      ensures ok ==> Valid() && (View(), count) == ParseNotes(old(View()), body, cell, begin, cursor).value
    {
      hide Valid, ParseNote;
      count := 0;
      var noteBegin := cursor;
      IsShaped();
      ghost var all := ParseNotes(View(), body, cell, begin, cursor);
      while true
        invariant cursor <= noteBegin <= |cell| && Valid() && Shaped(View())
        invariant Continues(all, ParseNotes(View(), body, cell, begin, noteBegin), count)
        decreases |cell| - noteBegin
      {
        var slash := Find(cell, '/', noteBegin);
        ok := TakeNote(cell[noteBegin..slash], Place(body, begin + noteBegin));
        if !ok {
          return;
        }
        IsShaped();
        count := count + 1;
        if slash == |cell| {
          return;
        }
        noteBegin := slash + 1;
      }
    }

    /** One ( ... ) or { ... }. */
    method TakeControl(cell: string, begin: nat, cursor: nat) returns (ok: bool, next: nat)
      requires Valid() && cursor < |cell|
      modifies this
      ensures ok == ParseControl(old(View()), whole, body, cell, begin, cursor).Some?
      ensures ok ==> Valid() && (View(), next) == ParseControl(old(View()), whole, body, cell, begin, cursor).value
    {
      hide Candidates, CountsOf, ParseBpm, ParseUint, AddCandidate;
      next := cursor;
      var close := Find(cell, if cell[cursor] == '(' then ')' else '}', cursor + 1);
      var at := Place(body, begin + cursor);
      if close == |cell| {
        return false, next;
      }
      var value := cell[cursor + 1..close];
      if cell[cursor] == '(' {
        var parsed := ParseBpm(value);
        if parsed.None? {
          return false, next;
        }
        SetTempo(parsed.value, cell, close, at);
      } else {
        var division := ParseUint(value);
        if division.None? || division.value == 0 || 1536 % division.value != 0 {
          return false, next;
        }
        SetDivision(division.value, at);
      }
      ok, next := true, close + 1;
    }

    method SetTempo(bpm: U32, cell: string, close: nat, at: nat)
      requires Valid() && close < |cell|
      modifies this`bpm, this`warnings, this`candidates, this`raised, this`initialBpm, this`pending
      ensures Valid() && View() == Tempo(old(View()), whole, cell, close, bpm, at)
    {
      hide Valid, StartsWith;
      BehindIs(cell, close + 1);
      var conventional := initialBpm && initialDivision && tick == 0 && bpm == whole
                          && close + 1 + 3 <= |cell| && cell[close + 1..close + 1 + 3] == "{4}";
      var redundant := bpm == this.bpm && !conventional;
      ghost var b := View();
      assert conventional == (b.initialBpm && b.initialDivision && b.tick == 0 && bpm == whole
                              && StartsWith(cell, close + 1, "{4}"));
      assert redundant == (bpm == b.bpm && !conventional);
      hide View;
      if redundant {
        AddWarning(RedundantBpm, at);
      }
      if bpm < 30000 || bpm > 400000 {
        Raise(BpmRange, at, bpm);
      }
      KeepTempo(bpm, conventional);
    }

    method KeepTempo(bpm: U32, conventional: bool)
      requires Valid()
      modifies this`bpm, this`initialBpm, this`pending
      ensures Valid() && View() == old(View()).(bpm := bpm, initialBpm := false, pending := conventional)
    {
      this.bpm, initialBpm, pending := bpm, false, conventional;
    }

    method SetDivision(division: nat, at: nat)
      requires Valid() && 0 < division
      modifies this`division, this`warnings, this`initialDivision, this`pending
      ensures Valid() && View() == Divide(old(View()), division, at)
    {
      hide Valid;
      var conventional := pending && division == 4;
      if division == this.division && !conventional {
        AddWarning(RedundantDivision, at);
      }
      KeepDivision(division);
    }

    method KeepDivision(division: nat)
      requires Valid() && 0 < division
      modifies this`division, this`initialDivision, this`pending
      ensures Valid() && View() == old(View()).(division := division, initialDivision := false, pending := false)
    {
      this.division, initialDivision, pending := division, false, false;
    }

    /** parse_controls. */
    method TakeControls(cell: string, begin: nat) returns (ok: bool, cursor: nat)
      requires Valid()
      modifies this
      ensures ok == ParseControls(old(View()), whole, body, cell, begin, 0).Some?
      ensures ok ==> Valid() && (View(), cursor) == ParseControls(old(View()), whole, body, cell, begin, 0).value
    {
      hide Valid, ParseControl;
      cursor := 0;
      ghost var b := View();
      IsShaped();
      while cursor < |cell| && (cell[cursor] == '(' || cell[cursor] == '{')
        invariant cursor <= |cell| && Valid() && Shaped(View())
        invariant ParseControls(b, whole, body, cell, begin, 0) == ParseControls(View(), whole, body, cell, begin, cursor)
        decreases |cell| - cursor
      {
        ok, cursor := TakeControl(cell, begin, cursor);
        if !ok {
          return;
        }
        IsShaped();
      }
      ok := true;
    }

    /** The end of a cell. */
    method TakeStep(begin: nat, end: nat, cursor: nat, count: nat)
      requires Valid()
      modifies this`warnings, this`tick, this`candidates, this`raised, this`maxTick
      ensures Valid() && View() == Step(old(View()), body, begin, end, cursor, count)
    {
      hide Valid, Place, Saturated;
      IsShaped();
      var next := tick + TicksPerWhole / division;
      ghost var b := View();
      assert next == b.tick + TicksPerWhole / b.division;
      hide View, Step;
      WarnIfDense(count, Place(body, begin + cursor));
      ghost var b1 := View();
      Advance(next);
      ghost var b2 := View();
      RaiseIfLate(next, Place(body, if end < |body| then end else begin));
      StepInParts(b, body, begin, end, cursor, count, b1, b2, View());
      Reach(Saturated(next));
    }

    method WarnIfDense(count: nat, at: nat)
      requires Valid()
      modifies this`warnings
      ensures Valid() && View() == if count < 4 then old(View())
                                   else old(View()).(warnings := old(View()).warnings + [Warning(DenseEach, at, 1)])
    {
      hide Valid;
      if count >= 4 {
        AddWarning(DenseEach, at);
      }
    }

    method RaiseIfLate(tick: nat, at: nat)
      requires Valid()
      modifies this`candidates, this`raised
      ensures Valid() && View() == if tick <= MaxTimelineTick then old(View())
                                   else old(View()).(raised := old(View()).raised
                                                      + [SemanticError(TimelineRange, at, Saturated(tick))])
    {
      hide Valid, Saturated;
      if tick > 1048575 {
        Raise(TimelineRange, at, Saturated(tick));
      }
    }

    method Advance(tick: nat)
      requires Valid()
      modifies this`tick
      ensures Valid() && View() == old(View()).(tick := tick)
    {
      this.tick := tick;
    }

    method Reach(tick: U32)
      requires Valid()
      modifies this`maxTick
      ensures Valid() && View() == old(View()).(maxTick := Max(old(View()).maxTick, tick))
    {
      maxTick := Max(maxTick, tick);
    }

    /** parse_cell. */
    method TakeCell(begin: nat, end: nat) returns (ok: bool)
      requires Valid() && begin <= end <= |body|
      modifies this
      ensures ok == ParseCell(old(View()), whole, body, begin, end).Some?
      ensures ok ==> Valid() && View() == ParseCell(old(View()), whole, body, begin, end).value
    {
      hide Valid, ParseControls, ParseNotes, Step;
      IsShaped();
      var cell := body[begin..end];
      if cell == "E" {
        if end < |body| || ended {
          return false;
        }
        AddCell(cell, begin);
        MarkEnded();
        return true;
      }
      if ended {
        return false;
      }
      AddCell(cell, begin);
      var cursor, count;
      ok, cursor := TakeControls(cell, begin);
      if !ok {
        return;
      }
      count := 0;
      if cursor < |cell| {
        ok, count := TakeNotes(cell, begin, cursor);
        if !ok {
          return;
        }
      }
      TakeStep(begin, end, cursor, count);
    }

    method AddCell(cell: string, begin: nat)
      requires Valid()
      modifies this`cells
      ensures Valid() && View() == old(View()).(cells := old(cells) + [Cell(cell, Place(body, begin))])
    {
      cells := cells + [Cell(cell, Place(body, begin))];
    }

    method MarkEnded()
      requires Valid()
      modifies this`ended
      ensures Valid() && View() == old(View()).(ended := true)
    {
      ended := true;
    }

    /** The loop over the body. */
    method TakeCells() returns (ok: bool)
      requires Valid()
      modifies this
      ensures ok == ParseCells(old(View()), whole, body, 0).Some?
      ensures ok ==> Valid() && View() == ParseCells(old(View()), whole, body, 0).value
    {
      hide Valid, ParseCell;
      var cellBegin := 0;
      IsShaped();
      ghost var all := ParseCells(View(), whole, body, 0);
      for index := 0 to |body|
        invariant cellBegin <= index && Valid() && Shaped(View())
        invariant all == ParseCells(View(), whole, body, cellBegin)
        invariant forall i :: cellBegin <= i < index ==> body[i] != ','
      {
        if body[index] == ',' {
          FindAt(body, ',', cellBegin, index);
          ok := TakeCell(cellBegin, index);
          if !ok {
            return;
          }
          IsShaped();
          cellBegin := index + 1;
        }
      }
      FindAt(body, ',', cellBegin, |body|);
      ok := TakeCell(cellBegin, |body|);
    }

    lemma NoNotes()
      requires Valid()
      ensures events == [] && counts.total == 0 <==> View().notes == []
    {
      CountsAddUp(notes);
    }

    /** The whole body and the checks behind it. */
    method TakeBody() returns (ok: bool)
      requires Valid() && View() == StartBody(whole)
      modifies this
      ensures ok == ParseBody(whole, body).Some?
      ensures ok ==> Valid() && View() == ParseBody(whole, body).value
    {
      hide Valid, ParseCells, StartBody;
      ok := TakeCells();
      if !ok || !ended {
        return false;
      }
      NoNotes();
      if events == [] && counts.total == 0 {
        AddWarning(EmptyChart, 0);
      }
    }
  }

  // ---------------------------------------------------------------- the errors of a note, by the part that raises them

  function EndErrors(tick: nat, s: Shape, n: Note): seq<SemanticError> {
    if IsTimed(s.kind) && tick + s.duration > MaxTimelineTick then
      [SemanticError(TimelineRange, n.at, Saturated(tick + s.duration))]
    else []
  }

  function TimeErrors(tick: nat, s: Shape, n: Note): seq<SemanticError>
    requires n.lane < 8
  {
    EndErrors(tick, s, n)
    + (if s.kind == Slide && n.targetLane == n.lane then [SemanticError(SlideSelf, n.at, n.lane + 1)] else [])
    + (if tick > MaxTimelineTick then [SemanticError(TimelineRange, n.at, Saturated(tick))] else [])
  }

  function ClashError(slot: Source, n: Note): seq<SemanticError>
    requires ValidKey(KeyOf(n))
  {
    if slot.haveTick && slot.tick == n.tick then [SemanticError(DuplicateSource, n.at, DetailOf(KeyOf(n)))]
    else if slot.activeEnd > n.tick then [SemanticError(ActiveOverlap, n.at, slot.activeEnd)]
    else []
  }

  function LimitErrors(count: nat, n: Note): seq<SemanticError> {
    if count == MaxEvents then [SemanticError(EventLimit, n.at, MaxEvents + 1)] else []
  }

  lemma StepInParts(b: Body, body: string, begin: nat, end: nat, cursor: nat, count: nat, b1: Body, b2: Body, b3: Body)
    requires Shaped(b)
    requires b1 == if count < 4 then b
                   else b.(warnings := b.warnings + [Warning(DenseEach, Place(body, begin + cursor), 1)])
    requires b2 == b1.(tick := b.tick + TicksPerWhole / b.division)
    requires b3 == if b2.tick <= MaxTimelineTick then b2
                   else b2.(raised := b2.raised + [SemanticError(TimelineRange,
                              Place(body, if end < |body| then end else begin), Saturated(b2.tick))])
    ensures b3.(maxTick := Max(b3.maxTick, Saturated(b2.tick))) == Step(b, body, begin, end, cursor, count)
  {
    hide Place, Saturated;
  }

  /** The notes so far, `count` of them, and the rest make up the whole. */
  ghost predicate Continues(all: Option<(Body, nat)>, rest: Option<(Body, nat)>, count: nat) {
    (all.Some? <==> rest.Some?) && (rest.Some? ==> all.value == (rest.value.0, count + rest.value.1))
  }

  lemma BehindIs(cell: string, at: nat)
    ensures StartsWith(cell, at, "{4}") <==> at + 3 <= |cell| && cell[at..at + 3] == "{4}"
  {}

  /** The parts together are the whole of parse_note. */
  ghost predicate Recorded(b: Body, s: Shape, n: Note, slot: Source, r: Body)
    requires ValidKey(KeyOf(n)) && n.lane < 8
  {
    && Shaped(b)
    && r.raised == b.raised + TimeErrors(b.tick, s, n) + ClashError(slot, n) + LimitErrors(|b.notes|, n)
    && r.notes == b.notes + [n]
    && r.maxTick == (if IsTimed(s.kind) then Max(b.maxTick, n.endTick) else b.maxTick)
    && r.touches == (if KeyOf(n).touch then b.touches[KeyOf(n).index := SlotAfter(slot, n)] else b.touches)
    && r.buttons == (if KeyOf(n).touch then b.buttons else b.buttons[KeyOf(n).index := SlotAfter(slot, n)])
    && r == b.(buttons := r.buttons, touches := r.touches, raised := r.raised, notes := r.notes, maxTick := r.maxTick)
  }

  lemma NotedIs(b: Body, s: Shape, at: nat, n: Note, slot: Source, r: Body)
    requires Shaped(b) && s.index < (if IsTouch(s.kind) then SensorCount else 8) && s.target < 8
    requires n == NoteOf(b, s, at) && slot == Slot(b, KeyOf(n)) && Recorded(b, s, n, slot, r)
    ensures r == Noted(b, s, at)
  {
    hide ErrorsOf, TimeErrors, ClashError, LimitErrors, SlotAfter, NoteOf;
    ErrorsInParts(b, s, n);
  }

  lemma ErrorsInParts(b: Body, s: Shape, n: Note)
    requires Shaped(b) && ValidKey(KeyOf(n)) && n.lane < 8
    ensures b.raised + ErrorsOf(b, s, n)
         == b.raised + TimeErrors(b.tick, s, n) + ClashError(Slot(b, KeyOf(n)), n) + LimitErrors(|b.notes|, n)
  {}
}
