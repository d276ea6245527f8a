/** How large the parts of an accepted chart can be: counts, warnings and the places of errors. */
module ChartBounds {
  import opened Common
  import opened Types
  import opened Text
  import opened Simai
  import opened SimaiFacts
  import opened SimaiParser
  import opened Maidata
  import opened ChartFacts
  import opened MaidataWriter
  import States
  import Histories
  import Render

  /** All errors are at characters of the body. */
  predicate AllInside(raised: seq<SemanticError>, size: nat) {
    forall i :: 0 <= i < |raised| ==> raised[i].at < size
  }

  /** After `pos` characters there are at most that many notes, and as many warnings. */
  predicate Within(b: Body, body: string, pos: nat) {
    |b.notes| <= pos && |b.warnings| <= pos && AllInside(b.raised, |body|)
  }

  lemma ErrorsAtNote(b: Body, s: Shape, n: Note)
    requires Shaped(b) && ValidKey(KeyOf(n)) && n.lane < 8
    ensures forall i :: 0 <= i < |ErrorsOf(b, s, n)| ==> ErrorsOf(b, s, n)[i].at == n.at
  {}

  lemma NotedWithin(b: Body, body: string, s: Shape, at: nat, pos: nat)
    requires Shaped(b) && s.index < (if IsTouch(s.kind) then SensorCount else 8) && s.target < 8
    requires Within(b, body, pos) && at < |body|
    ensures Within(Noted(b, s, at), body, pos + 1)
  {
    hide ErrorsOf, CanonicalText, SlotAfter;
    ErrorsAtNote(b, s, NoteOf(b, s, at));
  }

  lemma {:induction false} NotesWithin(b: Body, body: string, cell: string, begin: nat, from: nat, pos: nat)
    requires Shaped(b) && from <= |cell| && body != "" && Within(b, body, pos)
    ensures var r := ParseNotes(b, body, cell, begin, from);
      r.Some? ==> Within(r.value.0, body, pos + |cell| - from)
    decreases |cell| - from
  {
    hide Within, Classify, Noted;
    var slash := Find(cell, '/', from);
    var s := Classify(cell[from..slash]);
    if s.Some? {
      NoteNotEmpty(cell[from..slash]);
      var b1 := Noted(b, s.value, Place(body, begin + from));
      NotedWithin(b, body, s.value, Place(body, begin + from), pos);
      if slash < |cell| {
        NotesWithin(b1, body, cell, begin, slash + 1, pos + 1);
        var r := ParseNotes(b1, body, cell, begin, slash + 1);
        if r.Some? {
          WithinMore(r.value.0, body, pos + 1 + |cell| - (slash + 1), pos + |cell| - from);
        }
      } else {
        WithinMore(b1, body, pos + 1, pos + |cell| - from);
      }
    }
  }

  lemma WithinMore(b: Body, body: string, pos: nat, pos': nat)
    requires Within(b, body, pos) && pos <= pos'
    ensures Within(b, body, pos')
  {}

  lemma ControlWithin(b: Body, whole: U32, body: string, cell: string, begin: nat, cursor: nat, pos: nat)
    requires Shaped(b) && cursor < |cell| && body != "" && Within(b, body, pos)
    ensures var r := ParseControl(b, whole, body, cell, begin, cursor); r.Some? ==> Within(r.value.0, body, pos + 1)
  {
    hide ParseBpm, ParseUint;
  }

  lemma {:induction false} ControlsWithin(b: Body, whole: U32, body: string, cell: string, begin: nat, cursor: nat,
                                          pos: nat)
    requires Shaped(b) && cursor <= |cell| && body != "" && Within(b, body, pos)
    ensures var r := ParseControls(b, whole, body, cell, begin, cursor);
      r.Some? ==> Within(r.value.0, body, pos + r.value.1 - cursor)
    decreases |cell| - cursor
  {
    hide Within, ParseControl;
    if AtControl(cell, cursor) {
      var r := ParseControl(b, whole, body, cell, begin, cursor);
      ControlWithin(b, whole, body, cell, begin, cursor, pos);
      if r.Some? {
        ControlsWithin(r.value.0, whole, body, cell, begin, r.value.1, pos + 1);
        var all := ParseControls(r.value.0, whole, body, cell, begin, r.value.1);
        if all.Some? {
          WithinMore(all.value.0, body, pos + 1 + all.value.1 - r.value.1, pos + all.value.1 - cursor);
        }
      }
    }
  }

  lemma StepWithin(b: Body, body: string, begin: nat, end: nat, cursor: nat, count: nat, pos: nat)
    requires Shaped(b) && Within(b, body, pos) && body != ""
    ensures Within(Step(b, body, begin, end, cursor, count), body, pos + 1)
  {}

  lemma CellWithin(b: Body, whole: U32, body: string, begin: nat, end: nat)
    requires Shaped(b) && begin <= end <= |body| && body != "" && Within(b, body, begin)
    ensures var r := ParseCell(b, whole, body, begin, end); r.Some? ==> Within(r.value, body, end + 1)
  {
    hide Within, ParseControls, ParseNotes, Step;
    var cell := body[begin..end];
    var r := ParseCell(b, whole, body, begin, end);
    if r.Some? {
      var b0 := b.(cells := b.cells + [Cell(cell, Place(body, begin))]);
      CellsAside(b, b0, body, begin);
      if cell == "E" {
        CellsAside(b, r.value, body, begin);
        WithinMore(r.value, body, begin, end + 1);
      } else {
        ControlsWithin(b0, whole, body, cell, begin, 0, begin);
        var (b1, cursor) := ParseControls(b0, whole, body, cell, begin, 0).value;
        if cursor == |cell| {
          StepWithin(b1, body, begin, end, cursor, 0, begin + cursor);
        } else {
          NotesWithin(b1, body, cell, begin, cursor, begin + cursor);
          var (b2, count) := ParseNotes(b1, body, cell, begin, cursor).value;
          StepWithin(b2, body, begin, end, cursor, count, end);
        }
      }
    }
  }

  lemma CellsAside(b: Body, c: Body, body: string, pos: nat)
    requires Within(b, body, pos) && c == b.(cells := c.cells, ended := c.ended)
    ensures Within(c, body, pos)
  {}

  lemma {:induction false} CellsWithin(b: Body, whole: U32, body: string, begin: nat)
    requires Shaped(b) && begin <= |body| && body != "" && Within(b, body, begin)
    ensures var r := ParseCells(b, whole, body, begin); r.Some? ==> Within(r.value, body, |body| + 1)
    decreases |body| - begin
  {
    hide Within, ParseCell;
    var end := Find(body, ',', begin);
    var r := ParseCell(b, whole, body, begin, end);
    CellWithin(b, whole, body, begin, end);
    if r.Some? && end < |body| {
      CellsWithin(r.value, whole, body, end + 1);
    }
  }

  /** An accepted body has at most one note more than characters, as many warnings and one, and its errors are at its
      characters. */
  lemma ParsedBodyWithin(whole: U32, body: string)
    requires body != ""
    ensures var r := ParseBody(whole, body); r.Some? ==> Within(r.value, body, |body| + 2)
  {
    hide ParseCells;
    CellsWithin(StartBody(whole), whole, body, 0);
  }

  // ---------------------------------------------------------------- the lengths that are drawn

  /** In every frame of every accepted chart, what is held ends within the chart, and the height of a hold and the arm
      of a touch hold are drawn without wrapping: at most 144 and 7 pixels. */
  lemma DrawnLengths(chartId: U64, text: string, m: Metadata, lines: seq<string>, c: Chart, frame: nat, k: nat)
    requires Parses(text, m, lines, c) && frame < FrameCount && k < SensorCount
    ensures var s := States.StateAt(chartId, FrameChart(c), frame); var tick := FrameTick(c.maxTick, frame);
      && (k < 8 && s.holds[k].present && s.holds[k].endTick > tick ==>
            HeldWithin(s.holds[k].endTick, tick, c.maxTick)
            && Render.HoldHeight(s.holds[k].endTick - tick, c.maxTick)
               == 1 + Render.Portion(s.holds[k].endTick - tick, 143, c.maxTick) <= 144)
      && (s.touchHolds[k].present && s.touchHolds[k].endTick > tick ==>
            HeldWithin(s.touchHolds[k].endTick, tick, c.maxTick)
            && Render.ArmLength(s.touchHolds[k].endTick - tick, c.maxTick)
               == 2 + Render.Portion(s.touchHolds[k].endTick - tick, 5, c.maxTick) <= 7)
  {
    hide Parses, States.StateAt, FrameTick, Render.HoldHeight, Render.ArmLength, Render.Portion;
    ParsedEndsWithin(text, m, lines, c);
    Histories.ShownEnds(chartId, FrameChart(c), frame, k, c.maxTick);
    var s, tick := States.StateAt(chartId, FrameChart(c), frame), FrameTick(c.maxTick, frame);
    if k < 8 && s.holds[k].present && s.holds[k].endTick > tick {
      Render.LengthsDoNotWrap(s.holds[k].endTick - tick, c.maxTick);
    }
    if s.touchHolds[k].present && s.touchHolds[k].endTick > tick {
      Render.LengthsDoNotWrap(s.touchHolds[k].endTick - tick, c.maxTick);
    }
  }

  /** The end of what is held, and how much of it is left. */
  predicate HeldWithin(endTick: U32, tick: U32, maxTick: U32) { endTick <= maxTick && endTick - tick <= maxTick }

  // ---------------------------------------------------------------- the location of an error

  lemma {:induction false} SpotSmall(lines: seq<string>, at: nat, line: nat, offset: nat)
    requires at < |Concat(lines)| && forall i :: 0 <= i < |lines| ==> |lines[i]| <= MaxLine
    ensures var s := SpotOf(lines, at, line, offset);
      line <= s.line < line + |lines| && 1 <= s.column <= MaxLine
  {
    if at >= |lines[0]| {
      SpotSmall(lines[1..], at - |lines[0]|, line + 1, offset + |lines[0]| + 1);
    }
  }
}
