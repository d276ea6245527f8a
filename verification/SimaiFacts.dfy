/** What the parser keeps: ticks in order, an exact source table, and errors raised exactly when they should be. */
module SimaiFacts {
  import opened Common
  import opened Types
  import opened Text
  import opened Simai

  // ---------------------------------------------------------------- the order of notes

  /** Notes are in time order and in text order, and nothing in the chart lies after max_tick. */
  ghost predicate Ordered(b: Body, limit: nat) {
    && (forall i, j :: 0 <= i < j < |b.notes| ==> b.notes[i].tick <= b.notes[j].tick && b.notes[i].at < b.notes[j].at)
    && (forall i :: 0 <= i < |b.notes| ==> b.notes[i].tick <= Saturated(b.tick) && b.notes[i].at < limit)
    && (forall i :: 0 <= i < |b.notes| ==> b.notes[i].endTick <= b.maxTick)
    && Saturated(b.tick) <= b.maxTick
  }

  // ---------------------------------------------------------------- the source table

  /** What the table holds for a key, read off the notes. */
  function SourceOf(notes: seq<Note>, k: SourceKey): Source {
    if notes == [] then NoSource
    else
      var n := notes[|notes| - 1];
      var before := SourceOf(notes[..|notes| - 1], k);
      if KeyOf(n) == k then SlotAfter(before, n) else before
  }

  ghost predicate TableRight(b: Body) {
    Shaped(b) && forall k: SourceKey :: ValidKey(k) ==> Slot(b, k) == SourceOf(b.notes, k)
  }

  /** Two notes of one source that cannot both be played: at the same tick, or the later inside the earlier. */
  predicate Clash(m: Note, n: Note) {
    KeyOf(m) == KeyOf(n) && (m.tick == n.tick || (IsTimed(m.kind) && m.endTick > n.tick))
  }

  ghost predicate AnyClash(notes: seq<Note>) {
    exists i, j :: 0 <= i < j < |notes| && Clash(notes[i], notes[j])
  }

  predicate IsClashError(e: SemanticError) { e.code == DuplicateSource || e.code == ActiveOverlap }

  ghost predicate ClashRaised(raised: seq<SemanticError>) {
    exists i :: 0 <= i < |raised| && IsClashError(raised[i])
  }

  /** The table entry of a source clashes with a later note exactly if one of the source's notes does. */
  lemma {:induction false} TableClash(notes: seq<Note>, n: Note)
    requires forall i, j :: 0 <= i < j < |notes| ==> notes[i].tick <= notes[j].tick
    requires forall i :: 0 <= i < |notes| ==> notes[i].tick <= n.tick
    ensures var s := SourceOf(notes, KeyOf(n));
      (s.haveTick && s.tick == n.tick) || s.activeEnd > n.tick
      <==> exists i :: 0 <= i < |notes| && Clash(notes[i], n)
  {
    if notes != [] {
      var m, rest := notes[|notes| - 1], notes[..|notes| - 1];
      TableClash(rest, n);
      var s, s0 := SourceOf(notes, KeyOf(n)), SourceOf(rest, KeyOf(n));
      assert (exists i :: 0 <= i < |notes| && Clash(notes[i], n))
        <==> (exists i :: 0 <= i < |rest| && Clash(rest[i], n)) || Clash(m, n) by {
        if i :| 0 <= i < |rest| && Clash(rest[i], n) {
          assert Clash(notes[i], n);
        }
        if Clash(m, n) {
          assert Clash(notes[|notes| - 1], n);
        }
      }
      if KeyOf(m) == KeyOf(n) {
        SameTickLast(rest, n, m);
      }
    }
  }

  /** If the table's tick is an earlier note's and equals n's, so does every later one's. */
  lemma {:induction false} SameTickLast(notes: seq<Note>, n: Note, m: Note)
    requires forall i :: 0 <= i < |notes| ==> notes[i].tick <= m.tick
    requires m.tick <= n.tick
    ensures var s := SourceOf(notes, KeyOf(n)); s.haveTick ==> s.tick <= m.tick
  {
    if notes != [] {
      SameTickLast(notes[..|notes| - 1], n, m);
    }
  }

  lemma AnyClashAppend(notes: seq<Note>, n: Note)
    ensures AnyClash(notes + [n]) <==> AnyClash(notes) || exists i :: 0 <= i < |notes| && Clash(notes[i], n)
  {
    var all := notes + [n];
    if AnyClash(all) {
      var i, j :| 0 <= i < j < |all| && Clash(all[i], all[j]);
      if j < |notes| {
        assert Clash(notes[i], notes[j]);
      } else {
        assert Clash(notes[i], n);
      }
    }
    if AnyClash(notes) {
      var i, j :| 0 <= i < j < |notes| && Clash(notes[i], notes[j]);
      assert Clash(all[i], all[j]);
    }
    if i :| 0 <= i < |notes| && Clash(notes[i], n) {
      assert Clash(all[i], all[|notes|]);
    }
  }

  lemma ClashRaisedAppend(a: seq<SemanticError>, b: seq<SemanticError>)
    ensures ClashRaised(a + b) <==> ClashRaised(a) || ClashRaised(b)
  {
    if i :| 0 <= i < |a + b| && IsClashError((a + b)[i]) {
      if i < |a| {
        assert IsClashError(a[i]);
      } else {
        assert IsClashError(b[i - |a|]);
      }
    }
    if i :| 0 <= i < |a| && IsClashError(a[i]) {
      assert IsClashError((a + b)[i]);
    }
    if i :| 0 <= i < |b| && IsClashError(b[i]) {
      assert IsClashError((a + b)[|a| + i]);
    }
  }

  /** A note raises a clash error exactly if its table entry clashes. */
  lemma ErrorsClash(b: Body, s: Shape, n: Note)
    requires Shaped(b) && ValidKey(KeyOf(n)) && n.lane < 8
    ensures var slot := Slot(b, KeyOf(n));
      ClashRaised(ErrorsOf(b, s, n)) <==> (slot.haveTick && slot.tick == n.tick) || slot.activeEnd > n.tick
  {
    var slot := Slot(b, KeyOf(n));
    var a1 := if IsTimed(s.kind) && b.tick + s.duration > MaxTimelineTick then
      [SemanticError(TimelineRange, n.at, Saturated(b.tick + s.duration))] else [];
    var a2 := if s.kind == Slide && n.targetLane == n.lane then [SemanticError(SlideSelf, n.at, n.lane + 1)] else [];
    var a3 := if b.tick > MaxTimelineTick then [SemanticError(TimelineRange, n.at, Saturated(b.tick))] else [];
    var a4 := if slot.haveTick && slot.tick == n.tick then [SemanticError(DuplicateSource, n.at, DetailOf(KeyOf(n)))]
      else if slot.activeEnd > n.tick then [SemanticError(ActiveOverlap, n.at, slot.activeEnd)] else [];
    var a5 := if |b.notes| == MaxEvents then [SemanticError(EventLimit, n.at, MaxEvents + 1)] else [];
    assert ErrorsOf(b, s, n) == (((a1 + a2) + a3) + a4) + a5;
    ClashRaisedAppend(((a1 + a2) + a3) + a4, a5);
    ClashRaisedAppend((a1 + a2) + a3, a4);
    ClashRaisedAppend(a1 + a2, a3);
    ClashRaisedAppend(a1, a2);
    if a4 != [] {
      assert IsClashError(a4[0]);
    }
  }

  // ---------------------------------------------------------------- the invariant

  /** What holds after every note, control and cell; no note lies at or behind `limit`. */
  ghost predicate Keeps(b: Body, limit: nat) {
    && Ordered(b, limit)
    && TableRight(b)
    && (ClashRaised(b.raised) <==> AnyClash(b.notes))
  }

  lemma NotedOrdered(b: Body, s: Shape, at: nat)
    requires Shaped(b) && s.index < (if IsTouch(s.kind) then SensorCount else 8) && s.target < 8
    requires Ordered(b, at)
    ensures Ordered(Noted(b, s, at), at + 1)
  {
    hide ErrorsOf, NoteOf, Noted, Saturated, IsTimed;
    NoteWithin(b, s, at);
    SlotsOnly(b, s, at);
  }

  lemma NoteWithin(b: Body, s: Shape, at: nat)
    requires s.index < (if IsTouch(s.kind) then SensorCount else 8) && s.target < 8
    ensures var n := NoteOf(b, s, at);
      && n.tick == Saturated(b.tick) && n.at == at && n.kind == s.kind && (!IsTimed(s.kind) ==> n.endTick == 0)
      && ValidKey(KeyOf(n)) && n.lane < 8
  {
    hide CanonicalText, Saturated;
  }

  /** The rest of the state stays as it was. */
  lemma SlotsOnly(b: Body, s: Shape, at: nat)
    requires Shaped(b) && s.index < (if IsTouch(s.kind) then SensorCount else 8) && s.target < 8
    ensures var n, r := NoteOf(b, s, at), Noted(b, s, at);
      && r.tick == b.tick && r.notes == b.notes + [n]
      && r.maxTick == if IsTimed(s.kind) then Max(b.maxTick, n.endTick) else b.maxTick
  {
    hide ErrorsOf, NoteOf, SlotAfter, IsTimed;
  }

  lemma NotedTable(b: Body, s: Shape, at: nat)
    requires Shaped(b) && s.index < (if IsTouch(s.kind) then SensorCount else 8) && s.target < 8
    requires TableRight(b)
    ensures TableRight(Noted(b, s, at))
  {
    hide ErrorsOf, NoteOf;
    var n := NoteOf(b, s, at);
    assert ValidKey(KeyOf(n)) by { KeyOfNote(b, s, at); }
    var r := Noted(b, s, at);
    assert r.notes[..|r.notes| - 1] == b.notes;
  }

  lemma KeyOfNote(b: Body, s: Shape, at: nat)
    requires s.index < (if IsTouch(s.kind) then SensorCount else 8) && s.target < 8
    ensures ValidKey(KeyOf(NoteOf(b, s, at)))
  {}

  lemma NotedClash(b: Body, s: Shape, at: nat)
    requires Shaped(b) && s.index < (if IsTouch(s.kind) then SensorCount else 8) && s.target < 8
    requires Ordered(b, at) && TableRight(b) && (ClashRaised(b.raised) <==> AnyClash(b.notes))
    ensures var r := Noted(b, s, at); ClashRaised(r.raised) <==> AnyClash(r.notes)
  {
    hide ErrorsOf, ClashRaised, AnyClash, Clash, SourceOf;
    KeyOfNote(b, s, at);
    var n := NoteOf(b, s, at);
    ErrorsClash(b, s, n);
    TableClash(b.notes, n);
    AnyClashAppend(b.notes, n);
    ClashRaisedAppend(b.raised, ErrorsOf(b, s, n));
  }

  lemma NotedKeeps(b: Body, s: Shape, at: nat)
    requires Shaped(b) && s.index < (if IsTouch(s.kind) then SensorCount else 8) && s.target < 8
    requires Keeps(b, at)
    ensures Keeps(Noted(b, s, at), at + 1)
  {
    hide Ordered, TableRight, ClashRaised, AnyClash, Noted;
    NotedOrdered(b, s, at);
    NotedTable(b, s, at);
    NotedClash(b, s, at);
  }

  /** Only notes, ticks and errors matter; other changes of the state keep it. */
  lemma KeepsSame(b: Body, r: Body, limit: nat, limit': nat, more: seq<SemanticError>)
    requires Keeps(b, limit) && limit <= limit' && !ClashRaised(more)
    requires r.notes == b.notes && r.buttons == b.buttons && r.touches == b.touches && r.raised == b.raised + more
    requires 0 < r.division && b.tick <= r.tick && Saturated(r.tick) <= r.maxTick && b.maxTick <= r.maxTick
    ensures Keeps(r, limit')
  {
    hide ClashRaised, AnyClash;
    ClashRaisedAppend(b.raised, more);
    assert forall k: SourceKey :: ValidKey(k) ==> Slot(r, k) == Slot(b, k);
  }

  lemma {:induction false} NotesKeep(b: Body, body: string, cell: string, begin: nat, from: nat)
    requires Shaped(b) && from <= |cell| && begin + |cell| <= |body| && Keeps(b, begin + from)
    ensures var r := ParseNotes(b, body, cell, begin, from);
      r.Some? ==> Keeps(r.value.0, begin + |cell| + 1)
    decreases |cell| - from
  {
    hide Keeps, Classify, Noted;
    var slash := Find(cell, '/', from);
    var s := Classify(cell[from..slash]);
    if s.Some? {
      NoteNotEmpty(cell[from..slash]);
      var b1 := Noted(b, s.value, begin + from);
      NotedKeeps(b, s.value, begin + from);
      KeepsMore(b1, begin + from + 1, begin + slash + 1);
      if slash < |cell| {
        NotesKeep(b1, body, cell, begin, slash + 1);
      }
    }
  }

  lemma NoteNotEmpty(note: string)
    ensures Classify(note).Some? ==> note != ""
  {}

  lemma KeepsMore(b: Body, limit: nat, limit': nat)
    requires Keeps(b, limit) && limit <= limit'
    ensures Keeps(b, limit')
  {
    hide TableRight, ClashRaised, AnyClash;
  }

  lemma NoClash(code: ErrorCode, at: nat, detail: U32)
    requires code != DuplicateSource && code != ActiveOverlap
    ensures !ClashRaised([SemanticError(code, at, detail)]) && !ClashRaised([])
  {}

  lemma ControlKeeps(b: Body, whole: U32, body: string, cell: string, begin: nat, cursor: nat, limit: nat)
    requires Shaped(b) && cursor < |cell| && Keeps(b, limit)
    ensures var r := ParseControl(b, whole, body, cell, begin, cursor); r.Some? ==> Keeps(r.value.0, limit)
  {
    hide Keeps, ClashRaised, ParseBpm, ParseUint;
    var r := ParseControl(b, whole, body, cell, begin, cursor);
    if r.Some? {
      var b1 := r.value.0;
      TickInside(b, limit);
      if b1.raised == b.raised {
        NoClash(BpmRange, 0, 0);
        assert b1.raised == b.raised + [];
        KeepsSame(b, b1, limit, limit, []);
      } else {
        var e := b1.raised[|b.raised|];
        NoClash(e.code, e.at, e.detail);
        assert b1.raised == b.raised + [e];
        KeepsSame(b, b1, limit, limit, [e]);
      }
    }
  }

  lemma TickInside(b: Body, limit: nat)
    requires Keeps(b, limit)
    ensures Saturated(b.tick) <= b.maxTick
  {}

  lemma {:induction false} ControlsKeep(b: Body, whole: U32, body: string, cell: string, begin: nat, cursor: nat,
                                        limit: nat)
    requires Shaped(b) && cursor <= |cell| && Keeps(b, limit)
    ensures var r := ParseControls(b, whole, body, cell, begin, cursor); r.Some? ==> Keeps(r.value.0, limit)
    decreases |cell| - cursor
  {
    hide Keeps, ParseControl;
    if AtControl(cell, cursor) {
      var r := ParseControl(b, whole, body, cell, begin, cursor);
      ControlKeeps(b, whole, body, cell, begin, cursor, limit);
      if r.Some? {
        ControlsKeep(r.value.0, whole, body, cell, begin, r.value.1, limit);
      }
    }
  }

  lemma StepKeeps(b: Body, body: string, begin: nat, end: nat, cursor: nat, count: nat, limit: nat)
    requires Shaped(b) && Keeps(b, limit)
    ensures Keeps(Step(b, body, begin, end, cursor, count), limit)
  {
    hide Keeps, ClashRaised;
    var r := Step(b, body, begin, end, cursor, count);
    if r.raised == b.raised {
      NoClash(BpmRange, 0, 0);
      assert r.raised == b.raised + [];
      KeepsSame(b, r, limit, limit, []);
    } else {
      var e := r.raised[|b.raised|];
      NoClash(e.code, e.at, e.detail);
      assert r.raised == b.raised + [e];
      KeepsSame(b, r, limit, limit, [e]);
    }
  }

  lemma CellKeeps(b: Body, whole: U32, body: string, begin: nat, end: nat)
    requires Shaped(b) && begin <= end <= |body| && Keeps(b, begin)
    ensures var r := ParseCell(b, whole, body, begin, end); r.Some? ==> Keeps(r.value, end + 1)
  {
    hide Keeps, ParseControls, ParseNotes, Step, ClashRaised;
    var cell := body[begin..end];
    var r := ParseCell(b, whole, body, begin, end);
    if r.Some? {
      TickInside(b, begin);
      NoClash(BpmRange, 0, 0);
      assert b.raised == b.raised + [];
      if cell == "E" {
        KeepsSame(b, r.value, begin, end + 1, []);
      } else {
        var b0 := b.(cells := b.cells + [Cell(cell, Place(body, begin))]);
        KeepsSame(b, b0, begin, begin, []);
        ControlsKeep(b0, whole, body, cell, begin, 0, begin);
        var (b1, cursor) := ParseControls(b0, whole, body, cell, begin, 0).value;
        if cursor == |cell| {
          StepKeeps(b1, body, begin, end, cursor, 0, begin);
          KeepsMore(r.value, begin, end + 1);
        } else {
          KeepsMore(b1, begin, begin + cursor);
          NotesKeep(b1, body, cell, begin, cursor);
          var (b2, count) := ParseNotes(b1, body, cell, begin, cursor).value;
          StepKeeps(b2, body, begin, end, cursor, count, end + 1);
        }
      }
    }
  }

  lemma {:induction false} CellsKeep(b: Body, whole: U32, body: string, begin: nat)
    requires Shaped(b) && begin <= |body| && Keeps(b, begin)
    ensures var r := ParseCells(b, whole, body, begin); r.Some? ==> Keeps(r.value, |body| + 1)
    decreases |body| - begin
  {
    hide Keeps, ParseCell;
    var end := Find(body, ',', begin);
    var r := ParseCell(b, whole, body, begin, end);
    CellKeeps(b, whole, body, begin, end);
    if r.Some? && end < |body| {
      CellsKeep(r.value, whole, body, end + 1);
    }
  }

  lemma StartKeeps(whole: U32)
    ensures Keeps(StartBody(whole), 0)
  {
    var b := StartBody(whole);
    assert !AnyClash(b.notes) && !ClashRaised(b.raised);
    forall k: SourceKey | ValidKey(k)
      ensures Slot(b, k) == SourceOf(b.notes, k)
    {}
  }

  /** Every accepted body: its notes are in order, max_tick bounds them, and neither DuplicateSource nor
      ActiveOverlap is raised exactly if no two notes of a source clash. */
  lemma ParsedBodyKeeps(whole: U32, body: string)
    ensures var r := ParseBody(whole, body); r.Some? ==> Keeps(r.value, |body| + 1)
  {
    hide Keeps, ClashRaised, ParseCells;
    StartKeeps(whole);
    CellsKeep(StartBody(whole), whole, body, 0);
    var r := ParseCells(StartBody(whole), whole, body, 0);
    if r.Some? && r.value.ended && r.value.notes == [] {
      TickInside(r.value, |body| + 1);
      NoClash(BpmRange, 0, 0);
      assert r.value.raised == r.value.raised + [];
      KeepsSame(r.value, ParseBody(whole, body).value, |body| + 1, |body| + 1, []);
    }
  }

  /** The one-pass table is an exact check. */
  lemma SourceCheckIsExact(whole: U32, body: string)
    requires ParseBody(whole, body).Some?
    ensures var b := ParseBody(whole, body).value;
      (forall i :: 0 <= i < |b.raised| ==> b.raised[i].code != DuplicateSource && b.raised[i].code != ActiveOverlap)
      <==> forall i, j :: 0 <= i < j < |b.notes| && KeyOf(b.notes[i]) == KeyOf(b.notes[j]) ==>
        b.notes[i].tick < b.notes[j].tick
        && (IsTimed(b.notes[i].kind) ==> b.notes[i].endTick <= b.notes[j].tick)
  {
    hide ParseBody;
    ParsedBodyKeeps(whole, body);
    var b := ParseBody(whole, body).value;
    assert ClashRaised(b.raised) <==> AnyClash(b.notes);
    assert forall i, j :: 0 <= i < j < |b.notes| ==> b.notes[i].tick <= b.notes[j].tick;
    if !AnyClash(b.notes) {
      forall i, j | 0 <= i < j < |b.notes| && KeyOf(b.notes[i]) == KeyOf(b.notes[j])
        ensures b.notes[i].tick < b.notes[j].tick
        ensures IsTimed(b.notes[i].kind) ==> b.notes[i].endTick <= b.notes[j].tick
      {
        assert !Clash(b.notes[i], b.notes[j]);
      }
    } else {
      var i, j :| 0 <= i < j < |b.notes| && Clash(b.notes[i], b.notes[j]);
    }
  }
}
