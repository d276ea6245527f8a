/** From an accepted text to its frames: places in the text, the selected error, and every event played once. */
module ChartFacts {
  import opened Common
  import opened Types
  import opened Text
  import opened Simai
  import opened SimaiFacts
  import opened SimaiParser
  import opened Maidata
  import States
  import Histories

  // ---------------------------------------------------------------- where a body character is

  /** A SourceLocation: line and column count from 1. */
  datatype Spot = Spot(line: nat, column: nat, offset: nat)

  /** The location of character `at` of the body lines, the first of which has this number and offset. */
  function SpotOf(lines: seq<string>, at: nat, line: nat, offset: nat): Spot
    requires at < |Concat(lines)|
  {
    if at < |lines[0]| then Spot(line, at + 1, offset + at)
    else SpotOf(lines[1..], at - |lines[0]|, line + 1, offset + |lines[0]| + 1)
  }

  function SpotIn(m: Metadata, lines: seq<string>, at: nat): Spot
    requires at < |Concat(lines)|
  {
    SpotOf(lines, at, 8, |Join(MetaLines(m))|)
  }

  lemma {:induction false} SpotPoints(lines: seq<string>, at: nat, line: nat, head: string)
    requires at < |Concat(lines)|
    ensures var o := SpotOf(lines, at, line, |head|).offset; var text := head + Join(lines);
      o < |text| && text[o] == Concat(lines)[at]
  {
    JoinFirst(lines);
    var more := head + (lines[0] + "\n");
    assert head + Join(lines) == more + Join(lines[1..]);
    if at < |lines[0]| {
    } else {
      SpotPoints(lines[1..], at - |lines[0]|, line + 1, more);
    }
  }

  lemma {:induction false} SpotsGrow(lines: seq<string>, at: nat, later: nat, line: nat, offset: nat)
    requires at < later < |Concat(lines)|
    ensures SpotOf(lines, at, line, offset).offset < SpotOf(lines, later, line, offset).offset
  {
    if at >= |lines[0]| {
      SpotsGrow(lines[1..], at - |lines[0]|, later - |lines[0]|, line + 1, offset + |lines[0]| + 1);
    } else if later >= |lines[0]| {
      SpotsAfter(lines[1..], later - |lines[0]|, line + 1, offset + |lines[0]| + 1);
    }
  }

  lemma {:induction false} SpotsAfter(lines: seq<string>, at: nat, line: nat, offset: nat)
    requires at < |Concat(lines)|
    ensures SpotOf(lines, at, line, offset).offset >= offset
  {
    if at >= |lines[0]| {
      SpotsAfter(lines[1..], at - |lines[0]|, line + 1, offset + |lines[0]| + 1);
    }
  }

  /** A place in the body names its character in the text, and later places have larger offsets: comparing places
      is comparing byte offsets. */
  lemma PlacesAreOffsets(text: string, m: Metadata, lines: seq<string>, at: nat, later: nat)
    requires Consists(text, m, lines) && at < |Concat(lines)| && later < |Concat(lines)|
    ensures SpotIn(m, lines, at).offset < |text| && text[SpotIn(m, lines, at).offset] == Concat(lines)[at]
    ensures at < later <==> SpotIn(m, lines, at).offset < SpotIn(m, lines, later).offset
  {
    hide MetaLines, LinesOk, BodyOk, ValidMeta;
    JoinAppend(MetaLines(m), lines);
    SpotPoints(lines, at, 8, Join(MetaLines(m)));
    if at < later {
      SpotsGrow(lines, at, later, 8, |Join(MetaLines(m))|);
    } else if later < at {
      SpotsGrow(lines, later, at, 8, |Join(MetaLines(m))|);
    }
  }

  // ---------------------------------------------------------------- the selected error

  lemma {:induction false} InsertErrorFirst(sorted: seq<SemanticError>, e: SemanticError)
    requires sorted != [] ==> forall f :: f in sorted ==> !ErrorBefore(f, sorted[0])
    ensures var r := InsertError(sorted, e);
      (forall f :: f in r <==> f == e || f in sorted) && forall f :: f in r ==> !ErrorBefore(f, r[0])
  {
    hide ErrorBefore;
    ErrorOrder();
    InsertErrorMembers(sorted, e);
  }

  lemma ErrorOrder()
    ensures forall e :: !ErrorBefore(e, e)
    ensures forall e, f :: ErrorBefore(e, f) ==> !ErrorBefore(f, e)
    ensures forall e, f, g :: ErrorBefore(e, f) && !ErrorBefore(g, f) ==> !ErrorBefore(g, e)
  {}

  lemma {:induction false} InsertErrorMembers(sorted: seq<SemanticError>, e: SemanticError)
    ensures forall f :: f in InsertError(sorted, e) <==> f == e || f in sorted
  {
    if sorted != [] && !ErrorBefore(e, sorted[0]) {
      InsertErrorMembers(sorted[1..], e);
    }
  }

  lemma {:induction false} SortErrorsFirst(errors: seq<SemanticError>)
    ensures var r := SortErrors(errors);
      (forall f :: f in r <==> f in errors) && (r != [] ==> forall f :: f in r ==> !ErrorBefore(f, r[0]))
  {
    hide ErrorBefore;
    if errors != [] {
      var n := |errors| - 1;
      SortErrorsFirst(errors[..n]);
      InsertErrorFirst(SortErrors(errors[..n]), errors[n]);
    }
  }

  ghost predicate LeastError(least: SemanticError, raised: seq<SemanticError>) {
    && least in raised
    && forall e :: e in raised ==>
      !ErrorBefore(e, least) && (e.at == least.at && e.code == least.code ==> least.detail <= e.detail)
  }

  /** A kept error covers every error raised with its code. */
  lemma CoveredByKept(kept: seq<SemanticError>, raised: seq<SemanticError>, k: SemanticError, e: SemanticError)
    requires LeastOfEach(kept, raised) && k in kept && e in raised && e.code == k.code
    ensures !Earlier(e, k)
  {
    hide Earlier;
    assert Covered(kept, e);
    var i :| 0 <= i < |kept| && kept[i].code == e.code && !Earlier(e, kept[i]);
    var j :| 0 <= j < |kept| && kept[j] == k;
    assert i == j;
  }

  lemma NotEarlier(e: SemanticError, k: SemanticError, least: SemanticError)
    requires !Earlier(e, k) && e.code == k.code && !ErrorBefore(k, least)
    ensures !ErrorBefore(e, least)
    ensures k == least && e.at == k.at ==> k.detail <= e.detail
  {}

  lemma KeptOfCode(kept: seq<SemanticError>, raised: seq<SemanticError>, e: SemanticError) returns (k: SemanticError)
    requires LeastOfEach(kept, raised) && e in raised
    ensures k in kept && k.code == e.code && !Earlier(e, k)
  {
    hide Earlier;
    assert Covered(kept, e);
    var i :| 0 <= i < |kept| && kept[i].code == e.code && !Earlier(e, kept[i]);
    k := kept[i];
  }

  /** The first of the sorted candidates, which select_semantic_error reports, is the earliest in the text of all the
      errors raised, of the smallest code there, and of the smallest detail with that code. */
  lemma SelectedIsLeast(raised: seq<SemanticError>)
    ensures var kept := SortErrors(Candidates(raised));
      (kept == [] <==> raised == []) && (kept != [] ==> LeastError(kept[0], raised))
  {
    hide SortErrors, Candidates, Earlier, ErrorBefore, LeastOfEach;
    CandidatesAreLeast(raised);
    var all := Candidates(raised);
    SortErrorsFirst(all);
    var kept := SortErrors(all);
    KeptAreRaised(all, raised);
    forall e | e in raised
      ensures kept != [] && !ErrorBefore(e, kept[0])
      ensures e.at == kept[0].at && e.code == kept[0].code ==> kept[0].detail <= e.detail
    {
      var k := KeptOfCode(all, raised, e);
      assert k in kept;
      NotEarlier(e, k, kept[0]);
      if e.code == kept[0].code {
        assert kept[0] in kept;
        CoveredByKept(all, raised, kept[0], e);
        NotBeforeItself(kept[0]);
        NotEarlier(e, kept[0], kept[0]);
      }
    }
    if kept != [] {
      assert kept[0] in kept;
    }
    if raised != [] {
      assert raised[0] in raised;
    }
  }

  lemma NotBeforeItself(e: SemanticError) ensures !ErrorBefore(e, e) {}

  lemma KeptAreRaised(kept: seq<SemanticError>, raised: seq<SemanticError>)
    requires LeastOfEach(kept, raised)
    ensures forall k :: k in kept ==> k in raised
  {}

  // ---------------------------------------------------------------- the events and the frames

  /** The event of a note, without its location, which the states do not use. */
  function EventOf(n: Note): (e: Event)
    ensures e.kind == n.kind && e.tick == n.tick && e.endTick == n.endTick && e.canonical == n.canonical
    ensures e.lane == n.lane && e.targetLane == n.targetLane && e.sensor == n.sensor && e.strength == n.strength
    ensures e.pathId == n.path && e.location == Location(0, 0, 0)
  {
    Event(n.kind, n.tick, n.endTick, n.lane, n.targetLane, n.sensor, n.strength, n.path, Location(0, 0, 0), n.canonical)
  }

  function FrameChart(c: Chart): States.Chart {
    States.Chart(c.meta.bpm, seq(|c.events|, i requires 0 <= i < |c.events| => EventOf(c.events[i])),
                 seq(|c.warnings|, i requires 0 <= i < |c.warnings| => c.warnings[i].severity), c.maxTick)
  }

  /** The events of an accepted chart are in order of tick and within max_tick. */
  lemma ParsedIsWellTimed(text: string, m: Metadata, lines: seq<string>, c: Chart)
    requires Parses(text, m, lines, c)
    ensures States.WellTimed(FrameChart(c))
  {
    hide ParseBody, SortNotes, Candidates, CountsOf, SortErrors;
    ParsedBodyKeeps(m.bpm, Concat(lines));
    var b := ParseBody(m.bpm, Concat(lines)).value;
    TicksWithin(b, |Concat(lines)| + 1);
    var some := b.notes[..Min(|b.notes|, MaxEvents)];
    SortNotesSorts(some);
    var f := FrameChart(c);
    forall i | 0 <= i < |f.events|
      ensures f.events[i].tick <= c.maxTick
    {
      assert c.events[i] in multiset(c.events);
      assert c.events[i] in multiset(some);
    }
    forall i, j | 0 <= i < j < |f.events|
      ensures f.events[i].tick <= f.events[j].tick
    {
      assert !Before(c.events[j], c.events[i]);
    }
  }

  /** No event of an accepted chart ends after the chart. */
  lemma ParsedEndsWithin(text: string, m: Metadata, lines: seq<string>, c: Chart)
    requires Parses(text, m, lines, c)
    ensures forall i :: 0 <= i < |c.events| ==> c.events[i].endTick <= c.maxTick
  {
    hide ParseBody, SortNotes, Candidates, CountsOf, SortErrors;
    ParsedBodyKeeps(m.bpm, Concat(lines));
    var b := ParseBody(m.bpm, Concat(lines)).value;
    TicksWithin(b, |Concat(lines)| + 1);
    var some := b.notes[..Min(|b.notes|, MaxEvents)];
    SortNotesSorts(some);
    forall i | 0 <= i < |c.events|
      ensures c.events[i].endTick <= c.maxTick
    {
      assert c.events[i] in multiset(c.events);
      assert c.events[i] in multiset(some);
    }
  }

  lemma TicksWithin(b: Body, limit: nat)
    requires Keeps(b, limit)
    ensures forall i :: 0 <= i < |b.notes| ==> b.notes[i].tick <= b.maxTick && b.notes[i].endTick <= b.maxTick
  {}

  /** Every event of an accepted chart is applied exactly once: in the first frame whose tick reaches it, and none
      is left after the last. */
  lemma EveryEventOnce(text: string, m: Metadata, lines: seq<string>, c: Chart)
    requires Parses(text, m, lines, c)
    ensures var f := FrameChart(c);
      && States.Cut(f, 9) == |f.events| == |c.events|
      && forall frame, k :: 0 <= frame < FrameCount && 0 <= k < |f.events| ==>
        (k < States.Cut(f, frame) <==> f.events[k].tick <= FrameTick(f.maxTick, frame))
  {
    hide Parses, States.Cut, States.WellTimed;
    ParsedIsWellTimed(text, m, lines, c);
    var f := FrameChart(c);
    States.AllApplied(f);
    forall frame, k | 0 <= frame < FrameCount && 0 <= k < |f.events|
      ensures k < States.Cut(f, frame) <==> f.events[k].tick <= FrameTick(f.maxTick, frame)
    {
      States.AppliedWhenReached(f, frame, k);
    }
  }
}
