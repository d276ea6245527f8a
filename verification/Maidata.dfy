/** Whole chart files: reading one, and writing one back. */
module Maidata {
  import opened Common
  import opened Types
  import opened Text
  import opened Simai
  import opened SimaiParser

  datatype Metadata = Metadata(title: string, artist: string, description: string, level: string, bpm: U32)

  /** ParsedChart. */
  datatype Chart = Chart(meta: Metadata, events: seq<Note>, counts: Counts, warnings: seq<Warning>,
                         candidates: seq<SemanticError>, cells: seq<Cell>, maxTick: U32)

  /** valid_metadata_value. */
  predicate ValidValue(s: string) { s != "" && s[0] != ' ' && s[|s| - 1] != ' ' && Printable(s) }

  predicate ValidMeta(m: Metadata) {
    && ValidValue(m.title) && ValidValue(m.artist) && ValidValue(m.description) && ValidValue(m.level)
    && 30000 <= m.bpm <= 400000
  }

  function MetaLines(m: Metadata): (lines: seq<string>)
    ensures |lines| == 7
  {
    ["&title=" + m.title, "&artist=" + m.artist, "&des=" + m.description, "&first=0",
     "&wholebpm=" + BpmText(m.bpm), "&lv_1=" + m.level, "&inote_1="]
  }

  /** Body lines: at least one, without spaces, and each but the last ending at a comma. */
  predicate BodyOk(lines: seq<string>) {
    && lines != []
    && (forall i :: 0 <= i < |lines| ==> NoSpace(lines[i]))
    && forall i :: 0 <= i < |lines| - 1 ==> EndsAtComma(lines[i])
  }

  predicate NoSpace(s: string) { forall i :: 0 <= i < |s| ==> s[i] != ' ' }

  predicate EndsAtComma(s: string) { s != "" && s[|s| - 1] == ',' }

  function Concat(lines: seq<string>): string {
    if lines == [] then "" else lines[0] + Concat(lines[1..])
  }

  // ---------------------------------------------------------------- sorting

  /** The events' order: tick, then type, then place in the text. */
  predicate Before(m: Note, n: Note) {
    m.tick < n.tick
    || (m.tick == n.tick && (Rank(m.kind) < Rank(n.kind) || (Rank(m.kind) == Rank(n.kind) && m.at < n.at)))
  }

  function Rank(k: EventType): nat {
    match k
    case Hold => 0
    case Slide => 1
    case TouchHold => 2
    case Tap => 3
    case TouchTap => 4
    case Break => 5
  }

  /** The order of the kinds, and the order of notes as one of numbers. */
  lemma KindsInOrder(i: nat)
    requires i < 6
    ensures Rank([Hold, Slide, TouchHold, Tap, TouchTap, Break][i]) == i
  {}

  lemma BeforeIsLess(m: Note, n: Note)
    ensures var x, y := 6 * m.tick + Rank(m.kind), 6 * n.tick + Rank(n.kind);
      Before(m, n) <==> x < y || (x == y && m.at < n.at)
  {}

  function InsertNote(sorted: seq<Note>, n: Note): (r: seq<Note>)
    ensures |r| == |sorted| + 1
  {
    if sorted == [] || Before(n, sorted[0]) then [n] + sorted else [sorted[0]] + InsertNote(sorted[1..], n)
  }

  /** std::sort of the events. */
  function SortNotes(notes: seq<Note>): (r: seq<Note>)
    ensures |r| == |notes|
  {
    if notes == [] then [] else InsertNote(SortNotes(notes[..|notes| - 1]), notes[|notes| - 1])
  }

  ghost predicate InOrder(notes: seq<Note>) {
    forall i, j :: 0 <= i < j < |notes| ==> !Before(notes[j], notes[i])
  }

  lemma {:induction false} InsertKeeps(sorted: seq<Note>, n: Note)
    ensures multiset(InsertNote(sorted, n)) == multiset(sorted) + multiset{n}
    ensures forall x :: x in InsertNote(sorted, n) ==> x == n || x in sorted
  {
    if sorted != [] && !Before(n, sorted[0]) {
      InsertKeeps(sorted[1..], n);
      assert sorted == [sorted[0]] + sorted[1..];
    }
  }

  lemma {:induction false} InsertSorts(sorted: seq<Note>, n: Note)
    requires InOrder(sorted)
    ensures InOrder(InsertNote(sorted, n))
  {
    hide Before;
    if sorted == [] {
    } else if Before(n, sorted[0]) {
      BeforeAll(sorted, n);
    } else {
      InsertSorts(sorted[1..], n);
      InsertKeeps(sorted[1..], n);
      var r := InsertNote(sorted[1..], n);
      forall j | 0 <= j < |r|
        ensures !Before(r[j], sorted[0])
      {
        assert r[j] in r;
      }
    }
  }

  lemma BeforeAll(sorted: seq<Note>, n: Note)
    requires InOrder(sorted) && sorted != [] && Before(n, sorted[0])
    ensures forall j :: 0 <= j < |sorted| ==> !Before(sorted[j], n)
  {
    forall j | 0 <= j < |sorted|
      ensures !Before(sorted[j], n)
    {
      assert j > 0 ==> !Before(sorted[j], sorted[0]);
    }
  }

  /** Sorting puts the same notes in order. */
  lemma {:induction false} SortNotesSorts(notes: seq<Note>)
    ensures InOrder(SortNotes(notes)) && multiset(SortNotes(notes)) == multiset(notes)
  {
    if notes != [] {
      var n := |notes| - 1;
      SortNotesSorts(notes[..n]);
      InsertSorts(SortNotes(notes[..n]), notes[n]);
      InsertKeeps(SortNotes(notes[..n]), notes[n]);
      assert notes == notes[..n] + [notes[n]];
    }
  }

  function ErrorRank(c: ErrorCode): nat {
    match c
    case BpmRange => 1
    case TimelineRange => 2
    case SlideSelf => 3
    case DuplicateSource => 4
    case ActiveOverlap => 5
    case EventLimit => 6
  }

  predicate ErrorBefore(e: SemanticError, f: SemanticError) {
    e.at < f.at || (e.at == f.at && ErrorRank(e.code) < ErrorRank(f.code))
  }

  /** The order of the codes, and the order of errors as one of numbers. */
  lemma CodesInOrder(i: nat)
    requires i < 6
    ensures ErrorRank([BpmRange, TimelineRange, SlideSelf, DuplicateSource, ActiveOverlap, EventLimit][i]) == i + 1
  {}

  lemma ErrorBeforeIsLess(e: SemanticError, f: SemanticError)
    ensures ErrorBefore(e, f) <==> 7 * e.at + ErrorRank(e.code) < 7 * f.at + ErrorRank(f.code)
  {}

  function InsertError(sorted: seq<SemanticError>, e: SemanticError): (r: seq<SemanticError>)
    ensures |r| == |sorted| + 1
  {
    if sorted == [] || ErrorBefore(e, sorted[0]) then [e] + sorted else [sorted[0]] + InsertError(sorted[1..], e)
  }

  function SortErrors(errors: seq<SemanticError>): (r: seq<SemanticError>)
    ensures |r| == |errors|
  {
    if errors == [] then [] else InsertError(SortErrors(errors[..|errors| - 1]), errors[|errors| - 1])
  }

  function ChartOf(m: Metadata, b: Body): Chart {
    Chart(m, SortNotes(b.notes[..Min(|b.notes|, MaxEvents)]), CountsOf(b.notes), b.warnings,
          SortErrors(Candidates(b.raised)), b.cells, b.maxTick)
  }

  // ---------------------------------------------------------------- what a chart file is

  /** The text consists of these metadata lines and these body lines. */
  predicate Consists(text: string, m: Metadata, lines: seq<string>) {
    ValidMeta(m) && BodyOk(lines) && StrictText(text, MetaLines(m) + lines)
  }

  predicate Parses(text: string, m: Metadata, lines: seq<string>, c: Chart) {
    Consists(text, m, lines) && ParseBody(m.bpm, Concat(lines)).Some?
    && c == ChartOf(m, ParseBody(m.bpm, Concat(lines)).value)
  }

  lemma BpmOnce(a: U32, b: U32)
    requires BpmText(a) == BpmText(b)
    ensures a == b
  {
    BpmBothWays(BpmText(a), a);
    BpmBothWays(BpmText(a), b);
  }

  lemma PrefixOnce(p: string, a: string, b: string)
    requires p + a == p + b
    ensures a == b
  {
    assert (p + a)[|p|..] == a && (p + b)[|p|..] == b;
  }

  lemma MetaOnce(m: Metadata, n: Metadata)
    requires MetaLines(m) == MetaLines(n)
    ensures m == n
  {
    hide BpmText;
    var a, b := MetaLines(m), MetaLines(n);
    assert a[0] == b[0] && a[1] == b[1] && a[2] == b[2] && a[4] == b[4] && a[5] == b[5];
    PrefixOnce("&title=", m.title, n.title);
    PrefixOnce("&artist=", m.artist, n.artist);
    PrefixOnce("&des=", m.description, n.description);
    PrefixOnce("&wholebpm=", BpmText(m.bpm), BpmText(n.bpm));
    PrefixOnce("&lv_1=", m.level, n.level);
    BpmOnce(m.bpm, n.bpm);
  }

  /** A text is one chart at most. */
  lemma ParsesOnce(text: string, m: Metadata, lines: seq<string>, c: Chart, n: Metadata, others: seq<string>, d: Chart)
    requires Parses(text, m, lines, c) && Parses(text, n, others, d)
    ensures m == n && lines == others && c == d
  {
    hide MetaLines, ParseBody, ChartOf, BodyOk, ValidMeta;
    PrintableLines(MetaLines(m) + lines, 255, 4096);
    PrintableLines(MetaLines(n) + others, 255, 4096);
    JoinOnce(MetaLines(m) + lines, MetaLines(n) + others);
    assert (MetaLines(m) + lines)[..7] == MetaLines(m) && (MetaLines(n) + others)[..7] == MetaLines(n);
    assert (MetaLines(m) + lines)[7..] == lines && (MetaLines(n) + others)[7..] == others;
    MetaOnce(m, n);
  }

  // ---------------------------------------------------------------- reading

  /** valid_metadata_value: first and last character, then every one of them. */
  method CheckValue(value: string) returns (ok: bool)
    ensures ok == ValidValue(value)
  {
    if value == "" || value[0] == ' ' || value[|value| - 1] == ' ' {
      return false;
    }
    for i := 0 to |value|
      invariant Printable(value[..i])
    {
      if value[i] as int < 0x20 || value[i] as int > 0x7e {
        return false;
      }
      assert value[..i + 1] == value[..i] + [value[i]];
    }
    assert value[..|value|] == value;
    ok := true;
  }

  /** metadata_value. */
  method MetadataValue(line: string, prefix: string) returns (r: Option<string>)
    ensures r.Some? ==> line == prefix + r.value && ValidValue(r.value)
    ensures r.None? ==> forall v :: ValidValue(v) ==> line != prefix + v
  {
    if |line| < |prefix| || line[..|prefix|] != prefix {
      return None;
    }
    var value := line[|prefix|..];
    assert line == prefix + value;
    var ok := CheckValue(value);
    if !ok {
      forall v | ValidValue(v) ensures line != prefix + v {
        if line == prefix + v {
          PrefixOnce(prefix, value, v);
        }
      }
      return None;
    }
    r := Some(value);
  }

  /** The tempo line. */
  method WholeBpm(line: string) returns (r: Option<U32>)
    ensures r.Some? ==> line == "&wholebpm=" + BpmText(r.value) && 30000 <= r.value <= 400000
    ensures r.None? ==> forall m: U32 :: 30000 <= m <= 400000 ==> line != "&wholebpm=" + BpmText(m)
  {
    hide BpmText, ParseBpm;
    var prefix := "&wholebpm=";
    if |line| < |prefix| || line[..|prefix|] != prefix {
      return None;
    }
    var value := line[|prefix|..];
    assert line == prefix + value;
    r := ParseBpm(value);
    forall m: U32
      ensures line == prefix + BpmText(m) <==> r == Some(m)
    {
      BpmBothWays(value, m);
      if line == prefix + BpmText(m) {
        PrefixOnce(prefix, value, BpmText(m));
      }
    }
    if r.Some? && (r.value < 30000 || r.value > 400000) {
      r := None;
    }
  }

  /** The seven metadata lines. */
  method ParseMetadata(lines: seq<string>) returns (r: Option<Metadata>)
    requires |lines| == 7
    ensures r.Some? ==> ValidMeta(r.value) && lines == MetaLines(r.value)
    ensures r.None? ==> forall m :: ValidMeta(m) ==> lines != MetaLines(m)
  {
    hide BpmText, ValidValue;
    var title := MetadataValue(lines[0], "&title=");
    if title.None? {
      return None;
    }
    var artist := MetadataValue(lines[1], "&artist=");
    if artist.None? {
      return None;
    }
    var description := MetadataValue(lines[2], "&des=");
    if description.None? || lines[3] != "&first=0" {
      return None;
    }
    var bpm := WholeBpm(lines[4]);
    if bpm.None? {
      return None;
    }
    var level := MetadataValue(lines[5], "&lv_1=");
    if level.None? || lines[6] != "&inote_1=" {
      return None;
    }
    r := Some(Metadata(title.value, artist.value, description.value, level.value, bpm.value));
    assert lines == MetaLines(r.value);
  }

  lemma {:induction false} ConcatAppend(a: seq<string>, b: seq<string>)
    ensures Concat(a + b) == Concat(a) + Concat(b)
  {
    if a == [] {
      assert a + b == b;
    } else {
      ConcatAppend(a[1..], b);
      assert (a + b)[1..] == a[1..] + b;
    }
  }

  /** One body line: no spaces. */
  method AppendLine(body: string, line: string) returns (ok: bool, r: string)
    ensures ok == NoSpace(line)
    ensures ok ==> r == body + line
  {
    r := body;
    for column := 0 to |line|
      invariant NoSpace(line[..column]) && r == body + line[..column]
    {
      if line[column] == ' ' {
        return false, r;
      }
      r := r + [line[column]];
    }
    assert line[..|line|] == line;
    ok := true;
  }

  /** The body lines, put together. */
  method GatherBody(lines: seq<string>) returns (ok: bool, body: string)
    requires lines != [] && forall i :: 0 <= i < |lines| ==> lines[i] != ""
    ensures ok == BodyOk(lines)
    ensures ok ==> body == Concat(lines)
  {
    body := "";
    for i := 0 to |lines|
      invariant body == Concat(lines[..i])
      invariant forall j :: 0 <= j < i ==> NoSpace(lines[j])
      invariant forall j :: 0 <= j < i && j < |lines| - 1 ==> EndsAtComma(lines[j])
    {
      if i + 1 < |lines| && lines[i][|lines[i]| - 1] != ',' {
        return false, body;
      }
      ok, body := AppendLine(body, lines[i]);
      if !ok {
        return;
      }
      ConcatAppend(lines[..i], [lines[i]]);
      assert lines[..i + 1] == lines[..i] + [lines[i]] && Concat([lines[i]]) == lines[i];
    }
    assert lines[..|lines|] == lines;
    ok := true;
  }

  /** parse_maidata. */
  method ParseMaidata(text: string) returns (r: Option<Chart>)
    ensures r.Some? ==> exists m, lines :: Parses(text, m, lines, r.value)
    ensures r.None? ==> forall m, lines, c :: !Parses(text, m, lines, c)
  {
    hide StrictText, MetaLines, ParseBody, ChartOf, BodyOk, ValidMeta;
    var all := StrictLines(text);
    if all.None? {
      return None;
    }
    if |all.value| < 8 {
      NotFewer(text, all.value);
      return None;
    }
    var head, lines := all.value[..7], all.value[7..];
    assert all.value == head + lines;
    SplitsOnce(text, head, lines);
    var m := ParseMetadata(head);
    if m.None? {
      return None;
    }
    OnlyMeta(head, m.value);
    NonemptyLines(text, all.value);
    var ok, body := GatherBody(lines);
    if !ok {
      return None;
    }
    var parser := new BodyParser(m.value.bpm, body);
    ok := parser.TakeBody();
    if !ok {
      return None;
    }
    ghost var b := ParseBody(m.value.bpm, body).value;
    r := Some(Chart(m.value, SortNotes(parser.events), parser.counts, parser.warnings, SortErrors(parser.candidates),
                    parser.cells, parser.maxTick));
    ViewIsChart(m.value, b, parser);
    assert Parses(text, m.value, lines, r.value);
  }

  lemma ViewIsChart(m: Metadata, b: Body, parser: BodyParser)
    requires parser.Valid() && parser.View() == b
    ensures ChartOf(m, b) == Chart(m, SortNotes(parser.events), parser.counts, parser.warnings,
                                   SortErrors(parser.candidates), parser.cells, parser.maxTick)
  {
    hide SortNotes, SortErrors, CountsOf, Candidates;
  }

  lemma OnlyMeta(head: seq<string>, m: Metadata)
    requires head == MetaLines(m)
    ensures forall n :: head == MetaLines(n) ==> n == m
  {
    hide MetaLines;
    forall n | head == MetaLines(n)
      ensures n == m
    {
      MetaOnce(n, m);
    }
  }

  lemma NotFewer(text: string, all: seq<string>)
    requires StrictText(text, all) && |all| < 8
    ensures forall m, lines, c :: !Parses(text, m, lines, c)
  {
    hide MetaLines, ParseBody, ChartOf;
    forall m, lines, c ensures !Parses(text, m, lines, c) {
      if Parses(text, m, lines, c) {
        PrintableLines(MetaLines(m) + lines, 255, 4096);
        PrintableLines(all, 255, 4096);
        JoinOnce(MetaLines(m) + lines, all);
      }
    }
  }

  lemma SplitsOnce(text: string, head: seq<string>, lines: seq<string>)
    requires |head| == 7 && StrictText(text, head + lines)
    ensures forall m, others, c :: Parses(text, m, others, c) ==>
      ValidMeta(m) && head == MetaLines(m) && lines == others && BodyOk(lines) && ParseBody(m.bpm, Concat(lines)).Some?
  {
    hide MetaLines, ParseBody, ChartOf, BodyOk, ValidMeta;
    forall m, others, c | Parses(text, m, others, c)
      ensures head == MetaLines(m) && lines == others
    {
      PrintableLines(MetaLines(m) + others, 255, 4096);
      PrintableLines(head + lines, 255, 4096);
      JoinOnce(MetaLines(m) + others, head + lines);
      assert (MetaLines(m) + others)[..7] == MetaLines(m) && (head + lines)[..7] == head;
      assert (MetaLines(m) + others)[7..] == others && (head + lines)[7..] == lines;
    }
  }

  lemma NonemptyLines(text: string, all: seq<string>)
    requires StrictText(text, all)
    ensures forall i :: 0 <= i < |all| ==> all[i] != ""
  {}
}
