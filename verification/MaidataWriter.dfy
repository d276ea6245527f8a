/** Writing a chart file: cells wrapped greedily into lines, and read back. */
module MaidataWriter {
  import opened Common
  import opened Types
  import opened Text
  import opened Simai
  import opened SimaiParser
  import opened Maidata

  const MaxLine := 4096

  // ---------------------------------------------------------------- tokens

  /** A body cut behind every comma. */
  function Tokens(s: string): seq<string>
    decreases |s|
  {
    var comma := Find(s, ',', 0);
    if s == "" then [] else if comma == |s| then [s] else [s[..comma + 1]] + Tokens(s[comma + 1..])
  }

  /** The canonical texts of the cells, with the commas between them. */
  function CellTokens(cells: seq<Cell>): (t: seq<string>)
    ensures |t| == |cells|
  {
    if cells == [] then []
    else [cells[0].canonical + if |cells| > 1 then "," else ""] + CellTokens(cells[1..])
  }

  lemma {:induction false} TokensConcat(s: string)
    ensures Concat(Tokens(s)) == s
    decreases |s|
  {
    var comma := Find(s, ',', 0);
    if s != "" && comma < |s| {
      TokensConcat(s[comma + 1..]);
      assert Tokens(s)[1..] == Tokens(s[comma + 1..]);
    }
  }

  lemma TokensStep(s: string, comma: nat)
    requires comma < |s| && s[comma] == ',' && forall i :: 0 <= i < comma ==> s[i] != ','
    ensures Tokens(s) == [s[..comma + 1]] + Tokens(s[comma + 1..])
  {
    FindAt(s, ',', 0, comma);
  }

  lemma FindInside(s: string)
    requires EndsAtComma(s)
    ensures Find(s, ',', 0) < |s|
  {
    var comma := Find(s, ',', 0);
    assert s[|s| - 1] == ',';
  }

  /** Cutting at a line break behind a comma cuts between tokens. */
  lemma {:induction false} TokensAppend(a: string, b: string)
    requires EndsAtComma(a)
    ensures Tokens(a + b) == Tokens(a) + Tokens(b)
    decreases |a|
  {
    hide Tokens;
    FindInside(a);
    var comma := Find(a, ',', 0);
    var first, rest := a[..comma + 1], a[comma + 1..];
    TokensStep(a, comma);
    TokensStep(a + b, comma);
    assert (a + b)[comma + 1..] == rest + b && (a + b)[..comma + 1] == first;
    if rest == "" {
      assert rest + b == b;
      TokensOfNone();
    } else {
      TokensAppend(rest, b);
    }
  }

  lemma TokensOfNone() ensures Tokens("") == [] {}

  function Flatten(groups: seq<seq<string>>): seq<string> {
    if groups == [] then [] else groups[0] + Flatten(groups[1..])
  }

  function Groups(lines: seq<string>): (g: seq<seq<string>>)
    ensures |g| == |lines|
  {
    if lines == [] then [] else [Tokens(lines[0])] + Groups(lines[1..])
  }

  /** The tokens of a body are the tokens of its lines, line by line. */
  lemma {:induction false} LinesAreGroups(lines: seq<string>)
    requires BodyOk(lines)
    ensures Tokens(Concat(lines)) == Flatten(Groups(lines))
  {
    if |lines| == 1 {
      assert lines[1..] == [] && lines[0] + "" == lines[0];
      assert Groups(lines)[1..] == [];
    } else {
      LinesAreGroups(lines[1..]);
      TokensAppend(lines[0], Concat(lines[1..]));
      assert Groups(lines)[1..] == Groups(lines[1..]);
    }
  }

  // ---------------------------------------------------------------- wrapping

  /** The lines written for the rest of the tokens, the first of them already begun. */
  function Wrapped(tokens: seq<string>, line: string): (lines: seq<string>)
    ensures lines != []
  {
    if tokens == [] then [line]
    else if line != "" && |line| + |tokens[0]| > MaxLine then [line] + Wrapped(tokens[1..], tokens[0])
    else Wrapped(tokens[1..], line + tokens[0])
  }

  function Total(tokens: seq<string>): nat { if tokens == [] then 0 else |tokens[0]| + Total(tokens[1..]) }

  ghost predicate Fit(groups: seq<seq<string>>) { forall i :: 0 <= i < |groups| ==> Total(groups[i]) <= MaxLine }

  /** Greedy wrapping stays ahead of every other wrapping: `cur` is what is left of the other's current line and
      `groups` are its further lines. */
  lemma {:induction false} GreedyIsAhead(cur: seq<string>, groups: seq<seq<string>>, line: string)
    requires Total(cur) <= MaxLine && Fit(groups)
    ensures |Wrapped(cur + Flatten(groups), line)| <= |groups| + if |line| + Total(cur) <= MaxLine then 1 else 2
    decreases |cur + Flatten(groups)|, |groups|
  {
    if cur != [] {
      var tokens, rest := cur + Flatten(groups), cur[1..];
      assert tokens[1..] == rest + Flatten(groups);
      if line != "" && |line| + |cur[0]| > MaxLine {
        GreedyIsAhead(rest, groups, cur[0]);
      } else {
        GreedyIsAhead(rest, groups, line + cur[0]);
      }
    } else if groups != [] {
      assert cur + Flatten(groups) == groups[0] + Flatten(groups[1..]);
      GreedyIsAhead(groups[0], groups[1..], line);
    }
  }

  lemma {:induction false} TotalOfTokens(s: string)
    ensures Total(Tokens(s)) == |s|
    decreases |s|
  {
    var comma := Find(s, ',', 0);
    if s != "" && comma < |s| {
      TotalOfTokens(s[comma + 1..]);
      TotalFirst(s[..comma + 1], Tokens(s[comma + 1..]));
    } else if s != "" {
      TotalFirst(s, []);
    }
  }

  lemma TotalFirst(token: string, tokens: seq<string>)
    ensures Total([token] + tokens) == |token| + Total(tokens)
  {
    assert ([token] + tokens)[1..] == tokens;
  }

  lemma {:induction false} GroupsFit(lines: seq<string>)
    requires forall i :: 0 <= i < |lines| ==> |lines[i]| <= MaxLine
    ensures Fit(Groups(lines))
  {
    if lines != [] {
      TotalOfTokens(lines[0]);
      GroupsFit(lines[1..]);
    }
  }

  /** No text of the same body has fewer lines. */
  lemma FewestLines(lines: seq<string>)
    requires BodyOk(lines) && forall i :: 0 <= i < |lines| ==> |lines[i]| <= MaxLine
    ensures |Wrapped(Tokens(Concat(lines)), "")| <= |lines|
  {
    LinesAreGroups(lines);
    GroupsFit(lines);
    var groups := Groups(lines);
    assert Flatten(groups) == groups[0] + Flatten(groups[1..]);
    GreedyIsAhead(groups[0], groups[1..], "");
  }

  // ---------------------------------------------------------------- the lines written

  predicate BodyChars(s: string) { forall i :: 0 <= i < |s| ==> ' ' < s[i] <= '~' }

  /** A token: not empty, not too long, and ending at a comma if more follow. */
  ghost predicate GoodTokens(tokens: seq<string>) {
    && (forall i :: 0 <= i < |tokens| ==> tokens[i] != "" && |tokens[i]| <= MaxLine && BodyChars(tokens[i]))
    && forall i :: 0 <= i < |tokens| - 1 ==> EndsAtComma(tokens[i])
  }

  ghost predicate GoodLine(line: string) { line != "" && |line| <= MaxLine && BodyChars(line) }

  lemma {:induction false} WrappedIsGood(tokens: seq<string>, line: string)
    requires GoodTokens(tokens) && ((line == "" && tokens != []) || GoodLine(line))
    requires tokens != [] && line != "" ==> EndsAtComma(line)
    ensures var r := Wrapped(tokens, line);
      && Concat(r) == line + Concat(tokens)
      && (forall i :: 0 <= i < |r| ==> GoodLine(r[i]))
      && forall i :: 0 <= i < |r| - 1 ==> EndsAtComma(r[i])
    decreases tokens
  {
    hide GoodTokens, GoodLine, EndsAtComma, BodyChars;
    if tokens != [] {
      var t, rest := tokens[0], tokens[1..];
      RestIsGood(tokens);
      if line != "" && |line| + |t| > MaxLine {
        WrappedIsGood(rest, t);
        LineBefore(line, Wrapped(rest, t));
      } else {
        Longer(line, t);
        WrappedIsGood(rest, line + t);
        assert line + Concat(tokens) == line + t + Concat(rest);
      }
    }
  }

  lemma RestIsGood(tokens: seq<string>)
    requires GoodTokens(tokens) && tokens != []
    ensures GoodTokens(tokens[1..]) && GoodLine(tokens[0]) && BodyChars(tokens[0]) && tokens[0] != ""
    ensures tokens[1..] != [] ==> EndsAtComma(tokens[0])
  {}

  lemma Longer(line: string, t: string)
    requires BodyChars(t) && t != "" && (line == "" || GoodLine(line)) && |line| + |t| <= MaxLine
    ensures GoodLine(line + t)
    ensures EndsAtComma(t) ==> EndsAtComma(line + t)
  {}

  lemma LineBefore(line: string, lines: seq<string>)
    requires GoodLine(line) && EndsAtComma(line)
    requires forall i :: 0 <= i < |lines| ==> GoodLine(lines[i])
    requires forall i :: 0 <= i < |lines| - 1 ==> EndsAtComma(lines[i])
    ensures var r := [line] + lines;
      && Concat(r) == line + Concat(lines)
      && (forall i :: 0 <= i < |r| ==> GoodLine(r[i]))
      && forall i :: 0 <= i < |r| - 1 ==> EndsAtComma(r[i])
  {
    hide GoodLine, EndsAtComma;
    assert ([line] + lines)[1..] == lines;
  }

  lemma LinesOfGood(m: Metadata, lines: seq<string>)
    requires LinesOk(MetaLines(m)) && lines != [] && forall i :: 0 <= i < |lines| ==> GoodLine(lines[i])
    requires forall i :: 0 <= i < |lines| - 1 ==> EndsAtComma(lines[i])
    ensures LinesOk(MetaLines(m) + lines) && BodyOk(lines)
  {
    hide MetaLines, EndsAtComma;
    forall i | 0 <= i < |MetaLines(m) + lines|
      ensures LineOk((MetaLines(m) + lines)[i], Limit(i))
    {
      if i < 7 {
        assert LineOk(MetaLines(m)[i], Limit(i));
      } else {
        assert GoodLine(lines[i - 7]);
      }
    }
    forall i | 0 <= i < |lines|
      ensures NoSpace(lines[i])
    {
      assert GoodLine(lines[i]);
    }
  }

  lemma {:induction false} JoinSize(lines: seq<string>)
    ensures |Join(lines)| == |Concat(lines)| + |lines|
  {
    if lines != [] {
      JoinFirst(lines);
      JoinSize(lines[1..]);
    }
  }

  // ---------------------------------------------------------------- the cells of a parsed body

  /** The texts of cells that are all followed by a comma. */
  function Closed(cells: seq<Cell>): seq<string> {
    if cells == [] then [] else [cells[0].canonical + ","] + Closed(cells[1..])
  }

  lemma {:induction false} ClosedCells(cells: seq<Cell>, c: Cell)
    ensures CellTokens(cells + [c]) == Closed(cells) + [c.canonical]
    ensures Closed(cells + [c]) == Closed(cells) + [c.canonical + ","]
  {
    if cells == [] {
      assert [c][1..] == [];
      assert c.canonical + "" == c.canonical;
    } else {
      ClosedCells(cells[1..], c);
      assert (cells + [c])[1..] == cells[1..] + [c];
    }
  }

  lemma {:induction false} ControlsKeepCells(b: Body, whole: U32, body: string, cell: string, begin: nat, cursor: nat)
    requires Shaped(b) && cursor <= |cell|
    ensures var r := ParseControls(b, whole, body, cell, begin, cursor);
      r.Some? ==> r.value.0.cells == b.cells && r.value.0.ended == b.ended
    decreases |cell| - cursor
  {
    hide ParseBpm, ParseUint, StartsWith;
    if AtControl(cell, cursor) {
      var r := ParseControl(b, whole, body, cell, begin, cursor);
      if r.Some? {
        ControlsKeepCells(r.value.0, whole, body, cell, begin, r.value.1);
      }
    }
  }

  lemma {:induction false} NotesKeepCells(b: Body, body: string, cell: string, begin: nat, from: nat)
    requires Shaped(b) && from <= |cell|
    ensures var r := ParseNotes(b, body, cell, begin, from);
      r.Some? ==> r.value.0.cells == b.cells && r.value.0.ended == b.ended
    decreases |cell| - from
  {
    hide ParseNote;
    var slash := Find(cell, '/', from);
    var b1 := ParseNote(b, cell[from..slash], Place(body, begin + from));
    NoteKeepsCells(b, cell[from..slash], Place(body, begin + from));
    if b1.Some? && slash < |cell| {
      NotesKeepCells(b1.value, body, cell, begin, slash + 1);
    }
  }

  lemma NoteKeepsCells(b: Body, note: string, at: nat)
    requires Shaped(b)
    ensures var r := ParseNote(b, note, at); r.Some? ==> r.value.cells == b.cells && r.value.ended == b.ended
  {
    hide Classify, ErrorsOf, NoteOf, SlotAfter;
  }

  lemma CellAddsCell(b: Body, whole: U32, body: string, begin: nat, end: nat)
    requires Shaped(b) && begin <= end <= |body|
    ensures var r := ParseCell(b, whole, body, begin, end);
      r.Some? ==>
        && !b.ended
        && r.value.cells == b.cells + [Cell(body[begin..end], Place(body, begin))]
        && (r.value.ended <==> body[begin..end] == "E")
        && (r.value.ended ==> end == |body|)
  {
    hide ParseControls, ParseNotes;
    var cell := body[begin..end];
    var b0 := b.(cells := b.cells + [Cell(cell, Place(body, begin))]);
    if cell != "E" && !b.ended {
      ControlsKeepCells(b0, whole, body, cell, begin, 0);
      var c := ParseControls(b0, whole, body, cell, begin, 0);
      if c.Some? && c.value.1 < |cell| {
        NotesKeepCells(c.value.0, body, cell, begin, c.value.1);
      }
    }
  }

  lemma RestOfBody(body: string, begin: nat)
    requires begin <= |body|
    ensures var end := Find(body, ',', begin);
      && (end < |body| ==> Tokens(body[begin..]) == [body[begin..end] + ","] + Tokens(body[end + 1..]))
      && (end == |body| && body[begin..end] != "" ==> Tokens(body[begin..]) == [body[begin..end]])
  {
    hide Tokens;
    var end, rest := Find(body, ',', begin), body[begin..];
    if end < |body| {
      TokensStep(rest, end - begin);
      assert rest[..end - begin + 1] == body[begin..end] + "," && rest[end - begin + 1..] == body[end + 1..];
    } else if rest != "" {
      assert rest == body[begin..end];
      FindAt(rest, ',', 0, |rest|);
      TokensOfOne(rest);
    }
  }

  lemma TokensOfOne(s: string)
    requires Find(s, ',', 0) == |s| && s != ""
    ensures Tokens(s) == [s]
  {}

  /** The tokens of the rest of a body are its cells. */
  lemma {:induction false} CellsAreTokens(b: Body, whole: U32, body: string, begin: nat)
    requires Shaped(b) && begin <= |body|
    ensures var r := ParseCells(b, whole, body, begin);
      r.Some? && r.value.ended ==>
        CellTokens(r.value.cells) == Closed(b.cells) + Tokens(body[begin..]) && r.value.cells != []
    decreases |body| - begin
  {
    hide ParseCell, CellTokens, Tokens, Closed, Place;
    var end := Find(body, ',', begin);
    var r := ParseCell(b, whole, body, begin, end);
    CellAddsCell(b, whole, body, begin, end);
    RestOfBody(body, begin);
    if r.Some? {
      ClosedCells(b.cells, Cell(body[begin..end], Place(body, begin)));
      if end < |body| {
        CellsAreTokens(r.value, whole, body, end + 1);
      }
    }
  }

  lemma GoodAfter(first: string, rest: seq<string>)
    requires EndsAtComma(first) && |first| <= MaxLine && BodyChars(first) && GoodTokens(rest)
    ensures GoodTokens([first] + rest)
  {
    hide EndsAtComma, BodyChars;
    var all := [first] + rest;
    forall i | 0 <= i < |all|
      ensures all[i] != "" && |all[i]| <= MaxLine && BodyChars(all[i])
    {
      if i == 0 {
        CommaNotEmpty(first);
      } else {
        assert all[i] == rest[i - 1];
      }
    }
    forall i | 0 <= i < |all| - 1
      ensures EndsAtComma(all[i])
    {
      if i > 0 {
        assert all[i] == rest[i - 1];
      }
    }
  }

  lemma CommaNotEmpty(s: string) requires EndsAtComma(s) ensures s != "" {}

  lemma {:induction false} TokensAreGood(s: string)
    requires BodyChars(s) && forall i :: 0 <= i < |Tokens(s)| ==> |Tokens(s)[i]| <= MaxLine
    ensures GoodTokens(Tokens(s))
    decreases |s|
  {
    hide Tokens, GoodTokens;
    var comma := Find(s, ',', 0);
    if s == "" {
      TokensOfNone();
      NoneAreGood();
    } else if comma == |s| {
      TokensOfOne(s);
      assert Tokens(s)[0] == s;
      OneIsGood(s);
    } else {
      var first, rest := s[..comma + 1], s[comma + 1..];
      TokensStep(s, comma);
      assert Tokens(s)[0] == first && Tokens(s)[1..] == Tokens(rest);
      TokensAreGood(rest);
      GoodAfter(first, Tokens(rest));
    }
  }

  lemma NoneAreGood() ensures GoodTokens([]) {}

  lemma OneIsGood(s: string)
    requires s != "" && |s| <= MaxLine && BodyChars(s)
    ensures GoodTokens([s])
  {}

  /** A token is never longer than its line. */
  lemma {:induction false} TokensInGroup(tokens: seq<string>, i: nat)
    requires i < |tokens|
    ensures |tokens[i]| <= Total(tokens)
  {
    if i > 0 {
      TokensInGroup(tokens[1..], i - 1);
    }
  }

  lemma {:induction false} TokensInGroups(groups: seq<seq<string>>, i: nat)
    requires Fit(groups) && i < |Flatten(groups)|
    ensures |Flatten(groups)[i]| <= MaxLine
  {
    if i < |groups[0]| {
      TokensInGroup(groups[0], i);
    } else {
      TokensInGroups(groups[1..], i - |groups[0]|);
    }
  }

  lemma {:induction false} CharsOfConcat(lines: seq<string>, i: nat)
    requires i < |Concat(lines)| && forall k :: 0 <= k < |lines| ==> BodyChars(lines[k])
    ensures ' ' < Concat(lines)[i] <= '~'
  {
    if i >= |lines[0]| {
      CharsOfConcat(lines[1..], i - |lines[0]|);
    }
  }

  // ---------------------------------------------------------------- writing

  /** The lines that write_maidata puts together. */
  function WrittenLines(c: Chart): seq<string> { MetaLines(c.meta) + Wrapped(CellTokens(c.cells), "") }

  /** The comparison at the end: equal counts, max_tick and events, and equal warnings apart from where they are. */
  predicate Consistent(c: Chart, d: Chart) {
    && c.counts == d.counts && c.maxTick == d.maxTick
    && |c.warnings| == |d.warnings|
    && (forall i :: 0 <= i < |c.warnings| ==> c.warnings[i].(at := 0) == d.warnings[i].(at := 0))
    && |c.events| == |d.events|
    && forall i :: 0 <= i < |c.events| ==> c.events[i].(at := 0) == d.events[i].(at := 0)
  }

  /** What write_maidata refuses before it writes. */
  predicate Writable(c: Chart) { ValidMeta(c.meta) && c.cells != [] && c.candidates == [] }

  /** The checks of write_maidata before it writes. */
  method CheckMeta(m: Metadata) returns (ok: bool)
    ensures ok == ValidMeta(m)
  {
    hide ValidValue;
    var title := CheckValue(m.title);
    var artist := CheckValue(m.artist);
    var description := CheckValue(m.description);
    var level := CheckValue(m.level);
    ok := title && artist && description && level && m.bpm >= 30000 && m.bpm <= 400000;
  }

  /** The comparisons behind the writing: counts and max_tick, warnings, events, each with all but its location. */
  method Compare(reparsed: Chart, chart: Chart) returns (same: bool)
    ensures same == Consistent(reparsed, chart)
  {
    if |reparsed.warnings| != |chart.warnings| || |reparsed.events| != |chart.events| {
      return false;
    }
    for i := 0 to |chart.warnings|
      invariant forall j :: 0 <= j < i ==> reparsed.warnings[j].(at := 0) == chart.warnings[j].(at := 0)
    {
      var x, y := reparsed.warnings[i], chart.warnings[i];
      if x.code != y.code || x.severity != y.severity {
        return false;
      }
    }
    for i := 0 to |chart.events|
      invariant forall j :: 0 <= j < i ==> reparsed.events[j].(at := 0) == chart.events[j].(at := 0)
    {
      var x, y := reparsed.events[i], chart.events[i];
      var timed := x.kind == y.kind && x.tick == y.tick && x.endTick == y.endTick;
      var placed := x.lane == y.lane && x.targetLane == y.targetLane && x.sensor == y.sensor;
      if !timed || !placed || x.strength != y.strength || x.path != y.path || x.canonical != y.canonical {
        return false;
      }
    }
    same := reparsed.counts == chart.counts && reparsed.maxTick == chart.maxTick;
  }

  /** The loop over the cells. */
  method WrapCells(cells: seq<Cell>) returns (ok: bool, lines: seq<string>)
    requires cells != []
    ensures ok == forall i :: 0 <= i < |cells| ==> |CellTokens(cells)[i]| <= MaxLine
    ensures ok ==> lines == Wrapped(CellTokens(cells), "")
  {
    hide CellTokens;
    lines := [];
    var bodyLine := "";
    ghost var tokens := CellTokens(cells);
    for index := 0 to |cells|
      invariant lines + Wrapped(tokens[index..], bodyLine) == Wrapped(tokens, "")
      invariant forall i :: 0 <= i < index ==> |tokens[i]| <= MaxLine
    {
      var token := cells[index].canonical + if index + 1 < |cells| then "," else "";
      CellTokenAt(cells, index);
      if |token| > MaxLine {
        return false, lines;
      }
      assert tokens[index..][1..] == tokens[index + 1..];
      if bodyLine != "" && |bodyLine| + |token| > MaxLine {
        lines := lines + [bodyLine];
        bodyLine := "";
      }
      bodyLine := bodyLine + token;
      assert "" + token == token;
    }
    assert tokens[|cells|..] == [];
    lines := lines + [bodyLine];
    ok := true;
  }

  lemma {:induction false} CellTokenAt(cells: seq<Cell>, i: nat)
    requires i < |cells|
    ensures CellTokens(cells)[i] == cells[i].canonical + if i + 1 < |cells| then "," else ""
  {
    if i > 0 {
      CellTokenAt(cells[1..], i - 1);
    }
  }

  /** write_maidata. It returns a text exactly when the chart is writable, no cell is too long for a line, the
      text is not too long, and reading the text back gives a consistent chart. */
  method WriteMaidata(c: Chart) returns (r: Option<string>)
    ensures r.Some? ==> r.value == Join(WrittenLines(c))
    ensures r.Some? <==>
      && Writable(c)
      && (forall i :: 0 <= i < |c.cells| ==> |CellTokens(c.cells)[i]| <= MaxLine)
      && |Join(WrittenLines(c))| <= MaxChartBytes
      && exists m, lines, d :: Parses(Join(WrittenLines(c)), m, lines, d) && Consistent(d, c)
  {
    hide ValidMeta, MetaLines, Parses, Consistent;
    var meta := CheckMeta(c.meta);
    if !meta || c.cells == [] || c.candidates != [] {
      return None;
    }
    var ok, lines := WrapCells(c.cells);
    if !ok {
      return None;
    }
    var output := JoinLines(MetaLines(c.meta) + lines);
    if |output| > 8 * 1024 * 1024 {
      return None;
    }
    var reparsed := ParseMaidata(output);
    if reparsed.None? {
      return None;
    }
    AllParsesOnce(output);
    var same := Compare(reparsed.value, c);
    if !same {
      return None;
    }
    r := Some(output);
  }

  method JoinLines(lines: seq<string>) returns (s: string)
    ensures s == Join(lines)
  {
    s := "";
    for i := 0 to |lines|
      invariant s == Join(lines[..i])
    {
      assert lines[..i + 1][..i] == lines[..i];
      s := s + lines[i] + "\n";
    }
    assert lines[..|lines|] == lines;
  }

  lemma AllParsesOnce(text: string)
    ensures forall m, lines, c, n, others, d :: Parses(text, m, lines, c) && Parses(text, n, others, d) ==> c == d
  {
    hide Parses;
    forall m, lines, c, n, others, d | Parses(text, m, lines, c) && Parses(text, n, others, d)
      ensures c == d
    {
      ParsesOnce(text, m, lines, c, n, others, d);
    }
  }

  // ---------------------------------------------------------------- the round trip

  /** The tokens of a parsed chart are those of its body, and each fits a line. */
  lemma ParsedTokens(text: string, m: Metadata, lines: seq<string>, c: Chart)
    requires Parses(text, m, lines, c)
    ensures CellTokens(c.cells) == Tokens(Concat(lines)) && c.cells != []
    ensures forall i :: 0 <= i < |lines| ==> |lines[i]| <= MaxLine && BodyChars(lines[i])
  {
    hide MetaLines, SortNotes, SortErrors, Candidates, CountsOf, ParseCells;
    var body := Concat(lines);
    CellsAreTokens(StartBody(m.bpm), m.bpm, body, 0);
    assert body[0..] == body;
    forall i | 0 <= i < |lines|
      ensures |lines[i]| <= MaxLine && BodyChars(lines[i])
    {
      assert LineOk((MetaLines(m) + lines)[i + 7], Limit(i + 7));
    }
  }

  /** The written lines are the same metadata and the same body, in no more lines. */
  lemma WrittenBody(text: string, m: Metadata, lines: seq<string>, c: Chart)
    requires Parses(text, m, lines, c)
    ensures var again := Wrapped(CellTokens(c.cells), "");
      && Concat(again) == Concat(lines) && |again| <= |lines|
      && LinesOk(MetaLines(m) + again) && BodyOk(again)
    ensures forall i :: 0 <= i < |c.cells| ==> |CellTokens(c.cells)[i]| <= MaxLine
  {
    hide MetaLines, ChartOf, ParseBody, Wrapped, CellTokens, Tokens;
    ParsedTokens(text, m, lines, c);
    var body := Concat(lines);
    LinesAreGroups(lines);
    GroupsFit(lines);
    forall i | 0 <= i < |Tokens(body)|
      ensures |Tokens(body)[i]| <= MaxLine
    {
      TokensInGroups(Groups(lines), i);
    }
    forall i | 0 <= i < |body|
      ensures ' ' < body[i] <= '~'
    {
      CharsOfConcat(lines, i);
    }
    TokensAreGood(body);
    WrappedIsGood(Tokens(body), "");
    TokensConcat(body);
    FewestLines(lines);
    assert "" + Concat(Tokens(body)) == body;
    MetaIsOk(m, lines);
    LinesOfGood(m, Wrapped(Tokens(body), ""));
  }

  lemma MetaIsOk(m: Metadata, lines: seq<string>)
    requires LinesOk(MetaLines(m) + lines)
    ensures LinesOk(MetaLines(m))
  {
    hide MetaLines, LineOk;
    forall i | 0 <= i < 7
      ensures LineOk(MetaLines(m)[i], Limit(i))
    {
      assert (MetaLines(m) + lines)[i] == MetaLines(m)[i];
    }
  }

  /** Every accepted text without a semantic error is written back: the writer accepts the chart, its first seven
      lines are those of the text, its body is the same in no more lines, and reading it again gives the same chart,
      with every event, warning, count and cell at the same place of the body. */
  lemma RoundTrip(text: string, m: Metadata, lines: seq<string>, c: Chart)
    requires Parses(text, m, lines, c) && c.candidates == []
    ensures Writable(c) && forall i :: 0 <= i < |c.cells| ==> |CellTokens(c.cells)[i]| <= MaxLine
    ensures var again, output := Wrapped(CellTokens(c.cells), ""), Join(WrittenLines(c));
      && output == Join(MetaLines(m) + again)
      && |again| <= |lines| && |output| <= |text| <= MaxChartBytes
      && Parses(output, m, again, c)
  {
    hide MetaLines, ParseBody, Wrapped, CellTokens, Join;
    WrittenBody(text, m, lines, c);
    ParsedTokens(text, m, lines, c);
    var again := Wrapped(CellTokens(c.cells), "");
    JoinAppend(MetaLines(m), lines);
    JoinAppend(MetaLines(m), again);
    JoinSize(lines);
    JoinSize(again);
    JoinSize(MetaLines(m));
    assert WrittenLines(c) == MetaLines(m) + again;
  }

  /** So the writer succeeds on it, and writing what was read back changes nothing more. */
  method WriteParsed(text: string) returns (c: Option<Chart>, output: Option<string>)
    ensures c.Some? && c.value.candidates == [] ==> output.Some?
    ensures c.Some? && output.Some? ==>
      exists m, lines, again :: Parses(text, m, lines, c.value) && Parses(output.value, m, again, c.value)
  {
    hide Parses, Consistent, WrittenLines, CellTokens, Wrapped;
    c := ParseMaidata(text);
    output := None;
    if c.Some? {
      output := WriteMaidata(c.value);
      ghost var m, lines :| Parses(text, m, lines, c.value);
      if c.value.candidates == [] {
        RoundTrip(text, m, lines, c.value);
        SelfConsistent(c.value);
        assert Parses(Join(WrittenLines(c.value)), m, Wrapped(CellTokens(c.value.cells), ""), c.value);
      }
    }
  }

  lemma SelfConsistent(c: Chart) ensures Consistent(c, c) {}
}
