/** The dataset manifest: the reader accepts exactly the texts the writer prints. The digest function is a parameter. */
module Manifest {
  import opened Common
  import opened Types
  import opened Text

  type Digest = s: seq<U8> | |s| == 32 witness seq(32, _ => 0)

  const MaxI64 := 0x7fff_ffff_ffff_ffff
  const MaxU64 := 0xffff_ffff_ffff_ffff
  const MaxU16 := 0xffff
  const MaxCharts := 16384
  const MaxDatasetBytes := 536870912
  const FrameFileBytes := 9280
  const ResultFileBytes := 160

  datatype Record = Record(id: nat, bytes: nat, workUnits: nat, sha256: Digest, path: string)

  datatype Manifest = Manifest(
    chartFormat: string, outputFormat: string, chartCount: nat, frameWidth: nat, frameHeight: nat,
    frameFileBytes: nat, resultFileBytes: nat, outputFileCount: nat, outputLogicalBytes: nat,
    charts: seq<Record>, endSha256: Digest)

  // ---------------------------------------------------------------- hexadecimal digests

  function HexDigit(d: nat): char
    requires d < 16
  {
    "0123456789abcdef"[d]
  }

  /** hex_value. */
  function HexValue(c: char): int {
    if '0' <= c <= '9' then (c - '0') as int else if 'a' <= c <= 'f' then (c - 'a') as int + 10 else -1
  }

  lemma HexBack(d: nat)
    requires d < 16
    ensures HexValue(HexDigit(d)) == d
  {}

  lemma HexForth(c: char)
    requires HexValue(c) >= 0
    ensures HexValue(c) < 16 && HexDigit(HexValue(c)) == c
  {}

  /** digest_hex. */
  function Hex(d: seq<U8>): (s: string)
    ensures |s| == 2 * |d|
    ensures forall i :: 0 <= i < |d| ==> s[2 * i] == HexDigit(d[i] / 16) && s[2 * i + 1] == HexDigit(d[i] % 16)
  {
    if d == [] then "" else Hex(d[..|d| - 1]) + [HexDigit(d[|d| - 1] / 16), HexDigit(d[|d| - 1] % 16)]
  }

  /** parse_digest_hex: accepts exactly the printed digests. */
  method ParseHex(text: string) returns (r: Option<Digest>)
    ensures r.Some? ==> text == Hex(r.value)
    ensures r.None? ==> forall d: Digest :: text != Hex(d)
  {
    if |text| != 64 {
      return None;
    }
    var result: seq<U8> := [];
    for i := 0 to 32
      invariant |result| == i
      invariant forall j :: 0 <= j < i ==>
        text[2 * j] == HexDigit(result[j] / 16) && text[2 * j + 1] == HexDigit(result[j] % 16)
    {
      var high, low := HexValue(text[2 * i]), HexValue(text[2 * i + 1]);
      if high < 0 || low < 0 {
        BadDigit(text, i);
        return None;
      }
      HexForth(text[2 * i]);
      HexForth(text[2 * i + 1]);
      assert (high * 16 + low) / 16 == high && (high * 16 + low) % 16 == low;
      result := result + [high * 16 + low];
    }
    HexIs(text, result);
    r := Some(result);
  }

  lemma BadDigit(text: string, i: nat)
    requires |text| == 64 && i < 32 && (HexValue(text[2 * i]) < 0 || HexValue(text[2 * i + 1]) < 0)
    ensures forall d: Digest :: text != Hex(d)
  {
    forall d: Digest ensures text != Hex(d) {
      HexBack(d[i] / 16);
      HexBack(d[i] % 16);
    }
  }

  lemma {:induction false} HexIs(text: string, d: seq<U8>)
    requires |text| == 2 * |d|
    requires forall i :: 0 <= i < |d| ==> text[2 * i] == HexDigit(d[i] / 16) && text[2 * i + 1] == HexDigit(d[i] % 16)
    ensures text == Hex(d)
  {
    hide HexDigit;
    if d != [] {
      var n := |d| - 1;
      var head := text[..2 * n];
      forall i | 0 <= i < n
        ensures head[2 * i] == HexDigit(d[..n][i] / 16) && head[2 * i + 1] == HexDigit(d[..n][i] % 16)
      {
        assert head[2 * i] == text[2 * i] && head[2 * i + 1] == text[2 * i + 1];
      }
      HexIs(head, d[..n]);
      assert text == head + [text[2 * n], text[2 * n + 1]];
    }
  }

  lemma HexOnce(d: Digest, e: Digest)
    requires Hex(d) == Hex(e)
    ensures d == e
  {
    hide Hex;
    forall i | 0 <= i < 32
      ensures d[i] == e[i]
    {
      assert Hex(d)[2 * i] == Hex(e)[2 * i] && Hex(d)[2 * i + 1] == Hex(e)[2 * i + 1];
      HexBack(d[i] / 16);
      HexBack(e[i] / 16);
      HexBack(d[i] % 16);
      HexBack(e[i] % 16);
    }
  }

  // ---------------------------------------------------------------- what a valid manifest is

  predicate PathChar(c: char) { 'a' <= c <= 'z' || '0' <= c <= '9' || c == '.' || c == '_' || c == '-' }

  /** reserved_windows_component. */
  predicate Reserved(s: string) {
    var stem := s[..Find(s, '.', 0)];
    stem == "con" || stem == "prn" || stem == "aux" || stem == "nul"
    || (|stem| == 4 && (stem[..3] == "com" || stem[..3] == "lpt") && '1' <= stem[3] <= '9')
  }

  predicate ValidComponent(s: string) {
    && 1 <= |s| <= 64 && s != "." && s != ".." && s[|s| - 1] != '.' && s[|s| - 1] != ' '
    && ('a' <= s[0] <= 'z' || '0' <= s[0] <= '9')
    && !Reserved(s)
  }

  /** The components from position `from` on. */
  predicate ValidFrom(path: string, from: nat)
    requires from <= |path|
    decreases |path| - from
  {
    var slash := Find(path, '/', from);
    && (forall i :: from <= i < slash ==> PathChar(path[i]))
    && ValidComponent(path[from..slash])
    && (slash < |path| ==> ValidFrom(path, slash + 1))
  }

  /** What valid_relative_path comes down to. */
  predicate ValidPath(path: string) { |path| <= 240 && ValidFrom(path, 0) }

  lemma {:induction false} ValidHasNoGaps(path: string, from: nat)
    requires from <= |path| && ValidFrom(path, from)
    ensures from < |path| && path[from] != '/' && path[|path| - 1] != '/'
    ensures forall i :: from <= i < |path| ==> PathChar(path[i]) || path[i] == '/'
    ensures forall i :: from <= i < |path| - 1 ==> !(path[i] == '/' && path[i + 1] == '/')
    decreases |path| - from
  {
    var slash := Find(path, '/', from);
    if slash < |path| {
      ValidHasNoGaps(path, slash + 1);
    }
  }

  /** The early checks. */
  predicate Early(path: string) {
    path == "" || |path| > 240 || path[0] == '/' || path[|path| - 1] == '/'
    || (exists i :: 0 <= i < |path| - 1 && path[i] == '/' && path[i + 1] == '/')
    || (exists i :: 0 <= i < |path| && path[i] == '\\')
  }

  lemma EarlyIsRight(path: string)
    requires Early(path)
    ensures !ValidPath(path)
  {
    hide ValidFrom;
    if ValidPath(path) {
      ValidHasNoGaps(path, 0);
      assert false;
    }
  }

  method AllowedChar(c: char) returns (ok: bool)
    ensures ok == PathChar(c)
  {
    ok := (c >= 'a' && c <= 'z') || (c >= '0' && c <= '9') || c == '.' || c == '_' || c == '-';
  }

  /** reserved_windows_component. */
  method ReservedComponent(component: string) returns (reserved: bool)
    ensures reserved == Reserved(component)
  {
    var dot := 0;
    while dot < |component| && component[dot] != '.'
      invariant dot <= |component| && forall i :: 0 <= i < dot ==> component[i] != '.'
    {
      dot := dot + 1;
    }
    FindAt(component, '.', 0, dot);
    var stem := component[..dot];
    if stem in {"con", "prn", "aux", "nul"} {
      return true;
    }
    reserved := |stem| == 4 && stem[..3] in {"com", "lpt"} && stem[3] >= '1' && stem[3] <= '9';
  }

  /** The conditions of valid_relative_path on one component. */
  method AllowedComponent(component: string) returns (ok: bool)
    ensures ok == ValidComponent(component)
  {
    hide Reserved;
    if component == "" || |component| > 64 || component == "." || component == ".." {
      return false;
    }
    var front, back := component[0], component[|component| - 1];
    if back == '.' || back == ' ' || !((front >= 'a' && front <= 'z') || (front >= '0' && front <= '9')) {
      return false;
    }
    var reserved := ReservedComponent(component);
    ok := !reserved;
  }

  /** valid_relative_path; its early checks refuse nothing that the loop would not. */
  method ValidRelativePath(path: string) returns (ok: bool)
    ensures ok == ValidPath(path)
  {
    hide ValidComponent, PathChar;
    if Early(path) {
      EarlyIsRight(path);
      return false;
    }
    var componentStart := 0;
    for index := 0 to |path| + 1
      invariant componentStart <= index && (index <= |path| || componentStart == index)
      invariant componentStart <= |path| ==> ValidFrom(path, 0) == ValidFrom(path, componentStart)
      invariant componentStart > |path| ==> ValidFrom(path, 0)
      invariant forall i :: componentStart <= i < index ==> i < |path| && path[i] != '/' && PathChar(path[i])
    {
      if index != |path| && path[index] != '/' {
        var valid := AllowedChar(path[index]);
        if !valid {
          NotValidFrom(path, componentStart, index);
          return false;
        }
        continue;
      }
      FindAt(path, '/', componentStart, index);
      var valid := AllowedComponent(path[componentStart..index]);
      if !valid {
        return false;
      }
      componentStart := index + 1;
    }
    ok := true;
  }

  lemma NotValidFrom(path: string, from: nat, i: nat)
    requires from <= i < |path| && !PathChar(path[i])
    requires forall j :: from <= j <= i ==> path[j] != '/'
    ensures !ValidFrom(path, from)
  {
    hide ValidComponent, PathChar;
    var slash := Find(path, '/', from);
  }

  function Sum(charts: seq<Record>): nat {
    if charts == [] then 0 else Sum(charts[..|charts| - 1]) + charts[|charts| - 1].bytes
  }

  predicate ValidRecord(c: Record) {
    && 0 < c.id <= MaxI64 && 0 < c.bytes <= MaxChartBytes && 0 < c.workUnits <= MaxI64 && ValidPath(c.path)
  }

  predicate ValidHeader(m: Manifest) {
    && m.chartFormat == "MM-SIMAI-1" && m.outputFormat == "MM-FILES-3"
    && 0 < m.chartCount <= MaxCharts && |m.charts| == m.chartCount
    && m.frameWidth == OutputWidth && m.frameHeight == OutputHeight
    && m.frameFileBytes == FrameFileBytes && m.resultFileBytes == ResultFileBytes
    && m.outputFileCount == 3 * m.chartCount
    && m.outputLogicalBytes == m.chartCount * (2 * FrameFileBytes + ResultFileBytes)
  }

  /** What validate_manifest_fields accepts. */
  predicate Valid(m: Manifest) {
    && ValidHeader(m)
    && (forall i :: 0 <= i < |m.charts| ==> ValidRecord(m.charts[i]))
    && (forall i :: 0 <= i < |m.charts| - 1 ==> m.charts[i].id < m.charts[i + 1].id)
    && Sum(m.charts) <= MaxDatasetBytes
    && DistinctPaths(m.charts)
  }

  /** The sorted comparison of neighbours in the source. */
  predicate DistinctPaths(charts: seq<Record>) {
    forall i, j :: 0 <= i < j < |charts| ==> charts[i].path != charts[j].path
  }

  lemma {:induction false} SumGrows(charts: seq<Record>, n: nat)
    requires n <= |charts|
    ensures Sum(charts[..n]) <= Sum(charts)
    decreases |charts| - n
  {
    if n < |charts| {
      SumGrows(charts, n + 1);
      assert charts[..n + 1][..n] == charts[..n];
    } else {
      assert charts[..n] == charts;
    }
  }

  /** The first checks of validate_manifest_fields; a frame file is 64 bytes before 64 times 36 pixels. */
  method ValidateHeader(m: Manifest) returns (ok: bool)
    ensures ok == ValidHeader(m)
  {
    if m.chartFormat != "MM-SIMAI-1" || m.outputFormat != "MM-FILES-3" {
      return false;
    }
    if m.chartCount == 0 || m.chartCount > 16384 || |m.charts| != m.chartCount {
      return false;
    }
    var frame, result := 64 + 64 * 36 * 4, 160;
    ok := m.frameWidth == 64 && m.frameHeight == 36 && m.frameFileBytes == frame && m.resultFileBytes == result
          && m.outputFileCount == m.chartCount * 3 && m.outputLogicalBytes == m.chartCount * (2 * frame + result);
  }

  /** Whether no path occurs twice. */
  method PathsDiffer(charts: seq<Record>) returns (ok: bool)
    ensures ok == DistinctPaths(charts)
  {
    var seen: set<string> := {};
    for k := 0 to |charts|
      invariant forall p :: p in seen <==> exists i :: 0 <= i < k && charts[i].path == p
      invariant forall i, j :: 0 <= i < j < k ==> charts[i].path != charts[j].path
    {
      if charts[k].path in seen {
        return false;
      }
      seen := seen + {charts[k].path};
    }
    ok := true;
  }

  lemma SumNext(charts: seq<Record>, k: nat)
    requires k < |charts|
    ensures Sum(charts[..k + 1]) == Sum(charts[..k]) + charts[k].bytes <= Sum(charts)
  {
    SumGrows(charts, k + 1);
    assert charts[..k + 1][..k] == charts[..k];
  }

  lemma SumNone(charts: seq<Record>) ensures Sum(charts[..0]) == 0 {}

  lemma SameNeighbours(charts: seq<Record>)
    ensures forall k :: 0 < k < |charts| && charts[k].path == charts[k - 1].path ==> !DistinctPaths(charts)
  {}

  /** validate_manifest_fields. */
  method Validate(m: Manifest) returns (ok: bool)
    ensures ok == Valid(m)
  {
    hide ValidHeader, ValidPath, DistinctPaths, Sum;
    SumNone(m.charts);
    SameNeighbours(m.charts);
    ok := ValidateHeader(m);
    if !ok {
      return;
    }
    var previousId, logicalBytes := 0, 0;
    for k := 0 to |m.charts|
      invariant logicalBytes == Sum(m.charts[..k]) <= MaxDatasetBytes
      invariant previousId == if k == 0 then 0 else m.charts[k - 1].id
      invariant forall i :: 0 <= i < k ==> ValidRecord(m.charts[i])
      invariant forall i :: 0 <= i < k - 1 ==> m.charts[i].id < m.charts[i + 1].id
    {
      var c := m.charts[k];
      var pathOk := ValidRelativePath(c.path);
      if c.id <= previousId || c.id > 0x7fff_ffff_ffff_ffff || c.bytes == 0 || c.bytes > 8 * 1024 * 1024
         || c.workUnits == 0 || c.workUnits > 0x7fff_ffff_ffff_ffff || !pathOk
         || (k > 0 && c.path == m.charts[k - 1].path) {
        return false;
      }
      previousId := c.id;
      SumNext(m.charts, k);
      if c.bytes > 512 * 1024 * 1024 - logicalBytes {
        return false;
      }
      logicalBytes := logicalBytes + c.bytes;
    }
    assert m.charts[..|m.charts|] == m.charts;
    ok := PathsDiffer(m.charts);
  }

  // ---------------------------------------------------------------- the text

  function RecordLine(c: Record): string {
    Glued(Cut(Decimal(c.id), Decimal(c.bytes), Decimal(c.workUnits), Hex(c.sha256), c.path))
  }

  function RecordLines(charts: seq<Record>): (lines: seq<string>)
    ensures |lines| == |charts|
    ensures forall i :: 0 <= i < |charts| ==> lines[i] == RecordLine(charts[i])
  {
    seq(|charts|, i requires 0 <= i < |charts| => RecordLine(charts[i]))
  }

  function HeaderLines(m: Manifest): (lines: seq<string>)
    ensures |lines| == 10
  {
    ["MAIMOE_MANIFEST 4", "chart_format=" + m.chartFormat, "output_format=" + m.outputFormat,
     "chart_count=" + Decimal(m.chartCount), "frame_width=" + Decimal(m.frameWidth),
     "frame_height=" + Decimal(m.frameHeight), "frame_file_bytes=" + Decimal(m.frameFileBytes),
     "result_file_bytes=" + Decimal(m.resultFileBytes), "output_file_count=" + Decimal(m.outputFileCount),
     "output_logical_bytes=" + Decimal(m.outputLogicalBytes)]
  }

  /** manifest_prefix. */
  function Prefix(m: Manifest): string { Join(HeaderLines(m) + RecordLines(m.charts)) }

  function EndLine(d: Digest): string { "end sha256=" + Hex(d) }

  /** The text is that of this manifest, whose end digest is the digest of everything before the last line. */
  ghost predicate Encodes(hash: string -> Digest, text: string, m: Manifest) {
    && Valid(m) && m.endSha256 == hash(Prefix(m))
    && text == Prefix(m) + EndLine(m.endSha256) + "\n"
  }

  /** The lines of manifest_prefix. */
  method PrintPrefix(m: Manifest) returns (out: string)
    ensures out == Prefix(m)
  {
    hide Decimal, RecordLine;
    var lines := ["MAIMOE_MANIFEST 4", "chart_format=" + m.chartFormat, "output_format=" + m.outputFormat];
    lines := lines + ["chart_count=" + Decimal(m.chartCount), "frame_width=" + Decimal(m.frameWidth)];
    lines := lines + ["frame_height=" + Decimal(m.frameHeight), "frame_file_bytes=" + Decimal(m.frameFileBytes)];
    lines := lines + ["result_file_bytes=" + Decimal(m.resultFileBytes)];
    lines := lines + ["output_file_count=" + Decimal(m.outputFileCount)];
    lines := lines + ["output_logical_bytes=" + Decimal(m.outputLogicalBytes)];
    assert lines == HeaderLines(m);
    out := JoinAll(lines);
    assert HeaderLines(m) + RecordLines(m.charts)[..0] == HeaderLines(m);
    for k := 0 to |m.charts|
      invariant out == Join(HeaderLines(m) + RecordLines(m.charts)[..k])
    {
      var line := PrintRecord(m.charts[k]);
      var before, after := HeaderLines(m) + RecordLines(m.charts)[..k], HeaderLines(m) + RecordLines(m.charts)[..k + 1];
      assert after[..|after| - 1] == before && after[|after| - 1] == line;
      out := out + line + "\n";
    }
    assert RecordLines(m.charts)[..|m.charts|] == RecordLines(m.charts);
  }

  method PrintRecord(c: Record) returns (line: string)
    ensures line == RecordLine(c)
  {
    hide Decimal, Hex;
    var a, b, w, h := Decimal(c.id), Decimal(c.bytes), Decimal(c.workUnits), Hex(c.sha256);
    line := "chart id=" + a + " bytes=" + b + " work_units=" + w + " sha256=" + h + " path=" + c.path;
  }

  /** write_manifest_v4. */
  method WriteManifest(hash: string -> Digest, m: Manifest) returns (r: Option<(string, Digest)>)
    ensures r.Some? <==> Valid(m)
    ensures r.Some? ==> Encodes(hash, r.value.0, m.(endSha256 := r.value.1))
  {
    hide Valid, Hex;
    var ok := Validate(m);
    if !ok {
      return None;
    }
    var prefix := PrintPrefix(m);
    var d := hash(prefix);
    r := Some((prefix + ("end sha256=" + Hex(d)) + "\n", d));
    EndDoesNotMatter(m, d);
  }

  lemma EndDoesNotMatter(m: Manifest, d: Digest)
    ensures Valid(m.(endSha256 := d)) == Valid(m) && Prefix(m.(endSha256 := d)) == Prefix(m)
  {}

  method JoinAll(lines: seq<string>) returns (s: string)
    ensures s == Join(lines)
  {
    s := "";
    for i := 0 to |lines|
      invariant s == Join(lines[..i])
    {
      assert lines[..i + 1][..i] == lines[..i];
      s := s + lines[i] + "\n";
    }
    assert lines[..|lines|] == lines;
  }

  // ---------------------------------------------------------------- reading a record

  predicate StartsAt(s: string, i: nat, pattern: string) { i + |pattern| <= |s| && s[i..i + |pattern|] == pattern }

  /** std::string_view::find of a text: the first place from `from` on, or the length. */
  function FindText(s: string, pattern: string, from: nat): (i: nat)
    ensures from <= |s| ==> from <= i <= |s|
    ensures i < |s| ==> from <= i && StartsAt(s, i, pattern)
    decreases |s| - from
  {
    if from >= |s| then |s| else if StartsAt(s, from, pattern) then from else FindText(s, pattern, from + 1)
  }

  lemma StartsWithFirst(s: string, i: nat, pattern: string)
    requires i < |s| && pattern != ""
    ensures s[i] != pattern[0] ==> !StartsAt(s, i, pattern)
  {
    if StartsAt(s, i, pattern) {
      assert s[i..i + |pattern|][0] == s[i];
    }
  }

  /** A pattern that starts with a blank is found behind the characters before it that are not blanks. */
  lemma {:induction false} FoundAt(s: string, pattern: string, from: nat, at: nat)
    requires from <= at < |s| && StartsAt(s, at, pattern) && pattern != "" && pattern[0] == ' '
    requires forall j :: from <= j < at ==> s[j] != ' '
    ensures FindText(s, pattern, from) == at
    decreases at - from
  {
    if from < at {
      StartsWithFirst(s, from, pattern);
      FoundAt(s, pattern, from + 1, at);
    }
  }

  lemma NoBlanks(n: nat, d: Digest)
    ensures Bare(Decimal(n)) && Bare(Hex(d))
  {
    hide Hex;
    DecimalReads(n);
    forall i | 0 <= i < 64
      ensures Hex(d)[i] != ' '
    {
      HexInside(d, i);
    }
  }

  lemma HexInside(d: Digest, i: nat)
    requires i < 64
    ensures ' ' < Hex(d)[i] <= '~'
  {
    hide HexDigit;
    var k := i / 2;
    HexDigitSound(d[k] / 16);
    HexDigitSound(d[k] % 16);
    assert Hex(d)[2 * k] == HexDigit(d[k] / 16) && Hex(d)[2 * k + 1] == HexDigit(d[k] % 16);
  }

  function Lead(): string { "chart id=" }

  function BytesMark(): string { " bytes=" }

  function WorkMark(): string { " work_units=" }

  function ShaMark(): string { " sha256=" }

  function PathMark(): string { " path=" }

  /** The places of the four marks. */
  datatype Marks = Marks(bytes: nat, work: nat, sha: nat, path: nat)

  function MarksOf(line: string): Marks {
    var bytes := FindText(line, BytesMark(), 9);
    var work := FindText(line, WorkMark(), bytes + 1);
    var sha := FindText(line, ShaMark(), work + 1);
    Marks(bytes, work, sha, FindText(line, PathMark(), sha + 1))
  }

  /** A line cut at its marks. */
  datatype Cut = Cut(id: string, bytes: string, work: string, sha: string, path: string)

  function Glued(c: Cut): string { Lead() + (c.id + (BytesMark() + BehindBytes(c))) }

  function BehindBytes(c: Cut): string { c.bytes + (WorkMark() + BehindWork(c)) }

  function BehindWork(c: Cut): string { c.work + (ShaMark() + (c.sha + (PathMark() + c.path))) }

  predicate Bare(s: string) { forall i :: 0 <= i < |s| ==> s[i] != ' ' }

  predicate InPlace(line: string, m: Marks) {
    && StartsAt(line, 0, Lead())
    && 9 <= m.bytes && m.bytes + 7 <= m.work && m.work + 12 <= m.sha && m.sha + 8 <= m.path
    && m.path + 6 <= |line|
    && StartsAt(line, m.bytes, BytesMark()) && StartsAt(line, m.work, WorkMark())
    && StartsAt(line, m.sha, ShaMark()) && StartsAt(line, m.path, PathMark())
  }

  function CutAt(line: string, m: Marks): Cut
    requires InPlace(line, m)
  {
    Cut(line[9..m.bytes], line[m.bytes + 7..m.work], line[m.work + 12..m.sha], line[m.sha + 8..m.path],
        line[m.path + 6..])
  }

  lemma Peel(line: string, i: nat, mark: string, j: nat)
    requires StartsAt(line, i, mark) && i + |mark| <= j <= |line|
    ensures line[i..] == mark + (line[i + |mark|..j] + line[j..])
  {}

  function Tail(s: string, i: nat): string { if i <= |s| then s[i..] else "" }

  lemma GluedIs(c: Cut, line: string, t1: string, t2: string, t3: string, t4: string)
    requires line == Lead() + (c.id + t1) && t1 == BytesMark() + (c.bytes + t2) && t2 == WorkMark() + (c.work + t3)
    requires t3 == ShaMark() + (c.sha + t4) && t4 == PathMark() + c.path
    ensures Glued(c) == line
  {}

  lemma IdPiece(line: string, m: Marks)
    requires InPlace(line, m)
    ensures line == Lead() + (CutAt(line, m).id + Tail(line, m.bytes))
  {
    hide StartsAt, Lead, BytesMark, WorkMark, ShaMark, PathMark;
    Lengths();
    Peel(line, 0, Lead(), m.bytes);
    assert line[0..] == line;
  }

  lemma BytesPiece(line: string, m: Marks)
    requires InPlace(line, m)
    ensures Tail(line, m.bytes) == BytesMark() + (CutAt(line, m).bytes + Tail(line, m.work))
  {
    hide StartsAt, Lead, BytesMark, WorkMark, ShaMark, PathMark;
    Lengths();
    Peel(line, m.bytes, BytesMark(), m.work);
  }

  lemma LastPieces(line: string, m: Marks)
    requires InPlace(line, m)
    ensures Tail(line, m.work) == WorkMark() + (CutAt(line, m).work + Tail(line, m.sha))
    ensures Tail(line, m.sha) == ShaMark() + (CutAt(line, m).sha + Tail(line, m.path))
  {
    hide StartsAt, Lead, BytesMark, WorkMark, ShaMark, PathMark;
    Lengths();
    Peel(line, m.work, WorkMark(), m.sha);
    Peel(line, m.sha, ShaMark(), m.path);
  }

  lemma PathPiece(line: string, m: Marks)
    requires InPlace(line, m)
    ensures Tail(line, m.path) == PathMark() + CutAt(line, m).path
  {
    hide StartsAt, Lead, BytesMark, WorkMark, ShaMark, PathMark;
    Lengths();
    Peel(line, m.path, PathMark(), |line|);
    assert line[m.path + 6..|line|] + line[|line|..] == line[m.path + 6..];
  }

  lemma CutGlues(line: string, m: Marks)
    requires InPlace(line, m)
    ensures Glued(CutAt(line, m)) == line
  {
    hide InPlace, CutAt, Glued, Tail, Lead, BytesMark, WorkMark, ShaMark, PathMark;
    IdPiece(line, m);
    BytesPiece(line, m);
    LastPieces(line, m);
    PathPiece(line, m);
    GluedIs(CutAt(line, m), line, Tail(line, m.bytes), Tail(line, m.work), Tail(line, m.sha), Tail(line, m.path));
  }

  lemma Lengths()
    ensures |Lead()| == 9 && |BytesMark()| == 7 && |WorkMark()| == 12 && |ShaMark()| == 8 && |PathMark()| == 6
  {}

  lemma Regroup(head: string, text: string, mark: string, tail: string)
    ensures head + (text + (mark + tail)) == (head + text + mark) + tail
  {}

  /** Where the marks of a glued line are. */
  function PlacesOf(c: Cut): Marks {
    var p1 := 9 + |c.id|;
    var p2 := p1 + 7 + |c.bytes|;
    var p3 := p2 + 12 + |c.work|;
    Marks(p1, p2, p3, p3 + 8 + |c.sha|)
  }

  lemma BytesFound(c: Cut)
    requires Bare(c.id)
    ensures var line, p := Glued(c), PlacesOf(c);
      && StartsAt(line, 0, Lead()) && p.bytes + 7 <= |line|
      && FindText(line, BytesMark(), 9) == p.bytes && StartsAt(line, p.bytes, BytesMark())
      && line[9..p.bytes] == c.id
  {
    hide StartsAt, FindText, Glued, BehindBytes, BehindWork, Lead, BytesMark, WorkMark, ShaMark, PathMark;
    Regrouped(c);
    Lengths();
    Blanks();
    MarkFound(Lead(), c.id, BytesMark(), BehindBytes(c), 9, Glued(c));
  }

  lemma WorkFound(c: Cut)
    requires Bare(c.bytes)
    ensures var line, p := Glued(c), PlacesOf(c);
      && p.work + 12 <= |line|
      && FindText(line, WorkMark(), p.bytes + 1) == p.work && StartsAt(line, p.work, WorkMark())
      && line[p.bytes + 7..p.work] == c.bytes
  {
    hide StartsAt, FindText, Glued, BehindBytes, BehindWork, Lead, BytesMark, WorkMark, ShaMark, PathMark;
    Regrouped(c);
    Lengths();
    Blanks();
    var head := Lead() + c.id;
    assert (head + BytesMark())[|head| + 1..] == BytesMark()[1..];
    MarkFound(head + BytesMark(), c.bytes, WorkMark(), BehindWork(c), |head| + 1, Glued(c));
  }

  lemma ShaFound(c: Cut)
    requires Bare(c.work)
    ensures var line, p := Glued(c), PlacesOf(c);
      && p.sha + 8 <= |line|
      && FindText(line, ShaMark(), p.work + 1) == p.sha && StartsAt(line, p.sha, ShaMark())
      && line[p.work + 12..p.sha] == c.work
  {
    hide StartsAt, FindText, Glued, BehindBytes, BehindWork, Lead, BytesMark, WorkMark, ShaMark, PathMark;
    Regrouped(c);
    Lengths();
    Blanks();
    var head := Lead() + c.id + BytesMark() + c.bytes;
    assert (head + WorkMark())[|head| + 1..] == WorkMark()[1..];
    MarkFound(head + WorkMark(), c.work, ShaMark(), c.sha + (PathMark() + c.path), |head| + 1, Glued(c));
  }

  lemma PathFound(c: Cut)
    requires Bare(c.sha)
    ensures var line, p := Glued(c), PlacesOf(c);
      && p.path + 6 <= |line|
      && FindText(line, PathMark(), p.sha + 1) == p.path && StartsAt(line, p.path, PathMark())
      && line[p.sha + 8..p.path] == c.sha && line[p.path + 6..] == c.path
  {
    hide StartsAt, FindText, Glued, BehindBytes, BehindWork, Lead, BytesMark, WorkMark, ShaMark, PathMark;
    Regrouped(c);
    Lengths();
    Blanks();
    var head := Lead() + c.id + BytesMark() + c.bytes + WorkMark() + c.work;
    assert (head + ShaMark())[|head| + 1..] == ShaMark()[1..];
    MarkFound(head + ShaMark(), c.sha, PathMark(), c.path, |head| + 1, Glued(c));
  }

  /** Marks at the ends of bare texts are found where they are. */
  lemma GluedMarks(c: Cut)
    requires Bare(c.id) && Bare(c.bytes) && Bare(c.work) && Bare(c.sha)
    ensures var line := Glued(c); InPlace(line, MarksOf(line)) && CutAt(line, MarksOf(line)) == c
  {
    hide StartsAt, FindText, Bare, Glued, BytesMark, WorkMark, ShaMark, PathMark;
    BytesFound(c);
    WorkFound(c);
    ShaFound(c);
    PathFound(c);
    assert MarksOf(Glued(c)) == PlacesOf(c);
  }

  lemma Blanks()
    ensures BytesMark()[0] == ' ' && WorkMark()[0] == ' ' && ShaMark()[0] == ' ' && PathMark()[0] == ' '
    ensures Bare(BytesMark()[1..]) && Bare(WorkMark()[1..]) && Bare(ShaMark()[1..])
  {}

  lemma Regrouped(c: Cut)
    ensures Glued(c) == Lead() + (c.id + (BytesMark() + BehindBytes(c)))
    ensures Glued(c) == Lead() + c.id + BytesMark() + (c.bytes + (WorkMark() + BehindWork(c)))
    ensures Glued(c) == Lead() + c.id + BytesMark() + c.bytes + WorkMark()
                        + (c.work + (ShaMark() + (c.sha + (PathMark() + c.path))))
    ensures Glued(c) == Lead() + c.id + BytesMark() + c.bytes + WorkMark() + c.work + ShaMark()
                        + (c.sha + (PathMark() + c.path))
    ensures StartsAt(Glued(c), 0, Lead())
  {
    hide StartsAt, Lead, BytesMark, WorkMark, ShaMark, PathMark;
    var h2 := Lead() + c.id + BytesMark();
    var h3 := h2 + c.bytes + WorkMark();
    Regroup(Lead(), c.id, BytesMark(), BehindBytes(c));
    Regroup(h2, c.bytes, WorkMark(), BehindWork(c));
    Regroup(h3, c.work, ShaMark(), c.sha + (PathMark() + c.path));
    StartsAtFront(Lead(), c.id + (BytesMark() + BehindBytes(c)));
  }

  lemma StartsAtFront(head: string, tail: string) ensures StartsAt(head + tail, 0, head) {}

  lemma CharOf(head: string, text: string, tail: string, j: nat)
    requires j < |head| + |text|
    ensures (head + (text + tail))[j] == if j < |head| then head[j] else text[j - |head|]
  {}

  lemma SlicesOf(head: string, text: string, mark: string, tail: string)
    ensures var line, at := head + (text + (mark + tail)), |head| + |text|;
      && |line| == at + |mark| + |tail| && StartsAt(line, at, mark)
      && line[|head|..at] == text && line[at + |mark|..] == tail
  {
    var line, at := head + (text + (mark + tail)), |head| + |text|;
    assert line[at..at + |mark|] == mark;
  }

  /** Behind a head without blanks from `from` on, and a bare text, the mark is the next one. */
  lemma MarkFound(head: string, text: string, mark: string, tail: string, from: nat, line: string)
    requires line == head + (text + (mark + tail)) && Bare(text) && mark != "" && mark[0] == ' '
    requires from <= |head| && Bare(head[from..])
    ensures |line| == |head| + |text| + |mark| + |tail|
    ensures FindText(line, mark, from) == |head| + |text| && StartsAt(line, |head| + |text|, mark)
    ensures line[|head|..|head| + |text|] == text && line[|head| + |text| + |mark|..] == tail
  {
    hide StartsAt, FindText;
    var at := |head| + |text|;
    SlicesOf(head, text, mark, tail);
    forall j | from <= j < at
      ensures line[j] != ' '
    {
      CharOf(head, text, mark + tail, j);
      if j < |head| {
        assert head[from..][j - from] == head[j];
      }
    }
    FoundAt(line, mark, from, at);
  }

  lemma RecordIsGlued(c: Record)
    ensures var cut := Cut(Decimal(c.id), Decimal(c.bytes), Decimal(c.workUnits), Hex(c.sha256), c.path);
      RecordLine(c) == Glued(cut) && Bare(cut.id) && Bare(cut.bytes) && Bare(cut.work) && Bare(cut.sha)
  {
    hide Decimal, Hex;
    NoBlanks(c.id, c.sha256);
    NoBlanks(c.bytes, c.sha256);
    NoBlanks(c.workUnits, c.sha256);
  }

  predicate Readable(c: Record) { c.id <= MaxU64 && c.bytes <= MaxU64 && c.workUnits <= MaxU64 }

  /** What any readable record with this line must look like. */
  lemma RecordParts(line: string, c: Record)
    requires line == RecordLine(c)
    ensures var m := MarksOf(line);
      && InPlace(line, m)
      && CutAt(line, m) == Cut(Decimal(c.id), Decimal(c.bytes), Decimal(c.workUnits), Hex(c.sha256), c.path)
  {
    hide Glued, MarksOf, RecordLine, Decimal, Hex, InPlace, CutAt;
    RecordIsGlued(c);
    GluedMarks(Cut(Decimal(c.id), Decimal(c.bytes), Decimal(c.workUnits), Hex(c.sha256), c.path));
  }

  /** parse_chart_line: accepts exactly the printed records. */
  method ParseRecord(line: string) returns (r: Option<Record>)
    ensures r.Some? ==> line == RecordLine(r.value) && Readable(r.value)
    ensures r.None? ==> forall c :: Readable(c) ==> line != RecordLine(c)
  {
    hide RecordLine, MarksOf, Decimal, Hex, ParseNumber;
    var m := MarksOf(line);
    if !InPlace(line, m) {
      forall c ensures line != RecordLine(c) {
        if line == RecordLine(c) {
          RecordParts(line, c);
        }
      }
      return None;
    }
    var cut := CutAt(line, m);
    var max := 0xffff_ffff_ffff_ffff;
    var id, bytes, work := ParseNumber(cut.id, max), ParseNumber(cut.bytes, max), ParseNumber(cut.work, max);
    var sha := ParseHex(cut.sha);
    forall c | Readable(c) && line == RecordLine(c)
      ensures id.Some? && bytes.Some? && work.Some? && sha.Some?
    {
      RecordParts(line, c);
      NumberBothWays(cut.id, c.id, MaxU64);
      NumberBothWays(cut.bytes, c.bytes, MaxU64);
      NumberBothWays(cut.work, c.workUnits, MaxU64);
    }
    if id.None? || bytes.None? || work.None? || sha.None? {
      return None;
    }
    var c := Record(id.value, bytes.value, work.value, sha.value, cut.path);
    CutGlues(line, m);
    RecordIsGlued(c);
    NumberBothWays(cut.id, c.id, MaxU64);
    NumberBothWays(cut.bytes, c.bytes, MaxU64);
    NumberBothWays(cut.work, c.workUnits, MaxU64);
    r := Some(c);
  }

  lemma RecordOnce(c: Record, d: Record)
    requires RecordLine(c) == RecordLine(d)
    ensures c == d
  {
    hide RecordLine, MarksOf, Decimal, Hex;
    RecordParts(RecordLine(c), c);
    RecordParts(RecordLine(c), d);
    DecimalReads(c.id);
    DecimalReads(d.id);
    DecimalReads(c.bytes);
    DecimalReads(d.bytes);
    DecimalReads(c.workUnits);
    DecimalReads(d.workUnits);
    HexOnce(c.sha256, d.sha256);
  }

  // ---------------------------------------------------------------- the lines of a manifest

  function AllLines(m: Manifest): (lines: seq<string>)
    ensures |lines| == |m.charts| + 11
  {
    HeaderLines(m) + RecordLines(m.charts) + [EndLine(m.endSha256)]
  }

  lemma TextOfLines(m: Manifest)
    ensures Join(AllLines(m)) == Prefix(m) + EndLine(m.endSha256) + "\n"
  {
    hide HeaderLines, RecordLines, EndLine;
    var head := HeaderLines(m) + RecordLines(m.charts);
    assert AllLines(m)[..|AllLines(m)| - 1] == head;
  }

  function Power10(k: nat): nat { if k == 0 then 1 else 10 * Power10(k - 1) }

  lemma {:induction false} DecimalLength(n: nat, k: nat)
    requires k > 0 && n < Power10(k)
    ensures |Decimal(n)| <= k
  {
    if n >= 10 {
      assert Power10(0) == 1 && Power10(k) == 10 * Power10(k - 1);
      DecimalLength(n / 10, k - 1);
    }
  }

  lemma Power20() ensures Power10(20) > MaxU64 {
    assert Power10(5) == 100000;
    assert Power10(10) == 10000000000;
    assert Power10(15) == 1000000000000000;
  }

  /** A short line of printable text that does not end in a blank. */
  predicate Sound(s: string, n: nat) { 0 < |s| <= n && Printable(s) && s[|s| - 1] != ' ' }

  lemma SoundAfter(head: string, s: string, n: nat, k: nat)
    requires Sound(s, n) && Printable(head) && |head| <= k
    ensures Sound(head + s, k + n)
  {}

  lemma DecimalSound(n: nat)
    requires n <= MaxU64
    ensures Sound(Decimal(n), 20)
  {
    hide Decimal, Power10;
    DecimalReads(n);
    Power20();
    DecimalLength(n, 20);
  }

  lemma HexDigitSound(d: nat)
    requires d < 16
    ensures ' ' < HexDigit(d) <= '~'
  {}

  lemma HexSound(d: Digest)
    ensures Sound(Hex(d), 64)
  {
    hide Hex;
    forall i | 0 <= i < 64
      ensures ' ' < Hex(d)[i] <= '~'
    {
      HexInside(d, i);
    }
  }

  lemma PathSound(path: string)
    requires ValidPath(path)
    ensures Sound(path, 240)
  {
    ValidHasNoGaps(path, 0);
  }

  lemma RecordSound(c: Record)
    requires ValidRecord(c)
    ensures Sound(RecordLine(c), 1024)
  {
    hide Sound, Decimal, Hex, ValidPath;
    DecimalSound(c.id);
    DecimalSound(c.bytes);
    DecimalSound(c.workUnits);
    HexSound(c.sha256);
    PathSound(c.path);
    MarksPrintable();
    SoundAfter(PathMark(), c.path, 240, 6);
    SoundBoth(Hex(c.sha256), 64, PathMark() + c.path, 246);
    SoundAfter(ShaMark(), Hex(c.sha256) + (PathMark() + c.path), 310, 8);
    var cut := Cut(Decimal(c.id), Decimal(c.bytes), Decimal(c.workUnits), Hex(c.sha256), c.path);
    SoundBoth(Decimal(c.workUnits), 20, ShaMark() + (Hex(c.sha256) + (PathMark() + c.path)), 318);
    SoundAfter(WorkMark(), BehindWork(cut), 338, 12);
    SoundBoth(Decimal(c.bytes), 20, WorkMark() + BehindWork(cut), 350);
    SoundAfter(BytesMark(), BehindBytes(cut), 370, 7);
    SoundBoth(Decimal(c.id), 20, BytesMark() + BehindBytes(cut), 377);
    SoundAfter(Lead(), Decimal(c.id) + (BytesMark() + BehindBytes(cut)), 397, 9);
    SoundMore(RecordLine(c), 406, 1024);
  }

  lemma SoundBoth(a: string, n: nat, b: string, k: nat)
    requires Sound(a, n) && Sound(b, k)
    ensures Sound(a + b, n + k)
  {}

  lemma SoundMore(s: string, n: nat, k: nat)
    requires Sound(s, n) && n <= k
    ensures Sound(s, k)
  {}

  lemma MarksPrintable()
    ensures Printable(Lead()) && |Lead()| == 9
    ensures Printable(BytesMark()) && |BytesMark()| == 7
    ensures Printable(WorkMark()) && |WorkMark()| == 12
    ensures Printable(ShaMark()) && |ShaMark()| == 8
    ensures Printable(PathMark()) && |PathMark()| == 6
  {}

  lemma FieldSound(head: string, n: nat)
    requires n <= MaxU64 && Printable(head) && |head| <= 30
    ensures Sound(head + Decimal(n), 1024)
  {
    hide Sound, Decimal, Printable;
    DecimalSound(n);
    SoundAfter(head, Decimal(n), 20, 30);
    SoundMore(head + Decimal(n), 50, 1024);
  }

  lemma LiteralSound()
    ensures Sound("MAIMOE_MANIFEST 4", 1024) && Sound("chart_format=" + "MM-SIMAI-1", 1024)
    ensures Sound("output_format=" + "MM-FILES-3", 1024)
  {}

  lemma PrefixesPrintable()
    ensures Printable("chart_count=") && Printable("frame_width=") && Printable("frame_height=")
    ensures Printable("frame_file_bytes=") && Printable("result_file_bytes=")
    ensures Printable("output_file_count=") && Printable("output_logical_bytes=")
  {}

  lemma HeaderSound(m: Manifest)
    requires ValidHeader(m)
    ensures forall i :: 0 <= i < 10 ==> Sound(HeaderLines(m)[i], 1024)
  {
    hide Decimal, Sound, Printable;
    LiteralSound();
    PrefixesPrintable();
    FieldSound("chart_count=", m.chartCount);
    FieldSound("frame_width=", m.frameWidth);
    FieldSound("frame_height=", m.frameHeight);
    FieldSound("frame_file_bytes=", m.frameFileBytes);
    FieldSound("result_file_bytes=", m.resultFileBytes);
    FieldSound("output_file_count=", m.outputFileCount);
    FieldSound("output_logical_bytes=", m.outputLogicalBytes);
  }

  lemma EndSound(d: Digest)
    ensures Sound(EndLine(d), 1024)
  {
    hide Hex;
    HexSound(d);
    SoundAfter("end sha256=", Hex(d), 64, 11);
  }

  /** The text of a valid manifest splits into its lines. */
  lemma ValidLines(hash: string -> Digest, text: string, m: Manifest)
    requires Encodes(hash, text, m)
    ensures Splits(text, AllLines(m), 1024, 1024)
  {
    hide HeaderLines, EndLine, ValidHeader, RecordLine, ValidRecord, Prefix;
    TextOfLines(m);
    HeaderSound(m);
    EndSound(m.endSha256);
    var lines := AllLines(m);
    forall i | 0 <= i < |lines|
      ensures Sound(lines[i], 1024)
    {
      if i < 10 {
        assert lines[i] == HeaderLines(m)[i];
      } else if i < |m.charts| + 10 {
        RecordSound(m.charts[i - 10]);
        assert lines[i] == RecordLine(m.charts[i - 10]);
      }
    }
  }

  lemma LinesAre(hash: string -> Digest, text: string, lines: seq<string>, m: Manifest)
    requires Splits(text, lines, 1024, 1024) && Encodes(hash, text, m)
    ensures lines == AllLines(m)
  {
    hide AllLines, Encodes;
    ValidLines(hash, text, m);
    PrintableLines(lines, 1024, 1024);
    PrintableLines(AllLines(m), 1024, 1024);
    JoinOnce(lines, AllLines(m));
  }

  // ---------------------------------------------------------------- reading a manifest

  lemma AfterOnce(prefix: string, a: string, b: string)
    requires prefix + a == prefix + b
    ensures a == b
  {
    assert (prefix + a)[|prefix|..] == a && (prefix + b)[|prefix|..] == b;
  }

  /** value_after. */
  method ValueAfter(line: string, prefix: string) returns (r: Option<string>)
    ensures r.Some? ==> line == prefix + r.value
    ensures r.None? ==> forall v :: line != prefix + v
  {
    if |line| < |prefix| || line[..|prefix|] != prefix {
      return None;
    }
    r := Some(line[|prefix|..]);
    assert line == prefix + r.value;
  }

  method NumberAfter(line: string, prefix: string, max: nat) returns (r: Option<nat>)
    ensures r.Some? ==> line == prefix + Decimal(r.value) && r.value <= max
    ensures r.None? ==> forall n: nat :: n <= max ==> line != prefix + Decimal(n)
  {
    hide Decimal, ParseNumber;
    var value := ValueAfter(line, prefix);
    if value.None? {
      return None;
    }
    r := ParseNumber(value.value, max);
    forall n: nat | n <= max && line == prefix + Decimal(n)
      ensures r == Some(n)
    {
      AfterOnce(prefix, value.value, Decimal(n));
      NumberBothWays(value.value, n, max);
    }
    if r.Some? {
      NumberBothWays(value.value, r.value, max);
    }
  }

  /** The header fields are within the widths of their types. */
  predicate InWidth(m: Manifest) {
    && m.chartCount <= MaxU32 && m.frameWidth <= MaxU16 && m.frameHeight <= MaxU16 && m.frameFileBytes <= MaxU32
    && m.resultFileBytes <= MaxU32 && m.outputFileCount <= MaxU64 && m.outputLogicalBytes <= MaxU64
  }

  /** The lines of the header, with no records and an empty digest yet. */
  method ParseHeader(lines: seq<string>) returns (r: Option<Manifest>)
    requires |lines| == 10
    ensures r.Some? ==> lines == HeaderLines(r.value) && InWidth(r.value)
    ensures r.None? ==> forall m :: InWidth(m) ==> lines != HeaderLines(m)
  {
    hide Decimal;
    if lines[0] != "MAIMOE_MANIFEST 4" {
      return None;
    }
    var chartFormat := ValueAfter(lines[1], "chart_format=");
    if chartFormat.None? {
      return None;
    }
    var outputFormat := ValueAfter(lines[2], "output_format=");
    if outputFormat.None? {
      return None;
    }
    var chartCount := NumberAfter(lines[3], "chart_count=", MaxU32);
    if chartCount.None? {
      return None;
    }
    var frameWidth := NumberAfter(lines[4], "frame_width=", 0xffff);
    if frameWidth.None? {
      return None;
    }
    var frameHeight := NumberAfter(lines[5], "frame_height=", 0xffff);
    if frameHeight.None? {
      return None;
    }
    var frameFileBytes := NumberAfter(lines[6], "frame_file_bytes=", MaxU32);
    if frameFileBytes.None? {
      return None;
    }
    var resultFileBytes := NumberAfter(lines[7], "result_file_bytes=", MaxU32);
    if resultFileBytes.None? {
      return None;
    }
    var outputFileCount := NumberAfter(lines[8], "output_file_count=", 0xffff_ffff_ffff_ffff);
    if outputFileCount.None? {
      return None;
    }
    var outputLogicalBytes := NumberAfter(lines[9], "output_logical_bytes=", 0xffff_ffff_ffff_ffff);
    if outputLogicalBytes.None? {
      return None;
    }
    r := Some(Manifest(chartFormat.value, outputFormat.value, chartCount.value, frameWidth.value, frameHeight.value,
                       frameFileBytes.value, resultFileBytes.value, outputFileCount.value, outputLogicalBytes.value,
                       [], seq(32, _ => 0)));
    assert lines == HeaderLines(r.value);
  }

  predicate SomeUnreadable(charts: seq<Record>) { exists i :: 0 <= i < |charts| && !Readable(charts[i]) }

  /** All record lines. */
  method ParseRecords(lines: seq<string>) returns (r: Option<seq<Record>>)
    ensures r.Some? ==> lines == RecordLines(r.value)
    ensures r.None? ==> forall charts :: lines == RecordLines(charts) ==> SomeUnreadable(charts)
  {
    hide RecordLine;
    var charts: seq<Record> := [];
    for index := 0 to |lines|
      invariant |charts| == index
      invariant forall i :: 0 <= i < index ==> lines[i] == RecordLine(charts[i])
    {
      var c := ParseRecord(lines[index]);
      if c.None? {
        forall others | lines == RecordLines(others)
          ensures SomeUnreadable(others)
        {
          assert !Readable(others[index]);
        }
        return None;
      }
      charts := charts + [c.value];
    }
    r := Some(charts);
  }

  method ParseEnd(line: string) returns (r: Option<Digest>)
    ensures r.Some? ==> line == EndLine(r.value)
    ensures r.None? ==> forall d: Digest :: line != EndLine(d)
  {
    hide Hex;
    var value := ValueAfter(line, "end sha256=");
    if value.None? {
      return None;
    }
    r := ParseHex(value.value);
    if r.None? {
      forall d: Digest ensures line != EndLine(d) {
        if line == EndLine(d) {
          AfterOnce("end sha256=", value.value, Hex(d));
        }
      }
    }
  }

  lemma HeaderOnce(m: Manifest, n: Manifest)
    requires HeaderLines(m) == HeaderLines(n)
    ensures m.chartFormat == n.chartFormat && m.outputFormat == n.outputFormat && m.chartCount == n.chartCount
    ensures m.frameWidth == n.frameWidth && m.frameHeight == n.frameHeight
    ensures m.frameFileBytes == n.frameFileBytes && m.resultFileBytes == n.resultFileBytes
    ensures m.outputFileCount == n.outputFileCount && m.outputLogicalBytes == n.outputLogicalBytes
  {
    hide Decimal;
    var a, b := HeaderLines(m), HeaderLines(n);
    assert a[1] == b[1] && a[2] == b[2] && a[3] == b[3] && a[4] == b[4] && a[5] == b[5] && a[6] == b[6];
    assert a[7] == b[7] && a[8] == b[8] && a[9] == b[9];
    AfterOnce("chart_format=", m.chartFormat, n.chartFormat);
    AfterOnce("output_format=", m.outputFormat, n.outputFormat);
    SameNumber("chart_count=", m.chartCount, n.chartCount);
    SameNumber("frame_width=", m.frameWidth, n.frameWidth);
    SameNumber("frame_height=", m.frameHeight, n.frameHeight);
    SameNumber("frame_file_bytes=", m.frameFileBytes, n.frameFileBytes);
    SameNumber("result_file_bytes=", m.resultFileBytes, n.resultFileBytes);
    SameNumber("output_file_count=", m.outputFileCount, n.outputFileCount);
    SameNumber("output_logical_bytes=", m.outputLogicalBytes, n.outputLogicalBytes);
  }

  lemma SameNumber(prefix: string, a: nat, b: nat)
    requires prefix + Decimal(a) == prefix + Decimal(b)
    ensures a == b
  {
    hide Decimal;
    AfterOnce(prefix, Decimal(a), Decimal(b));
    DecimalReads(a);
    DecimalReads(b);
  }

  lemma LinesOnce(m: Manifest, n: Manifest)
    requires AllLines(m) == AllLines(n)
    ensures m == n
  {
    hide HeaderLines, RecordLine, Hex;
    var a, b := AllLines(m), AllLines(n);
    assert a[..10] == HeaderLines(m) && b[..10] == HeaderLines(n);
    HeaderOnce(m, n);
    forall i | 0 <= i < |m.charts|
      ensures m.charts[i] == n.charts[i]
    {
      assert a[10 + i] == RecordLine(m.charts[i]) && b[10 + i] == RecordLine(n.charts[i]);
      RecordOnce(m.charts[i], n.charts[i]);
    }
    assert a[|a| - 1] == b[|b| - 1];
    AfterOnce("end sha256=", Hex(m.endSha256), Hex(n.endSha256));
    HexOnce(m.endSha256, n.endSha256);
  }

  /** The parts of the lines of a manifest. */
  lemma PartsAre(lines: seq<string>, m: Manifest)
    requires lines == AllLines(m)
    ensures |lines| == |m.charts| + 11 && lines[..10] == HeaderLines(m)
    ensures lines[10..|lines| - 1] == RecordLines(m.charts) && lines[|lines| - 1] == EndLine(m.endSha256)
  {
    hide HeaderLines, RecordLines, EndLine;
    var a, b, c := HeaderLines(m), RecordLines(m.charts), EndLine(m.endSha256);
    assert (a + b + [c])[..10] == a && (a + b + [c])[10..|lines| - 1] == b;
  }

  lemma ValidIsReadable(m: Manifest)
    requires Valid(m)
    ensures InWidth(m) && |m.charts| == m.chartCount && 0 < m.chartCount <= MaxCharts && !SomeUnreadable(m.charts)
  {
    hide ValidPath;
    assert forall i :: 0 <= i < |m.charts| ==> ValidRecord(m.charts[i]);
  }

  /** A manifest that the lines may belong to. */
  predicate Fitting(lines: seq<string>, m: Manifest) {
    lines == AllLines(m) && InWidth(m) && |m.charts| == m.chartCount && 0 < m.chartCount <= MaxCharts
    && !SomeUnreadable(m.charts)
  }

  /** Lines of the right number and their parts, read one by one. */
  method ParseLines(lines: seq<string>) returns (r: Option<Manifest>)
    ensures r.Some? ==> lines == AllLines(r.value) && InWidth(r.value) && |r.value.charts| == r.value.chartCount > 0
    ensures r.None? ==> forall m :: !Fitting(lines, m)
  {
    hide HeaderLines, RecordLine, EndLine, InWidth, SomeUnreadable, AllLines;
    forall m | lines == AllLines(m)
      ensures |lines| == |m.charts| + 11 && lines[..10] == HeaderLines(m)
      ensures lines[10..|lines| - 1] == RecordLines(m.charts) && lines[|lines| - 1] == EndLine(m.endSha256)
    {
      PartsAre(lines, m);
    }
    if |lines| < 12 {
      return None;
    }
    var header := ParseHeader(lines[..10]);
    if header.None? {
      return None;
    }
    var h := header.value;
    forall m | lines == AllLines(m)
      ensures m.chartCount == h.chartCount
    {
      HeaderOnce(m, h);
    }
    if h.chartCount == 0 || h.chartCount > MaxCharts || |lines| != h.chartCount + 11 {
      return None;
    }
    var charts := ParseRecords(lines[10..|lines| - 1]);
    if charts.None? {
      return None;
    }
    var end := ParseEnd(lines[|lines| - 1]);
    if end.None? {
      return None;
    }
    var m := h.(charts := charts.value, endSha256 := end.value);
    HeaderIgnores(h, charts.value, end.value);
    assert lines == lines[..10] + lines[10..|lines| - 1] + [lines[|lines| - 1]];
    MadeOf(lines, m);
    r := Some(m);
  }

  lemma MadeOf(lines: seq<string>, m: Manifest)
    requires lines == HeaderLines(m) + RecordLines(m.charts) + [EndLine(m.endSha256)]
    ensures lines == AllLines(m)
  {}

  lemma HeaderIgnores(m: Manifest, charts: seq<Record>, d: Digest)
    ensures HeaderLines(m.(charts := charts, endSha256 := d)) == HeaderLines(m)
    ensures InWidth(m.(charts := charts, endSha256 := d)) == InWidth(m)
  {
    hide Decimal;
  }

  /** parse_manifest_v4: accepts exactly the texts of valid manifests with the right end digest. */
  method ParseManifest(hash: string -> Digest, text: string) returns (r: Option<Manifest>)
    ensures r.Some? ==> Encodes(hash, text, r.value)
    ensures r.None? ==> forall m :: !Encodes(hash, text, m)
  {
    hide AllLines, Splits, Encodes, Valid, Prefix, EndLine, InWidth, SomeUnreadable;
    var lines := SplitLines(text, 1024, 1024);
    if lines.None? {
      forall m ensures !Encodes(hash, text, m) {
        if Encodes(hash, text, m) {
          ValidLines(hash, text, m);
        }
      }
      return None;
    }
    forall m | Encodes(hash, text, m)
      ensures Fitting(lines.value, m) && lines.value == AllLines(m)
    {
      LinesAre(hash, text, lines.value, m);
      EncodesIsValid(hash, text, m);
      ValidIsReadable(m);
    }
    r := ParseLines(lines.value);
    if r.None? {
      return;
    }
    forall m | Encodes(hash, text, m)
      ensures m == r.value
    {
      LinesOnce(m, r.value);
    }
    var m := r.value;
    var prefix := text[..PrefixLength(text, lines.value, m)];
    PrefixIs(text, lines.value, m);
    if hash(prefix) != m.endSha256 {
      NotEncoded(hash, text, m);
      return None;
    }
    var ok := Validate(m);
    if !ok {
      NotValid(hash, text, m);
      return None;
    }
    IsEncoded(hash, text, lines.value, m);
  }

  lemma EncodesIsValid(hash: string -> Digest, text: string, m: Manifest)
    requires Encodes(hash, text, m)
    ensures Valid(m)
  {}

  /** Where the last line starts. */
  function PrefixLength(text: string, lines: seq<string>, m: Manifest): (n: nat)
    requires text == Join(lines) && lines == AllLines(m)
    ensures n <= |text|
  {
    TextOfLines(m);
    |text| - |EndLine(m.endSha256)| - 1
  }

  lemma PrefixIs(text: string, lines: seq<string>, m: Manifest)
    requires text == Join(lines) && lines == AllLines(m)
    ensures text[..PrefixLength(text, lines, m)] == Prefix(m)
  {
    hide Prefix, EndLine, AllLines;
    TextOfLines(m);
  }

  lemma NotEncoded(hash: string -> Digest, text: string, m: Manifest)
    requires m.endSha256 != hash(Prefix(m))
    ensures !Encodes(hash, text, m)
  {}

  lemma NotValid(hash: string -> Digest, text: string, m: Manifest)
    requires !Valid(m)
    ensures !Encodes(hash, text, m)
  {}

  lemma IsEncoded(hash: string -> Digest, text: string, lines: seq<string>, m: Manifest)
    requires text == Join(lines) && lines == AllLines(m) && Valid(m) && m.endSha256 == hash(Prefix(m))
    ensures Encodes(hash, text, m)
  {
    hide Prefix, EndLine, AllLines, Valid;
    TextOfLines(m);
  }

  /** A text is that of one manifest at most. */
  lemma EncodesOnce(hash: string -> Digest, text: string, m: Manifest, n: Manifest)
    requires Encodes(hash, text, m) && Encodes(hash, text, n)
    ensures m == n
  {
    hide Encodes, AllLines;
    ValidLines(hash, text, m);
    LinesAre(hash, text, AllLines(m), n);
    LinesOnce(m, n);
  }

  /** Reading what was written gives the manifest back, with the end digest filled in. */
  method WriteAndRead(hash: string -> Digest, m: Manifest) returns (written: Option<(string, Digest)>, back: Option<Manifest>)
    ensures written.Some? <==> Valid(m)
    ensures written.Some? ==> back == Some(m.(endSha256 := written.value.1))
  {
    hide Encodes, Valid;
    back := None;
    written := WriteManifest(hash, m);
    if written.Some? {
      back := ParseManifest(hash, written.value.0);
      if back.Some? {
        EncodesOnce(hash, written.value.0, m.(endSha256 := written.value.1), back.value);
      }
    }
  }

  /** Writing what was read gives the text back, byte for byte. */
  method ReadAndWrite(hash: string -> Digest, text: string) returns (read: Option<Manifest>, again: Option<(string, Digest)>)
    ensures read.Some? ==> again == Some((text, read.value.endSha256))
  {
    hide Valid, Prefix, EndLine;
    again := None;
    read := ParseManifest(hash, text);
    if read.Some? {
      again := WriteManifest(hash, read.value);
      EndDoesNotMatter(read.value, again.value.1);
    }
  }
}
