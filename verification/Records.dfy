/** The result record of a chart and the file of expected records: encoders, decoders, and what a chart produces. */
module Records {
  import opened Common
  import opened Types
  import opened Text
  import opened Simai
  import opened SimaiParser
  import opened Maidata
  import opened MaidataWriter
  import opened ChartFacts
  import opened ChartBounds
  import Serializer

  /** That many zero bytes. */
  function Blank(n: nat): (b: seq<U8>)
    ensures |b| == n && forall i :: 0 <= i < n ==> b[i] == 0
  {
    if n == 0 then [] else [0] + Blank(n - 1)
  }

  type Digest = d: seq<U8> | |d| == 32 witness Blank(32)

  type ErrorFields = f: seq<U8> | |f| == 16 witness Blank(16)

  datatype Status = IsValid | IsError

  /** Counts, as the record has them. */
  datatype Tally = Tally(total: U32, tap: U32, slide: U32, hold: U32, touch: U32, breaks: U32, warning: U32)

  const NoTally := Tally(0, 0, 0, 0, 0, 0, 0)
  const NoFields: ErrorFields := Blank(16)
  const RecordSize := 160

  /** DecodedResult. */
  datatype Record = Record(id: U64, status: Status, counts: Tally, fields: ErrorFields,
                           begin: Digest, end: Digest, result: Digest)

  /** A valid chart has counts that add up and no error; an error has no counts and is not all zero. */
  predicate Sound(d: Record) {
    match d.status
    case IsValid =>
      d.counts.tap + d.counts.slide + d.counts.hold + d.counts.touch + d.counts.breaks == d.counts.total
      && d.fields == NoFields
    case IsError => d.counts == NoTally && d.fields != NoFields
  }

  // ---------------------------------------------------------------- the layout

  function StatusByte(s: Status): U8 { if s.IsValid? then 1 else 2 }

  const Magic: seq<U8> := [0x4d, 0x4d, 0x52, 0x33]
  const Tail: seq<U8> := [0, 0, 0, 0]

  function Head(status: Status): (b: seq<U8>)
    ensures |b| == 8
  {
    Magic + [StatusByte(status), 0] + Le(RecordSize, 2)
  }

  function TallyBytes(t: Tally): (b: seq<U8>)
    ensures |b| == 28
  {
    Le(t.total, 4) + Le(t.tap, 4) + Le(t.slide, 4) + Le(t.hold, 4) + Le(t.touch, 4) + Le(t.breaks, 4)
    + Le(t.warning, 4)
  }

  function RecordBytes(d: Record): (b: seq<U8>)
    ensures |b| == RecordSize
  {
    Head(d.status) + Le(d.id, 8) + TallyBytes(d.counts) + d.fields + d.begin + d.end + d.result + Tail
  }

  /** encode_result_into. */
  method EncodeResultInto(output: array<U8>, id: U64, status: Status, counts: Tally, errorFields: seq<U8>,
                          begin: Digest, end: Digest, result: Digest) returns (ok: bool)
    modifies output
    ensures ok <==>
      output.Length == RecordSize && |errorFields| == (if status.IsValid? then 0 else 16)
    ensures ok ==> output[..] == RecordBytes(
                     Record(id, status, counts, if status.IsValid? then NoFields else errorFields, begin, end, result))
    ensures !ok ==> output[..] == old(output[..])
  {
    hide Le, Head, TallyBytes, Blank;
    if (status.IsValid? && errorFields != []) || (status.IsError? && |errorFields| != 16)
       || output.Length != RecordSize {
      return false;
    }
    var w := new Serializer.Writer(output);
    assert w.bytes[..0] == [];
    AppendHead(w, status);
    w.AppendLe(id, 8);
    AppendTally(w, counts);
    AppendRest(w, if errorFields == [] then NoFields else errorFields, begin, end, result);
    assert output[..160] == output[..];
    ok := true;
  }

  method AppendRest(w: Serializer.Writer, fields: ErrorFields, begin: Digest, end: Digest, result: Digest)
    requires w.offset + 116 <= w.bytes.Length
    modifies w.bytes, w`offset
    ensures w.offset == old(w.offset) + 116
    ensures w.bytes[..w.offset] == old(w.bytes[..w.offset]) + fields + begin + end + result + Tail
  {
    AppendAll(w, fields);
    AppendAll(w, begin);
    AppendAll(w, end);
    AppendAll(w, result);
    AppendAll(w, [0, 0, 0, 0]);
  }

  method AppendHead(w: Serializer.Writer, status: Status)
    requires w.offset + 8 <= w.bytes.Length
    modifies w.bytes, w`offset
    ensures w.offset == old(w.offset) + 8 && w.bytes[..w.offset] == old(w.bytes[..w.offset]) + Head(status)
  {
    hide Le;
    AppendAll(w, ['M' as int, 'M' as int, 'R' as int, '3' as int]);
    w.AppendByte(if status.IsValid? then 1 else 2);
    w.AppendByte(0);
    w.AppendLe(160, 2);
  }

  /** memcpy and fill_n. */
  method AppendAll(w: Serializer.Writer, values: seq<U8>)
    requires w.offset + |values| <= w.bytes.Length
    modifies w.bytes, w`offset
    ensures w.offset == old(w.offset) + |values| && w.bytes[..w.offset] == old(w.bytes[..w.offset]) + values
  {
    for i := 0 to |values|
      invariant w.offset == old(w.offset) + i
      invariant w.bytes[..w.offset] == old(w.bytes[..w.offset]) + values[..i]
    {
      w.AppendByte(values[i]);
      assert values[..i + 1] == values[..i] + [values[i]];
    }
    assert values[..|values|] == values;
  }

  method AppendTally(w: Serializer.Writer, t: Tally)
    requires w.offset + 28 <= w.bytes.Length
    modifies w.bytes, w`offset
    ensures w.offset == old(w.offset) + 28 && w.bytes[..w.offset] == old(w.bytes[..w.offset]) + TallyBytes(t)
  {
    hide Le;
    AppendFour(w, t.total, t.tap, t.slide, t.hold);
    w.AppendLe(t.touch, 4);
    w.AppendLe(t.breaks, 4);
    w.AppendLe(t.warning, 4);
  }

  method AppendFour(w: Serializer.Writer, x: U32, y: U32, z: U32, t: U32)
    requires w.offset + 16 <= w.bytes.Length
    modifies w.bytes, w`offset
    ensures w.offset == old(w.offset) + 16
    ensures w.bytes[..w.offset] == old(w.bytes[..w.offset]) + Le(x, 4) + Le(y, 4) + Le(z, 4) + Le(t, 4)
  {
    hide Le;
    w.AppendLe(x, 4);
    w.AppendLe(y, 4);
    w.AppendLe(z, 4);
    w.AppendLe(t, 4);
  }

  // ---------------------------------------------------------------- reading a record

  lemma PeelLast(a: seq<U8>, x: seq<U8>, b: seq<U8>, y: seq<U8>)
    requires |x| == |y| && a + x == b + y
    ensures a == b && x == y
  {
    assert a == (a + x)[..|a|] && b == (b + y)[..|b|];
    assert x == (a + x)[|a|..] && y == (b + y)[|b|..];
  }

  lemma SameHead(s: Status, t: Status)
    requires Head(s) == Head(t)
    ensures s == t
  {
    assert Head(s)[4] == StatusByte(s) && Head(t)[4] == StatusByte(t);
  }

  lemma SameTally(t: Tally, u: Tally)
    requires TallyBytes(t) == TallyBytes(u)
    ensures t == u
  {
    hide Le, Power;
    Powers();
    PeelLast(Le(t.total, 4) + Le(t.tap, 4) + Le(t.slide, 4) + Le(t.hold, 4) + Le(t.touch, 4) + Le(t.breaks, 4),
             Le(t.warning, 4),
             Le(u.total, 4) + Le(u.tap, 4) + Le(u.slide, 4) + Le(u.hold, 4) + Le(u.touch, 4) + Le(u.breaks, 4),
             Le(u.warning, 4));
    PeelLast(Le(t.total, 4) + Le(t.tap, 4) + Le(t.slide, 4) + Le(t.hold, 4) + Le(t.touch, 4), Le(t.breaks, 4),
             Le(u.total, 4) + Le(u.tap, 4) + Le(u.slide, 4) + Le(u.hold, 4) + Le(u.touch, 4), Le(u.breaks, 4));
    PeelLast(Le(t.total, 4) + Le(t.tap, 4) + Le(t.slide, 4) + Le(t.hold, 4), Le(t.touch, 4),
             Le(u.total, 4) + Le(u.tap, 4) + Le(u.slide, 4) + Le(u.hold, 4), Le(u.touch, 4));
    PeelLast(Le(t.total, 4) + Le(t.tap, 4) + Le(t.slide, 4), Le(t.hold, 4),
             Le(u.total, 4) + Le(u.tap, 4) + Le(u.slide, 4), Le(u.hold, 4));
    PeelLast(Le(t.total, 4) + Le(t.tap, 4), Le(t.slide, 4), Le(u.total, 4) + Le(u.tap, 4), Le(u.slide, 4));
    PeelLast(Le(t.total, 4), Le(t.tap, 4), Le(u.total, 4), Le(u.tap, 4));
    SameU32(t.total, u.total);
    SameU32(t.tap, u.tap);
    SameU32(t.slide, u.slide);
    SameU32(t.hold, u.hold);
    SameU32(t.touch, u.touch);
    SameU32(t.breaks, u.breaks);
    SameU32(t.warning, u.warning);
  }

  lemma SameU32(x: U32, y: U32)
    requires Le(x, 4) == Le(y, 4)
    ensures x == y
  {
    Powers();
    LeInjective(x, y, 4);
  }

  lemma SameId(x: U64, y: U64)
    requires Le(x, 8) == Le(y, 8)
    ensures x == y
  {
    Powers();
    LeInjective(x, y, 8);
  }

  /** A record has its own bytes. */
  lemma SameRecord(d: Record, e: Record)
    requires RecordBytes(d) == RecordBytes(e)
    ensures d == e
  {
    hide Le, Head, TallyBytes;
    var d1, e1 := Head(d.status) + Le(d.id, 8), Head(e.status) + Le(e.id, 8);
    var d2, e2 := d1 + TallyBytes(d.counts), e1 + TallyBytes(e.counts);
    var d3, e3 := d2 + d.fields, e2 + e.fields;
    var d4, e4 := d3 + d.begin, e3 + e.begin;
    var d5, e5 := d4 + d.end, e4 + e.end;
    PeelLast(d5 + d.result, Tail, e5 + e.result, Tail);
    PeelLast(d5, d.result, e5, e.result);
    PeelLast(d4, d.end, e4, e.end);
    PeelLast(d3, d.begin, e3, e.begin);
    PeelLast(d2, d.fields, e2, e.fields);
    PeelLast(d1, TallyBytes(d.counts), e1, TallyBytes(e.counts));
    PeelLast(Head(d.status), Le(d.id, 8), Head(e.status), Le(e.id, 8));
    SameHead(d.status, e.status);
    SameId(d.id, e.id);
    SameTally(d.counts, e.counts);
  }

  /** read_le, within the buffer. */
  method ReadLe(bytes: seq<U8>, offset: nat, width: nat) returns (value: nat)
    requires offset + width <= |bytes|
    ensures value < Power(width) && Le(value, width) == bytes[offset..offset + width]
  {
    hide Le, FromLe, Power;
    ghost var all := bytes[offset..offset + width];
    LeForth(all);
    value := 0;
    Powers();
    assert all[0..] == all;
    var power := 1;
    for i := 0 to width
      invariant power == Power(i) && value + power * FromLe(all[i..]) == FromLe(all)
    {
      FirstOf(all, i);
      NextPower(i);
      ReadNext(value, power, bytes[offset + i], FromLe(all[i + 1..]));
      value := value + bytes[offset + i] * power;
      power := 256 * power;
    }
    assert all[width..] == [];
    NothingLeft();
  }

  lemma FirstOf(b: seq<U8>, i: nat)
    requires i < |b|
    ensures FromLe(b[i..]) == b[i] + 256 * FromLe(b[i + 1..])
  {
    assert b[i..][1..] == b[i + 1..];
  }

  lemma NextPower(i: nat) ensures Power(i + 1) == 256 * Power(i) {}

  lemma NothingLeft() ensures FromLe([]) == 0 {}

  lemma ReadNext(value: nat, power: nat, byte: U8, rest: nat)
    ensures value + power * (byte + 256 * rest) == value + byte * power + 256 * power * rest
  {}

  method ReadU32(bytes: seq<U8>, offset: nat) returns (value: U32)
    requires offset + 4 <= |bytes|
    ensures Le(value, 4) == bytes[offset..offset + 4]
  {
    Powers();
    value := ReadLe(bytes, offset, 4);
  }

  method ReadTally(bytes: seq<U8>, offset: nat) returns (t: Tally)
    requires offset + 28 <= |bytes|
    ensures TallyBytes(t) == bytes[offset..offset + 28]
  {
    hide Le;
    var total := ReadU32(bytes, offset);
    var tap := ReadU32(bytes, offset + 4);
    var slide := ReadU32(bytes, offset + 8);
    var hold := ReadU32(bytes, offset + 12);
    var touch := ReadU32(bytes, offset + 16);
    var breaks := ReadU32(bytes, offset + 20);
    var warning := ReadU32(bytes, offset + 24);
    t := Tally(total, tap, slide, hold, touch, breaks, warning);
    assert bytes[offset..offset + 28] == bytes[offset..offset + 4] + bytes[offset + 4..offset + 8]
      + bytes[offset + 8..offset + 12] + bytes[offset + 12..offset + 16] + bytes[offset + 16..offset + 20]
      + bytes[offset + 20..offset + 24] + bytes[offset + 24..offset + 28];
  }

  lemma HeadIs(bytes: seq<U8>, status: Status)
    requires |bytes| >= 8 && bytes[..4] == Magic && bytes[4] == StatusByte(status) && bytes[5] == 0
    requires bytes[6..8] == Le(RecordSize, 2)
    ensures bytes[..8] == Head(status)
  {
    hide Le;
    assert bytes[..8] == bytes[..4] + [bytes[4], bytes[5]] + bytes[6..8];
  }

  lemma HeadOf(bytes: seq<U8>, d: Record)
    requires RecordBytes(d) == bytes
    ensures |bytes| == RecordSize && bytes[..4] == Magic && bytes[4] == StatusByte(d.status) && bytes[5] == 0
    ensures bytes[6..8] == Le(RecordSize, 2) && bytes[156..] == Tail
  {
    hide Le, TallyBytes;
    var rest := Le(d.id, 8) + TallyBytes(d.counts) + d.fields + d.begin + d.end + d.result;
    assert bytes == Head(d.status) + rest + Tail;
    assert bytes[..8] == Head(d.status);
    assert bytes[6..8] == Head(d.status)[6..8] && bytes[..4] == Head(d.status)[..4];
  }

  /** The pieces of a record, one behind the other. */
  lemma PiecesAre(bytes: seq<U8>, d: Record)
    requires |bytes| == RecordSize && bytes[..8] == Head(d.status) && bytes[8..16] == Le(d.id, 8)
    requires bytes[16..44] == TallyBytes(d.counts) && bytes[44..60] == d.fields && bytes[60..92] == d.begin
    requires bytes[92..124] == d.end && bytes[124..156] == d.result && bytes[156..] == Tail
    ensures RecordBytes(d) == bytes
  {
    hide Le, Head, TallyBytes;
    assert bytes == bytes[..8] + bytes[8..16] + bytes[16..44] + bytes[44..60] + bytes[60..92] + bytes[92..124]
                    + bytes[124..156] + bytes[156..];
  }

  /** decode_result: accepts exactly the bytes of sound records. */
  method DecodeResult(bytes: seq<U8>) returns (r: Option<Record>)
    ensures r.Some? ==> Sound(r.value) && RecordBytes(r.value) == bytes
    ensures r.None? ==> forall d :: Sound(d) ==> RecordBytes(d) != bytes
  {
    hide Le, Head, TallyBytes, RecordBytes, Power, Sound;
    forall d | RecordBytes(d) == bytes
      ensures |bytes| == RecordSize && bytes[..4] == Magic && bytes[4] == StatusByte(d.status) && bytes[5] == 0
      ensures bytes[6..8] == Le(RecordSize, 2) && bytes[156..] == Tail
    {
      HeadOf(bytes, d);
    }
    if |bytes| != 160 || bytes[..4] != ['M' as int, 'M' as int, 'R' as int, '3' as int] {
      return None;
    }
    var size := ReadLe(bytes, 6, 2);
    SizeIs(size);
    if (bytes[4] != 1 && bytes[4] != 2) || bytes[5] != 0 || size != 160 {
      return None;
    }
    var status := if bytes[4] == 1 then IsValid else IsError;
    var id := ReadLe(bytes, 8, 8);
    var counts := ReadTally(bytes, 16);
    if bytes[156..] != [0, 0, 0, 0] {
      return None;
    }
    HeadIs(bytes, status);
    Powers();
    var d := Record(id, status, counts, bytes[44..60], bytes[60..92], bytes[92..124], bytes[124..156]);
    PiecesAre(bytes, d);
    forall e | RecordBytes(e) == bytes
      ensures e == d
    {
      SameRecord(d, e);
    }
    var ok := Consistent(d);
    r := if ok then Some(d) else None;
  }

  /** The last check of decode_result. */
  method Consistent(d: Record) returns (ok: bool)
    ensures ok == Sound(d)
  {
    hide Blank;
    var categories := d.counts.tap + d.counts.slide + d.counts.hold + d.counts.touch + d.counts.breaks;
    var noError := d.fields == Blank(16);
    ok := !((d.status.IsValid? && (categories != d.counts.total || !noError))
            || (d.status.IsError? && (d.counts != Tally(0, 0, 0, 0, 0, 0, 0) || noError)));
  }

  lemma SizeIs(size: nat)
    requires size < Power(2)
    ensures Le(size, 2) == Le(RecordSize, 2) <==> size == RecordSize
  {
    Powers();
    if Le(size, 2) == Le(RecordSize, 2) {
      LeInjective(size, RecordSize, 2);
    }
  }

  /** A record that was encoded decodes to itself if it is sound, and is refused otherwise. */
  method EncodeAndDecode(d: Record) returns (r: Option<Record>)
    ensures r == if Sound(d) then Some(d) else None
  {
    hide RecordBytes, Sound, Blank;
    if d.status.IsValid? && d.fields != NoFields {
      UnsoundFields(d);
      return None;
    }
    var output := new U8[RecordSize](_ => 0);
    var ok := EncodeResultInto(output, d.id, d.status, d.counts, if d.status.IsValid? then [] else d.fields,
                               d.begin, d.end, d.result);
    r := DecodeResult(output[..]);
    if r.Some? {
      SameRecord(d, r.value);
    }
  }

  lemma UnsoundFields(d: Record)
    requires d.status.IsValid? && d.fields != NoFields
    ensures !Sound(d)
  {}

  // ---------------------------------------------------------------- what a chart produces

  /** canonical_error_fields. */
  function CanonicalFields(e: SemanticError, spot: Spot): Option<ErrorFields> {
    if spot.line == 0 || spot.column == 0 || spot.column > 0xffff then None
    else
      var fields: ErrorFields :=
        Le(ErrorRank(e.code), 2) + Le(spot.column, 2) + Le(spot.line, 4) + Le(e.detail, 4) + Le(0, 4);
      Some(fields)
  }

  /** The layout: code, column, line, detail and four bytes of nothing, each lowest byte first. */
  lemma FieldsAre(e: SemanticError, spot: Spot)
    requires spot.line < 0x1_0000_0000
    ensures var f := CanonicalFields(e, spot);
      && (f.Some? <==> spot.line > 0 && 0 < spot.column <= 65535)
      && (f.Some? ==>
            FromLe(f.value[0..2]) == ErrorRank(e.code) && FromLe(f.value[2..4]) == spot.column
            && FromLe(f.value[4..8]) == spot.line && FromLe(f.value[8..12]) == e.detail
            && FromLe(f.value[12..16]) == 0)
  {
    hide Le, FromLe, Power;
    Powers();
    if CanonicalFields(e, spot).Some? {
      LeBack(ErrorRank(e.code), 2);
      LeBack(spot.column, 2);
      LeBack(spot.line, 4);
      LeBack(e.detail, 4);
      LeBack(0, 4);
      Slices(Le(ErrorRank(e.code), 2), Le(spot.column, 2), Le(spot.line, 4), Le(e.detail, 4), Le(0, 4));
    }
  }

  lemma Slices(a: seq<U8>, b: seq<U8>, c: seq<U8>, d: seq<U8>, e: seq<U8>)
    requires |a| == 2 && |b| == 2 && |c| == 4 && |d| == 4 && |e| == 4
    ensures var f := a + b + c + d + e;
      f[0..2] == a && f[2..4] == b && f[4..8] == c && f[8..12] == d && f[12..16] == e
  {}

  /** A counter of 32 bits. */
  function Wrapped32(x: nat): U32 { x % 0x1_0000_0000 }

  function TallyOf(c: Chart): Tally {
    Tally(Wrapped32(c.counts.total), Wrapped32(c.counts.tap), Wrapped32(c.counts.slide), Wrapped32(c.counts.hold),
          Wrapped32(c.counts.touch), Wrapped32(c.counts.breaks), Wrapped32(|c.warnings|))
  }

  /** The record of compute_chart, with whatever digests; None if the selected error cannot be encoded. */
  function Produced(id: U64, m: Metadata, lines: seq<string>, c: Chart, begin: Digest, end: Digest, result: Digest)
    : Option<Record>
    requires c.candidates != [] ==> c.candidates[0].at < |Concat(lines)|
  {
    if c.candidates == [] then Some(Record(id, IsValid, TallyOf(c), NoFields, begin, end, result))
    else
      var fields := CanonicalFields(c.candidates[0], SpotIn(m, lines, c.candidates[0].at));
      if fields.None? then None else Some(Record(id, IsError, NoTally, fields.value, begin, end, result))
  }

  /** The size of what an accepted text says. */
  lemma ParsedIsSmall(text: string, m: Metadata, lines: seq<string>, c: Chart)
    requires Parses(text, m, lines, c)
    ensures c.counts.total <= |text| + 2 && |c.warnings| <= |text| + 2
    ensures c.counts.total == c.counts.tap + c.counts.slide + c.counts.hold + c.counts.touch + c.counts.breaks
    ensures c.candidates != [] ==> c.candidates[0].at < |Concat(lines)|
    ensures |lines| <= |text| <= MaxChartBytes
  {
    hide MetaLines, ParseBody, SortNotes, SortErrors, Candidates, CountsOf, LinesOk, BodyOk, ValidMeta, Join, Within;
    var body := Concat(lines);
    JoinAppend(MetaLines(m), lines);
    JoinSize(lines);
    var b := ParseBody(m.bpm, body).value;
    BodyNotEmpty(m.bpm, body);
    ParsedBodyWithin(m.bpm, body);
    CountsAddUp(b.notes);
    WithinIs(b, body, |body| + 2);
    SelectedIsLeast(b.raised);
    if c.candidates != [] {
      assert c.candidates[0] in b.raised;
    }
  }

  lemma BodyNotEmpty(whole: U32, body: string)
    requires ParseBody(whole, body).Some?
    ensures body != ""
  {}

  lemma WithinIs(b: Body, body: string, pos: nat)
    requires Within(b, body, pos)
    ensures |b.notes| <= pos && |b.warnings| <= pos && forall e :: e in b.raised ==> e.at < |body|
  {}

  lemma ParsedLineSizes(text: string, m: Metadata, lines: seq<string>)
    requires Consists(text, m, lines)
    ensures forall i :: 0 <= i < |lines| ==> |lines[i]| <= MaxLine
  {
    hide MetaLines;
    forall i | 0 <= i < |lines|
      ensures |lines[i]| <= MaxLine
    {
      assert LineOk((MetaLines(m) + lines)[i + 7], Limit(i + 7));
    }
  }

  /** Nothing of a small number is lost. */
  lemma NoWrap(x: nat)
    requires x < 0x1_0000_0000
    ensures Wrapped32(x) == x
  {}

  lemma FieldsAreSome(e: SemanticError, spot: Spot)
    requires 1 <= spot.line && 1 <= spot.column <= 0xffff
    ensures CanonicalFields(e, spot).Some? && CanonicalFields(e, spot).value != NoFields
  {
    hide Blank;
    var f := CanonicalFields(e, spot).value;
    assert f[0] == Le(ErrorRank(e.code), 2)[0];
  }

  predicate Tallies(t: Tally, c: Chart) {
    && t.total == c.counts.total && t.tap == c.counts.tap && t.slide == c.counts.slide && t.hold == c.counts.hold
    && t.touch == c.counts.touch && t.breaks == c.counts.breaks && t.warning == |c.warnings|
  }

  lemma TallyIsRight(c: Chart)
    requires c.counts.total < 0x1_0000_0000 && |c.warnings| < 0x1_0000_0000
    requires c.counts.total == c.counts.tap + c.counts.slide + c.counts.hold + c.counts.touch + c.counts.breaks
    ensures Tallies(TallyOf(c), c)
  {
    hide Wrapped32;
    NoWrap(c.counts.total);
    NoWrap(c.counts.tap);
    NoWrap(c.counts.slide);
    NoWrap(c.counts.hold);
    NoWrap(c.counts.touch);
    NoWrap(c.counts.breaks);
    NoWrap(|c.warnings|);
  }

  /** Every accepted text produces a record that decode_result accepts: the selected error can be encoded, and without
      one the counts add up. No counter wraps and no location is cut. */
  lemma ProducedIsAccepted(text: string, m: Metadata, lines: seq<string>, c: Chart, id: U64, begin: Digest, end: Digest,
                           result: Digest)
    requires Parses(text, m, lines, c)
    ensures c.candidates != [] ==> c.candidates[0].at < |Concat(lines)|
    ensures var d := Produced(id, m, lines, c, begin, end, result);
      && d.Some? && Sound(d.value) && d.value.id == id
      && (d.value.status.IsValid? <==> c.candidates == [])
      && (c.candidates == [] ==> Tallies(d.value.counts, c))
      && (c.candidates != [] ==>
            SpotIn(m, lines, c.candidates[0].at).column <= MaxLine
            && SpotIn(m, lines, c.candidates[0].at).line < 0x1_0000_0000)
  {
    hide Parses, CanonicalFields, Blank, TallyOf, MetaLines, SpotOf;
    ParsedIsSmall(text, m, lines, c);
    if c.candidates == [] {
      TallyIsRight(c);
    } else {
      var e := c.candidates[0];
      ParsedConsists(text, m, lines, c);
      ParsedLineSizes(text, m, lines);
      SpotSmall(lines, e.at, 8, |Join(MetaLines(m))|);
      FieldsAreSome(e, SpotIn(m, lines, e.at));
    }
  }

  lemma ParsedConsists(text: string, m: Metadata, lines: seq<string>, c: Chart)
    requires Parses(text, m, lines, c)
    ensures Consists(text, m, lines)
  {}

  /** Error fields say which error was selected and where. */
  lemma FieldsSay(e: SemanticError, s: Spot, f: SemanticError, t: Spot)
    requires CanonicalFields(e, s).Some? && CanonicalFields(e, s) == CanonicalFields(f, t)
    requires s.line < 0x1_0000_0000 && t.line < 0x1_0000_0000
    ensures e.code == f.code && e.detail == f.detail && s.line == t.line && s.column == t.column
  {
    hide Le, Power;
    var a, b := Le(ErrorRank(e.code), 2) + Le(s.column, 2), Le(ErrorRank(f.code), 2) + Le(t.column, 2);
    PeelLast(a + Le(s.line, 4) + Le(e.detail, 4), Le(0, 4), b + Le(t.line, 4) + Le(f.detail, 4), Le(0, 4));
    PeelLast(a + Le(s.line, 4), Le(e.detail, 4), b + Le(t.line, 4), Le(f.detail, 4));
    PeelLast(a, Le(s.line, 4), b, Le(t.line, 4));
    PeelLast(Le(ErrorRank(e.code), 2), Le(s.column, 2), Le(ErrorRank(f.code), 2), Le(t.column, 2));
    SameU32(s.line, t.line);
    SameU32(e.detail, f.detail);
    Powers();
    LeInjective(s.column, t.column, 2);
    LeInjective(ErrorRank(e.code), ErrorRank(f.code), 2);
  }
}
