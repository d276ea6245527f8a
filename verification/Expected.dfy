/** The file of expected records: writing one, and reading one back. */
module Expected {
  import opened Common
  import opened Types
  import opened Records

  /** ExpectedFile: the digest of the manifest and the bytes of each record. */
  datatype File = File(manifest: Digest, records: seq<seq<U8>>)

  const FileMagic: seq<U8> := [0x4d, 0x41, 0x49, 0x45, 0x58, 0x50, 0, 3]
  const HeaderSize := 64
  const MaxRecords := 16384

  function Counted(n: nat): (b: seq<U8>)
    ensures |b| == 20
  {
    FileMagic + Le(3, 2) + Le(HeaderSize, 2) + Le(RecordSize, 2) + Le(0, 2) + Le(n, 4)
  }

  function Header(n: nat, manifest: Digest): (b: seq<U8>)
    ensures |b| == HeaderSize
  {
    Counted(n) + manifest + Blank(12)
  }

  function Flat(records: seq<seq<U8>>): seq<U8> {
    if records == [] then [] else Flat(records[..|records| - 1]) + records[|records| - 1]
  }

  function FileBytes(e: File): seq<U8> { Header(|e.records|, e.manifest) + Flat(e.records) }

  /** These bytes are an accepted record. */
  ghost predicate IsOf(bytes: seq<U8>, d: Record) { Sound(d) && RecordBytes(d) == bytes }

  /** The id of an accepted record, -1 for other bytes. */
  ghost function IdOf(bytes: seq<U8>): int { if IsRecord(bytes) then TheRecord(bytes).id else -1 }

  ghost predicate IsRecord(bytes: seq<U8>) { exists d :: IsOf(bytes, d) }

  ghost function TheRecord(bytes: seq<U8>): (d: Record)
    requires IsRecord(bytes)
    ensures IsOf(bytes, d)
  {
    var d :| IsOf(bytes, d);
    d
  }

  lemma IdIs(bytes: seq<U8>, d: Record)
    requires Sound(d) && RecordBytes(d) == bytes
    ensures IdOf(bytes) == d.id
  {
    hide RecordBytes, Sound;
    assert IsOf(bytes, d);
    SameRecord(d, TheRecord(bytes));
  }

  lemma NoId(bytes: seq<U8>)
    requires forall d :: Sound(d) ==> RecordBytes(d) != bytes
    ensures IdOf(bytes) == -1
  {
    hide RecordBytes, Sound;
  }

  /** Accepted records with positive ids in strictly increasing order. */
  ghost predicate Rising(records: seq<seq<U8>>) {
    && (forall i :: 0 <= i < |records| ==> IdOf(records[i]) > 0)
    && forall i, j :: 0 <= i < j < |records| ==> IdOf(records[i]) < IdOf(records[j])
  }

  /** `previous` is the last id, or 0. */
  ghost predicate RisingTo(records: seq<seq<U8>>, n: nat, previous: int) {
    n <= |records| && Rising(records[..n]) && previous == if n == 0 then 0 else IdOf(records[n - 1])
  }

  lemma RisingNext(records: seq<seq<U8>>, n: nat, previous: int)
    requires RisingTo(records, n, previous) && n < |records|
    ensures IdOf(records[n]) > previous ==> RisingTo(records, n + 1, IdOf(records[n]))
    ensures IdOf(records[n]) <= previous ==> !Rising(records)
  {
    hide IdOf;
    if IdOf(records[n]) > previous {
      forall i, j | 0 <= i < j < n + 1
        ensures IdOf(records[i]) < IdOf(records[j])
      {
        assert j < n ==> IdOf(records[..n][i]) < IdOf(records[..n][j]);
        assert i < n - 1 ==> IdOf(records[..n][i]) < IdOf(records[..n][n - 1]);
      }
      forall i | 0 <= i < n + 1
        ensures IdOf(records[i]) > 0
      {
        assert i < n ==> IdOf(records[..n][i]) > 0;
        assert n > 0 ==> IdOf(records[..n][n - 1]) > 0;
      }
    }
  }

  lemma RisingAll(records: seq<seq<U8>>, previous: int)
    requires RisingTo(records, |records|, previous)
    ensures Rising(records)
  {
    assert records[..|records|] == records;
  }

  lemma RisingAtFirst(records: seq<seq<U8>>) ensures RisingTo(records, 0, 0) {}

  ghost predicate Good(e: File) { 1 <= |e.records| <= MaxRecords && Rising(e.records) }

  // ---------------------------------------------------------------- writing

  /** write_expected: writes exactly the files of one to 16384 accepted records in order. */
  method WriteExpected(e: File) returns (r: Option<seq<U8>>)
    ensures r.Some? <==> Good(e)
    ensures r.Some? ==> r.value == FileBytes(e)
  {
    hide RecordBytes, Sound, Rising, RisingTo, IdOf, Le, Blank;
    if e.records == [] || |e.records| > 16384 {
      return None;
    }
    var magic: seq<U8> := ['M' as int, 'A' as int, 'I' as int, 'E' as int, 'X' as int, 'P' as int, 0, 3];
    var output := magic + Le(3, 2) + Le(64, 2) + Le(160, 2) + Le(0, 2) + Le(|e.records|, 4) + e.manifest + Blank(12);
    assert output == Header(|e.records|, e.manifest);
    hide Header;
    var previous := 0;
    RisingAtFirst(e.records);
    for i := 0 to |e.records|
      invariant output == Header(|e.records|, e.manifest) + Flat(e.records[..i])
      invariant RisingTo(e.records, i, previous) && 0 <= previous
    {
      RisingNext(e.records, i, previous);
      var d := DecodeResult(e.records[i]);
      if d.None? {
        NoId(e.records[i]);
        return None;
      }
      IdIs(e.records[i], d.value);
      if d.value.id <= previous {
        return None;
      }
      previous := d.value.id;
      assert e.records[..i + 1][..i] == e.records[..i];
      output := output + e.records[i];
    }
    RisingAll(e.records, previous);
    assert e.records[..|e.records|] == e.records;
    r := Some(output);
  }

  // ---------------------------------------------------------------- reading

  lemma RisingSized(records: seq<seq<U8>>)
    requires Rising(records)
    ensures forall i :: 0 <= i < |records| ==> |records[i]| == RecordSize
  {
    hide RecordBytes, Sound;
    forall i | 0 <= i < |records|
      ensures |records[i]| == RecordSize
    {
      assert IsRecord(records[i]);
      assert IsOf(records[i], TheRecord(records[i]));
    }
  }

  lemma {:induction false} FlatAt(records: seq<seq<U8>>)
    requires forall i :: 0 <= i < |records| ==> |records[i]| == RecordSize
    ensures |Flat(records)| == RecordSize * |records|
    ensures forall i :: 0 <= i < |records| ==> Flat(records)[RecordSize * i..RecordSize * (i + 1)] == records[i]
  {
    if records != [] {
      var n := |records| - 1;
      FlatAt(records[..n]);
      var front := Flat(records[..n]);
      assert Flat(records) == front + records[n];
      forall i | 0 <= i < |records|
        ensures Flat(records)[RecordSize * i..RecordSize * (i + 1)] == records[i]
      {
        if i < n {
          FrontSlice(front, records[n], RecordSize * i, RecordSize * (i + 1));
        }
      }
    }
  }

  lemma FrontSlice(front: seq<U8>, last: seq<U8>, from: nat, to: nat)
    requires from <= to <= |front|
    ensures (front + last)[from..to] == front[from..to]
  {}

  function Chunk(bytes: seq<U8>, i: nat): seq<U8>
    requires HeaderSize + RecordSize * (i + 1) <= |bytes|
  {
    bytes[HeaderSize + RecordSize * i..HeaderSize + RecordSize * (i + 1)]
  }

  function Chunks(bytes: seq<U8>, n: nat): (c: seq<seq<U8>>)
    requires HeaderSize + RecordSize * n <= |bytes|
    ensures |c| == n && forall i :: 0 <= i < n ==> c[i] == Chunk(bytes, i)
  {
    seq(n, i requires 0 <= i < n => Chunk(bytes, i))
  }

  lemma {:induction false} FlatOfChunks(bytes: seq<U8>, n: nat)
    requires HeaderSize + RecordSize * n <= |bytes|
    ensures Flat(Chunks(bytes, n)) == bytes[HeaderSize..HeaderSize + RecordSize * n]
  {
    if n > 0 {
      FlatOfChunks(bytes, n - 1);
      assert Chunks(bytes, n)[..n - 1] == Chunks(bytes, n - 1);
    }
  }

  /** What the bytes of a file say, wherever they come from. */
  lemma PartsOf(bytes: seq<U8>, e: File)
    requires Good(e) && FileBytes(e) == bytes
    ensures |bytes| == HeaderSize + RecordSize * |e.records| && bytes[..20] == Counted(|e.records|)
    ensures bytes[20..52] == e.manifest && bytes[52..64] == Blank(12)
    ensures e.records == Chunks(bytes, |e.records|)
  {
    hide Rising, Counted, Blank, Flat;
    RisingSized(e.records);
    FlatAt(e.records);
    var h, n := Header(|e.records|, e.manifest), |e.records|;
    assert bytes[..64] == h;
    assert bytes[..20] == h[..20] && bytes[20..52] == h[20..52] && bytes[52..64] == h[52..64];
    forall i | 0 <= i < n
      ensures e.records[i] == Chunk(bytes, i)
    {
      assert Chunk(bytes, i) == Flat(e.records)[RecordSize * i..RecordSize * (i + 1)];
    }
  }

  /** The fields of the header before the manifest digest. */
  lemma CountedIs(bytes: seq<U8>, n: nat)
    requires |bytes| == 20 && n < Power(4)
    ensures bytes == Counted(n) <==>
      bytes[..8] == FileMagic && bytes[8..10] == Le(3, 2) && bytes[10..12] == Le(HeaderSize, 2)
      && bytes[12..14] == Le(RecordSize, 2) && bytes[14..16] == Le(0, 2) && bytes[16..20] == Le(n, 4)
  {
    hide Le, Power;
    assert bytes == bytes[..8] + bytes[8..10] + bytes[10..12] + bytes[12..14] + bytes[14..16] + bytes[16..20];
    var front := FileMagic + Le(3, 2) + Le(HeaderSize, 2) + Le(RecordSize, 2) + Le(0, 2);
    var c := Counted(n);
    assert |front| == 16 && c == front + Le(n, 4);
    assert c[..8] == FileMagic && c[8..10] == Le(3, 2) && c[10..12] == Le(HeaderSize, 2);
    assert c[12..14] == Le(RecordSize, 2) && c[14..16] == Le(0, 2) && c[16..20] == Le(n, 4);
  }

  /** A number of two bytes. */
  method Reads(bytes: seq<U8>, offset: nat, value: nat) returns (yes: bool)
    requires offset + 2 <= |bytes| && value < Power(2)
    ensures yes <==> bytes[offset..offset + 2] == Le(value, 2)
  {
    hide Le, Power;
    var x := ReadLe(bytes, offset, 2);
    yes := x == value;
    if Le(x, 2) == Le(value, 2) {
      LeInjective(x, value, 2);
    }
  }

  /** The header: how many records it announces, if it is in order and the size is right. */
  method ReadHeader(bytes: seq<U8>) returns (r: Option<nat>)
    ensures r.Some? ==> 1 <= r.value <= MaxRecords && |bytes| == HeaderSize + RecordSize * r.value
    ensures r.Some? ==> bytes[..20] == Counted(r.value)
    ensures r.None? ==> forall n: nat :: 1 <= n <= MaxRecords && |bytes| == HeaderSize + RecordSize * n ==>
      bytes[..20] != Counted(n)
  {
    hide Le, Power, Counted;
    Powers();
    if |bytes| < 64 || bytes[..8] != ['M' as int, 'A' as int, 'I' as int, 'E' as int, 'X' as int, 'P' as int, 0, 3] {
      if |bytes| >= HeaderSize {
        NoCount(bytes);
      }
      return None;
    }
    var version := Reads(bytes, 8, 3);
    var headerBytes := Reads(bytes, 10, 64);
    var recordBytes := Reads(bytes, 12, 160);
    var flags := Reads(bytes, 14, 0);
    var count := ReadLe(bytes, 16, 4);
    AnyCount(bytes, count);
    if !version || !headerBytes || !recordBytes || !flags || count == 0 || count > 16384
       || |bytes| != 64 + count * 160 {
      return None;
    }
    r := Some(count);
  }

  lemma NoCount(bytes: seq<U8>)
    requires |bytes| >= HeaderSize && bytes[..8] != FileMagic
    ensures forall n: nat :: n <= MaxRecords ==> bytes[..20] != Counted(n)
  {
    hide Le, Power, Counted;
    Powers();
    assert bytes[..20][..8] == bytes[..8];
    forall n: nat | n <= MaxRecords
      ensures bytes[..20] != Counted(n)
    {
      CountedIs(bytes[..20], n);
    }
  }

  lemma AnyCount(bytes: seq<U8>, count: nat)
    requires |bytes| >= HeaderSize && bytes[16..20] == Le(count, 4) && count < Power(4)
    ensures bytes[..20] == Counted(count) <==>
      bytes[..8] == FileMagic && bytes[8..10] == Le(3, 2) && bytes[10..12] == Le(HeaderSize, 2)
      && bytes[12..14] == Le(RecordSize, 2) && bytes[14..16] == Le(0, 2)
    ensures forall n: nat :: n <= MaxRecords && bytes[..20] == Counted(n) ==> n == count
  {
    hide Le, Power, Counted;
    Powers();
    var b := bytes[..20];
    assert b[..8] == bytes[..8] && b[8..10] == bytes[8..10] && b[10..12] == bytes[10..12];
    assert b[12..14] == bytes[12..14] && b[14..16] == bytes[14..16] && b[16..20] == bytes[16..20];
    CountedIs(b, count);
    forall n: nat | n <= MaxRecords && b == Counted(n)
      ensures n == count
    {
      CountedIs(b, n);
      LeInjective(n, count, 4);
    }
  }

  /** read_expected: accepts exactly the bytes of good files. */
  method ReadExpected(bytes: seq<U8>) returns (r: Option<File>)
    ensures r.Some? ==> Good(r.value) && FileBytes(r.value) == bytes
    ensures r.None? ==> forall e :: Good(e) ==> FileBytes(e) != bytes
  {
    hide RecordBytes, Sound, Counted, Rising, RisingTo, FileBytes, Blank, IdOf, Flat;
    var count := ReadHeader(bytes);
    forall e | Good(e) && FileBytes(e) == bytes
      ensures |bytes| == HeaderSize + RecordSize * |e.records| && bytes[..20] == Counted(|e.records|)
      ensures bytes[20..52] == e.manifest && bytes[52..64] == Blank(12)
      ensures e.records == Chunks(bytes, |e.records|)
    {
      PartsOf(bytes, e);
    }
    if count.None? || bytes[52..64] != Blank(12) {
      return None;
    }
    var n := count.value;
    ghost var all := Chunks(bytes, n);
    var records: seq<seq<U8>> := [];
    var previous := 0;
    RisingAtFirst(all);
    for index := 0 to n
      invariant records == all[..index]
      invariant RisingTo(all, index, previous) && 0 <= previous
    {
      RisingNext(all, index, previous);
      var record := bytes[HeaderSize + RecordSize * index..HeaderSize + RecordSize * (index + 1)];
      assert record == all[index];
      var d := DecodeResult(record);
      if d.None? {
        NoId(record);
        return None;
      }
      IdIs(record, d.value);
      if d.value.id <= previous {
        return None;
      }
      previous := d.value.id;
      records := records + [record];
      assert all[..index + 1] == all[..index] + [all[index]];
    }
    RisingAll(all, previous);
    assert all[..n] == all;
    var e := File(bytes[20..52], records);
    FileIs(bytes, e, n);
    r := Some(e);
  }

  lemma FileIs(bytes: seq<U8>, e: File, n: nat)
    requires |bytes| == HeaderSize + RecordSize * n && e.records == Chunks(bytes, n)
    requires bytes[..20] == Counted(n) && bytes[20..52] == e.manifest && bytes[52..64] == Blank(12)
    ensures FileBytes(e) == bytes
  {
    hide Counted, Blank, Flat;
    FlatOfChunks(bytes, n);
    assert bytes == bytes[..20] + bytes[20..52] + bytes[52..64] + bytes[64..];
  }

  // ---------------------------------------------------------------- there and back

  /** A file has its own bytes. */
  lemma SameFile(e: File, f: File)
    requires Good(e) && Good(f) && FileBytes(e) == FileBytes(f)
    ensures e == f
  {
    hide FileBytes, Counted, Rising, Blank;
    PartsOf(FileBytes(e), e);
    PartsOf(FileBytes(e), f);
  }

  /** Reading what was written gives the file back. */
  method WriteAndRead(e: File) returns (r: Option<File>)
    ensures r == if Good(e) then Some(e) else None
  {
    hide FileBytes, Good;
    var bytes := WriteExpected(e);
    if bytes.None? {
      return None;
    }
    r := ReadExpected(bytes.value);
    if r.Some? {
      SameFile(e, r.value);
    }
  }

  /** Writing what was read gives the bytes back. */
  method ReadAndWrite(bytes: seq<U8>) returns (e: Option<File>, again: Option<seq<U8>>)
    ensures e.Some? <==> exists f :: Good(f) && FileBytes(f) == bytes
    ensures again == if e.Some? then Some(bytes) else None
  {
    hide FileBytes, Good;
    e := ReadExpected(bytes);
    if e.None? {
      return e, None;
    }
    again := WriteExpected(e.value);
  }
}
