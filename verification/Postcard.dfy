/** The postcard codec of the scheduler: encoder, cursor reader and framing. */
module Postcard {
  import opened Common
  import opened Types

  /** A value tree. A string is its UTF-8 bytes; an enum is its discriminant and the fields of its variant. */
  datatype Value =
    | Number(n: nat)
    | Boolean(b: bool)
    | Text(bytes: seq<U8>)
    | List(items: seq<Value>)
    | Nothing
    | Just(inner: Value)
    | Struct(fields: seq<Value>)
    | Enum(index: nat, payload: seq<Value>)

  /** What a reader expects: postcard bytes do not describe themselves. */
  datatype Shape =
    | NumberShape
    | BooleanShape
    | TextShape
    | ListShape(item: Shape)
    | OptionShape(inner: Shape)
    | StructShape(fields: seq<Shape>)
    | EnumShape(variants: seq<Variant>)

  datatype Variant = Variant(fields: seq<Shape>)

  // ---------------------------------------------------------------- encoding

  /** Seven bits at a time, lowest first; all but the last byte have the high bit. */
  function Varint(n: nat): (b: seq<U8>)
    ensures |b| > 0
  {
    if n < 128 then [n] else [n % 128 + 128] + Varint(n / 128)
  }

  function Encode(v: Value): seq<U8> {
    match v
    case Number(n) => Varint(n)
    case Boolean(b) => [if b then 1 else 0]
    case Text(bytes) => Varint(|bytes|) + bytes
    case List(items) => Varint(|items|) + EncodeAll(items)
    case Nothing => [0]
    case Just(inner) => [1] + Encode(inner)
    case Struct(fields) => EncodeAll(fields)
    case Enum(index, payload) => [index % 256] + EncodeAll(payload)
  }

  function EncodeAll(vs: seq<Value>): seq<U8> {
    if vs == [] then [] else Encode(vs[0]) + EncodeAll(vs[1..])
  }

  /** No discriminant over 127 anywhere: the only thing the encoder refuses in such a tree. */
  predicate Encodable(v: Value) {
    match v
    case List(items) => AllEncodable(items)
    case Just(inner) => Encodable(inner)
    case Struct(fields) => AllEncodable(fields)
    case Enum(index, payload) => index <= 127 && AllEncodable(payload)
    case _ => true
  }

  predicate AllEncodable(vs: seq<Value>) { vs == [] || (Encodable(vs[0]) && AllEncodable(vs[1..])) }

  predicate Conforms(v: Value, s: Shape)
    decreases s, 0
  {
    match s
    case NumberShape => v.Number?
    case BooleanShape => v.Boolean?
    case TextShape => v.Text?
    case ListShape(item) => v.List? && EachConforms(v.items, item)
    case OptionShape(inner) => v.Nothing? || (v.Just? && Conforms(v.inner, inner))
    case StructShape(fields) => v.Struct? && AllConform(v.fields, fields)
    case EnumShape(variants) => v.Enum? && v.index < |variants| && AllConform(v.payload, variants[v.index].fields)
  }

  predicate EachConforms(vs: seq<Value>, s: Shape)
    decreases s, 1, |vs|
  {
    vs == [] || (Conforms(vs[0], s) && EachConforms(vs[1..], s))
  }

  predicate AllConform(vs: seq<Value>, ss: seq<Shape>)
    decreases ss, 0
  {
    |vs| == |ss| && (vs == [] || (Conforms(vs[0], ss[0]) && AllConform(vs[1..], ss[1..])))
  }

  // ---------------------------------------------------------------- reading

  /** The number at a position and the position behind it; None is running off the end of the buffer. */
  function VarintAt(buf: seq<U8>, pos: nat): (r: Option<(nat, nat)>)
    ensures r.Some? ==> pos < r.value.1 <= |buf|
    decreases |buf| - pos
  {
    if pos >= |buf| then None
    else if buf[pos] < 128 then Some((buf[pos], pos + 1))
    else
      var rest := VarintAt(buf, pos + 1);
      if rest.None? then None else Some((buf[pos] - 128 + 128 * rest.value.0, rest.value.1))
  }

  /** A value of a shape at a position. */
  function Read(s: Shape, buf: seq<U8>, pos: nat): (r: Option<(Value, nat)>)
    decreases s, 0
  {
    match s
    case NumberShape =>
      var n := VarintAt(buf, pos);
      if n.None? then None else Some((Number(n.value.0), n.value.1))
    case BooleanShape =>
      if pos >= |buf| || buf[pos] > 1 then None else Some((Boolean(buf[pos] == 1), pos + 1))
    case TextShape =>
      var n := VarintAt(buf, pos);
      if n.None? || n.value.1 + n.value.0 > |buf| then None
      else Some((Text(buf[n.value.1..n.value.1 + n.value.0]), n.value.1 + n.value.0))
    case ListShape(item) =>
      var n := VarintAt(buf, pos);
      if n.None? then None
      else
        var items := ReadMany(item, n.value.0, buf, n.value.1);
        if items.None? then None else Some((List(items.value.0), items.value.1))
    case OptionShape(inner) =>
      if pos >= |buf| then None
      else if buf[pos] == 0 then Some((Nothing, pos + 1))
      else
        var v := Read(inner, buf, pos + 1);
        if v.None? then None else Some((Just(v.value.0), v.value.1))
    case StructShape(fields) =>
      var vs := ReadAll(fields, buf, pos);
      if vs.None? then None else Some((Struct(vs.value.0), vs.value.1))
    case EnumShape(variants) =>
      if pos >= |buf| || buf[pos] >= |variants| then None
      else
        var vs := ReadAll(variants[buf[pos]].fields, buf, pos + 1);
        if vs.None? then None else Some((Enum(buf[pos], vs.value.0), vs.value.1))
  }

  function ReadMany(s: Shape, count: nat, buf: seq<U8>, pos: nat): Option<(seq<Value>, nat)>
    decreases s, 1, count
  {
    if count == 0 then Some(([], pos))
    else
      var v := Read(s, buf, pos);
      if v.None? then None
      else
        var rest := ReadMany(s, count - 1, buf, v.value.1);
        if rest.None? then None else Some(([v.value.0] + rest.value.0, rest.value.1))
  }

  function ReadAll(ss: seq<Shape>, buf: seq<U8>, pos: nat): Option<(seq<Value>, nat)>
    decreases ss, 0
  {
    if ss == [] then Some(([], pos))
    else
      var v := Read(ss[0], buf, pos);
      if v.None? then None
      else
        var rest := ReadAll(ss[1..], buf, v.value.1);
        if rest.None? then None else Some(([v.value.0] + rest.value.0, rest.value.1))
  }

  // ---------------------------------------------------------------- the round trip

  /** The bytes stand at this position of the buffer. */
  predicate Here(buf: seq<U8>, pos: nat, bytes: seq<U8>) {
    pos + |bytes| <= |buf| && buf[pos..pos + |bytes|] == bytes
  }

  lemma HereSplits(buf: seq<U8>, pos: nat, a: seq<U8>, b: seq<U8>)
    requires Here(buf, pos, a + b)
    ensures Here(buf, pos, a) && Here(buf, pos + |a|, b)
  {
    var c := buf[pos..pos + |a + b|];
    assert c[..|a|] == buf[pos..pos + |a|] && c[|a|..] == buf[pos + |a|..pos + |a| + |b|];
  }

  lemma {:induction false} VarintBack(n: nat, buf: seq<U8>, pos: nat)
    requires Here(buf, pos, Varint(n))
    ensures VarintAt(buf, pos) == Some((n, pos + |Varint(n)|))
  {
    assert buf[pos] == buf[pos..pos + |Varint(n)|][0];
    if n >= 128 {
      HereSplits(buf, pos, [n % 128 + 128], Varint(n / 128));
      VarintBack(n / 128, buf, pos + 1);
    }
  }

  lemma TextBack(bytes: seq<U8>, buf: seq<U8>, pos: nat)
    requires Here(buf, pos, Encode(Text(bytes)))
    ensures Read(TextShape, buf, pos) == Some((Text(bytes), pos + |Encode(Text(bytes))|))
  {
    hide Varint, VarintAt;
    HereSplits(buf, pos, Varint(|bytes|), bytes);
    VarintBack(|bytes|, buf, pos);
  }

  lemma FirstByte(buf: seq<U8>, pos: nat, byte: U8, rest: seq<U8>)
    requires Here(buf, pos, [byte] + rest)
    ensures pos < |buf| && buf[pos] == byte && Here(buf, pos + 1, rest)
  {
    HereSplits(buf, pos, [byte], rest);
    assert buf[pos] == buf[pos..pos + 1][0];
  }

  lemma ListRead(items: seq<Value>, item: Shape, buf: seq<U8>, pos: nat, end: nat)
    requires VarintAt(buf, pos).Some? && VarintAt(buf, pos).value.0 == |items|
    requires ReadMany(item, |items|, buf, VarintAt(buf, pos).value.1) == Some((items, end))
    ensures Read(ListShape(item), buf, pos) == Some((List(items), end))
  {
    hide VarintAt;
  }

  lemma BooleanBack(b: bool, buf: seq<U8>, pos: nat)
    requires Here(buf, pos, Encode(Boolean(b)))
    ensures Read(BooleanShape, buf, pos) == Some((Boolean(b), pos + 1))
  {
    assert buf[pos] == buf[pos..pos + 1][0];
  }

  /** Whatever precedes and follows it, an encoded value reads back as itself, and the cursor is behind it. */
  lemma {:induction false} ValueBack(v: Value, s: Shape, buf: seq<U8>, pos: nat)
    requires Conforms(v, s) && Encodable(v) && Here(buf, pos, Encode(v))
    ensures Read(s, buf, pos) == Some((v, pos + |Encode(v)|))
    decreases s, 0
  {
    hide Varint, VarintAt, Here, Read;
    match s
    case NumberShape => NumberBack(v.n, buf, pos);
    case BooleanShape => BooleanBack(v.b, buf, pos);
    case TextShape => TextBack(v.bytes, buf, pos);
    case ListShape(item) =>
      HereSplits(buf, pos, Varint(|v.items|), EncodeAll(v.items));
      VarintBack(|v.items|, buf, pos);
      ManyBack(v.items, item, buf, pos + |Varint(|v.items|)|);
      ListRead(v.items, item, buf, pos, pos + |Encode(v)|);
    case OptionShape(inner) =>
      if v.Just? {
        FirstByte(buf, pos, 1, Encode(v.inner));
        ValueBack(v.inner, inner, buf, pos + 1);
      } else {
        assert [0] + [] == Encode(v);
        FirstByte(buf, pos, 0, []);
      }
      OptionRead(inner, buf, pos);
    case StructShape(fields) =>
      AllBack(v.fields, fields, buf, pos);
      StructRead(fields, buf, pos);
    case EnumShape(variants) =>
      FirstByte(buf, pos, v.index, EncodeAll(v.payload));
      AllBack(v.payload, variants[v.index].fields, buf, pos + 1);
      EnumRead(variants, buf, pos);
  }

  lemma NumberBack(n: nat, buf: seq<U8>, pos: nat)
    requires Here(buf, pos, Varint(n))
    ensures Read(NumberShape, buf, pos) == Some((Number(n), pos + |Varint(n)|))
  {
    hide Varint, VarintAt, Here;
    VarintBack(n, buf, pos);
  }

  lemma OptionRead(inner: Shape, buf: seq<U8>, pos: nat)
    requires pos < |buf| && (buf[pos] != 0 ==> Read(inner, buf, pos + 1).Some?)
    ensures Read(OptionShape(inner), buf, pos)
         == if buf[pos] == 0 then Some((Nothing, pos + 1))
            else Some((Just(Read(inner, buf, pos + 1).value.0), Read(inner, buf, pos + 1).value.1))
  {}

  lemma StructRead(fields: seq<Shape>, buf: seq<U8>, pos: nat)
    requires ReadAll(fields, buf, pos).Some?
    ensures Read(StructShape(fields), buf, pos)
         == Some((Struct(ReadAll(fields, buf, pos).value.0), ReadAll(fields, buf, pos).value.1))
  {}

  lemma EnumRead(variants: seq<Variant>, buf: seq<U8>, pos: nat)
    requires pos < |buf| && buf[pos] < |variants| && ReadAll(variants[buf[pos]].fields, buf, pos + 1).Some?
    ensures Read(EnumShape(variants), buf, pos)
         == (var vs := ReadAll(variants[buf[pos]].fields, buf, pos + 1).value; Some((Enum(buf[pos], vs.0), vs.1)))
  {}

  lemma {:induction false} ManyBack(vs: seq<Value>, s: Shape, buf: seq<U8>, pos: nat)
    requires EachConforms(vs, s) && AllEncodable(vs) && Here(buf, pos, EncodeAll(vs))
    ensures ReadMany(s, |vs|, buf, pos) == Some((vs, pos + |EncodeAll(vs)|))
    decreases s, 1, |vs|
  {
    hide Here, Read, Encode, Conforms, Encodable;
    if vs != [] {
      HereSplits(buf, pos, Encode(vs[0]), EncodeAll(vs[1..]));
      ValueBack(vs[0], s, buf, pos);
      ManyBack(vs[1..], s, buf, pos + |Encode(vs[0])|);
      assert vs == [vs[0]] + vs[1..];
    }
  }

  lemma {:induction false} AllBack(vs: seq<Value>, ss: seq<Shape>, buf: seq<U8>, pos: nat)
    requires AllConform(vs, ss) && AllEncodable(vs) && Here(buf, pos, EncodeAll(vs))
    ensures ReadAll(ss, buf, pos) == Some((vs, pos + |EncodeAll(vs)|))
    decreases ss, 0
  {
    hide Here, Read, Encode, Conforms, Encodable;
    if vs != [] {
      HereSplits(buf, pos, Encode(vs[0]), EncodeAll(vs[1..]));
      ValueBack(vs[0], ss[0], buf, pos);
      AllBack(vs[1..], ss[1..], buf, pos + |Encode(vs[0])|);
      assert vs == [vs[0]] + vs[1..];
    }
  }

  /** The round trip with a prefix and a suffix. */
  lemma RoundTrip(v: Value, s: Shape, prefix: seq<U8>, suffix: seq<U8>)
    requires Conforms(v, s) && Encodable(v)
    ensures Read(s, prefix + Encode(v) + suffix, |prefix|) == Some((v, |prefix| + |Encode(v)|))
  {
    hide Read, Encode;
    assert (prefix + Encode(v) + suffix)[|prefix|..|prefix| + |Encode(v)|] == Encode(v);
    ValueBack(v, s, prefix + Encode(v) + suffix, |prefix|);
  }

  /** The other way round, a number that was read was written by this encoder exactly if its last byte is not a
      superfluous zero. */
  lemma {:induction false} VarintForth(buf: seq<U8>, pos: nat)
    requires VarintAt(buf, pos).Some?
    ensures var (n, end) := VarintAt(buf, pos).value;
      buf[pos..end] == Varint(n) <==> buf[end - 1] != 0 || end == pos + 1
    ensures VarintAt(buf, pos).value.0 == 0 ==> buf[VarintAt(buf, pos).value.1 - 1] == 0
    decreases |buf| - pos
  {
    var (n, end) := VarintAt(buf, pos).value;
    if buf[pos] >= 128 {
      VarintForth(buf, pos + 1);
      var (m, e) := VarintAt(buf, pos + 1).value;
      assert buf[pos..end] == [buf[pos]] + buf[pos + 1..end];
      assert n / 128 == m && n % 128 == buf[pos] - 128;
      if n >= 128 {
        assert Varint(n) == [buf[pos]] + Varint(m);
        assert buf[pos..end] == Varint(n) ==> buf[pos..end][1..] == Varint(n)[1..];
      } else {
        assert |buf[pos..end]| > 1 && |Varint(n)| == 1;
      }
    } else {
      assert buf[pos..end] == [buf[pos]];
    }
  }

  // ---------------------------------------------------------------- what the bytes of a number are

  function Power128(n: nat): nat { if n == 0 then 1 else 128 * Power128(n - 1) }

  /** The sum of the first k bytes, each without its high bit, times 128 to the power of its place. */
  function Digits(b: seq<U8>, k: nat): nat
    requires k <= |b|
  {
    if k == 0 then 0 else Digits(b, k - 1) + b[k - 1] % 128 * Power128(k - 1)
  }

  /** The high bit is on all bytes but the last. */
  predicate Chained(b: seq<U8>) { b != [] && forall i :: 0 <= i < |b| ==> (b[i] >= 128 <==> i < |b| - 1) }

  lemma {:induction false} DigitsBehind(b: seq<U8>, k: nat)
    requires b != [] && k < |b|
    ensures Digits(b, k + 1) == b[0] % 128 + 128 * Digits(b[1..], k)
  {
    if k == 0 {
      assert Digits(b, 1) == Digits(b, 0) + b[0] % 128 * Power128(0);
    } else {
      DigitsBehind(b, k - 1);
      NextDigit(b[k] % 128, Power128(k - 1));
      assert b[1..][k - 1] == b[k];
    }
  }

  lemma NextDigit(digit: nat, power: nat)
    ensures digit * (128 * power) == 128 * (digit * power)
  {}

  lemma ChainedTail(b: seq<U8>)
    requires |b| > 1
    ensures Chained(b) <==> b[0] >= 128 && Chained(b[1..])
  {
    if b[0] >= 128 && Chained(b[1..]) {
      forall i | 0 <= i < |b|
        ensures b[i] >= 128 <==> i < |b| - 1
      {
        if i > 0 {
          assert b[1..][i - 1] == b[i];
        }
      }
    }
  }

  /** _encode_varint: groups of seven bits, the lowest first, no more of them than the number needs. */
  lemma {:induction false} VarintIs(n: nat)
    ensures var b := Varint(n);
      Chained(b) && Digits(b, |b|) == n < Power128(|b|) && (|b| > 1 ==> Power128(|b| - 1) <= n)
    decreases n
  {
    var b := Varint(n);
    if n >= 128 {
      VarintIs(n / 128);
      assert b[1..] == Varint(n / 128);
      ChainedTail(b);
      DigitsBehind(b, |b| - 1);
      assert Power128(0) == 1;
      assert |b| > 2 ==> Power128(|b| - 1) == 128 * Power128(|b| - 2);
    } else {
      assert Power128(0) == 1 && Digits(b, 0) == 0;
    }
  }

  lemma OneByte(b: seq<U8>)
    requires |b| == 1 && b[0] < 128
    ensures Chained(b) && Digits(b, 1) == b[0]
  {
    assert Power128(0) == 1 && Digits(b, 0) == 0 && Digits(b, 1) == Digits(b, 0) + b[0] % 128 * Power128(0);
  }

  /** read_varint: the number of the chained bytes at the cursor, or None exactly if there are none. */
  lemma {:induction false} VarintAtIs(buf: seq<U8>, pos: nat)
    ensures var r := VarintAt(buf, pos);
      r.Some? ==> Chained(buf[pos..r.value.1]) && r.value.0 == Digits(buf[pos..r.value.1], r.value.1 - pos)
    ensures VarintAt(buf, pos).None? ==> forall i :: pos <= i < |buf| ==> buf[i] >= 128
    decreases |buf| - pos
  {
    hide Chained, Digits;
    if pos < |buf| && buf[pos] >= 128 {
      VarintAtIs(buf, pos + 1);
      var r := VarintAt(buf, pos);
      if r.Some? {
        var b := buf[pos..r.value.1];
        assert b[1..] == buf[pos + 1..r.value.1];
        ChainedTail(b);
        DigitsBehind(b, |b| - 1);
      }
    } else if pos < |buf| {
      OneByte(buf[pos..pos + 1]);
    }
  }

  // ---------------------------------------------------------------- what can be read conforms

  /** Whatever is read for a shape conforms to it; by ValueBack, whatever conforms and is written can be read. */
  lemma {:induction false} ReadConforms(s: Shape, buf: seq<U8>, pos: nat)
    ensures Read(s, buf, pos).Some? ==> Conforms(Read(s, buf, pos).value.0, s)
    decreases s, 0
  {
    hide VarintAt;
    match s
    case NumberShape =>
    case BooleanShape =>
    case TextShape =>
    case ListShape(item) =>
      var n := VarintAt(buf, pos);
      if n.Some? {
        ReadManyConforms(item, n.value.0, buf, n.value.1);
      }
    case OptionShape(inner) => ReadConforms(inner, buf, pos + 1);
    case StructShape(fields) => ReadAllConforms(fields, buf, pos);
    case EnumShape(variants) =>
      if pos < |buf| && buf[pos] < |variants| {
        ReadAllConforms(variants[buf[pos]].fields, buf, pos + 1);
      }
  }

  lemma {:induction false} ReadManyConforms(s: Shape, count: nat, buf: seq<U8>, pos: nat)
    ensures var r := ReadMany(s, count, buf, pos); r.Some? ==> |r.value.0| == count && EachConforms(r.value.0, s)
    decreases s, 1, count
  {
    hide Read, Conforms;
    if count > 0 {
      ReadConforms(s, buf, pos);
      var v := Read(s, buf, pos);
      if v.Some? {
        ReadManyConforms(s, count - 1, buf, v.value.1);
      }
    }
  }

  lemma {:induction false} ReadAllConforms(ss: seq<Shape>, buf: seq<U8>, pos: nat)
    ensures var r := ReadAll(ss, buf, pos); r.Some? ==> AllConform(r.value.0, ss)
    decreases ss, 0
  {
    hide Read, Conforms;
    if ss != [] {
      ReadConforms(ss[0], buf, pos);
      var v := Read(ss[0], buf, pos);
      if v.Some? {
        ReadAllConforms(ss[1..], buf, v.value.1);
      }
    }
  }

  // ---------------------------------------------------------------- the encoder and the reader at work

  /** A bytearray. */
  class Buffer {
    var data: seq<U8>

    constructor () ensures data == [] { data := []; }

    /** _encode_varint. */
    method PutVarint(n: nat)
      modifies this
      ensures data == old(data) + Varint(n)
    {
      var value := n;
      while value >= 128
        invariant data + Varint(value) == old(data) + Varint(n)
      {
        ghost var before := data;
        assert before + Varint(value) == before + [value % 128 + 128] + Varint(value / 128);
        data := data + [value % 128 + 128];
        value := value / 128;
      }
      data := data + [value];
    }

    method PutText(bytes: seq<U8>)
      modifies this
      ensures data == old(data) + (Varint(|bytes|) + bytes)
    {
      PutVarint(|bytes|);
      data := data + bytes;
    }

    /** _encode_value: refuses exactly the trees with a discriminant over 127. */
    method Put(v: Value) returns (ok: bool)
      modifies this
      ensures ok == Encodable(v)
      ensures ok ==> data == old(data) + Encode(v)
      decreases v
    {
      hide Varint, EncodeAll, AllEncodable;
      match v
      case Number(n) =>
        PutVarint(n);
        ok := true;
      case Boolean(b) =>
        data := data + [if b then 1 else 0];
        ok := true;
      case Text(bytes) =>
        PutText(bytes);
        ok := true;
      case List(items) =>
        PutVarint(|items|);
        ok := PutAll(items);
      case Nothing =>
        data := data + [0];
        ok := true;
      case Just(inner) =>
        data := data + [1];
        ok := Put(inner);
      case Struct(fields) =>
        ok := PutAll(fields);
      case Enum(index, payload) =>
        if index > 127 {
          return false;
        }
        data := data + [index];
        ok := PutAll(payload);
    }

    method PutAll(vs: seq<Value>) returns (ok: bool)
      modifies this
      ensures ok == AllEncodable(vs)
      ensures ok ==> data == old(data) + EncodeAll(vs)
      decreases vs
    {
      hide Encode, Encodable;
      if vs == [] {
        ok := true;
      } else {
        ok := Put(vs[0]);
        if ok {
          ok := PutAll(vs[1..]);
        }
      }
    }
  }

  /** The cursor reader. */
  class Reader {
    const buf: seq<U8>
    var pos: nat

    constructor (buf: seq<U8>, pos: nat)
      ensures this.buf == buf && this.pos == pos
    {
      this.buf, this.pos := buf, pos;
    }

    /** read_varint: the cursor moves only if the number is complete. */
    method ReadVarint() returns (r: Option<nat>)
      modifies this`pos
      ensures var spec := VarintAt(buf, old(pos));
        if spec.None? then r == None && pos == old(pos) else r == Some(spec.value.0) && pos == spec.value.1
    {
      var p: nat, result: nat, power: nat := pos, 0, 1;
      ghost var spec := VarintAt(buf, pos);
      while p < |buf| && buf[p] >= 128
        invariant pos == old(pos) && pos <= p
        invariant Continues(spec, VarintAt(buf, p), result, power)
        decreases |buf| - p
      {
        ContinuesNext(spec, VarintAt(buf, p + 1), result, power, buf[p] - 128);
        var digit: nat := buf[p] - 128;
        result := result + digit * power;
        power := power * 128;
        p := p + 1;
      }
      if p >= |buf| {
        return None;
      }
      var digit: nat := buf[p];
      result := result + digit * power;
      pos := p + 1;
      r := Some(result);
    }

    /** read_bool. */
    method ReadBool() returns (r: Option<bool>)
      modifies this`pos
      ensures r == if old(pos) < |buf| && buf[old(pos)] <= 1 then Some(buf[old(pos)] == 1) else None
      ensures pos == old(pos) + if old(pos) < |buf| then 1 else 0
    {
      if pos >= |buf| {
        return None;
      }
      var value := buf[pos];
      pos := pos + 1;
      r := if value > 1 then None else Some(value == 1);
    }

    /** read_bytes. */
    method ReadBytes() returns (r: Option<seq<U8>>)
      modifies this`pos
      ensures var n := VarintAt(buf, old(pos));
        if n.None? || n.value.1 + n.value.0 > |buf| then r.None?
        else r == Some(buf[n.value.1..n.value.1 + n.value.0]) && pos == n.value.1 + n.value.0
    {
      var length := ReadVarint();
      if length.None? || pos + length.value > |buf| {
        return None;
      }
      r := Some(buf[pos..pos + length.value]);
      pos := pos + length.value;
    }

    /** read_u8: the tag of an option or of an enum. */
    method ReadU8() returns (r: Option<U8>)
      modifies this`pos
      ensures r == if old(pos) < |buf| then Some(buf[old(pos)]) else None
      ensures pos == old(pos) + if old(pos) < |buf| then 1 else 0
    {
      if pos >= |buf| {
        return None;
      }
      r := Some(buf[pos]);
      pos := pos + 1;
    }

    /** A value of a known shape, read the way the schema-driven decoders read theirs. */
    method ReadValue(s: Shape) returns (r: Option<Value>)
      modifies this`pos
      ensures Reads(Read(s, buf, old(pos)), r, pos)
      decreases s, 0
    {
      hide VarintAt;
      match s
      case NumberShape =>
        var n := ReadVarint();
        r := if n.None? then None else Some(Number(n.value));
      case BooleanShape =>
        var b := ReadBool();
        r := if b.None? then None else Some(Boolean(b.value));
      case TextShape =>
        var bytes := ReadBytes();
        r := if bytes.None? then None else Some(Text(bytes.value));
      case ListShape(item) =>
        var n := ReadVarint();
        if n.None? {
          return None;
        }
        var items := ReadItems(item, n.value);
        r := if items.None? then None else Some(List(items.value));
      case OptionShape(inner) =>
        var tag := ReadU8();
        if tag.None? {
          return None;
        }
        if tag.value == 0 {
          return Some(Nothing);
        }
        var v := ReadValue(inner);
        r := if v.None? then None else Some(Just(v.value));
      case StructShape(fields) =>
        var vs := ReadFields(fields);
        r := if vs.None? then None else Some(Struct(vs.value));
      case EnumShape(variants) =>
        var tag := ReadU8();
        if tag.None? || tag.value >= |variants| {
          return None;
        }
        var vs := ReadFields(variants[tag.value].fields);
        r := if vs.None? then None else Some(Enum(tag.value, vs.value));
    }

    /** The items of a list. */
    method ReadItems(s: Shape, count: nat) returns (r: Option<seq<Value>>)
      modifies this`pos
      ensures Reads(ReadMany(s, count, buf, old(pos)), r, pos)
      decreases s, 1, count
    {
      hide Read;
      if count == 0 {
        return Some([]);
      }
      var v := ReadValue(s);
      if v.None? {
        return None;
      }
      var rest := ReadItems(s, count - 1);
      r := if rest.None? then None else Some([v.value] + rest.value);
    }

    /** The fields of a struct or of a variant, in the order of their declaration. */
    method ReadFields(ss: seq<Shape>) returns (r: Option<seq<Value>>)
      modifies this`pos
      ensures Reads(ReadAll(ss, buf, old(pos)), r, pos)
      decreases ss, 0
    {
      hide Read;
      if ss == [] {
        return Some([]);
      }
      var v := ReadValue(ss[0]);
      if v.None? {
        return None;
      }
      var rest := ReadFields(ss[1..]);
      r := if rest.None? then None else Some([v.value] + rest.value);
    }
  }

  /** The reader returned what the specification reads, and stands where it ends. */
  ghost predicate Reads<T>(spec: Option<(T, nat)>, r: Option<T>, pos: nat) {
    (spec.None? ==> r.None?) && (spec.Some? ==> r == Some(spec.value.0) && pos == spec.value.1)
  }

  /** A value written by the encoder between other bytes and read by the cursor reader: the same value, with the
      suffix left, unless the encoder refuses it. */
  method WriteAndRead(v: Value, s: Shape, prefix: seq<U8>, suffix: seq<U8>)
    returns (r: Option<Value>, rest: seq<U8>)
    requires Conforms(v, s)
    ensures r == if Encodable(v) then Some(v) else None
    ensures Encodable(v) ==> rest == suffix
  {
    hide Read, Encode, Encodable, Conforms;
    var out := new Buffer();
    var ok := out.Put(v);
    if !ok {
      return None, suffix;
    }
    assert out.data == Encode(v);
    var buf := prefix + out.data + suffix;
    var reader := new Reader(buf, |prefix|);
    RoundTrip(v, s, prefix, suffix);
    r := reader.ReadValue(s);
    rest := buf[reader.pos..];
  }

  /** The digits so far and the rest of the number make up the whole. */
  ghost predicate Continues(all: Option<(nat, nat)>, rest: Option<(nat, nat)>, result: nat, power: nat) {
    (all.Some? <==> rest.Some?)
    && (rest.Some? ==> all.value == (result + rest.value.0 * power, rest.value.1))
  }

  lemma ContinuesNext(all: Option<(nat, nat)>, rest: Option<(nat, nat)>, result: nat, power: nat, digit: nat)
    requires Continues(all, if rest.None? then None else Some((digit + 128 * rest.value.0, rest.value.1)), result, power)
    ensures Continues(all, rest, result + digit * power, power * 128)
  {
    if rest.Some? {
      var m := rest.value.0;
      assert (digit + 128 * m) * power == digit * power + m * (power * 128);
    }
  }

  // ---------------------------------------------------------------- framing

  const MaxFrame := 67108864

  /** The length in four bytes, lowest first, and the payload. */
  function Frame(payload: seq<U8>): seq<U8> { Le(|payload|, 4) + payload }

  /** A connection: the bytes still to come, and how many of them each recv happens to return. */
  class Socket {
    var incoming: seq<U8>
    var cuts: seq<nat>

    constructor (incoming: seq<U8>, cuts: seq<nat>)
      ensures this.incoming == incoming && this.cuts == cuts
    {
      this.incoming, this.cuts := incoming, cuts;
    }

    /** recv: between 1 and `size` bytes, or none when the connection is closed. */
    method Recv(size: nat) returns (chunk: seq<U8>)
      requires size > 0
      modifies this
      ensures old(incoming) == chunk + incoming && |chunk| <= size
      ensures chunk == [] <==> old(incoming) == []
    {
      var n := if cuts == [] then size else Max(1, Min(cuts[0], size));
      n := Min(n, |incoming|);
      cuts := if cuts == [] then [] else cuts[1..];
      chunk, incoming := incoming[..n], incoming[n..];
    }

    /** read_exact_sync: the next bytes, however they arrive; an error exactly if the connection closes before. */
    method ReadExact(size: nat) returns (r: Option<seq<U8>>)
      modifies this
      ensures r.Some? <==> |old(incoming)| >= size
      ensures r.Some? ==> r.value == old(incoming)[..size] && incoming == old(incoming)[size..]
    {
      var chunks: seq<U8>, remaining: nat := [], size;
      while remaining > 0
        invariant |chunks| + remaining == size && old(incoming) == chunks + incoming
      {
        var chunk := Recv(remaining);
        if chunk == [] {
          return None;
        }
        chunks := chunks + chunk;
        remaining := remaining - |chunk|;
      }
      assert (chunks + incoming)[..size] == chunks && (chunks + incoming)[size..] == incoming;
      r := Some(chunks);
    }

    /** read_frame_sync: the payload of the next frame, under any schedule, exactly if it is whole and not too long. */
    method ReadFrame() returns (r: Option<seq<U8>>)
      modifies this
      ensures r.Some? ==> |r.value| <= MaxFrame && old(incoming) == Frame(r.value) + incoming
      ensures forall payload, rest :: old(incoming) == Frame(payload) + rest && |payload| <= MaxFrame ==>
        r == Some(payload) && incoming == rest
    {
      hide Le, FromLe, Power;
      var head := ReadExact(4);
      if head.None? {
        return None;
      }
      var size := FromLe(head.value);
      Powers();
      forall payload, rest | old(incoming) == Frame(payload) + rest && |payload| <= MaxFrame
        ensures size == |payload| && incoming == payload + rest
      {
        LeBack(|payload|, 4);
        assert old(incoming)[..4] == Le(|payload|, 4);
      }
      if size > 64 * 1024 * 1024 {
        return None;
      }
      LeForth(head.value);
      ghost var behind := incoming;
      r := ReadExact(size);
      assert old(incoming) == head.value + behind;
      assert r.Some? ==> behind == r.value + incoming;
    }
  }
}
