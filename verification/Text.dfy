/** Numbers and lines in chart text: what the strict readers accept is exactly what the writers print. */
module Text {
  import opened Common
  import opened Types

  const MaxU32 := 0xffff_ffff

  /** The first position from `from` on that holds c, or the length. */
  function Find(s: string, c: char, from: nat): (i: nat)
    requires from <= |s|
    ensures from <= i <= |s|
    ensures forall j :: from <= j < i ==> s[j] != c
    ensures i < |s| ==> s[i] == c
    decreases |s| - from
  {
    if from == |s| || s[from] == c then from else Find(s, c, from + 1)
  }

  lemma FindAt(s: string, c: char, from: nat, i: nat)
    requires from <= i <= |s| && (i < |s| ==> s[i] == c)
    requires forall j :: from <= j < i ==> s[j] != c
    ensures Find(s, c, from) == i
  {
    var k := Find(s, c, from);
  }

  // ---------------------------------------------------------------- unsigned decimals

  function Digit(d: nat): char
    requires d < 10
  {
    '0' + d as char
  }

  predicate IsDigit(c: char) { '0' <= c <= '9' }

  /** std::to_string. */
  function Decimal(n: nat): (s: string)
    ensures |s| > 0
  {
    if n < 10 then [Digit(n)] else Decimal(n / 10) + [Digit(n % 10)]
  }

  predicate AllDigits(s: string) { forall i :: 0 <= i < |s| ==> IsDigit(s[i]) }

  function Value(s: string): nat
    requires AllDigits(s)
  {
    if s == "" then 0 else 10 * Value(s[..|s| - 1]) + (s[|s| - 1] - '0') as nat
  }

  predicate Canonical(s: string) { s != "" && (|s| > 1 ==> s[0] != '0') && AllDigits(s) }

  /** parse_uint for an unsigned type with this largest value. */
  function ParseNumber(s: string, max: nat): (r: Option<nat>)
    ensures r.Some? ==> r.value <= max
  {
    if !Canonical(s) || Value(s) > max then None else Some(Value(s))
  }

  function ParseUint(s: string): (r: Option<U32>) {
    var n := ParseNumber(s, MaxU32);
    if n.None? then None else Some(n.value)
  }

  lemma {:induction false} DecimalReads(n: nat)
    ensures Canonical(Decimal(n)) && Value(Decimal(n)) == n
    ensures n > 0 ==> Decimal(n)[0] != '0'
  {
    if n >= 10 {
      DecimalReads(n / 10);
      assert Decimal(n)[..|Decimal(n)| - 1] == Decimal(n / 10);
    }
  }

  lemma DecimalOfTenfold(v: nat, d: nat)
    requires d < 10 && v > 0
    ensures Decimal(10 * v + d) == Decimal(v) + [Digit(d)]
  {
    assert (10 * v + d) / 10 == v && (10 * v + d) % 10 == d;
  }

  lemma {:induction false} DigitsPrint(s: string)
    requires Canonical(s)
    ensures Decimal(Value(s)) == s
    ensures s[0] != '0' ==> Value(s) > 0
  {
    var rest, d := s[..|s| - 1], (s[|s| - 1] - '0') as nat;
    if |s| == 1 {
      assert Value(rest) == 0;
      assert Decimal(d) == [Digit(d)];
    } else {
      hide Decimal;
      assert rest[0] == s[0];
      DigitsPrint(rest);
      DecimalOfTenfold(Value(rest), d);
      assert s == rest + [Digit(d)];
    }
  }

  /** The reader accepts exactly the printed numbers that fit. */
  lemma NumberBothWays(s: string, n: nat, max: nat)
    ensures ParseNumber(s, max) == Some(n) <==> n <= max && s == Decimal(n)
  {
    DecimalReads(n);
    if ParseNumber(s, max) == Some(n) {
      DigitsPrint(s);
    }
  }

  // ---------------------------------------------------------------- tempo with up to three decimals

  function ThreeDigits(f: nat): string
    requires f < 1000
  {
    [Digit(f / 100), Digit(f / 10 % 10), Digit(f % 10)]
  }

  /** Without trailing zeros. */
  function Trimmed(s: string): (t: string)
    ensures |t| <= |s| && t == s[..|t|]
    ensures t != "" ==> t[|t| - 1] != '0'
  {
    if s == "" || s[|s| - 1] != '0' then s else Trimmed(s[..|s| - 1])
  }

  /** bpm_text; the fraction is printed as the last three digits of 1000 + f. */
  function BpmText(milli: nat): string {
    TempoText(milli / 1000, milli % 1000)
  }

  function TempoText(whole: nat, f: nat): string
    requires f < 1000
  {
    Decimal(whole) + if f == 0 then "" else "." + Trimmed(Decimal(1000 + f)[1..])
  }

  lemma LastThree(f: nat)
    requires f < 1000
    ensures Decimal(1000 + f)[1..] == ThreeDigits(f)
  {
    var a, b, c := f / 100, f / 10 % 10, f % 10;
    assert (1000 + f) / 10 == 100 + f / 10 && (1000 + f) / 100 == 10 + a && (1000 + f) / 1000 == 1;
    assert Decimal(1) == [Digit(1)];
    assert Decimal(10 + a) == Decimal(1) + [Digit(a)];
    assert Decimal(100 + f / 10) == Decimal(10 + a) + [Digit(b)];
    assert Decimal(1000 + f) == Decimal(100 + f / 10) + [Digit(c)];
  }

  /** The digits after the point as thousandths. */
  function Thousandths(fraction: string): nat
    requires AllDigits(fraction) && 1 <= |fraction| <= 3
  {
    Value(fraction) * if |fraction| == 1 then 100 else if |fraction| == 2 then 10 else 1
  }

  predicate ValidFraction(fraction: string) {
    1 <= |fraction| <= 3 && AllDigits(fraction) && fraction[|fraction| - 1] != '0'
  }

  /** parse_bpm_milli. */
  function ParseBpm(s: string): (r: Option<U32>) {
    var dot := Find(s, '.', 0);
    if dot == |s| then Milli(ParseUint(s), 0)
    else
      var fraction := s[dot + 1..];
      if Find(s, '.', dot + 1) < |s| || !ValidFraction(fraction) then None
      else Milli(ParseUint(s[..dot]), Thousandths(fraction))
  }

  function Milli(whole: Option<U32>, f: nat): Option<U32> {
    if whole.None? || whole.value * 1000 + f > MaxU32 then None else Some(whole.value * 1000 + f)
  }

  function Val(c: char): nat
    requires IsDigit(c)
  {
    (c - '0') as nat
  }

  lemma ValueOfFew(x: char, y: char, z: char)
    requires IsDigit(x) && IsDigit(y) && IsDigit(z)
    ensures Value([x]) == Val(x) && Value([x, y]) == 10 * Val(x) + Val(y)
    ensures Value([x, y, z]) == 100 * Val(x) + 10 * Val(y) + Val(z)
  {
    assert [x, y, z][..2] == [x, y] && [x, y][..1] == [x] && [x][..0] == "";
  }

  lemma TrimmedFew(x: char, y: char, z: char)
    ensures z != '0' ==> Trimmed([x, y, z]) == [x, y, z]
    ensures z == '0' && y != '0' ==> Trimmed([x, y, z]) == [x, y]
    ensures z == '0' && y == '0' && x != '0' ==> Trimmed([x, y, z]) == [x]
  {
    assert [x, y, z][..2] == [x, y] && [x, y][..1] == [x];
    assert x != '0' ==> Trimmed([x]) == [x];
    assert Trimmed([x, y]) == if y != '0' then [x, y] else Trimmed([x]);
  }

  lemma FractionReads(f: nat)
    requires 0 < f < 1000
    ensures var t := Trimmed(ThreeDigits(f)); ValidFraction(t) && Thousandths(t) == f
  {
    hide Trimmed, Value;
    var a, b, c := f / 100, f / 10 % 10, f % 10;
    assert f == 100 * a + 10 * b + c;
    ValueOfFew(Digit(a), Digit(b), Digit(c));
    TrimmedFew(Digit(a), Digit(b), Digit(c));
  }

  lemma FractionPrints(t: string)
    requires ValidFraction(t)
    ensures 0 < Thousandths(t) < 1000 && Trimmed(ThreeDigits(Thousandths(t))) == t
  {
    hide Trimmed, Value;
    var x, y, z := t[0], if |t| > 1 then t[1] else '0', if |t| > 2 then t[2] else '0';
    ValueOfFew(x, y, z);
    TrimmedFew(x, y, z);
    assert t == if |t| == 1 then [x] else if |t| == 2 then [x, y] else [x, y, z];
    ThreeOf(Val(x), Val(y), Val(z));
    assert Thousandths(t) == 100 * Val(x) + 10 * Val(y) + Val(z);
  }

  lemma ThreeOf(a: nat, b: nat, c: nat)
    requires a < 10 && b < 10 && c < 10
    ensures ThreeDigits(100 * a + 10 * b + c) == [Digit(a), Digit(b), Digit(c)]
  {
    var f := 100 * a + 10 * b + c;
    assert f / 10 == 10 * a + b && f / 100 == a;
  }

  lemma NoDot(s: string, from: nat)
    requires AllDigits(s) && from <= |s|
    ensures Find(s, '.', from) == |s|
  {
    FindAt(s, '.', from, |s|);
  }

  /** How the reader takes apart a number with one point. */
  lemma BpmSplit(whole: string, t: string)
    requires AllDigits(whole) && ValidFraction(t)
    ensures ParseBpm(whole + "." + t) == Milli(ParseUint(whole), Thousandths(t))
  {
    hide ParseUint, Thousandths, Milli;
    var s := whole + "." + t;
    FindAt(s, '.', 0, |whole|);
    FindAt(s, '.', |whole| + 1, |s|);
    assert s[..|whole|] == whole && s[|whole| + 1..] == t;
  }

  lemma TempoReads(w: nat, f: nat)
    requires f < 1000 && w * 1000 + f <= MaxU32
    ensures ParseBpm(TempoText(w, f)) == Some(w * 1000 + f)
  {
    hide Trimmed, Thousandths, ThreeDigits, Decimal, ParseBpm;
    DecimalReads(w);
    if f == 0 {
      WholeReads(Decimal(w));
      assert TempoText(w, f) == Decimal(w);
    } else {
      LastThree(f);
      FractionReads(f);
      var t := Trimmed(ThreeDigits(f));
      BpmSplit(Decimal(w), t);
      assert Decimal(w) + "." + t == TempoText(w, f);
    }
  }

  lemma WholeReads(s: string)
    requires AllDigits(s)
    ensures ParseBpm(s) == Milli(ParseUint(s), 0)
  {
    NoDot(s, 0);
  }

  lemma TempoPrints(s: string)
    requires ParseBpm(s).Some?
    ensures exists w: nat, f: nat :: f < 1000 && ParseBpm(s).value == w * 1000 + f && TempoText(w, f) == s
  {
    hide Trimmed, Thousandths, ThreeDigits, Decimal, Value;
    var dot := Find(s, '.', 0);
    if dot == |s| {
      DigitsPrint(s);
      assert TempoText(Value(s), 0) == s;
    } else {
      var whole, t := s[..dot], s[dot + 1..];
      DigitsPrint(whole);
      FractionPrints(t);
      LastThree(Thousandths(t));
      assert s == whole + ("." + t);
      assert TempoText(Value(whole), Thousandths(t)) == s;
    }
  }

  /** The tempo reader accepts exactly the printed tempos that fit. */
  lemma BpmBothWays(s: string, m: nat)
    ensures ParseBpm(s) == Some(m) <==> m <= MaxU32 && s == BpmText(m)
  {
    hide ParseBpm, TempoText;
    if ParseBpm(s) == Some(m) {
      TempoPrints(s);
    }
    if m <= MaxU32 {
      TempoReads(m / 1000, m % 1000);
    }
  }

  // ---------------------------------------------------------------- lines

  /** Every line followed by a line feed. */
  function Join(lines: seq<string>): string {
    if lines == [] then "" else Join(lines[..|lines| - 1]) + lines[|lines| - 1] + "\n"
  }

  lemma {:induction false} JoinAppend(a: seq<string>, b: seq<string>)
    ensures Join(a + b) == Join(a) + Join(b)
  {
    if b == [] {
      assert a + b == a;
    } else {
      var n := |b| - 1;
      JoinAppend(a, b[..n]);
      assert (a + b)[..|a + b| - 1] == a + b[..n];
    }
  }

  predicate Printable(s: string) { forall i :: 0 <= i < |s| ==> ' ' <= s[i] <= '~' }

  predicate LineOk(line: string, limit: nat) {
    0 < |line| <= limit && Printable(line) && line[|line| - 1] != ' '
  }

  /** The limit of line i: one for the first seven lines, another for the rest. */
  function LimitOf(i: nat, first: nat, rest: nat): nat { if i < 7 then first else rest }

  predicate LinesUnder(lines: seq<string>, first: nat, rest: nat) {
    forall i :: 0 <= i < |lines| ==> LineOk(lines[i], LimitOf(i, first, rest))
  }

  function Limit(i: nat): nat { LimitOf(i, 255, 4096) }

  predicate LinesOk(lines: seq<string>) { LinesUnder(lines, 255, 4096) }

  const MaxChartBytes := 8388608

  /** What strict_lines accepts, and the lines it returns. */
  predicate StrictText(text: string, lines: seq<string>) {
    text == Join(lines) && LinesOk(lines) && 0 < |text| <= MaxChartBytes
  }

  lemma JoinEnds(lines: seq<string>)
    ensures Join(lines) == "" || Join(lines)[|Join(lines)| - 1] == '\n'
    ensures lines != [] ==> Join(lines) != ""
  {}

  /** The lines of a text, which is not empty. */
  predicate Splits(text: string, lines: seq<string>, first: nat, rest: nat) {
    text == Join(lines) && LinesUnder(lines, first, rest) && text != ""
  }

  /** strict_lines: byte by byte. A text it refuses is no text of acceptable lines at all. */
  method SplitLines(text: string, first: nat, rest: nat) returns (r: Option<seq<string>>)
    ensures r.Some? ==> Splits(text, r.value, first, rest)
    ensures r.None? ==> forall lines :: !Splits(text, lines, first, rest)
  {
    if text == "" || text[|text| - 1] != '\n' {
      RefusedShape(text, first, rest);
      return None;
    }
    var lines: seq<string> := [];
    var start := 0;
    for index := 0 to |text|
      invariant 0 <= start <= index
      invariant text[..start] == Join(lines) && LinesUnder(lines, first, rest)
      invariant Printable(text[start..index])
      invariant index > 0 && text[index - 1] == '\n' ==> start == index
    {
      var byte := text[index];
      assert text[start..index + 1] == text[start..index] + [byte];
      if byte != '\n' && (byte < ' ' || byte > '~') {
        RefusedByte(text, index, first, rest);
        return None;
      }
      if byte == '\n' {
        var line := text[start..index];
        var limit := if |lines| + 1 <= 7 then first else rest;
        if |line| > limit || line == "" || line[|line| - 1] == ' ' {
          RefusedLine(text, lines, start, index, first, rest);
          return None;
        }
        assert text[..index + 1] == text[..start] + line + "\n";
        assert (lines + [line])[..|lines|] == lines;
        lines := lines + [line];
        start := index + 1;
      }
    }
    assert text[..|text|] == text;
    r := Some(lines);
  }

  /** strict_lines of chart files. */
  method StrictLines(text: string) returns (r: Option<seq<string>>)
    ensures r.Some? ==> StrictText(text, r.value)
    ensures r.None? ==> forall lines :: !StrictText(text, lines)
  {
    hide Join, LinesUnder;
    if |text| > 8 * 1024 * 1024 {
      return None;
    }
    r := SplitLines(text, 255, 4096);
    assert forall lines :: StrictText(text, lines) ==> Splits(text, lines, 255, 4096);
  }

  lemma RefusedShape(text: string, first: nat, rest: nat)
    requires text == "" || text[|text| - 1] != '\n'
    ensures forall lines :: !Splits(text, lines, first, rest)
  {
    forall lines ensures !Splits(text, lines, first, rest) {
      if Splits(text, lines, first, rest) {
        JoinEnds(lines);
      }
    }
  }

  lemma {:induction false} BytesOfJoin(lines: seq<string>, i: nat)
    requires AllPrintable(lines) && i < |Join(lines)|
    ensures Join(lines)[i] == '\n' || ' ' <= Join(lines)[i] <= '~'
  {
    var n := |lines| - 1;
    var p := Join(lines[..n]);
    if i < |p| {
      BytesOfJoin(lines[..n], i);
    } else if i < |p| + |lines[n]| {
      assert Join(lines)[i] == lines[n][i - |p|];
    }
  }

  lemma RefusedByte(text: string, i: nat, first: nat, rest: nat)
    requires i < |text| && text[i] != '\n' && (text[i] < ' ' || text[i] > '~')
    ensures forall lines :: !Splits(text, lines, first, rest)
  {
    forall lines ensures !Splits(text, lines, first, rest) {
      if Splits(text, lines, first, rest) {
        PrintableLines(lines, first, rest);
        BytesOfJoin(lines, i);
      }
    }
  }

  /** Two texts that agree up to the end of a first line have the same first line. */
  lemma FirstLine(x: string, p: string, y: string, q: string)
    requires x + "\n" + p == y + "\n" + q && Printable(x) && Printable(y)
    ensures x == y && p == q
  {
    var s := x + "\n" + p;
    FindAt(s, '\n', 0, |x|);
    FindAt(y + "\n" + q, '\n', 0, |y|);
    assert x == s[..|x|] && y == s[..|y|] && p == s[|x| + 1..] && q == s[|y| + 1..];
  }

  lemma JoinFirst(lines: seq<string>)
    requires lines != []
    ensures Join(lines) == lines[0] + "\n" + Join(lines[1..])
  {
    JoinAppend(lines[..1], lines[1..]);
    assert lines[..1] + lines[1..] == lines;
    assert Join(lines[..1]) == lines[0] + "\n" by {
      assert lines[..1][..0] == [];
    }
  }

  /** A text of acceptable lines that begins with acceptable lines has those lines. */
  lemma {:induction false} LeadingLines(all: seq<string>, lines: seq<string>, rest: string)
    requires AllPrintable(all) && AllPrintable(lines)
    requires Join(all) == Join(lines) + rest
    ensures |lines| <= |all| && all[..|lines|] == lines && Join(all[|lines|..]) == rest
    decreases |lines|
  {
    if lines == [] {
      assert all[0..] == all;
    } else {
      JoinFirst(lines);
      JoinEmpty();
      JoinFirst(all);
      assert Join(all) == lines[0] + "\n" + (Join(lines[1..]) + rest);
      FirstLine(all[0], Join(all[1..]), lines[0], Join(lines[1..]) + rest);
      LeadingLines(all[1..], lines[1..], rest);
      assert all[|lines|..] == all[1..][|lines| - 1..];
      assert all[..|lines|] == [all[0]] + all[1..][..|lines| - 1];
      assert lines == [lines[0]] + lines[1..];
    }
  }

  /** Lines can be read off a text in only one way. */
  lemma JoinOnce(a: seq<string>, b: seq<string>)
    requires AllPrintable(a) && AllPrintable(b) && Join(a) == Join(b)
    ensures a == b
  {
    assert Join(a) == Join(b) + "";
    LeadingLines(a, b, "");
    JoinEnds(a[|b|..]);
  }

  predicate AllPrintable(lines: seq<string>) { forall i :: 0 <= i < |lines| ==> Printable(lines[i]) }

  /** The line after the lines found so far. */
  lemma LineAfter(all: seq<string>, lines: seq<string>, line: string, tail: string)
    requires AllPrintable(all) && AllPrintable(lines) && Printable(line)
    requires Join(all) == Join(lines) + (line + "\n" + tail)
    ensures |lines| < |all| && all[|lines|] == line
  {
    hide Join, Printable;
    LeadingLines(all, lines, line + "\n" + tail);
    var more := all[|lines|..];
    JoinEmpty();
    JoinFirst(more);
    FirstLine(line, tail, more[0], Join(more[1..]));
  }

  lemma JoinEmpty() ensures Join([]) == "" {}

  lemma PrintableLines(lines: seq<string>, first: nat, rest: nat)
    requires LinesUnder(lines, first, rest)
    ensures AllPrintable(lines)
  {}

  lemma CutAround(text: string, start: nat, index: nat)
    requires start <= index < |text| && text[index] == '\n'
    ensures text == text[..start] + (text[start..index] + "\n" + text[index + 1..])
  {}

  lemma RefusedLine(text: string, lines: seq<string>, start: nat, index: nat, first: nat, rest: nat)
    requires start <= index < |text| && text[index] == '\n'
    requires text[..start] == Join(lines) && LinesUnder(lines, first, rest)
    requires Printable(text[start..index]) && !LineOk(text[start..index], LimitOf(|lines|, first, rest))
    ensures forall all :: !Splits(text, all, first, rest)
  {
    hide Join, LineOk, LimitOf;
    var line, tail := text[start..index], text[index + 1..];
    CutAround(text, start, index);
    PrintableLines(lines, first, rest);
    forall all ensures !Splits(text, all, first, rest) {
      if Splits(text, all, first, rest) {
        PrintableLines(all, first, rest);
        LineAfter(all, lines, line, tail);
      }
    }
  }
}
