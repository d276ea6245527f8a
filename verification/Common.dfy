/** What several programs of the repository have in common. */
module Common {
  import opened Types

  datatype Option<T> = None | Some(value: T)

  // ---------------------------------------------------------------- little-endian numbers

  /** The lowest `width` bytes of a number, lowest first. */
  function Le(x: nat, width: nat): (b: seq<U8>)
    ensures |b| == width
  {
    if width == 0 then [] else [x % 256] + Le(x / 256, width - 1)
  }

  /** The number in such bytes. */
  function FromLe(b: seq<U8>): nat { if b == [] then 0 else b[0] + 256 * FromLe(b[1..]) }

  function Power(n: nat): nat { if n == 0 then 1 else 256 * Power(n - 1) }

  lemma Powers()
    ensures Power(0) == 1 && Power(1) == 0x100 && Power(2) == 0x1_0000 && Power(4) == 0x1_0000_0000
    ensures Power(8) == 0x1_0000_0000_0000_0000
  {
    assert Power(3) == 0x100_0000;
    assert Power(5) == 0x100_0000_0000 && Power(6) == 0x1_0000_0000_0000 && Power(7) == 0x100_0000_0000_0000;
  }

  lemma {:induction false} LeBack(x: nat, width: nat)
    requires x < Power(width)
    ensures FromLe(Le(x, width)) == x
  {
    if width > 0 {
      LeBack(x / 256, width - 1);
      assert Le(x, width)[1..] == Le(x / 256, width - 1);
    }
  }

  lemma {:induction false} LeForth(b: seq<U8>)
    ensures FromLe(b) < Power(|b|) && Le(FromLe(b), |b|) == b
  {
    if b != [] {
      LeForth(b[1..]);
      assert b == [b[0]] + b[1..];
    }
  }

  /** Byte i is digit i in base 256. */
  lemma {:induction false} LeDigit(x: nat, width: nat, i: nat)
    requires i < width
    ensures Power(i) > 0 && Le(x, width)[i] == x / Power(i) % 256
    decreases i
  {
    PowerPositive(i);
    if i == 0 {
      assert x / 1 == x;
    } else {
      LeDigit(x / 256, width - 1, i - 1);
      PowerPositive(i - 1);
      TwoDivisions(x, 256, Power(i - 1));
    }
  }

  lemma TwoDivisions(x: nat, a: nat, b: nat)
    requires a > 0 && b > 0
    ensures a * b > 0 && x / a / b == x / (a * b)
  {
    AtLeast(a, b);
    var y, s := x / a, x % a;
    var q, r := y / b, y % b;
    InParts(x, a, b, y, s, q, r);
    BelowBoth(a, b, r, s);
    QuotientIs(x, a * b, q, a * r + s);
  }

  lemma InParts(x: nat, a: nat, b: nat, y: nat, s: nat, q: nat, r: nat)
    requires x == a * y + s && y == b * q + r
    ensures x == (a * b) * q + (a * r + s)
  {}

  lemma BelowBoth(a: nat, b: nat, r: nat, s: nat)
    requires s < a && r < b
    ensures a * r + s < a * b
  {
    Distribute(a, b, r);
    AtLeast(a, b - r);
  }

  lemma Distribute(k: int, a: int, b: int) ensures k * (a - b) == k * a - k * b {}

  lemma AtLeast(k: int, e: int)
    requires k > 0
    ensures e > 0 ==> k * e >= k
    ensures e < 0 ==> k * e <= -k
  {}

  lemma QuotientIs(x: int, d: nat, q: int, r: nat)
    requires r < d && x == d * q + r
    ensures x / d == q && x % d == r
  {
    var p := x / d;
    assert x == d * p + x % d;
    Distribute(d, q, p);
    AtLeast(d, q - p);
  }

  lemma LeInjective(x: nat, y: nat, width: nat)
    requires Le(x, width) == Le(y, width) && x < Power(width) && y < Power(width)
    ensures x == y
  {
    LeBack(x, width);
    LeBack(y, width);
  }

  // ---------------------------------------------------------------- the padding of a hash

  function Zeros(n: nat): seq<bv8> { seq(n, _ => 0) }

  /** Byte i of a length in bits, modulo 2^64, the lowest first. */
  function LengthByte(bits: nat, i: nat): bv8
    requires i < 8
  {
    (bits / [1, 0x100, 0x1_0000, 0x100_0000, 0x1_0000_0000, 0x100_0000_0000, 0x1_0000_0000_0000,
             0x100_0000_0000_0000][i] % 256) as bv8
  }

  lemma {:induction false} PowerPositive(n: nat)
    ensures Power(n) > 0 && Power(n + 1) >= 256
  {
    if n > 0 {
      PowerPositive(n - 1);
    }
  }

  /** It is a digit of the length in base 256. */
  lemma LengthDigit(bits: nat, i: nat)
    requires i < 8
    ensures Power(i) > 0 && LengthByte(bits, i) == (bits / Power(i) % 256) as bv8
  {
    PowerPositive(i);
    match i
    case 0 =>
    case 1 => SmallPowers();
    case 2 => SmallPowers();
    case 3 => SmallPowers();
    case 4 => SmallPowers();
    case 5 => SmallPowers();
    case 6 => SmallPowers();
    case 7 => SmallPowers();
  }

  lemma SmallPowers()
    ensures Power(0) == 1 && Power(1) == 0x100 && Power(2) == 0x1_0000 && Power(3) == 0x100_0000
    ensures Power(4) == 0x1_0000_0000 && Power(5) == 0x100_0000_0000 && Power(6) == 0x1_0000_0000_0000
    ensures Power(7) == 0x100_0000_0000_0000
  {
    assert Power(3) == 0x100_0000;
    assert Power(5) == 0x100_0000_0000;
  }

  lemma SmallLength(bits: nat, i: nat)
    requires bits < 256 && i < 8
    ensures LengthByte(bits, i) == if i == 0 then bits as bv8 else 0
  {
    hide LengthByte, Power;
    LengthDigit(bits, i);
    if i == 0 {
      SmallPowers();
      Unchanged(bits);
    } else {
      PowerPositive(i - 1);
      SmallQuotient(bits, Power(i));
    }
  }

  lemma Unchanged(bits: nat)
    requires bits < 256
    ensures bits / 1 % 256 == bits
  {}

  lemma SmallQuotient(bits: nat, p: nat)
    requires bits < 256 <= p
    ensures bits / p == 0
  {}
}
