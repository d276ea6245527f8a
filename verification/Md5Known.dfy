/** Known answers of MD5 (section A.5 of RFC 1321), step by step. */
module Md5Known {
  import opened Common
  import opened Md5
  import opened SearchCommon
  import opened Files

  // ---------------------------------------------------------------- the functions of section 3.4

  /** Each bit of F is that of c or of d, as b says. */
  lemma FSelects(b: bv32, c: bv32, d: bv32) ensures FF(b, c, d) == (b & c) | (!b & d) {}

  /** Each bit of G is that of b or of c, as d says. */
  lemma GSelects(b: bv32, c: bv32, d: bv32) ensures GG(b, c, d) == (b & d) | (c & !d) {}

  /** H is the parity. */
  lemma HIsParity(b: bv32, c: bv32, d: bv32) ensures HH(b, c, d) == b ^ (c ^ d) {}

  /** Where d is set, I is c against b; where it is clear, the opposite of c. */
  lemma ISelects(b: bv32, c: bv32, d: bv32)
    ensures II(b, c, d) & d == (c ^ b) & d
    ensures II(b, c, d) | d == !c | d
  {}

  // ---------------------------------------------------------------- from steps to digests

  /** One step: row t of the table, the message word it uses, and the state word it leads to. */
  lemma Next(t: nat, r: Regs, f: Round, k: nat, s: nat, ac: bv32, m: Word, b: Word, w: Block) returns (r': Regs)
    requires t < 64 && RowOf(t) == Row(f, k, s, ac) && k < 16 && 0 < s < 32 && w[k] == m
    requires StepValue(f, r.a, r.b, r.c, r.d, m, ac, s) == b
    ensures r' == Regs(r.d, b, r.b, r.c) && Run(t, 64, r, w) == Run(t + 1, 64, r', w)
  {
    hide StepValue, RowOf, Run;
    r' := Regs(r.d, b, r.b, r.c);
    RunStep(t, 64, r, w);
  }

  lemma Rows0()
    ensures RowOf(0) == Row(F, 0, 7, 0xd76aa478) && RowOf(1) == Row(F, 1, 12, 0xe8c7b756)
    ensures RowOf(2) == Row(F, 2, 17, 0x242070db) && RowOf(3) == Row(F, 3, 22, 0xc1bdceee)
    ensures RowOf(4) == Row(F, 4, 7, 0xf57c0faf) && RowOf(5) == Row(F, 5, 12, 0x4787c62a)
    ensures RowOf(6) == Row(F, 6, 17, 0xa8304613) && RowOf(7) == Row(F, 7, 22, 0xfd469501)
  {}

  lemma Rows8()
    ensures RowOf(8) == Row(F, 8, 7, 0x698098d8) && RowOf(9) == Row(F, 9, 12, 0x8b44f7af)
    ensures RowOf(10) == Row(F, 10, 17, 0xffff5bb1) && RowOf(11) == Row(F, 11, 22, 0x895cd7be)
    ensures RowOf(12) == Row(F, 12, 7, 0x6b901122) && RowOf(13) == Row(F, 13, 12, 0xfd987193)
    ensures RowOf(14) == Row(F, 14, 17, 0xa679438e) && RowOf(15) == Row(F, 15, 22, 0x49b40821)
  {}

  lemma Rows16()
    ensures RowOf(16) == Row(G, 1, 5, 0xf61e2562) && RowOf(17) == Row(G, 6, 9, 0xc040b340)
    ensures RowOf(18) == Row(G, 11, 14, 0x265e5a51) && RowOf(19) == Row(G, 0, 20, 0xe9b6c7aa)
    ensures RowOf(20) == Row(G, 5, 5, 0xd62f105d) && RowOf(21) == Row(G, 10, 9, 0x02441453)
    ensures RowOf(22) == Row(G, 15, 14, 0xd8a1e681) && RowOf(23) == Row(G, 4, 20, 0xe7d3fbc8)
  {}

  lemma Rows24()
    ensures RowOf(24) == Row(G, 9, 5, 0x21e1cde6) && RowOf(25) == Row(G, 14, 9, 0xc33707d6)
    ensures RowOf(26) == Row(G, 3, 14, 0xf4d50d87) && RowOf(27) == Row(G, 8, 20, 0x455a14ed)
    ensures RowOf(28) == Row(G, 13, 5, 0xa9e3e905) && RowOf(29) == Row(G, 2, 9, 0xfcefa3f8)
    ensures RowOf(30) == Row(G, 7, 14, 0x676f02d9) && RowOf(31) == Row(G, 12, 20, 0x8d2a4c8a)
  {}

  lemma Rows32()
    ensures RowOf(32) == Row(H, 5, 4, 0xfffa3942) && RowOf(33) == Row(H, 8, 11, 0x8771f681)
    ensures RowOf(34) == Row(H, 11, 16, 0x6d9d6122) && RowOf(35) == Row(H, 14, 23, 0xfde5380c)
    ensures RowOf(36) == Row(H, 1, 4, 0xa4beea44) && RowOf(37) == Row(H, 4, 11, 0x4bdecfa9)
    ensures RowOf(38) == Row(H, 7, 16, 0xf6bb4b60) && RowOf(39) == Row(H, 10, 23, 0xbebfbc70)
  {}

  lemma Rows40()
    ensures RowOf(40) == Row(H, 13, 4, 0x289b7ec6) && RowOf(41) == Row(H, 0, 11, 0xeaa127fa)
    ensures RowOf(42) == Row(H, 3, 16, 0xd4ef3085) && RowOf(43) == Row(H, 6, 23, 0x04881d05)
    ensures RowOf(44) == Row(H, 9, 4, 0xd9d4d039) && RowOf(45) == Row(H, 12, 11, 0xe6db99e5)
    ensures RowOf(46) == Row(H, 15, 16, 0x1fa27cf8) && RowOf(47) == Row(H, 2, 23, 0xc4ac5665)
  {}

  lemma Rows48()
    ensures RowOf(48) == Row(I, 0, 6, 0xf4292244) && RowOf(49) == Row(I, 7, 10, 0x432aff97)
    ensures RowOf(50) == Row(I, 14, 15, 0xab9423a7) && RowOf(51) == Row(I, 5, 21, 0xfc93a039)
    ensures RowOf(52) == Row(I, 12, 6, 0x655b59c3) && RowOf(53) == Row(I, 3, 10, 0x8f0ccc92)
    ensures RowOf(54) == Row(I, 10, 15, 0xffeff47d) && RowOf(55) == Row(I, 1, 21, 0x85845dd1)
  {}

  lemma Rows56()
    ensures RowOf(56) == Row(I, 8, 6, 0x6fa87e4f) && RowOf(57) == Row(I, 15, 10, 0xfe2ce6e0)
    ensures RowOf(58) == Row(I, 6, 15, 0xa3014314) && RowOf(59) == Row(I, 13, 21, 0x4e0811a1)
    ensures RowOf(60) == Row(I, 4, 6, 0xf7537e82) && RowOf(61) == Row(I, 11, 10, 0xbd3af235)
    ensures RowOf(62) == Row(I, 2, 15, 0x2ad7d2bb) && RowOf(63) == Row(I, 9, 21, 0xeb86d391)
  {}

  /** Byte i of a padded message of less than 56 bytes. */
  function PadByte(message: seq<bv8>, i: nat): bv8
    requires |message| < 56 && i < 64
  {
    if i < |message| then message[i] else if i == |message| then 0x80 else if i < 56 then 0
    else LengthByte(8 * |message|, i - 56)
  }

  lemma PadByteIs(message: seq<bv8>, i: nat)
    requires |message| < 56 && i < 64
    ensures |message + Padding(|message|)| == 64 && (message + Padding(|message|))[i] == PadByte(message, i)
  {
    hide LengthByte;
    assert (119 - |message| % 64) % 64 == 55 - |message|;
  }

  function PadWord(message: seq<bv8>, k: nat): Word
    requires |message| < 56 && k < 16
  {
    WordOf(PadByte(message, 4 * k), PadByte(message, 4 * k + 1), PadByte(message, 4 * k + 2),
           PadByte(message, 4 * k + 3))
  }

  lemma NoWord() ensures WordOf(0, 0, 0, 0) == W(0) {}

  /** Behind the message and its one bit there is only the length. */
  lemma RestOfBlock(message: seq<bv8>, k: nat)
    requires |message| < 32 && |message| / 4 < k < 16
    ensures PadWord(message, k) == if k == 14 then WordOf((8 * |message|) as bv8, 0, 0, 0) else W(0)
  {
    hide WordOf, LengthByte;
    if k == 14 {
      SmallLength(8 * |message|, 0);
      SmallLength(8 * |message|, 1);
      SmallLength(8 * |message|, 2);
      SmallLength(8 * |message|, 3);
    } else if k == 15 {
      SmallLength(8 * |message|, 4);
      SmallLength(8 * |message|, 5);
      SmallLength(8 * |message|, 6);
      SmallLength(8 * |message|, 7);
    }
    NoWord();
  }

  /** The MD5 of a message of less than 32 bytes, from the words of its block. */
  lemma OneBlock(message: seq<bv8>, w: Block)
    requires |message| < 32
    requires forall k :: 0 <= k <= |message| / 4 ==> w[k] == PadWord(message, k)
    requires forall k :: |message| / 4 < k < 16 ==>
      w[k] == if k == 14 then WordOf((8 * |message|) as bv8, 0, 0, 0) else W(0)
    ensures Md5Of(message) == Digest(Compress(Initial, w))
  {
    hide Compress, WordOf, PadByte, Digest, Padding;
    var p := message + Padding(|message|);
    PadByteIs(message, 0);
    forall k | 0 <= k < 16
      ensures BlockOf(p)[k] == w[k]
    {
      PadByteIs(message, 4 * k);
      PadByteIs(message, 4 * k + 1);
      PadByteIs(message, 4 * k + 2);
      PadByteIs(message, 4 * k + 3);
      if k > |message| / 4 {
        RestOfBlock(message, k);
      }
    }
    assert BlockOf(p) == w;
    assert p[..64] == p && p[64..] == [];
    assert Chain(Initial, p) == Compress(Initial, w);
  }

  function Bytes4(w: Word): seq<bv8> { [ByteOf(w, 0), ByteOf(w, 1), ByteOf(w, 2), ByteOf(w, 3)] }

  lemma DigestIs(a: Word, b: Word, c: Word, d: Word)
    ensures Digest(Regs(a, b, c, d)) == Bytes4(a) + Bytes4(b) + Bytes4(c) + Bytes4(d)
  {
    hide ByteOf;
    var d0, ws := Digest(Regs(a, b, c, d)), [a, b, c, d];
    BytesAt(ws, 0);
    BytesAt(ws, 1);
    BytesAt(ws, 2);
    BytesAt(ws, 3);
    hide *;
    assert d0 == d0[0..4] + d0[4..8] + d0[8..12] + d0[12..16];
  }

  // ---------------------------------------------------------------- the empty message

  function EmptyBlock(): (b: Block)
    ensures b[0] == W(0x00000080) && b[1] == W(0) && b[2] == W(0) && b[3] == W(0)
    ensures b[4] == W(0) && b[5] == W(0) && b[6] == W(0) && b[7] == W(0)
    ensures b[8] == W(0) && b[9] == W(0) && b[10] == W(0) && b[11] == W(0)
    ensures b[12] == W(0) && b[13] == W(0) && b[14] == W(0) && b[15] == W(0)
  {
    [W(0x00000080), W(0), W(0), W(0), W(0), W(0), W(0), W(0),
     W(0), W(0), W(0), W(0), W(0), W(0), W(0), W(0)]
  }

  lemma Empty0()
    ensures Run(0, 64, Regs(W(0x67452301), W(0xefcdab89), W(0x98badcfe), W(0x10325476)), EmptyBlock())
         == Run(8, 64, Regs(W(0x32033344), W(0x9bc13ce9), W(0xf5b158db), W(0x2f35d494)), EmptyBlock())
  {
    hide Run, RowOf, EmptyBlock;
    Rows0();
    var w, r := EmptyBlock(), Regs(W(0x67452301), W(0xefcdab89), W(0x98badcfe), W(0x10325476));
    r := Next(0, r, F, 0, 7, 0xd76aa478, W(0x00000080), W(0xa5202774), w);
    r := Next(1, r, F, 1, 12, 0xe8c7b756, W(0), W(0xf59592dd), w);
    r := Next(2, r, F, 2, 17, 0x242070db, W(0), W(0xe7f06b23), w);
    r := Next(3, r, F, 3, 22, 0xc1bdceee, W(0), W(0x1b163203), w);
    r := Next(4, r, F, 4, 7, 0xf57c0faf, W(0), W(0x32033344), w);
    r := Next(5, r, F, 5, 12, 0x4787c62a, W(0), W(0x2f35d494), w);
    r := Next(6, r, F, 6, 17, 0xa8304613, W(0), W(0xf5b158db), w);
    r := Next(7, r, F, 7, 22, 0xfd469501, W(0), W(0x9bc13ce9), w);
  }

  lemma Empty8()
    ensures Run(8, 64, Regs(W(0x32033344), W(0x9bc13ce9), W(0xf5b158db), W(0x2f35d494)), EmptyBlock())
         == Run(16, 64, Regs(W(0xf56c7cf1), W(0xd6819c6a), W(0x5aa53f75), W(0x374943a7)), EmptyBlock())
  {
    hide Run, RowOf, EmptyBlock;
    Rows8();
    var w, r := EmptyBlock(), Regs(W(0x32033344), W(0x9bc13ce9), W(0xf5b158db), W(0x2f35d494));
    r := Next(8, r, F, 8, 7, 0x698098d8, W(0), W(0x3893b991), w);
    r := Next(9, r, F, 9, 12, 0x8b44f7af, W(0), W(0xfce4a312), w);
    r := Next(10, r, F, 10, 17, 0xffff5bb1, W(0), W(0xe1ef0576), w);
    r := Next(11, r, F, 11, 22, 0x895cd7be, W(0), W(0x70768a29), w);
    r := Next(12, r, F, 12, 7, 0x6b901122, W(0), W(0xf56c7cf1), w);
    r := Next(13, r, F, 13, 12, 0xfd987193, W(0), W(0x374943a7), w);
    r := Next(14, r, F, 14, 17, 0xa679438e, W(0), W(0x5aa53f75), w);
    r := Next(15, r, F, 15, 22, 0x49b40821, W(0), W(0xd6819c6a), w);
  }

  lemma Empty16()
    ensures Run(16, 64, Regs(W(0xf56c7cf1), W(0xd6819c6a), W(0x5aa53f75), W(0x374943a7)), EmptyBlock())
         == Run(24, 64, Regs(W(0x3d1e3e6c), W(0xe422531a), W(0xeb41643e), W(0x68b7b3e3)), EmptyBlock())
  {
    hide Run, RowOf, EmptyBlock;
    Rows16();
    var w, r := EmptyBlock(), Regs(W(0xf56c7cf1), W(0xd6819c6a), W(0x5aa53f75), W(0x374943a7));
    r := Next(16, r, G, 1, 5, 0xf61e2562, W(0), W(0x1c7d7513), w);
    r := Next(17, r, G, 6, 9, 0xc040b340, W(0), W(0x7bd57a3a), w);
    r := Next(18, r, G, 11, 14, 0x265e5a51, W(0), W(0xc095f13a), w);
    r := Next(19, r, G, 0, 20, 0xe9b6c7aa, W(0x00000080), W(0xbd782e17), w);
    r := Next(20, r, G, 5, 5, 0xd62f105d, W(0), W(0x3d1e3e6c), w);
    r := Next(21, r, G, 10, 9, 0x02441453, W(0), W(0x68b7b3e3), w);
    r := Next(22, r, G, 15, 14, 0xd8a1e681, W(0), W(0xeb41643e), w);
    r := Next(23, r, G, 4, 20, 0xe7d3fbc8, W(0), W(0xe422531a), w);
  }

  lemma Empty24()
    ensures Run(24, 64, Regs(W(0x3d1e3e6c), W(0xe422531a), W(0xeb41643e), W(0x68b7b3e3)), EmptyBlock())
         == Run(32, 64, Regs(W(0x13707036), W(0xa2205f1f), W(0x1c31c384), W(0xae7813db)), EmptyBlock())
  {
    hide Run, RowOf, EmptyBlock;
    Rows24();
    var w, r := EmptyBlock(), Regs(W(0x3d1e3e6c), W(0xe422531a), W(0xeb41643e), W(0x68b7b3e3));
    r := Next(24, r, G, 9, 5, 0x21e1cde6, W(0), W(0x306ec122), w);
    r := Next(25, r, G, 14, 9, 0xc33707d6, W(0), W(0xd28c77c2), w);
    r := Next(26, r, G, 3, 14, 0xf4d50d87, W(0), W(0xa3c663da), w);
    r := Next(27, r, G, 8, 20, 0x455a14ed, W(0), W(0xa0572807), w);
    r := Next(28, r, G, 13, 5, 0xa9e3e905, W(0), W(0x13707036), w);
    r := Next(29, r, G, 2, 9, 0xfcefa3f8, W(0), W(0xae7813db), w);
    r := Next(30, r, G, 7, 14, 0x676f02d9, W(0), W(0x1c31c384), w);
    r := Next(31, r, G, 12, 20, 0x8d2a4c8a, W(0), W(0xa2205f1f), w);
  }

  lemma Empty32()
    ensures Run(32, 64, Regs(W(0x13707036), W(0xa2205f1f), W(0x1c31c384), W(0xae7813db)), EmptyBlock())
         == Run(40, 64, Regs(W(0x5f7a9b2e), W(0xc5dc8c15), W(0x91ca4cb7), W(0xabc34e16)), EmptyBlock())
  {
    hide Run, RowOf, EmptyBlock;
    Rows32();
    var w, r := EmptyBlock(), Regs(W(0x13707036), W(0xa2205f1f), W(0x1c31c384), W(0xae7813db));
    r := Next(32, r, H, 5, 4, 0xfffa3942, W(0), W(0xdf63eaa1), w);
    r := Next(33, r, H, 8, 11, 0x8771f681, W(0), W(0xc3689f5b), w);
    r := Next(34, r, H, 11, 16, 0x6d9d6122, W(0), W(0x12f3e755), w);
    r := Next(35, r, H, 14, 23, 0xfde5380c, W(0), W(0x004b6669), w);
    r := Next(36, r, H, 1, 4, 0xa4beea44, W(0), W(0x5f7a9b2e), w);
    r := Next(37, r, H, 4, 11, 0x4bdecfa9, W(0), W(0xabc34e16), w);
    r := Next(38, r, H, 7, 16, 0xf6bb4b60, W(0), W(0x91ca4cb7), w);
    r := Next(39, r, H, 10, 23, 0xbebfbc70, W(0), W(0xc5dc8c15), w);
  }

  lemma Empty40()
    ensures Run(40, 64, Regs(W(0x5f7a9b2e), W(0xc5dc8c15), W(0x91ca4cb7), W(0xabc34e16)), EmptyBlock())
         == Run(48, 64, Regs(W(0x3f55edfd), W(0xca7d2dbd), W(0x68d84ea2), W(0x22a31f54)), EmptyBlock())
  {
    hide Run, RowOf, EmptyBlock;
    Rows40();
    var w, r := EmptyBlock(), Regs(W(0x5f7a9b2e), W(0xc5dc8c15), W(0x91ca4cb7), W(0xabc34e16));
    r := Next(40, r, H, 13, 4, 0x289b7ec6, W(0), W(0x4497169d), w);
    r := Next(41, r, H, 0, 11, 0xeaa127fa, W(0x00000080), W(0x76fd93d4), w);
    r := Next(42, r, H, 3, 16, 0xd4ef3085, W(0), W(0xfd95f243), w);
    r := Next(43, r, H, 6, 23, 0x04881d05, W(0), W(0x0fe32453), w);
    r := Next(44, r, H, 9, 4, 0xd9d4d039, W(0), W(0x3f55edfd), w);
    r := Next(45, r, H, 12, 11, 0xe6db99e5, W(0), W(0x22a31f54), w);
    r := Next(46, r, H, 15, 16, 0x1fa27cf8, W(0), W(0x68d84ea2), w);
    r := Next(47, r, H, 2, 23, 0xc4ac5665, W(0), W(0xca7d2dbd), w);
  }

  lemma Empty48()
    ensures Run(48, 64, Regs(W(0x3f55edfd), W(0xca7d2dbd), W(0x68d84ea2), W(0x22a31f54)), EmptyBlock())
         == Run(56, 64, Regs(W(0x5625a114), W(0x1e77fa61), W(0x392ad0d0), W(0x3450f42b)), EmptyBlock())
  {
    hide Run, RowOf, EmptyBlock;
    Rows48();
    var w, r := EmptyBlock(), Regs(W(0x3f55edfd), W(0xca7d2dbd), W(0x68d84ea2), W(0x22a31f54));
    r := Next(48, r, I, 0, 6, 0xf4292244, W(0x00000080), W(0x93aa2577), w);
    r := Next(49, r, I, 7, 10, 0x432aff97, W(0), W(0x1688dc85), w);
    r := Next(50, r, I, 14, 15, 0xab9423a7, W(0), W(0xcd85b8cb), w);
    r := Next(51, r, I, 5, 21, 0xfc93a039, W(0), W(0x561e0689), w);
    r := Next(52, r, I, 12, 6, 0x655b59c3, W(0), W(0x5625a114), w);
    r := Next(53, r, I, 3, 10, 0x8f0ccc92, W(0), W(0x3450f42b), w);
    r := Next(54, r, I, 10, 15, 0xffeff47d, W(0), W(0x392ad0d0), w);
    r := Next(55, r, I, 1, 21, 0x85845dd1, W(0), W(0x1e77fa61), w);
  }

  lemma Empty56()
    ensures Run(56, 64, Regs(W(0x5625a114), W(0x1e77fa61), W(0x392ad0d0), W(0x3450f42b)), EmptyBlock())
         == Run(64, 64, Regs(W(0x7246fad3), W(0x14e45506), W(0xff4ea3eb), W(0x6e10a476)), EmptyBlock())
  {
    hide Run, RowOf, EmptyBlock;
    Rows56();
    var w, r := EmptyBlock(), Regs(W(0x5625a114), W(0x1e77fa61), W(0x392ad0d0), W(0x3450f42b));
    r := Next(56, r, I, 8, 6, 0x6fa87e4f, W(0), W(0x474a9c8c), w);
    r := Next(57, r, I, 15, 10, 0xfe2ce6e0, W(0), W(0xdfce00bc), w);
    r := Next(58, r, I, 6, 15, 0xa3014314, W(0), W(0x36594b14), w);
    r := Next(59, r, I, 13, 21, 0x4e0811a1, W(0), W(0x30130182), w);
    r := Next(60, r, I, 4, 6, 0xf7537e82, W(0), W(0x7246fad3), w);
    r := Next(61, r, I, 11, 10, 0xbd3af235, W(0), W(0x6e10a476), w);
    r := Next(62, r, I, 2, 15, 0x2ad7d2bb, W(0), W(0xff4ea3eb), w);
    r := Next(63, r, I, 9, 21, 0xeb86d391, W(0), W(0x14e45506), w);
  }

  lemma EmptyRun()
    ensures Run(0, 64, Regs(W(0x67452301), W(0xefcdab89), W(0x98badcfe), W(0x10325476)), EmptyBlock())
         == Regs(W(0x7246fad3), W(0x14e45506), W(0xff4ea3eb), W(0x6e10a476))
  {
    hide Run, EmptyBlock;
    Empty0();
    Empty8();
    Empty16();
    Empty24();
    Empty32();
    Empty40();
    Empty48();
    Empty56();
    RunEnd(64, Regs(W(0x7246fad3), W(0x14e45506), W(0xff4ea3eb), W(0x6e10a476)), EmptyBlock());
  }
  /** MD5 ("") = d41d8cd98f00b204e9800998ecf8427e. */
  lemma EmptyMd5()
    ensures Md5Of([]) ==
      [0xd4, 0x1d, 0x8c, 0xd9] + [0x8f, 0x00, 0xb2, 0x04] + [0xe9, 0x80, 0x09, 0x98] + [0xec, 0xf8, 0x42, 0x7e]
  {
    hide Run, Digest, Md5Of, LengthByte;
    assert PadWord([], 0) == WordOf(0x80, 0, 0, 0);
    NoWord();
    OneBlock([], EmptyBlock());
    EmptyRun();
    assert Compress(Initial, EmptyBlock()) == Regs(W(0xd98c1dd4), W(0x04b2008f), W(0x980980e9), W(0x7e42f8ec));
    assert Bytes4(W(0xd98c1dd4)) == [0xd4, 0x1d, 0x8c, 0xd9];
    assert Bytes4(W(0x04b2008f)) == [0x8f, 0x00, 0xb2, 0x04];
    assert Bytes4(W(0x980980e9)) == [0xe9, 0x80, 0x09, 0x98];
    assert Bytes4(W(0x7e42f8ec)) == [0xec, 0xf8, 0x42, 0x7e];
    DigestIs(W(0xd98c1dd4), W(0x04b2008f), W(0x980980e9), W(0x7e42f8ec));
  }


  // ---------------------------------------------------------------- "message digest"

  function MessageDigest(): seq<bv8> {
    [0x6d, 0x65, 0x73, 0x73, 0x61, 0x67, 0x65, 0x20, 0x64, 0x69, 0x67, 0x65, 0x73, 0x74]
  }

  function DigestBlock(): (b: Block)
    ensures b[0] == W(0x7373656d) && b[1] == W(0x20656761) && b[2] == W(0x65676964) && b[3] == W(0x00807473)
    ensures b[4] == W(0) && b[5] == W(0) && b[6] == W(0) && b[7] == W(0)
    ensures b[8] == W(0) && b[9] == W(0) && b[10] == W(0) && b[11] == W(0)
    ensures b[12] == W(0) && b[13] == W(0) && b[14] == W(0x00000070) && b[15] == W(0)
  {
    [W(0x7373656d), W(0x20656761), W(0x65676964), W(0x00807473), W(0), W(0), W(0), W(0),
     W(0), W(0), W(0), W(0), W(0), W(0), W(0x00000070), W(0)]
  }

  lemma Digest0()
    ensures Run(0, 64, Regs(W(0x67452301), W(0xefcdab89), W(0x98badcfe), W(0x10325476)), DigestBlock())
         == Run(8, 64, Regs(W(0xfa62d3a4), W(0xc63616cd), W(0xa089a530), W(0xb88dc1c7)), DigestBlock())
  {
    hide Run, RowOf, DigestBlock;
    Rows0();
    var w, r := DigestBlock(), Regs(W(0x67452301), W(0xefcdab89), W(0x98badcfe), W(0x10325476));
    r := Next(0, r, F, 0, 7, 0xd76aa478, W(0x7373656d), W(0x5ed29dae), w);
    r := Next(1, r, F, 1, 12, 0xe8c7b756, W(0x20656761), W(0xe2a2fc32), w);
    r := Next(2, r, F, 2, 17, 0x242070db, W(0x65676964), W(0x9073e056), w);
    r := Next(3, r, F, 3, 22, 0xc1bdceee, W(0x00807473), W(0xb9940c11), w);
    r := Next(4, r, F, 4, 7, 0xf57c0faf, W(0), W(0xfa62d3a4), w);
    r := Next(5, r, F, 5, 12, 0x4787c62a, W(0), W(0xb88dc1c7), w);
    r := Next(6, r, F, 6, 17, 0xa8304613, W(0), W(0xa089a530), w);
    r := Next(7, r, F, 7, 22, 0xfd469501, W(0), W(0xc63616cd), w);
  }

  lemma Digest8()
    ensures Run(8, 64, Regs(W(0xfa62d3a4), W(0xc63616cd), W(0xa089a530), W(0xb88dc1c7)), DigestBlock())
         == Run(16, 64, Regs(W(0x27c95b7f), W(0xb760921a), W(0x872d34d8), W(0x034e9992)), DigestBlock())
  {
    hide Run, RowOf, DigestBlock;
    Rows8();
    var w, r := DigestBlock(), Regs(W(0xfa62d3a4), W(0xc63616cd), W(0xa089a530), W(0xb88dc1c7));
    r := Next(8, r, F, 8, 7, 0x698098d8, W(0), W(0xfcced5db), w);
    r := Next(9, r, F, 9, 12, 0x8b44f7af, W(0), W(0x9bb4c658), w);
    r := Next(10, r, F, 10, 17, 0xffff5bb1, W(0), W(0x4731c077), w);
    r := Next(11, r, F, 11, 22, 0x895cd7be, W(0), W(0x5ff4a4e8), w);
    r := Next(12, r, F, 12, 7, 0x6b901122, W(0), W(0x27c95b7f), w);
    r := Next(13, r, F, 13, 12, 0xfd987193, W(0), W(0x034e9992), w);
    r := Next(14, r, F, 14, 17, 0xa679438e, W(0x00000070), W(0x872d34d8), w);
    r := Next(15, r, F, 15, 22, 0x49b40821, W(0), W(0xb760921a), w);
  }

  lemma Digest16()
    ensures Run(16, 64, Regs(W(0x27c95b7f), W(0xb760921a), W(0x872d34d8), W(0x034e9992)), DigestBlock())
         == Run(24, 64, Regs(W(0x3d3c3afc), W(0xe7f48f59), W(0x99351d3c), W(0x343bff12)), DigestBlock())
  {
    hide Run, RowOf, DigestBlock;
    Rows16();
    var w, r := DigestBlock(), Regs(W(0x27c95b7f), W(0xb760921a), W(0x872d34d8), W(0x034e9992));
    r := Next(16, r, G, 1, 5, 0xf61e2562, W(0x20656761), W(0x6d3425b2), w);
    r := Next(17, r, G, 6, 9, 0xc040b340, W(0), W(0x551aefa3), w);
    r := Next(18, r, G, 11, 14, 0x265e5a51, W(0), W(0x62cdb24b), w);
    r := Next(19, r, G, 0, 20, 0xe9b6c7aa, W(0x7373656d), W(0xf615fbe5), w);
    r := Next(20, r, G, 5, 5, 0xd62f105d, W(0), W(0x3d3c3afc), w);
    r := Next(21, r, G, 10, 9, 0x02441453, W(0), W(0x343bff12), w);
    r := Next(22, r, G, 15, 14, 0xd8a1e681, W(0), W(0x99351d3c), w);
    r := Next(23, r, G, 4, 20, 0xe7d3fbc8, W(0), W(0xe7f48f59), w);
  }

  lemma Digest24()
    ensures Run(24, 64, Regs(W(0x3d3c3afc), W(0xe7f48f59), W(0x99351d3c), W(0x343bff12)), DigestBlock())
         == Run(32, 64, Regs(W(0xc64f6e00), W(0x29209d1f), W(0x99ccfca3), W(0x4e341514)), DigestBlock())
  {
    hide Run, RowOf, DigestBlock;
    Rows24();
    var w, r := DigestBlock(), Regs(W(0x3d3c3afc), W(0xe7f48f59), W(0x99351d3c), W(0x343bff12));
    r := Next(24, r, G, 9, 5, 0x21e1cde6, W(0), W(0x7247931a), w);
    r := Next(25, r, G, 14, 9, 0xc33707d6, W(0x00000070), W(0xe37cf5f6), w);
    r := Next(26, r, G, 3, 14, 0xf4d50d87, W(0x00807473), W(0x709f1676), w);
    r := Next(27, r, G, 8, 20, 0x455a14ed, W(0), W(0x2460ff57), w);
    r := Next(28, r, G, 13, 5, 0xa9e3e905, W(0), W(0xc64f6e00), w);
    r := Next(29, r, G, 2, 9, 0xfcefa3f8, W(0x65676964), W(0x4e341514), w);
    r := Next(30, r, G, 7, 14, 0x676f02d9, W(0), W(0x99ccfca3), w);
    r := Next(31, r, G, 12, 20, 0x8d2a4c8a, W(0), W(0x29209d1f), w);
  }

  lemma Digest32()
    ensures Run(32, 64, Regs(W(0xc64f6e00), W(0x29209d1f), W(0x99ccfca3), W(0x4e341514)), DigestBlock())
         == Run(40, 64, Regs(W(0x2e678c51), W(0x1eaad7f9), W(0x26bbf48d), W(0xaf1a865c)), DigestBlock())
  {
    hide Run, RowOf, DigestBlock;
    Rows32();
    var w, r := DigestBlock(), Regs(W(0xc64f6e00), W(0x29209d1f), W(0x99ccfca3), W(0x4e341514));
    r := Next(32, r, H, 5, 4, 0xfffa3942, W(0), W(0x7b425bcb), w);
    r := Next(33, r, H, 8, 11, 0x8771f681, W(0), W(0x1d72c0d5), w);
    r := Next(34, r, H, 11, 16, 0x6d9d6122, W(0), W(0x8139174f), w);
    r := Next(35, r, H, 14, 23, 0xfde5380c, W(0x00000070), W(0x77401eff), w);
    r := Next(36, r, H, 1, 4, 0xa4beea44, W(0x20656761), W(0x2e678c51), w);
    r := Next(37, r, H, 4, 11, 0x4bdecfa9, W(0), W(0xaf1a865c), w);
    r := Next(38, r, H, 7, 16, 0xf6bb4b60, W(0), W(0x26bbf48d), w);
    r := Next(39, r, H, 10, 23, 0xbebfbc70, W(0), W(0x1eaad7f9), w);
  }

  lemma Digest40()
    ensures Run(40, 64, Regs(W(0x2e678c51), W(0x1eaad7f9), W(0x26bbf48d), W(0xaf1a865c)), DigestBlock())
         == Run(48, 64, Regs(W(0xc5148eb0), W(0x8f920a7f), W(0x8ee8cb35), W(0x9551398b)), DigestBlock())
  {
    hide Run, RowOf, DigestBlock;
    Rows40();
    var w, r := DigestBlock(), Regs(W(0x2e678c51), W(0x1eaad7f9), W(0x26bbf48d), W(0xaf1a865c));
    r := Next(40, r, H, 13, 4, 0x289b7ec6, W(0), W(0xff95dbf7), w);
    r := Next(41, r, H, 0, 11, 0xeaa127fa, W(0x7373656d), W(0x9ff8129c), w);
    r := Next(42, r, H, 3, 16, 0xd4ef3085, W(0x00807473), W(0x580f8d8e), w);
    r := Next(43, r, H, 6, 23, 0x04881d05, W(0), W(0x49bd582a), w);
    r := Next(44, r, H, 9, 4, 0xd9d4d039, W(0), W(0xc5148eb0), w);
    r := Next(45, r, H, 12, 11, 0xe6db99e5, W(0), W(0x9551398b), w);
    r := Next(46, r, H, 15, 16, 0x1fa27cf8, W(0), W(0x8ee8cb35), w);
    r := Next(47, r, H, 2, 23, 0xc4ac5665, W(0x65676964), W(0x8f920a7f), w);
  }

  lemma Digest48()
    ensures Run(48, 64, Regs(W(0xc5148eb0), W(0x8f920a7f), W(0x8ee8cb35), W(0x9551398b)), DigestBlock())
         == Run(56, 64, Regs(W(0x7e40a029), W(0xc004fc5d), W(0x555e3d90), W(0x778e9f99)), DigestBlock())
  {
    hide Run, RowOf, DigestBlock;
    Rows48();
    var w, r := DigestBlock(), Regs(W(0xc5148eb0), W(0x8f920a7f), W(0x8ee8cb35), W(0x9551398b));
    r := Next(48, r, I, 0, 6, 0xf4292244, W(0x7373656d), W(0x1158f562), w);
    r := Next(49, r, I, 7, 10, 0x432aff97, W(0), W(0x3a3bd4bf), w);
    r := Next(50, r, I, 14, 15, 0xab9423a7, W(0x00000070), W(0x3250a790), w);
    r := Next(51, r, I, 5, 21, 0xfc93a039, W(0), W(0xed9ac5d4), w);
    r := Next(52, r, I, 12, 6, 0x655b59c3, W(0), W(0x7e40a029), w);
    r := Next(53, r, I, 3, 10, 0x8f0ccc92, W(0x00807473), W(0x778e9f99), w);
    r := Next(54, r, I, 10, 15, 0xffeff47d, W(0), W(0x555e3d90), w);
    r := Next(55, r, I, 1, 21, 0x85845dd1, W(0x20656761), W(0xc004fc5d), w);
  }

  lemma Digest56()
    ensures Run(56, 64, Regs(W(0x7e40a029), W(0xc004fc5d), W(0x555e3d90), W(0x778e9f99)), DigestBlock())
         == Run(64, 64, Regs(W(0x162448f8), W(0x9dc60bf3), W(0x98747d54), W(0xc02f9d34)), DigestBlock())
  {
    hide Run, RowOf, DigestBlock;
    Rows56();
    var w, r := DigestBlock(), Regs(W(0x7e40a029), W(0xc004fc5d), W(0x555e3d90), W(0x778e9f99));
    r := Next(56, r, I, 8, 6, 0x6fa87e4f, W(0), W(0x853d163f), w);
    r := Next(57, r, I, 15, 10, 0xfe2ce6e0, W(0), W(0x57ff85d4), w);
    r := Next(58, r, I, 6, 15, 0xa3014314, W(0), W(0x61367f65), w);
    r := Next(59, r, I, 13, 21, 0x4e0811a1, W(0), W(0x671dc236), w);
    r := Next(60, r, I, 4, 6, 0xf7537e82, W(0), W(0x162448f8), w);
    r := Next(61, r, I, 11, 10, 0xbd3af235, W(0), W(0xc02f9d34), w);
    r := Next(62, r, I, 2, 15, 0x2ad7d2bb, W(0x65676964), W(0x98747d54), w);
    r := Next(63, r, I, 9, 21, 0xeb86d391, W(0), W(0x9dc60bf3), w);
  }

  lemma DigestRun()
    ensures Run(0, 64, Regs(W(0x67452301), W(0xefcdab89), W(0x98badcfe), W(0x10325476)), DigestBlock())
         == Regs(W(0x162448f8), W(0x9dc60bf3), W(0x98747d54), W(0xc02f9d34))
  {
    hide Run, DigestBlock;
    Digest0();
    Digest8();
    Digest16();
    Digest24();
    Digest32();
    Digest40();
    Digest48();
    Digest56();
    RunEnd(64, Regs(W(0x162448f8), W(0x9dc60bf3), W(0x98747d54), W(0xc02f9d34)), DigestBlock());
  }
  /** MD5 ("message digest") = f96b697d7cb7938d525a2f31aaf161d0. */
  lemma DigestMd5()
    ensures Md5Of(MessageDigest()) ==
      [0xf9, 0x6b, 0x69, 0x7d] + [0x7c, 0xb7, 0x93, 0x8d] + [0x52, 0x5a, 0x2f, 0x31] + [0xaa, 0xf1, 0x61, 0xd0]
  {
    hide Run, Digest, Md5Of, LengthByte;
    assert PadWord(MessageDigest(), 0) == WordOf(0x6d, 0x65, 0x73, 0x73);
    assert PadWord(MessageDigest(), 1) == WordOf(0x61, 0x67, 0x65, 0x20);
    assert PadWord(MessageDigest(), 2) == WordOf(0x64, 0x69, 0x67, 0x65);
    assert PadWord(MessageDigest(), 3) == WordOf(0x73, 0x74, 0x80, 0);
    NoWord();
    OneBlock(MessageDigest(), DigestBlock());
    DigestRun();
    assert Compress(Initial, DigestBlock()) == Regs(W(0x7d696bf9), W(0x8d93b77c), W(0x312f5a52), W(0xd061f1aa));
    assert Bytes4(W(0x7d696bf9)) == [0xf9, 0x6b, 0x69, 0x7d];
    assert Bytes4(W(0x8d93b77c)) == [0x7c, 0xb7, 0x93, 0x8d];
    assert Bytes4(W(0x312f5a52)) == [0x52, 0x5a, 0x2f, 0x31];
    assert Bytes4(W(0xd061f1aa)) == [0xaa, 0xf1, 0x61, 0xd0];
    DigestIs(W(0x7d696bf9), W(0x8d93b77c), W(0x312f5a52), W(0xd061f1aa));
  }

}
