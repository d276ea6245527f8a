/** The known answer of SHA-256 for "abc", step by step. */
module Sha256Known {
  import opened Common
  import opened Sha256

  // ---------------------------------------------------------------- the functions of section 4.1.2 of FIPS 180-4

  /** Each bit of Ch is that of y or of z, as x says. */
  lemma ChSelects(x: bv32, y: bv32, z: bv32) ensures Ch(W(x), W(y), W(z)).v == (x & y) | (!x & z) {}

  /** Each bit of Maj is that of most of the three. */
  lemma MajDecides(x: bv32, y: bv32, z: bv32) ensures Maj(W(x), W(y), W(z)).v == (x & y) | (z & (x | y)) {}

  // ---------------------------------------------------------------- one step

  /** The eight registers. */
  datatype Eight = Eight(a: Word, b: Word, c: Word, d: Word, e: Word, f: Word, g: Word, h: Word)

  function Listed(r: Eight): Registers { [r.a, r.b, r.c, r.d, r.e, r.f, r.g, r.h] }

  /** One round: its constant, its schedule word, the values of the four functions, the first temporary word, and the
      new first and fifth register. */
  lemma Next(t: nat, r: Eight, k: Word, w: Word, s1: Word, ch: Word, s0: Word, maj: Word, t1: Word, a: Word, e: Word,
             b: Block)
    requires t < 64 && Constant(t) == k && Schedule(b, t) == w && Rounds(Initial, b, t) == Listed(r)
    requires BigSigma1(r.e) == s1 && Ch(r.e, r.f, r.g) == ch && BigSigma0(r.a) == s0 && Maj(r.a, r.b, r.c) == maj
    requires Plus(Plus(Plus(Plus(r.h, s1), ch), k), w) == t1
    requires Plus(t1, Plus(s0, maj)) == a && Plus(r.d, t1) == e
    ensures Rounds(Initial, b, t + 1) == Listed(Eight(a, r.a, r.b, r.c, e, r.e, r.f, r.g))
  {
    hide Plus, BigSigma0, BigSigma1, Ch, Maj, Constant, Schedule;
  }

  /** One schedule word from four earlier ones. */
  lemma NextWord(b: Block, t: nat, w2: Word, w7: Word, w15: Word, w16: Word, w: Word)
    requires 16 <= t < 64
    requires Schedule(b, t - 2) == w2 && Schedule(b, t - 7) == w7
    requires Schedule(b, t - 15) == w15 && Schedule(b, t - 16) == w16
    requires Plus(Plus(Plus(SmallSigma1(w2), w7), SmallSigma0(w15)), w16) == w
    ensures Schedule(b, t) == w
  {
    hide Plus, SmallSigma0, SmallSigma1, Schedule;
    LaterSchedule(b, t);
  }

  lemma Constants0()
    ensures Constant(0) == W(0x428a2f98) && Constant(1) == W(0x71374491)
    ensures Constant(2) == W(0xb5c0fbcf) && Constant(3) == W(0xe9b5dba5)
    ensures Constant(4) == W(0x3956c25b) && Constant(5) == W(0x59f111f1)
    ensures Constant(6) == W(0x923f82a4) && Constant(7) == W(0xab1c5ed5)
  {}

  lemma Constants8()
    ensures Constant(8) == W(0xd807aa98) && Constant(9) == W(0x12835b01)
    ensures Constant(10) == W(0x243185be) && Constant(11) == W(0x550c7dc3)
    ensures Constant(12) == W(0x72be5d74) && Constant(13) == W(0x80deb1fe)
    ensures Constant(14) == W(0x9bdc06a7) && Constant(15) == W(0xc19bf174)
  {}

  lemma Constants16()
    ensures Constant(16) == W(0xe49b69c1) && Constant(17) == W(0xefbe4786)
    ensures Constant(18) == W(0x0fc19dc6) && Constant(19) == W(0x240ca1cc)
    ensures Constant(20) == W(0x2de92c6f) && Constant(21) == W(0x4a7484aa)
    ensures Constant(22) == W(0x5cb0a9dc) && Constant(23) == W(0x76f988da)
  {}

  lemma Constants24()
    ensures Constant(24) == W(0x983e5152) && Constant(25) == W(0xa831c66d)
    ensures Constant(26) == W(0xb00327c8) && Constant(27) == W(0xbf597fc7)
    ensures Constant(28) == W(0xc6e00bf3) && Constant(29) == W(0xd5a79147)
    ensures Constant(30) == W(0x06ca6351) && Constant(31) == W(0x14292967)
  {}

  lemma Constants32()
    ensures Constant(32) == W(0x27b70a85) && Constant(33) == W(0x2e1b2138)
    ensures Constant(34) == W(0x4d2c6dfc) && Constant(35) == W(0x53380d13)
    ensures Constant(36) == W(0x650a7354) && Constant(37) == W(0x766a0abb)
    ensures Constant(38) == W(0x81c2c92e) && Constant(39) == W(0x92722c85)
  {}

  lemma Constants40()
    ensures Constant(40) == W(0xa2bfe8a1) && Constant(41) == W(0xa81a664b)
    ensures Constant(42) == W(0xc24b8b70) && Constant(43) == W(0xc76c51a3)
    ensures Constant(44) == W(0xd192e819) && Constant(45) == W(0xd6990624)
    ensures Constant(46) == W(0xf40e3585) && Constant(47) == W(0x106aa070)
  {}

  lemma Constants48()
    ensures Constant(48) == W(0x19a4c116) && Constant(49) == W(0x1e376c08)
    ensures Constant(50) == W(0x2748774c) && Constant(51) == W(0x34b0bcb5)
    ensures Constant(52) == W(0x391c0cb3) && Constant(53) == W(0x4ed8aa4a)
    ensures Constant(54) == W(0x5b9cca4f) && Constant(55) == W(0x682e6ff3)
  {}

  lemma Constants56()
    ensures Constant(56) == W(0x748f82ee) && Constant(57) == W(0x78a5636f)
    ensures Constant(58) == W(0x84c87814) && Constant(59) == W(0x8cc70208)
    ensures Constant(60) == W(0x90befffa) && Constant(61) == W(0xa4506ceb)
    ensures Constant(62) == W(0xbef9a3f7) && Constant(63) == W(0xc67178f2)
  {}

  // ---------------------------------------------------------------- "abc"

  const Abc: seq<bv8> := [0x61, 0x62, 0x63]

  function AbcBlock(): (b: Block)
    ensures forall i :: 0 <= i < 64 ==>
      b[i] == if i < 3 then Abc[i] else if i == 3 then 0x80 else if i == 63 then 0x18 else 0
  {
    Abc + [0x80] + Zeros(59) + [0x18]
  }

  /** The block is the padded message. */
  lemma AbcPadded()
    ensures Padded(Abc) == AbcBlock()
  {
    hide LengthByte;
    assert (119 - |Abc| % 64) % 64 == 52;
    assert |Padded(Abc)| == 64;
    forall i | 0 <= i < 64
      ensures Padded(Abc)[i] == AbcBlock()[i]
    {
      if i >= 56 {
        SmallLength(24, 63 - i);
      }
    }
  }

  lemma LoadZero(b: Block, t: nat)
    requires t < 16 && b[4 * t] == 0 && b[4 * t + 1] == 0 && b[4 * t + 2] == 0 && b[4 * t + 3] == 0
    ensures Schedule(b, t) == W(0)
  {}

  lemma Words0(b: Block)
    requires b == AbcBlock()
    ensures Schedule(b, 0) == W(0x61626380) && Schedule(b, 1) == W(0) && Schedule(b, 2) == W(0) && Schedule(b, 3) == W(0)
    ensures Schedule(b, 4) == W(0) && Schedule(b, 5) == W(0) && Schedule(b, 6) == W(0) && Schedule(b, 7) == W(0)
    ensures Schedule(b, 8) == W(0) && Schedule(b, 9) == W(0) && Schedule(b, 10) == W(0) && Schedule(b, 11) == W(0)
    ensures Schedule(b, 12) == W(0) && Schedule(b, 13) == W(0) && Schedule(b, 14) == W(0) && Schedule(b, 15) == W(0x00000018)
  {
    hide AbcBlock, Schedule, Load;
    FirstWords(b);
    LoadZero(b, 1);
    LoadZero(b, 2);
    LoadZero(b, 3);
    LoadZero(b, 4);
    LoadZero(b, 5);
    LoadZero(b, 6);
    LoadZero(b, 7);
    LoadZero(b, 8);
    LoadZero(b, 9);
    LoadZero(b, 10);
    LoadZero(b, 11);
    LoadZero(b, 12);
    LoadZero(b, 13);
    LoadZero(b, 14);
  }

  lemma FirstWords(b: Block)
    requires b[0] == 0x61 && b[1] == 0x62 && b[2] == 0x63 && b[3] == 0x80
    requires b[60] == 0 && b[61] == 0 && b[62] == 0 && b[63] == 0x18
    ensures Schedule(b, 0) == W(0x61626380) && Schedule(b, 15) == W(0x00000018)
  {}

  lemma Words16(b: Block)
    requires Schedule(b, 0) == W(0x61626380) && Schedule(b, 1) == W(0) && Schedule(b, 2) == W(0) && Schedule(b, 3) == W(0)
    requires Schedule(b, 4) == W(0) && Schedule(b, 5) == W(0) && Schedule(b, 6) == W(0) && Schedule(b, 7) == W(0)
    requires Schedule(b, 8) == W(0) && Schedule(b, 9) == W(0) && Schedule(b, 10) == W(0) && Schedule(b, 11) == W(0)
    requires Schedule(b, 12) == W(0) && Schedule(b, 13) == W(0) && Schedule(b, 14) == W(0) && Schedule(b, 15) == W(0x00000018)
    ensures Schedule(b, 16) == W(0x61626380) && Schedule(b, 17) == W(0x000f0000)
    ensures Schedule(b, 18) == W(0x7da86405) && Schedule(b, 19) == W(0x600003c6)
    ensures Schedule(b, 20) == W(0x3e9d7b78) && Schedule(b, 21) == W(0x0183fc00)
    ensures Schedule(b, 22) == W(0x12dcbfdb) && Schedule(b, 23) == W(0xe2e2c38e)
  {
    hide Schedule;
    NextWord(b, 16, W(0), W(0), W(0), W(0x61626380), W(0x61626380));
    NextWord(b, 17, W(0x00000018), W(0), W(0), W(0), W(0x000f0000));
    NextWord(b, 18, W(0x61626380), W(0), W(0), W(0), W(0x7da86405));
    NextWord(b, 19, W(0x000f0000), W(0), W(0), W(0), W(0x600003c6));
    NextWord(b, 20, W(0x7da86405), W(0), W(0), W(0), W(0x3e9d7b78));
    NextWord(b, 21, W(0x600003c6), W(0), W(0), W(0), W(0x0183fc00));
    NextWord(b, 22, W(0x3e9d7b78), W(0x00000018), W(0), W(0), W(0x12dcbfdb));
    NextWord(b, 23, W(0x0183fc00), W(0x61626380), W(0), W(0), W(0xe2e2c38e));
  }

  lemma Words24(b: Block)
    requires Schedule(b, 8) == W(0) && Schedule(b, 9) == W(0) && Schedule(b, 10) == W(0) && Schedule(b, 11) == W(0)
    requires Schedule(b, 12) == W(0) && Schedule(b, 13) == W(0) && Schedule(b, 14) == W(0) && Schedule(b, 15) == W(0x00000018)
    requires Schedule(b, 16) == W(0x61626380) && Schedule(b, 17) == W(0x000f0000) && Schedule(b, 18) == W(0x7da86405) && Schedule(b, 19) == W(0x600003c6)
    requires Schedule(b, 20) == W(0x3e9d7b78) && Schedule(b, 21) == W(0x0183fc00) && Schedule(b, 22) == W(0x12dcbfdb) && Schedule(b, 23) == W(0xe2e2c38e)
    ensures Schedule(b, 24) == W(0xc8215c1a) && Schedule(b, 25) == W(0xb73679a2)
    ensures Schedule(b, 26) == W(0xe5bc3909) && Schedule(b, 27) == W(0x32663c5b)
    ensures Schedule(b, 28) == W(0x9d209d67) && Schedule(b, 29) == W(0xec8726cb)
    ensures Schedule(b, 30) == W(0x702138a4) && Schedule(b, 31) == W(0xd3b7973b)
  {
    hide Schedule;
    NextWord(b, 24, W(0x12dcbfdb), W(0x000f0000), W(0), W(0), W(0xc8215c1a));
    NextWord(b, 25, W(0xe2e2c38e), W(0x7da86405), W(0), W(0), W(0xb73679a2));
    NextWord(b, 26, W(0xc8215c1a), W(0x600003c6), W(0), W(0), W(0xe5bc3909));
    NextWord(b, 27, W(0xb73679a2), W(0x3e9d7b78), W(0), W(0), W(0x32663c5b));
    NextWord(b, 28, W(0xe5bc3909), W(0x0183fc00), W(0), W(0), W(0x9d209d67));
    NextWord(b, 29, W(0x32663c5b), W(0x12dcbfdb), W(0), W(0), W(0xec8726cb));
    NextWord(b, 30, W(0x9d209d67), W(0xe2e2c38e), W(0x00000018), W(0), W(0x702138a4));
    NextWord(b, 31, W(0xec8726cb), W(0xc8215c1a), W(0x61626380), W(0x00000018), W(0xd3b7973b));
  }

  lemma Words32(b: Block)
    requires Schedule(b, 16) == W(0x61626380) && Schedule(b, 17) == W(0x000f0000) && Schedule(b, 18) == W(0x7da86405) && Schedule(b, 19) == W(0x600003c6)
    requires Schedule(b, 20) == W(0x3e9d7b78) && Schedule(b, 21) == W(0x0183fc00) && Schedule(b, 22) == W(0x12dcbfdb) && Schedule(b, 23) == W(0xe2e2c38e)
    requires Schedule(b, 24) == W(0xc8215c1a) && Schedule(b, 25) == W(0xb73679a2) && Schedule(b, 26) == W(0xe5bc3909) && Schedule(b, 27) == W(0x32663c5b)
    requires Schedule(b, 28) == W(0x9d209d67) && Schedule(b, 29) == W(0xec8726cb) && Schedule(b, 30) == W(0x702138a4) && Schedule(b, 31) == W(0xd3b7973b)
    ensures Schedule(b, 32) == W(0x93f5997f) && Schedule(b, 33) == W(0x3b68ba73)
    ensures Schedule(b, 34) == W(0xaff4ffc1) && Schedule(b, 35) == W(0xf10a5c62)
    ensures Schedule(b, 36) == W(0x0a8b3996) && Schedule(b, 37) == W(0x72af830a)
    ensures Schedule(b, 38) == W(0x9409e33e) && Schedule(b, 39) == W(0x24641522)
  {
    hide Schedule;
    NextWord(b, 32, W(0x702138a4), W(0xb73679a2), W(0x000f0000), W(0x61626380), W(0x93f5997f));
    NextWord(b, 33, W(0xd3b7973b), W(0xe5bc3909), W(0x7da86405), W(0x000f0000), W(0x3b68ba73));
    NextWord(b, 34, W(0x93f5997f), W(0x32663c5b), W(0x600003c6), W(0x7da86405), W(0xaff4ffc1));
    NextWord(b, 35, W(0x3b68ba73), W(0x9d209d67), W(0x3e9d7b78), W(0x600003c6), W(0xf10a5c62));
    NextWord(b, 36, W(0xaff4ffc1), W(0xec8726cb), W(0x0183fc00), W(0x3e9d7b78), W(0x0a8b3996));
    NextWord(b, 37, W(0xf10a5c62), W(0x702138a4), W(0x12dcbfdb), W(0x0183fc00), W(0x72af830a));
    NextWord(b, 38, W(0x0a8b3996), W(0xd3b7973b), W(0xe2e2c38e), W(0x12dcbfdb), W(0x9409e33e));
    NextWord(b, 39, W(0x72af830a), W(0x93f5997f), W(0xc8215c1a), W(0xe2e2c38e), W(0x24641522));
  }

  lemma Words40(b: Block)
    requires Schedule(b, 24) == W(0xc8215c1a) && Schedule(b, 25) == W(0xb73679a2) && Schedule(b, 26) == W(0xe5bc3909) && Schedule(b, 27) == W(0x32663c5b)
    requires Schedule(b, 28) == W(0x9d209d67) && Schedule(b, 29) == W(0xec8726cb) && Schedule(b, 30) == W(0x702138a4) && Schedule(b, 31) == W(0xd3b7973b)
    requires Schedule(b, 32) == W(0x93f5997f) && Schedule(b, 33) == W(0x3b68ba73) && Schedule(b, 34) == W(0xaff4ffc1) && Schedule(b, 35) == W(0xf10a5c62)
    requires Schedule(b, 36) == W(0x0a8b3996) && Schedule(b, 37) == W(0x72af830a) && Schedule(b, 38) == W(0x9409e33e) && Schedule(b, 39) == W(0x24641522)
    ensures Schedule(b, 40) == W(0x9f47bf94) && Schedule(b, 41) == W(0xf0a64f5a)
    ensures Schedule(b, 42) == W(0x3e246a79) && Schedule(b, 43) == W(0x27333ba3)
    ensures Schedule(b, 44) == W(0x0c4763f2) && Schedule(b, 45) == W(0x840abf27)
    ensures Schedule(b, 46) == W(0x7a290d5d) && Schedule(b, 47) == W(0x065c43da)
  {
    hide Schedule;
    NextWord(b, 40, W(0x9409e33e), W(0x3b68ba73), W(0xb73679a2), W(0xc8215c1a), W(0x9f47bf94));
    NextWord(b, 41, W(0x24641522), W(0xaff4ffc1), W(0xe5bc3909), W(0xb73679a2), W(0xf0a64f5a));
    NextWord(b, 42, W(0x9f47bf94), W(0xf10a5c62), W(0x32663c5b), W(0xe5bc3909), W(0x3e246a79));
    NextWord(b, 43, W(0xf0a64f5a), W(0x0a8b3996), W(0x9d209d67), W(0x32663c5b), W(0x27333ba3));
    NextWord(b, 44, W(0x3e246a79), W(0x72af830a), W(0xec8726cb), W(0x9d209d67), W(0x0c4763f2));
    NextWord(b, 45, W(0x27333ba3), W(0x9409e33e), W(0x702138a4), W(0xec8726cb), W(0x840abf27));
    NextWord(b, 46, W(0x0c4763f2), W(0x24641522), W(0xd3b7973b), W(0x702138a4), W(0x7a290d5d));
    NextWord(b, 47, W(0x840abf27), W(0x9f47bf94), W(0x93f5997f), W(0xd3b7973b), W(0x065c43da));
  }

  lemma Words48(b: Block)
    requires Schedule(b, 32) == W(0x93f5997f) && Schedule(b, 33) == W(0x3b68ba73) && Schedule(b, 34) == W(0xaff4ffc1) && Schedule(b, 35) == W(0xf10a5c62)
    requires Schedule(b, 36) == W(0x0a8b3996) && Schedule(b, 37) == W(0x72af830a) && Schedule(b, 38) == W(0x9409e33e) && Schedule(b, 39) == W(0x24641522)
    requires Schedule(b, 40) == W(0x9f47bf94) && Schedule(b, 41) == W(0xf0a64f5a) && Schedule(b, 42) == W(0x3e246a79) && Schedule(b, 43) == W(0x27333ba3)
    requires Schedule(b, 44) == W(0x0c4763f2) && Schedule(b, 45) == W(0x840abf27) && Schedule(b, 46) == W(0x7a290d5d) && Schedule(b, 47) == W(0x065c43da)
    ensures Schedule(b, 48) == W(0xfb3e89cb) && Schedule(b, 49) == W(0xcc7617db)
    ensures Schedule(b, 50) == W(0xb9e66c34) && Schedule(b, 51) == W(0xa9993667)
    ensures Schedule(b, 52) == W(0x84badedd) && Schedule(b, 53) == W(0xc21462bc)
    ensures Schedule(b, 54) == W(0x1487472c) && Schedule(b, 55) == W(0xb20f7a99)
  {
    hide Schedule;
    NextWord(b, 48, W(0x7a290d5d), W(0xf0a64f5a), W(0x3b68ba73), W(0x93f5997f), W(0xfb3e89cb));
    NextWord(b, 49, W(0x065c43da), W(0x3e246a79), W(0xaff4ffc1), W(0x3b68ba73), W(0xcc7617db));
    NextWord(b, 50, W(0xfb3e89cb), W(0x27333ba3), W(0xf10a5c62), W(0xaff4ffc1), W(0xb9e66c34));
    NextWord(b, 51, W(0xcc7617db), W(0x0c4763f2), W(0x0a8b3996), W(0xf10a5c62), W(0xa9993667));
    NextWord(b, 52, W(0xb9e66c34), W(0x840abf27), W(0x72af830a), W(0x0a8b3996), W(0x84badedd));
    NextWord(b, 53, W(0xa9993667), W(0x7a290d5d), W(0x9409e33e), W(0x72af830a), W(0xc21462bc));
    NextWord(b, 54, W(0x84badedd), W(0x065c43da), W(0x24641522), W(0x9409e33e), W(0x1487472c));
    NextWord(b, 55, W(0xc21462bc), W(0xfb3e89cb), W(0x9f47bf94), W(0x24641522), W(0xb20f7a99));
  }

  lemma Words56(b: Block)
    requires Schedule(b, 40) == W(0x9f47bf94) && Schedule(b, 41) == W(0xf0a64f5a) && Schedule(b, 42) == W(0x3e246a79) && Schedule(b, 43) == W(0x27333ba3)
    requires Schedule(b, 44) == W(0x0c4763f2) && Schedule(b, 45) == W(0x840abf27) && Schedule(b, 46) == W(0x7a290d5d) && Schedule(b, 47) == W(0x065c43da)
    requires Schedule(b, 48) == W(0xfb3e89cb) && Schedule(b, 49) == W(0xcc7617db) && Schedule(b, 50) == W(0xb9e66c34) && Schedule(b, 51) == W(0xa9993667)
    requires Schedule(b, 52) == W(0x84badedd) && Schedule(b, 53) == W(0xc21462bc) && Schedule(b, 54) == W(0x1487472c) && Schedule(b, 55) == W(0xb20f7a99)
    ensures Schedule(b, 56) == W(0xef57b9cd) && Schedule(b, 57) == W(0xebe6b238)
    ensures Schedule(b, 58) == W(0x9fe3095e) && Schedule(b, 59) == W(0x78bc8d4b)
    ensures Schedule(b, 60) == W(0xa43fcf15) && Schedule(b, 61) == W(0x668b2ff8)
    ensures Schedule(b, 62) == W(0xeeaba2cc) && Schedule(b, 63) == W(0x12b1edeb)
  {
    hide Schedule;
    NextWord(b, 56, W(0x1487472c), W(0xcc7617db), W(0xf0a64f5a), W(0x9f47bf94), W(0xef57b9cd));
    NextWord(b, 57, W(0xb20f7a99), W(0xb9e66c34), W(0x3e246a79), W(0xf0a64f5a), W(0xebe6b238));
    NextWord(b, 58, W(0xef57b9cd), W(0xa9993667), W(0x27333ba3), W(0x3e246a79), W(0x9fe3095e));
    NextWord(b, 59, W(0xebe6b238), W(0x84badedd), W(0x0c4763f2), W(0x27333ba3), W(0x78bc8d4b));
    NextWord(b, 60, W(0x9fe3095e), W(0xc21462bc), W(0x840abf27), W(0x0c4763f2), W(0xa43fcf15));
    NextWord(b, 61, W(0x78bc8d4b), W(0x1487472c), W(0x7a290d5d), W(0x840abf27), W(0x668b2ff8));
    NextWord(b, 62, W(0xa43fcf15), W(0xb20f7a99), W(0x065c43da), W(0x7a290d5d), W(0xeeaba2cc));
    NextWord(b, 63, W(0x668b2ff8), W(0xef57b9cd), W(0xfb3e89cb), W(0x065c43da), W(0x12b1edeb));
  }

  lemma Rounds0(b: Block)
    requires Schedule(b, 0) == W(0x61626380) && Schedule(b, 1) == W(0) && Schedule(b, 2) == W(0) && Schedule(b, 3) == W(0)
    requires Rounds(Initial, b, 0)
      == Listed(Eight(W(0x6a09e667), W(0xbb67ae85), W(0x3c6ef372), W(0xa54ff53a), W(0x510e527f), W(0x9b05688c), W(0x1f83d9ab), W(0x5be0cd19)))
    ensures Rounds(Initial, b, 4)
      == Listed(Eight(W(0xd550f666), W(0xc8c347a7), W(0x5a6ad9ad), W(0x5d6aebcd), W(0x24e00850), W(0xf92939eb), W(0x78ce7989), W(0xfa2a4622)))
  {
    hide Schedule, Rounds, Constant, Listed;
    Constants0();
    Next(0, Eight(W(0x6a09e667), W(0xbb67ae85), W(0x3c6ef372), W(0xa54ff53a), W(0x510e527f), W(0x9b05688c), W(0x1f83d9ab), W(0x5be0cd19)),
         W(0x428a2f98), W(0x61626380), W(0x3587272b), W(0x1f85c98c), W(0xce20b47e), W(0x3a6fe667),
         W(0x54da50e8), W(0x5d6aebcd), W(0xfa2a4622), b);
    Next(1, Eight(W(0x5d6aebcd), W(0x6a09e667), W(0xbb67ae85), W(0x3c6ef372), W(0xfa2a4622), W(0x510e527f), W(0x9b05688c), W(0x1f83d9ab)),
         W(0x71374491), W(0), W(0x5a94fd2d), W(0x510f6aae), W(0xa29f64d1), W(0x7b6beec5),
         W(0x3c5f8617), W(0x5a6ad9ad), W(0x78ce7989), b);
    Next(2, Eight(W(0x5a6ad9ad), W(0x5d6aebcd), W(0x6a09e667), W(0xbb67ae85), W(0x78ce7989), W(0xfa2a4622), W(0x510e527f), W(0x9b05688c)),
         W(0xb5c0fbcf), W(0), W(0x73f0e495), W(0x790a4276), W(0x3096d054), W(0x5a6aebed),
         W(0x3dc18b66), W(0xc8c347a7), W(0xf92939eb), b);
    Next(3, Eight(W(0xc8c347a7), W(0x5a6ad9ad), W(0x5d6aebcd), W(0x6a09e667), W(0xf92939eb), W(0x78ce7989), W(0xfa2a4622), W(0x510e527f)),
         W(0xe9b5dba5), W(0), W(0x0607743c), W(0x7a0a7f89), W(0xc21008d0), W(0x586acbad),
         W(0xbad621e9), W(0xd550f666), W(0x24e00850), b);
  }

  lemma Rounds4(b: Block)
    requires Schedule(b, 4) == W(0) && Schedule(b, 5) == W(0) && Schedule(b, 6) == W(0) && Schedule(b, 7) == W(0)
    requires Rounds(Initial, b, 4)
      == Listed(Eight(W(0xd550f666), W(0xc8c347a7), W(0x5a6ad9ad), W(0x5d6aebcd), W(0x24e00850), W(0xf92939eb), W(0x78ce7989), W(0xfa2a4622)))
    ensures Rounds(Initial, b, 8)
      == Listed(Eight(W(0x85a07b5f), W(0xe5030380), W(0x2b4209f5), W(0x04409a6a), W(0x0c657a79), W(0x9b27a401), W(0x714260ad), W(0x43ada245)))
  {
    hide Schedule, Rounds, Constant, Listed;
    Constants0();
    Next(4, Eight(W(0xd550f666), W(0xc8c347a7), W(0x5a6ad9ad), W(0x5d6aebcd), W(0x24e00850), W(0xf92939eb), W(0x78ce7989), W(0xfa2a4622)),
         W(0x3956c25b), W(0), W(0x3a933432), W(0x782e79c9), W(0x45bb0c4b), W(0xd842d7a7),
         W(0xe642b678), W(0x04409a6a), W(0x43ada245), b);
    Next(5, Eight(W(0x04409a6a), W(0xd550f666), W(0xc8c347a7), W(0x5a6ad9ad), W(0x43ada245), W(0x24e00850), W(0xf92939eb), W(0x78ce7989)),
         W(0x59f111f1), W(0), W(0x8b77e19c), W(0xb8a019ea), W(0x5029ac8f), W(0xc440d666),
         W(0x16d78700), W(0x2b4209f5), W(0x714260ad), b);
    Next(6, Eight(W(0x2b4209f5), W(0x04409a6a), W(0xd550f666), W(0xc8c347a7), W(0x714260ad), W(0x43ada245), W(0x24e00850), W(0xf92939eb)),
         W(0x923f82a4), W(0), W(0x015b7776), W(0x45a02855), W(0x0d5e0cc0), W(0x05409a66),
         W(0xd2645c5a), W(0xe5030380), W(0x9b27a401), b);
    Next(7, Eight(W(0xe5030380), W(0x2b4209f5), W(0x04409a6a), W(0xd550f666), W(0x9b27a401), W(0x714260ad), W(0x43ada245), W(0x24e00850)),
         W(0xab1c5ed5), W(0), W(0x158dfaa9), W(0x518a2245), W(0x2949eb6c), W(0x25420be0),
         W(0x37148413), W(0x85a07b5f), W(0x0c657a79), b);
  }

  lemma Rounds8(b: Block)
    requires Schedule(b, 8) == W(0) && Schedule(b, 9) == W(0) && Schedule(b, 10) == W(0) && Schedule(b, 11) == W(0)
    requires Rounds(Initial, b, 8)
      == Listed(Eight(W(0x85a07b5f), W(0xe5030380), W(0x2b4209f5), W(0x04409a6a), W(0x0c657a79), W(0x9b27a401), W(0x714260ad), W(0x43ada245)))
    ensures Rounds(Initial, b, 12)
      == Listed(Eight(W(0xf71fc5a9), W(0x4798a3f4), W(0x8c87346b), W(0x8e04ecb9), W(0x816fd6e9), W(0x436b23e8), W(0x1cc92596), W(0x32ca2d8c)))
  {
    hide Schedule, Rounds, Constant, Listed;
    Constants8();
    Next(8, Eight(W(0x85a07b5f), W(0xe5030380), W(0x2b4209f5), W(0x04409a6a), W(0x0c657a79), W(0x9b27a401), W(0x714260ad), W(0x43ada245)),
         W(0xd807aa98), W(0), W(0x99ad25c0), W(0x79272085), W(0xba794dc2), W(0xa5020bd5),
         W(0x2e899322), W(0x8e04ecb9), W(0x32ca2d8c), b);
    Next(9, Eight(W(0x8e04ecb9), W(0x85a07b5f), W(0xe5030380), W(0x2b4209f5), W(0x32ca2d8c), W(0x0c657a79), W(0x9b27a401), W(0x714260ad)),
         W(0x12835b01), W(0), W(0xe45bb7ea), W(0x8965a809), W(0x15ffad31), W(0x85006b99),
         W(0xf1871ba1), W(0x8c87346b), W(0x1cc92596), b);
    Next(10, Eight(W(0x8c87346b), W(0x8e04ecb9), W(0x85a07b5f), W(0xe5030380), W(0x1cc92596), W(0x32ca2d8c), W(0x0c657a79), W(0x9b27a401)),
         W(0x243185be), W(0), W(0x8e2276bc), W(0x10ec7fed), W(0x5cac0711), W(0x8c847c7b),
         W(0x5e682068), W(0x4798a3f4), W(0x436b23e8), b);
    Next(11, Eight(W(0x4798a3f4), W(0x8c87346b), W(0x8e04ecb9), W(0x85a07b5f), W(0x436b23e8), W(0x1cc92596), W(0x32ca2d8c), W(0x0c657a79)),
         W(0x550c7dc3), W(0), W(0x699435ca), W(0x30c92d84), W(0x6ccbc526), W(0x8e84a4f9),
         W(0xfbcf5b8a), W(0xf71fc5a9), W(0x816fd6e9), b);
  }

  lemma Rounds12(b: Block)
    requires Schedule(b, 12) == W(0) && Schedule(b, 13) == W(0) && Schedule(b, 14) == W(0) && Schedule(b, 15) == W(0x00000018)
    requires Rounds(Initial, b, 12)
      == Listed(Eight(W(0xf71fc5a9), W(0x4798a3f4), W(0x8c87346b), W(0x8e04ecb9), W(0x816fd6e9), W(0x436b23e8), W(0x1cc92596), W(0x32ca2d8c)))
    ensures Rounds(Initial, b, 16)
      == Listed(Eight(W(0xb0fa238e), W(0xc0645fde), W(0xd932eb16), W(0x87912990), W(0x07590dcd), W(0x0b92f20c), W(0x745a48de), W(0x1e578218)))
  {
    hide Schedule, Rounds, Constant, Listed;
    Constants8();
    Next(12, Eight(W(0xf71fc5a9), W(0x4798a3f4), W(0x8c87346b), W(0x8e04ecb9), W(0x816fd6e9), W(0x436b23e8), W(0x1cc92596), W(0x32ca2d8c)),
         W(0x72be5d74), W(0), W(0xccdee661), W(0x1deb23fe), W(0x2f9eee48), W(0xc79fa5e9),
         W(0x9052955f), W(0x87912990), W(0x1e578218), b);
    Next(13, Eight(W(0x87912990), W(0xf71fc5a9), W(0x4798a3f4), W(0x8c87346b), W(0x1e578218), W(0x816fd6e9), W(0x436b23e8), W(0x1cc92596)),
         W(0x80deb1fe), W(0), W(0x08bb98f7), W(0x416fa3e8), W(0x29c634f3), W(0xc799a1b0),
         W(0xe7d31473), W(0xd932eb16), W(0x745a48de), b);
    Next(14, Eight(W(0xd932eb16), W(0x87912990), W(0xf71fc5a9), W(0x4798a3f4), W(0x745a48de), W(0x1e578218), W(0x816fd6e9), W(0x436b23e8)),
         W(0x9bdc06a7), W(0), W(0x4f3b8d50), W(0x95779639), W(0x25562836), W(0xd713e990),
         W(0xc3fa4e18), W(0xc0645fde), W(0x0b92f20c), b);
    Next(15, Eight(W(0xc0645fde), W(0xd932eb16), W(0x87912990), W(0xf71fc5a9), W(0x0b92f20c), W(0x745a48de), W(0x1e578218), W(0x816fd6e9)),
         W(0xc19bf174), W(0x00000018), W(0xb8d63f93), W(0x1457401c), W(0xdf906fd4), W(0xc1306b96),
         W(0x10394824), W(0xb0fa238e), W(0x07590dcd), b);
  }

  lemma Rounds16(b: Block)
    requires Schedule(b, 16) == W(0x61626380) && Schedule(b, 17) == W(0x000f0000) && Schedule(b, 18) == W(0x7da86405) && Schedule(b, 19) == W(0x600003c6)
    requires Rounds(Initial, b, 16)
      == Listed(Eight(W(0xb0fa238e), W(0xc0645fde), W(0xd932eb16), W(0x87912990), W(0x07590dcd), W(0x0b92f20c), W(0x745a48de), W(0x1e578218)))
    ensures Rounds(Initial, b, 20)
      == Listed(Eight(W(0xe1f20c33), W(0xfe777bbf), W(0xc2fbd9d1), W(0x21da9a9b), W(0xb0638179), W(0xcc899961), W(0x846ee454), W(0x8034229c)))
  {
    hide Schedule, Rounds, Constant, Listed;
    Constants16();
    Next(16, Eight(W(0xb0fa238e), W(0xc0645fde), W(0xd932eb16), W(0x87912990), W(0x07590dcd), W(0x0b92f20c), W(0x745a48de), W(0x1e578218)),
         W(0xe49b69c1), W(0x61626380), W(0x213b6995), W(0x7312401e), W(0x58c535f1), W(0xd0726b9e),
         W(0xf8a2f90c), W(0x21da9a9b), W(0x8034229c), b);
    Next(17, Eight(W(0x21da9a9b), W(0xb0fa238e), W(0xc0645fde), W(0xd932eb16), W(0x8034229c), W(0x07590dcd), W(0x0b92f20c), W(0x745a48de)),
         W(0xefbe4786), W(0x000f0000), W(0x3b81984e), W(0x0b92d08c), W(0x76c5c4f5), W(0xa0fa1b9e),
         W(0xab3bf93e), W(0xc2fbd9d1), W(0x846ee454), b);
    Next(18, Eight(W(0xc2fbd9d1), W(0x21da9a9b), W(0xb0fa238e), W(0xc0645fde), W(0x846ee454), W(0x8034229c), W(0x07590dcd), W(0x0b92f20c)),
         W(0x0fc19dc6), W(0x7da86405), W(0xeff31c0f), W(0x8335299d), W(0x5157a6a1), W(0xa0fa9b9b),
         W(0x0c253983), W(0xfe777bbf), W(0xcc899961), b);
    Next(19, Eight(W(0xfe777bbf), W(0xc2fbd9d1), W(0x21da9a9b), W(0xb0fa238e), W(0xcc899961), W(0x846ee454), W(0x8034229c), W(0x07590dcd)),
         W(0x240ca1cc), W(0x600003c6), W(0xefc707b0), W(0x843ca2dc), W(0xff8cd2ad), W(0xe2fbdb9b),
         W(0xff695deb), W(0xe1f20c33), W(0xb0638179), b);
  }

  lemma Rounds20(b: Block)
    requires Schedule(b, 20) == W(0x3e9d7b78) && Schedule(b, 21) == W(0x0183fc00) && Schedule(b, 22) == W(0x12dcbfdb) && Schedule(b, 23) == W(0xe2e2c38e)
    requires Rounds(Initial, b, 20)
      == Listed(Eight(W(0xe1f20c33), W(0xfe777bbf), W(0xc2fbd9d1), W(0x21da9a9b), W(0xb0638179), W(0xcc899961), W(0x846ee454), W(0x8034229c)))
    ensures Rounds(Initial, b, 24)
      == Listed(Eight(W(0xc5d53d8d), W(0xa7a3623f), W(0xc2606d6d), W(0x9dc68b63), W(0xaa47c347), W(0x49f5114a), W(0xe1257970), W(0x8ada8930)))
  {
    hide Schedule, Rounds, Constant, Listed;
    Constants16();
    Next(20, Eight(W(0xe1f20c33), W(0xfe777bbf), W(0xc2fbd9d1), W(0x21da9a9b), W(0xb0638179), W(0xcc899961), W(0x846ee454), W(0x8034229c)),
         W(0x2de92c6f), W(0x3e9d7b78), W(0xf8373ead), W(0x840de565), W(0x51d3431b), W(0xe2f359b3),
         W(0x68ffee95), W(0x9dc68b63), W(0x8ada8930), b);
    Next(21, Eight(W(0x9dc68b63), W(0xe1f20c33), W(0xfe777bbf), W(0xc2fbd9d1), W(0x8ada8930), W(0xb0638179), W(0xcc899961), W(0x846ee454)),
         W(0x4a7484aa), W(0x0183fc00), W(0x897ea930), W(0xc4439171), W(0xa640c29b), W(0xfdf60b33),
         W(0x1e299f9f), W(0xc2606d6d), W(0xe1257970), b);
    Next(22, Eight(W(0xc2606d6d), W(0x9dc68b63), W(0xe1f20c33), W(0xfe777bbf), W(0xe1257970), W(0x8ada8930), W(0xb0638179), W(0xcc899961)),
         W(0x5cb0a9dc), W(0x12dcbfdb), W(0x7f24093a), W(0x90428939), W(0x9a43bf51), W(0xc1e20d63),
         W(0x4b7d958b), W(0xa7a3623f), W(0x49f5114a), b);
    Next(23, Eight(W(0xa7a3623f), W(0xc2606d6d), W(0x9dc68b63), W(0xe1f20c33), W(0x49f5114a), W(0xe1257970), W(0x8ada8930), W(0xb0638179)),
         W(0x76f988da), W(0xe2e2c38e), W(0xfae64fc3), W(0xc32f9970), W(0x759d1b0a), W(0x87e26b6f),
         W(0xc855b714), W(0xc5d53d8d), W(0xaa47c347), b);
  }

  lemma Rounds24(b: Block)
    requires Schedule(b, 24) == W(0xc8215c1a) && Schedule(b, 25) == W(0xb73679a2) && Schedule(b, 26) == W(0xe5bc3909) && Schedule(b, 27) == W(0x32663c5b)
    requires Rounds(Initial, b, 24)
      == Listed(Eight(W(0xc5d53d8d), W(0xa7a3623f), W(0xc2606d6d), W(0x9dc68b63), W(0xaa47c347), W(0x49f5114a), W(0xe1257970), W(0x8ada8930)))
    ensures Rounds(Initial, b, 28)
      == Listed(Eight(W(0x77d37528), W(0xb62ec4bc), W(0xcde8037d), W(0x1c2c2838), W(0xedffbff8), W(0xc74c6516), W(0x14383d8e), W(0x2823ef91)))
  {
    hide Schedule, Rounds, Constant, Listed;
    Constants24();
    Next(24, Eight(W(0xc5d53d8d), W(0xa7a3623f), W(0xc2606d6d), W(0x9dc68b63), W(0xaa47c347), W(0x49f5114a), W(0xe1257970), W(0x8ada8930)),
         W(0x983e5152), W(0xc8215c1a), W(0x55bdf420), W(0x49653972), W(0xc9ed56dd), W(0xc7e16d2d),
         W(0x8a5d642e), W(0x1c2c2838), W(0x2823ef91), b);
    Next(25, Eight(W(0x1c2c2838), W(0xc5d53d8d), W(0xa7a3623f), W(0xc2606d6d), W(0x2823ef91), W(0xaa47c347), W(0x49f5114a), W(0xe1257970)),
         W(0xa831c66d), W(0xb73679a2), W(0xa7724357), W(0x69d7d34b), W(0xf66b0b1f), W(0x85a5283d),
         W(0x51d7d021), W(0xcde8037d), W(0x14383d8e), b);
    Next(26, Eight(W(0xcde8037d), W(0x1c2c2838), W(0xc5d53d8d), W(0xa7a3623f), W(0x14383d8e), W(0x2823ef91), W(0xaa47c347), W(0x49f5114a)),
         W(0xb00327c8), W(0xe5bc3909), W(0x958ca0fb), W(0xaa67efc1), W(0xc89998a8), W(0xcdec293d),
         W(0x1fa902d7), W(0xb62ec4bc), W(0xc74c6516), b);
    Next(27, Eight(W(0xb62ec4bc), W(0xcde8037d), W(0x1c2c2838), W(0xc5d53d8d), W(0xc74c6516), W(0x14383d8e), W(0x2823ef91), W(0xaa47c347)),
         W(0xbf597fc7), W(0x32663c5b), W(0x5ff7537b), W(0x2c2baf87), W(0xb37cf281), W(0x9c2c003c),
         W(0x282a826b), W(0x77d37528), W(0xedffbff8), b);
  }

  lemma Rounds28(b: Block)
    requires Schedule(b, 28) == W(0x9d209d67) && Schedule(b, 29) == W(0xec8726cb) && Schedule(b, 30) == W(0x702138a4) && Schedule(b, 31) == W(0xd3b7973b)
    requires Rounds(Initial, b, 28)
      == Listed(Eight(W(0x77d37528), W(0xb62ec4bc), W(0xcde8037d), W(0x1c2c2838), W(0xedffbff8), W(0xc74c6516), W(0x14383d8e), W(0x2823ef91)))
    ensures Rounds(Initial, b, 32)
      == Listed(Eight(W(0x73b33bf5), W(0xea992a22), W(0xa0060b30), W(0x363482c9), W(0xba591112), W(0x0109ab3a), W(0xade79437), W(0x6112a3b7)))
  {
    hide Schedule, Rounds, Constant, Listed;
    Constants24();
    Next(28, Eight(W(0x77d37528), W(0xb62ec4bc), W(0xcde8037d), W(0x1c2c2838), W(0xedffbff8), W(0xc74c6516), W(0x14383d8e), W(0x2823ef91)),
         W(0xc6e00bf3), W(0x9d209d67), W(0xe375bd7e), W(0xd54c2516), W(0xf963c20e), W(0xf7ea453c),
         W(0x44e67b7f), W(0x363482c9), W(0x6112a3b7), b);
    Next(29, Eight(W(0x363482c9), W(0x77d37528), W(0xb62ec4bc), W(0xcde8037d), W(0x6112a3b7), W(0xedffbff8), W(0xc74c6516), W(0x14383d8e)),
         W(0xd5a79147), W(0xec8726cb), W(0x2239b36a), W(0xe75ee7b0), W(0x89cfb5ce), W(0x3636c4a8),
         W(0xdfff90ba), W(0xa0060b30), W(0xade79437), b);
    Next(30, Eight(W(0xa0060b30), W(0x363482c9), W(0x77d37528), W(0xb62ec4bc), W(0xade79437), W(0x6112a3b7), W(0xedffbff8), W(0xc74c6516)),
         W(0x06ca6351), W(0x702138a4), W(0xab883974), W(0x611aabff), W(0x69a8407c), W(0x36160328),
         W(0x4adae67e), W(0xea992a22), W(0x0109ab3a), b);
    Next(31, Eight(W(0xea992a22), W(0xa0060b30), W(0x363482c9), W(0x77d37528), W(0x0109ab3a), W(0xade79437), W(0x6112a3b7), W(0xedffbff8)),
         W(0x14292967), W(0xd3b7973b), W(0x0b919a99), W(0x611380b7), W(0x8f1995eb), W(0xa2140a20),
         W(0x42859bea), W(0x73b33bf5), W(0xba591112), b);
  }

  lemma Rounds32(b: Block)
    requires Schedule(b, 32) == W(0x93f5997f) && Schedule(b, 33) == W(0x3b68ba73) && Schedule(b, 34) == W(0xaff4ffc1) && Schedule(b, 35) == W(0xf10a5c62)
    requires Rounds(Initial, b, 32)
      == Listed(Eight(W(0x73b33bf5), W(0xea992a22), W(0xa0060b30), W(0x363482c9), W(0xba591112), W(0x0109ab3a), W(0xade79437), W(0x6112a3b7)))
    ensures Rounds(Initial, b, 36)
      == Listed(Eight(W(0x65a0cfe4), W(0xa9a7738c), W(0xfe604df5), W(0x98e12507), W(0xf4b002d6), W(0x085f3833), W(0x59249dd3), W(0x9cd9f5f6)))
  {
    hide Schedule, Rounds, Constant, Listed;
    Constants32();
    Next(32, Eight(W(0x73b33bf5), W(0xea992a22), W(0xa0060b30), W(0x363482c9), W(0xba591112), W(0x0109ab3a), W(0xade79437), W(0x6112a3b7)),
         W(0x27b70a85), W(0x93f5997f), W(0x4436a63b), W(0x05af8537), W(0x4fa886aa), W(0xe2932b30),
         W(0x66a5732d), W(0x98e12507), W(0x9cd9f5f6), b);
    Next(33, Eight(W(0x98e12507), W(0x73b33bf5), W(0xea992a22), W(0xa0060b30), W(0x9cd9f5f6), W(0xba591112), W(0x0109ab3a), W(0xade79437)),
         W(0x2e1b2138), W(0x3b68ba73), W(0x085a07a7), W(0x99591b1a), W(0x4a90902b), W(0xfab12b27),
         W(0xb91e92a3), W(0xfe604df5), W(0x59249dd3), b);
    Next(34, Eight(W(0xfe604df5), W(0x98e12507), W(0x73b33bf5), W(0xea992a22), W(0x59249dd3), W(0x9cd9f5f6), W(0xba591112), W(0x0109ab3a)),
         W(0x4d2c6dfc), W(0xaff4ffc1), W(0x65415f48), W(0xba5995d2), W(0x91003786), W(0xfae12df5),
         W(0x1dc60e11), W(0xa9a7738c), W(0x085f3833), b);
    Next(35, Eight(W(0xa9a7738c), W(0xfe604df5), W(0x98e12507), W(0x73b33bf5), W(0x085f3833), W(0x59249dd3), W(0x9cd9f5f6), W(0xba591112)),
         W(0x53380d13), W(0xf10a5c62), W(0xe5dc6e83), W(0x9c84ddd7), W(0x2bc2a37e), W(0xb8e16585),
         W(0x80fcc6e1), W(0x65a0cfe4), W(0xf4b002d6), b);
  }

  lemma Rounds36(b: Block)
    requires Schedule(b, 36) == W(0x0a8b3996) && Schedule(b, 37) == W(0x72af830a) && Schedule(b, 38) == W(0x9409e33e) && Schedule(b, 39) == W(0x24641522)
    requires Rounds(Initial, b, 36)
      == Listed(Eight(W(0x65a0cfe4), W(0xa9a7738c), W(0xfe604df5), W(0x98e12507), W(0xf4b002d6), W(0x085f3833), W(0x59249dd3), W(0x9cd9f5f6)))
    ensures Rounds(Initial, b, 40)
      == Listed(Eight(W(0x79ea687a), W(0x6dc57a8a), W(0x34df1604), W(0x41a65cb1), W(0x1efbc0a0), W(0xf0781bc8), W(0xa507a53d), W(0x0772a26b)))
  {
    hide Schedule, Rounds, Constant, Listed;
    Constants32();
    Next(36, Eight(W(0x65a0cfe4), W(0xa9a7738c), W(0xfe604df5), W(0x98e12507), W(0xf4b002d6), W(0x085f3833), W(0x59249dd3), W(0x9cd9f5f6)),
         W(0x650a7354), W(0x0a8b3996), W(0x590d3d71), W(0x09149d13), W(0xe5748f69), W(0xeda04fe4),
         W(0x6e917d64), W(0x41a65cb1), W(0x0772a26b), b);
    Next(37, Eight(W(0x41a65cb1), W(0x65a0cfe4), W(0xa9a7738c), W(0xfe604df5), W(0x0772a26b), W(0xf4b002d6), W(0x085f3833), W(0x59249dd3)),
         W(0x766a0abb), W(0x72af830a), W(0x582c115e), W(0x0c3d1a52), W(0x2c915f18), W(0x61a65fa4),
         W(0xa6a75748), W(0x34df1604), W(0xa507a53d), b);
    Next(38, Eight(W(0x34df1604), W(0x41a65cb1), W(0x65a0cfe4), W(0xa9a7738c), W(0xa507a53d), W(0x0772a26b), W(0xf4b002d6), W(0x085f3833)),
         W(0x81c2c92e), W(0x9409e33e), W(0xd2f220b2), W(0x55b2a2eb), W(0xc14e73aa), W(0x65a65ea4),
         W(0x46d0a83c), W(0x6dc57a8a), W(0xf0781bc8), b);
    Next(39, Eight(W(0x6dc57a8a), W(0x34df1604), W(0x41a65cb1), W(0x65a0cfe4), W(0xf0781bc8), W(0xa507a53d), W(0x0772a26b), W(0xf4b002d6)),
         W(0x92722c85), W(0x24641522), W(0x66d20b14), W(0xa702a12b), W(0x5ac8193e), W(0x65c75e80),
         W(0xb95af0bc), W(0x79ea687a), W(0x1efbc0a0), b);
  }

  lemma Rounds40(b: Block)
    requires Schedule(b, 40) == W(0x9f47bf94) && Schedule(b, 41) == W(0xf0a64f5a) && Schedule(b, 42) == W(0x3e246a79) && Schedule(b, 43) == W(0x27333ba3)
    requires Rounds(Initial, b, 40)
      == Listed(Eight(W(0x79ea687a), W(0x6dc57a8a), W(0x34df1604), W(0x41a65cb1), W(0x1efbc0a0), W(0xf0781bc8), W(0xa507a53d), W(0x0772a26b)))
    ensures Rounds(Initial, b, 44)
      == Listed(Eight(W(0x9d4baf93), W(0x17aa0dfe), W(0xdf46652f), W(0xd6670766), W(0xfda24c2e), W(0xdecd4715), W(0x838b2711), W(0x26352d63)))
  {
    hide Schedule, Rounds, Constant, Listed;
    Constants40();
    Next(40, Eight(W(0x79ea687a), W(0x6dc57a8a), W(0x34df1604), W(0x41a65cb1), W(0x1efbc0a0), W(0xf0781bc8), W(0xa507a53d), W(0x0772a26b)),
         W(0xa2bfe8a1), W(0x9f47bf94), W(0xe9986075), W(0xb17c259d), W(0x7408bcaa), W(0x7dcf7a0a),
         W(0xe48ed0b2), W(0xd6670766), W(0x26352d63), b);
    Next(41, Eight(W(0xd6670766), W(0x79ea687a), W(0x6dc57a8a), W(0x34df1604), W(0x26352d63), W(0x1efbc0a0), W(0xf0781bc8), W(0xa507a53d)),
         W(0xa81a664b), W(0xf0a64f5a), W(0x3a6aa383), W(0xd67912a8), W(0x12b2e9b8), W(0x7de76a6a),
         W(0x4eac110d), W(0xdf46652f), W(0x838b2711), b);
    Next(42, Eight(W(0xdf46652f), W(0xd6670766), W(0x79ea687a), W(0x6dc57a8a), W(0x838b2711), W(0x26352d63), W(0x1efbc0a0), W(0xf0781bc8)),
         W(0xc24b8b70), W(0x3e246a79), W(0x61add539), W(0x1e71e5a1), W(0xc73bdc05), W(0xdf66656e),
         W(0x7107cc8b), W(0x17aa0dfe), W(0xdecd4715), b);
    Next(43, Eight(W(0x17aa0dfe), W(0xdf46652f), W(0xd6670766), W(0x79ea687a), W(0xdecd4715), W(0x838b2711), W(0x26352d63), W(0x1efbc0a0)),
         W(0xc76c51a3), W(0x27333ba3), W(0xd363665b), W(0xa2b92f73), W(0x422dc671), W(0xd766056e),
         W(0x83b7e3b4), W(0x9d4baf93), W(0xfda24c2e), b);
  }

  lemma Rounds44(b: Block)
    requires Schedule(b, 44) == W(0x0c4763f2) && Schedule(b, 45) == W(0x840abf27) && Schedule(b, 46) == W(0x7a290d5d) && Schedule(b, 47) == W(0x065c43da)
    requires Rounds(Initial, b, 44)
      == Listed(Eight(W(0x9d4baf93), W(0x17aa0dfe), W(0xdf46652f), W(0xd6670766), W(0xfda24c2e), W(0xdecd4715), W(0x838b2711), W(0x26352d63)))
    ensures Rounds(Initial, b, 48)
      == Listed(Eight(W(0x4172328d), W(0xa14c14b0), W(0x72ab4b91), W(0x26628815), W(0xfecf0bc6), W(0xd57b94a9), W(0xb7755da1), W(0xa80f11f0)))
  {
    hide Schedule, Rounds, Constant, Listed;
    Constants40();
    Next(44, Eight(W(0x9d4baf93), W(0x17aa0dfe), W(0xdf46652f), W(0xd6670766), W(0xfda24c2e), W(0xdecd4715), W(0x838b2711), W(0x26352d63)),
         W(0xd192e819), W(0x0c4763f2), W(0xef0f2a07), W(0xde896715), W(0xb5704fcc), W(0x9f4a2dbf),
         W(0xd1a80a8a), W(0x26628815), W(0xa80f11f0), b);
    Next(45, Eight(W(0x26628815), W(0x9d4baf93), W(0x17aa0dfe), W(0xdf46652f), W(0xa80f11f0), W(0xfda24c2e), W(0xdecd4715), W(0x838b2711)),
         W(0xd6990624), W(0x840abf27), W(0xfb3dc5f1), W(0xfec24625), W(0x8311c588), W(0x176a8d97),
         W(0xd82ef872), W(0x72ab4b91), W(0xb7755da1), b);
    Next(46, Eight(W(0x72ab4b91), W(0x26628815), W(0x9d4baf93), W(0x17aa0dfe), W(0xb7755da1), W(0xa80f11f0), W(0xfda24c2e), W(0xdecd4715)),
         W(0xf40e3585), W(0x7a290d5d), W(0x8845eb06), W(0xe88711ae), W(0xad0f0274), W(0x366b8b91),
         W(0xbdd186ab), W(0xa14c14b0), W(0xd57b94a9), b);
    Next(47, Eight(W(0xa14c14b0), W(0x72ab4b91), W(0x26628815), W(0x9d4baf93), W(0xd57b94a9), W(0xb7755da1), W(0xa80f11f0), W(0xfda24c2e)),
         W(0x106aa070), W(0x065c43da), W(0x8fa515ca), W(0xbd7515f1), W(0xbd84cdc9), W(0x226a0891),
         W(0x61835c33), W(0x4172328d), W(0xfecf0bc6), b);
  }

  lemma Rounds48(b: Block)
    requires Schedule(b, 48) == W(0xfb3e89cb) && Schedule(b, 49) == W(0xcc7617db) && Schedule(b, 50) == W(0xb9e66c34) && Schedule(b, 51) == W(0xa9993667)
    requires Rounds(Initial, b, 48)
      == Listed(Eight(W(0x4172328d), W(0xa14c14b0), W(0x72ab4b91), W(0x26628815), W(0xfecf0bc6), W(0xd57b94a9), W(0xb7755da1), W(0xa80f11f0)))
    ensures Rounds(Initial, b, 52)
      == Listed(Eight(W(0x886e7a22), W(0x7a0508a1), W(0xf11bfaa8), W(0x05757ceb), W(0x49231c1e), W(0x52f1ccf7), W(0x6e5c390c), W(0xbd714038)))
  {
    hide Schedule, Rounds, Constant, Listed;
    Constants48();
    Next(48, Eight(W(0x4172328d), W(0xa14c14b0), W(0x72ab4b91), W(0x26628815), W(0xfecf0bc6), W(0xd57b94a9), W(0xb7755da1), W(0xa80f11f0)),
         W(0x19a4c116), W(0xfb3e89cb), W(0x04a106b1), W(0xd57b54a1), W(0x0cfcb237), W(0x616a1291),
         W(0x970eb823), W(0x05757ceb), W(0xbd714038), b);
    Next(49, Eight(W(0x05757ceb), W(0x4172328d), W(0xa14c14b0), W(0x72ab4b91), W(0xbd714038), W(0xfecf0bc6), W(0xd57b94a9), W(0xb7755da1)),
         W(0x1e376c08), W(0xcc7617db), W(0x5d427776), W(0xfc4b9481), W(0xf3f6d884), W(0x017434a9),
         W(0xfbb0ed7b), W(0xf11bfaa8), W(0x6e5c390c), b);
    Next(50, Eight(W(0xf11bfaa8), W(0x05757ceb), W(0x4172328d), W(0xa14c14b0), W(0x6e5c390c), W(0xbd714038), W(0xfecf0bc6), W(0xd57b94a9)),
         W(0x2748774c), W(0xb9e66c34), W(0x3e283d54), W(0xbcd302ca), W(0x86ebd5b1), W(0x41737aa9),
         W(0xb1a5b847), W(0x7a0508a1), W(0x52f1ccf7), b);
    Next(51, Eight(W(0x7a0508a1), W(0xf11bfaa8), W(0x05757ceb), W(0x4172328d), W(0x52f1ccf7), W(0x6e5c390c), W(0xbd714038), W(0xfecf0bc6)),
         W(0x34b0bcb5), W(0xa9993667), W(0x3b47e2a3), W(0xef50080c), W(0x0fa817e8), W(0x711578a9),
         W(0x07b0e991), W(0x886e7a22), W(0x49231c1e), b);
  }

  lemma Rounds52(b: Block)
    requires Schedule(b, 52) == W(0x84badedd) && Schedule(b, 53) == W(0xc21462bc) && Schedule(b, 54) == W(0x1487472c) && Schedule(b, 55) == W(0xb20f7a99)
    requires Rounds(Initial, b, 52)
      == Listed(Eight(W(0x886e7a22), W(0x7a0508a1), W(0xf11bfaa8), W(0x05757ceb), W(0x49231c1e), W(0x52f1ccf7), W(0x6e5c390c), W(0xbd714038)))
    ensures Rounds(Initial, b, 56)
      == Listed(Eight(W(0x38cc9913), W(0x3ec45cdb), W(0xf5702fdb), W(0x101fd28f), W(0x54cb266b), W(0xe50e1b4f), W(0x9f4787c3), W(0x529e7d00)))
  {
    hide Schedule, Rounds, Constant, Listed;
    Constants48();
    Next(52, Eight(W(0x886e7a22), W(0x7a0508a1), W(0xf11bfaa8), W(0x05757ceb), W(0x49231c1e), W(0x52f1ccf7), W(0x6e5c390c), W(0xbd714038)),
         W(0x391c0cb3), W(0x84badedd), W(0x6b63a737), W(0x667d2d16), W(0xcae757da), W(0xf80f7aa0),
         W(0x4d290015), W(0x101fd28f), W(0x529e7d00), b);
    Next(53, Eight(W(0x101fd28f), W(0x886e7a22), W(0x7a0508a1), W(0xf11bfaa8), W(0x529e7d00), W(0x49231c1e), W(0x52f1ccf7), W(0x6e5c390c)),
         W(0x4ed8aa4a), W(0xc21462bc), W(0xee7eaa12), W(0x40639cf7), W(0x2f35481d), W(0x180f5aa3),
         W(0xae2b8d1b), W(0xf5702fdb), W(0x9f4787c3), b);
    Next(54, Eight(W(0xf5702fdb), W(0x101fd28f), W(0x886e7a22), W(0x7a0508a1), W(0x9f4787c3), W(0x529e7d00), W(0x49231c1e), W(0x52f1ccf7)),
         W(0x5b9cca4f), W(0x1487472c), W(0x55cd1720), W(0x52261d1c), W(0x433ccfa2), W(0x907e7a8b),
         W(0x6b0912ae), W(0x3ec45cdb), W(0xe50e1b4f), b);
    Next(55, Eight(W(0x3ec45cdb), W(0xf5702fdb), W(0x101fd28f), W(0x886e7a22), W(0xe50e1b4f), W(0x9f4787c3), W(0x529e7d00), W(0x49231c1e)),
         W(0x682e6ff3), W(0xb20f7a99), W(0xd1653e5c), W(0x97966743), W(0x381b8def), W(0x34545edb),
         W(0xcc5cac49), W(0x38cc9913), W(0x54cb266b), b);
  }

  lemma Rounds56(b: Block)
    requires Schedule(b, 56) == W(0xef57b9cd) && Schedule(b, 57) == W(0xebe6b238) && Schedule(b, 58) == W(0x9fe3095e) && Schedule(b, 59) == W(0x78bc8d4b)
    requires Rounds(Initial, b, 56)
      == Listed(Eight(W(0x38cc9913), W(0x3ec45cdb), W(0xf5702fdb), W(0x101fd28f), W(0x54cb266b), W(0xe50e1b4f), W(0x9f4787c3), W(0x529e7d00)))
    ensures Rounds(Initial, b, 60)
      == Listed(Eight(W(0xb6ae8fff), W(0xffb70472), W(0xc062d46f), W(0xfcd1887b), W(0xb21bad3d), W(0x6d83bfc6), W(0x7e44008e), W(0x9b5e906c)))
  {
    hide Schedule, Rounds, Constant, Listed;
    Constants56();
    Next(56, Eight(W(0x38cc9913), W(0x3ec45cdb), W(0xf5702fdb), W(0x101fd28f), W(0x54cb266b), W(0xe50e1b4f), W(0x9f4787c3), W(0x529e7d00)),
         W(0x748f82ee), W(0xef57b9cd), W(0x05aa8057), W(0xcf0e83cb), W(0x34ceacc3), W(0x3cc41ddb),
         W(0x8b3ebddd), W(0xfcd1887b), W(0x9b5e906c), b);
    Next(57, Eight(W(0xfcd1887b), W(0x38cc9913), W(0x3ec45cdb), W(0xf5702fdb), W(0x9b5e906c), W(0x54cb266b), W(0xe50e1b4f), W(0x9f4787c3)),
         W(0x78a5636f), W(0xebe6b238), W(0x10b627de), W(0x744a0b6b), W(0xfaca6b61), W(0x3cc4985b),
         W(0x88d3d0b3), W(0xc062d46f), W(0x7e44008e), b);
    Next(58, Eight(W(0xc062d46f), W(0xfcd1887b), W(0x38cc9913), W(0x3ec45cdb), W(0x7e44008e), W(0x9b5e906c), W(0x54cb266b), W(0xe50e1b4f)),
         W(0x84c87814), W(0x9fe3095e), W(0x0a369fbd), W(0x1acf266d), W(0xd837090c), W(0xf8c0987b),
         W(0x2ebf62eb), W(0xffb70472), W(0x6d83bfc6), b);
    Next(59, Eight(W(0xffb70472), W(0xc062d46f), W(0xfcd1887b), W(0x38cc9913), W(0x6d83bfc6), W(0x7e44008e), W(0x9b5e906c), W(0x54cb266b)),
         W(0x8cc70208), W(0x78bc8d4b), W(0x20a45dbe), W(0xfe5c00ae), W(0x406bf75a), W(0xfcf3847b),
         W(0x794f142a), W(0xb6ae8fff), W(0xb21bad3d), b);
  }

  lemma Rounds60(b: Block)
    requires Schedule(b, 60) == W(0xa43fcf15) && Schedule(b, 61) == W(0x668b2ff8) && Schedule(b, 62) == W(0xeeaba2cc) && Schedule(b, 63) == W(0x12b1edeb)
    requires Rounds(Initial, b, 60)
      == Listed(Eight(W(0xb6ae8fff), W(0xffb70472), W(0xc062d46f), W(0xfcd1887b), W(0xb21bad3d), W(0x6d83bfc6), W(0x7e44008e), W(0x9b5e906c)))
    ensures Rounds(Initial, b, 64)
      == Listed(Eight(W(0x506e3058), W(0xd39a2165), W(0x04d24d6c), W(0xb85e2ce9), W(0x5ef50f24), W(0xfb121210), W(0x948d25b6), W(0x961f4894)))
  {
    hide Schedule, Rounds, Constant, Listed;
    Constants56();
    Next(60, Eight(W(0xb6ae8fff), W(0xffb70472), W(0xc062d46f), W(0xfcd1887b), W(0xb21bad3d), W(0x6d83bfc6), W(0x7e44008e), W(0x9b5e906c)),
         W(0x90befffa), W(0xa43fcf15), W(0x5ca8b318), W(0x6c47ad86), W(0x2869e851), W(0xf6a6847f),
         W(0x994dc019), W(0xb85e2ce9), W(0x961f4894), b);
    Next(61, Eight(W(0xb85e2ce9), W(0xb6ae8fff), W(0xffb70472), W(0xc062d46f), W(0x961f4894), W(0xb21bad3d), W(0x6d83bfc6), W(0x7e44008e)),
         W(0xa4506ceb), W(0x668b2ff8), W(0x4f6ef480), W(0xfb9bbf56), W(0x71e9ef2a), W(0xbebe0cfb),
         W(0xd42a5147), W(0x04d24d6c), W(0x948d25b6), b);
    Next(62, Eight(W(0x04d24d6c), W(0xb85e2ce9), W(0xb6ae8fff), W(0xffb70472), W(0x948d25b6), W(0x961f4894), W(0xb21bad3d), W(0x6d83bfc6)),
         W(0xbef9a3f7), W(0xeeaba2cc), W(0x2a127e78), W(0xb61f889d), W(0x236105da), W(0xb4de0ded),
         W(0xfb5b0d9e), W(0xd39a2165), W(0xfb121210), b);
    Next(63, Eight(W(0xd39a2165), W(0x04d24d6c), W(0xb85e2ce9), W(0xb6ae8fff), W(0xfb121210), W(0x948d25b6), W(0x961f4894), W(0xb21bad3d)),
         W(0xc67178f2), W(0x12b1edeb), W(0x88fa2277), W(0x940d4894), W(0x174d83c6), W(0x90da2d6d),
         W(0xa8467f25), W(0x506e3058), W(0x5ef50f24), b);
  }

  lemma AbcRounds(b: Block)
    requires b == AbcBlock()
    ensures Rounds(Initial, b, 64)
      == Listed(Eight(W(0x506e3058), W(0xd39a2165), W(0x04d24d6c), W(0xb85e2ce9), W(0x5ef50f24), W(0xfb121210), W(0x948d25b6), W(0x961f4894)))
  {
    hide AbcBlock, Schedule;
    assert Rounds(Initial, b, 0) == Listed(Eight(W(0x6a09e667), W(0xbb67ae85), W(0x3c6ef372), W(0xa54ff53a), W(0x510e527f), W(0x9b05688c), W(0x1f83d9ab), W(0x5be0cd19)));
    hide Rounds, Listed;
    Words0(b);
    Words16(b);
    Words24(b);
    Words32(b);
    Words40(b);
    Words48(b);
    Words56(b);
    Rounds0(b);
    Rounds4(b);
    Rounds8(b);
    Rounds12(b);
    Rounds16(b);
    Rounds20(b);
    Rounds24(b);
    Rounds28(b);
    Rounds32(b);
    Rounds36(b);
    Rounds40(b);
    Rounds44(b);
    Rounds48(b);
    Rounds52(b);
    Rounds56(b);
    Rounds60(b);
  }

  /** Section B.1 of FIPS 180-2, the example for one block. */
  lemma AbcDigest()
    ensures Sha256Of(Abc) ==
      [0xba, 0x78, 0x16, 0xbf] + [0x8f, 0x01, 0xcf, 0xea] + [0x41, 0x41, 0x40, 0xde] + [0x5d, 0xae, 0x22, 0x23]
      + [0xb0, 0x03, 0x61, 0xa3] + [0x96, 0x17, 0x7a, 0x9c] + [0xb4, 0x10, 0xff, 0x61] + [0xf2, 0x00, 0x15, 0xad]
  {
    hide Rounds, AbcBlock, Padded, Stored;
    AbcPadded();
    AbcRounds(AbcBlock());
    HashOne(AbcBlock());
    var r := Eight(W(0xba7816bf), W(0x8f01cfea), W(0x414140de), W(0x5dae2223), W(0xb00361a3), W(0x96177a9c), W(0xb410ff61), W(0xf20015ad));
    var s := Eight(W(0x506e3058), W(0xd39a2165), W(0x04d24d6c), W(0xb85e2ce9), W(0x5ef50f24), W(0xfb121210), W(0x948d25b6), W(0x961f4894));
    AddedIs(s, r);
    StoredIs(r);
    assert Bytes(W(0xba7816bf)) == [0xba, 0x78, 0x16, 0xbf];
    assert Bytes(W(0x8f01cfea)) == [0x8f, 0x01, 0xcf, 0xea];
    assert Bytes(W(0x414140de)) == [0x41, 0x41, 0x40, 0xde];
    assert Bytes(W(0x5dae2223)) == [0x5d, 0xae, 0x22, 0x23];
    assert Bytes(W(0xb00361a3)) == [0xb0, 0x03, 0x61, 0xa3];
    assert Bytes(W(0x96177a9c)) == [0x96, 0x17, 0x7a, 0x9c];
    assert Bytes(W(0xb410ff61)) == [0xb4, 0x10, 0xff, 0x61];
    assert Bytes(W(0xf20015ad)) == [0xf2, 0x00, 0x15, 0xad];
  }

  lemma HashOne(b: Block)
    ensures Hash(b) == Compress(Initial, b)
  {
    hide Compress;
    assert [] + b == b;
    HashNext([], b);
  }

  lemma AddedIs(s: Eight, r: Eight)
    requires Plus(Initial[0], s.a) == r.a && Plus(Initial[1], s.b) == r.b && Plus(Initial[2], s.c) == r.c
    requires Plus(Initial[3], s.d) == r.d && Plus(Initial[4], s.e) == r.e && Plus(Initial[5], s.f) == r.f
    requires Plus(Initial[6], s.g) == r.g && Plus(Initial[7], s.h) == r.h
    ensures Added(Initial, Listed(s)) == Listed(r)
  {
    hide Plus;
  }

  lemma StoredIs(r: Eight)
    ensures Stored(Listed(r), 8)
         == Bytes(r.a) + Bytes(r.b) + Bytes(r.c) + Bytes(r.d) + Bytes(r.e) + Bytes(r.f) + Bytes(r.g) + Bytes(r.h)
  {
    hide Bytes, Listed, Stored;
    ListedIs(r);
    StoredNone(Listed(r));
    StoredMore(Listed(r), 0);
    StoredMore(Listed(r), 1);
    StoredMore(Listed(r), 2);
    StoredMore(Listed(r), 3);
    StoredMore(Listed(r), 4);
    StoredMore(Listed(r), 5);
    StoredMore(Listed(r), 6);
    StoredMore(Listed(r), 7);
  }

  lemma ListedIs(r: Eight)
    ensures Listed(r)[0] == r.a && Listed(r)[1] == r.b && Listed(r)[2] == r.c && Listed(r)[3] == r.d
    ensures Listed(r)[4] == r.e && Listed(r)[5] == r.f && Listed(r)[6] == r.g && Listed(r)[7] == r.h
  {}

  lemma StoredNone(r: Registers) ensures Stored(r, 0) == [] {}

  lemma StoredMore(r: Registers, n: nat)
    requires n < 8
    ensures Stored(r, n + 1) == Stored(r, n) + Bytes(r[n])
  {}
}
