/** Streaming SHA-256: whatever the calls, the digest is that of the padded message. */
module Sha256 {
  import opened Common
  datatype Word = W(v: bv32)

  type Block = s: seq<bv8> | |s| == 64 witness seq(64, _ => 0)

  type Registers = s: seq<Word> | |s| == 8 witness seq(8, _ => W(0))

  // ---------------------------------------------------------------- sections 4 and 6.2 of FIPS 180-4

  function Rotr(x: bv32, n: nat): bv32
    requires 0 < n < 32
  {
    (x >> n) | (x << (32 - n))
  }

  function BigSigma0(x: Word): Word { W(Rotr(x.v, 2) ^ Rotr(x.v, 13) ^ Rotr(x.v, 22)) }

  function BigSigma1(x: Word): Word { W(Rotr(x.v, 6) ^ Rotr(x.v, 11) ^ Rotr(x.v, 25)) }

  function SmallSigma0(x: Word): Word { W(Rotr(x.v, 7) ^ Rotr(x.v, 18) ^ (x.v >> 3)) }

  function SmallSigma1(x: Word): Word { W(Rotr(x.v, 17) ^ Rotr(x.v, 19) ^ (x.v >> 10)) }

  function Ch(x: Word, y: Word, z: Word): Word { W((x.v & y.v) ^ (!x.v & z.v)) }

  function Maj(x: Word, y: Word, z: Word): Word { W((x.v & y.v) ^ (x.v & z.v) ^ (y.v & z.v)) }

  function Add(x: bv32, y: bv32): bv32 { x + y }

  function Plus(x: Word, y: Word): Word { W(Add(x.v, y.v)) }

  /** load_be32. */
  function Load(b: Block, i: nat): Word
    requires i < 16
  {
    W(((b[4 * i] as bv32) << 24) | ((b[4 * i + 1] as bv32) << 16) | ((b[4 * i + 2] as bv32) << 8)
      | (b[4 * i + 3] as bv32))
  }

  /** The message schedule, with the terms in the standard's order. */
  function Schedule(b: Block, t: nat): Word
    decreases t, b
  {
    if t < 16 then Load(b, t)
    else
      Plus(Plus(Plus(SmallSigma1(Schedule(b, t - 2)), Schedule(b, t - 7)), SmallSigma0(Schedule(b, t - 15))),
           Schedule(b, t - 16))
  }

  /** The round constants, eight in a row. */
  function ConstantRow(i: nat): (row: seq<bv32>)
    requires i < 8
    ensures |row| == 8
  {
    match i
    case 0 => [0x428a2f98, 0x71374491, 0xb5c0fbcf, 0xe9b5dba5, 0x3956c25b, 0x59f111f1, 0x923f82a4, 0xab1c5ed5]
    case 1 => [0xd807aa98, 0x12835b01, 0x243185be, 0x550c7dc3, 0x72be5d74, 0x80deb1fe, 0x9bdc06a7, 0xc19bf174]
    case 2 => [0xe49b69c1, 0xefbe4786, 0x0fc19dc6, 0x240ca1cc, 0x2de92c6f, 0x4a7484aa, 0x5cb0a9dc, 0x76f988da]
    case 3 => [0x983e5152, 0xa831c66d, 0xb00327c8, 0xbf597fc7, 0xc6e00bf3, 0xd5a79147, 0x06ca6351, 0x14292967]
    case 4 => [0x27b70a85, 0x2e1b2138, 0x4d2c6dfc, 0x53380d13, 0x650a7354, 0x766a0abb, 0x81c2c92e, 0x92722c85]
    case 5 => [0xa2bfe8a1, 0xa81a664b, 0xc24b8b70, 0xc76c51a3, 0xd192e819, 0xd6990624, 0xf40e3585, 0x106aa070]
    case 6 => [0x19a4c116, 0x1e376c08, 0x2748774c, 0x34b0bcb5, 0x391c0cb3, 0x4ed8aa4a, 0x5b9cca4f, 0x682e6ff3]
    case _ => [0x748f82ee, 0x78a5636f, 0x84c87814, 0x8cc70208, 0x90befffa, 0xa4506ceb, 0xbef9a3f7, 0xc67178f2]
  }

  function Constant(t: nat): Word
    requires t < 64
  {
    W(ConstantRow(t / 8)[t % 8])
  }

  function Round(r: Registers, k: Word, w: Word): Registers {
    var t1 := Plus(Plus(Plus(Plus(r[7], BigSigma1(r[4])), Ch(r[4], r[5], r[6])), k), w);
    var t2 := Plus(BigSigma0(r[0]), Maj(r[0], r[1], r[2]));
    [Plus(t1, t2), r[0], r[1], r[2], Plus(r[3], t1), r[4], r[5], r[6]]
  }

  /** The first n rounds. */
  function Rounds(r: Registers, b: Block, n: nat): Registers
    requires n <= 64
    decreases n, b
  {
    if n == 0 then r else Round(Rounds(r, b, n - 1), Constant(n - 1), Schedule(b, n - 1))
  }

  function Compress(r: Registers, b: Block): Registers { Added(r, Rounds(r, b, 64)) }

  function Added(r: Registers, s: Registers): Registers {
    [Plus(r[0], s[0]), Plus(r[1], s[1]), Plus(r[2], s[2]), Plus(r[3], s[3]),
     Plus(r[4], s[4]), Plus(r[5], s[5]), Plus(r[6], s[6]), Plus(r[7], s[7])]
  }

  const Initial: Registers := [
    W(0x6a09e667), W(0xbb67ae85), W(0x3c6ef372), W(0xa54ff53a), W(0x510e527f), W(0x9b05688c), W(0x1f83d9ab), W(0x5be0cd19)]

  /** The compression function over whole blocks. */
  function Hash(bytes: seq<bv8>): Registers
    requires |bytes| % 64 == 0
    decreases |bytes|, bytes
  {
    if |bytes| == 0 then Initial else Compress(Hash(bytes[..|bytes| - 64]), bytes[|bytes| - 64..])
  }

  lemma HashNext(bytes: seq<bv8>, b: Block)
    requires |bytes| % 64 == 0
    ensures |bytes + b| % 64 == 0 && Hash(bytes + b) == Compress(Hash(bytes), b)
  {
    hide Compress;
    assert (bytes + b)[..|bytes + b| - 64] == bytes && (bytes + b)[|bytes + b| - 64..] == b;
  }

  /** The length in bits as eight bytes, highest first. */
  function LengthBytes(bits: nat): seq<bv8> { seq(8, i requires 0 <= i < 8 => LengthByte(bits, 7 - i)) }

  /** Section 5.1.1 of FIPS 180-4. */
  function Padded(message: seq<bv8>): (p: seq<bv8>)
    ensures |p| % 64 == 0
  {
    message + [0x80] + Zeros((119 - |message| % 64) % 64) + LengthBytes(8 * |message|)
  }

  /** store_be32 of every register. */
  function Stored(r: Registers, n: nat): (d: seq<bv8>)
    requires n <= 8
    ensures |d| == 4 * n
  {
    if n == 0 then [] else Stored(r, n - 1) + Bytes(r[n - 1])
  }

  function Bytes(w: Word): (d: seq<bv8>)
    ensures |d| == 4
  {
    [((w.v >> 24) & 0xff) as bv8, ((w.v >> 16) & 0xff) as bv8, ((w.v >> 8) & 0xff) as bv8, (w.v & 0xff) as bv8]
  }

  function Sha256Of(message: seq<bv8>): (d: seq<bv8>)
    ensures |d| == 32
  {
    Stored(Hash(Padded(message)), 8)
  }

  // ---------------------------------------------------------------- the transformation as the source computes it

  lemma AddSwaps(a: bv32, b: bv32) ensures Add(a, b) == Add(b, a) {}

  lemma AddGroups(a: bv32, b: bv32, c: bv32)
    ensures Add(Add(a, b), c) == Add(a, Add(b, c))
  {
    assert Add(a + b, c) == Add(a, b + c);
  }

  lemma PlusSwaps(a: Word, b: Word)
    ensures Plus(a, b) == Plus(b, a)
  {
    hide Add;
    AddSwaps(a.v, b.v);
  }

  lemma PlusGroups(a: Word, b: Word, c: Word)
    ensures Plus(Plus(a, b), c) == Plus(a, Plus(b, c))
  {
    hide Add;
    AddGroups(a.v, b.v, c.v);
  }

  /** The source adds the four terms in the opposite order. */
  lemma PlusOrder(a: Word, b: Word, c: Word, d: Word)
    ensures Plus(Plus(Plus(a, b), c), d) == Plus(Plus(Plus(d, c), b), a)
  {
    hide Plus;
    PlusSwaps(Plus(Plus(a, b), c), d);
    PlusSwaps(Plus(a, b), c);
    PlusGroups(d, c, Plus(a, b));
    PlusSwaps(a, b);
    PlusGroups(Plus(d, c), b, a);
  }

  lemma FirstSchedule(block: seq<bv8>, t: nat)
    requires |block| == 64 && t < 16
    ensures Schedule(block, t) == Load(block, t)
  {}

  lemma LaterSchedule(block: seq<bv8>, t: nat)
    requires |block| == 64 && 16 <= t < 64
    ensures Schedule(block, t)
         == Plus(Plus(Plus(SmallSigma1(Schedule(block, t - 2)), Schedule(block, t - 7)),
                      SmallSigma0(Schedule(block, t - 15))), Schedule(block, t - 16))
  {}

  /** The 64 schedule words. */
  method Words(block: array<bv8>) returns (words: array<Word>)
    requires block.Length == 64
    ensures fresh(words) && words.Length == 64
    ensures forall t :: 0 <= t < 64 ==> words[t] == Schedule(block[..], t)
  {
    hide Load, SmallSigma0, SmallSigma1, Plus, Schedule;
    words := new Word[64](_ => W(0));
    for i := 0 to 16
      invariant forall t :: 0 <= t < i ==> words[t] == Schedule(block[..], t)
    {
      FirstSchedule(block[..], i);
      words[i] := Load(block[..], i);
    }
    for i := 16 to 64
      invariant forall t :: 0 <= t < i ==> words[t] == Schedule(block[..], t)
    {
      var s0, s1 := SmallSigma0(words[i - 15]), SmallSigma1(words[i - 2]);
      LaterSchedule(block[..], i);
      PlusOrder(words[i - 16], s0, words[i - 7], s1);
      words[i] := Plus(Plus(Plus(words[i - 16], s0), words[i - 7]), s1);
    }
  }

  class Hasher {
    const state: array<Word>
    const buffer: array<bv8>
    var totalBytes: nat
    var buffered: nat
    var finished: bool
    /** Everything given to Update. */
    ghost var message: seq<bv8>

    ghost predicate Valid()
      reads this, state, buffer
    {
      && state.Length == 8 && buffer.Length == 64
      && (!finished ==>
        && buffered < 64
        && totalBytes == |message| <= MaxBytes
        && buffered == |message| % 64
        && state[..] == Hash(message[..|message| - buffered])
        && buffer[..buffered] == message[|message| - buffered..])
    }

    /** The state is that of the whole blocks so far, and the buffer holds the rest. */
    ghost predicate Buffering()
      reads this, state, buffer
    {
      && state.Length == 8 && buffer.Length == 64 && buffered == |message| % 64 <= |message|
      && state[..] == Hash(message[..|message| - buffered])
      && buffer[..buffered] == message[|message| - buffered..]
    }

    constructor ()
      ensures Valid() && fresh(state) && fresh(buffer) && !finished && message == []
    {
      state := new Word[8](i requires 0 <= i < 8 => Initial[i]);
      buffer := new bv8[64](_ => 0);
      totalBytes, buffered, finished, message := 0, 0, false, [];
      new;
      assert state[..] == Initial;
    }

    /** transform. */
    method Transform()
      requires state.Length == 8 && buffer.Length == 64
      modifies state
      ensures state[..] == Compress(old(state[..]), buffer[..])
    {
      hide Round, Schedule, Constant, Plus;
      var words := Words(buffer);
      ghost var r0, b := state[..], buffer[..];
      var a, b1, c, d, e, f, g, h := state[0], state[1], state[2], state[3], state[4], state[5], state[6], state[7];
      RoundsNone(r0, b);
      assert [a, b1, c, d, e, f, g, h] == r0;
      for i := 0 to 64
        invariant [a, b1, c, d, e, f, g, h] == Rounds(r0, b, i)
        invariant state[..] == r0 && buffer[..] == b && forall t :: 0 <= t < 64 ==> words[t] == Schedule(b, t)
      {
        ghost var r: Registers := [a, b1, c, d, e, f, g, h];
        var temp1 := Plus(Plus(Plus(Plus(h, BigSigma1(e)), Ch(e, f, g)), Constant(i)), words[i]);
        var temp2 := Plus(BigSigma0(a), Maj(a, b1, c));
        RoundIs(r, Constant(i), words[i], temp1, temp2);
        RoundsNext(r0, b, i);
        a, b1, c, d, e, f, g, h := Plus(temp1, temp2), a, b1, c, Plus(d, temp1), e, f, g;
      }
      AddAll(a, b1, c, d, e, f, g, h);
    }

    method AddAll(a: Word, b: Word, c: Word, d: Word, e: Word, f: Word, g: Word, h: Word)
      requires state.Length == 8
      modifies state
      ensures var r := old(state[..]);
        state[..] == [Plus(r[0], a), Plus(r[1], b), Plus(r[2], c), Plus(r[3], d),
                      Plus(r[4], e), Plus(r[5], f), Plus(r[6], g), Plus(r[7], h)]
    {
      hide Plus;
      state[0], state[1], state[2], state[3] :=
        Plus(state[0], a), Plus(state[1], b), Plus(state[2], c), Plus(state[3], d);
      state[4], state[5], state[6], state[7] :=
        Plus(state[4], e), Plus(state[5], f), Plus(state[6], g), Plus(state[7], h);
    }

    /** One turn of the loop in update: as many bytes as the buffer takes. */
    method Take(bytes: seq<bv8>) returns (rest: seq<bv8>)
      requires Buffering() && bytes != []
      modifies this`buffered, this`message, state, buffer
      ensures Buffering() && |rest| < |bytes| && message + rest == old(message) + bytes
    {
      hide Compress, Hash;
      var count := if 64 - buffered < |bytes| then 64 - buffered else |bytes|;
      ghost var whole, part := message[..|message| - buffered], message[|message| - buffered..] + bytes[..count];
      WholeSize(|message|, buffered);
      Fill(bytes[..count]);
      message := message + bytes[..count];
      rest := bytes[count..];
      assert message == whole + part && |part| == buffered;
      assert buffered == 64 ==> buffer[..] == buffer[..buffered];
      if buffered == 64 {
        Flush(whole);
      } else {
        PartBlock(|whole|, buffered);
      }
    }

    /** A full buffer is one more block. */
    method Flush(ghost whole: seq<bv8>)
      requires state.Length == 8 && buffer.Length == 64 && buffered == 64
      requires |whole| % 64 == 0 && message == whole + buffer[..] && state[..] == Hash(whole)
      modifies this`buffered, state
      ensures buffered == 0 == |message| % 64 && state[..] == Hash(message[..|message| - 0])
      ensures message[|message|..] == []
    {
      hide Compress, Hash;
      HashNext(whole, buffer[..]);
      Transform();
      buffered := 0;
      FullBlock(|whole|);
      assert message[..|message|] == message;
    }

    /** Copy bytes behind those in the buffer. */
    method Fill(bytes: seq<bv8>)
      requires buffer.Length == 64 && buffered + |bytes| <= 64
      modifies this`buffered, buffer
      ensures buffered == old(buffered) + |bytes|
      ensures buffer[..buffered] == old(buffer[..buffered]) + bytes
    {
      forall i | 0 <= i < |bytes| {
        buffer[buffered + i] := bytes[i];
      }
      buffered := buffered + |bytes|;
    }

    /** update: nothing changes when the context is finished or the input too large. */
    method Update(bytes: seq<bv8>) returns (ok: bool)
      requires Valid()
      modifies this`totalBytes, this`buffered, this`message, state, buffer
      ensures ok <==> !finished && |old(message)| + |bytes| <= MaxBytes
      ensures Valid() && message == if ok then old(message) + bytes else old(message)
    {
      hide Hash;
      if finished {
        return false;
      }
      var max := 0xffff_ffff_ffff_ffff / 8;
      if totalBytes > max || |bytes| > max - totalBytes {
        return false;
      }
      totalBytes := totalBytes + |bytes|;
      var rest := bytes;
      while rest != []
        invariant totalBytes == |old(message)| + |bytes|
        invariant Buffering() && message + rest == old(message) + bytes
        decreases |rest|
      {
        rest := Take(rest);
      }
      assert message == old(message) + bytes;
      ok := true;
    }

    /** Zeros up to a position of the buffer. */
    method FillZeros(end: nat)
      requires buffer.Length == 64 && buffered <= end <= 64
      modifies this`buffered, buffer
      ensures buffered == end && buffer[..end] == old(buffer[..buffered]) + Zeros(end - old(buffered))
    {
      forall i | buffered <= i < end {
        buffer[i] := 0;
      }
      buffered := end;
    }

    method FillLength(bits: nat)
      requires buffer.Length == 64
      modifies buffer
      ensures buffer[..] == old(buffer[..56]) + LengthBytes(bits)
    {
      hide LengthByte;
      for i := 0 to 8
        invariant buffer[..56] == old(buffer[..56])
        invariant forall j :: 0 <= j < i ==> buffer[63 - j] == LengthByte(bits, j)
      {
        buffer[63 - i] := LengthByte(bits, i);
      }
      forall k | 56 <= k < 64
        ensures buffer[k] == LengthBytes(bits)[k - 56]
      {
        assert k == 63 - (63 - k);
      }
    }

    method StoreDigest() returns (digest: seq<bv8>)
      requires state.Length == 8
      ensures digest == Stored(state[..], 8)
    {
      hide Bytes;
      digest := [];
      for i := 0 to 8
        invariant digest == Stored(state[..], i)
      {
        digest := digest + Bytes(state[i]);
      }
    }

    /** Everything of finish but the flag: the padding and the last one or two blocks. */
    method Pad()
      requires Valid() && !finished
      modifies this`buffered, state, buffer
      ensures state[..] == Hash(Padded(message))
    {
      hide Hash, Compress, Zeros, LengthBytes;
      ghost var n := |message|;
      ghost var whole, part := message[..n - buffered], message[n - buffered..];
      WholeSize(n, buffered);
      assert message == whole + part;
      buffer[buffered] := 0x80;
      buffered := buffered + 1;
      assert buffer[..buffered] == part + [0x80];
      ghost var done := MakeRoom(whole, part + [0x80]);
      FillLength(totalBytes * 8);
      HashNext(done, buffer[..]);
      Transform();
      if |part| < 56 {
        PaddedOne(message[..n - |part|], part, message);
      } else {
        PaddedTwo(message[..n - |part|], part, message);
      }
    }

    /** Zeros up to the length: in this block, or in one more where there is no room left for the length. */
    method MakeRoom(ghost whole: seq<bv8>, ghost part: seq<bv8>) returns (ghost done: seq<bv8>)
      requires state.Length == 8 && buffer.Length == 64 && buffered == |part| <= 64 && buffer[..buffered] == part
      requires |whole| % 64 == 0 && state[..] == Hash(whole)
      modifies this`buffered, state, buffer
      ensures |done| % 64 == 0 && state[..] == Hash(done) && buffered == 56
      ensures |part| > 56 ==> done == whole + (part + Zeros(64 - |part|)) && buffer[..56] == Zeros(56)
      ensures |part| <= 56 ==> done == whole && buffer[..56] == part + Zeros(56 - |part|)
    {
      hide Hash, Compress, Zeros;
      done := whole;
      if buffered > 56 {
        FillZeros(64);
        assert buffer[..] == buffer[..64];
        HashNext(whole, buffer[..]);
        done := whole + buffer[..];
        Transform();
        buffered := 0;
        NoBytes(buffer[..0]);
      }
      FillZeros(56);
    }

    /** finish: the digest of everything given to update, and only once. */
    method Finish() returns (ok: bool, digest: seq<bv8>)
      requires Valid()
      modifies this`buffered, this`finished, state, buffer
      ensures Valid() && finished && ok == !old(finished)
      ensures ok ==> digest == Sha256Of(message)
    {
      hide Hash, Padded, Stored;
      digest := [];
      if finished {
        return false, digest;
      }
      Pad();
      finished := true;
      digest := StoreDigest();
      ok := true;
    }
  }

  lemma NoBytes(s: seq<bv8>)
    requires |s| == 0
    ensures forall t: seq<bv8> :: s + t == t
  {}

  /** Padding that ends in the block it starts in. */
  lemma PaddedOne(whole: seq<bv8>, part: seq<bv8>, message: seq<bv8>)
    requires message == whole + part && |whole| % 64 == 0 && |part| < 56
    ensures Padded(message)
         == whole + (part + [0x80] + Zeros(55 - |part|) + LengthBytes(|message| * 8))
  {
    hide LengthBytes, Zeros;
    PartBlock(|whole|, |part|);
    assert (119 - |part|) % 64 == 55 - |part|;
  }

  /** Padding that needs one more block. */
  lemma PaddedTwo(whole: seq<bv8>, part: seq<bv8>, message: seq<bv8>)
    requires message == whole + part && |whole| % 64 == 0 && 56 <= |part| < 64
    ensures Padded(message)
         == whole + (part + [0x80] + Zeros(63 - |part|)) + (Zeros(56) + LengthBytes(|message| * 8))
  {
    hide LengthBytes;
    PartBlock(|whole|, |part|);
    assert (119 - |part|) % 64 == (63 - |part|) + 56;
    assert Zeros(63 - |part| + 56) == Zeros(63 - |part|) + Zeros(56);
  }

  function Concat(chunks: seq<seq<bv8>>): seq<bv8> {
    if chunks == [] then [] else Concat(chunks[..|chunks| - 1]) + chunks[|chunks| - 1]
  }

  /** However a message is split into calls, the digest is the same. */
  method HashChunks(chunks: seq<seq<bv8>>) returns (digest: seq<bv8>)
    requires |Concat(chunks)| <= MaxBytes
    ensures digest == Sha256Of(Concat(chunks))
  {
    hide Sha256Of;
    var hasher := new Hasher();
    for i := 0 to |chunks|
      invariant hasher.Valid() && !hasher.finished && hasher.message == Concat(chunks[..i])
      invariant fresh(hasher) && fresh(hasher.state) && fresh(hasher.buffer)
    {
      PrefixSmaller(chunks, i + 1);
      assert chunks[..i + 1][..i] == chunks[..i];
      var ok := hasher.Update(chunks[i]);
    }
    assert chunks[..|chunks|] == chunks;
    var ok;
    ok, digest := hasher.Finish();
  }

  lemma {:induction false} PrefixSmaller(chunks: seq<seq<bv8>>, n: nat)
    requires n <= |chunks|
    ensures |Concat(chunks[..n])| <= |Concat(chunks)|
    decreases |chunks| - n
  {
    if n < |chunks| {
      PrefixSmaller(chunks, n + 1);
      assert chunks[..n + 1][..n] == chunks[..n];
    } else {
      assert chunks[..n] == chunks;
    }
  }

  /** The largest message the source accepts. */
  const MaxBytes := 0x1fff_ffff_ffff_ffff

  lemma RoundsNone(r: Registers, b: Block) ensures Rounds(r, b, 0) == r {}

  lemma RoundsNext(r: Registers, b: Block, n: nat)
    requires n < 64
    ensures Rounds(r, b, n + 1) == Round(Rounds(r, b, n), Constant(n), Schedule(b, n))
  {}

  lemma RoundIs(r: Registers, k: Word, w: Word, temp1: Word, temp2: Word)
    requires temp1 == Plus(Plus(Plus(Plus(r[7], BigSigma1(r[4])), Ch(r[4], r[5], r[6])), k), w)
    requires temp2 == Plus(BigSigma0(r[0]), Maj(r[0], r[1], r[2]))
    ensures Round(r, k, w) == [Plus(temp1, temp2), r[0], r[1], r[2], Plus(r[3], temp1), r[4], r[5], r[6]]
  {
    hide BigSigma0, BigSigma1, Ch, Maj, Plus;
  }

  lemma WholeSize(n: nat, part: nat)
    requires part == n % 64
    ensures part < 64 && (n - part) % 64 == 0
  {}

  lemma FullBlock(whole: nat)
    requires whole % 64 == 0
    ensures (whole + 64) % 64 == 0
  {}

  lemma PartBlock(whole: nat, part: nat)
    requires whole % 64 == 0 && part < 64
    ensures (whole + part) % 64 == part
  {}
}
