/** The files of a task: the padded prefix, the two outputs, and what MD5 says of them. */
module Files {
  import opened Common
  import opened Md5
  import opened SearchCommon
  import opened Collision

  // ---------------------------------------------------------------- bytes and blocks

  /** A word from its four bytes, lowest first. */
  function WordOf(b0: bv8, b1: bv8, b2: bv8, b3: bv8): Word {
    W((b0 as bv32) | ((b1 as bv32) << 8) | ((b2 as bv32) << 16) | ((b3 as bv32) << 24))
  }

  function ByteOf(w: Word, c: nat): bv8
    requires c < 4
  {
    var x := if c == 0 then w.v else if c == 1 then w.v >> 8 else if c == 2 then w.v >> 16 else w.v >> 24;
    (x & 0xff) as bv8
  }

  lemma WordBackRaw(x: bv32)
    ensures (((x & 0xff) as bv8) as bv32) | ((((x >> 8) & 0xff) as bv8) as bv32 << 8)
          | ((((x >> 16) & 0xff) as bv8) as bv32 << 16) | ((((x >> 24) & 0xff) as bv8) as bv32 << 24) == x
  {}

  lemma WordBack(w: Word)
    ensures WordOf(ByteOf(w, 0), ByteOf(w, 1), ByteOf(w, 2), ByteOf(w, 3)) == w
  {
    WordBackRaw(w.v);
  }

  function BlockOf(bytes: seq<bv8>): Block
    requires |bytes| == 64
  {
    seq(16, k requires 0 <= k < 16 => WordOf(bytes[4 * k], bytes[4 * k + 1], bytes[4 * k + 2], bytes[4 * k + 3]))
  }

  function BytesOf(words: seq<Word>): (bytes: seq<bv8>)
    ensures |bytes| == 4 * |words|
  {
    if words == [] then []
    else
      var w := words[|words| - 1];
      BytesOf(words[..|words| - 1]) + [ByteOf(w, 0), ByteOf(w, 1), ByteOf(w, 2), ByteOf(w, 3)]
  }

  lemma {:induction false} BytesAt(words: seq<Word>, k: nat)
    requires k < |words|
    ensures BytesOf(words)[4 * k..4 * k + 4]
         == [ByteOf(words[k], 0), ByteOf(words[k], 1), ByteOf(words[k], 2), ByteOf(words[k], 3)]
  {
    hide ByteOf;
    var n := |words| - 1;
    if k < n {
      BytesAt(words[..n], k);
      assert BytesOf(words)[4 * k..4 * k + 4] == BytesOf(words[..n])[4 * k..4 * k + 4];
    }
  }

  /** Reading back the bytes of a block gives the block. */
  lemma BlockBack(block: Block)
    ensures BlockOf(BytesOf(block)) == block
  {
    hide ByteOf, WordOf;
    var bytes := BytesOf(block);
    forall k | 0 <= k < 16
      ensures BlockOf(bytes)[k] == block[k]
    {
      BytesAt(block, k);
      var part := bytes[4 * k..4 * k + 4];
      assert part[0] == bytes[4 * k] && part[1] == bytes[4 * k + 1];
      assert part[2] == bytes[4 * k + 2] && part[3] == bytes[4 * k + 3];
      WordBack(block[k]);
    }
  }

  lemma BytesApart(x: Block, y: Block)
    requires x != y
    ensures BytesOf(x) != BytesOf(y)
  {
    hide BlockOf, BytesOf;
    BlockBack(x);
    BlockBack(y);
  }

  /** append_block. */
  method AppendBlock(out: seq<bv8>, block: Block) returns (r: seq<bv8>)
    ensures r == out + BytesOf(block)
  {
    hide ByteOf;
    r := out;
    for k := 0 to 16
      invariant r == out + BytesOf(block[..k])
    {
      assert block[..k + 1][..k] == block[..k];
      for c := 0 to 4
        invariant r == out + BytesOf(block[..k])
          + [ByteOf(block[k], 0), ByteOf(block[k], 1), ByteOf(block[k], 2), ByteOf(block[k], 3)][..c]
      {
        r := r + [ByteOf(block[k], c)];
      }
    }
    assert block[..16] == block;
  }

  // ---------------------------------------------------------------- MD5 of a byte string

  const Initial := Regs(W(0x67452301), W(0xefcdab89), W(0x98badcfe), W(0x10325476))

  /** The compression function folded over the 64-byte pieces. */
  function Chain(iv: Regs, bytes: seq<bv8>): Regs
    requires |bytes| % 64 == 0
    decreases |bytes|
  {
    if bytes == [] then iv else Chain(Compress(iv, BlockOf(bytes[..64])), bytes[64..])
  }

  lemma {:induction false} ChainAppend(iv: Regs, x: seq<bv8>, y: seq<bv8>)
    requires |x| % 64 == 0 && |y| % 64 == 0
    ensures Chain(iv, x + y) == Chain(Chain(iv, x), y)
    decreases |x|
  {
    hide Compress, BlockOf;
    if x == [] {
      assert x + y == y;
    } else {
      assert (x + y)[..64] == x[..64] && (x + y)[64..] == x[64..] + y;
      ChainAppend(Compress(iv, BlockOf(x[..64])), x[64..], y);
    }
  }

  /** Sections 3.1 and 3.2 of RFC 1321: a one bit, zero bits, and the length in bits modulo 2^64. */
  function Padding(n: nat): (p: seq<bv8>)
    ensures (n + |p|) % 64 == 0
  {
    [0x80] + Zeros((119 - n % 64) % 64) + seq(8, i requires 0 <= i < 8 => LengthByte(8 * n, i))
  }

  /** Sections 3.1 to 3.5 of RFC 1321. */
  function Md5Of(message: seq<bv8>): (digest: seq<bv8>)
    ensures |digest| == 16
  {
    Digest(Chain(Initial, message + Padding(|message|)))
  }

  /** The registers A, B, C, D, each lowest byte first. */
  function Digest(r: Regs): (digest: seq<bv8>)
    ensures |digest| == 16
  {
    BytesOf([r.a, r.b, r.c, r.d])
  }

  lemma Md5Split(x: seq<bv8>, rest: seq<bv8>)
    requires |x| % 64 == 0
    ensures |rest + Padding(|x| + |rest|)| % 64 == 0
    ensures Md5Of(x + rest) == Digest(Chain(Chain(Initial, x), rest + Padding(|x| + |rest|)))
  {
    hide Chain, Padding, Digest;
    var p := Padding(|x| + |rest|);
    assert (x + rest) + p == x + (rest + p);
    ChainAppend(Initial, x, rest + p);
  }

  /** Whole blocks that lead to one chaining value have one MD5, whatever follows them. */
  lemma SameMd5(x: seq<bv8>, y: seq<bv8>, rest: seq<bv8>)
    requires |x| == |y| && |x| % 64 == 0 && Chain(Initial, x) == Chain(Initial, y)
    ensures Md5Of(x + rest) == Md5Of(y + rest)
  {
    hide Chain, Padding, Digest, Md5Of;
    Md5Split(x, rest);
    Md5Split(y, rest);
  }

  // ---------------------------------------------------------------- a task

  datatype TaskCase = TaskCase(prefix: seq<bv8>, iv: Regs, outfn1: string, outfn2: string)

  /** The prefix is the input with zeros up to a whole number of blocks, and iv the chaining value behind it. */
  ghost predicate CaseOf(input: seq<bv8>, tc: TaskCase) {
    && |tc.prefix| % 64 == 0
    && |input| <= |tc.prefix| < |input| + 64
    && tc.prefix == input + Zeros(|tc.prefix| - |input|)
    && tc.iv == Chain(Initial, tc.prefix)
  }

  function Message(prefix: seq<bv8>, b0: Block, b1: Block): seq<bv8> {
    prefix + BytesOf(b0) + BytesOf(b1)
  }

  lemma ChainOfBlock(iv: Regs, block: Block)
    ensures Chain(iv, BytesOf(block)) == Compress(iv, block)
  {
    hide Compress, BlockOf, BytesOf;
    var bytes := BytesOf(block);
    BlockBack(block);
    assert bytes[..64] == bytes && bytes[64..] == [];
    assert Chain(Compress(iv, block), []) == Compress(iv, block);
  }

  lemma ChainOfMessage(iv: Regs, prefix: seq<bv8>, b0: Block, b1: Block)
    requires |prefix| % 64 == 0
    ensures |Message(prefix, b0, b1)| == |prefix| + 128
    ensures Chain(iv, Message(prefix, b0, b1)) == Chain2(Chain(iv, prefix), b0, b1)
  {
    hide Compress, Chain, BytesOf;
    ChainAppend(iv, prefix + BytesOf(b0), BytesOf(b1));
    ChainAppend(iv, prefix, BytesOf(b0));
    ChainOfBlock(Chain(iv, prefix), b0);
    ChainOfBlock(Chain2One(iv, prefix, b0), b1);
  }

  function Chain2One(iv: Regs, prefix: seq<bv8>, b0: Block): Regs
    requires |prefix| % 64 == 0
  {
    Compress(Chain(iv, prefix), b0)
  }

  /** What utils/verify.py checks: it opens the input and both outputs after the run. */
  ghost predicate Passes(input: seq<bv8>, x: seq<bv8>, y: seq<bv8>) {
    && x != y
    && input <= x && input <= y
    && Md5Of(x) == Md5Of(y)
  }

  /** The check passes, and the files keep equal MD5 whatever is appended to both. */
  ghost predicate Verified(input: seq<bv8>, x: seq<bv8>, y: seq<bv8>) {
    Passes(input, x, y) && forall rest :: Md5Of(x + rest) == Md5Of(y + rest)
  }

  lemma MessagesVerified(input: seq<bv8>, tc: TaskCase, p: Pair)
    requires CaseOf(input, tc) && Collides(tc.iv, p)
    ensures Verified(input, Message(tc.prefix, p.m1b0, p.m1b1), Message(tc.prefix, p.m2b0, p.m2b1))
  {
    hide Compress, Chain, Chain2, BytesOf, Md5Of;
    var x, y := Message(tc.prefix, p.m1b0, p.m1b1), Message(tc.prefix, p.m2b0, p.m2b1);
    ChainOfMessage(Initial, tc.prefix, p.m1b0, p.m1b1);
    ChainOfMessage(Initial, tc.prefix, p.m2b0, p.m2b1);
    BytesApart(p.m1b0, p.m2b0);
    var n := |tc.prefix|;
    assert x[n..n + 64] == BytesOf(p.m1b0) && y[n..n + 64] == BytesOf(p.m2b0);
    assert input == tc.prefix[..|input|];
    SameMd5(x, y, []);
    assert x + [] == x && y + [] == y;
    forall rest ensures Md5Of(x + rest) == Md5Of(y + rest) {
      SameMd5(x, y, rest);
    }
  }

  /** The three names of a task are different files. */
  predicate NamesDiffer(infn: string, outfn1: string, outfn2: string) {
    outfn1 != outfn2 && infn != outfn1 && infn != outfn2
  }

  /** A task is written: each output holds its message, unless the second is the same file as the first. */
  ghost predicate BothThere(files: map<string, seq<bv8>>, tc: TaskCase, p: Pair) {
    && tc.outfn1 in files && tc.outfn2 in files
    && files[tc.outfn2] == Message(tc.prefix, p.m2b0, p.m2b1)
    && (tc.outfn1 != tc.outfn2 ==> files[tc.outfn1] == Message(tc.prefix, p.m1b0, p.m1b1))
  }

  /** The check of a written task passes exactly if its three names differ, provided its input has been left alone by
      everyone else. Where the input is also an output, the check takes that output for the input: it is as long as
      the other one and not the same, so it is no prefix of it. */
  lemma CheckIsOfNames(files: map<string, seq<bv8>>, infn: string, input: seq<bv8>, tc: TaskCase, p: Pair)
    requires CaseOf(input, tc) && Collides(tc.iv, p) && BothThere(files, tc, p) && infn in files
    requires infn != tc.outfn1 && infn != tc.outfn2 ==> files[infn] == input
    ensures Passes(files[infn], files[tc.outfn1], files[tc.outfn2]) <==> NamesDiffer(infn, tc.outfn1, tc.outfn2)
    ensures NamesDiffer(infn, tc.outfn1, tc.outfn2) ==>
      Verified(files[infn], files[tc.outfn1], files[tc.outfn2])
  {
    MessagesVerified(input, tc, p);
    hide Message, Md5Of, CaseOf, Collides;
    var x, y := Message(tc.prefix, p.m1b0, p.m1b1), Message(tc.prefix, p.m2b0, p.m2b1);
    assert |x| == |y| && x != y by { SameLength(tc.prefix, p); }
  }

  lemma SameLength(prefix: seq<bv8>, p: Pair)
    ensures |Message(prefix, p.m1b0, p.m1b1)| == |Message(prefix, p.m2b0, p.m2b1)| == |prefix| + 128
  {
    hide BytesOf;
  }

  /** The task line "a a b": it is written successfully and fails the check. */
  lemma InputAsOutputFails(files: map<string, seq<bv8>>, input: seq<bv8>, tc: TaskCase, p: Pair)
    requires CaseOf(input, tc) && Collides(tc.iv, p) && tc.outfn1 == "a" && tc.outfn2 == "b"
    ensures var x, y := Message(tc.prefix, p.m1b0, p.m1b1), Message(tc.prefix, p.m2b0, p.m2b1);
      var after := files["a" := x]["b" := y];
      !Passes(after["a"], after["a"], after["b"]) && Verified(input, after["a"], after["b"])
  {
    hide Message, Passes, CaseOf, Collides, Verified;
    var x, y := Message(tc.prefix, p.m1b0, p.m1b1), Message(tc.prefix, p.m2b0, p.m2b1);
    var after := files["a" := x]["b" := y];
    assert "a" != "b" by { assert "a"[0] != "b"[0]; }
    assert BothThere(after, tc, p);
    CheckIsOfNames(after, "a", input, tc, p);
    MessagesVerified(input, tc, p);
  }

  /** load_case, after the input has been read. */
  method LoadCase(input: seq<bv8>, outfn1: string, outfn2: string) returns (tc: TaskCase)
    ensures CaseOf(input, tc) && tc.outfn1 == outfn1 && tc.outfn2 == outfn2
  {
    hide Chain;
    var prefix := PadInput(input);
    var ihv := new Word[4] [W(0x67452301), W(0xefcdab89), W(0x98badcfe), W(0x10325476)];
    assert RegsOf(ihv[..]) == Initial;
    var off := 0;
    ChainStart(Initial, prefix);
    while off < |prefix|
      invariant 0 <= off <= |prefix| && off % 64 == 0
      invariant RegsOf(ihv[..]) == Chain(Initial, prefix[..off])
    {
      AbsorbBlock(ihv, prefix, off);
      off := off + 64;
    }
    assert prefix[..off] == prefix;
    tc := TaskCase(prefix, Regs(ihv[0], ihv[1], ihv[2], ihv[3]), outfn1, outfn2);
  }

  lemma ChainStart(iv: Regs, bytes: seq<bv8>) ensures Chain(iv, bytes[..0]) == iv {}

  ghost function EndOf(n: nat): (end: nat)
    ensures end % 64 == 0 && n <= end < n + 64
  {
    (n + 63) / 64 * 64
  }

  /** Zeros up to a whole number of blocks. */
  method PadInput(input: seq<bv8>) returns (prefix: seq<bv8>)
    ensures |prefix| % 64 == 0 && |input| <= |prefix| < |input| + 64
    ensures prefix == input + Zeros(|prefix| - |input|)
  {
    hide EndOf;
    prefix := input;
    ghost var end := EndOf(|input|);
    while |prefix| % 64 != 0
      invariant |input| <= |prefix| <= end
      invariant prefix == input + Zeros(|prefix| - |input|)
      decreases end - |prefix|
    {
      assert Zeros(|prefix| - |input|) + [0] == Zeros(|prefix| + 1 - |input|);
      prefix := prefix + [0];
    }
  }

  /** One turn of the loop over the blocks of the prefix. */
  method AbsorbBlock(ihv: array<Word>, prefix: seq<bv8>, off: nat)
    requires ihv.Length == 4 && |prefix| % 64 == 0 && off % 64 == 0 && off < |prefix|
    requires RegsOf(ihv[..]) == Chain(Initial, prefix[..off])
    modifies ihv
    ensures RegsOf(ihv[..]) == Chain(Initial, prefix[..off + 64])
  {
    hide Chain, Compress, WordOf, BlockOf;
    var block := new Word[16](k requires 0 <= k < 16 =>
      WordOf(prefix[off + k * 4], prefix[off + k * 4 + 1], prefix[off + k * 4 + 2], prefix[off + k * 4 + 3]));
    OneBlock(prefix, off, block[..]);
    Md5Compress(ihv, block);
    ChainNext(prefix, off);
  }

  lemma ChainNext(prefix: seq<bv8>, off: nat)
    requires |prefix| % 64 == 0 && off % 64 == 0 && off < |prefix|
    ensures Chain(Initial, prefix[..off + 64])
         == Compress(Chain(Initial, prefix[..off]), BlockOf(prefix[off..off + 64]))
  {
    hide Compress, BlockOf;
    var piece := prefix[off..off + 64];
    ChainAppend(Initial, prefix[..off], piece);
    assert prefix[..off] + piece == prefix[..off + 64];
    assert piece[..64] == piece && piece[64..] == [];
  }

  lemma OneBlock(prefix: seq<bv8>, off: nat, block: Block)
    requires off + 64 <= |prefix|
    requires forall k :: 0 <= k < 16 ==>
      block[k] == WordOf(prefix[off + k * 4], prefix[off + k * 4 + 1], prefix[off + k * 4 + 2], prefix[off + k * 4 + 3])
    ensures block == BlockOf(prefix[off..off + 64])
  {
    hide WordOf;
  }

  // ---------------------------------------------------------------- the file system

  /** What the operating system does to one attempt to write a file. */
  datatype Fault = NoFault | CannotOpen | Stops(at: nat) | LostAtClose(at: nat)

  /** Whether the attempt is taken for a success: the stream is asked before its closing flush. */
  predicate Reported(fault: Fault) { fault.NoFault? || fault.LostAtClose? }

  class Disk {
    var files: map<string, seq<bv8>>

    constructor (initial: map<string, seq<bv8>>) ensures files == initial { files := initial; }

    /** write_file: opening for writing empties the file, and a failure later leaves a part of the data; a failure of
        the closing flush goes unnoticed. */
    method WriteFile(fn: string, data: seq<bv8>, fault: Fault) returns (ok: bool)
      modifies this
      ensures ok == Reported(fault) && AfterWrite(old(files), files, fn, data, ok, fault.NoFault?)
    {
      match fault
      case NoFault =>
        files := files[fn := data];
        ok := true;
      case CannotOpen =>
        ok := false;
      case Stops(at) =>
        files := files[fn := if at < |data| then data[..at] else data];
        ok := false;
      case LostAtClose(at) =>
        files := files[fn := if at < |data| then data[..at] else data];
        ok := true;
    }
  }

  /** What an attempt to write a file may leave: all of the data if it is whole, else a part of the data, or, if that
      is noticed, the old file; and every other file as it was. */
  ghost predicate AfterWrite(before: map<string, seq<bv8>>, after: map<string, seq<bv8>>, fn: string, data: seq<bv8>,
                             ok: bool, whole: bool) {
    && (whole ==> ok && fn in after && after[fn] == data)
    && (!whole ==> (!ok && after == before) || (fn in after && after[fn] <= data))
    && Elsewhere(before, after, fn)
  }

  ghost predicate Elsewhere(before: map<string, seq<bv8>>, after: map<string, seq<bv8>>, fn: string) {
    forall other :: other != fn ==> SameFile(before, after, other)
  }

  ghost predicate SameFile(before: map<string, seq<bv8>>, after: map<string, seq<bv8>>, fn: string) {
    (fn in after <==> fn in before) && (fn in after ==> after[fn] == before[fn])
  }

  /** write_case: both writes are attempted, whatever becomes of the first. */
  method WriteCase(disk: Disk, tc: TaskCase, p: Pair, fault1: Fault, fault2: Fault) returns (ok: bool)
    modifies disk
    ensures ok == (Reported(fault1) && Reported(fault2))
    ensures exists one ::
      && AfterWrite(old(disk.files), one, tc.outfn1, Message(tc.prefix, p.m1b0, p.m1b1),
                    Reported(fault1), fault1.NoFault?)
      && AfterWrite(one, disk.files, tc.outfn2, Message(tc.prefix, p.m2b0, p.m2b1),
                    Reported(fault2), fault2.NoFault?)
  {
    hide BytesOf, AfterWrite;
    var buf := tc.prefix;
    buf := AppendBlock(buf, p.m1b0);
    buf := AppendBlock(buf, p.m1b1);
    ok := disk.WriteFile(tc.outfn1, buf, fault1);
    ghost var one := disk.files;
    assert AfterWrite(old(disk.files), one, tc.outfn1, Message(tc.prefix, p.m1b0, p.m1b1),
                    Reported(fault1), fault1.NoFault?);
    buf := buf[..|tc.prefix|];
    assert buf == tc.prefix;
    buf := AppendBlock(buf, p.m2b0);
    buf := AppendBlock(buf, p.m2b1);
    var ok2 := disk.WriteFile(tc.outfn2, buf, fault2);
    ok := ok2 && ok;
  }

  lemma BothWritten(before: map<string, seq<bv8>>, one: map<string, seq<bv8>>, after: map<string, seq<bv8>>,
                    tc: TaskCase, p: Pair, fault1: Fault, fault2: Fault)
    requires AfterWrite(before, one, tc.outfn1, Message(tc.prefix, p.m1b0, p.m1b1), Reported(fault1), fault1.NoFault?)
    requires AfterWrite(one, after, tc.outfn2, Message(tc.prefix, p.m2b0, p.m2b1), Reported(fault2), fault2.NoFault?)
    ensures fault1.NoFault? && fault2.NoFault? ==> BothThere(after, tc, p)
    ensures Reported(fault1) && Reported(fault2) ==> tc.outfn1 in after && tc.outfn2 in after
    ensures forall fn :: fn != tc.outfn1 && fn != tc.outfn2 ==> SameFile(before, after, fn)
  {
    hide Message;
    forall fn | fn != tc.outfn1 && fn != tc.outfn2
      ensures SameFile(before, after, fn)
    {
      assert SameFile(before, one, fn) && SameFile(one, after, fn);
    }
    assert tc.outfn1 != tc.outfn2 ==> SameFile(one, after, tc.outfn1);
  }

  /** One task from input file to output files, as one worker runs it. When it reports success and both files are
      whole, they pass utils/verify.py exactly if the three names of the task differ; nothing else on the disk
      changes. */
  method RunTask(th: Thread, disk: Disk, infn: string, outfn1: string, outfn2: string, fault1: Fault, fault2: Fault)
    returns (ok: bool)
    modifies th, disk
    ensures ok ==> Reported(fault1) && Reported(fault2)
    ensures ok ==> infn in disk.files && outfn1 in disk.files && outfn2 in disk.files
    ensures ok && fault1.NoFault? && fault2.NoFault? ==>
      && (Passes(disk.files[infn], disk.files[outfn1], disk.files[outfn2]) <==> NamesDiffer(infn, outfn1, outfn2))
      && (NamesDiffer(infn, outfn1, outfn2) ==>
            Verified(disk.files[infn], disk.files[outfn1], disk.files[outfn2]))
    ensures forall fn :: fn != outfn1 && fn != outfn2 ==> SameFile(old(disk.files), disk.files, fn)
  {
    hide Compress, Collides, CaseOf, Verified, Passes, Message, Perturb, Useful, Chain2, AfterWrite, BothThere;
    if infn !in disk.files {
      return false;
    }
    var input := disk.files[infn];
    var tc := LoadCase(input, outfn1, outfn2);
    var found, p := FindCollision(th, tc.iv);
    if !found {
      return false;
    }
    ok := WriteCase(disk, tc, p, fault1, fault2);
    ghost var one :|
      && AfterWrite(old(disk.files), one, tc.outfn1, Message(tc.prefix, p.m1b0, p.m1b1),
                    Reported(fault1), fault1.NoFault?)
      && AfterWrite(one, disk.files, tc.outfn2, Message(tc.prefix, p.m2b0, p.m2b1),
                    Reported(fault2), fault2.NoFault?);
    BothWritten(old(disk.files), one, disk.files, tc, p, fault1, fault2);
    assert infn != outfn1 && infn != outfn2 ==> SameFile(old(disk.files), disk.files, infn);
    if fault1.NoFault? && fault2.NoFault? {
      CheckIsOfNames(disk.files, infn, input, tc, p);
    }
  }

  /** A file that lost its end when it was closed, down to less than the input, is reported as a success and fails the
      check. */
  lemma LostOutputFails(files: map<string, seq<bv8>>, after: map<string, seq<bv8>>, fn: string, data: seq<bv8>,
                        input: seq<bv8>, at: nat)
    requires at < |input| && at < |data| && after == files[fn := data[..at]]
    ensures Reported(LostAtClose(at)) && AfterWrite(files, after, fn, data, true, false)
    ensures forall other :: !Passes(input, after[fn], other) && !Passes(input, other, after[fn])
  {
    assert forall name :: name != fn ==> SameFile(files, after, name);
  }

  lemma NamesThere(files: map<string, seq<bv8>>, tc: TaskCase, p: Pair)
    requires BothThere(files, tc, p)
    ensures tc.outfn1 in files && tc.outfn2 in files
  {}
}
