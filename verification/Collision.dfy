/** find_collision: two pairs of blocks that lead from one chaining value to one chaining value. */
module Collision {
  import opened Md5
  import opened SearchCommon
  import Block0
  import Block1

  /** block_result: the two messages, two blocks each. */
  datatype Pair = Pair(m1b0: Block, m1b1: Block, m2b0: Block, m2b1: Block)

  function Chain2(iv: Regs, b0: Block, b1: Block): Regs { Compress(Compress(iv, b0), b1) }

  /** What a collision is: different messages, equal chaining values. */
  ghost predicate Collides(iv: Regs, p: Pair) {
    && p.m1b0 != p.m2b0
    && p.m1b1 != p.m2b1
    && Chain2(iv, p.m1b0, p.m1b1) == Chain2(iv, p.m2b0, p.m2b1)
  }

  lemma TopBitMoves(x: Word) ensures Plus(x, W(0x80000000)) != x {}

  lemma PerturbMoves(block: Block, up: bool)
    ensures Perturb(block, up) != block
  {
    hide Plus;
    TopBitMoves(block[4]);
    assert Perturb(block, up)[4] == Plus(block[4], W(0x80000000));
  }

  /** The first block's exit condition and the second block's fit together. */
  lemma PairsMeet(iv: Regs, b0: Block, b1: Block)
    requires Block0.FirstPair(iv, b0) && Block1.Joins(Compress(iv, b0), b1)
    ensures Collides(iv, Pair(b0, b1, Perturb(b0, true), Perturb(b1, false)))
  {
    hide Compress, Perturb, AddDelta;
    PerturbMoves(b0, true);
    PerturbMoves(b1, false);
  }

  /** find_collision. With a result, it is a collision for this chaining value, and the second search was one
      the first block was chosen for; without one, the abort flag was seen. */
  method FindCollision(th: Thread, iv: Regs) returns (found: bool, p: Pair)
    modifies th
    ensures found ==> Collides(iv, p) && Useful(Compress(iv, p.m1b0))
    ensures found ==> p.m2b0 == Perturb(p.m1b0, true) && p.m2b1 == Perturb(p.m1b1, false)
    ensures !found ==> th.polls == 0
  {
    hide Compress, Perturb, Useful, Block0.FirstPair, Block1.Joins, Collides, Block0.ExtendsUseful, Block1.Extends;
    var b0, b1 := new Word[16](i => W(0)), new Word[16](i => W(0));
    p := Pair(b0[..], b1[..], b0[..], b1[..]);
    found := Block0.FindBlock0(th, b0, iv);
    if !found {
      return;
    }
    var ihv := CompressOf(iv, b0);
    found := Block1.FindBlock1(th, b1, ihv);
    if !found {
      return;
    }
    var c0 := PerturbedCopy(b0, true);
    var c1 := PerturbedCopy(b1, false);
    PairsMeet(iv, b0[..], b1[..]);
    p := Pair(b0[..], b1[..], c0[..], c1[..]);
  }
}
