/** Eight candidates at a time: the vector form of steps 24 to 51 and its alive masks. */
module Lanes {
  import opened Md5
  import opened SearchCommon

  type Vec = s: seq<Word> | |s| == 8 witness seq(8, i => W(0))

  /** The block a lane works on: words 8, 9 and 12 are its own. */
  function LaneBlock(block: Block, m8: Word, m9: Word, m12: Word): Block {
    block[8 := m8][9 := m9][12 := m12]
  }

  /** vbcast. */
  function Spread(x: Word): Vec { seq(8, i => x) }

  /** MD5_STEP on vectors. */
  method VecStep(f: Round, a: Vec, b: Vec, c: Vec, d: Vec, m: Vec, ac: bv32, rc: nat) returns (r: Vec)
    requires 0 < rc < 32
    ensures forall l :: 0 <= l < 8 ==> r[l] == StepValue(f, a[l], b[l], c[l], d[l], m[l], ac, rc)
  {
    hide StepValue;
    r := seq(8, l requires 0 <= l < 8 => StepValue(f, a[l], b[l], c[l], d[l], m[l], ac, rc));
  }

  /** Steps 24 to 33 in all lanes. */
  method VecTo34(r: Regs, block: array<Word>, vb8: Vec, vb9: Vec, vb12: Vec)
    returns (va: Vec, vb: Vec, vc: Vec, vd: Vec)
    requires block.Length == 16
    ensures forall l :: 0 <= l < 8 ==>
      Regs(vc[l], vd[l], va[l], vb[l]) == Run(24, 34, r, LaneBlock(block[..], vb8[l], vb9[l], vb12[l]))
  {
    hide StepValue, Run;
    va, vb, vc, vd := Spread(r.a), Spread(r.b), Spread(r.c), Spread(r.d);
    ghost var s20, s21, s22, s23 := va, vd, vc, vb;
    va := VecStep(G, va, vb, vc, vd, vb9, 0x21e1cde6, 5);
    ghost var s24 := va;
    vd := VecStep(G, vd, va, vb, vc, Spread(block[14]), 0xc33707d6, 9);
    ghost var s25 := vd;
    vc := VecStep(G, vc, vd, va, vb, Spread(block[3]), 0xf4d50d87, 14);
    ghost var s26 := vc;
    vb := VecStep(G, vb, vc, vd, va, vb8, 0x455a14ed, 20);
    ghost var s27 := vb;
    va := VecStep(G, va, vb, vc, vd, Spread(block[13]), 0xa9e3e905, 5);
    ghost var s28 := va;
    vd := VecStep(G, vd, va, vb, vc, Spread(block[2]), 0xfcefa3f8, 9);
    ghost var s29 := vd;
    vc := VecStep(G, vc, vd, va, vb, Spread(block[7]), 0x676f02d9, 14);
    ghost var s30 := vc;
    vb := VecStep(G, vb, vc, vd, va, vb12, 0x8d2a4c8a, 20);
    ghost var s31 := vb;
    va := VecStep(H, va, vb, vc, vd, Spread(block[5]), 0xfffa3942, 4);
    ghost var s32 := va;
    vd := VecStep(H, vd, va, vb, vc, vb8, 0x8771f681, 11);
    ghost var s33 := vd;
    forall l | 0 <= l < 8
      ensures Regs(vc[l], vd[l], va[l], vb[l]) == Run(24, 34, r, LaneBlock(block[..], vb8[l], vb9[l], vb12[l]))
    {
      var w := LaneBlock(block[..], vb8[l], vb9[l], vb12[l]);
      RunStep(24, 34, Regs(s20[l], s23[l], s22[l], s21[l]), w);
      RunStep(25, 34, Regs(s21[l], s24[l], s23[l], s22[l]), w);
      RunStep(26, 34, Regs(s22[l], s25[l], s24[l], s23[l]), w);
      RunStep(27, 34, Regs(s23[l], s26[l], s25[l], s24[l]), w);
      RunStep(28, 34, Regs(s24[l], s27[l], s26[l], s25[l]), w);
      RunStep(29, 34, Regs(s25[l], s28[l], s27[l], s26[l]), w);
      RunStep(30, 34, Regs(s26[l], s29[l], s28[l], s27[l]), w);
      RunStep(31, 34, Regs(s27[l], s30[l], s29[l], s28[l]), w);
      RunStep(32, 34, Regs(s28[l], s31[l], s30[l], s29[l]), w);
      RunStep(33, 34, Regs(s29[l], s32[l], s31[l], s30[l]), w);
      RunEnd(34, Regs(s30[l], s33[l], s32[l], s31[l]), w);
    }
  }

  /** Steps 35 to 47 in all lanes. */
  method VecTo48(va': Vec, vb': Vec, vc': Vec, vd': Vec, block: array<Word>, vb8: Vec, vb9: Vec, vb12: Vec)
    returns (va: Vec, vb: Vec, vc: Vec, vd: Vec)
    requires block.Length == 16
    ensures forall l :: 0 <= l < 8 ==>
      Regs(va[l], vb[l], vc[l], vd[l]) ==
      Run(35, 48, Regs(vb'[l], vc'[l], vd'[l], va'[l]), LaneBlock(block[..], vb8[l], vb9[l], vb12[l]))
  {
    hide StepValue, Run;
    va, vb, vc, vd := va', vb', vc', vd';
    ghost var s31, s32, s33, s34 := vb, va, vd, vc;
    vb := VecStep(H, vb, vc, vd, va, Spread(block[14]), 0xfde5380c, 23);
    ghost var s35 := vb;
    va := VecStep(H, va, vb, vc, vd, Spread(block[1]), 0xa4beea44, 4);
    ghost var s36 := va;
    vd := VecStep(H, vd, va, vb, vc, Spread(block[4]), 0x4bdecfa9, 11);
    ghost var s37 := vd;
    vc := VecStep(H, vc, vd, va, vb, Spread(block[7]), 0xf6bb4b60, 16);
    ghost var s38 := vc;
    vb := VecStep(H, vb, vc, vd, va, Spread(block[10]), 0xbebfbc70, 23);
    ghost var s39 := vb;
    va := VecStep(H, va, vb, vc, vd, Spread(block[13]), 0x289b7ec6, 4);
    ghost var s40 := va;
    vd := VecStep(H, vd, va, vb, vc, Spread(block[0]), 0xeaa127fa, 11);
    ghost var s41 := vd;
    vc := VecStep(H, vc, vd, va, vb, Spread(block[3]), 0xd4ef3085, 16);
    ghost var s42 := vc;
    vb := VecStep(H, vb, vc, vd, va, Spread(block[6]), 0x04881d05, 23);
    ghost var s43 := vb;
    va := VecStep(H, va, vb, vc, vd, vb9, 0xd9d4d039, 4);
    ghost var s44 := va;
    vd := VecStep(H, vd, va, vb, vc, vb12, 0xe6db99e5, 11);
    ghost var s45 := vd;
    vc := VecStep(H, vc, vd, va, vb, Spread(block[15]), 0x1fa27cf8, 16);
    ghost var s46 := vc;
    vb := VecStep(H, vb, vc, vd, va, Spread(block[2]), 0xc4ac5665, 23);
    ghost var s47 := vb;
    forall l | 0 <= l < 8
      ensures Regs(va[l], vb[l], vc[l], vd[l]) ==
        Run(35, 48, Regs(vb'[l], vc'[l], vd'[l], va'[l]), LaneBlock(block[..], vb8[l], vb9[l], vb12[l]))
    {
      var w := LaneBlock(block[..], vb8[l], vb9[l], vb12[l]);
      RunStep(35, 48, Regs(s31[l], s34[l], s33[l], s32[l]), w);
      RunStep(36, 48, Regs(s32[l], s35[l], s34[l], s33[l]), w);
      RunStep(37, 48, Regs(s33[l], s36[l], s35[l], s34[l]), w);
      RunStep(38, 48, Regs(s34[l], s37[l], s36[l], s35[l]), w);
      RunStep(39, 48, Regs(s35[l], s38[l], s37[l], s36[l]), w);
      RunStep(40, 48, Regs(s36[l], s39[l], s38[l], s37[l]), w);
      RunStep(41, 48, Regs(s37[l], s40[l], s39[l], s38[l]), w);
      RunStep(42, 48, Regs(s38[l], s41[l], s40[l], s39[l]), w);
      RunStep(43, 48, Regs(s39[l], s42[l], s41[l], s40[l]), w);
      RunStep(44, 48, Regs(s40[l], s43[l], s42[l], s41[l]), w);
      RunStep(45, 48, Regs(s41[l], s44[l], s43[l], s42[l]), w);
      RunStep(46, 48, Regs(s42[l], s45[l], s44[l], s43[l]), w);
      RunStep(47, 48, Regs(s43[l], s46[l], s45[l], s44[l]), w);
      RunEnd(48, Regs(s44[l], s47[l], s46[l], s45[l]), w);
    }
  }

  /** ((x >> n) & 1) - 1: all ones when bit n of x is clear. */
  function KeepClear(x: bv32, n: nat): bv32
    requires n < 32
  {
    ((x >> n) & 1) - 1
  }

  /** 0 - ((x >> n) & 1): all ones when bit n of x is set. */
  function KeepSet(x: bv32, n: nat): bv32
    requires n < 32
  {
    0 - ((x >> n) & 1)
  }

  function Bits(p: bool): bv32 { if p then 0xffffffff else 0 }

  function And(x: bv32, y: bv32): bv32 { x & y }

  lemma Keep31(x: bv32)
    ensures KeepClear(x, 31) == Bits(!Top(x))
    ensures KeepSet(x, 31) == Bits(Top(x))
  {}

  lemma Keep15(x: bv32)
    ensures KeepClear(x, 15) == Bits(x & 0x8000 == 0)
  {}

  type Mask = s: seq<bv32> | |s| == 8 witness seq(8, i => 0)

  /** The lanes of an alive mask are all ones or zero; `keep` says which. */
  ghost predicate Alive(alive: Mask, keep: seq<bool>)
    requires |keep| == 8
  {
    forall l :: 0 <= l < 8 ==> alive[l] == Bits(keep[l])
  }

  lemma KeepBoth(p: bool, q: bool)
    ensures And(Bits(p), Bits(q)) == Bits(p && q)
  {}

  /** alive &= KeepClear or KeepSet of the sign of x ^ y, lane by lane. */
  method FilterSign(alive: Mask, x: Vec, y: Vec, flip: bool, ghost keep: seq<bool>)
    returns (r: Mask, ghost kept: seq<bool>)
    requires |keep| == 8 && Alive(alive, keep)
    ensures |kept| == 8 && Alive(r, kept)
    ensures forall l :: 0 <= l < 8 ==> kept[l] == (keep[l] && Top(x[l].v ^ y[l].v) == flip)
  {
    hide KeepClear, KeepSet, Bits, And, Top;
    var bits := seq(8, l requires 0 <= l < 8 =>
      if flip then KeepSet(x[l].v ^ y[l].v, 31) else KeepClear(x[l].v ^ y[l].v, 31));
    r := seq(8, l requires 0 <= l < 8 => And(alive[l], bits[l]));
    kept := seq(8, l requires 0 <= l < 8 => keep[l] && Top(x[l].v ^ y[l].v) == flip);
    forall l | 0 <= l < 8
      ensures r[l] == Bits(kept[l])
    {
      Keep31(x[l].v ^ y[l].v);
      KeepBoth(keep[l], Top(x[l].v ^ y[l].v) == flip);
    }
  }

  /** Step 34 in all lanes, with the test of bit 15 before the rotation. */
  method VecStep34(va: Vec, vb: Vec, vc: Vec, vd: Vec, vm: Vec) returns (alive: Mask, vr: Vec, ghost keep: seq<bool>)
    ensures |keep| == 8 && Alive(alive, keep)
    ensures forall l :: 0 <= l < 8 ==>
      var sum := Sum(vc[l].v, Mix(H, vd[l], va[l], vb[l]).v, vm[l].v, 0x6d9d6122);
      keep[l] == (sum & 0x8000 == 0) && vr[l] == Turn(sum, 16, vd[l])
  {
    hide Sum, Mix, Turn, KeepClear, Bits;
    var sums := seq(8, l requires 0 <= l < 8 =>
      Sum(vc[l].v, Mix(H, vd[l], va[l], vb[l]).v, vm[l].v, 0x6d9d6122));
    alive := seq(8, l requires 0 <= l < 8 => KeepClear(sums[l], 15));
    keep := seq(8, l requires 0 <= l < 8 => sums[l] & 0x8000 == 0);
    forall l | 0 <= l < 8
      ensures alive[l] == Bits(keep[l])
    {
      Keep15(sums[l]);
    }
    vr := seq(8, l requires 0 <= l < 8 => Turn(sums[l], 16, vd[l]));
  }

  /** Steps 24 to 51 for eight candidates at once: the surviving lanes and every lane's state. */
  method VecFilter(r: Regs, block: array<Word>, vb8: Vec, vb9: Vec, vb12: Vec)
    returns (alive: Mask, va: Vec, vb: Vec, vc: Vec, vd: Vec, ghost keep: seq<bool>)
    requires block.Length == 16
    ensures |keep| == 8 && Alive(alive, keep)
    ensures forall l :: 0 <= l < 8 ==>
      keep[l] == Survives(r, LaneBlock(block[..], vb8[l], vb9[l], vb12[l]), false)
    ensures forall l :: 0 <= l < 8 ==>
      Regs(va[l], vb[l], vc[l], vd[l]) == Run(24, 52, r, LaneBlock(block[..], vb8[l], vb9[l], vb12[l]))
  {
    hide StepValue, Run, RowOf, Sum, Mix, Turn, Top;
    va, vb, vc, vd := VecTo34(r, block, vb8, vb9, vb12);
    ghost var a34, b34, c34, d34 := va, vb, vc, vd;
    alive, vc, keep := VecStep34(va, vb, vc, vd, Spread(block[11]));
    ghost var keep34 := keep;
    va, vb, vc, vd := VecTo48(va, vb, vc, vd, block, vb8, vb9, vb12);
    ghost var a48, b48, c48, d48 := va, vb, vc, vd;
    forall l | 0 <= l < 8
      ensures keep34[l] == !Bit15(Run(24, 34, r, LaneBlock(block[..], vb8[l], vb9[l], vb12[l])),
                                  LaneBlock(block[..], vb8[l], vb9[l], vb12[l]))
      ensures Regs(a48[l], b48[l], c48[l], d48[l])
           == Run(24, 48, r, LaneBlock(block[..], vb8[l], vb9[l], vb12[l]))
    {
      var w := LaneBlock(block[..], vb8[l], vb9[l], vb12[l]);
      Step34(Regs(c34[l], d34[l], a34[l], b34[l]), w);
      Extend(24, 34, r, w);
      RunSplit(24, 35, 48, r, w);
    }
    alive, keep := FilterSign(alive, vb, vd, false, keep);
    alive, va, vb, vc, vd, keep := VecFilterII(r, block, vb8, vb9, vb12, alive, va, vb, vc, vd, keep);
  }

  /** Steps 48 to 51, the last four conditions. */
  method VecFilterII(ghost r: Regs, block: array<Word>, ghost vb8: Vec, ghost vb9: Vec, ghost vb12: Vec,
                     alive': Mask, va': Vec, vb': Vec, vc': Vec, vd': Vec, ghost keep': seq<bool>)
    returns (alive: Mask, va: Vec, vb: Vec, vc: Vec, vd: Vec, ghost keep: seq<bool>)
    requires block.Length == 16 && |keep'| == 8 && Alive(alive', keep')
    requires forall l :: 0 <= l < 8 ==>
      Regs(va'[l], vb'[l], vc'[l], vd'[l]) == Run(24, 48, r, LaneBlock(block[..], vb8[l], vb9[l], vb12[l]))
    ensures |keep| == 8 && Alive(alive, keep)
    ensures forall l :: 0 <= l < 8 ==>
      var w := LaneBlock(block[..], vb8[l], vb9[l], vb12[l]);
      && Regs(va[l], vb[l], vc[l], vd[l]) == Run(24, 52, r, w)
      && keep[l] == (keep'[l] && !Opposite(Run(24, 49, r, w)) && Opposite(Run(24, 50, r, w))
                     && !Opposite(Run(24, 51, r, w)) && !Opposite(Run(24, 52, r, w)))
  {
    hide StepValue, Run;
    va, vb, vc, vd := va', vb', vc', vd';
    va := VecStep(I, va, vb, vc, vd, Spread(block[0]), 0xf4292244, 6);
    alive, keep := FilterSign(alive', va, vc, false, keep');
    ghost var keep1 := keep;
    vd := VecStep(I, vd, va, vb, vc, Spread(block[7]), 0x432aff97, 10);
    alive, keep := FilterSign(alive, vb, vd, true, keep);
    ghost var keep2 := keep;
    vc := VecStep(I, vc, vd, va, vb, Spread(block[14]), 0xab9423a7, 15);
    alive, keep := FilterSign(alive, va, vc, false, keep);
    ghost var keep3 := keep;
    vb := VecStep(I, vb, vc, vd, va, Spread(block[5]), 0xfc93a039, 21);
    alive, keep := FilterSign(alive, vb, vd, false, keep);
    forall l | 0 <= l < 8
      ensures var w := LaneBlock(block[..], vb8[l], vb9[l], vb12[l]);
        && Regs(va[l], vb[l], vc[l], vd[l]) == Run(24, 52, r, w)
        && keep[l] == (keep'[l] && !Opposite(Run(24, 49, r, w)) && Opposite(Run(24, 50, r, w))
                       && !Opposite(Run(24, 51, r, w)) && !Opposite(Run(24, 52, r, w)))
    {
      var w := LaneBlock(block[..], vb8[l], vb9[l], vb12[l]);
      Extend(24, 48, r, w);
      Extend(24, 49, r, w);
      Extend(24, 50, r, w);
      Extend(24, 51, r, w);
      assert keep1[l] == (keep'[l] && !Opposite(Run(24, 49, r, w)));
      assert keep2[l] == (keep1[l] && Opposite(Run(24, 50, r, w)));
      assert keep3[l] == (keep2[l] && !Opposite(Run(24, 51, r, w)));
    }
  }
}
