/** The renderer: drawing on the full canvas, and drawing only the pixels that the output frame keeps. */
module Render {
  import opened Types

  datatype Color = Color(r: U8, g: U8, b: U8, a: U8)

  function Gray(value: nat): (c: Color)
    ensures c.r == c.g == c.b && c.a == 255 && (value < 256 ==> c.r == value) && (value >= 256 ==> c.r == 255)
  {
    var byte: U8 := Min(255, value);
    Color(byte, byte, byte, 255)
  }

  /** One component of a blend: the nearest integer to the weighted mean of the two. */
  function Mixed(source: U8, destination: U8, alpha: U8): (v: U8)
    ensures Min(source, destination) <= v <= Max(source, destination)
    ensures alpha == 255 ==> v == source
    ensures alpha == 0 ==> v == destination
    ensures -127 <= 255 * v - (source * alpha + destination * (255 - alpha)) <= 127
  {
    MixedBetween(source, destination, alpha);
    (source * alpha + destination * (255 - alpha) + 127) / 255
  }

  lemma Nonneg(a: int, b: int) requires a >= 0 && b >= 0 ensures a * b >= 0 {}

  lemma Weighted(s: int, d: int, alpha: int)
    requires s <= d && 0 <= alpha <= 255
    ensures s * 255 <= s * alpha + d * (255 - alpha) <= d * 255
  {
    Nonneg(d - s, 255 - alpha);
    Nonneg(d - s, alpha);
    assert (d - s) * (255 - alpha) == s * alpha + d * (255 - alpha) - s * 255;
    assert (d - s) * alpha == d * 255 - s * alpha - d * (255 - alpha);
  }

  lemma MixedBetween(s: int, d: int, alpha: int)
    requires 0 <= s < 256 && 0 <= d < 256 && 0 <= alpha < 256
    ensures Min(s, d) <= (s * alpha + d * (255 - alpha) + 127) / 255 <= Max(s, d)
  {
    if s <= d {
      Weighted(s, d, alpha);
    } else {
      Weighted(d, s, 255 - alpha);
    }
    Rounded(s * alpha + d * (255 - alpha), Min(s, d), Max(s, d));
  }

  lemma Rounded(v: int, lo: int, hi: int)
    requires lo * 255 <= v <= hi * 255
    ensures lo <= (v + 127) / 255 <= hi
  {}

  /** The alpha of a colour under the alpha of the state: the nearest integer to a * stateAlpha / 255. */
  function Strength(a: U8, stateAlpha: U8): (alpha: U8)
    ensures a == 255 ==> alpha == stateAlpha
    ensures -127 <= 255 * alpha - a * stateAlpha <= 127
  {
    assert 0 <= a * stateAlpha <= 255 * 255;
    (a * stateAlpha + 127) / 255
  }

  function Over(source: Color, destination: Color, stateAlpha: U8): Color {
    var alpha := Strength(source.a, stateAlpha);
    Color(Mixed(source.r, destination.r, alpha), Mixed(source.g, destination.g, alpha),
          Mixed(source.b, destination.b, alpha), 255)
  }

  // ---------------------------------------------------------------- what is drawn, in canvas coordinates

  /** A filled rectangle; a single blended pixel is one of one pixel. Both may reach over the edges. */
  datatype Op = Op(x0: int, y0: int, x1: int, y1: int, color: Color, alpha: U8)

  predicate Covers(op: Op, x: int, y: int) { op.x0 <= x <= op.x1 && op.y0 <= y <= op.y1 }

  /** The background pattern. */
  function Base(chartId: U64, frame: nat, x: nat, y: nat): Color {
    var c0, c1, c2 := chartId % 256, chartId / 256 % 256, chartId / 65536 % 256;
    if chartId % 8 != 0 then
      var q := (13 * (x / 16) + 29 * (y / 8) + 7 * frame + c0) % 256;
      Color(q, (3 * q + 17 + c1) % 256, (5 * q + 29 + c2) % 256, 255)
    else
      Color((17 * x + 31 * y + 7 * frame + c0) % 256, (29 * x + 11 * y + 13 * frame + c1) % 256,
            (7 * x + 19 * y + 3 * frame + c2) % 256, 255)
  }

  /** The colour of one canvas pixel after the operations, in order. No other pixel matters to it. */
  function PixelOf(chartId: U64, frame: nat, ops: seq<Op>, x: nat, y: nat): Color {
    if ops == [] then Base(chartId, frame, x, y)
    else
      var before := PixelOf(chartId, frame, ops[..|ops| - 1], x, y);
      var op := ops[|ops| - 1];
      if Covers(op, x, y) then Over(op.color, before, op.alpha) else before
  }

  // ---------------------------------------------------------------- surfaces

  function Width(sampled: bool): nat { if sampled then OutputWidth else CanvasWidth }

  function Height(sampled: bool): nat { if sampled then OutputHeight else CanvasHeight }

  function Size(sampled: bool): nat { if sampled then 9216 else 147456 }

  /** The canvas pixel that a surface pixel stands for. */
  function Canvas(sampled: bool, x: nat): nat { if sampled then 4 * x + 2 else x }

  /** pixel_offset. */
  function Offset(sampled: bool, x: nat, y: nat): (o: nat)
    requires x < Width(sampled) && y < Height(sampled)
    ensures o + 4 <= Size(sampled)
  {
    if sampled then (y * 64 + x) * 4 else (y * 256 + x) * 4
  }

  function ColorAt(bytes: seq<U8>, sampled: bool, x: nat, y: nat): Color
    requires |bytes| == Size(sampled) && x < Width(sampled) && y < Height(sampled)
  {
    var o := Offset(sampled, x, y);
    Color(bytes[o], bytes[o + 1], bytes[o + 2], bytes[o + 3])
  }

  class Surface {
    const pixels: array<U8>
    const sampled: bool
    const chartId: U64
    const frame: nat
    /** The operations drawn so far. */
    ghost var ops: seq<Op>

    ghost predicate Valid()
      reads this, pixels
    {
      && pixels.Length == Size(sampled)
      && forall x, y :: 0 <= x < Width(sampled) && 0 <= y < Height(sampled) ==>
        ColorAt(pixels[..], sampled, x, y)
        == PixelOf(chartId, frame, ops, Canvas(sampled, x), Canvas(sampled, y))
    }

    /** The background. */
    constructor (output: array<U8>, sampled: bool, chartId: U64, frame: nat)
      requires output.Length == Size(sampled)
      modifies output
      ensures this.pixels == output && this.sampled == sampled && this.chartId == chartId && this.frame == frame
      ensures ops == [] && Valid()
    {
      this.pixels, this.sampled, this.chartId, this.frame, ops := output, sampled, chartId, frame, [];
      new;
      for y := 0 to Height(sampled)
        modifies output
        invariant forall i, j :: 0 <= i < Width(sampled) && 0 <= j < y ==>
          ColorAt(output[..], sampled, i, j) == Base(chartId, frame, Canvas(sampled, i), Canvas(sampled, j))
      {
        FillRow(output, sampled, chartId, frame, y);
      }
    }

    /** blend_at: one surface pixel, or nothing outside the surface. */
    method BlendAt(x: int, y: int, source: Color, stateAlpha: U8)
      requires pixels.Length == Size(sampled)
      modifies pixels
      ensures forall i, j :: 0 <= i < Width(sampled) && 0 <= j < Height(sampled) ==>
        ColorAt(pixels[..], sampled, i, j)
        == if i == x && j == y then Over(source, ColorAt(old(pixels[..]), sampled, i, j), stateAlpha)
           else ColorAt(old(pixels[..]), sampled, i, j)
    {
      if x < 0 || x >= Width(sampled) || y < 0 || y >= Height(sampled) {
        return;
      }
      var o := Offset(sampled, x, y);
      Nonneg(source.a, stateAlpha);
      Nonneg(255 - source.a, stateAlpha);
      var alpha := (source.a * stateAlpha + 127) / 255;
      var r := BlendComponent(source.r, pixels[o], alpha);
      var g := BlendComponent(source.g, pixels[o + 1], alpha);
      var b := BlendComponent(source.b, pixels[o + 2], alpha);
      Put(pixels, sampled, x, y, Color(r, g, b, 255));
    }

    /** blend: one canvas pixel, if the surface keeps it. */
    method Blend(x: int, y: int, source: Color, stateAlpha: U8)
      requires Valid()
      modifies pixels, this`ops
      ensures Valid() && ops == old(ops) + [Op(x, y, x, y, source, stateAlpha)]
    {
      hide Over, ColorAt;
      if x < 0 || x >= CanvasWidth || y < 0 || y >= CanvasHeight {
      } else if !sampled {
        BlendAt(x, y, source, stateAlpha);
      } else if x % 4 == 2 && y % 4 == 2 {
        BlendAt((x - 2) / 4, (y - 2) / 4, source, stateAlpha);
      }
      ops := ops + [Op(x, y, x, y, source, stateAlpha)];
    }

    /** rectangle: clipped to the canvas, then only the pixels the surface keeps. */
    method Rectangle(left: int, top: int, right: int, bottom: int, color: Color, alpha: U8)
      requires Valid()
      modifies pixels, this`ops
      ensures Valid() && ops == old(ops) + [Op(left, top, right, bottom, color, alpha)]
    {
      hide Over, ColorAt;
      var x0, y0 := Max(left, 0), Max(top, 0);
      var x1, y1 := Min(right, CanvasWidth - 1), Min(bottom, CanvasHeight - 1);
      if x0 <= x1 && y0 <= y1 {
        if !sampled {
          Fill(x0, y0, x1, y1, color, alpha);
        } else {
          FillSampled(x0, y0, x1, y1, color, alpha);
        }
      }
      ops := ops + [Op(left, top, right, bottom, color, alpha)];
    }

    method Fill(x0: nat, y0: nat, x1: nat, y1: nat, color: Color, alpha: U8)
      requires pixels.Length == Size(sampled) && !sampled && x0 <= x1 < CanvasWidth && y0 <= y1 < CanvasHeight
      modifies pixels
      ensures forall i, j :: 0 <= i < Width(sampled) && 0 <= j < Height(sampled) ==>
        ColorAt(pixels[..], sampled, i, j)
        == if x0 <= i <= x1 && y0 <= j <= y1 then Over(color, ColorAt(old(pixels[..]), sampled, i, j), alpha)
           else ColorAt(old(pixels[..]), sampled, i, j)
    {
      hide Over, ColorAt;
      for y := y0 to y1 + 1
        invariant forall i, j :: 0 <= i < Width(sampled) && 0 <= j < Height(sampled) ==>
          ColorAt(pixels[..], sampled, i, j)
          == if x0 <= i <= x1 && y0 <= j < y then Over(color, ColorAt(old(pixels[..]), sampled, i, j), alpha)
             else ColorAt(old(pixels[..]), sampled, i, j)
      {
        for x := x0 to x1 + 1
          invariant forall i, j :: 0 <= i < Width(sampled) && 0 <= j < Height(sampled) ==>
            ColorAt(pixels[..], sampled, i, j)
            == if x0 <= i <= x1 && y0 <= j <= y && (j == y ==> i < x)
               then Over(color, ColorAt(old(pixels[..]), sampled, i, j), alpha)
               else ColorAt(old(pixels[..]), sampled, i, j)
        {
          BlendAt(x, y, color, alpha);
        }
      }
    }

    /** Only the canvas pixels that the output frame keeps, found by division instead of by looking at each. */
    method FillSampled(x0: nat, y0: nat, x1: nat, y1: nat, color: Color, alpha: U8)
      requires pixels.Length == Size(sampled) && sampled && x0 <= x1 < CanvasWidth && y0 <= y1 < CanvasHeight
      modifies pixels
      ensures forall i, j :: 0 <= i < Width(sampled) && 0 <= j < Height(sampled) ==>
        ColorAt(pixels[..], sampled, i, j)
        == if x0 <= 4 * i + 2 <= x1 && y0 <= 4 * j + 2 <= y1
           then Over(color, ColorAt(old(pixels[..]), sampled, i, j), alpha)
           else ColorAt(old(pixels[..]), sampled, i, j)
    {
      hide Over, ColorAt;
      var firstX, firstY := (x0 + 1) / 4, (y0 + 1) / 4;
      var y := firstY;
      while y < Height(sampled) && 4 * y + 2 <= y1
        invariant firstY <= y <= Height(sampled)
        invariant forall i, j :: 0 <= i < Width(sampled) && 0 <= j < Height(sampled) ==>
          ColorAt(pixels[..], sampled, i, j)
          == if x0 <= 4 * i + 2 <= x1 && y0 <= 4 * j + 2 <= y1 && j < y
             then Over(color, ColorAt(old(pixels[..]), sampled, i, j), alpha)
             else ColorAt(old(pixels[..]), sampled, i, j)
      {
        var x := firstX;
        while x < Width(sampled) && 4 * x + 2 <= x1
          invariant firstX <= x <= Width(sampled)
          invariant forall i, j :: 0 <= i < Width(sampled) && 0 <= j < Height(sampled) ==>
            ColorAt(pixels[..], sampled, i, j)
            == if x0 <= 4 * i + 2 <= x1 && y0 <= 4 * j + 2 <= y1 && j <= y && (j == y ==> i < x)
               then Over(color, ColorAt(old(pixels[..]), sampled, i, j), alpha)
               else ColorAt(old(pixels[..]), sampled, i, j)
        {
          BlendAt(x, y, color, alpha);
          x := x + 1;
        }
        y := y + 1;
      }
    }
  }

  method BlendComponent(source: U8, destination: U8, alpha: U8) returns (value: U8)
    ensures value == Mixed(source, destination, alpha)
  {
    MixedBetween(source, destination, alpha);
    value := (source * alpha + destination * (255 - alpha) + 127) / 255;
  }

  /** One row of the background. */
  method FillRow(output: array<U8>, sampled: bool, chartId: U64, frame: nat, y: nat)
    requires output.Length == Size(sampled) && y < Height(sampled)
    modifies output
    ensures forall i, j :: 0 <= i < Width(sampled) && 0 <= j < Height(sampled) ==>
      ColorAt(output[..], sampled, i, j)
      == if j == y then Base(chartId, frame, Canvas(sampled, i), Canvas(sampled, j))
         else ColorAt(old(output[..]), sampled, i, j)
  {
    hide Base, ColorAt;
    for x := 0 to Width(sampled)
      invariant forall i, j :: 0 <= i < Width(sampled) && 0 <= j < Height(sampled) ==>
        ColorAt(output[..], sampled, i, j)
        == if j == y && i < x then Base(chartId, frame, Canvas(sampled, i), Canvas(sampled, j))
           else ColorAt(old(output[..]), sampled, i, j)
    {
      var color := BaseColor(chartId, frame, if sampled then 4 * x + 2 else x, if sampled then 4 * y + 2 else y);
      Put(output, sampled, x, y, color);
    }
  }

  method BaseColor(chartId: U64, frame: nat, x: nat, y: nat) returns (color: Color)
    ensures color == Base(chartId, frame, x, y)
  {
    var c0, c1, c2 := chartId % 256, chartId / 256 % 256, chartId / 65536 % 256;
    if chartId % 8 != 0 {
      var q := (13 * (x / 16) + 29 * (y / 8) + 7 * frame + c0) % 256;
      color := Color(q, (3 * q + 17 + c1) % 256, (5 * q + 29 + c2) % 256, 255);
    } else {
      color := Color((17 * x + 31 * y + 7 * frame + c0) % 256, (29 * x + 11 * y + 13 * frame + c1) % 256,
                     (7 * x + 19 * y + 3 * frame + c2) % 256, 255);
    }
  }

  method Put(output: array<U8>, sampled: bool, x: nat, y: nat, color: Color)
    requires output.Length == Size(sampled) && x < Width(sampled) && y < Height(sampled)
    modifies output
    ensures forall i, j :: 0 <= i < Width(sampled) && 0 <= j < Height(sampled) ==>
      ColorAt(output[..], sampled, i, j)
      == if i == x && j == y then color else ColorAt(old(output[..]), sampled, i, j)
  {
    var o := Offset(sampled, x, y);
    output[o] := color.r;
    output[o + 1] := color.g;
    output[o + 2] := color.b;
    output[o + 3] := color.a;
  }

  // ---------------------------------------------------------------- what a state looks like

  function LaneX(s: State, lane: nat): (x: nat)
    requires lane < 8
    ensures x < CanvasWidth
  {
    var logical := if s.mirror != 0 then 7 - lane else lane;
    var base := (2 * logical + 1) * CanvasWidth / 16;
    var shift := Quotient(s.rotation * CanvasWidth, 65536);
    var x := Remainder(base + shift, CanvasWidth);
    if x < 0 then x + CanvasWidth else x
  }

  function Visible(energy: U16, speed: I32): U16 {
    Max(0, Min(65535, Quotient(energy * speed, 65536)))
  }

  function BarHeight(energy: U16): nat { energy * CanvasHeight / 65535 }

  /** Without rotation the lanes stand 32 pixels apart, from left to right or, mirrored, from right to left. */
  lemma LanesStand(s: State, lane: nat)
    requires lane < 8 && s.rotation == 0
    ensures LaneX(s, lane) == if s.mirror == 0 then 16 + 32 * lane else 240 - 32 * lane
  {}

  /** A rotation moves all lanes alike, by a pixel for each full 256 units in its direction, around the canvas. */
  lemma LanesTurn(s: State, lane: nat, shift: int)
    requires lane < 8
    requires if s.rotation >= 0 then 256 * shift <= s.rotation < 256 * (shift + 1)
             else 256 * (shift - 1) < s.rotation <= 256 * shift
    ensures (LaneX(s, lane) - LaneX(s.(rotation := 0), lane) - shift) % CanvasWidth == 0
  {
    assert Quotient(s.rotation * CanvasWidth, 65536) == shift;
  }

  /** The visible energy is the energy times the speed, in units of 1/65536, rounded down and kept in range. */
  lemma VisibleIs(energy: U16, speed: I32)
    ensures speed <= 0 ==> Visible(energy, speed) == 0
    ensures speed > 0 && Visible(energy, speed) < 65535 ==>
      65536 * Visible(energy, speed) <= energy * speed < 65536 * (Visible(energy, speed) + 1)
    ensures Visible(energy, speed) == 65535 ==> energy * speed >= 65535 * 65536
    ensures Visible(energy, 65536) == energy
  {
    if speed <= 0 {
      var back: int := -(speed as int);
      Nonneg(energy, back);
      assert energy * speed <= 0;
    } else {
      Nonneg(energy, speed);
    }
  }

  /** The lowest byte first. */
  lemma PhaseInBytes(phase: bv64)
    ensures forall j :: 0 <= j < 8 ==> PhaseByte(phase, j) == PhasePart(phase, j) as int
    ensures phase == (PhasePart(phase, 0) as bv64) | ((PhasePart(phase, 1) as bv64) << 8)
      | ((PhasePart(phase, 2) as bv64) << 16) | ((PhasePart(phase, 3) as bv64) << 24)
      | ((PhasePart(phase, 4) as bv64) << 32) | ((PhasePart(phase, 5) as bv64) << 40)
      | ((PhasePart(phase, 6) as bv64) << 48) | ((PhasePart(phase, 7) as bv64) << 56)
  {}

  /** part * n / max(1, whole). */
  function Portion(part: nat, n: nat, whole: nat): nat { part * n / Max(1, whole) }

  /** Both sums wrap at 32 bits. */
  function HoldHeight(remaining: U32, maxTick: U32): nat {
    (1 + Portion(remaining, 143, maxTick) % 0x1_0000_0000) % 0x1_0000_0000
  }

  function ArmLength(remaining: U32, maxTick: U32): int { 2 + ToI32(Portion(remaining, 5, maxTick)) }

  /** A cast to a signed 32-bit integer. */
  function ToI32(x: nat): I32 {
    var y := x % 0x1_0000_0000;
    if y < 0x8000_0000 then y else y - 0x1_0000_0000
  }

  /** No length wraps when no hold ends after the chart does. */
  lemma LengthsDoNotWrap(remaining: U32, maxTick: U32)
    requires remaining <= maxTick
    ensures HoldHeight(remaining, maxTick) == 1 + Portion(remaining, 143, maxTick) <= 144
    ensures ArmLength(remaining, maxTick) == 2 + Portion(remaining, 5, maxTick) <= 7
  {
    hide Portion;
    PortionBound(remaining, 143, maxTick);
    PortionBound(remaining, 5, maxTick);
    SmallStays(Portion(remaining, 143, maxTick));
    SmallStays(Portion(remaining, 5, maxTick));
  }

  lemma SmallStays(q: nat)
    requires q <= 143
    ensures (1 + q % 0x1_0000_0000) % 0x1_0000_0000 == 1 + q && ToI32(q) == q
  {}

  lemma PortionBound(part: nat, n: nat, whole: nat)
    requires part <= whole
    ensures Portion(part, n, whole) <= n
  {
    Nonneg(whole - part, n);
    if whole > 0 {
      Quotients(part * n, whole, n);
    }
  }

  lemma Quotients(x: nat, w: nat, n: nat)
    requires w > 0 && x <= w * n
    ensures x / w <= n
  {
    var q := x / w;
    assert q * w <= x;
    if q > n {
      Nonneg(q - n - 1, w);
      assert false;
    }
  }

  function PhasePart(phase: bv64, j: nat): bv8
    requires j < 8
  {
    var shifted :=
      if j == 0 then phase else if j == 1 then phase >> 8 else if j == 2 then phase >> 16 else if j == 3 then phase >> 24
      else if j == 4 then phase >> 32 else if j == 5 then phase >> 40 else if j == 6 then phase >> 48 else phase >> 56;
    (shifted & 0xff) as bv8
  }

  function PhaseByte(phase: bv64, j: nat): U8
    requires j < 8
  {
    PhasePart(phase, j) as int
  }

  datatype Stage = Grid | Energies | Holds | Slides | Touches | Taps | Breaks | Border | Warnings | Phase

  /** How many parts a stage has. */
  function Parts(stage: Stage, s: State): nat {
    match stage
    case Touches => SensorCount
    case Border => 1
    case Warnings => Min(CanvasWidth, s.warningCount)
    case _ => 8
  }

  /** What one part of a stage draws. */
  function PartOps(stage: Stage, s: State, maxTick: U32, tick: U32, k: nat): seq<Op>
    requires Sized(s) && k < Parts(stage, s)
  {
    match stage
    case Grid => [Op(LaneX(s, k), 0, LaneX(s, k), 143, Gray(48), s.alpha)]
    case Energies => EnergyOps(s, k)
    case Holds => HoldOps(s, maxTick, tick, k)
    case Slides => if SlideShown(s, k) then SlideOps(s, k, 32) else []
    case Touches => TouchEnergyOps(s, k) + TouchHoldOps(s, maxTick, tick, k) + TouchOps(s, k)
    case Taps =>
      var x := LaneX(s, k);
      if s.taps[k].present then [Op(x - 3, 71, x + 3, 73, Gray(208 + s.taps[k].strength / 16), s.alpha)] else []
    case Breaks => BreakOps(s, k)
    case Border => BorderOps(s)
    case Warnings => [Pixel(k, 0, Gray(192 + 16 * s.latestWarningSeverity), s.alpha)]
    case Phase =>
      var byte := PhaseByte(s.phase, k);
      [Op(8 + k, 143 - byte % 16, 9 + k, 144 - byte % 16, Gray(32 + byte % 224), s.alpha)]
  }

  function Pixel(x: int, y: int, color: Color, alpha: U8): Op { Op(x, y, x, y, color, alpha) }

  function EnergyOps(s: State, lane: nat): seq<Op>
    requires Sized(s) && lane < 8
  {
    var energy := Visible(s.energy[lane], s.speed);
    var height := BarHeight(energy);
    var x := LaneX(s, lane);
    if height > 0 then [Op(x - 2, 144 - height, x + 2, 143, Gray(64 + energy / 1024), s.alpha)] else []
  }

  function HoldOps(s: State, maxTick: U32, tick: U32, lane: nat): seq<Op>
    requires Sized(s) && lane < 8
  {
    var hold := s.holds[lane];
    var x := LaneX(s, lane);
    if hold.present && hold.endTick > tick then
      [Op(x - 1, 143 - Min(143, HoldHeight(hold.endTick - tick, maxTick)), x + 1, 143,
          Gray(160 + hold.strength / 8), s.alpha)]
    else []
  }

  predicate SlideShown(s: State, lane: nat)
    requires Sized(s) && lane < 8
  {
    s.slides[lane].present && s.slides[lane].targetLane < 8
  }

  /** The first n points of a slide. */
  function SlideOps(s: State, lane: nat, n: nat): seq<Op>
    requires Sized(s) && lane < 8 && SlideShown(s, lane)
  {
    if n == 0 then []
    else
      var j, start, target := n - 1, LaneX(s, lane), LaneX(s, s.slides[lane].targetLane);
      var x, y := start + Quotient((target - start) * j, 31), 143 - j * 143 / 31;
      SlideOps(s, lane, n - 1)
      + [Op(x - 1, y - 1, x + 1, y + 1, Gray(176 + s.slides[lane].pathId * 4), s.alpha)]
  }

  function TouchEnergyOps(s: State, sensor: nat): seq<Op>
    requires Sized(s) && sensor < SensorCount
  {
    var (x, y) := TouchPosition(sensor);
    var energy := Visible(s.touchEnergy[sensor], s.speed);
    var radius := 1 + energy / 16384;
    if energy > 0 then
      [Op(x - radius, y - radius, x + radius, y + radius, Color(64, 208, 224, 128 + energy / 512), s.alpha)]
    else []
  }

  function TouchHoldOps(s: State, maxTick: U32, tick: U32, sensor: nat): seq<Op>
    requires Sized(s) && sensor < SensorCount
  {
    var (x, y) := TouchPosition(sensor);
    var hold := s.touchHolds[sensor];
    if hold.present && hold.endTick > tick then
      var arm := ArmLength(hold.endTick - tick, maxTick);
      [Op(x - arm, y, x + arm, y, Color(64, 240, 192, 224), s.alpha),
       Op(x, y - arm, x, y + arm, Color(64, 240, 192, 224), s.alpha)]
    else []
  }

  function TouchOps(s: State, sensor: nat): seq<Op>
    requires Sized(s) && sensor < SensorCount
  {
    var (x, y) := TouchPosition(sensor);
    var touch := s.touches[sensor];
    var color := if touch.hold then Color(96, 255, 176, 240) else Color(96, 224, 255, 240);
    if touch.present then
      [Pixel(x, y, color, s.alpha), Pixel(x - 1, y, color, s.alpha), Pixel(x + 1, y, color, s.alpha),
       Pixel(x, y - 1, color, s.alpha), Pixel(x, y + 1, color, s.alpha)]
    else []
  }

  function BreakOps(s: State, lane: nat): seq<Op>
    requires Sized(s) && lane < 8
  {
    var x, note := LaneX(s, lane), s.breaks[lane];
    var color := Gray(240 + note.strength / 64);
    if !note.present then []
    else
      [Op(x - 4, 48, x + 4, 48, color, s.alpha)]
      + if note.flashFrames == 0 then []
        else
          [Pixel(x, 44, color, s.alpha), Pixel(x, 45, color, s.alpha), Pixel(x, 46, color, s.alpha),
           Pixel(x, 47, color, s.alpha), Pixel(x, 49, color, s.alpha), Pixel(x, 50, color, s.alpha),
           Pixel(x, 51, color, s.alpha), Pixel(x, 52, color, s.alpha)]
  }

  function BorderOps(s: State): seq<Op>
    requires Sized(s)
  {
    var color := Gray(224 + Flash(s, 8));
    if Flash(s, 8) == 0 then []
    else
      [Op(0, 0, 255, 0, color, s.alpha), Op(0, 143, 255, 143, color, s.alpha),
       Op(0, 1, 0, 142, color, s.alpha), Op(255, 1, 255, 142, color, s.alpha)]
  }

  /** The first n parts of a stage. */
  function StageOps(stage: Stage, s: State, maxTick: U32, tick: U32, n: nat): seq<Op>
    requires Sized(s) && n <= Parts(stage, s)
  {
    if n == 0 then [] else StageOps(stage, s, maxTick, tick, n - 1) + PartOps(stage, s, maxTick, tick, n - 1)
  }

  const AllStages: seq<Stage> := [Grid, Energies, Holds, Slides, Touches, Taps, Breaks, Border, Warnings, Phase]

  function Plan(stages: seq<Stage>, s: State, maxTick: U32, tick: U32): seq<Op>
    requires Sized(s)
  {
    if stages == [] then []
    else
      var stage := stages[|stages| - 1];
      Plan(stages[..|stages| - 1], s, maxTick, tick) + StageOps(stage, s, maxTick, tick, Parts(stage, s))
  }

  // ---------------------------------------------------------------- drawing it

  method DrawLane(surface: Surface, stage: Stage, s: State, maxTick: U32, tick: U32, lane: nat)
    requires surface.Valid() && Sized(s) && lane < 8 && stage in {Grid, Energies, Holds, Taps}
    modifies surface.pixels, surface`ops
    ensures surface.Valid() && surface.ops == old(surface.ops) + PartOps(stage, s, maxTick, tick, lane)
  {
    hide Surface.Valid, LaneX, Visible, Gray;
    var x: int := LaneX(s, lane);
    match stage {
      case Grid =>
        surface.Rectangle(x, 0, x, CanvasHeight - 1, Gray(48), s.alpha);
      case Energies =>
        var energy := Visible(s.energy[lane], s.speed);
        var height := energy * CanvasHeight / 65535;
        if height > 0 {
          surface.Rectangle(x - 2, CanvasHeight - height, x + 2, CanvasHeight - 1, Gray(64 + energy / 1024), s.alpha);
        }
      case Holds =>
        var hold := s.holds[lane];
        if hold.present && hold.endTick > tick {
          var remaining := hold.endTick - tick;
          var height := (1 + remaining * 143 / Max(1, maxTick) % 0x1_0000_0000) % 0x1_0000_0000;
          surface.Rectangle(x - 1, 143 - Min(143, height), x + 1, 143, Gray(160 + hold.strength / 8), s.alpha);
        }
      case Taps =>
        if s.taps[lane].present {
          surface.Rectangle(x - 3, 71, x + 3, 73, Gray(208 + s.taps[lane].strength / 16), s.alpha);
        }
    }
  }

  method DrawSlide(surface: Surface, s: State, lane: nat)
    requires surface.Valid() && Sized(s) && lane < 8
    modifies surface.pixels, surface`ops
    ensures surface.Valid()
    ensures surface.ops == old(surface.ops) + if SlideShown(s, lane) then SlideOps(s, lane, 32) else []
  {
    hide Surface.Valid, LaneX, Gray;
    if !s.slides[lane].present || s.slides[lane].targetLane >= 8 {
      return;
    }
    var start, target := LaneX(s, lane), LaneX(s, s.slides[lane].targetLane);
    for j := 0 to 32
      invariant surface.Valid() && surface.ops == old(surface.ops) + SlideOps(s, lane, j)
    {
      var x, y := start + Quotient((target - start) * j, 31), 143 - j * 143 / 31;
      surface.Rectangle(x - 1, y - 1, x + 1, y + 1, Gray(176 + s.slides[lane].pathId * 4), s.alpha);
    }
  }

  method DrawSensor(surface: Surface, s: State, maxTick: U32, tick: U32, sensor: nat)
    requires surface.Valid() && Sized(s) && sensor < SensorCount
    modifies surface.pixels, surface`ops
    ensures surface.Valid() && surface.ops == old(surface.ops) + PartOps(Touches, s, maxTick, tick, sensor)
  {
    hide Surface.Valid, Visible, TouchPosition;
    var (x, y) := TouchPosition(sensor);
    var energy := Visible(s.touchEnergy[sensor], s.speed);
    if energy > 0 {
      var radius := 1 + energy / 16384;
      surface.Rectangle(x - radius, y - radius, x + radius, y + radius,
                        Color(64, 208, 224, 128 + energy / 512), s.alpha);
    }
    assert surface.ops == old(surface.ops) + TouchEnergyOps(s, sensor);
    var hold := s.touchHolds[sensor];
    if hold.present && hold.endTick > tick {
      var remaining := hold.endTick - tick;
      var arm := 2 + ToI32(remaining * 5 / Max(1, maxTick));
      surface.Rectangle(x - arm, y, x + arm, y, Color(64, 240, 192, 224), s.alpha);
      surface.Rectangle(x, y - arm, x, y + arm, Color(64, 240, 192, 224), s.alpha);
    }
    assert surface.ops
        == old(surface.ops) + TouchEnergyOps(s, sensor) + TouchHoldOps(s, maxTick, tick, sensor);
    DrawTouch(surface, s, sensor);
  }

  method DrawTouch(surface: Surface, s: State, sensor: nat)
    requires surface.Valid() && Sized(s) && sensor < SensorCount
    modifies surface.pixels, surface`ops
    ensures surface.Valid() && surface.ops == old(surface.ops) + TouchOps(s, sensor)
  {
    hide Surface.Valid, TouchPosition;
    var (x, y) := TouchPosition(sensor);
    if s.touches[sensor].present {
      var color := if s.touches[sensor].hold then Color(96, 255, 176, 240) else Color(96, 224, 255, 240);
      surface.Blend(x, y, color, s.alpha);
      surface.Blend(x - 1, y, color, s.alpha);
      surface.Blend(x + 1, y, color, s.alpha);
      surface.Blend(x, y - 1, color, s.alpha);
      surface.Blend(x, y + 1, color, s.alpha);
    }
  }

  method DrawBreak(surface: Surface, s: State, lane: nat)
    requires surface.Valid() && Sized(s) && lane < 8
    modifies surface.pixels, surface`ops
    ensures surface.Valid() && surface.ops == old(surface.ops) + BreakOps(s, lane)
  {
    hide Surface.Valid, LaneX, Gray;
    if !s.breaks[lane].present {
      return;
    }
    var x: int, color := LaneX(s, lane), Gray(240 + s.breaks[lane].strength / 64);
    surface.Rectangle(x - 4, 48, x + 4, 48, color, s.alpha);
    if s.breaks[lane].flashFrames > 0 {
      surface.Blend(x, 44, color, s.alpha);
      surface.Blend(x, 45, color, s.alpha);
      surface.Blend(x, 46, color, s.alpha);
      surface.Blend(x, 47, color, s.alpha);
      surface.Blend(x, 49, color, s.alpha);
      surface.Blend(x, 50, color, s.alpha);
      surface.Blend(x, 51, color, s.alpha);
      surface.Blend(x, 52, color, s.alpha);
    }
  }

  method DrawBorder(surface: Surface, s: State)
    requires surface.Valid() && Sized(s)
    modifies surface.pixels, surface`ops
    ensures surface.Valid() && surface.ops == old(surface.ops) + BorderOps(s)
  {
    hide Surface.Valid, Gray;
    var flash := 0;
    for lane := 0 to 8
      invariant flash == Flash(s, lane)
    {
      flash := Max(flash, s.breaks[lane].flashFrames);
    }
    if flash > 0 {
      var color := Gray(224 + flash);
      surface.Rectangle(0, 0, CanvasWidth - 1, 0, color, s.alpha);
      surface.Rectangle(0, CanvasHeight - 1, CanvasWidth - 1, CanvasHeight - 1, color, s.alpha);
      surface.Rectangle(0, 1, 0, CanvasHeight - 2, color, s.alpha);
      surface.Rectangle(CanvasWidth - 1, 1, CanvasWidth - 1, CanvasHeight - 2, color, s.alpha);
    }
  }

  method DrawPart(surface: Surface, stage: Stage, s: State, maxTick: U32, tick: U32, k: nat)
    requires surface.Valid() && Sized(s) && k < Parts(stage, s)
    modifies surface.pixels, surface`ops
    ensures surface.Valid() && surface.ops == old(surface.ops) + PartOps(stage, s, maxTick, tick, k)
  {
    hide Surface.Valid, LaneX, Gray, BreakOps, BorderOps, SlideOps, EnergyOps, HoldOps;
    match stage {
      case Slides => DrawSlide(surface, s, k);
      case Touches => DrawSensor(surface, s, maxTick, tick, k);
      case Breaks => DrawBreak(surface, s, k);
      case Border => DrawBorder(surface, s);
      case Warnings => surface.Blend(k, 0, Gray(192 + 16 * s.latestWarningSeverity), s.alpha);
      case Phase =>
        var byte := PhaseByte(s.phase, k);
        surface.Rectangle(8 + k, 143 - byte % 16, 9 + k, 144 - byte % 16, Gray(32 + byte % 224), s.alpha);
      case _ => DrawLane(surface, stage, s, maxTick, tick, k);
    }
  }

  /** The `count` parts of a stage, one behind the other. */
  method DrawStage(surface: Surface, stage: Stage, s: State, maxTick: U32, tick: U32, count: nat)
    requires surface.Valid() && Sized(s) && count == Parts(stage, s)
    modifies surface.pixels, surface`ops
    ensures surface.Valid()
    ensures surface.ops == old(surface.ops) + StageOps(stage, s, maxTick, tick, Parts(stage, s))
  {
    hide Surface.Valid, PartOps;
    for k := 0 to count
      invariant surface.Valid() && surface.ops == old(surface.ops) + StageOps(stage, s, maxTick, tick, k)
    {
      DrawPart(surface, stage, s, maxTick, tick, k);
    }
  }

  /** Everything over the background, from the lanes to the phase. */
  method DrawAll(surface: Surface, s: State, maxTick: U32, tick: U32)
    requires surface.Valid() && Sized(s) && surface.ops == []
    modifies surface.pixels, surface`ops
    ensures surface.Valid() && surface.ops == Plan(AllStages, s, maxTick, tick)
  {
    hide Surface.Valid, StageOps, Plan;
    PlanInParts(s, maxTick, tick);
    DrawStage(surface, Grid, s, maxTick, tick, 8);
    DrawStage(surface, Energies, s, maxTick, tick, 8);
    DrawStage(surface, Holds, s, maxTick, tick, 8);
    DrawStage(surface, Slides, s, maxTick, tick, 8);
    DrawStage(surface, Touches, s, maxTick, tick, SensorCount);
    DrawStage(surface, Taps, s, maxTick, tick, 8);
    DrawStage(surface, Breaks, s, maxTick, tick, 8);
    DrawStage(surface, Border, s, maxTick, tick, 1);
    DrawStage(surface, Warnings, s, maxTick, tick, if s.warningCount < CanvasWidth then s.warningCount else CanvasWidth);
    DrawStage(surface, Phase, s, maxTick, tick, 8);
  }

  function OpsOf(stage: Stage, s: State, maxTick: U32, tick: U32): seq<Op>
    requires Sized(s)
  {
    StageOps(stage, s, maxTick, tick, Parts(stage, s))
  }

  lemma PlanInParts(s: State, maxTick: U32, tick: U32)
    requires Sized(s)
    ensures Plan(AllStages, s, maxTick, tick)
         == [] + OpsOf(Grid, s, maxTick, tick) + OpsOf(Energies, s, maxTick, tick) + OpsOf(Holds, s, maxTick, tick)
            + OpsOf(Slides, s, maxTick, tick) + OpsOf(Touches, s, maxTick, tick) + OpsOf(Taps, s, maxTick, tick)
            + OpsOf(Breaks, s, maxTick, tick) + OpsOf(Border, s, maxTick, tick) + OpsOf(Warnings, s, maxTick, tick)
            + OpsOf(Phase, s, maxTick, tick)
  {
    hide StageOps, Plan, Parts;
    PlanNone(s, maxTick, tick);
    PlanMore(0, s, maxTick, tick);
    PlanMore(1, s, maxTick, tick);
    PlanMore(2, s, maxTick, tick);
    PlanMore(3, s, maxTick, tick);
    PlanMore(4, s, maxTick, tick);
    PlanMore(5, s, maxTick, tick);
    PlanMore(6, s, maxTick, tick);
    PlanMore(7, s, maxTick, tick);
    PlanMore(8, s, maxTick, tick);
    PlanMore(9, s, maxTick, tick);
    assert AllStages[..0] == [] && AllStages[..10] == AllStages;
  }

  lemma PlanNone(s: State, maxTick: U32, tick: U32)
    requires Sized(s)
    ensures Plan([], s, maxTick, tick) == []
  {}

  lemma PlanMore(n: nat, s: State, maxTick: U32, tick: U32)
    requires Sized(s) && n < 10
    ensures Plan(AllStages[..n + 1], s, maxTick, tick)
         == Plan(AllStages[..n], s, maxTick, tick) + OpsOf(AllStages[n], s, maxTick, tick)
  {
    assert AllStages[..n + 1][..n] == AllStages[..n];
  }

  /** The bytes show the frame of a state: every pixel has the colour its canvas pixel gets from the plan. */
  ghost predicate Shows(bytes: seq<U8>, sampled: bool, chartId: U64, maxTick: U32, s: State, frame: nat)
    requires Sized(s) && frame < FrameCount
  {
    && |bytes| == Size(sampled)
    && forall x, y :: 0 <= x < Width(sampled) && 0 <= y < Height(sampled) ==>
      ColorAt(bytes, sampled, x, y)
      == PixelOf(chartId, frame, Plan(AllStages, s, maxTick, FrameTick(maxTick, frame)),
                 Canvas(sampled, x), Canvas(sampled, y))
  }

  /** render_impl. */
  method RenderImpl(chartId: U64, maxTick: U32, s: State, frame: nat, sampled: bool, output: array<U8>)
    returns (r: Result<()>)
    requires Sized(s)
    modifies output
    ensures frame >= FrameCount ==> r == Err(OutOfRange)
    ensures frame < FrameCount && output.Length != Size(sampled) ==> r == Err(WrongSize)
    ensures frame < FrameCount && output.Length == Size(sampled) ==>
      r == Ok(()) && Shows(output[..], sampled, chartId, maxTick, s, frame)
    ensures r.Err? ==> output[..] == old(output[..])
  {
    hide StageOps, ColorAt, PixelOf;
    if frame >= FrameCount {
      return Err(OutOfRange);
    }
    if output.Length != Size(sampled) {
      return Err(WrongSize);
    }
    var tick := FrameTick(maxTick, frame);
    var surface: Surface := new Surface(output, sampled, chartId, frame);
    DrawAll(surface, s, maxTick, tick);
    r := Ok(());
  }

  /** render_rgba: the full canvas. */
  method RenderRgba(chartId: U64, maxTick: U32, s: State, frame: nat) returns (r: Result<seq<U8>>)
    requires Sized(s)
    ensures r.Ok? <==> frame < FrameCount
    ensures r.Ok? ==> Shows(r.value, false, chartId, maxTick, s, frame)
  {
    hide Shows;
    var pixels := new U8[Size(false)](i => 0);
    var done := RenderImpl(chartId, maxTick, s, frame, false, pixels);
    r := if done.Ok? then Ok(pixels[..]) else Err(done.error);
  }

  /** render_output_rgba: the quarter-size frame, drawn directly. */
  method RenderOutputRgba(chartId: U64, maxTick: U32, s: State, frame: nat) returns (r: Result<seq<U8>>)
    requires Sized(s)
    ensures r.Ok? <==> frame < FrameCount
    ensures r.Ok? ==> Shows(r.value, true, chartId, maxTick, s, frame)
  {
    hide Shows;
    var pixels := new U8[Size(true)](i => 0);
    var done := RenderImpl(chartId, maxTick, s, frame, true, pixels);
    r := if done.Ok? then Ok(pixels[..]) else Err(done.error);
  }

  ghost predicate IsSample(rgba: seq<U8>, sample: seq<U8>) {
    && |rgba| == Size(false) && |sample| == Size(true)
    && forall x, y :: 0 <= x < OutputWidth && 0 <= y < OutputHeight ==>
      ColorAt(sample, true, x, y) == ColorAt(rgba, false, 4 * x + 2, 4 * y + 2)
  }

  /** sample_output_frame: one pixel out of sixteen. */
  method SampleOutputFrame(rgba: seq<U8>) returns (r: Result<seq<U8>>)
    ensures r == Err(WrongSize) <==> |rgba| != Size(false)
    ensures |rgba| == Size(false) ==> r.Ok? && IsSample(rgba, r.value)
  {
    hide ColorAt;
    if |rgba| != Size(false) {
      return Err(WrongSize);
    }
    var sampled := new U8[Size(true)](i => 0);
    for y := 0 to OutputHeight
      invariant forall i, j :: 0 <= i < OutputWidth && 0 <= j < y ==>
        ColorAt(sampled[..], true, i, j) == ColorAt(rgba, false, 4 * i + 2, 4 * j + 2)
    {
      for x := 0 to OutputWidth
        invariant forall i, j :: 0 <= i < OutputWidth && 0 <= j <= y && (j == y ==> i < x) ==>
          ColorAt(sampled[..], true, i, j) == ColorAt(rgba, false, 4 * i + 2, 4 * j + 2)
      {
        CopyPixel(rgba, sampled, x, y);
      }
    }
    r := Ok(sampled[..]);
  }

  method CopyPixel(rgba: seq<U8>, sampled: array<U8>, x: nat, y: nat)
    requires |rgba| == Size(false) && sampled.Length == Size(true) && x < OutputWidth && y < OutputHeight
    modifies sampled
    ensures forall i, j :: 0 <= i < OutputWidth && 0 <= j < OutputHeight ==>
      ColorAt(sampled[..], true, i, j)
      == if i == x && j == y then ColorAt(rgba, false, 4 * x + 2, 4 * y + 2)
         else ColorAt(old(sampled[..]), true, i, j)
  {
    var o := Offset(false, 4 * x + 2, 4 * y + 2);
    Put(sampled, true, x, y, Color(rgba[o], rgba[o + 1], rgba[o + 2], rgba[o + 3]));
  }

  lemma SameColors(a: seq<U8>, b: seq<U8>, sampled: bool)
    requires |a| == |b| == Size(sampled)
    requires forall x, y :: 0 <= x < Width(sampled) && 0 <= y < Height(sampled) ==>
      ColorAt(a, sampled, x, y) == ColorAt(b, sampled, x, y)
    ensures a == b
  {
    forall i | 0 <= i < |a|
      ensures a[i] == b[i]
    {
      var w := Width(sampled);
      var x, y := i / 4 % w, i / 4 / w;
      assert ColorAt(a, sampled, x, y) == ColorAt(b, sampled, x, y);
      assert Offset(sampled, x, y) == i / 4 * 4;
      assert i % 4 == 0 || i % 4 == 1 || i % 4 == 2 || i % 4 == 3;
    }
  }

  /** Drawing at quarter size gives the bytes that sampling the full canvas gives. */
  lemma DirectIsSampled(chartId: U64, maxTick: U32, s: State, frame: nat, full: seq<U8>, sample: seq<U8>,
                        direct: seq<U8>)
    requires Sized(s) && frame < FrameCount
    requires Shows(full, false, chartId, maxTick, s, frame) && IsSample(full, sample)
    requires Shows(direct, true, chartId, maxTick, s, frame)
    ensures direct == sample
  {
    hide ColorAt, PixelOf, Plan;
    SameColors(direct, sample, true);
  }
}
