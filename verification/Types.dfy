/** The chart engine's value types and limits. */
module Types {
  type U8 = x: int | 0 <= x < 0x100
  type U16 = x: int | 0 <= x < 0x1_0000
  type U32 = x: int | 0 <= x < 0x1_0000_0000
  type U64 = x: int | 0 <= x < 0x1_0000_0000_0000_0000
  type I32 = x: int | -0x8000_0000 <= x < 0x8000_0000

  const CanvasWidth := 256
  const CanvasHeight := 144
  const OutputWidth := 64
  const OutputHeight := 36
  const FrameCount := 10
  const SensorCount := 33
  const TicksPerWhole := 1536
  const MaxTimelineTick := 1048575
  const MaxEvents := 200000

  datatype Error = OutOfRange | WrongSize

  datatype Result<T> = Ok(value: T) | Err(error: Error)

  datatype EventType = Hold | Slide | TouchHold | Tap | TouchTap | Break

  datatype Location = Location(line: U32, column: U32, offset: U32)

  datatype Event = Event(kind: EventType, tick: U32, endTick: U32, lane: U8, targetLane: U8, sensor: U8,
                         strength: U8, pathId: U8, location: Location, canonical: string)

  datatype ActiveHold = ActiveHold(present: bool, endTick: U32, strength: U8)

  datatype ActiveSlide = ActiveSlide(present: bool, endTick: U32, targetLane: U8, pathId: U8)

  datatype LatestTap = LatestTap(present: bool, strength: U8)

  datatype LatestBreak = LatestBreak(present: bool, strength: U8, flashFrames: U8)

  datatype LatestTouch = LatestTouch(present: bool, hold: bool, strength: U8)

  datatype State = State(
    speed: I32, rotation: I32, mirror: U8, alpha: U8, assetSlot: U8, assetMode: U8,
    energy: seq<U16>, touchEnergy: seq<U16>, breakRemaining: U8,
    holds: seq<ActiveHold>, slides: seq<ActiveSlide>, taps: seq<LatestTap>, breaks: seq<LatestBreak>,
    touchHolds: seq<ActiveHold>, touches: seq<LatestTouch>,
    warningCount: U32, latestWarningSeverity: U8, phase: bv64)

  /** The arrays of a state have their fixed lengths. */
  predicate Sized(s: State) {
    && |s.energy| == |s.holds| == |s.slides| == |s.taps| == |s.breaks| == 8
    && |s.touchEnergy| == |s.touchHolds| == |s.touches| == SensorCount
  }

  function Min(a: int, b: int): int { if a < b then a else b }

  function Max(a: int, b: int): int { if a < b then b else a }

  /** Division as the source's signed integers have it: towards zero. */
  function Quotient(a: int, b: int): (q: int)
    requires b > 0
    ensures a >= 0 ==> q * b <= a < q * b + b
    ensures a < 0 ==> q * b - b < a <= q * b
  {
    if a < 0 then -(-a / b) else a / b
  }

  function Remainder(a: int, b: int): int
    requires b > 0
  {
    a - Quotient(a, b) * b
  }

  /** frame_tick, for frames 0 to 9: a ninth of the chart a frame, rounded down. */
  function FrameTick(maxTick: U32, frame: nat): (t: U32)
    requires frame < FrameCount
    ensures t <= maxTick && 9 * t <= maxTick * frame < 9 * t + 9
    ensures frame == 9 ==> t == maxTick
    ensures frame == 0 ==> t == 0
  {
    FrameTickBounded(maxTick, frame);
    maxTick * frame / 9
  }

  lemma FrameTickBounded(maxTick: int, frame: nat)
    requires 0 <= maxTick && frame <= 9
    ensures 0 <= maxTick * frame / 9 <= maxTick
  {
    assert 0 <= maxTick * frame <= maxTick * 9;
  }

  /** A later frame has no earlier tick. */
  lemma FrameTickGrows(maxTick: U32, frame: nat)
    requires frame + 1 < FrameCount
    ensures FrameTick(maxTick, frame) <= FrameTick(maxTick, frame + 1)
  {
    assert maxTick * frame <= maxTick * (frame + 1);
  }

  /** touch_sensor_position. */
  function TouchPosition(sensor: nat): (int, int)
    requires sensor < SensorCount
  {
    [(128, 8), (173, 21), (192, 72), (173, 123), (128, 136), (83, 123), (64, 72), (83, 21),
     (128, 24), (162, 38), (176, 72), (162, 106), (128, 120), (94, 106), (80, 72), (94, 38),
     (128, 72),
     (128, 41), (150, 50), (159, 72), (150, 94), (128, 103), (106, 94), (97, 72), (106, 50),
     (128, 55), (140, 60), (145, 72), (140, 84), (128, 89), (116, 84), (111, 72), (116, 60)][sensor]
  }

  /** A sensor stands at one of the eight places of a ring around (128, 72), clockwise from the top: at the radius
      straight up, right, down or left, and off by (dx, dy) in between. */
  predicate Stands(sensor: nat, place: nat, radius: int, dx: int, dy: int)
    requires sensor < SensorCount && place < 8
  {
    var right, down := [0, 1, 1, 1, 0, -1, -1, -1][place], [-1, -1, 0, 1, 1, 1, 0, -1][place];
    TouchPosition(sensor) == (128 + right * (if down == 0 then radius else dx),
                              72 + down * (if right == 0 then radius else dy))
  }

  lemma Centre() ensures TouchPosition(16) == (128, 72) {}

  lemma RingA(place: nat) requires place < 8 ensures Stands(place, place, 64, 45, 51) {}

  lemma RingB(place: nat) requires place < 8 ensures Stands(8 + place, place, 48, 34, 34) {}

  lemma RingD(place: nat) requires place < 8 ensures Stands(17 + place, place, 31, 22, 22) {}

  lemma RingE(place: nat) requires place < 8 ensures Stands(25 + place, place, 17, 12, 12) {}

  /** The longest remaining break flash among the first n lanes. */
  function Flash(s: State, n: nat): U8
    requires n <= |s.breaks|
  {
    if n == 0 then 0 else Max(Flash(s, n - 1), s.breaks[n - 1].flashFrames)
  }
}
