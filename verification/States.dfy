/** The state of a chart, frame by frame. */
module States {
  import opened Types

  datatype Chart = Chart(wholeBpmMilli: U32, events: seq<Event>, severities: seq<U8>, maxTick: U32)

  // ---------------------------------------------------------------- one event

  function Bump(energy: seq<U16>, k: nat, value: nat): (r: seq<U16>)
    requires k < |energy|
    ensures |r| == |energy|
  {
    energy[k := Min(65535, energy[k] + value)]
  }

  function Distance(a: nat, b: nat): nat { if b > a then b - a else a - b }

  function Rotate(x: bv64, n: nat): bv64
    requires n in {5, 7, 13}
  {
    if n == 5 then (x << 5) | (x >> 59) else if n == 7 then (x << 7) | (x >> 57) else (x << 13) | (x >> 51)
  }

  function Wide(x: U64): bv64 { x as bv64 }

  function Multiply(x: bv64, m: bv64, a: bv64): bv64 { x * m + a }

  function Mix(x: bv64, n: nat): bv64
    requires n in {7, 13}
  {
    Multiply(Rotate(x, n), 0xd6e8feb86659fd93, 0xa5a3564e27f8862f)
  }

  function WordUpTo(line: string, n: nat): bv64
    requires n <= |line|
  {
    if n == 0 then 0x243f6a8885a308d3
    else
      var byte := line[n - 1] as int % 256;
      Multiply(Rotate(WordUpTo(line, n - 1) ^ Wide(byte), 5), 0x9e3779b185ebca87, 0x165667b19e3779f9)
  }

  /** event_word. */
  function EventWord(line: string): bv64 {
    var size := |line| % 0x1_0000_0000_0000_0000;
    WordUpTo(line, |line|) ^ Wide(size)
  }

  /** apply_event. Lanes and sensors out of range change nothing but the phase. */
  function Applied(s: State, e: Event): (r: State)
    requires Sized(s)
    ensures Sized(r)
  {
    var t := Landed(s, e);
    t.(phase := MixEvent(t.phase, EventWord(e.canonical)))
  }

  /** mix_event. */
  function MixEvent(phase: bv64, word: bv64): bv64 { Mix(phase ^ word, 13) }

  /** Everything but the phase. */
  function Landed(s: State, e: Event): (r: State)
    requires Sized(s)
    ensures Sized(r)
  {
    match e.kind
    case Tap =>
      if e.lane < 8 then
        s.(energy := Bump(s.energy, e.lane, e.strength), taps := s.taps[e.lane := LatestTap(true, e.strength)])
      else s
    case Hold =>
      if e.lane < 8 then
        s.(energy := Bump(s.energy, e.lane, Max(1, e.strength / 4)),
         holds := s.holds[e.lane := ActiveHold(true, e.endTick, e.strength)])
      else s
    case Slide =>
      if e.lane < 8 && e.targetLane < 8 then
        s.(energy := Bump(s.energy, e.lane, 8 * (Distance(e.lane, e.targetLane) + 1)),
         slides := s.slides[e.lane := ActiveSlide(true, e.endTick, e.targetLane, e.pathId)])
      else s
    case Break =>
      if e.lane < 8 then
        s.(energy := Bump(s.energy, e.lane, 2 * e.strength),
         breaks := s.breaks[e.lane := LatestBreak(true, e.strength, 3)], breakRemaining := 3)
      else s
    case TouchTap =>
      if e.sensor < SensorCount then
        s.(touchEnergy := Bump(s.touchEnergy, e.sensor, e.strength),
         touches := s.touches[e.sensor := LatestTouch(true, false, e.strength)])
      else s
    case TouchHold =>
      if e.sensor < SensorCount then
        s.(touchEnergy := Bump(s.touchEnergy, e.sensor, Max(1, e.strength / 4)),
         touchHolds := s.touchHolds[e.sensor := ActiveHold(true, e.endTick, e.strength)],
         touches := s.touches[e.sensor := LatestTouch(true, true, e.strength)])
      else s
  }

  // ---------------------------------------------------------------- one frame interval

  const NoHold := ActiveHold(false, 0, 0)
  const NoSlide := ActiveSlide(false, 0, 0, 0)

  function EndedHold(h: ActiveHold, target: U32): ActiveHold { if h.present && h.endTick <= target then NoHold else h }

  function EndedSlide(h: ActiveSlide, target: U32): ActiveSlide {
    if h.present && h.endTick <= target then NoSlide else h
  }

  function Faded(b: LatestBreak): LatestBreak {
    if b.flashFrames > 0 then b.(flashFrames := b.flashFrames - 1) else b
  }

  /** A lane's energy falls by an eighth and is fed by what is held or sliding there. */
  function LaneEnergy(s: State, lane: nat): U16
    requires Sized(s) && lane < 8
  {
    var e: int := s.energy[lane];
    var e0 := 7 * e / 8;
    var e1 := if s.holds[lane].present then Min(65535, e0 + Max(1, s.holds[lane].strength / 8)) else e0;
    if s.slides[lane].present then Min(65535, e1 + 4 * (Distance(lane, s.slides[lane].targetLane) + 1)) else e1
  }

  function SensorEnergy(s: State, sensor: nat): U16
    requires Sized(s) && sensor < SensorCount
  {
    var e: int := s.touchEnergy[sensor];
    var e0 := 7 * e / 8;
    if s.touchHolds[sensor].present then Min(65535, e0 + Max(1, s.touchHolds[sensor].strength / 8)) else e0
  }

  /** The start of the next frame, before its events: every part comes from the state before. */
  function Decayed(s: State, frame: nat, target: U32): (r: State)
    requires Sized(s) && frame < FrameCount
    ensures Sized(r)
  {
    s.(energy := seq(8, l requires 0 <= l < 8 => LaneEnergy(s, l)),
       touchEnergy := seq(SensorCount, l requires 0 <= l < SensorCount => SensorEnergy(s, l)),
       breakRemaining := if s.breakRemaining > 0 then s.breakRemaining - 1 else 0,
       breaks := seq(8, l requires 0 <= l < 8 => Faded(s.breaks[l])),
       holds := seq(8, l requires 0 <= l < 8 => EndedHold(s.holds[l], target)),
       slides := seq(8, l requires 0 <= l < 8 => EndedSlide(s.slides[l], target)),
       touchHolds := seq(SensorCount, l requires 0 <= l < SensorCount => EndedHold(s.touchHolds[l], target)),
       phase := NextPhase(s.phase, frame))
  }

  function NextPhase(phase: bv64, frame: nat): bv64
    requires frame < FrameCount
  {
    Mix(phase ^ Wide(frame), 7)
  }

  // ---------------------------------------------------------------- all frames

  function Initial(chartId: U64, c: Chart): (s: State)
    ensures Sized(s)
  {
    State(65536, 0, 0, 255, 255, 0, seq(8, _ => 0), seq(SensorCount, _ => 0), 0,
          seq(8, _ => NoHold), seq(8, _ => NoSlide), seq(8, _ => LatestTap(false, 0)),
          seq(8, _ => LatestBreak(false, 0, 0)), seq(SensorCount, _ => NoHold),
          seq(SensorCount, _ => LatestTouch(false, false, 0)),
          |c.severities| % 0x1_0000_0000,
          if c.severities == [] then 0 else c.severities[|c.severities| - 1],
          FirstPhase(chartId, (c.wholeBpmMilli * 65536 + 500) / 1000))
  }

  function FirstPhase(chartId: U64, bpm: U64): bv64 {
    0x6a09e667f3bcc909 ^ Wide(chartId) ^ (Wide(bpm) << 17) ^ 33
  }

  function ApplyAll(s: State, events: seq<Event>, lo: nat, hi: nat): (r: State)
    requires Sized(s) && lo <= hi <= |events|
    ensures Sized(r)
    decreases hi - lo
  {
    if lo == hi then s else Applied(ApplyAll(s, events, lo, hi - 1), events[hi - 1])
  }

  /** The first event from index `from` on that the tick does not reach. */
  function Taken(events: seq<Event>, from: nat, tick: U32): (n: nat)
    requires from <= |events|
    ensures from <= n <= |events|
    ensures forall k :: from <= k < n ==> events[k].tick <= tick
    ensures n < |events| ==> events[n].tick > tick
    decreases |events| - from
  {
    if from < |events| && events[from].tick <= tick then Taken(events, from + 1, tick) else from
  }

  /** How many events have been applied by the end of a frame. */
  function Cut(c: Chart, frame: nat): (n: nat)
    requires frame < FrameCount
    ensures n <= |c.events|
  {
    Taken(c.events, if frame == 0 then 0 else Cut(c, frame - 1), FrameTick(c.maxTick, frame))
  }

  function StateAt(chartId: U64, c: Chart, frame: nat): (s: State)
    requires frame < FrameCount
    ensures Sized(s)
  {
    if frame == 0 then ApplyAll(Initial(chartId, c), c.events, 0, Cut(c, 0))
    else
      ApplyAll(Decayed(StateAt(chartId, c, frame - 1), frame, FrameTick(c.maxTick, frame)),
               c.events, Cut(c, frame - 1), Cut(c, frame))
  }

  lemma ApplyNext(s: State, events: seq<Event>, lo: nat, hi: nat)
    requires Sized(s) && lo <= hi < |events|
    ensures ApplyAll(s, events, lo, hi + 1) == Applied(ApplyAll(s, events, lo, hi), events[hi])
  {}

  lemma TakenNext(events: seq<Event>, from: nat, k: nat, tick: U32)
    requires from <= k <= |events| && forall i :: from <= i < k ==> events[i].tick <= tick
    ensures Taken(events, from, tick) == Taken(events, k, tick)
    decreases k - from
  {
    if from < k {
      TakenNext(events, from + 1, k, tick);
    }
  }

  /** add_button_energy and add_touch_energy, in range. */
  method AddEnergy(energy: seq<U16>, k: nat, value: nat) returns (r: seq<U16>)
    requires k < |energy|
    ensures r == Bump(energy, k, value)
  {
    var sum: nat := energy[k] + value;
    r := energy[k := if sum < 65535 then sum else 65535];
  }

  /** apply_event. */
  method ApplyEvent(s: State, e: Event) returns (r: State)
    requires Sized(s)
    ensures r == Applied(s, e)
  {
    hide Landed, MixEvent, EventWord;
    match e.kind {
      case TouchTap => r := ApplyTouch(s, e);
      case TouchHold => r := ApplyTouch(s, e);
      case _ => r := ApplyButton(s, e);
    }
    var phase := MixWord(r.phase, EventWord(e.canonical));
    r := r.(phase := phase);
  }

  /** mix_event, and the phase of the next frame. */
  method MixWord(phase: bv64, word: bv64) returns (r: bv64)
    ensures r == MixEvent(phase, word)
  {
    hide Multiply;
    var x := phase ^ word;
    r := Multiply((x << 13) | (x >> 51), 0xd6e8feb86659fd93, 0xa5a3564e27f8862f);
  }

  method MixFrame(phase: bv64, frame: nat) returns (r: bv64)
    requires frame < FrameCount
    ensures r == NextPhase(phase, frame)
  {
    hide Multiply, Wide;
    var x := phase ^ Wide(frame);
    r := Multiply((x << 7) | (x >> 57), 0xd6e8feb86659fd93, 0xa5a3564e27f8862f);
  }

  method ApplyButton(s: State, e: Event) returns (r: State)
    requires Sized(s) && e.kind in {Tap, Hold, Slide, Break}
    ensures r == Landed(s, e)
  {
    hide Bump;
    if e.lane >= 8 {
      return s;
    }
    r := s;
    match e.kind {
      case Tap =>
        var energy := AddEnergy(s.energy, e.lane, e.strength);
        r := s.(energy := energy, taps := s.taps[e.lane := LatestTap(true, e.strength)]);
      case Hold =>
        var energy := AddEnergy(s.energy, e.lane, if e.strength < 8 then 1 else e.strength / 4);
        r := s.(energy := energy, holds := s.holds[e.lane := ActiveHold(true, e.endTick, e.strength)]);
      case Slide =>
        if e.targetLane < 8 {
          var distance := if e.targetLane > e.lane then e.targetLane - e.lane else e.lane - e.targetLane;
          var energy := AddEnergy(s.energy, e.lane, 8 * (distance + 1));
          r := s.(energy := energy, slides := s.slides[e.lane := ActiveSlide(true, e.endTick, e.targetLane, e.pathId)]);
        }
      case Break =>
        var energy := AddEnergy(s.energy, e.lane, 2 * e.strength);
        r := s.(energy := energy, breaks := s.breaks[e.lane := LatestBreak(true, e.strength, 3)], breakRemaining := 3);
    }
  }

  method ApplyTouch(s: State, e: Event) returns (r: State)
    requires Sized(s) && e.kind in {TouchTap, TouchHold}
    ensures r == Landed(s, e)
  {
    hide Bump;
    if e.sensor >= SensorCount {
      return s;
    }
    if e.kind == TouchTap {
      var energy := AddEnergy(s.touchEnergy, e.sensor, e.strength);
      r := s.(touchEnergy := energy, touches := s.touches[e.sensor := LatestTouch(true, false, e.strength)]);
    } else {
      var energy := AddEnergy(s.touchEnergy, e.sensor, if e.strength < 8 then 1 else e.strength / 4);
      r := s.(touchEnergy := energy,
              touchHolds := s.touchHolds[e.sensor := ActiveHold(true, e.endTick, e.strength)],
              touches := s.touches[e.sensor := LatestTouch(true, true, e.strength)]);
    }
  }

  /** Apply the events that a frame's tick reaches. */
  method ApplyReached(s: State, events: seq<Event>, from: nat, tick: U32) returns (r: State, next: nat)
    requires Sized(s) && from <= |events|
    ensures next == Taken(events, from, tick)
    ensures r == ApplyAll(s, events, from, next)
  {
    hide Applied;
    r, next := s, from;
    while next < |events| && events[next].tick <= tick
      invariant from <= next <= |events| && r == ApplyAll(s, events, from, next)
      invariant forall i :: from <= i < next ==> events[i].tick <= tick
    {
      ApplyNext(s, events, from, next);
      r := ApplyEvent(r, events[next]);
      next := next + 1;
    }
    TakenNext(events, from, next, tick);
  }

  /** The loops over lanes and sensors at the start of a frame. */
  method Decay(current: State, frame: nat, target: U32) returns (next: State)
    requires Sized(current) && frame < FrameCount
    ensures next == Decayed(current, frame, target)
  {
    hide LaneEnergy, SensorEnergy, EndedHold, EndedSlide, Faded, NextPhase;
    var energy, touchEnergy := DecayEnergy(current);
    var breaks, holds, slides := DecayLanes(current, target);
    var touchHolds := DecayTouchHolds(current, target);
    var phase := MixFrame(current.phase, frame);
    next := current.(energy := energy, touchEnergy := touchEnergy,
                     breakRemaining := if current.breakRemaining > 0 then current.breakRemaining - 1 else 0,
                     breaks := breaks, holds := holds, slides := slides, touchHolds := touchHolds,
                     phase := phase);
    var spec := Decayed(current, frame, target);
    assert next.energy == spec.energy && next.touchEnergy == spec.touchEnergy && next.touchHolds == spec.touchHolds;
    assert next.breaks == spec.breaks && next.holds == spec.holds && next.slides == spec.slides;
  }

  method CappedSum(energy: nat, value: nat) returns (r: U16)
    ensures r == Min(65535, energy + value)
  {
    var sum := energy + value;
    r := if sum < 65535 then sum else 65535;
  }

  method DecayEnergy(current: State) returns (energy: seq<U16>, touchEnergy: seq<U16>)
    requires Sized(current)
    ensures |energy| == 8 && |touchEnergy| == SensorCount
    ensures forall l :: 0 <= l < 8 ==> energy[l] == LaneEnergy(current, l)
    ensures forall l :: 0 <= l < SensorCount ==> touchEnergy[l] == SensorEnergy(current, l)
  {
    energy, touchEnergy := current.energy, current.touchEnergy;
    for lane := 0 to 8
      invariant |energy| == 8
      invariant forall l :: 0 <= l < lane ==> energy[l] == LaneEnergy(current, l)
    {
      var before: nat := current.energy[lane];
      var e: nat := 7 * before / 8;
      if current.holds[lane].present {
        var feed := if current.holds[lane].strength < 16 then 1 else current.holds[lane].strength / 8;
        e := CappedSum(e, feed);
      }
      if current.slides[lane].present {
        var target := current.slides[lane].targetLane;
        var feed := 4 * ((if target > lane then target - lane else lane - target) + 1);
        e := CappedSum(e, feed);
      }
      energy := energy[lane := e];
    }
    for sensor := 0 to SensorCount
      invariant |touchEnergy| == SensorCount
      invariant forall l :: 0 <= l < sensor ==> touchEnergy[l] == SensorEnergy(current, l)
    {
      var before: nat := current.touchEnergy[sensor];
      var e: nat := 7 * before / 8;
      if current.touchHolds[sensor].present {
        var feed := if current.touchHolds[sensor].strength < 16 then 1 else current.touchHolds[sensor].strength / 8;
        e := CappedSum(e, feed);
      }
      touchEnergy := touchEnergy[sensor := e];
    }
  }

  method DecayTouchHolds(current: State, target: U32) returns (holds: seq<ActiveHold>)
    requires Sized(current)
    ensures |holds| == SensorCount
    ensures forall l :: 0 <= l < SensorCount ==> holds[l] == EndedHold(current.touchHolds[l], target)
  {
    hide EndedHold;
    holds := current.touchHolds;
    for sensor := 0 to SensorCount
      invariant |holds| == SensorCount
      invariant forall l :: 0 <= l < SensorCount ==>
        holds[l] == if l < sensor then EndedHold(current.touchHolds[l], target) else current.touchHolds[l]
    {
      holds := holds[sensor := EndedHold(holds[sensor], target)];
    }
  }

  method DecayLanes(current: State, target: U32)
    returns (breaks: seq<LatestBreak>, holds: seq<ActiveHold>, slides: seq<ActiveSlide>)
    requires Sized(current)
    ensures |breaks| == |holds| == |slides| == 8
    ensures forall l :: 0 <= l < 8 ==> breaks[l] == Faded(current.breaks[l])
    ensures forall l :: 0 <= l < 8 ==> holds[l] == EndedHold(current.holds[l], target)
    ensures forall l :: 0 <= l < 8 ==> slides[l] == EndedSlide(current.slides[l], target)
  {
    hide EndedHold, EndedSlide, Faded;
    breaks, holds, slides := current.breaks, current.holds, current.slides;
    for lane := 0 to 8
      invariant |breaks| == 8
      invariant forall l :: 0 <= l < 8 ==> breaks[l] == if l < lane then Faded(current.breaks[l]) else current.breaks[l]
    {
      breaks := breaks[lane := Faded(breaks[lane])];
    }
    for lane := 0 to 8
      invariant |holds| == |slides| == 8
      invariant forall l :: 0 <= l < 8 ==>
        && holds[l] == (if l < lane then EndedHold(current.holds[l], target) else current.holds[l])
        && slides[l] == (if l < lane then EndedSlide(current.slides[l], target) else current.slides[l])
    {
      holds := holds[lane := EndedHold(holds[lane], target)];
      slides := slides[lane := EndedSlide(slides[lane], target)];
    }
  }

  /** evolve_states. */
  method EvolveStates(chartId: U64, c: Chart) returns (states: seq<State>)
    ensures |states| == FrameCount
    ensures forall f :: 0 <= f < FrameCount ==> states[f] == StateAt(chartId, c, f)
  {
    hide StateAt, Cut;
    var current, next := FirstFrame(chartId, c);
    states := [current];
    for frame := 0 to FrameCount - 1
      invariant |states| == frame + 1 && current == StateAt(chartId, c, frame) && next == Cut(c, frame)
      invariant forall f :: 0 <= f <= frame ==> states[f] == StateAt(chartId, c, f)
    {
      current, next := NextFrame(chartId, c, frame, current, next);
      states := states + [current];
    }
  }

  /** The events at tick 0. */
  method FirstFrame(chartId: U64, c: Chart) returns (current: State, next: nat)
    ensures current == StateAt(chartId, c, 0) && next == Cut(c, 0)
  {
    hide ApplyAll, Taken, Initial, FrameTick;
    current, next := ApplyReached(Initial(chartId, c), c.events, 0, 0);
  }

  method NextFrame(chartId: U64, c: Chart, frame: nat, current: State, next: nat) returns (current': State, next': nat)
    requires frame + 1 < FrameCount && current == StateAt(chartId, c, frame) && next == Cut(c, frame)
    ensures current' == StateAt(chartId, c, frame + 1) && next' == Cut(c, frame + 1)
  {
    hide ApplyAll, Taken, Initial, Decayed, FrameTick;
    var target := FrameTick(c.maxTick, frame + 1);
    var decayed := Decay(current, frame + 1, target);
    current', next' := ApplyReached(decayed, c.events, next, target);
  }

  /** evolve_endpoint_states: the same run, keeping the first and the last frame. */
  method EvolveEndpointStates(chartId: U64, c: Chart) returns (begin: State, end: State)
    ensures begin == StateAt(chartId, c, 0) && end == StateAt(chartId, c, 9)
  {
    hide StateAt;
    var states := EvolveStates(chartId, c);
    begin, end := states[0], states[9];
  }

  // ---------------------------------------------------------------- every event once

  /** What the parser's final sort and its max_tick give. */
  ghost predicate WellTimed(c: Chart) {
    && (forall i, j :: 0 <= i < j < |c.events| ==> c.events[i].tick <= c.events[j].tick)
    && forall i :: 0 <= i < |c.events| ==> c.events[i].tick <= c.maxTick
  }

  /** An event has been applied by the end of a frame exactly if the frame's tick reaches it. */
  lemma {:induction false} AppliedWhenReached(c: Chart, frame: nat, k: nat)
    requires WellTimed(c) && frame < FrameCount && k < |c.events|
    ensures k < Cut(c, frame) <==> c.events[k].tick <= FrameTick(c.maxTick, frame)
  {
    hide FrameTick, Taken;
    if frame > 0 {
      FrameTickGrows(c.maxTick, frame - 1);
      if k < Cut(c, frame - 1) {
        AppliedWhenReached(c, frame - 1, k);
      }
    }
    var n := Cut(c, frame);
    if n < |c.events| && n <= k {
      assert c.events[n].tick <= c.events[k].tick;
    }
  }

  /** After the last frame every event has been applied. */
  lemma AllApplied(c: Chart)
    requires WellTimed(c)
    ensures Cut(c, 9) == |c.events|
  {
    var n := Taken(c.events, Cut(c, 8), FrameTick(c.maxTick, 9));
    assert n == Cut(c, 9);
  }

  lemma CutGrows(c: Chart, frame: nat)
    requires frame + 1 < FrameCount
    ensures Cut(c, frame) <= Cut(c, frame + 1)
  {}
}
