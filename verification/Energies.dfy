/** The energies of a frame, read off the events, and known values of the phase. */
module Energies {
  import opened Types
  import opened States

  // ---------------------------------------------------------------- what an event is worth

  /** The energy an event gives to a lane: the strength of a tap, a quarter of that of a hold but at least 1, eight for
      each lane that a slide touches, twice the strength of a break. */
  function LaneWeight(e: Event, k: nat): nat {
    if e.lane != k then 0
    else if e.kind == Tap then e.strength
    else if e.kind == Break then e.strength + e.strength
    else if e.kind == Hold then (if e.strength < 4 then 1 else e.strength / 4)
    else if e.kind == Slide && e.targetLane < 8 then
      (if e.targetLane < k then 8 * (k - e.targetLane + 1) else 8 * (e.targetLane - k + 1))
    else 0
  }

  function SensorWeight(e: Event, k: nat): nat {
    if e.sensor != k then 0
    else if e.kind == TouchTap then e.strength
    else if e.kind == TouchHold then (if e.strength < 4 then 1 else e.strength / 4)
    else 0
  }

  function LaneTotal(events: seq<Event>, lo: nat, hi: nat, k: nat): nat
    requires lo <= hi <= |events|
    decreases hi - lo
  {
    if lo == hi then 0 else LaneTotal(events, lo, hi - 1, k) + LaneWeight(events[hi - 1], k)
  }

  function SensorTotal(events: seq<Event>, lo: nat, hi: nat, k: nat): nat
    requires lo <= hi <= |events|
    decreases hi - lo
  {
    if lo == hi then 0 else SensorTotal(events, lo, hi - 1, k) + SensorWeight(events[hi - 1], k)
  }

  lemma OneEvent(s: State, e: Event, k: nat)
    requires Sized(s) && k < SensorCount
    ensures k < 8 ==> Applied(s, e).energy[k] == Min(65535, s.energy[k] + LaneWeight(e, k))
    ensures Applied(s, e).touchEnergy[k] == Min(65535, s.touchEnergy[k] + SensorWeight(e, k))
  {
    if k < 8 {
      OnLane(s, e, k);
    }
    OnSensor(s, e, k);
  }

  lemma OnLane(s: State, e: Event, k: nat)
    requires Sized(s) && k < 8
    ensures Applied(s, e).energy[k] == Min(65535, s.energy[k] + LaneWeight(e, k))
  {
    hide MixEvent, EventWord;
    assert Applied(s, e).energy == Landed(s, e).energy;
    if e.lane == k {
      Lands(s, e);
    } else {
      OthersKeep(s, e, k);
    }
  }

  lemma Lands(s: State, e: Event)
    requires Sized(s) && e.lane < 8
    ensures Landed(s, e).energy[e.lane] == Min(65535, s.energy[e.lane] + LaneWeight(e, e.lane))
  {
    hide Bump;
    if e.kind == Slide {
      SlideLands(s, e);
    } else {
      Bumped(s.energy, e.lane, LaneWeight(e, e.lane), e.lane);
    }
  }

  lemma SlideLands(s: State, e: Event)
    requires Sized(s) && e.lane < 8 && e.kind == Slide
    ensures Landed(s, e).energy[e.lane] == Min(65535, s.energy[e.lane] + LaneWeight(e, e.lane))
  {}

  lemma OthersKeep(s: State, e: Event, k: nat)
    requires Sized(s) && k < 8 && e.lane != k
    ensures Landed(s, e).energy[k] == s.energy[k]
  {
    hide Bump;
    if e.lane < 8 {
      forall value: nat
        ensures Bump(s.energy, e.lane, value)[k] == s.energy[k]
      {
        Bumped(s.energy, e.lane, value, k);
      }
    }
  }

  lemma Bumped(energy: seq<U16>, i: nat, value: nat, k: nat)
    requires i < |energy| && k < |energy|
    ensures Bump(energy, i, value)[k] == if i == k then Min(65535, energy[k] + value) else energy[k]
  {}

  lemma OnSensor(s: State, e: Event, k: nat)
    requires Sized(s) && k < SensorCount
    ensures Applied(s, e).touchEnergy[k] == Min(65535, s.touchEnergy[k] + SensorWeight(e, k))
  {
    hide MixEvent, EventWord;
    assert Applied(s, e).touchEnergy == Landed(s, e).touchEnergy;
    Touches(s, e, k);
  }

  lemma Touches(s: State, e: Event, k: nat)
    requires Sized(s) && k < SensorCount
    ensures Landed(s, e).touchEnergy[k] == Min(65535, s.touchEnergy[k] + SensorWeight(e, k))
  {
    hide Bump;
    if e.sensor < SensorCount {
      Bumped(s.touchEnergy, e.sensor, SensorWeight(e, e.sensor), k);
    }
  }

  /** Saturating once is saturating at each event. */
  lemma {:induction false} AllEvents(s: State, events: seq<Event>, lo: nat, hi: nat, k: nat)
    requires Sized(s) && lo <= hi <= |events| && k < SensorCount
    ensures k < 8 ==>
      ApplyAll(s, events, lo, hi).energy[k] == Min(65535, s.energy[k] + LaneTotal(events, lo, hi, k))
    ensures ApplyAll(s, events, lo, hi).touchEnergy[k] == Min(65535, s.touchEnergy[k] + SensorTotal(events, lo, hi, k))
    decreases hi - lo
  {
    hide Applied, LaneWeight, SensorWeight;
    if lo < hi {
      AllEvents(s, events, lo, hi - 1, k);
      OneEvent(ApplyAll(s, events, lo, hi - 1), events[hi - 1], k);
    }
  }

  // ---------------------------------------------------------------- from frame to frame

  /** What is left of an energy: seven eighths, rounded down. */
  predicate Left(before: nat, after: nat) { 8 * after <= 7 * before < 8 * after + 8 }

  /** What a hold feeds in a frame, and what a slide does: an eighth of the strength but at least 1, and four for each
      lane touched. */
  function HoldFeed(h: ActiveHold): nat {
    if !h.present then 0 else if h.strength < 8 then 1 else h.strength / 8
  }

  function SlideFeed(s: ActiveSlide, k: nat): nat {
    if !s.present then 0
    else if s.targetLane < k then 4 * (k - s.targetLane + 1) else 4 * (s.targetLane - k + 1)
  }

  /** The energies of a frame, from those of the frame before and the events of the interval between them. */
  lemma EnergyOfFrame(chartId: U64, c: Chart, frame: nat, k: nat, left: nat, touchLeft: nat)
    requires frame + 1 < FrameCount && k < SensorCount
    requires k < 8 ==> Left(StateAt(chartId, c, frame).energy[k], left)
    requires Left(StateAt(chartId, c, frame).touchEnergy[k], touchLeft)
    ensures Cut(c, frame) <= Cut(c, frame + 1)
    ensures var s, t := StateAt(chartId, c, frame), StateAt(chartId, c, frame + 1);
      && (k < 8 ==>
            t.energy[k] == Min(65535, left + HoldFeed(s.holds[k]) + SlideFeed(s.slides[k], k)
                                      + LaneTotal(c.events, Cut(c, frame), Cut(c, frame + 1), k)))
      && t.touchEnergy[k] == Min(65535, touchLeft + HoldFeed(s.touchHolds[k])
                                        + SensorTotal(c.events, Cut(c, frame), Cut(c, frame + 1), k))
  {
    hide StateAt, ApplyAll, Cut, FrameTick, LaneTotal, SensorTotal, Decayed;
    CutGrows(c, frame);
    var s := StateAt(chartId, c, frame);
    var d := Decayed(s, frame + 1, FrameTick(c.maxTick, frame + 1));
    NextState(chartId, c, frame);
    AllEvents(d, c.events, Cut(c, frame), Cut(c, frame + 1), k);
    DecayedEnergy(s, frame + 1, FrameTick(c.maxTick, frame + 1), k, left, touchLeft);
  }

  lemma NextState(chartId: U64, c: Chart, frame: nat)
    requires frame + 1 < FrameCount
    ensures Cut(c, frame) <= Cut(c, frame + 1)
    ensures StateAt(chartId, c, frame + 1)
         == ApplyAll(Decayed(StateAt(chartId, c, frame), frame + 1, FrameTick(c.maxTick, frame + 1)), c.events,
                     Cut(c, frame), Cut(c, frame + 1))
  {}

  lemma DecayedEnergy(s: State, frame: nat, target: U32, k: nat, left: nat, touchLeft: nat)
    requires Sized(s) && frame < FrameCount && k < SensorCount
    requires (k < 8 ==> Left(s.energy[k], left)) && Left(s.touchEnergy[k], touchLeft)
    ensures var d := Decayed(s, frame, target);
      && (k < 8 ==> d.energy[k] == Min(65535, left + HoldFeed(s.holds[k]) + SlideFeed(s.slides[k], k)))
      && d.touchEnergy[k] == Min(65535, touchLeft + HoldFeed(s.touchHolds[k]))
  {
    hide NextPhase;
    if k < 8 {
      LaneDecays(s, k, left);
    }
    SensorDecays(s, k, touchLeft);
  }

  lemma LaneDecays(s: State, k: nat, left: nat)
    requires Sized(s) && k < 8 && Left(s.energy[k], left)
    ensures LaneEnergy(s, k) == Min(65535, left + HoldFeed(s.holds[k]) + SlideFeed(s.slides[k], k))
  {}

  lemma SensorDecays(s: State, k: nat, left: nat)
    requires Sized(s) && k < SensorCount && Left(s.touchEnergy[k], left)
    ensures SensorEnergy(s, k) == Min(65535, left + HoldFeed(s.touchHolds[k]))
  {}

  /** The energies of the first frame are those of the events at tick 0. */
  lemma EnergyAtStart(chartId: U64, c: Chart, k: nat)
    requires k < SensorCount
    ensures k < 8 ==> StateAt(chartId, c, 0).energy[k] == Min(65535, LaneTotal(c.events, 0, Cut(c, 0), k))
    ensures StateAt(chartId, c, 0).touchEnergy[k] == Min(65535, SensorTotal(c.events, 0, Cut(c, 0), k))
  {
    hide ApplyAll, Cut, LaneTotal, SensorTotal;
    AllEvents(Initial(chartId, c), c.events, 0, Cut(c, 0), k);
  }

  /** A fresh state: speed 1, no rotation, not mirrored, opaque, no energy. */
  lemma StartsFresh(chartId: U64, c: Chart, k: nat)
    requires k < SensorCount
    ensures var s := Initial(chartId, c);
      && s.speed == 65536 && s.rotation == 0 && s.mirror == 0 && s.alpha == 255 && s.assetSlot == 255 && s.assetMode == 0
      && (k < 8 ==> s.energy[k] == 0) && s.touchEnergy[k] == 0 && s.breakRemaining == 0
  {
    hide FirstPhase;
  }

  /** Nothing is shown in it. */
  lemma StartsEmpty(chartId: U64, c: Chart, k: nat)
    requires k < SensorCount
    ensures var s := Initial(chartId, c);
      && (k < 8 ==> !s.holds[k].present && !s.slides[k].present && !s.taps[k].present)
      && (k < 8 ==> !s.breaks[k].present && s.breaks[k].flashFrames == 0)
      && !s.touchHolds[k].present && !s.touches[k].present
  {
    hide FirstPhase;
  }

  /** It knows how many warnings there are and the severity of the last. */
  lemma StartsWarned(chartId: U64, c: Chart, count: U32)
    requires |c.severities| == count
    ensures Initial(chartId, c).warningCount == count
    ensures count == 0 ==> Initial(chartId, c).latestWarningSeverity == 0
    ensures count > 0 ==> Initial(chartId, c).latestWarningSeverity == c.severities[count - 1]
  {
    hide FirstPhase;
  }

  // ---------------------------------------------------------------- the phase of a known chart

  const TapText := "0 TAP B1 128"

  lemma NextWord(line: string, n: nat, ch: char, byte: bv64, before: bv64, after: bv64)
    requires n < |line| && line[n] == ch && ch as int < 256 && byte == Wide(ch as int)
    requires WordUpTo(line, n) == before
    requires Multiply(Rotate(before ^ byte, 5), 0x9e3779b185ebca87, 0x165667b19e3779f9) == after
    ensures WordUpTo(line, n + 1) == after
  {
    hide Multiply, Rotate, Wide;
    assert line[n] as int % 256 == ch as int;
  }

  /** event_word, character by character. */
  lemma TapWord0(line: string)
    requires line == TapText && WordUpTo(line, 0) == 0x243f6a8885a308d3
    ensures WordUpTo(line, 3) == 0x57a0c80e21ced21c
  {
    hide WordUpTo;
    NextWord(line, 0, '0', 0x30, 0x243f6a8885a308d3, 0x8d8b43de61a05ab5);
    NextWord(line, 1, ' ', 0x20, 0x8d8b43de61a05ab5, 0x298d4f2ddceabf50);
    NextWord(line, 2, 'T', 0x54, 0x298d4f2ddceabf50, 0x57a0c80e21ced21c);
  }

  lemma TapWord3(line: string)
    requires line == TapText && WordUpTo(line, 3) == 0x57a0c80e21ced21c
    ensures WordUpTo(line, 6) == 0xdcd5fbcb5e2bd782
  {
    hide WordUpTo;
    NextWord(line, 3, 'A', 0x41, 0x57a0c80e21ced21c, 0x77525b0f2717849f);
    NextWord(line, 4, 'P', 0x50, 0x77525b0f2717849f, 0x7d96e0db1808727b);
    NextWord(line, 5, ' ', 0x20, 0x7d96e0db1808727b, 0xdcd5fbcb5e2bd782);
  }

  lemma TapWord6(line: string)
    requires line == TapText && WordUpTo(line, 6) == 0xdcd5fbcb5e2bd782
    ensures WordUpTo(line, 9) == 0x084241b798c8a0ce
  {
    hide WordUpTo;
    NextWord(line, 6, 'B', 0x42, 0xdcd5fbcb5e2bd782, 0xdbbcf1cc919e9e36);
    NextWord(line, 7, '1', 0x31, 0xdbbcf1cc919e9e36, 0x1de2c7df96914c56);
    NextWord(line, 8, ' ', 0x20, 0x1de2c7df96914c56, 0x084241b798c8a0ce);
  }

  lemma TapWord9(line: string)
    requires line == TapText && WordUpTo(line, 9) == 0x084241b798c8a0ce
    ensures WordUpTo(line, 12) == 0xa0848e163d2a4a40
  {
    hide WordUpTo;
    NextWord(line, 9, '1', 0x31, 0x084241b798c8a0ce, 0xbe491147e186d3a0);
    NextWord(line, 10, '2', 0x32, 0xbe491147e186d3a0, 0x0a588650e87f6bda);
    NextWord(line, 11, '8', 0x38, 0x0a588650e87f6bda, 0xa0848e163d2a4a40);
  }

  lemma TapWord(line: string)
    requires line == TapText
    ensures EventWord(line) == 0xa0848e163d2a4a4c
  {
    assert WordUpTo(line, 0) == 0x243f6a8885a308d3;
    hide WordUpTo, Multiply, Rotate;
    TapWord0(line);
    TapWord3(line);
    TapWord6(line);
    TapWord9(line);
    LengthIn(line, 0xa0848e163d2a4a40);
  }

  lemma LengthIn(line: string, word: bv64)
    requires |line| == 12 && WordUpTo(line, 12) == word
    ensures EventWord(line) == word ^ Wide(12)
  {
    hide WordUpTo, Wide;
  }

  /** A chart of 120 beats per minute whose only event is a tap on the first lane at tick 0. */
  function TapChart(maxTick: U32, location: Location): Chart {
    Chart(120000, [Event(Tap, 0, 0, 0, 0, 0, 128, 0, location, TapText)], [], maxTick)
  }

  /** Its first two frames: the energy and the phase. */
  lemma KnownFrames(maxTick: U32, location: Location)
    ensures var c := TapChart(maxTick, location); var s, t := StateAt(1, c, 0), StateAt(1, c, 1);
      && s.energy[0] == 128 && t.energy[0] == 112
      && s.phase == 0x7ddb3a31fcb4fcb2 && t.phase == 0xf112e209e444d449
  {
    hide WordUpTo, Multiply, Rotate, FirstPhase;
    var c := TapChart(maxTick, location);
    var e := c.events[0];
    var s0 := Initial(1, c);
    assert Cut(c, 0) == 1 && Cut(c, 1) == 1;
    StartsWith(maxTick, location);
    TapWord(e.canonical);
    NextState(1, c, 0);
    hide Initial, Cut, FrameTick, Decayed;
    var s := StateAt(1, c, 0);
    assert s == Applied(s0, e) by { OneApplied(s0, c.events); }
    MixTap();
    OneEvent(s0, e, 0);
    EnergyAtStart(1, c, 0);
    EnergyOfFrame(1, c, 0, 0, 112, 0);
    PhaseDecays(s, 1, FrameTick(c.maxTick, 1));
    MixFrame();
  }

  lemma StartsWith(maxTick: U32, location: Location)
    ensures Initial(1, TapChart(maxTick, location)).phase == 0x6a09e697f3bcc929
  {
    hide FirstPhase;
    var c := TapChart(maxTick, location);
    assert (c.wholeBpmMilli * 65536 + 500) / 1000 == 0x780000;
    assert Initial(1, c).phase == FirstPhase(1, 0x780000);
    KnownStart(1, 0x780000);
  }

  lemma KnownStart(chartId: U64, bpm: U64)
    requires Wide(chartId) == 1 && Wide(bpm) == 0x780000
    ensures FirstPhase(chartId, bpm) == 0x6a09e697f3bcc929
  {}

  lemma OneApplied(s: State, events: seq<Event>)
    requires Sized(s) && |events| == 1
    ensures ApplyAll(s, events, 0, 1) == Applied(s, events[0])
  {}

  lemma MixTap() ensures MixEvent(0x6a09e697f3bcc929, 0xa0848e163d2a4a4c) == 0x7ddb3a31fcb4fcb2 {}

  lemma MixFrame() ensures NextPhase(0x7ddb3a31fcb4fcb2, 1) == 0xf112e209e444d449 {}

  lemma PhaseDecays(s: State, frame: nat, target: U32)
    requires Sized(s) && frame < FrameCount
    ensures Decayed(s, frame, target).phase == NextPhase(s.phase, frame)
  {}
}
