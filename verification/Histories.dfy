/** What a frame shows, read off the events alone: the incremental state is a closed form of the history. */
module Histories {
  import opened Types
  import opened States

  datatype Slot = HoldSlot | SlideSlot | TapSlot | BreakSlot | TouchHoldSlot | TouchSlot

  /** The event writes this slot of this lane or sensor. */
  predicate Writes(e: Event, slot: Slot, k: nat) {
    match slot
    case HoldSlot => e.kind == Hold && e.lane == k
    case SlideSlot => e.kind == Slide && e.lane == k && e.targetLane < 8
    case TapSlot => e.kind == Tap && e.lane == k
    case BreakSlot => e.kind == Break && e.lane == k
    case TouchHoldSlot => e.kind == TouchHold && e.sensor == k
    case TouchSlot => (e.kind == TouchTap || e.kind == TouchHold) && e.sensor == k
  }

  /** The last of the first n events that writes a slot, or -1. */
  function Last(events: seq<Event>, n: nat, slot: Slot, k: nat): (i: int)
    requires n <= |events|
    ensures -1 <= i < n
    ensures i >= 0 ==> Writes(events[i], slot, k)
    ensures forall j :: i < j < n ==> !Writes(events[j], slot, k)
  {
    if n == 0 then -1 else if Writes(events[n - 1], slot, k) then n - 1 else Last(events, n - 1, slot, k)
  }

  /** How many events had been applied when the interval that ends at this frame began. */
  function Earlier(c: Chart, frame: nat): (n: nat)
    requires frame < FrameCount
    ensures n <= Cut(c, frame)
  {
    if frame == 0 then 0 else Cut(c, frame - 1)
  }

  /** A timed note shows while it lasts, and in the frame in whose interval it starts. */
  predicate Lasts(c: Chart, frame: nat, i: nat)
    requires frame < FrameCount && i < |c.events|
  {
    c.events[i].endTick > FrameTick(c.maxTick, frame) || i >= Earlier(c, frame)
  }

  function HoldOf(c: Chart, frame: nat, n: nat, slot: Slot, k: nat): ActiveHold
    requires frame < FrameCount && n <= |c.events|
  {
    var i := Last(c.events, n, slot, k);
    if i >= 0 && Lasts(c, frame, i) then ActiveHold(true, c.events[i].endTick, c.events[i].strength) else NoHold
  }

  function SlideOf(c: Chart, frame: nat, n: nat, k: nat): ActiveSlide
    requires frame < FrameCount && n <= |c.events|
  {
    var i := Last(c.events, n, SlideSlot, k);
    if i >= 0 && Lasts(c, frame, i) then
      ActiveSlide(true, c.events[i].endTick, c.events[i].targetLane, c.events[i].pathId)
    else NoSlide
  }

  function TapOf(c: Chart, n: nat, k: nat): LatestTap
    requires n <= |c.events|
  {
    var i := Last(c.events, n, TapSlot, k);
    if i >= 0 then LatestTap(true, c.events[i].strength) else LatestTap(false, 0)
  }

  function TouchOf(c: Chart, n: nat, k: nat): LatestTouch
    requires n <= |c.events|
  {
    var i := Last(c.events, n, TouchSlot, k);
    if i >= 0 then LatestTouch(true, c.events[i].kind == TouchHold, c.events[i].strength)
    else LatestTouch(false, false, 0)
  }

  /** Three frames of flash, from the frame in whose interval the break starts. */
  function FlashOf(c: Chart, frame: nat, i: nat): U8
    requires frame < FrameCount
  {
    if i >= Earlier(c, frame) then 3
    else if frame == 0 || FlashOf(c, frame - 1, i) == 0 then 0 else FlashOf(c, frame - 1, i) - 1
  }

  function BreakOf(c: Chart, frame: nat, n: nat, k: nat): LatestBreak
    requires frame < FrameCount && n <= |c.events|
  {
    var i := Last(c.events, n, BreakSlot, k);
    if i >= 0 then LatestBreak(true, c.events[i].strength, FlashOf(c, frame, i)) else LatestBreak(false, 0, 0)
  }

  // ---------------------------------------------------------------- the state agrees

  ghost predicate HoldsAgree(c: Chart, s: State, frame: nat, n: nat)
    requires Sized(s) && frame < FrameCount && n <= |c.events|
  {
    && (forall k :: 0 <= k < 8 ==> s.holds[k] == HoldOf(c, frame, n, HoldSlot, k))
    && (forall k :: 0 <= k < 8 ==> s.slides[k] == SlideOf(c, frame, n, k))
    && forall k :: 0 <= k < SensorCount ==> s.touchHolds[k] == HoldOf(c, frame, n, TouchHoldSlot, k)
  }

  ghost predicate LatestAgree(c: Chart, s: State, frame: nat, n: nat)
    requires Sized(s) && frame < FrameCount && n <= |c.events|
  {
    && (forall k :: 0 <= k < 8 ==> s.taps[k] == TapOf(c, n, k))
    && (forall k :: 0 <= k < 8 ==> s.breaks[k] == BreakOf(c, frame, n, k))
    && forall k :: 0 <= k < SensorCount ==> s.touches[k] == TouchOf(c, n, k)
  }

  /** break_remaining is the longest flash, which the renderer recomputes; none is longer than three frames. */
  ghost predicate FlashAgrees(s: State)
    requires Sized(s)
  {
    s.breakRemaining == Flash(s, 8) && forall k :: 0 <= k < 8 ==> s.breaks[k].flashFrames <= 3
  }

  ghost predicate Agrees(c: Chart, s: State, frame: nat, n: nat) {
    && Sized(s) && frame < FrameCount && n <= |c.events|
    && HoldsAgree(c, s, frame, n)
    && LatestAgree(c, s, frame, n)
    && FlashAgrees(s)
  }

  /** Which slots an event writes, and what. */
  lemma AppliedHolds(s: State, e: Event, k: nat)
    requires Sized(s) && k < SensorCount
    ensures k < 8 ==>
      Applied(s, e).holds[k] == if Writes(e, HoldSlot, k) then ActiveHold(true, e.endTick, e.strength) else s.holds[k]
    ensures k < 8 ==>
      Applied(s, e).slides[k] == if Writes(e, SlideSlot, k) then ActiveSlide(true, e.endTick, e.targetLane, e.pathId) else s.slides[k]
    ensures Applied(s, e).touchHolds[k]
      == if Writes(e, TouchHoldSlot, k) then ActiveHold(true, e.endTick, e.strength) else s.touchHolds[k]
  {
    hide Bump, MixEvent, EventWord;
  }

  lemma AppliedLatest(s: State, e: Event, k: nat)
    requires Sized(s) && k < SensorCount
    ensures k < 8 ==>
      Applied(s, e).taps[k] == if Writes(e, TapSlot, k) then LatestTap(true, e.strength) else s.taps[k]
    ensures k < 8 ==>
      Applied(s, e).breaks[k] == if Writes(e, BreakSlot, k) then LatestBreak(true, e.strength, 3) else s.breaks[k]
    ensures Applied(s, e).touches[k]
      == if Writes(e, TouchSlot, k) then LatestTouch(true, e.kind == TouchHold, e.strength) else s.touches[k]
  {
    hide Bump, MixEvent, EventWord;
  }

  lemma HoldsAfterEvent(c: Chart, s: State, frame: nat, n: nat)
    requires Sized(s) && frame < FrameCount && Earlier(c, frame) <= n < |c.events| && HoldsAgree(c, s, frame, n)
    ensures HoldsAgree(c, Applied(s, c.events[n]), frame, n + 1)
  {
    hide Applied, FrameTick, Earlier, Writes;
    var t := Applied(s, c.events[n]);
    forall k | 0 <= k < SensorCount
      ensures k < 8 ==> t.holds[k] == HoldOf(c, frame, n + 1, HoldSlot, k)
      ensures k < 8 ==> t.slides[k] == SlideOf(c, frame, n + 1, k)
      ensures t.touchHolds[k] == HoldOf(c, frame, n + 1, TouchHoldSlot, k)
    {
      AppliedHolds(s, c.events[n], k);
    }
  }

  lemma LatestAfterEvent(c: Chart, s: State, frame: nat, n: nat)
    requires Sized(s) && frame < FrameCount && Earlier(c, frame) <= n < |c.events| && LatestAgree(c, s, frame, n)
    ensures LatestAgree(c, Applied(s, c.events[n]), frame, n + 1)
  {
    hide Applied, FrameTick, Earlier, Writes;
    var t := Applied(s, c.events[n]);
    forall k | 0 <= k < SensorCount
      ensures k < 8 ==> t.taps[k] == TapOf(c, n + 1, k)
      ensures k < 8 ==> t.breaks[k] == BreakOf(c, frame, n + 1, k)
      ensures t.touches[k] == TouchOf(c, n + 1, k)
    {
      AppliedLatest(s, c.events[n], k);
    }
  }

  lemma {:induction false} FlashBound(s: State, n: nat, b: int)
    requires n <= |s.breaks| && 0 <= b && forall k :: 0 <= k < n ==> s.breaks[k].flashFrames <= b
    ensures Flash(s, n) <= b
    ensures (exists k :: 0 <= k < n && s.breaks[k].flashFrames == b) ==> Flash(s, n) == b
  {
    if n > 0 {
      FlashBound(s, n - 1, b);
    }
  }

  lemma {:induction false} FlashSame(s: State, t: State, n: nat)
    requires n <= |s.breaks| && n <= |t.breaks| && forall k :: 0 <= k < n ==> s.breaks[k] == t.breaks[k]
    ensures Flash(s, n) == Flash(t, n)
  {
    if n > 0 {
      FlashSame(s, t, n - 1);
    }
  }

  lemma {:induction false} FlashFades(s: State, t: State, n: nat)
    requires n <= |s.breaks| && n <= |t.breaks| && forall k :: 0 <= k < n ==> t.breaks[k] == Faded(s.breaks[k])
    ensures Flash(t, n) == Max(0, Flash(s, n) - 1)
  {
    if n > 0 {
      FlashFades(s, t, n - 1);
    }
  }

  lemma FlashAfterEvent(s: State, e: Event)
    requires Sized(s) && FlashAgrees(s)
    ensures FlashAgrees(Applied(s, e))
  {
    hide Bump, MixEvent, EventWord, Flash;
    var t := Applied(s, e);
    if e.kind == Break && e.lane < 8 {
      assert t.breaks[e.lane].flashFrames == 3;
      FlashBound(t, 8, 3);
    } else {
      FlashSame(s, t, 8);
    }
  }

  lemma {:induction false} AgreesAfterEvents(c: Chart, s: State, frame: nat, lo: nat, hi: nat)
    requires Agrees(c, s, frame, lo) && Earlier(c, frame) <= lo <= hi <= |c.events|
    ensures Agrees(c, ApplyAll(s, c.events, lo, hi), frame, hi)
    decreases hi
  {
    hide Applied, HoldsAgree, LatestAgree, FlashAgrees;
    if lo < hi {
      AgreesAfterEvents(c, s, frame, lo, hi - 1);
      var t := ApplyAll(s, c.events, lo, hi - 1);
      HoldsAfterEvent(c, t, frame, hi - 1);
      LatestAfterEvent(c, t, frame, hi - 1);
      FlashAfterEvent(t, c.events[hi - 1]);
    }
  }

  lemma HoldsAfterInterval(c: Chart, s: State, frame: nat)
    requires Sized(s) && frame + 1 < FrameCount && HoldsAgree(c, s, frame, Cut(c, frame))
    ensures var t := Decayed(s, frame + 1, FrameTick(c.maxTick, frame + 1));
      HoldsAgree(c, t, frame + 1, Cut(c, frame))
  {
    hide LaneEnergy, SensorEnergy, NextPhase, FrameTick, Cut, Last, Faded;
    FrameTickGrows(c.maxTick, frame);
  }

  lemma LatestAfterInterval(c: Chart, s: State, frame: nat)
    requires Sized(s) && frame + 1 < FrameCount && LatestAgree(c, s, frame, Cut(c, frame))
    ensures var t := Decayed(s, frame + 1, FrameTick(c.maxTick, frame + 1));
      LatestAgree(c, t, frame + 1, Cut(c, frame))
  {
    hide LaneEnergy, SensorEnergy, NextPhase, FrameTick, Cut, Last, EndedHold, EndedSlide;
  }

  lemma FlashAfterInterval(s: State, frame: nat, target: U32)
    requires Sized(s) && frame < FrameCount && FlashAgrees(s)
    ensures FlashAgrees(Decayed(s, frame, target))
  {
    hide LaneEnergy, SensorEnergy, NextPhase, Flash, EndedHold, EndedSlide;
    FlashFades(s, Decayed(s, frame, target), 8);
  }

  lemma AgreesAfterInterval(c: Chart, s: State, frame: nat)
    requires frame + 1 < FrameCount && Agrees(c, s, frame, Cut(c, frame))
    ensures Agrees(c, Decayed(s, frame + 1, FrameTick(c.maxTick, frame + 1)), frame + 1, Cut(c, frame))
  {
    hide Decayed, HoldsAgree, LatestAgree, FlashAgrees, FrameTick, Cut;
    HoldsAfterInterval(c, s, frame);
    LatestAfterInterval(c, s, frame);
    FlashAfterInterval(s, frame + 1, FrameTick(c.maxTick, frame + 1));
  }

  lemma AgreesAtStart(chartId: U64, c: Chart)
    ensures Agrees(c, Initial(chartId, c), 0, 0)
  {
    FlashBound(Initial(chartId, c), 8, 0);
  }

  lemma StateIs(chartId: U64, c: Chart, frame: nat)
    requires frame < FrameCount
    ensures frame == 0 ==> StateAt(chartId, c, 0) == ApplyAll(Initial(chartId, c), c.events, 0, Cut(c, 0))
    ensures frame > 0 ==>
      Cut(c, frame - 1) <= Cut(c, frame)
      && StateAt(chartId, c, frame)
         == ApplyAll(Decayed(StateAt(chartId, c, frame - 1), frame, FrameTick(c.maxTick, frame)), c.events,
                     Cut(c, frame - 1), Cut(c, frame))
  {}

  /** Every frame of every chart: what is held, sliding, tapped, broken and touched is what the events say. */
  lemma {:induction false} StateShowsHistory(chartId: U64, c: Chart, frame: nat)
    requires frame < FrameCount
    ensures Agrees(c, StateAt(chartId, c, frame), frame, Cut(c, frame))
  {
    hide StateAt, Cut, Applied, Decayed, HoldsAgree, LatestAgree, FlashAgrees, ApplyAll, Initial, FrameTick;
    StateIs(chartId, c, frame);
    if frame == 0 {
      AgreesAtStart(chartId, c);
      AgreesAfterEvents(c, Initial(chartId, c), 0, 0, Cut(c, 0));
    } else {
      StateShowsHistory(chartId, c, frame - 1);
      var s := StateAt(chartId, c, frame - 1);
      AgreesAfterInterval(c, s, frame - 1);
      CutGrows(c, frame - 1);
      AgreesAfterEvents(c, Decayed(s, frame, FrameTick(c.maxTick, frame)), frame, Cut(c, frame - 1), Cut(c, frame));
    }
  }

  /** What is held or sliding in a frame, on a lane or a sensor, ends after it, or has started in the interval that ends
      with it. */
  lemma ShownMeansLasting(chartId: U64, c: Chart, frame: nat, k: nat)
    requires frame < FrameCount && k < SensorCount
    ensures var s := StateAt(chartId, c, frame); var tick := FrameTick(c.maxTick, frame);
      && (k < 8 && s.holds[k].present && s.holds[k].endTick <= tick ==> StartsIn(c, frame, HoldSlot, k))
      && (k < 8 && s.slides[k].present && s.slides[k].endTick <= tick ==> StartsIn(c, frame, SlideSlot, k))
      && (s.touchHolds[k].present && s.touchHolds[k].endTick <= tick ==> StartsIn(c, frame, TouchHoldSlot, k))
      && s.breakRemaining == Flash(s, 8) <= 3
  {
    hide StateAt, Cut, FrameTick;
    StateShowsHistory(chartId, c, frame);
    FlashBound(StateAt(chartId, c, frame), 8, 3);
  }

  /** What is held ends with an event of the chart. */
  lemma ShownEnds(chartId: U64, c: Chart, frame: nat, k: nat, limit: nat)
    requires frame < FrameCount && k < SensorCount
    requires forall i :: 0 <= i < |c.events| ==> c.events[i].endTick <= limit
    ensures var s := StateAt(chartId, c, frame);
      && (k < 8 && s.holds[k].present ==> s.holds[k].endTick <= limit)
      && (k < 8 && s.slides[k].present ==> s.slides[k].endTick <= limit)
      && (s.touchHolds[k].present ==> s.touchHolds[k].endTick <= limit)
  {
    hide StateAt, Cut, FrameTick;
    StateShowsHistory(chartId, c, frame);
  }

  ghost predicate StartsIn(c: Chart, frame: nat, slot: Slot, k: nat)
    requires frame < FrameCount
  {
    exists i :: Earlier(c, frame) <= i < Cut(c, frame) && Writes(c.events[i], slot, k)
  }
}
