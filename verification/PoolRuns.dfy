/** Where the status of a slot comes from, and that a run without a fault returns. */
module PoolRuns {
  import Types
  import opened Pool

  // ---------------------------------------------------------------- every status has its cause

  /** Step k of a run: worker w, waiting for the reply to slot i of round t, gets it. */
  ghost predicate RepliedAt(s: Stage, schedule: seq<(Actor, Chance)>, k: nat, t: nat, i: nat, w: nat, ok: bool)
    requires StageInv(s)
  {
    && k < |schedule|
    && var q := Run(s, schedule[..k]);
    && |q.done| == t && w < |q.pool.workers| && q.pool.workers[w] == Sending(i)
    && schedule[k].0 == TheWorker(w) && schedule[k].1.ok == ok
  }

  /** Step k of a run: slot i of round t is handed out behind the deadline. */
  ghost predicate LateAt(s: Stage, schedule: seq<(Actor, Chance)>, k: nat, t: nat, i: nat)
    requires StageInv(s)
  {
    && k < |schedule|
    && var q := Run(s, schedule[..k]);
    && |q.done| == t && q.pool.next == i && schedule[k].0.TheWorker? && schedule[k].1.late
  }

  ghost predicate Replied(s: Stage, schedule: seq<(Actor, Chance)>, t: nat, i: nat, w: nat, ok: bool)
    requires StageInv(s)
  {
    exists k: nat :: RepliedAt(s, schedule, k, t, i, w, ok)
  }

  ghost predicate SomeReply(s: Stage, schedule: seq<(Actor, Chance)>, t: nat, i: nat, ok: bool)
    requires StageInv(s)
  {
    exists w: nat :: Replied(s, schedule, t, i, w, ok)
  }

  ghost predicate Late(s: Stage, schedule: seq<(Actor, Chance)>, t: nat, i: nat)
    requires StageInv(s)
  {
    exists k: nat :: LateAt(s, schedule, k, t, i)
  }

  /** The last step of a run. */
  lemma {:induction false} RunLast(s: Stage, schedule: seq<(Actor, Chance)>)
    requires StageInv(s) && schedule != []
    ensures var n := |schedule| - 1; var q := Run(s, schedule[..n]);
      Run(s, schedule) == StageStep(q, schedule[n].0, schedule[n].1)
    decreases |schedule|
  {
    hide StageStep;
    var n := |schedule| - 1;
    StageKeeps(s, schedule[0].0, schedule[0].1);
    if n == 0 {
      assert schedule[1..] == [] && schedule[..n] == [];
    } else {
      RunLast(StageStep(s, schedule[0].0, schedule[0].1), schedule[1..]);
      assert schedule[1..][..n - 1] == schedule[..n][1..];
    }
  }

  /** What one step makes of the status of a slot. */
  lemma StatusCause(s: Stage, a: Actor, x: Chance, t: nat, i: nat)
    requires StageInv(s)
    ensures var before, after := StatusOf(s, t, i), StatusOf(StageStep(s, a, x), t, i);
      && (after == Ok && before != Ok ==> t == |s.done| && Gives(s.pool, a, i, true))
      && (after == Failed && before != Failed ==>
            t == |s.done| && (Gives(s.pool, a, i, false) || (a.TheWorker? && x.late && s.pool.next == i)))
  {
    hide AnyAlive;
  }

  /** The actor is a worker that holds a result for slot i. */
  predicate Gives(p: Pool, a: Actor, i: nat, ok: bool) {
    a.TheWorker? && a.w < |p.workers| && p.workers[a.w] == Holding(i, ok)
  }

  /** A result is held since its reply. */
  lemma HeldCause(s: Stage, a: Actor, x: Chance, w: nat, i: nat, ok: bool)
    requires StageInv(s)
    ensures var r := StageStep(s, a, x);
      w < |r.pool.workers| && r.pool.workers[w] == Holding(i, ok) ==>
        && |r.done| == |s.done| && w < |s.pool.workers|
        && (s.pool.workers[w] == Holding(i, ok)
            || (s.pool.workers[w] == Sending(i) && a == TheWorker(w) && x.ok == ok))
  {
    hide Seal, AnyAlive, AllOk, Unstarted, RunningRight, ActiveRight, MainRight, ListRight;
  }

  lemma RepliedBefore(s: Stage, schedule: seq<(Actor, Chance)>, t: nat, i: nat, w: nat, ok: bool)
    requires StageInv(s) && schedule != [] && Replied(s, schedule[..|schedule| - 1], t, i, w, ok)
    ensures Replied(s, schedule, t, i, w, ok)
  {
    hide Run;
    var before := schedule[..|schedule| - 1];
    var k: nat :| RepliedAt(s, before, k, t, i, w, ok);
    assert before[..k] == schedule[..k];
    assert RepliedAt(s, schedule, k, t, i, w, ok);
  }

  lemma LateBefore(s: Stage, schedule: seq<(Actor, Chance)>, t: nat, i: nat)
    requires StageInv(s) && schedule != [] && Late(s, schedule[..|schedule| - 1], t, i)
    ensures Late(s, schedule, t, i)
  {
    hide Run;
    var before := schedule[..|schedule| - 1];
    var k: nat :| LateAt(s, before, k, t, i);
    assert before[..k] == schedule[..k];
    assert LateAt(s, schedule, k, t, i);
  }

  lemma {:induction false} HeldWasReplied(s: Stage, schedule: seq<(Actor, Chance)>, w: nat, i: nat, ok: bool)
    requires StageInv(s) && forall v :: 0 <= v < |s.pool.workers| ==> !s.pool.workers[v].Holding?
    ensures var r := Run(s, schedule);
      w < |r.pool.workers| && r.pool.workers[w] == Holding(i, ok) ==> Replied(s, schedule, |r.done|, i, w, ok)
    decreases |schedule|
  {
    hide StageStep, StageInv, Run, RepliedAt;
    var r := Run(s, schedule);
    if schedule == [] {
      NoSteps(s);
    } else if w < |r.pool.workers| && r.pool.workers[w] == Holding(i, ok) {
      var n := |schedule| - 1;
      var q := Run(s, schedule[..n]);
      RunLast(s, schedule);
      HeldCause(q, schedule[n].0, schedule[n].1, w, i, ok);
      if q.pool.workers[w] == Holding(i, ok) {
        HeldWasReplied(s, schedule[..n], w, i, ok);
        RepliedBefore(s, schedule, |q.done|, i, w, ok);
      } else {
        ReplyNow(s, schedule, i, w, ok);
      }
    }
  }

  lemma ReplyNow(s: Stage, schedule: seq<(Actor, Chance)>, i: nat, w: nat, ok: bool)
    requires StageInv(s) && schedule != []
    requires var n := |schedule| - 1; var q := Run(s, schedule[..n]);
      && w < |q.pool.workers| && q.pool.workers[w] == Sending(i)
      && schedule[n].0 == TheWorker(w) && schedule[n].1.ok == ok
    ensures Replied(s, schedule, |Run(s, schedule[..|schedule| - 1]).done|, i, w, ok)
  {
    hide Run;
    assert RepliedAt(s, schedule, |schedule| - 1, |Run(s, schedule[..|schedule| - 1]).done|, i, w, ok);
  }

  lemma NoSteps(s: Stage)
    requires StageInv(s)
    ensures Run(s, []) == s
  {}

  /** In every run, and over all rounds: a slot is "ok" only by an ok reply to the request for it, and "failed" only by
      another reply to it or by a deadline already past when it was handed out. */
  lemma {:induction false} StatusWasCaused(s: Stage, schedule: seq<(Actor, Chance)>, t: nat, i: nat)
    requires StageInv(s) && (forall v :: 0 <= v < |s.pool.workers| ==> !s.pool.workers[v].Holding?)
    requires StatusOf(s, t, i).NotStarted?
    ensures var after := StatusOf(Run(s, schedule), t, i);
      && (after == Ok ==> SomeReply(s, schedule, t, i, true))
      && (after == Failed ==> SomeReply(s, schedule, t, i, false) || Late(s, schedule, t, i))
    decreases |schedule|
  {
    hide StageStep, StageInv, Run, RepliedAt, LateAt, StatusOf, Replied, Gives;
    if schedule == [] {
      NoSteps(s);
    } else {
      var n := |schedule| - 1;
      var q, a, x := Run(s, schedule[..n]), schedule[n].0, schedule[n].1;
      var before, after := StatusOf(q, t, i), StatusOf(Run(s, schedule), t, i);
      RunLast(s, schedule);
      StatusCause(q, a, x, t, i);
      if after == before {
        StatusWasCaused(s, schedule[..n], t, i);
        CausedBefore(s, schedule, t, i);
      } else if after == Ok {
        GivenWasReplied(s, schedule, a, i, true);
      } else if after == Failed {
        if Gives(q.pool, a, i, false) {
          GivenWasReplied(s, schedule, a, i, false);
        } else {
          LateNow(s, schedule);
        }
      }
    }
  }

  lemma CausedBefore(s: Stage, schedule: seq<(Actor, Chance)>, t: nat, i: nat)
    requires StageInv(s) && schedule != []
    ensures SomeReply(s, schedule[..|schedule| - 1], t, i, true) ==> SomeReply(s, schedule, t, i, true)
    ensures SomeReply(s, schedule[..|schedule| - 1], t, i, false) ==> SomeReply(s, schedule, t, i, false)
    ensures Late(s, schedule[..|schedule| - 1], t, i) ==> Late(s, schedule, t, i)
  {
    hide Replied, Late, StageInv;
    var before := schedule[..|schedule| - 1];
    if w: nat :| Replied(s, before, t, i, w, true) {
      RepliedBefore(s, schedule, t, i, w, true);
    }
    if w: nat :| Replied(s, before, t, i, w, false) {
      RepliedBefore(s, schedule, t, i, w, false);
    }
    if Late(s, before, t, i) {
      LateBefore(s, schedule, t, i);
    }
  }

  lemma GivenWasReplied(s: Stage, schedule: seq<(Actor, Chance)>, a: Actor, i: nat, ok: bool)
    requires StageInv(s) && (forall v :: 0 <= v < |s.pool.workers| ==> !s.pool.workers[v].Holding?)
    requires schedule != [] && Gives(Run(s, schedule[..|schedule| - 1]).pool, a, i, ok)
    ensures SomeReply(s, schedule, |Run(s, schedule[..|schedule| - 1]).done|, i, ok)
  {
    hide Run, StageInv, Replied;
    var before := schedule[..|schedule| - 1];
    HeldWasReplied(s, before, a.w, i, ok);
    RepliedBefore(s, schedule, |Run(s, before).done|, i, a.w, ok);
  }

  lemma LateNow(s: Stage, schedule: seq<(Actor, Chance)>)
    requires StageInv(s) && schedule != []
    requires schedule[|schedule| - 1].0.TheWorker? && schedule[|schedule| - 1].1.late
    ensures var q := Run(s, schedule[..|schedule| - 1]); Late(s, schedule, |q.done|, q.pool.next)
  {
    hide Run;
    var q := Run(s, schedule[..|schedule| - 1]);
    assert LateAt(s, schedule, |schedule| - 1, |q.done|, q.pool.next);
  }

  // ---------------------------------------------------------------- what stops the pool

  /** A failure, in a slot or still in a worker's hands, has stopped the pool. */
  ghost predicate FailureStops(p: Pool) {
    && (forall i :: 0 <= i < |p.slots| && p.slots[i] == Failed ==> p.stopped)
    && (forall w :: 0 <= w < |p.workers| && p.workers[w].Holding? && !p.workers[w].ok ==> p.stopped)
  }

  /** Every step keeps that, a stopped pool stays stopped and hands out no slot, and run_pool then raises. */
  lemma StopIsFinal(p: Pool, a: Actor, x: Chance)
    requires Inv(p) && FailureStops(p)
    ensures var r := Step(p, a, x);
      && FailureStops(r)
      && (p.stopped ==> r.stopped && r.next == p.next && (p.main != Returned ==> r.main != Returned))
  {
    hide RunningRight, ActiveRight, ListRight, AnyAlive, Unstarted;
  }

  lemma {:induction false} FailureStopsInRuns(s: Stage, schedule: seq<(Actor, Chance)>)
    requires StageInv(s) && FailureStops(s.pool)
    ensures FailureStops(Run(s, schedule).pool)
    decreases |schedule|
  {
    hide Step, FailureStops;
    if schedule != [] {
      var a, x := schedule[0].0, schedule[0].1;
      StageKeeps(s, a, x);
      StopIsFinal(s.pool, a, x);
      if s.rest != [] {
        StartHasNoFailure(s.rest[0], s.concurrency, s.pool.stopped);
      }
      FailureStopsInRuns(StageStep(s, a, x), schedule[1..]);
    }
  }

  /** Behind a signal, a failure or a deadline: whatever happens, no slot is handed out any more, and run_pool does not
      return. */
  lemma {:induction false} StoppedForGood(s: Stage, schedule: seq<(Actor, Chance)>)
    requires StageInv(s) && FailureStops(s.pool) && s.pool.stopped && s.pool.main != Returned
    ensures var r := Run(s, schedule);
      r.done == s.done && r.pool.stopped && r.pool.next == s.pool.next && r.pool.main != Returned
    decreases |schedule|
  {
    hide Step, FailureStops;
    if schedule != [] {
      var a, x := schedule[0].0, schedule[0].1;
      StageKeeps(s, a, x);
      StopIsFinal(s.pool, a, x);
      StoppedForGood(StageStep(s, a, x), schedule[1..]);
    }
  }

  lemma StartHasNoFailure(count: nat, concurrency: nat, stopped: bool)
    ensures FailureStops(Start(count, concurrency, stopped))
  {}

  // ---------------------------------------------------------------- runs without a fault

  /** A step without a fault: an ok reply, no deadline, no exception, no signal. */
  predicate Smooth(a: Actor, x: Chance) { a != TheSignal && x.ok && !x.late && !x.broken }

  predicate AllSmooth(schedule: seq<(Actor, Chance)>) {
    forall k :: 0 <= k < |schedule| ==> Smooth(schedule[k].0, schedule[k].1)
  }

  predicate Unharmed(status: Status) { status.NotStarted? || status.Running? || status.Ok? }

  /** What such steps keep. */
  ghost predicate Fine(p: Pool) {
    && !p.stopped && !p.raising && p.main != Raised && (p.workers == [] ==> p.slots == [])
    && (forall i :: 0 <= i < |p.slots| ==> Unharmed(p.slots[i]))
    && (forall w :: 0 <= w < |p.workers| ==> FineWorker(p, p.workers[w]))
    && (p.sealed ==> AllOk(p.slots))
  }

  predicate FineWorker(p: Pool, w: Worker) {
    && (w.Holding? ==> w.ok)
    && (w.Gone? ==> p.next >= |p.slots|)
    && (w.Unborn? ==> p.main in {Starting, Listing})
    && (Alive(w) ==> p.main in {Starting, Listing, Waiting})
  }

  lemma ClaimIsFine(p: Pool, w: nat)
    requires Inv(p) && Fine(p) && w < |p.workers| && p.workers[w].Idle?
    ensures Fine(Claim(p, w, false))
  {
    hide RunningRight, ActiveRight, ListRight;
    assert FineWorker(p, p.workers[w]);
    var r := Claim(p, w, false);
    forall v | 0 <= v < |r.workers|
      ensures FineWorker(r, r.workers[v])
    {
      assert FineWorker(p, p.workers[v]);
    }
  }

  lemma BackIsFine(p: Pool, w: nat)
    requires Inv(p) && Fine(p) && w < |p.workers| && Busy(p.workers[w])
    ensures p.workers[w].Sending? ==> Fine(Reply(p, w, true))
    ensures p.workers[w].Holding? ==> Fine(Record(p, w))
  {
    hide RunningRight, ActiveRight, ListRight;
    assert FineWorker(p, p.workers[w]);
    var r := if p.workers[w].Sending? then Reply(p, w, true) else Record(p, w);
    forall v | 0 <= v < |r.workers|
      ensures FineWorker(r, r.workers[v])
    {
      assert FineWorker(p, p.workers[v]);
    }
  }

  lemma NobodyBusy(p: Pool)
    requires Fine(p) && p.main in {Leaving, Draining}
    ensures forall w :: 0 <= w < |p.workers| ==> !Alive(p.workers[w])
  {
    forall w | 0 <= w < |p.workers|
      ensures !Alive(p.workers[w])
    {
      assert FineWorker(p, p.workers[w]);
    }
  }

  /** Nobody is left behind the wait: all slots have been handed out, and none is running. */
  lemma AllDone(p: Pool)
    requires Inv(p) && Fine(p) && p.main in {Leaving, Draining}
    ensures AllOk(p.slots) && Seal(p.slots) == p.slots
  {
    hide ActiveRight, MainRight, ListRight;
    if p.workers != [] {
      assert FineWorker(p, p.workers[0]);
    }
    NobodyBusy(p);
    forall i | 0 <= i < |p.slots|
      ensures p.slots[i] == Ok
    {
      assert Unharmed(p.slots[i]);
      assert p.slots[i].Running? ==> RunsRight(p, i);
    }
  }

  lemma MainIsFine(p: Pool)
    requires Inv(p) && Fine(p)
    ensures Fine(MainStep(p, Chance(false, true, false)))
  {
    hide Exclusive, RunningRight, ActiveRight;
    var r := MainStep(p, Chance(false, true, false));
    if p.main == Leaving {
      NobodyBusy(p);
    }
    forall w | 0 <= w < |r.workers|
      ensures FineWorker(r, r.workers[w])
    {
      assert FineWorker(p, p.workers[w]);
    }
    if p.main == Draining {
      AllDone(p);
    }
  }

  lemma StepIsFine(p: Pool, a: Actor, x: Chance)
    requires Inv(p) && Fine(p) && Smooth(a, x)
    ensures Fine(Step(p, a, x))
  {
    hide Fine, Exclusive, RunningRight, ActiveRight, MainRight, ListRight, Claim, Reply, Record, MainStep;
    assert x == Chance(false, true, false);
    match a
    case TheWorker(w) =>
      if w < |p.workers| {
        if p.workers[w].Idle? {
          ClaimIsFine(p, w);
        } else if Busy(p.workers[w]) {
          BackIsFine(p, w);
        }
      }
    case TheMain => MainIsFine(p);
  }

  // ---------------------------------------------------------------- and they end

  function Weight(w: Worker): nat {
    match w
    case Unborn => 2
    case Idle => 1
    case Sending(_) => 3
    case Holding(_, _) => 2
    case Gone => 0
  }

  function Weights(workers: seq<Worker>): nat {
    if workers == [] then 0 else Weights(workers[..|workers| - 1]) + Weight(workers[|workers| - 1])
  }

  /** How many more steps can change the pool at most. */
  function StepsLeft(p: Pool): nat
    requires p.next <= |p.slots| && p.listed <= |p.workers|
  {
    3 * (|p.slots| - p.next) + Weights(p.workers)
    + match p.main
      case Starting => 2 * (|p.workers| - p.listed) + 5
      case Listing => 2 * (|p.workers| - p.listed) + 4
      case Waiting => 4
      case Leaving => 3
      case Draining => 2
      case Sealed => 1
      case _ => 0
  }

  lemma {:induction false} WeightUpdate(workers: seq<Worker>, w: nat, pc: Worker)
    requires w < |workers|
    ensures Weights(workers[w := pc]) + Weight(workers[w]) == Weights(workers) + Weight(pc)
  {
    var n := |workers| - 1;
    if w < n {
      WeightUpdate(workers[..n], w, pc);
      assert workers[w := pc][..n] == workers[..n][w := pc];
    } else {
      assert workers[w := pc][..n] == workers[..n];
    }
  }

  /** Every step without a fault changes nothing or brings the end nearer. */
  lemma StepEnds(p: Pool, a: Actor, x: Chance)
    requires Inv(p) && Fine(p) && Smooth(a, x)
    ensures Inv(Step(p, a, x))
    ensures Step(p, a, x) == p || StepsLeft(Step(p, a, x)) < StepsLeft(p)
  {
    StepKeeps(p, a, x);
    hide RunningRight, ActiveRight, MainRight, WorkerStep, MainStep, Fine;
    match a
    case TheWorker(w) =>
      if w < |p.workers| {
        WorkerEnds(p, w);
      }
    case TheMain => MainEnds(p);
  }

  lemma WorkerEnds(p: Pool, w: nat)
    requires Exclusive(p) && !p.stopped && w < |p.workers| && p.listed <= |p.workers|
    ensures var r := WorkerStep(p, w, Chance(false, true, false));
      && r.next <= |r.slots| && r.listed <= |r.workers| && (r == p || StepsLeft(r) < StepsLeft(p))
  {
    hide Weights;
    WeightUpdate(p.workers, w, WorkerStep(p, w, Chance(false, true, false)).workers[w]);
  }

  lemma MainEnds(p: Pool)
    requires ListRight(p) && p.next <= |p.slots|
    ensures var r := MainStep(p, Chance(false, true, false));
      && r.next <= |r.slots| && r.listed <= |r.workers| && (r == p || StepsLeft(r) < StepsLeft(p))
  {
    hide Weights, Seal, AllOk, AnyAlive;
    if p.main == Starting {
      NextIsListed(p);
      if p.listed < |p.workers| {
        WeightUpdate(p.workers, p.listed, Idle);
      }
    }
  }

  /** Until run_pool has returned, somebody can take a step that does. */
  lemma StepCan(p: Pool)
    requires Inv(p) && Fine(p) && p.main != Returned
    ensures exists a :: Smooth(a, Chance(false, true, false)) && Step(p, a, Chance(false, true, false)) != p
  {
    hide RunningRight, ActiveRight;
    var x := Chance(false, true, false);
    if p.main == Waiting && AnyAlive(p) {
      var w :| 0 <= w < |p.workers| && w < p.listed && Alive(p.workers[w]);
      assert FineWorker(p, p.workers[w]);
      var r := Step(p, TheWorker(w), x);
      assert r.workers[w] != p.workers[w];
      assert Smooth(TheWorker(w), x);
    } else {
      assert Step(p, TheMain, x).main != p.main;
      assert Smooth(TheMain, x);
    }
  }

  lemma StartIsFine(count: nat, concurrency: nat)
    requires concurrency > 0
    ensures Fine(Start(count, concurrency, false))
  {
    var p := Start(count, concurrency, false);
    assert forall w :: 0 <= w < |p.workers| ==> FineWorker(p, p.workers[w]);
    assert p.workers == [] ==> |p.slots| == 0;
  }

  lemma NotStopped(p: Pool)
    requires Fine(p)
    ensures !p.stopped && p.main != Raised && (p.sealed ==> AllOk(p.slots))
  {}

  lemma FineStatus(s: Stage, t: nat, i: nat)
    requires StageInv(s) && Fine(s.pool)
    ensures Unharmed(StatusOf(s, t, i))
  {
    assert t < |s.done| ==> AllOk(s.done[t]);
  }

  lemma {:induction false} RunIsFine(s: Stage, schedule: seq<(Actor, Chance)>)
    requires StageInv(s) && Fine(s.pool) && s.concurrency > 0 && AllSmooth(schedule)
    ensures Fine(Run(s, schedule).pool)
    decreases |schedule|
  {
    hide Step, Start, Fine;
    if schedule != [] {
      var a, x := schedule[0].0, schedule[0].1;
      StageKeeps(s, a, x);
      StepIsFine(s.pool, a, x);
      NotStopped(s.pool);
      if s.rest != [] {
        StartIsFine(s.rest[0], s.concurrency);
      }
      RunIsFine(StageStep(s, a, x), schedule[1..]);
    }
  }

  /** In every run without a fault, over all rounds: no slot fails or is interrupted, run_pool does not raise, behind the
      seal every slot is "ok" and the next step of run_pool returns, and until then some step brings the end nearer. */
  lemma EverySmoothRun(first: nat, rest: seq<nat>, concurrency: nat, schedule: seq<(Actor, Chance)>)
    requires concurrency > 0 && AllSmooth(schedule)
    ensures StageInv(StartStage(first, rest, concurrency, false))
    ensures var s := Run(StartStage(first, rest, concurrency, false), schedule); var x := Chance(false, true, false);
      && (forall t: nat, i: nat :: Unharmed(StatusOf(s, t, i)))
      && s.pool.main != Raised
      && (s.pool.sealed ==> AllOk(s.pool.slots))
      && (s.pool.main == Sealed ==> StageStep(s, TheMain, x).pool.main == Returned)
      && (s.pool.main != Returned ==> Nearer(s.pool))
  {
    hide Run, Start, Step, Fine, StatusOf, Nearer;
    StartsRight(first, concurrency, false);
    StartIsFine(first, concurrency);
    var s := Run(StartStage(first, rest, concurrency, false), schedule);
    RunIsFine(StartStage(first, rest, concurrency, false), schedule);
    forall t: nat, i: nat
      ensures Unharmed(StatusOf(s, t, i))
    {
      FineStatus(s, t, i);
    }
    NotStopped(s.pool);
    if s.pool.main == Sealed {
      SealedReturns(s.pool);
    }
    if s.pool.main != Returned {
      ComesNearer(s.pool);
    }
  }

  lemma SealedReturns(p: Pool)
    requires Inv(p) && Fine(p) && p.main == Sealed
    ensures Step(p, TheMain, Chance(false, true, false)).main == Returned
  {
    hide RunningRight, ActiveRight, ListRight;
  }

  /** Some step without a fault leaves fewer of them. */
  ghost predicate Nearer(p: Pool) {
    && Inv(p)
    && exists a :: Smooth(a, Chance(false, true, false)) && Inv(Step(p, a, Chance(false, true, false)))
                   && StepsLeft(Step(p, a, Chance(false, true, false))) < StepsLeft(p)
  }

  lemma ComesNearer(p: Pool)
    requires Inv(p) && Fine(p) && p.main != Returned
    ensures Nearer(p)
  {
    hide RunningRight, ActiveRight, MainRight, Fine, Step, StepsLeft;
    var x := Chance(false, true, false);
    StepCan(p);
    var a :| Smooth(a, x) && Step(p, a, x) != p;
    StepEnds(p, a, x);
  }

  /** How many steps of a run changed anything. */
  function Changes(s: Stage, schedule: seq<(Actor, Chance)>): nat
    requires StageInv(s)
    decreases |schedule|
  {
    if schedule == [] then 0
    else
      StageKeeps(s, schedule[0].0, schedule[0].1);
      var next := StageStep(s, schedule[0].0, schedule[0].1);
      (if next == s then 0 else 1) + Changes(next, schedule[1..])
  }

  /** A last round is over after so many changes, whatever the schedule. */
  lemma {:induction false} FewChanges(s: Stage, schedule: seq<(Actor, Chance)>)
    requires StageInv(s) && Fine(s.pool) && s.rest == [] && AllSmooth(schedule)
    ensures Changes(s, schedule) <= StepsLeft(s.pool)
    decreases |schedule|
  {
    hide Step, Fine, RunningRight, ActiveRight, MainRight, StepsLeft;
    if schedule != [] {
      var a, x := schedule[0].0, schedule[0].1;
      StageKeeps(s, a, x);
      StepIsFine(s.pool, a, x);
      StepEnds(s.pool, a, x);
      FewChanges(StageStep(s, a, x), schedule[1..]);
    }
  }

  /** With no worker allowed and something to do, no run returns. */
  lemma {:induction false} NobodyWorks(s: Stage, schedule: seq<(Actor, Chance)>)
    requires StageInv(s) && s.pool.workers == [] && s.pool.slots != [] && s.pool.slots[0].NotStarted?
    requires s.pool.main != Returned
    ensures Run(s, schedule).pool.main != Returned
    decreases |schedule|
  {
    if schedule != [] {
      var a, x := schedule[0].0, schedule[0].1;
      StageKeeps(s, a, x);
      NobodyMoves(s, a, x);
      hide StageStep, StageInv;
      NobodyWorks(StageStep(s, a, x), schedule[1..]);
    }
  }

  lemma NobodyMoves(s: Stage, a: Actor, x: Chance)
    requires StageInv(s) && s.pool.workers == [] && s.pool.slots != [] && s.pool.slots[0].NotStarted?
    requires s.pool.main != Returned
    ensures var p := StageStep(s, a, x).pool;
      p.workers == [] && p.slots != [] && p.slots[0].NotStarted? && p.main != Returned
  {}
}
