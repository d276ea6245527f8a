/** The request pool: workers, deadline, cancellation, drain and seal as interleaved steps, and the rounds on top. */
module Pool {
  import Types

  datatype Status = NotStarted | Running(worker: nat) | Ok | Failed | Interrupted

  /** Where a worker is: between slots, waiting for a reply, holding a result, or gone. */
  datatype Worker = Unborn | Idle | Sending(slot: nat) | Holding(slot: nat, ok: bool) | Gone

  /** Where run_pool is. */
  datatype Main = Starting | Listing | Waiting | Leaving | Draining | Sealed | Returned | Raised

  /** `listed`: how many threads are on the list that is waited for; a thread runs before it is put on it.
      `raising`: run_pool is on its way out with an exception. */
  datatype Pool = Pool(
    next: nat, active: int, stopped: bool, sealed: bool, raising: bool, slots: seq<Status>, timeline: seq<int>,
    workers: seq<Worker>, listed: nat, main: Main)

  function Start(count: nat, concurrency: nat, stopped: bool): (p: Pool)
    ensures |p.slots| == count && |p.workers| == Types.Min(concurrency, count)
  {
    Pool(0, 0, stopped, false, false, seq(count, _ => NotStarted), [], seq(Types.Min(concurrency, count), _ => Unborn),
         0, Starting)
  }

  /** What the clock and the network decide. */
  datatype Chance = Chance(late: bool, ok: bool, broken: bool)

  // ---------------------------------------------------------------- the steps

  predicate Alive(w: Worker) { w.Idle? || w.Sending? || w.Holding? }

  /** Of the threads on the list, one is alive. */
  predicate AnyAlive(p: Pool) { exists w :: 0 <= w < |p.workers| && w < p.listed && Alive(p.workers[w]) }

  function With(p: Pool, w: nat, pc: Worker): Pool
    requires w < |p.workers|
  {
    p.(workers := p.workers[w := pc])
  }

  /** The locked part of a worker's turn before its request. */
  function Claim(p: Pool, w: nat, late: bool): Pool
    requires w < |p.workers|
  {
    if p.sealed || p.stopped || p.next >= |p.slots| then With(p, w, Gone)
    else if late then
      With(p, w, Gone).(next := p.next + 1, slots := p.slots[p.next := Failed], stopped := true)
    else
      With(p, w, Sending(p.next))
      .(next := p.next + 1, active := p.active + 1, slots := p.slots[p.next := Running(w)],
        timeline := p.timeline + [p.active + 1])
  }

  /** The locked part behind it. */
  function Record(p: Pool, w: nat): Pool
    requires w < |p.workers| && p.workers[w].Holding? && p.workers[w].slot < |p.slots|
  {
    var h := p.workers[w];
    if p.sealed then With(p, w, Idle)
    else
      With(p, w, Idle)
      .(slots := p.slots[h.slot := if h.ok then Ok else Failed], active := p.active - 1,
        timeline := p.timeline + [p.active - 1])
  }

  predicate InRange(p: Pool) {
    forall w :: 0 <= w < |p.workers| ==>
      (p.workers[w].Sending? || p.workers[w].Holding? ==> p.workers[w].slot < |p.slots|)
  }

  /** One step of worker w. */
  function WorkerStep(p: Pool, w: nat, x: Chance): Pool
    requires w < |p.workers| && InRange(p)
  {
    match p.workers[w]
    case Unborn => p
    case Idle => Claim(p, w, x.late)
    case Sending(_) => Reply(p, w, x.ok)
    case Holding(_, _) => Record(p, w)
    case Gone => p
  }

  /** Sealing: every slot still running becomes interrupted. */
  function Seal(slots: seq<Status>): (r: seq<Status>)
    ensures |r| == |slots|
    ensures forall i :: 0 <= i < |slots| ==> r[i] == if slots[i].Running? then Interrupted else slots[i]
  {
    seq(|slots|, i requires 0 <= i < |slots| => if slots[i].Running? then Interrupted else slots[i])
  }

  predicate AllOk(slots: seq<Status>) { forall i :: 0 <= i < |slots| ==> slots[i] == Ok }

  /** The first worker not yet started, or how many there are. */
  function Unstarted(workers: seq<Worker>): (k: nat)
    ensures k <= |workers| && (k < |workers| ==> workers[k].Unborn?)
    ensures forall j :: 0 <= j < k ==> !workers[j].Unborn?
  {
    if workers == [] || workers[0].Unborn? then 0 else 1 + Unstarted(workers[1..])
  }

  /** One step of run_pool itself; `broken` is an exception, such as an interrupt. Out of the guarded part it is
      kept until the pool is sealed; out of the finally block it leaves at once, and the pool is never sealed. */
  function MainStep(p: Pool, x: Chance): Pool {
    match p.main
    case Starting =>
      var k := Unstarted(p.workers);
      if x.broken then p.(raising := true, main := Leaving)
      else if k < |p.workers| then With(p, k, Idle).(main := Listing)
      else p.(main := Waiting)
    case Listing =>
      if x.broken then p.(raising := true, main := Leaving) else p.(listed := p.listed + 1, main := Starting)
    case Waiting =>
      if x.broken then p.(raising := true, main := Leaving)
      else if !AnyAlive(p) then p.(main := Leaving)
      else if x.late || p.stopped then p.(stopped := true, main := Leaving)
      else p
    case Leaving =>
      if x.broken then p.(main := Raised) else p.(stopped := p.stopped || AnyAlive(p), main := Draining)
    case Draining =>
      if x.broken then p.(main := Raised) else p.(sealed := true, slots := Seal(p.slots), main := Sealed)
    case Sealed =>
      p.(main := if !p.raising && !p.stopped && !x.broken && AllOk(p.slots) then Returned else Raised)
    case Returned => p
    case Raised => p
  }

  /** A signal handler sets the shared cancellation. */
  function Cancel(p: Pool): Pool { p.(stopped := true) }

  datatype Actor = TheWorker(w: nat) | TheMain | TheSignal

  function Step(p: Pool, a: Actor, x: Chance): Pool
    requires InRange(p)
  {
    match a
    case TheWorker(w) => if w < |p.workers| then WorkerStep(p, w, x) else p
    case TheMain => MainStep(p, x)
    case TheSignal => Cancel(p)
  }

  // ---------------------------------------------------------------- the invariant

  predicate Busy(w: Worker) { w.Sending? || w.Holding? }

  function CountBusy(workers: seq<Worker>): (n: nat)
    ensures n <= |workers|
  {
    if workers == [] then 0
    else CountBusy(workers[..|workers| - 1]) + if Busy(workers[|workers| - 1]) then 1 else 0
  }

  /** Slots are handed out in order, and each busy worker has one of its own. */
  ghost predicate Exclusive(p: Pool) {
    && InRange(p)
    && p.next <= |p.slots|
    && (forall i :: 0 <= i < |p.slots| ==> (p.slots[i].NotStarted? <==> i >= p.next))
    && (forall w :: 0 <= w < |p.workers| && Busy(p.workers[w]) ==> p.workers[w].slot < p.next)
    && forall v, w :: 0 <= v < w < |p.workers| && Busy(p.workers[v]) && Busy(p.workers[w]) ==>
      p.workers[v].slot != p.workers[w].slot
  }

  /** Before the seal, a slot is running exactly while its worker is busy with it; after the seal, none is. */
  ghost predicate RunningRight(p: Pool)
    requires InRange(p)
  {
    && (forall i :: 0 <= i < |p.slots| && p.slots[i].Running? ==> RunsRight(p, i))
    && (!p.sealed ==> forall w :: 0 <= w < |p.workers| && Busy(p.workers[w]) ==>
         p.slots[p.workers[w].slot] == Running(w))
  }

  ghost predicate RunsRight(p: Pool, i: nat)
    requires i < |p.slots| && p.slots[i].Running?
  {
    !p.sealed && p.slots[i].worker < |p.workers| && Busy(p.workers[p.slots[i].worker])
    && p.workers[p.slots[i].worker].slot == i
  }

  /** Before the seal, active counts the busy workers; the last number noted is the current one, and none is more
      than there are workers. */
  ghost predicate ActiveRight(p: Pool) {
    && (!p.sealed ==> p.active == CountBusy(p.workers))
    && (!p.sealed && p.timeline != [] ==> p.timeline[|p.timeline| - 1] == p.active)
    && forall k :: 0 <= k < |p.timeline| ==> 0 <= p.timeline[k] <= |p.workers|
  }

  /** run_pool is sealed only behind the drain and returns only sealed; it has not been stopped for nothing, and it
      returns, instead of raising, only with all slots done and no exception under way. */
  ghost predicate MainRight(p: Pool) {
    && (p.sealed ==> p.main in {Sealed, Returned, Raised})
    && (p.main in {Sealed, Returned} ==> p.sealed)
    && (p.main in {Draining, Sealed} && !p.stopped ==> !AnyAlive(p))
    && (p.main == Returned ==> AllOk(p.slots) && !p.raising && !AnyAlive(p))
  }

  /** Threads are listed in order, each after it has been started; without an exception all of them are, before
      run_pool waits. */
  ghost predicate ListRight(p: Pool) {
    && p.listed <= |p.workers|
    && (p.main == Starting ==> forall w :: 0 <= w < |p.workers| ==> (p.workers[w].Unborn? <==> w >= p.listed))
    && (p.main == Listing ==>
          p.listed < |p.workers| && forall w :: 0 <= w < |p.workers| ==> (p.workers[w].Unborn? <==> w > p.listed))
    && (p.main in {Waiting, Leaving, Draining, Sealed, Returned} && !p.raising ==> p.listed == |p.workers|)
  }

  ghost predicate Inv(p: Pool) {
    Exclusive(p) && RunningRight(p) && ActiveRight(p) && MainRight(p) && ListRight(p)
  }

  lemma {:induction false} CountUpdate(workers: seq<Worker>, w: nat, pc: Worker)
    requires w < |workers|
    ensures CountBusy(workers[w := pc]) + (if Busy(workers[w]) then 1 else 0)
         == CountBusy(workers) + if Busy(pc) then 1 else 0
  {
    var n := |workers| - 1;
    if w < n {
      CountUpdate(workers[..n], w, pc);
      assert workers[w := pc][..n] == workers[..n][w := pc];
    } else {
      assert workers[w := pc][..n] == workers[..n];
    }
  }

  lemma {:induction false} CountNone(workers: seq<Worker>)
    requires forall w :: 0 <= w < |workers| ==> !Busy(workers[w])
    ensures CountBusy(workers) == 0
  {
    if workers != [] {
      CountNone(workers[..|workers| - 1]);
    }
  }

  lemma StartsRight(count: nat, concurrency: nat, stopped: bool)
    ensures Inv(Start(count, concurrency, stopped))
  {
    CountNone(Start(count, concurrency, stopped).workers);
  }

  lemma ClaimExclusive(p: Pool, w: nat, late: bool)
    requires Exclusive(p) && w < |p.workers| && p.workers[w].Idle?
    ensures Exclusive(Claim(p, w, late))
  {}

  lemma ClaimRunning(p: Pool, w: nat, late: bool)
    requires Exclusive(p) && RunningRight(p) && w < |p.workers| && p.workers[w].Idle?
    ensures Exclusive(Claim(p, w, late)) && RunningRight(Claim(p, w, late))
  {
    ClaimExclusive(p, w, late);
    var r := Claim(p, w, late);
    NotRunningThere(p);
    forall i | 0 <= i < |r.slots| && r.slots[i].Running?
      ensures RunsRight(r, i)
    {
      assert p.slots[i].Running? ==> RunsRight(p, i);
    }
    forall v | 0 <= v < |r.workers| && Busy(r.workers[v]) && !r.sealed
      ensures r.slots[r.workers[v].slot] == Running(v)
    {
      if v != w {
        assert r.workers[v] == p.workers[v];
      }
    }
  }

  /** The next slot to be handed out is not running. */
  lemma NotRunningThere(p: Pool)
    requires Exclusive(p)
    ensures p.next < |p.slots| ==> p.slots[p.next].NotStarted?
  {}

  lemma ClaimActive(p: Pool, w: nat, late: bool)
    requires ActiveRight(p) && w < |p.workers| && p.workers[w].Idle?
    ensures ActiveRight(Claim(p, w, late))
  {
    CountUpdate(p.workers, w, Claim(p, w, late).workers[w]);
  }

  /** The step of a live worker leaves run_pool and the list alone. */
  ghost predicate OnlyWorker(p: Pool, r: Pool, w: nat) {
    && w < |p.workers| == |r.workers| && Alive(p.workers[w]) && !r.workers[w].Unborn?
    && r.workers == p.workers[w := r.workers[w]]
    && r.main == p.main && r.listed == p.listed && r.raising == p.raising && r.sealed == p.sealed
    && (p.stopped ==> r.stopped) && (p.sealed ==> r.slots == p.slots)
  }

  lemma WorkerMain(p: Pool, r: Pool, w: nat)
    requires MainRight(p) && ListRight(p) && OnlyWorker(p, r, w)
    ensures MainRight(r) && ListRight(r)
  {
    assert forall v :: 0 <= v < |p.workers| && v != w ==> r.workers[v] == p.workers[v];
    assert w < p.listed ==> AnyAlive(p);
    if AnyAlive(r) {
      var v :| 0 <= v < |r.workers| && v < r.listed && Alive(r.workers[v]);
      assert Alive(p.workers[v]);
    }
  }

  lemma ClaimKeeps(p: Pool, w: nat, late: bool)
    requires Inv(p) && w < |p.workers| && p.workers[w].Idle?
    ensures Inv(Claim(p, w, late))
  {
    ClaimOnlyWorker(p, w, late);
    hide Claim, Exclusive, RunningRight, ActiveRight, MainRight, ListRight, OnlyWorker;
    ClaimExclusive(p, w, late);
    ClaimRunning(p, w, late);
    ClaimActive(p, w, late);
    WorkerMain(p, Claim(p, w, late), w);
  }

  lemma ClaimOnlyWorker(p: Pool, w: nat, late: bool)
    requires Exclusive(p) && w < |p.workers| && p.workers[w].Idle?
    ensures OnlyWorker(p, Claim(p, w, late), w)
  {}

  lemma RecordRunning(p: Pool, w: nat)
    requires Exclusive(p) && RunningRight(p) && w < |p.workers| && p.workers[w].Holding?
    ensures Exclusive(Record(p, w)) && RunningRight(Record(p, w))
  {}

  lemma RecordKeeps(p: Pool, w: nat)
    requires Inv(p) && w < |p.workers| && p.workers[w].Holding?
    ensures Inv(Record(p, w))
  {
    hide Exclusive, RunningRight, MainRight, ListRight;
    RecordRunning(p, w);
    RecordInside(p, w);
    var r := Record(p, w);
    CountUpdate(p.workers, w, r.workers[w]);
    WorkerMain(p, r, w);
  }

  lemma RecordInside(p: Pool, w: nat)
    requires Exclusive(p) && w < |p.workers| && p.workers[w].Holding?
    ensures p.workers[w].slot < |p.slots|
  {}

  function Reply(p: Pool, w: nat, ok: bool): Pool
    requires w < |p.workers| && p.workers[w].Sending?
  {
    With(p, w, Holding(p.workers[w].slot, ok)).(stopped := p.stopped || !ok)
  }

  lemma ReplyRunning(p: Pool, w: nat, ok: bool)
    requires Exclusive(p) && RunningRight(p) && w < |p.workers| && p.workers[w].Sending?
    ensures Exclusive(Reply(p, w, ok)) && RunningRight(Reply(p, w, ok))
  {
    var r := Reply(p, w, ok);
    assert forall v :: 0 <= v < |p.workers| ==>
      Busy(r.workers[v]) == Busy(p.workers[v]) && (Busy(p.workers[v]) ==> r.workers[v].slot == p.workers[v].slot);
  }

  lemma ReplyKeeps(p: Pool, w: nat, ok: bool)
    requires Inv(p) && w < |p.workers| && p.workers[w].Sending?
    ensures Inv(Reply(p, w, ok))
  {
    hide Exclusive, RunningRight, MainRight, ListRight;
    ReplyRunning(p, w, ok);
    CountUpdate(p.workers, w, Holding(p.workers[w].slot, ok));
    WorkerMain(p, Reply(p, w, ok), w);
  }

  lemma BirthKeeps(p: Pool, k: nat)
    requires Inv(p) && p.main == Starting && k == p.listed < |p.workers|
    ensures Inv(With(p, k, Idle).(main := Listing))
  {
    hide CountBusy;
    var r := With(p, k, Idle).(main := Listing);
    assert p.workers[k].Unborn?;
    BirthRunning(p, k);
    CountUpdate(p.workers, k, Idle);
  }

  lemma BirthRunning(p: Pool, k: nat)
    requires Exclusive(p) && RunningRight(p) && k < |p.workers| && p.workers[k].Unborn?
    ensures var r := With(p, k, Idle).(main := Listing); Exclusive(r) && RunningRight(r)
  {
    var r := With(p, k, Idle).(main := Listing);
    assert forall v :: 0 <= v < |p.workers| && v != k ==> r.workers[v] == p.workers[v];
  }

  lemma SealKeeps(p: Pool)
    requires Inv(p) && p.main == Draining
    ensures Inv(p.(sealed := true, slots := Seal(p.slots), main := Sealed))
  {
    hide CountBusy;
  }

  lemma NextIsListed(p: Pool)
    requires ListRight(p) && p.main == Starting
    ensures Unstarted(p.workers) == p.listed
  {
    var k := Unstarted(p.workers);
    assert k < |p.workers| ==> p.workers[k].Unborn?;
    assert p.listed < |p.workers| ==> p.workers[p.listed].Unborn?;
  }

  lemma MainKeeps(p: Pool, x: Chance)
    requires Inv(p)
    ensures Inv(MainStep(p, x))
  {
    if p.main == Starting {
      NextIsListed(p);
    }
    if p.main == Starting && !x.broken && Unstarted(p.workers) < |p.workers| {
      BirthKeeps(p, Unstarted(p.workers));
    } else if p.main == Draining && !x.broken {
      SealKeeps(p);
    } else {
      MainAside(p, x);
      OnlyMain(p, MainStep(p, x));
      MainMoves(p, x);
    }
  }

  ghost predicate Aside(p: Pool, r: Pool) {
    r == p.(main := r.main, stopped := r.stopped, raising := r.raising, listed := r.listed)
  }

  lemma MainAside(p: Pool, x: Chance)
    requires !(p.main == Starting && !x.broken && Unstarted(p.workers) < |p.workers|)
    requires !(p.main == Draining && !x.broken)
    ensures Aside(p, MainStep(p, x))
  {
    hide Seal, AllOk, AnyAlive, Unstarted;
  }

  lemma OnlyMain(p: Pool, r: Pool)
    requires Inv(p) && Aside(p, r)
    ensures Exclusive(r) && RunningRight(r) && ActiveRight(r)
  {}

  lemma MainMoves(p: Pool, x: Chance)
    requires MainRight(p) && ListRight(p)
    requires !(p.main == Starting && !x.broken && Unstarted(p.workers) < |p.workers|)
    requires !(p.main == Draining && !x.broken)
    ensures MainRight(MainStep(p, x)) && ListRight(MainStep(p, x))
  {
    hide Seal, AllOk, Alive;
    if p.main == Starting {
      NextIsListed(p);
    }
  }

  lemma StepKeeps(p: Pool, a: Actor, x: Chance)
    requires Inv(p)
    ensures Inv(Step(p, a, x))
  {
    hide Claim, Record, Reply, MainStep;
    match a
    case TheWorker(w) =>
      if w < |p.workers| {
        match p.workers[w]
        case Unborn =>
        case Idle => ClaimKeeps(p, w, x.late);
        case Sending(_) => ReplyKeeps(p, w, x.ok);
        case Holding(_, _) => RecordKeeps(p, w);
        case Gone =>
      }
    case TheMain => MainKeeps(p, x);
    case TheSignal =>
  }

  /** A signal stops the pool and changes nothing else. */
  lemma SignalStops(p: Pool, x: Chance)
    requires InRange(p)
    ensures Step(p, TheSignal, x).stopped && Step(p, TheSignal, x).(stopped := p.stopped) == p
  {}

  /** After the seal no slot changes any more. */
  lemma SealIsFinal(p: Pool, a: Actor, x: Chance)
    requires Inv(p) && p.sealed
    ensures Step(p, a, x).sealed && Step(p, a, x).slots == p.slots
  {}

  /** What becomes of a slot: it is never handed back, it keeps its worker while it runs, and a finished one keeps its
      status. */
  predicate MovesOn(before: Status, after: Status) {
    match before
    case NotStarted => true
    case Running(w) => !after.NotStarted? && (after.Running? ==> after.worker == w)
    case _ => after == before
  }

  lemma ClaimMovesOn(p: Pool, w: nat, late: bool, i: nat)
    requires Exclusive(p) && w < |p.workers| && i < |p.slots|
    ensures var r := Claim(p, w, late); |r.slots| == |p.slots| && p.next <= r.next && MovesOn(p.slots[i], r.slots[i])
  {}

  lemma RecordMovesOn(p: Pool, w: nat, i: nat)
    requires Exclusive(p) && RunningRight(p) && w < |p.workers| && p.workers[w].Holding? && i < |p.slots|
    requires p.workers[w].slot < |p.slots|
    ensures var r := Record(p, w); |r.slots| == |p.slots| && p.next <= r.next && MovesOn(p.slots[i], r.slots[i])
  {}

  lemma MainMovesOn(p: Pool, x: Chance, i: nat)
    requires i < |p.slots|
    ensures var r := MainStep(p, x); |r.slots| == |p.slots| && p.next <= r.next && MovesOn(p.slots[i], r.slots[i])
  {}

  /** No slot is ever handed back or handed out twice: what is behind next stays behind it. */
  lemma SlotsMoveOn(p: Pool, a: Actor, x: Chance, i: nat)
    requires Inv(p) && i < |p.slots|
    ensures |Step(p, a, x).slots| == |p.slots| && p.next <= Step(p, a, x).next
    ensures MovesOn(p.slots[i], Step(p, a, x).slots[i])
  {
    hide Claim, Record, MainStep, RunningRight, ActiveRight, MainRight;
    match a
    case TheWorker(w) =>
      if w < |p.workers| {
        match p.workers[w]
        case Unborn =>
        case Idle => ClaimMovesOn(p, w, x.late, i);
        case Sending(_) =>
        case Holding(_, _) =>
          RecordMovesOn(p, w, i);
        case Gone =>
      }
    case TheMain => MainMovesOn(p, x, i);
    case TheSignal =>
  }

  // ---------------------------------------------------------------- the rounds of a case

  /** The rounds: those that have returned, the one in its pool, and how many slots each of the others has. */
  datatype Stage = Stage(done: seq<seq<Status>>, pool: Pool, rest: seq<nat>, concurrency: nat)

  function StartStage(first: nat, rest: seq<nat>, concurrency: nat, stopped: bool): Stage {
    Stage([], Start(first, concurrency, stopped), rest, concurrency)
  }

  /** A step of the pool, or the next round once the pool has returned. A raised pool ends the stage. */
  function StageStep(s: Stage, a: Actor, x: Chance): Stage
    requires InRange(s.pool)
  {
    if a == TheMain && s.pool.main == Returned && s.rest != [] then
      Stage(s.done + [s.pool.slots], Start(s.rest[0], s.concurrency, s.pool.stopped), s.rest[1..], s.concurrency)
    else s.(pool := Step(s.pool, a, x))
  }

  ghost predicate StageInv(s: Stage) {
    && Inv(s.pool)
    && |s.pool.workers| <= s.concurrency
    && forall t :: 0 <= t < |s.done| ==> AllOk(s.done[t])
  }

  /** The status of slot i of round t. */
  function StatusOf(s: Stage, t: nat, i: nat): Status {
    if t < |s.done| then (if i < |s.done[t]| then s.done[t][i] else NotStarted)
    else if t == |s.done| && i < |s.pool.slots| then s.pool.slots[i]
    else NotStarted
  }

  function Run(s: Stage, schedule: seq<(Actor, Chance)>): (r: Stage)
    requires StageInv(s)
    ensures StageInv(r) && r.concurrency == s.concurrency
    decreases |schedule|
  {
    if schedule == [] then s
    else
      StageKeeps(s, schedule[0].0, schedule[0].1);
      Run(StageStep(s, schedule[0].0, schedule[0].1), schedule[1..])
  }

  lemma WorkersStay(p: Pool, a: Actor, x: Chance)
    requires InRange(p)
    ensures |Step(p, a, x).workers| == |p.workers|
  {
    hide Seal, AllOk, AnyAlive, Unstarted;
  }

  lemma StageKeeps(s: Stage, a: Actor, x: Chance)
    requires StageInv(s)
    ensures StageInv(StageStep(s, a, x))
  {
    hide Step, Start;
    StepKeeps(s.pool, a, x);
    WorkersStay(s.pool, a, x);
    if s.rest != [] {
      StartsRight(s.rest[0], s.concurrency, s.pool.stopped);
    }
    assert s.pool.main == Returned ==> AllOk(s.pool.slots);
  }

  /** In every run: no more than `concurrency` requests are ever active, a slot of a round leaves "not started" only
      after every slot of every earlier round is "ok", no slot is running behind a seal, and a pool that has returned
      has every slot "ok" and no thread left. */
  lemma EveryRun(first: nat, rest: seq<nat>, concurrency: nat, stopped: bool, schedule: seq<(Actor, Chance)>)
    ensures StageInv(StartStage(first, rest, concurrency, stopped))
    ensures var s := Run(StartStage(first, rest, concurrency, stopped), schedule);
      && (forall k :: 0 <= k < |s.pool.timeline| ==> 0 <= s.pool.timeline[k] <= concurrency)
      && (forall t, i, u, j :: 0 <= u < t && !StatusOf(s, t, i).NotStarted? && RoundHas(s, u, j) ==>
            StatusOf(s, u, j) == Ok)
      && (s.pool.sealed ==> forall i :: 0 <= i < |s.pool.slots| ==> !s.pool.slots[i].Running?)
      && (s.pool.main == Returned ==> AllOk(s.pool.slots) && NoneAlive(s.pool))
  {
    hide Run, Start, StageStep, Step;
    StartsRight(first, concurrency, stopped);
    var s := Run(StartStage(first, rest, concurrency, stopped), schedule);
    assert StageInv(s);
    forall t, i, u, j | 0 <= u < t && !StatusOf(s, t, i).NotStarted? && RoundHas(s, u, j)
      ensures StatusOf(s, u, j) == Ok
    {
      assert AllOk(s.done[u]);
    }
    if s.pool.main == Returned {
      ReturnedAlone(s.pool);
    }
  }

  predicate NoneAlive(p: Pool) { forall w :: 0 <= w < |p.workers| ==> !Alive(p.workers[w]) }

  lemma ReturnedAlone(p: Pool)
    requires MainRight(p) && ListRight(p) && p.main == Returned
    ensures NoneAlive(p)
  {}

  /** One step of the stage: a slot once claimed stays claimed, by the same worker, and a finished one keeps its
      status. */
  lemma StageMovesOn(s: Stage, a: Actor, x: Chance, t: nat, i: nat)
    requires StageInv(s)
    ensures MovesOn(StatusOf(s, t, i), StatusOf(StageStep(s, a, x), t, i))
  {
    hide Step, Start;
    if t == |s.done| && i < |s.pool.slots| {
      if !(a == TheMain && s.pool.main == Returned && s.rest != []) {
        SlotsMoveOn(s.pool, a, x, i);
      }
    }
  }

  /** Over any stretch of any run, and over the rounds: no slot is claimed twice, by the same worker or by another. */
  lemma {:induction false} ClaimedOnceEver(s: Stage, schedule: seq<(Actor, Chance)>, t: nat, i: nat)
    requires StageInv(s)
    ensures MovesOn(StatusOf(s, t, i), StatusOf(Run(s, schedule), t, i))
    decreases |schedule|
  {
    hide StageStep, StatusOf;
    if schedule != [] {
      StageKeeps(s, schedule[0].0, schedule[0].1);
      StageMovesOn(s, schedule[0].0, schedule[0].1, t, i);
      ClaimedOnceEver(StageStep(s, schedule[0].0, schedule[0].1), schedule[1..], t, i);
    }
  }

  /** Round t has a slot i. */
  predicate RoundHas(s: Stage, t: nat, i: nat) {
    if t < |s.done| then i < |s.done[t]| else t == |s.done| && i < |s.pool.slots|
  }
}
