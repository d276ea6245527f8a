/** The multi-core driver: run_tasks as interleaved steps of its workers over the shared atomics. */
module Driver {
  import opened Common
  import opened Md5
  import opened SearchCommon
  import opened Collision
  import opened Files

  datatype Mode = Work | Queue | Race

  /** Where a worker is. Every step between two of these makes at most one access to shared state. */
  datatype Pc =
    | Top
    | Check(i: nat)
    | Stamp(i: nat)
    | RaceCheck(i: nat)
    | Move(i: nat)
    | Enter(i: nat)
    | Search(i: nat)
    | Leave(i: nat, r: Option<Pair>)
    | Claim(i: nat, p: Pair)
    | First(i: nat, p: Pair)
    | Second(i: nat, p: Pair, ok: bool, whole: bool)
    | Scan(k: nat, j: nat, fewest: int, oldest: int)
    | Exited

  /** A task as read_tasks leaves it: the name and the contents of its input, and the case made of them. */
  datatype Task = Task(infn: string, input: seq<bv8>, tc: TaskCase)

  datatype Config = Config(cases: seq<Task>, mode: Mode, workers: nat, helpOldest: bool)

  /** One attempt to write the output of a task: what was reported of it, and whether both files were whole. */
  datatype Attempt = Attempt(task: nat, p: Pair, ok: bool, whole: bool)

  /** Shared state, the disk, the attempts so far, and the workers. */
  datatype State = State(
    next: nat, winner: seq<bool>, active: seq<int>, files: map<string, seq<bv8>>, log: seq<Attempt>, pcs: seq<Pc>)

  /** What a step cannot know: values a relaxed load returns, the outcome of a search, the fate of a write. */
  datatype Outside = Outside(seen: bool, load: nat, busy: int, since: int, outcome: Option<Pair>, fault: Fault)

  /** All inputs have been read before the first worker starts. */
  ghost predicate ValidConfig(c: Config, files: map<string, seq<bv8>>) {
    c.workers > 0 && forall i :: 0 <= i < |c.cases| ==> WasRead(files, c.cases[i])
  }

  ghost predicate WasRead(files: map<string, seq<bv8>>, k: Task) {
    k.infn in files && files[k.infn] == k.input && CaseOf(k.input, k.tc)
  }

  /** The disk behind an attempt to write a file. */
  function Written(files: map<string, seq<bv8>>, fn: string, data: seq<bv8>, fault: Fault): map<string, seq<bv8>> {
    match fault
    case NoFault => files[fn := data]
    case CannotOpen => files
    case Stops(at) => files[fn := if at < |data| then data[..at] else data]
    case LostAtClose(at) => files[fn := if at < |data| then data[..at] else data]
  }

  /** Those are the disks that write_file may leave. */
  lemma WrittenAre(before: map<string, seq<bv8>>, after: map<string, seq<bv8>>, fn: string, data: seq<bv8>, ok: bool,
                   whole: bool)
    ensures AfterWrite(before, after, fn, data, ok, whole)
        <==> exists fault: Fault :: Outcome(before, after, fn, data, ok, whole, fault)
  {
    if AfterWrite(before, after, fn, data, ok, whole) {
      var fault := if whole then NoFault else if !ok && after == before then CannotOpen
                   else if ok then LostAtClose(|after[fn]|) else Stops(|after[fn]|);
      var w := Written(before, fn, data, fault);
      forall other
        ensures SameFile(w, after, other)
      {
        assert other != fn ==> SameFile(before, after, other);
      }
      SameFiles(w, after);
      assert Outcome(before, after, fn, data, ok, whole, fault);
    }
    forall fault: Fault | Outcome(before, after, fn, data, ok, whole, fault)
      ensures AfterWrite(before, after, fn, data, ok, whole)
    {
      assert forall other :: other != fn ==> SameFile(before, after, other);
    }
  }

  predicate Outcome(before: map<string, seq<bv8>>, after: map<string, seq<bv8>>, fn: string, data: seq<bv8>, ok: bool,
                    whole: bool, fault: Fault) {
    ok == Reported(fault) && whole == fault.NoFault? && after == Written(before, fn, data, fault)
  }

  lemma SameFiles(x: map<string, seq<bv8>>, y: map<string, seq<bv8>>)
    requires forall fn :: SameFile(x, y, fn)
    ensures x == y
  {
    forall fn
      ensures fn in x <==> fn in y
      ensures fn in x ==> x[fn] == y[fn]
    {
      assert SameFile(x, y, fn);
    }
  }

  function Start(c: Config, files: map<string, seq<bv8>>): State {
    State(0, seq(|c.cases|, _ => false), seq(|c.cases|, _ => 0), files, [], seq(c.workers, _ => Top))
  }

  function At(s: State, w: nat, pc: Pc): State
    requires w < |s.pcs|
  {
    s.(pcs := s.pcs[w := pc])
  }

  ghost predicate Shape(c: Config, s: State) {
    && |s.winner| == |s.active| == |c.cases|
    && |s.pcs| == c.workers
    && (forall w :: 0 <= w < |s.pcs| ==> InRange(c, s.pcs[w]))
    && forall e :: 0 <= e < |s.log| ==> s.log[e].task < |c.cases|
  }

  /** The task a worker is concerned with exists. */
  predicate InRange(c: Config, pc: Pc) {
    match pc
    case Top => true
    case Scan(k, j, _, _) => k <= |c.cases| && j <= |c.cases| && c.mode == Work
    case Exited => true
    case RaceCheck(i) => i < |c.cases| && c.mode == Race
    case Move(i) => i < |c.cases| && c.mode == Race
    case Check(i) => i < |c.cases| && c.mode != Race
    case _ => pc.i < |c.cases|
  }

  /** One step of worker w, or None where these outside values are impossible. A load of winner may return an
      old 0 but a 1 only once it has been stored; next never shrinks, so an old value of it is a smaller one. */
  ghost function Act(c: Config, s: State, w: nat, x: Outside): Option<State>
    requires Shape(c, s) && w < c.workers
  {
    var n := |c.cases|;
    match s.pcs[w]
    case Top =>
      if c.mode == Race then
        if x.load > s.next then None
        else Some(At(s, w, if x.load >= n then Exited else RaceCheck(x.load)))
      else
        Some(At(s, w,
                if s.next < n then Check(s.next) else if c.mode == Queue then Exited else Scan(0, n, 0, 0))
             .(next := s.next + 1))
    case Check(i) =>
      if x.seen && !s.winner[i] then None else Some(At(s, w, if x.seen then Top else Stamp(i)))
    case Stamp(i) =>
      Some(At(s, w, Enter(i)))
    case RaceCheck(i) =>
      if x.seen && !s.winner[i] then None else Some(At(s, w, if x.seen then Move(i) else Enter(i)))
    case Move(i) =>
      Some(At(s, w, Top).(next := if s.next == i then i + 1 else s.next))
    case Enter(i) =>
      Some(At(s, w, Search(i)).(active := s.active[i := s.active[i] + 1]))
    case Search(i) =>
      SearchEnds(c, s, w, i, x.outcome)
    case Leave(i, r) =>
      Some(At(s, w, if r.None? then Top else Claim(i, r.value)).(active := s.active[i := s.active[i] - 1]))
    case Claim(i, p) =>
      if s.winner[i] then Some(At(s, w, Top))
      else Some(At(s, w, First(i, p)).(winner := s.winner[i := true]))
    case First(i, p) =>
      var tc := c.cases[i].tc;
      Some(At(s, w, Second(i, p, Reported(x.fault), x.fault.NoFault?))
           .(files := Written(s.files, tc.outfn1, Message(tc.prefix, p.m1b0, p.m1b1), x.fault)))
    case Second(i, p, ok, whole) =>
      var tc := c.cases[i].tc;
      Some(At(s, w, Top)
           .(files := Written(s.files, tc.outfn2, Message(tc.prefix, p.m2b0, p.m2b1), x.fault),
             log := s.log + [Attempt(i, p, ok && Reported(x.fault), whole && x.fault.NoFault?)]))
    case Scan(k, j, fewest, oldest) =>
      if k == n then Some(At(s, w, if j == n then Exited else Enter(j)))
      else if x.seen then (if s.winner[k] then Some(At(s, w, Scan(k + 1, j, fewest, oldest))) else None)
      else
        var better := j == n
          || (if c.helpOldest then x.since < oldest
              else x.busy < fewest || (x.busy == fewest && x.since < oldest));
        Some(At(s, w, if better then Scan(k + 1, k, x.busy, x.since) else Scan(k + 1, j, fewest, oldest)))
    case Exited => None
  }

  /** find_collision ends with a collision for the task's chaining value, or aborts having seen the task won. */
  ghost function SearchEnds(c: Config, s: State, w: nat, i: nat, outcome: Option<Pair>): Option<State>
    requires w < |s.pcs| && i < |c.cases| == |s.winner|
  {
    match outcome
    case None => if s.winner[i] then Some(At(s, w, Leave(i, None))) else None
    case Some(p) => if Collides(c.cases[i].tc.iv, p) then Some(At(s, w, Leave(i, Some(p)))) else None
  }

  // ---------------------------------------------------------------- counting workers

  datatype Role = Searcher | Holder | Writer

  predicate Plays(role: Role, i: nat, pc: Pc) {
    match role
    case Searcher => (pc.Search? || pc.Leave?) && pc.i == i
    case Holder => Holds(i, pc)
    case Writer => (pc.First? || pc.Second?) && pc.i == i
  }

  function One(b: bool): nat { if b then 1 else 0 }

  function Count(pcs: seq<Pc>, role: Role, i: nat): nat {
    if pcs == [] then 0 else Count(pcs[..|pcs| - 1], role, i) + One(Plays(role, i, pcs[|pcs| - 1]))
  }

  lemma {:induction false} CountUpdate(pcs: seq<Pc>, w: nat, pc: Pc, role: Role, i: nat)
    requires w < |pcs|
    ensures Count(pcs[w := pc], role, i) + One(Plays(role, i, pcs[w])) == Count(pcs, role, i) + One(Plays(role, i, pc))
  {
    var n := |pcs| - 1;
    if w < n {
      CountUpdate(pcs[..n], w, pc, role, i);
      assert pcs[w := pc][..n] == pcs[..n][w := pc];
    } else {
      assert pcs[w := pc][..n] == pcs[..n];
    }
  }

  lemma {:induction false} CountNone(pcs: seq<Pc>, role: Role, i: nat)
    requires forall w :: 0 <= w < |pcs| ==> !Plays(role, i, pcs[w])
    ensures Count(pcs, role, i) == 0
  {
    if pcs != [] {
      CountNone(pcs[..|pcs| - 1], role, i);
    }
  }

  lemma {:induction false} CountSome(pcs: seq<Pc>, role: Role, i: nat, w: nat)
    requires w < |pcs| && Plays(role, i, pcs[w])
    ensures Count(pcs, role, i) >= 1
  {
    if w < |pcs| - 1 {
      CountSome(pcs[..|pcs| - 1], role, i, w);
    }
  }

  function Attempts(log: seq<Attempt>, i: nat): nat {
    if log == [] then 0 else Attempts(log[..|log| - 1], i) + One(log[|log| - 1].task == i)
  }

  lemma AttemptsAppend(log: seq<Attempt>, a: Attempt, i: nat)
    ensures Attempts(log + [a], i) == Attempts(log, i) + One(a.task == i)
  {
    assert (log + [a])[..|log|] == log;
  }

  lemma {:induction false} AttemptsSome(log: seq<Attempt>, i: nat, e: nat)
    requires e < |log| && log[e].task == i
    ensures Attempts(log, i) >= 1
  {
    if e < |log| - 1 {
      AttemptsSome(log[..|log| - 1], i, e);
    }
  }

  // ---------------------------------------------------------------- the invariant

  /** active[i] is the number of workers searching task i. */
  ghost predicate ActiveRight(s: State) {
    forall i :: 0 <= i < |s.active| ==> s.active[i] == Count(s.pcs, Searcher, i)
  }

  /** A won task has one writer or one finished attempt; a task not won has neither. */
  ghost predicate ClaimedOnce(s: State) {
    forall i :: 0 <= i < |s.winner| ==> Count(s.pcs, Writer, i) + Attempts(s.log, i) == One(s.winner[i])
  }

  /** Every result on its way to the disk, or there, is a collision for its own task. */
  ghost predicate ResultsRight(c: Config, s: State) {
    && (forall w :: 0 <= w < |s.pcs| ==> CarriesRight(c, s.pcs[w]))
    && forall e :: 0 <= e < |s.log| ==> AttemptRight(c, s.log[e])
  }

  ghost predicate CarriesRight(c: Config, pc: Pc) {
    match pc
    case Leave(i, Some(p)) => GoodFor(c, i, p)
    case Claim(i, p) => GoodFor(c, i, p)
    case First(i, p) => GoodFor(c, i, p)
    case Second(i, p, _, _) => GoodFor(c, i, p)
    case _ => true
  }

  ghost predicate AttemptRight(c: Config, a: Attempt) { GoodFor(c, a.task, a.p) }

  ghost predicate GoodFor(c: Config, i: nat, p: Pair) { i < |c.cases| && Collides(c.cases[i].tc.iv, p) }

  /** No task is forgotten: what has been handed out is won or in some worker's hands, a helper has only passed
      over won tasks, and a worker that has exited has left nothing behind. */
  ghost predicate NothingLost(c: Config, s: State)
    requires Shape(c, s)
  {
    && (forall i :: 0 <= i < |c.cases| && i < s.next ==> s.winner[i] || (c.mode != Race && Held(s, i)))
    && forall w :: 0 <= w < |s.pcs| ==> Passed(c, s, s.pcs[w])
  }

  ghost predicate Held(s: State, i: nat) { exists w :: 0 <= w < |s.pcs| && Holds(i, s.pcs[w]) }

  /** A worker that will win task i itself or has to see it won. */
  predicate Holds(i: nat, pc: Pc) {
    match pc
    case Check(j) => i == j
    case Stamp(j) => i == j
    case Enter(j) => i == j
    case Search(j) => i == j
    case Leave(j, Some(_)) => i == j
    case Claim(j, _) => i == j
    case _ => false
  }

  ghost predicate Passed(c: Config, s: State, pc: Pc)
    requires Shape(c, s)
  {
    match pc
    case Move(i) => i < |s.winner| && s.winner[i]
    case Leave(i, None) => i < |s.winner| && s.winner[i]
    case Scan(k, j, _, _) =>
      s.next >= |c.cases| && (j == |c.cases| ==> forall i :: 0 <= i < k && i < |s.winner| ==> s.winner[i])
    case Exited => s.next >= |c.cases| && (c.mode != Queue ==> forall i :: 0 <= i < |s.winner| ==> s.winner[i])
    case _ => true
  }

  // ---------------------------------------------------------------- every step keeps it

  ghost predicate Steps(c: Config, s: State, w: nat, x: Outside, s': State) {
    Shape(c, s) && w < c.workers && Act(c, s, w, x) == Some(s')
  }

  /** A step changes one worker. */
  lemma OneMoves(c: Config, s: State, w: nat, x: Outside, s': State)
    requires Steps(c, s, w, x, s')
    ensures w < |s'.pcs| == |s.pcs| && s'.pcs == s.pcs[w := s'.pcs[w]]
  {
    hide Collides, Message, Written;
  }

  /** It keeps the sizes, and adds at most one attempt. */
  lemma SizesStay(c: Config, s: State, w: nat, x: Outside, s': State)
    requires Steps(c, s, w, x, s')
    ensures |s'.winner| == |s.winner| && |s'.active| == |s.active|
    ensures s'.log == s.log || (s.pcs[w].Second? && |s'.log| == |s.log| + 1 && s'.log[..|s.log|] == s.log
                                && s'.log[|s.log|].task == s.pcs[w].i)
  {
    hide Collides, Message, Written;
  }

  lemma StaysInRange(c: Config, s: State, w: nat, x: Outside, s': State)
    requires Steps(c, s, w, x, s') && w < |s'.pcs|
    ensures InRange(c, s'.pcs[w])
  {
    hide Collides, Message, Written;
    assert InRange(c, s.pcs[w]);
    match s.pcs[w]
    case Top =>
    case Search(i) =>
    case Scan(_, _, _, _) =>
    case _ =>
  }

  lemma KeepsShape(c: Config, s: State, w: nat, x: Outside, s': State)
    requires Steps(c, s, w, x, s')
    ensures Shape(c, s')
  {
    hide Act, InRange;
    OneMoves(c, s, w, x, s');
    SizesStay(c, s, w, x, s');
    StaysInRange(c, s, w, x, s');
    assert InRange(c, s.pcs[w]);
    InRangeTask(c, s.pcs[w]);
    forall e | 0 <= e < |s'.log|
      ensures s'.log[e].task < |c.cases|
    {
      if e < |s.log| {
        assert s'.log[..|s.log|][e] == s.log[e];
      }
    }
  }

  lemma InRangeTask(c: Config, pc: Pc)
    requires InRange(c, pc)
    ensures pc.Second? ==> pc.i < |c.cases|
  {}

  /** Only entering and leaving a search touch active. */
  lemma ActiveStays(c: Config, s: State, w: nat, x: Outside, s': State)
    requires Steps(c, s, w, x, s') && !s.pcs[w].Enter? && !s.pcs[w].Leave?
    ensures s'.active == s.active && w < |s'.pcs|
    ensures forall i :: Plays(Searcher, i, s'.pcs[w]) == Plays(Searcher, i, s.pcs[w])
  {
    hide Collides, Message, Written, Plays;
    OneMoves(c, s, w, x, s');
    assert !s.pcs[w].Search? ==> !s'.pcs[w].Search? && !s'.pcs[w].Leave?;
    assert s.pcs[w].Search? ==> s'.pcs[w].Leave? && s'.pcs[w].i == s.pcs[w].i;
    SamePart(Searcher, s.pcs[w], s'.pcs[w]);
  }

  /** A worker that is not in a part, or in it for the same task, plays it alike. */
  lemma SamePart(role: Role, before: Pc, after: Pc)
    requires role.Searcher? ==>
      && (before.Search? || before.Leave? <==> after.Search? || after.Leave?)
      && (before.Search? || before.Leave? ==> before.i == after.i)
    requires role.Writer? ==>
      && (before.First? || before.Second? <==> after.First? || after.Second?)
      && (before.First? || before.Second? ==> before.i == after.i)
    requires !role.Holder?
    ensures forall i :: Plays(role, i, after) == Plays(role, i, before)
  {}

  /** active changes with the worker's part as a searcher. */
  lemma ActiveDelta(c: Config, s: State, w: nat, x: Outside, s': State, i: nat)
    requires Steps(c, s, w, x, s') && i < |s.active|
    ensures w < |s'.pcs| && |s'.active| == |s.active|
    ensures s'.active[i] + One(Plays(Searcher, i, s.pcs[w])) == s.active[i] + One(Plays(Searcher, i, s'.pcs[w]))
  {
    hide Collides, Message, Written;
    if s.pcs[w].Enter? || s.pcs[w].Leave? {
    } else {
      hide Act, Plays;
      ActiveStays(c, s, w, x, s');
    }
  }

  lemma KeepsActive(c: Config, s: State, w: nat, x: Outside, s': State)
    requires Steps(c, s, w, x, s') && ActiveRight(s)
    ensures ActiveRight(s')
  {
    hide Act, Plays;
    KeepsShape(c, s, w, x, s');
    OneMoves(c, s, w, x, s');
    forall i | 0 <= i < |s'.active|
      ensures s'.active[i] == Count(s'.pcs, Searcher, i)
    {
      ActiveDelta(c, s, w, x, s', i);
      CountUpdate(s.pcs, w, s'.pcs[w], Searcher, i);
    }
  }

  /** Only a claim and the end of a write touch winner and the log. */
  lemma WinnerStays(c: Config, s: State, w: nat, x: Outside, s': State)
    requires Steps(c, s, w, x, s') && !s.pcs[w].Claim? && !s.pcs[w].Second?
    ensures s'.winner == s.winner && s'.log == s.log && w < |s'.pcs|
    ensures forall i :: Plays(Writer, i, s'.pcs[w]) == Plays(Writer, i, s.pcs[w])
  {
    hide Collides, Message, Written, Plays;
    OneMoves(c, s, w, x, s');
    assert !s.pcs[w].First? ==> !s'.pcs[w].First? && !s'.pcs[w].Second?;
    assert s.pcs[w].First? ==> s'.pcs[w].Second? && s'.pcs[w].i == s.pcs[w].i;
    SamePart(Writer, s.pcs[w], s'.pcs[w]);
  }

  /** winner changes with a worker's part as a writer and with the finished attempts. */
  lemma ClaimDelta(c: Config, s: State, w: nat, x: Outside, s': State, i: nat)
    requires Steps(c, s, w, x, s') && i < |s.winner|
    ensures w < |s'.pcs| && |s'.winner| == |s.winner|
    ensures One(Plays(Writer, i, s'.pcs[w])) + Attempts(s'.log, i) + One(s.winner[i])
         == One(Plays(Writer, i, s.pcs[w])) + Attempts(s.log, i) + One(s'.winner[i])
  {
    hide Collides, Message, Written, Attempts;
    if s.pcs[w].Second? {
      AttemptsAppend(s.log, s'.log[|s.log|], i);
    } else if s.pcs[w].Claim? {
    } else {
      hide Act, Plays;
      WinnerStays(c, s, w, x, s');
    }
  }

  lemma KeepsClaims(c: Config, s: State, w: nat, x: Outside, s': State)
    requires Steps(c, s, w, x, s') && ClaimedOnce(s)
    ensures ClaimedOnce(s')
  {
    hide Act, Plays;
    KeepsShape(c, s, w, x, s');
    OneMoves(c, s, w, x, s');
    forall i | 0 <= i < |s'.winner|
      ensures Count(s'.pcs, Writer, i) + Attempts(s'.log, i) == One(s'.winner[i])
    {
      ClaimDelta(c, s, w, x, s', i);
      CountUpdate(s.pcs, w, s'.pcs[w], Writer, i);
    }
  }

  lemma KeepsResults(c: Config, s: State, w: nat, x: Outside, s': State)
    requires Steps(c, s, w, x, s') && ResultsRight(c, s)
    ensures ResultsRight(c, s')
  {
    hide Collides, Message, Written;
    assert CarriesRight(c, s.pcs[w]);
  }

  lemma WinnersStay(c: Config, s: State, w: nat, x: Outside, s': State)
    requires Steps(c, s, w, x, s')
    ensures |s'.winner| == |s.winner| && forall i :: 0 <= i < |s.winner| && s.winner[i] ==> s'.winner[i]
    ensures s.next <= s'.next
  {
    hide Collides, Message, Written;
  }

  lemma KeepsHands(c: Config, s: State, w: nat, x: Outside, s': State, i: nat)
    requires Steps(c, s, w, x, s') && NothingLost(c, s) && i < |c.cases| && i < s'.next
    ensures |s'.winner| == |c.cases| && (s'.winner[i] || (c.mode != Race && Held(s', i)))
  {
    hide Collides, Message, Written;
    assert Passed(c, s, s.pcs[w]);
    if i < s.next && !s.winner[i] {
      var v :| 0 <= v < |s.pcs| && Holds(i, s.pcs[v]);
      if v != w {
        assert Holds(i, s'.pcs[v]);
      } else {
        assert s'.winner[i] || Holds(i, s'.pcs[w]);
      }
    } else if !s'.winner[i] {
      assert Holds(i, s'.pcs[w]);
    }
  }

  lemma PassedStays(c: Config, s: State, s': State, pc: Pc)
    requires Shape(c, s) && Shape(c, s') && Passed(c, s, pc) && s.next <= s'.next
    requires forall i :: 0 <= i < |s.winner| && s.winner[i] ==> s'.winner[i]
    ensures Passed(c, s', pc)
  {}

  lemma KeepsPassed(c: Config, s: State, w: nat, x: Outside, s': State)
    requires Steps(c, s, w, x, s') && Shape(c, s') && NothingLost(c, s)
    ensures Passed(c, s', s'.pcs[w])
  {
    hide Collides, Message, Written, Held;
    assert Passed(c, s, s.pcs[w]);
  }

  lemma KeepsLost(c: Config, s: State, w: nat, x: Outside, s': State)
    requires Steps(c, s, w, x, s') && NothingLost(c, s)
    ensures Shape(c, s') && NothingLost(c, s')
  {
    hide Act, Passed, Held;
    KeepsShape(c, s, w, x, s');
    WinnersStay(c, s, w, x, s');
    forall i: nat | i < |c.cases| && i < s'.next
      ensures s'.winner[i] || (c.mode != Race && Held(s', i))
    {
      KeepsHands(c, s, w, x, s', i);
    }
    forall v | 0 <= v < |s'.pcs|
      ensures Passed(c, s', s'.pcs[v])
    {
      if v == w {
        KeepsPassed(c, s, w, x, s');
      } else {
        OneMoves(c, s, w, x, s');
        PassedStays(c, s, s', s.pcs[v]);
      }
    }
  }

  // ---------------------------------------------------------------- one search per task in queue mode

  /** In queue mode a task handed out is in one worker's hands, or being written, or finished. */
  ghost predicate QueueOnce(c: Config, s: State) {
    c.mode == Queue ==> forall i :: 0 <= i < |c.cases| ==> Hands(s, i) == One(i < s.next)
  }

  ghost function Hands(s: State, i: nat): nat {
    Count(s.pcs, Holder, i) + Count(s.pcs, Writer, i) + Attempts(s.log, i)
  }

  /** In queue mode nothing a worker holds can have been won by anybody else. */
  lemma NotWonElsewhere(c: Config, s: State, w: nat)
    requires Shape(c, s) && ClaimedOnce(s) && QueueOnce(c, s) && c.mode == Queue && w < c.workers
    ensures forall i :: 0 <= i < |c.cases| && Holds(i, s.pcs[w]) ==> !s.winner[i]
  {
    forall i | 0 <= i < |c.cases| && Holds(i, s.pcs[w])
      ensures !s.winner[i]
    {
      assert Hands(s, i) == One(i < s.next);
      CountSome(s.pcs, Holder, i, w);
    }
  }

  lemma QueueDelta(c: Config, s: State, w: nat, x: Outside, s': State, i: nat)
    requires Steps(c, s, w, x, s') && c.mode == Queue && i < |c.cases|
    requires forall j :: 0 <= j < |c.cases| && Holds(j, s.pcs[w]) ==> !s.winner[j]
    requires Passed(c, s, s.pcs[w])
    ensures One(Holds(i, s'.pcs[w])) + One(Plays(Writer, i, s'.pcs[w])) + Attempts(s'.log, i) + One(i < s.next)
         == One(Holds(i, s.pcs[w])) + One(Plays(Writer, i, s.pcs[w])) + Attempts(s.log, i) + One(i < s'.next)
  {
    hide Collides, Message, Written, Attempts;
    if s.pcs[w].Second? {
      AttemptsAppend(s.log, s'.log[|s.log|], i);
    }
  }

  lemma KeepsQueue(c: Config, s: State, w: nat, x: Outside, s': State)
    requires Steps(c, s, w, x, s') && ClaimedOnce(s) && QueueOnce(c, s) && NothingLost(c, s)
    ensures QueueOnce(c, s')
  {
    hide Act, ClaimedOnce, Count, Attempts, Passed, Holds;
    if c.mode == Queue {
      NotWonElsewhere(c, s, w);
      OneMoves(c, s, w, x, s');
      forall i: nat | i < |c.cases|
        ensures Hands(s', i) == One(i < s'.next)
      {
        assert Hands(s, i) == One(i < s.next);
        QueueDelta(c, s, w, x, s', i);
        ClaimDelta(c, s, w, x, s', i);
        CountUpdate(s.pcs, w, s'.pcs[w], Holder, i);
        CountUpdate(s.pcs, w, s'.pcs[w], Writer, i);
      }
    }
  }

  // ---------------------------------------------------------------- the files

  function Out(c: Config, i: nat, second: bool): string
    requires i < |c.cases|
  {
    if second then c.cases[i].tc.outfn2 else c.cases[i].tc.outfn1
  }

  function Data(c: Config, i: nat, p: Pair, second: bool): seq<bv8>
    requires i < |c.cases|
  {
    var tc := c.cases[i].tc;
    if second then Message(tc.prefix, p.m2b0, p.m2b1) else Message(tc.prefix, p.m1b0, p.m1b1)
  }

  /** No other task writes the input or an output of this one. */
  predicate LeftAlone(c: Config, i: nat)
    requires i < |c.cases|
  {
    forall j, b :: 0 <= j < |c.cases| && j != i ==>
      Out(c, j, b) != c.cases[i].infn && Out(c, j, b) != Out(c, i, false) && Out(c, j, b) != Out(c, i, true)
  }

  ghost predicate Holding(c: Config, files: map<string, seq<bv8>>, i: nat, p: Pair, second: bool)
    requires i < |c.cases|
  {
    Out(c, i, second) in files && files[Out(c, i, second)] == Data(c, i, p, second)
  }

  /** What has been written as a whole, of a task left alone, is still there. */
  ghost predicate FilesRight(c: Config, s: State)
    requires Shape(c, s)
  {
    && (forall w :: 0 <= w < |s.pcs| ==> HalfWritten(c, s.files, s.pcs[w]))
    && forall e :: 0 <= e < |s.log| ==> AllWritten(c, s.files, s.log[e])
  }

  ghost predicate HalfWritten(c: Config, files: map<string, seq<bv8>>, pc: Pc)
    requires InRange(c, pc)
  {
    match pc
    case Second(i, p, ok, whole) => (whole ==> ok) && (whole && LeftAlone(c, i) ==> Holding(c, files, i, p, false))
    case _ => true
  }

  ghost predicate AllWritten(c: Config, files: map<string, seq<bv8>>, a: Attempt)
    requires a.task < |c.cases|
  {
    (a.whole ==> a.ok)
    && (a.whole && LeftAlone(c, a.task) ==>
          && Holding(c, files, a.task, a.p, true)
          && (Out(c, a.task, false) != Out(c, a.task, true) ==> Holding(c, files, a.task, a.p, false)))
  }

  /** A write to one output leaves the others as they are. */
  lemma HoldingStays(c: Config, files: map<string, seq<bv8>>, i: nat, p: Pair, a: bool, j: nat, b: bool,
                     data: seq<bv8>, fault: Fault)
    requires i < |c.cases| && j < |c.cases| && Out(c, i, a) != Out(c, j, b)
    requires Holding(c, files, i, p, a)
    ensures Holding(c, Written(files, Out(c, j, b), data, fault), i, p, a)
  {
    hide Data;
  }

  lemma OutsApart(c: Config, i: nat, j: nat)
    requires i < |c.cases| && j < |c.cases| && i != j && LeftAlone(c, i)
    ensures forall a, b :: Out(c, i, a) != Out(c, j, b)
  {
    forall a, b
      ensures Out(c, i, a) != Out(c, j, b)
    {
      assert Out(c, i, a) == Out(c, i, false) || Out(c, i, a) == Out(c, i, true);
    }
  }

  lemma {:induction false} CountTwo(pcs: seq<Pc>, role: Role, i: nat, v: nat, w: nat)
    requires v < w < |pcs| && Plays(role, i, pcs[v]) && Plays(role, i, pcs[w])
    ensures Count(pcs, role, i) >= 2
  {
    if w < |pcs| - 1 {
      CountTwo(pcs[..|pcs| - 1], role, i, v, w);
    } else {
      CountSome(pcs[..w], role, i, v);
    }
  }

  /** A worker that is writing a task is the only one, and the task is not finished. */
  lemma AloneWriting(c: Config, s: State, w: nat)
    requires Shape(c, s) && ClaimedOnce(s) && w < c.workers && (s.pcs[w].First? || s.pcs[w].Second?)
    ensures forall v :: 0 <= v < |s.pcs| && v != w ==> !Plays(Writer, s.pcs[w].i, s.pcs[v])
    ensures forall e :: 0 <= e < |s.log| ==> s.log[e].task != s.pcs[w].i
  {
    var i := s.pcs[w].i;
    CountSome(s.pcs, Writer, i, w);
    forall v | 0 <= v < |s.pcs| && v != w
      ensures !Plays(Writer, i, s.pcs[v])
    {
      if Plays(Writer, i, s.pcs[v]) {
        if v < w {
          CountTwo(s.pcs, Writer, i, v, w);
        } else {
          CountTwo(s.pcs, Writer, i, w, v);
        }
      }
    }
    forall e | 0 <= e < |s.log|
      ensures s.log[e].task != i
    {
      if s.log[e].task == i {
        AttemptsSome(s.log, i, e);
      }
    }
  }

  /** The only files a step writes are the outputs of the task its worker is writing. */
  lemma WritesOwn(c: Config, s: State, w: nat, x: Outside, s': State)
    requires Steps(c, s, w, x, s')
    ensures s.pcs[w].First? ==>
      s'.files == Written(s.files, Out(c, s.pcs[w].i, false), Data(c, s.pcs[w].i, s.pcs[w].p, false), x.fault)
      && s'.pcs[w] == Second(s.pcs[w].i, s.pcs[w].p, Reported(x.fault), x.fault.NoFault?) && s'.log == s.log
    ensures s.pcs[w].Second? ==>
      s'.files == Written(s.files, Out(c, s.pcs[w].i, true), Data(c, s.pcs[w].i, s.pcs[w].p, true), x.fault)
      && s'.pcs[w] == Top
      && s'.log == s.log + [Attempt(s.pcs[w].i, s.pcs[w].p, s.pcs[w].ok && Reported(x.fault),
                                    s.pcs[w].whole && x.fault.NoFault?)]
    ensures !s.pcs[w].First? && !s.pcs[w].Second? ==>
      s'.files == s.files && s'.log == s.log && !s'.pcs[w].Second?
  {
    hide Collides, Message, Written;
  }

  lemma KeepsOtherWorker(c: Config, s: State, w: nat, x: Outside, s': State, v: nat)
    requires Steps(c, s, w, x, s') && Shape(c, s') && ClaimedOnce(s) && FilesRight(c, s)
    requires v < |s.pcs| && v != w
    ensures HalfWritten(c, s'.files, s.pcs[v])
  {
    hide Act, LeftAlone, Holding, Written, Data, ClaimedOnce, Out;
    WritesOwn(c, s, w, x, s');
    assert HalfWritten(c, s.files, s.pcs[v]);
    if (s.pcs[w].First? || s.pcs[w].Second?) && s.pcs[v].Second? && s.pcs[v].whole && LeftAlone(c, s.pcs[v].i) {
      AloneWriting(c, s, w);
      var i := s.pcs[w].i;
      OutsApart(c, s.pcs[v].i, i);
      HoldingStays(c, s.files, s.pcs[v].i, s.pcs[v].p, false, i, s.pcs[w].Second?,
                   Data(c, i, s.pcs[w].p, s.pcs[w].Second?), x.fault);
    }
  }

  lemma KeepsFinished(c: Config, s: State, w: nat, x: Outside, s': State, e: nat)
    requires Steps(c, s, w, x, s') && ClaimedOnce(s) && FilesRight(c, s)
    requires e < |s.log|
    ensures AllWritten(c, s'.files, s.log[e])
  {
    hide Act, LeftAlone, Holding, Written, Data, ClaimedOnce, Out;
    WritesOwn(c, s, w, x, s');
    var a := s.log[e];
    assert AllWritten(c, s.files, a);
    if (s.pcs[w].First? || s.pcs[w].Second?) && a.whole && LeftAlone(c, a.task) {
      AloneWriting(c, s, w);
      var i, second := s.pcs[w].i, s.pcs[w].Second?;
      var data := Data(c, i, s.pcs[w].p, second);
      OutsApart(c, a.task, i);
      if Out(c, a.task, false) != Out(c, a.task, true) {
        HoldingStays(c, s.files, a.task, a.p, false, i, second, data, x.fault);
      }
      HoldingStays(c, s.files, a.task, a.p, true, i, second, data, x.fault);
    }
  }

  lemma KeepsOwn(c: Config, s: State, w: nat, x: Outside, s': State)
    requires Steps(c, s, w, x, s') && Shape(c, s') && FilesRight(c, s)
    ensures HalfWritten(c, s'.files, s'.pcs[w])
    ensures s.pcs[w].Second? ==> AllWritten(c, s'.files, s'.log[|s.log|])
  {
    hide Act, Data, ClaimedOnce, LeftAlone, Out;
    WritesOwn(c, s, w, x, s');
    assert HalfWritten(c, s.files, s.pcs[w]);
    if s.pcs[w].Second? && s.pcs[w].whole && LeftAlone(c, s.pcs[w].i)
       && Out(c, s.pcs[w].i, false) != Out(c, s.pcs[w].i, true) {
      HoldingStays(c, s.files, s.pcs[w].i, s.pcs[w].p, false, s.pcs[w].i, true,
                   Data(c, s.pcs[w].i, s.pcs[w].p, true), x.fault);
    }
  }

  lemma KeepsFiles(c: Config, s: State, w: nat, x: Outside, s': State)
    requires Steps(c, s, w, x, s') && ClaimedOnce(s) && FilesRight(c, s)
    ensures Shape(c, s') && FilesRight(c, s')
  {
    hide Act, ClaimedOnce, HalfWritten, AllWritten;
    KeepsShape(c, s, w, x, s');
    WritesOwn(c, s, w, x, s');
    KeepsOwn(c, s, w, x, s');
    forall v | 0 <= v < |s'.pcs|
      ensures HalfWritten(c, s'.files, s'.pcs[v])
    {
      if v != w {
        OneMoves(c, s, w, x, s');
        KeepsOtherWorker(c, s, w, x, s', v);
      }
    }
    forall e | 0 <= e < |s'.log|
      ensures AllWritten(c, s'.files, s'.log[e])
    {
      if e < |s.log| {
        KeepsFinished(c, s, w, x, s', e);
      }
    }
  }

  // ---------------------------------------------------------------- whole runs

  ghost predicate Inv(c: Config, s: State) {
    && Shape(c, s)
    && ActiveRight(s)
    && ClaimedOnce(s)
    && ResultsRight(c, s)
    && NothingLost(c, s)
    && QueueOnce(c, s)
    && FilesRight(c, s)
  }

  /** The state after a schedule: which worker steps, and what it sees. */
  ghost function RunOf(c: Config, s: State, schedule: seq<(nat, Outside)>): Option<State>
    requires Shape(c, s)
    decreases |schedule|
  {
    if schedule == [] then Some(s)
    else
      var (w, x) := schedule[0];
      if w >= c.workers then None
      else
        var r := Act(c, s, w, x);
        if r.None? then None
        else
          KeepsShape(c, s, w, x, r.value);
          RunOf(c, r.value, schedule[1..])
  }

  lemma StartsRight(c: Config, files: map<string, seq<bv8>>)
    ensures Inv(c, Start(c, files))
  {
    var s := Start(c, files);
    forall i: nat, role
      ensures Count(s.pcs, role, i) == 0
    {
      CountNone(s.pcs, role, i);
    }
  }

  lemma KeepsInv(c: Config, s: State, w: nat, x: Outside, s': State)
    requires Steps(c, s, w, x, s') && Inv(c, s)
    ensures Inv(c, s')
  {
    hide Act, Shape, ActiveRight, ClaimedOnce, ResultsRight, NothingLost, QueueOnce, FilesRight;
    KeepsShape(c, s, w, x, s');
    KeepsActive(c, s, w, x, s');
    KeepsClaims(c, s, w, x, s');
    KeepsResults(c, s, w, x, s');
    KeepsLost(c, s, w, x, s');
    KeepsQueue(c, s, w, x, s');
    KeepsFiles(c, s, w, x, s');
  }

  /** The invariant holds after every schedule. */
  lemma {:induction false} RunKeepsInv(c: Config, s: State, schedule: seq<(nat, Outside)>)
    requires Inv(c, s)
    ensures var r := RunOf(c, s, schedule); r.Some? ==> Inv(c, r.value)
    decreases |schedule|
  {
    hide Act, Shape, ActiveRight, ClaimedOnce, ResultsRight, NothingLost, QueueOnce, FilesRight;
    if schedule != [] {
      var (w, x) := schedule[0];
      if w < c.workers {
        var r := Act(c, s, w, x);
        if r.Some? {
          KeepsInv(c, s, w, x, r.value);
          RunKeepsInv(c, r.value, schedule[1..]);
        }
      }
    }
  }

  predicate AllExited(s: State) { forall w :: 0 <= w < |s.pcs| ==> s.pcs[w].Exited? }

  /** When every worker has exited, every task is won and has exactly one attempt to write it. */
  lemma ExitedMeansDone(c: Config, s: State, i: nat)
    requires Inv(c, s) && AllExited(s) && c.workers > 0 && i < |c.cases|
    ensures s.winner[i] && s.active[i] == 0 && Attempts(s.log, i) == 1
  {
    hide FilesRight, QueueOnce, ResultsRight;
    CountNone(s.pcs, Writer, i);
    CountNone(s.pcs, Searcher, i);
    assert Passed(c, s, s.pcs[0]);
    assert !Held(s, i);
  }

  lemma {:induction false} AttemptAt(log: seq<Attempt>, i: nat) returns (e: nat)
    requires Attempts(log, i) >= 1
    ensures e < |log| && log[e].task == i
  {
    if log[|log| - 1].task == i {
      e := |log| - 1;
    } else {
      e := AttemptAt(log[..|log| - 1], i);
    }
  }

  /** A file that is no output of any task. */
  predicate NoOutput(c: Config, fn: string) { forall i, b :: 0 <= i < |c.cases| ==> Out(c, i, b) != fn }

  /** No run touches any other file than the outputs. */
  lemma {:induction false} OthersStay(c: Config, s: State, schedule: seq<(nat, Outside)>, fn: string)
    requires Shape(c, s) && NoOutput(c, fn)
    ensures var r := RunOf(c, s, schedule); r.Some? ==> SameFile(s.files, r.value.files, fn)
    decreases |schedule|
  {
    hide Act, Shape, Written, NoOutput, Out, Data;
    if schedule != [] {
      var (w, x) := schedule[0];
      if w < c.workers {
        var r := Act(c, s, w, x);
        if r.Some? {
          KeepsShape(c, s, w, x, r.value);
          OtherStays(c, s, w, x, r.value, fn);
          OthersStay(c, r.value, schedule[1..], fn);
        }
      }
    }
  }

  lemma OtherStays(c: Config, s: State, w: nat, x: Outside, s': State, fn: string)
    requires Steps(c, s, w, x, s') && NoOutput(c, fn)
    ensures SameFile(s.files, s'.files, fn)
  {
    hide Act, Data, Out;
    WritesOwn(c, s, w, x, s');
  }

  /** A task is done: one attempt to write it was made, with a collision for its own chaining value; if it
      succeeded, no closing flush lost anything and the other tasks leave its files alone, utils/verify.py passes it
      exactly if its three names differ. */
  ghost predicate Done(c: Config, s: State, i: nat) {
    && |s.winner| == |s.active| == |c.cases| && i < |c.cases|
    && s.winner[i] && s.active[i] == 0 && Attempts(s.log, i) == 1
    && exists e :: 0 <= e < |s.log| && s.log[e].task == i && AttemptDone(c, s, s.log[e])
  }

  ghost predicate AttemptDone(c: Config, s: State, a: Attempt) {
    && a.task < |c.cases| && Collides(c.cases[a.task].tc.iv, a.p)
    && (a.whole ==> a.ok)
    && (a.whole && LeftAlone(c, a.task) ==> Checked(s.files, c.cases[a.task]))
  }

  ghost predicate TaskPasses(files: map<string, seq<bv8>>, k: Task) {
    && k.infn in files && k.tc.outfn1 in files && k.tc.outfn2 in files
    && Passes(files[k.infn], files[k.tc.outfn1], files[k.tc.outfn2])
  }

  /** The check of a task, over the disk as it is at the end. */
  ghost predicate Checked(files: map<string, seq<bv8>>, k: Task) {
    && k.infn in files && k.tc.outfn1 in files && k.tc.outfn2 in files
    && (TaskPasses(files, k) <==> NamesDiffer(k.infn, k.tc.outfn1, k.tc.outfn2))
    && (NamesDiffer(k.infn, k.tc.outfn1, k.tc.outfn2) ==>
          Verified(files[k.infn], files[k.tc.outfn1], files[k.tc.outfn2]))
  }

  lemma WholeIsReported(c: Config, files: map<string, seq<bv8>>, a: Attempt)
    requires a.task < |c.cases| && AllWritten(c, files, a)
    ensures a.whole ==> a.ok
  {}

  lemma WrittenHolds(c: Config, files: map<string, seq<bv8>>, a: Attempt)
    requires a.task < |c.cases| && a.whole && LeftAlone(c, a.task) && AllWritten(c, files, a)
    ensures BothThere(files, c.cases[a.task].tc, a.p)
  {
    hide Message, LeftAlone;
  }

  lemma AloneIsNoOutput(c: Config, i: nat)
    requires i < |c.cases| && LeftAlone(c, i)
    requires c.cases[i].infn != c.cases[i].tc.outfn1 && c.cases[i].infn != c.cases[i].tc.outfn2
    ensures NoOutput(c, c.cases[i].infn)
  {}

  lemma AttemptIsDone(c: Config, files: map<string, seq<bv8>>, schedule: seq<(nat, Outside)>, s: State, e: nat)
    requires ValidConfig(c, files) && RunOf(c, Start(c, files), schedule) == Some(s) && Inv(c, s) && e < |s.log|
    ensures AttemptDone(c, s, s.log[e])
  {
    hide RunOf, Collides, Message, Verified, Passes, CaseOf, LeftAlone, ActiveRight, ClaimedOnce, NothingLost, QueueOnce,
      BothThere, AllWritten;
    var a := s.log[e];
    assert AttemptRight(c, a);
    WholeIsReported(c, s.files, a);
    if a.whole && LeftAlone(c, a.task) {
      var k := c.cases[a.task];
      assert WasRead(files, k);
      if k.infn != k.tc.outfn1 && k.infn != k.tc.outfn2 {
        AloneIsNoOutput(c, a.task);
        OthersStay(c, Start(c, files), schedule, k.infn);
      }
      WrittenHolds(c, s.files, a);
      NamesThere(s.files, k.tc, a.p);
      CheckIsOfNames(s.files, k.infn, k.input, k.tc, a.p);
    }
  }

  /** run_tasks, whatever the mode, the number of workers and the interleaving. */
  lemma RunTasks(c: Config, files: map<string, seq<bv8>>, schedule: seq<(nat, Outside)>)
    requires ValidConfig(c, files)
    ensures var r := RunOf(c, Start(c, files), schedule);
      r.Some? && AllExited(r.value) ==> forall i :: 0 <= i < |c.cases| ==> Done(c, r.value, i)
  {
    hide Inv, Start, AttemptDone, Collides, Message, CaseOf, LeftAlone, Act;
    StartsRight(c, files);
    RunKeepsInv(c, Start(c, files), schedule);
    var r := RunOf(c, Start(c, files), schedule);
    if r.Some? && AllExited(r.value) {
      var s := r.value;
      InvShape(c, s);
      forall i | 0 <= i < |c.cases|
        ensures Done(c, s, i)
      {
        ExitedMeansDone(c, s, i);
        var e := AttemptAt(s.log, i);
        AttemptIsDone(c, files, schedule, s, e);
      }
    }
  }

  /** The names are all right: no output is used twice, and none is an input. */
  predicate GoodNames(c: Config) {
    && (forall i, a, j, b :: 0 <= i < |c.cases| && 0 <= j < |c.cases| && Out(c, i, a) == Out(c, j, b) ==>
         i == j && a == b)
    && forall i, j, b :: 0 <= i < |c.cases| && 0 <= j < |c.cases| ==> c.cases[i].infn != Out(c, j, b)
  }

  /** Those are exactly the task files in which every task is left alone and has three names. */
  lemma GoodNamesAre(c: Config)
    ensures GoodNames(c) <==> forall i :: 0 <= i < |c.cases| ==>
      LeftAlone(c, i) && NamesDiffer(c.cases[i].infn, c.cases[i].tc.outfn1, c.cases[i].tc.outfn2)
  {
    if forall i :: 0 <= i < |c.cases| ==>
         LeftAlone(c, i) && NamesDiffer(c.cases[i].infn, c.cases[i].tc.outfn1, c.cases[i].tc.outfn2) {
      forall i, a, j, b | 0 <= i < |c.cases| && 0 <= j < |c.cases| && Out(c, i, a) == Out(c, j, b)
        ensures i == j && a == b
      {
        if i != j {
          OutsApart(c, i, j);
        }
      }
      forall i, j, b | 0 <= i < |c.cases| && 0 <= j < |c.cases|
        ensures c.cases[i].infn != Out(c, j, b)
      {
        assert LeftAlone(c, i);
      }
    } else if GoodNames(c) {
      forall i | 0 <= i < |c.cases|
        ensures LeftAlone(c, i) && NamesDiffer(c.cases[i].infn, c.cases[i].tc.outfn1, c.cases[i].tc.outfn2)
      {
        assert Out(c, i, false) != Out(c, i, true);
      }
    }
  }

  /** Tasks that share an output do not both pass, whatever the disk holds, unless one input is the beginning of the
      other. */
  lemma SharedOutput(c: Config, files: map<string, seq<bv8>>, i: nat, a: bool, j: nat, b: bool)
    requires i < |c.cases| && j < |c.cases| && Out(c, i, a) == Out(c, j, b)
    requires TaskPasses(files, c.cases[i]) && TaskPasses(files, c.cases[j])
    ensures files[c.cases[i].infn] <= files[c.cases[j].infn] || files[c.cases[j].infn] <= files[c.cases[i].infn]
  {}

  lemma InvShape(c: Config, s: State)
    requires Inv(c, s)
    ensures Shape(c, s)
  {}

  /** What holds in the middle of every run: active counts the searchers, no task has a second attempt, a worker
      that has left work or race mode has seen every task won, and in queue mode no task is in two hands. */
  ghost predicate Safe(c: Config, s: State) {
    && |s.winner| == |s.active| == |c.cases|
    && (forall i :: 0 <= i < |c.cases| ==> s.active[i] == Count(s.pcs, Searcher, i))
    && (forall i :: 0 <= i < |c.cases| ==> Count(s.pcs, Writer, i) + Attempts(s.log, i) <= 1)
    && (c.mode != Queue && (exists w :: 0 <= w < |s.pcs| && s.pcs[w].Exited?) ==>
          forall i :: 0 <= i < |c.cases| ==> s.winner[i])
    && (c.mode == Queue ==> forall i :: 0 <= i < |c.cases| ==> Hands(s, i) <= 1)
  }

  lemma EveryRunIsSafe(c: Config, files: map<string, seq<bv8>>, schedule: seq<(nat, Outside)>)
    ensures var r := RunOf(c, Start(c, files), schedule); r.Some? ==> Safe(c, r.value)
  {
    hide Inv, Start, Act, Safe;
    StartsRight(c, files);
    RunKeepsInv(c, Start(c, files), schedule);
    var r := RunOf(c, Start(c, files), schedule);
    if r.Some? {
      InvIsSafe(c, r.value);
    }
  }

  lemma InvIsSafe(c: Config, s: State)
    requires Inv(c, s)
    ensures Safe(c, s)
  {
    hide Hands, FilesRight, ResultsRight;
    if w :| 0 <= w < |s.pcs| && s.pcs[w].Exited? {
      assert Passed(c, s, s.pcs[w]);
    }
    if c.mode == Queue {
      forall i | 0 <= i < |c.cases|
        ensures Hands(s, i) <= 1
      {
        assert Hands(s, i) == One(i < s.next);
      }
    }
  }
}
