/** Which task a helper takes, and that a run of the driver can always be brought to its end. */
module DriverRuns {
  import opened Common
  import opened Md5
  import opened Collision
  import opened Files
  import opened Driver

  // ---------------------------------------------------------------- whom a helper helps

  /** Fewer searches, or an older start where there are as many; only the start if that is asked for. */
  predicate Needier(c: Config, x: Outside, y: Outside) {
    if c.helpOldest then x.since < y.since else x.busy < y.busy || (x.busy == y.busy && x.since < y.since)
  }

  /** Task j is the first of the neediest of those that were not seen won. */
  ghost predicate Neediest(c: Config, seen: seq<Outside>, j: nat) {
    && j < |seen| && !seen[j].seen
    && forall i :: 0 <= i < |seen| && !seen[i].seen ==>
         (i < j ==> Needier(c, seen[j], seen[i])) && (i > j ==> !Needier(c, seen[i], seen[j]))
  }

  /** Where a scan stands that has seen these values of the first tasks. */
  ghost predicate ScannedTo(c: Config, pc: Pc, seen: seq<Outside>) {
    && pc.Scan? && pc.k == |seen| <= |c.cases|
    && (pc.j == |c.cases| ==> forall i :: 0 <= i < |seen| ==> seen[i].seen)
    && (pc.j != |c.cases| ==>
          Neediest(c, seen, pc.j) && pc.fewest == seen[pc.j].busy && pc.oldest == seen[pc.j].since)
  }

  /** A scan starts with nothing seen. */
  lemma ScanStarts(c: Config, s: State, w: nat, x: Outside)
    requires Shape(c, s) && w < c.workers && s.pcs[w] == Top && c.mode == Work && s.next >= |c.cases|
    ensures Act(c, s, w, x).Some? && ScannedTo(c, Act(c, s, w, x).value.pcs[w], [])
  {}

  /** It goes through the tasks one by one, and takes one for won only if it is. */
  lemma ScanGoesOn(c: Config, s: State, w: nat, x: Outside, seen: seq<Outside>)
    requires Shape(c, s) && w < c.workers && ScannedTo(c, s.pcs[w], seen) && |seen| < |c.cases|
    ensures Act(c, s, w, x).Some? <==> (x.seen ==> s.winner[|seen|])
    ensures Act(c, s, w, x).Some? ==> ScannedTo(c, Act(c, s, w, x).value.pcs[w], seen + [x])
  {
    var pc, more := s.pcs[w], seen + [x];
    assert forall i :: 0 <= i < |seen| ==> more[i] == seen[i];
    assert more[|seen|] == x;
  }

  /** Behind the last task it helps the neediest, or exits if all were seen won. */
  lemma ScanChooses(c: Config, s: State, w: nat, x: Outside, seen: seq<Outside>)
    requires Shape(c, s) && w < c.workers && ScannedTo(c, s.pcs[w], seen) && |seen| == |c.cases|
    ensures var r := Act(c, s, w, x);
      && r.Some?
      && (r.value.pcs[w] == Exited <==> forall i :: 0 <= i < |seen| ==> seen[i].seen)
      && (r.value.pcs[w] != Exited ==> r.value.pcs[w].Enter? && Neediest(c, seen, r.value.pcs[w].i))
  {}

  // ---------------------------------------------------------------- a worker alone comes to its end

  /** What a worker sees when nobody else moves, no write fails and its searches find the given collisions. */
  function Alone(c: Config, s: State, w: nat, pairs: seq<Pair>): Outside
    requires w < |s.pcs| && |s.winner| == |pairs| == |c.cases| && InRange(c, s.pcs[w])
  {
    var seen := match s.pcs[w]
      case Check(i) => s.winner[i]
      case RaceCheck(i) => s.winner[i]
      case Scan(k, _, _, _) => k < |c.cases| && s.winner[k]
      case _ => false;
    var outcome := match s.pcs[w]
      case Search(i) => if s.winner[i] then None else Some(pairs[i])
      case _ => None;
    Outside(seen, s.next, 0, 0, outcome, NoFault)
  }

  ghost predicate Joins(c: Config, pairs: seq<Pair>) {
    |pairs| == |c.cases| && forall i :: 0 <= i < |pairs| ==> Collides(c.cases[i].tc.iv, pairs[i])
  }

  function Unwon(winner: seq<bool>): nat {
    if winner == [] then 0 else Unwon(winner[..|winner| - 1]) + One(!winner[|winner| - 1])
  }

  function Waiting(c: Config, s: State): nat { if s.next < |c.cases| then |c.cases| - s.next else 0 }

  /** How far a worker alone is from its end or from winning a task: behind `round` the way starts anew. */
  ghost function Stage(c: Config, s: State, w: nat): nat
    requires Shape(c, s) && w < c.workers
  {
    assert InRange(c, s.pcs[w]);
    var n, round := |c.cases|, |c.cases| + 10;
    match s.pcs[w]
    case Exited => 0
    case Claim(i, _) => if s.winner[i] then round + 1 else 1
    case Leave(i, r) => if r.None? then round + 1 else if s.winner[i] then round + 2 else 2
    case Search(i) => if s.winner[i] then round + 2 else 3
    case Enter(i) => if s.winner[i] then round + 3 else 4
    case Stamp(i) => if s.winner[i] then round + 4 else 5
    case Check(i) => if s.winner[i] then round + 1 else 6
    case RaceCheck(i) => if !s.winner[i] then 6 else if i == s.next then round - 1 else round + 2
    case Move(i) => if i == s.next then round - 2 else round + 1
    case Top => round
    case Scan(k, j, _, _) => (if j == n || !s.winner[j] then 7 else round + 4) + (n - k)
    case First(_, _) => round + 2
    case Second(_, _, _, _) => round + 1
  }

  lemma {:induction false} UnwonUpdate(winner: seq<bool>, i: nat)
    requires i < |winner| && !winner[i]
    ensures Unwon(winner[i := true]) + 1 == Unwon(winner)
  {
    var n := |winner| - 1;
    if i < n {
      UnwonUpdate(winner[..n], i);
      assert winner[i := true][..n] == winner[..n][i := true];
    } else {
      assert winner[i := true][..n] == winner[..n];
    }
  }

  /** The next state is nearer to the end. */
  ghost predicate Nearer(c: Config, s: State, w: nat, t: State)
    requires Shape(c, s) && Shape(c, t) && w < c.workers
  {
    || Unwon(t.winner) < Unwon(s.winner)
    || (Unwon(t.winner) == Unwon(s.winner) && Waiting(c, t) < Waiting(c, s))
    || (Unwon(t.winner) == Unwon(s.winner) && Waiting(c, t) == Waiting(c, s)
        && Stage(c, t, w) < Stage(c, s, w))
  }

  /** A worker alone always has a step, and it brings it nearer to its end. */
  lemma AloneMoves(c: Config, s: State, w: nat, pairs: seq<Pair>)
    requires Shape(c, s) && w < c.workers && !s.pcs[w].Exited? && Joins(c, pairs)
    ensures var r := Act(c, s, w, Alone(c, s, w, pairs));
      r.Some? && Shape(c, r.value) && Nearer(c, s, w, r.value)
  {
    hide Collides, Message, Written, Unwon;
    var x := Alone(c, s, w, pairs);
    if s.pcs[w].Claim? && !s.winner[s.pcs[w].i] {
      UnwonUpdate(s.winner, s.pcs[w].i);
    }
    var r := Act(c, s, w, x);
    KeepsShape(c, s, w, x, r.value);
  }

  /** The rest of a run in which only worker w moves, until it exits. */
  lemma {:induction false} AloneEnds(c: Config, s: State, w: nat, pairs: seq<Pair>)
    returns (schedule: seq<(nat, Outside)>)
    requires Shape(c, s) && w < c.workers && Joins(c, pairs)
    ensures var r := RunOf(c, s, schedule);
      && r.Some? && Shape(c, r.value) && r.value.pcs[w] == Exited
      && forall v :: 0 <= v < c.workers && v != w ==> r.value.pcs[v] == s.pcs[v]
    decreases Unwon(s.winner), Waiting(c, s), Stage(c, s, w)
  {
    hide Act, Collides, Unwon, Waiting, Stage;
    if s.pcs[w].Exited? {
      schedule := [];
    } else {
      assert InRange(c, s.pcs[w]);
      var x := Alone(c, s, w, pairs);
      AloneMoves(c, s, w, pairs);
      var t := Act(c, s, w, x).value;
      OneMoves(c, s, w, x, t);
      var rest := AloneEnds(c, t, w, pairs);
      schedule := [(w, x)] + rest;
      assert schedule[1..] == rest;
    }
  }

  lemma {:induction false} RunOn(c: Config, s: State, a: seq<(nat, Outside)>, b: seq<(nat, Outside)>)
    requires Shape(c, s) && RunOf(c, s, a).Some?
    ensures Shape(c, RunOf(c, s, a).value) && RunOf(c, s, a + b) == RunOf(c, RunOf(c, s, a).value, b)
    decreases |a|
  {
    hide Act, Shape;
    if a == [] {
      assert a + b == b;
    } else {
      var (w, x) := a[0];
      var t := Act(c, s, w, x).value;
      KeepsShape(c, s, w, x, t);
      RunOn(c, t, a[1..], b);
      assert (a + b)[1..] == a[1..] + b;
    }
  }

  lemma {:induction false} AllEnd(c: Config, s: State, pairs: seq<Pair>, from: nat)
    returns (schedule: seq<(nat, Outside)>)
    requires Shape(c, s) && Joins(c, pairs) && from <= c.workers
    requires forall v :: 0 <= v < from ==> s.pcs[v] == Exited
    ensures var r := RunOf(c, s, schedule); r.Some? && AllExited(r.value)
    decreases c.workers - from
  {
    hide Act, Joins;
    if from == c.workers {
      schedule := [];
    } else {
      var first := AloneEnds(c, s, from, pairs);
      var rest := AllEnd(c, RunOf(c, s, first).value, pairs, from + 1);
      RunOn(c, s, first, rest);
      schedule := first + rest;
    }
  }

  /** If every chaining value has a collision, every run of the driver, in every mode, can go on until all workers have
      exited; by Driver.RunTasks every task is then done. */
  lemma CanFinish(c: Config, files: map<string, seq<bv8>>, schedule: seq<(nat, Outside)>, pairs: seq<Pair>)
    returns (more: seq<(nat, Outside)>)
    requires ValidConfig(c, files) && Joins(c, pairs) && RunOf(c, Start(c, files), schedule).Some?
    ensures var r := RunOf(c, Start(c, files), schedule + more);
      r.Some? && AllExited(r.value) && forall i :: 0 <= i < |c.cases| ==> Done(c, r.value, i)
  {
    hide Act, Joins, Inv, Done;
    StartsRight(c, files);
    RunKeepsInv(c, Start(c, files), schedule);
    var s := RunOf(c, Start(c, files), schedule).value;
    InvShape(c, s);
    more := AllEnd(c, s, pairs, 0);
    RunOn(c, Start(c, files), schedule, more);
    RunTasks(c, files, schedule + more);
  }
}
