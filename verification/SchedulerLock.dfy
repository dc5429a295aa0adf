/** The lock protocol that the ticker and the admin jobs share, one SQL statement at a time: any number of processes
    take connections from a pool, try the session-level advisory lock, mark the job's row, run, mark again, unlock
    and hand the connection back. Statements may fail, processes may crash and the server may end a session. */
module SchedulerLock {
  import opened Options

  /** Where a process stands. From Entered to Finished it is between acquiring and releasing the lock. */
  datatype Phase =
    | Outside
    | Connected(conn: int)
    | Refused(conn: int)
    | Entered(conn: int)
    | Started(conn: int, marked: bool)
    | Ran(conn: int, marked: bool, failed: bool)
    | Finished(conn: int)
    | Unlocked(conn: int)

  /** pg_try_advisory_lock is granted again to the session that holds it, and each grant needs its own unlock. */
  datatype Lock = Free | Held(session: int, depth: nat)

  const RUNNING := "running"

  datatype JobRow = JobRow(status: string, runsTotal: nat)

  /** What has happened so far: sections entered and left, marks after a run that succeeded or failed, crashes inside,
      and sessions lost inside. */
  datatype Tally = Tally(entered: nat, left: nat, marked: nat, unmarked: nat, crashed: nat, crashedMarked: nat,
                         lost: nat)

  const NONE_YET := Tally(0, 0, 0, 0, 0, 0, 0)

  datatype State = State(phases: map<int, Phase>, pool: set<int>, ended: set<int>, lock: Lock, row: Option<JobRow>,
                         tally: Tally)

  datatype Step =
    | Connect(p: int, conn: int)
    | TryLock(p: int, ok: bool)
    | MarkStarted(p: int, ok: bool)
    | RunJob(p: int, failed: bool)
    | MarkFinished(p: int, ok: bool)
    | Unlock(p: int, ok: bool)
    | Disconnect(p: int, closed: bool)
    | Crash(p: int)
    | Drop(conn: int)

  function PhaseOf(s: State, p: int): Phase {
    if p in s.phases then s.phases[p] else Outside
  }

  predicate InSection(f: Phase) {
    f.Entered? || f.Started? || f.Ran? || f.Finished?
  }

  /** Entered and not yet back outside. */
  predicate Inside(f: Phase) {
    InSection(f) || f.Unlocked?
  }

  predicate Holds(s: State, p: int, conn: int) {
    !PhaseOf(s, p).Outside? && PhaseOf(s, p).conn == conn
  }

  ghost predicate Unheld(s: State, conn: int) {
    forall p | p in s.phases :: !Holds(s, p, conn)
  }

  // ----- the steps -----

  ghost predicate Enabled(s: State, step: Step) {
    match step
    case Connect(p, conn) => PhaseOf(s, p).Outside? && conn !in s.ended && Unheld(s, conn)
    case TryLock(p, ok) => PhaseOf(s, p).Connected? && (ok ==> PhaseOf(s, p).conn !in s.ended)
    case MarkStarted(p, _) => PhaseOf(s, p).Entered?
    case RunJob(p, _) => PhaseOf(s, p).Started?
    case MarkFinished(p, _) => PhaseOf(s, p).Ran?
    case Unlock(p, ok) => PhaseOf(s, p).Finished? && (ok ==> PhaseOf(s, p).conn !in s.ended)
    case Disconnect(p, closed) =>
      (PhaseOf(s, p).Refused? || PhaseOf(s, p).Unlocked?) && (PhaseOf(s, p).conn in s.ended ==> closed)
    case Crash(p) => !PhaseOf(s, p).Outside?
    case Drop(conn) => conn !in s.ended
  }

  function Moved(s: State, p: int, f: Phase): State {
    s.(phases := s.phases[p := f])
  }

  /** The end of a session frees what it holds. */
  function EndSession(s: State, conn: int): State {
    s.(pool := s.pool - {conn}, ended := s.ended + {conn},
       lock := if s.lock.Held? && s.lock.session == conn then Free else s.lock)
  }

  function RunsTotal(s: State): nat {
    if s.row.Some? then s.row.value.runsTotal else 0
  }

  function Next(s: State, step: Step): State
    requires Enabled(s, step)
  {
    match step
    case Connect(p, conn) => Moved(s, p, Connected(conn)).(pool := s.pool - {conn})
    case TryLock(p, ok) =>
      var conn := PhaseOf(s, p).conn;
      if !ok || (s.lock.Held? && s.lock.session != conn) then Moved(s, p, Refused(conn))
      else Moved(s, p, Entered(conn)).(lock := Held(conn, if s.lock.Held? then s.lock.depth + 1 else 1),
                                       tally := s.tally.(entered := s.tally.entered + 1))
    case MarkStarted(p, ok) =>
      Moved(s, p, Started(PhaseOf(s, p).conn, ok)).(row := if ok then Some(JobRow(RUNNING, RunsTotal(s))) else s.row)
    case RunJob(p, failed) => Moved(s, p, Ran(PhaseOf(s, p).conn, PhaseOf(s, p).marked, failed))
    case MarkFinished(p, ok) =>
      var n := Moved(s, p, Finished(PhaseOf(s, p).conn));
      if ok then
        n.(row := Some(JobRow(if PhaseOf(s, p).failed then "error" else "ok", RunsTotal(s) + 1)),
           tally := s.tally.(marked := s.tally.marked + 1))
      else n.(tally := s.tally.(unmarked := s.tally.unmarked + 1))
    case Unlock(p, ok) =>
      var conn := PhaseOf(s, p).conn;
      var n := Moved(s, p, Unlocked(conn));
      if !ok then n
      else if s.lock.Held? && s.lock.session == conn then
        n.(lock := if s.lock.depth <= 1 then Free else Held(conn, s.lock.depth - 1))
      else n
    case Disconnect(p, closed) =>
      var conn := PhaseOf(s, p).conn;
      var n := Moved(s, p, Outside).(tally := if PhaseOf(s, p).Unlocked? then s.tally.(left := s.tally.left + 1)
                                     else s.tally);
      if closed then EndSession(n, conn) else n.(pool := s.pool + {conn})
    case Crash(p) =>
      var f := PhaseOf(s, p);
      EndSession(Moved(s, p, Outside), f.conn).(tally :=
        if !Inside(f) then s.tally
        else if f.Finished? || f.Unlocked? then s.tally.(crashed := s.tally.crashed + 1,
                                                         crashedMarked := s.tally.crashedMarked + 1)
        else s.tally.(crashed := s.tally.crashed + 1))
    case Drop(conn) =>
      EndSession(s, conn).(tally :=
        if exists p | p in s.phases :: Holds(s, p, conn) && InSection(PhaseOf(s, p))
        then s.tally.(lost := s.tally.lost + 1) else s.tally)
  }

  ghost predicate Initial(s: State) {
    && s.phases == map[] && s.pool == {} && s.ended == {} && s.lock == Free && s.tally == NONE_YET
    && (s.row.Some? ==> s.row.value.status != RUNNING)
  }

  /** The steps can be taken one after the other; each run is some interleaving of the processes' statements. */
  ghost predicate Runs(s: State, steps: seq<Step>)
    decreases |steps|
  {
    steps == [] || (Enabled(s, steps[0]) && Runs(Next(s, steps[0]), steps[1..]))
  }

  ghost function After(s: State, steps: seq<Step>): State
    requires Runs(s, steps)
    decreases |steps|
  {
    if steps == [] then s else After(Next(s, steps[0]), steps[1..])
  }

  // ----- mutual exclusion -----

  /** Connections are used by one process at a time, and a process inside the section whose session is alive owns the
      lock. */
  ghost predicate Exclusive(s: State) {
    && s.pool !! s.ended
    && (forall p | p in s.phases && !PhaseOf(s, p).Outside? :: PhaseOf(s, p).conn !in s.pool)
    && (forall p, q | p in s.phases && q in s.phases && p != q && !PhaseOf(s, p).Outside? && !PhaseOf(s, q).Outside? ::
          PhaseOf(s, p).conn != PhaseOf(s, q).conn)
    && (forall p | p in s.phases && InSection(PhaseOf(s, p)) && PhaseOf(s, p).conn !in s.ended ::
          s.lock.Held? && s.lock.session == PhaseOf(s, p).conn)
    && (s.lock.Held? ==> s.lock.depth >= 1 && s.lock.session !in s.ended)
  }

  /** A section whose session has ended is on the tally of lost sessions. */
  ghost predicate LossesCounted(s: State) {
    s.tally.lost == 0 ==> forall p | p in s.phases && InSection(PhaseOf(s, p)) :: PhaseOf(s, p).conn !in s.ended
  }

  lemma NextIsExclusive(s: State, step: Step)
    requires Exclusive(s) && Enabled(s, step)
    ensures Exclusive(Next(s, step))
  {
  }

  lemma NextCountsLosses(s: State, step: Step)
    requires Exclusive(s) && LossesCounted(s) && Enabled(s, step)
    ensures LossesCounted(Next(s, step))
  {
  }

  // ----- the row and the lock -----

  predicate Marked(f: Phase) {
    (f.Started? || f.Ran?) && f.marked
  }

  /** No mark after a run failed, no process crashed before that mark, no session was lost inside. */
  predicate Untroubled(n: Tally) {
    n.unmarked == 0 && n.crashed == n.crashedMarked && n.lost == 0
  }

  ghost predicate SomeMarked(s: State) {
    exists p :: p in s.phases && Marked(PhaseOf(s, p))
  }

  /** The row says running exactly while a process is between its two marks. */
  ghost predicate StatusTrue(s: State) {
    Untroubled(s.tally) ==> ((s.row.Some? && s.row.value.status == RUNNING) <==> SomeMarked(s))
  }

  ghost predicate SomeOwner(s: State, session: int) {
    exists p :: p in s.phases && InSection(PhaseOf(s, p)) && PhaseOf(s, p).conn == session
  }

  lemma NextKeepsStatus(s: State, step: Step)
    requires Exclusive(s) && LossesCounted(s) && StatusTrue(s) && s.tally.crashedMarked <= s.tally.crashed
      && Enabled(s, step)
    ensures StatusTrue(Next(s, step)) && Next(s, step).tally.crashedMarked <= Next(s, step).tally.crashed
  {
    var t := Next(s, step);
    match step
    case MarkStarted(p, ok) =>
      if ok {
        assert Marked(PhaseOf(t, p));
      }
      OnlyOneMoves(s, p);
      assert forall q | q in s.phases && q != p :: PhaseOf(t, q) == PhaseOf(s, q);
    case RunJob(p, failed) =>
      assert forall q | q in s.phases && q != p :: PhaseOf(t, q) == PhaseOf(s, q);
      assert Marked(PhaseOf(t, p)) <==> Marked(PhaseOf(s, p));
    case MarkFinished(p, ok) =>
      OnlyOneMoves(s, p);
      assert forall q | q in s.phases && q != p :: PhaseOf(t, q) == PhaseOf(s, q);
    case Drop(conn) =>
      assert forall q | q in s.phases :: PhaseOf(t, q) == PhaseOf(s, q);
    case Connect(p, _) =>
      assert forall q | q in s.phases && q != p :: PhaseOf(t, q) == PhaseOf(s, q);
    case TryLock(p, _) =>
      assert forall q | q in s.phases && q != p :: PhaseOf(t, q) == PhaseOf(s, q);
    case Unlock(p, _) =>
      assert forall q | q in s.phases && q != p :: PhaseOf(t, q) == PhaseOf(s, q);
    case Disconnect(p, _) =>
      assert forall q | q in s.phases && q != p :: PhaseOf(t, q) == PhaseOf(s, q);
    case Crash(p) =>
      assert forall q | q in s.phases && q != p :: PhaseOf(t, q) == PhaseOf(s, q);
  }

  /** Without lost sessions nobody else is inside while p is. */
  lemma OnlyOneMoves(s: State, p: int)
    requires Exclusive(s) && LossesCounted(s) && InSection(PhaseOf(s, p))
    ensures s.tally.lost == 0 ==> forall q | q in s.phases && q != p :: !InSection(PhaseOf(s, q))
  {
  }

  // ----- conservation -----

  function InsideNow(s: State): set<int> {
    set p | p in s.phases && Inside(s.phases[p])
  }

  predicate Past(f: Phase) {
    f.Finished? || f.Unlocked?
  }

  function PastMark(s: State): set<int> {
    set p | p in s.phases && Past(s.phases[p])
  }

  /** Every section entered is left, crashed or still inside; every one that reached its final mark is counted in the
      row unless that mark failed. */
  ghost predicate Balanced(s: State, runsBefore: nat) {
    && s.tally.entered == s.tally.left + s.tally.crashed + |InsideNow(s)|
    && s.tally.marked + s.tally.unmarked == s.tally.left + s.tally.crashedMarked + |PastMark(s)|
    && RunsTotal(s) == runsBefore + s.tally.marked
  }

  lemma MoveCounts(s: State, p: int, f: Phase)
    ensures |InsideNow(Moved(s, p, f))| == |InsideNow(s)|
      + (if Inside(f) then 1 else 0) - (if Inside(PhaseOf(s, p)) then 1 else 0)
    ensures |PastMark(Moved(s, p, f))| == |PastMark(s)|
      + (if Past(f) then 1 else 0) - (if Past(PhaseOf(s, p)) then 1 else 0)
  {
    hide Inside, Past;
    OutsideIsNowhere();
    MovedSets(s, p, f);
    PutCounts(InsideNow(s), p, Inside(f));
    PutCounts(PastMark(s), p, Past(f));
    hide Put, Moved;
  }

  lemma MovedSets(s: State, p: int, f: Phase)
    ensures InsideNow(Moved(s, p, f)) == Put(InsideNow(s), p, Inside(f))
    ensures PastMark(Moved(s, p, f)) == Put(PastMark(s), p, Past(f))
  {
    hide Inside, Past;
  }

  function Put(users: set<int>, p: int, present: bool): set<int> {
    users - {p} + if present then {p} else {}
  }

  lemma PutCounts(users: set<int>, p: int, present: bool)
    ensures |Put(users, p, present)| == |users| + (if present then 1 else 0) - (if p in users then 1 else 0)
  {
    if p in users {
      assert users == users - {p} + {p};
    } else {
      assert users == users - {p};
    }
  }

  lemma OutsideIsNowhere()
    ensures !Inside(Outside) && !Past(Outside)
  {
  }

  lemma SameSets(s: State, t: State)
    requires s.phases == t.phases
    ensures InsideNow(s) == InsideNow(t) && PastMark(s) == PastMark(t)
  {
  }

  lemma NextBalances(s: State, step: Step, runsBefore: nat)
    requires Balanced(s, runsBefore) && Enabled(s, step)
    ensures Balanced(Next(s, step), runsBefore)
  {
    hide InsideNow, PastMark;
    if step.Drop? {
      SameSets(s, Next(s, step));
    } else {
      var f := PhaseOf(Next(s, step), step.p);
      MoveCounts(s, step.p, f);
      SameSets(Moved(s, step.p, f), Next(s, step));
    }
  }

  // ----- every run -----

  ghost predicate Invariant(s: State, runsBefore: nat) {
    && Exclusive(s) && LossesCounted(s) && StatusTrue(s) && Balanced(s, runsBefore)
    && s.tally.crashedMarked <= s.tally.crashed
  }

  lemma InitialHolds(s: State)
    requires Initial(s)
    ensures Invariant(s, RunsTotal(s))
  {
    assert InsideNow(s) == {} && PastMark(s) == {};
  }

  lemma {:induction false} InvariantHolds(s: State, steps: seq<Step>, runsBefore: nat)
    requires Invariant(s, runsBefore) && Runs(s, steps)
    ensures Invariant(After(s, steps), runsBefore)
    decreases |steps|
  {
    hide Enabled, Next, Exclusive, LossesCounted, StatusTrue, Balanced;
    if steps != [] {
      NextIsExclusive(s, steps[0]);
      NextCountsLosses(s, steps[0]);
      NextKeepsStatus(s, steps[0]);
      NextBalances(s, steps[0], runsBefore);
      InvariantHolds(Next(s, steps[0]), steps[1..], runsBefore);
    }
  }

  /** Mutual exclusion, for any number of processes, any interleaving and any failing statements: of the processes
      between acquire and release at most one still has its session, and there is at most one at all unless the server
      ended a session inside its section. */
  lemma MutualExclusion(s: State, steps: seq<Step>, p: int, q: int)
    requires Initial(s) && Runs(s, steps)
    requires var t := After(s, steps); InSection(PhaseOf(t, p)) && InSection(PhaseOf(t, q))
    ensures var t := After(s, steps);
      PhaseOf(t, p).conn !in t.ended && PhaseOf(t, q).conn !in t.ended ==> p == q
    ensures After(s, steps).tally.lost == 0 ==> p == q
  {
    InitialHolds(s);
    InvariantHolds(s, steps, RunsTotal(s));
    hide StatusTrue, Balanced;
  }

  /** The row says running exactly while some process that holds the lock is between its two marks, provided no final
      mark failed, no process crashed before it and no session was lost inside. */
  lemma RunningMeansLocked(s: State, steps: seq<Step>)
    requires Initial(s) && Runs(s, steps) && Untroubled(After(s, steps).tally)
    ensures var t := After(s, steps);
      (t.row.Some? && t.row.value.status == RUNNING) <==>
      exists p :: p in t.phases && Marked(PhaseOf(t, p)) && t.lock.Held? && t.lock.session == PhaseOf(t, p).conn
  {
    InitialHolds(s);
    InvariantHolds(s, steps, RunsTotal(s));
    hide Balanced;
    var t := After(s, steps);
    if SomeMarked(t) {
      var p :| p in t.phases && Marked(PhaseOf(t, p));
      assert InSection(PhaseOf(t, p)) && t.lock.session == PhaseOf(t, p).conn;
    }
  }

  /** The counter grows by exactly the sections that got past their final mark, less the final marks that failed;
      with nobody inside, no crash and no failed mark, by exactly the sections entered. */
  lemma RunsTotalCounts(s: State, steps: seq<Step>)
    requires Initial(s) && Runs(s, steps)
    ensures var t := After(s, steps);
      && RunsTotal(t) + t.tally.unmarked == RunsTotal(s) + t.tally.left + t.tally.crashedMarked + |PastMark(t)|
      && (InsideNow(t) == {} && t.tally.crashed == 0 && t.tally.unmarked == 0
          ==> RunsTotal(t) == RunsTotal(s) + t.tally.entered)
  {
    InitialHolds(s);
    InvariantHolds(s, steps, RunsTotal(s));
    hide Exclusive, LossesCounted, StatusTrue;
    var t := After(s, steps);
    forall p | p in PastMark(t)
      ensures p in InsideNow(t)
    {
      assert Past(t.phases[p]) && Inside(t.phases[p]);
    }
    assert PastMark(t) <= InsideNow(t);
  }

  // ----- exactly when the lock is held -----

  /** The step is an unlock on this connection that fails. */
  predicate UnlockFails(s: State, step: Step, conn: int) {
    step.Unlock? && !step.ok && Holds(s, step.p, conn)
  }

  ghost function FailedUnlocks(s: State, steps: seq<Step>, conn: int): nat
    requires Runs(s, steps)
    decreases |steps|
  {
    if steps == [] then 0
    else (if UnlockFails(s, steps[0], conn) then 1 else 0) + FailedUnlocks(Next(s, steps[0]), steps[1..], conn)
  }

  function Depth(s: State, conn: int): nat {
    if s.lock.Held? && s.lock.session == conn then s.lock.depth else 0
  }

  /** A live session holds the lock once for a process inside and once for each unlock that failed on it. */
  ghost predicate DepthCounts(s: State, conn: int, failed: nat) {
    conn !in s.ended ==> Depth(s, conn) == failed + if SomeOwner(s, conn) then 1 else 0
  }

  predicate Owns(s: State, p: int, conn: int) {
    InSection(PhaseOf(s, p)) && PhaseOf(s, p).conn == conn
  }

  lemma OwnerMoves(s: State, t: State, p: int, conn: int)
    requires Exclusive(s) && forall q | q != p :: PhaseOf(t, q) == PhaseOf(s, q)
    ensures SomeOwner(t, conn) <==> Owns(t, p, conn) || (SomeOwner(s, conn) && !Owns(s, p, conn))
  {
    if q :| q in t.phases && Owns(t, q, conn) && q != p {
      assert Owns(s, q, conn);
    }
    if q :| q in s.phases && Owns(s, q, conn) && !Owns(s, p, conn) {
      assert Owns(t, q, conn);
    }
    assert Owns(t, p, conn) ==> p in t.phases;
  }

  lemma NextCountsDepth(s: State, step: Step, conn: int, failed: nat)
    requires Exclusive(s) && DepthCounts(s, conn, failed) && Enabled(s, step)
    ensures DepthCounts(Next(s, step), conn, failed + if UnlockFails(s, step, conn) then 1 else 0)
  {
    var t := Next(s, step);
    if step.Drop? {
      assert forall q :: PhaseOf(t, q) == PhaseOf(s, q);
    } else if conn !in t.ended {
      OwnerMoves(s, t, step.p, conn);
      hide SomeOwner;
    }
  }

  lemma {:induction false} DepthAfter(s: State, steps: seq<Step>, conn: int, failed: nat)
    requires Exclusive(s) && DepthCounts(s, conn, failed) && Runs(s, steps)
    ensures DepthCounts(After(s, steps), conn, failed + FailedUnlocks(s, steps, conn))
    decreases |steps|
  {
    hide Enabled, Next, Exclusive, DepthCounts, UnlockFails;
    if steps != [] {
      NextIsExclusive(s, steps[0]);
      NextCountsDepth(s, steps[0], conn, failed);
      DepthAfter(Next(s, steps[0]), steps[1..], conn, failed + if UnlockFails(s, steps[0], conn) then 1 else 0);
    }
  }

  /** A session holds the lock exactly when it is alive and a process is inside on it or an unlock has failed on it; it
      holds it once for each of these. */
  lemma HeldIff(s: State, steps: seq<Step>, conn: int)
    requires Initial(s) && Runs(s, steps)
    ensures var (t, failed) := (After(s, steps), FailedUnlocks(s, steps, conn));
      && (t.lock.Held? && t.lock.session == conn <==> conn !in t.ended && (SomeOwner(t, conn) || failed > 0))
      && (conn !in t.ended ==> Depth(t, conn) == failed + if SomeOwner(t, conn) then 1 else 0)
  {
    InitialHolds(s);
    InvariantHolds(s, steps, RunsTotal(s));
    assert !SomeOwner(s, conn);
    DepthAfter(s, steps, conn, 0);
    hide StatusTrue, Balanced, SomeOwner;
  }

  /** A run with one more step in front. */
  lemma Before(s: State, step: Step, rest: seq<Step>) returns (steps: seq<Step>)
    requires Enabled(s, step) && Runs(Next(s, step), rest)
    ensures steps == [step] + rest && Runs(s, steps) && After(s, steps) == After(Next(s, step), rest)
  {
    steps := [step] + rest;
    assert steps[1..] == rest;
  }

  /** The condition on lost sessions is needed: if the server ends the session of a process inside, another enters
      beside it. */
  lemma LostSessionLetsTwoIn(s: State) returns (steps: seq<Step>)
    requires Initial(s)
    ensures Runs(s, steps) && InSection(PhaseOf(After(s, steps), 1)) && InSection(PhaseOf(After(s, steps), 2))
  {
    var a := Next(s, Connect(1, 10));
    var b := Next(a, TryLock(1, true));
    var c := Next(b, Drop(10));
    var d := Next(c, Connect(2, 20));
    hide Runs;
    NoSteps(Next(d, TryLock(2, true)));
    steps := Before(d, TryLock(2, true), []);
    steps := Before(c, Connect(2, 20), steps);
    steps := Before(b, Drop(10), steps);
    steps := Before(a, TryLock(1, true), steps);
    steps := Before(s, Connect(1, 10), steps);
  }

  lemma NoSteps(s: State)
    ensures Runs(s, []) && After(s, []) == s
  {
  }

  /** The condition on unlocks is needed too: an unlock that fails on a connection that goes back to the pool
      leaves the lock held with nobody inside. */
  lemma FailedUnlockLeaks(s: State) returns (steps: seq<Step>)
    requires Initial(s)
    ensures Runs(s, steps) && After(s, steps).lock == Held(10, 1) && PhaseOf(After(s, steps), 1).Outside?
      && After(s, steps).phases.Keys == {1}
  {
    var a := Next(s, Connect(1, 10));
    var b := Next(a, TryLock(1, true));
    var c := Next(b, MarkStarted(1, true));
    var d := Next(c, RunJob(1, false));
    var e := Next(d, MarkFinished(1, true));
    var f := Next(e, Unlock(1, false));
    hide Runs;
    NoSteps(Next(f, Disconnect(1, false)));
    steps := Before(f, Disconnect(1, false), []);
    steps := Before(e, Unlock(1, false), steps);
    steps := Before(d, MarkFinished(1, true), steps);
    steps := Before(c, RunJob(1, false), steps);
    steps := Before(b, MarkStarted(1, true), steps);
    steps := Before(a, TryLock(1, true), steps);
    steps := Before(s, Connect(1, 10), steps);
  }

  // ----- exactly when a process inside is no longer protected -----

  /** The step is not the process's own and does not end the given session. */
  predicate Spares(step: Step, p: int, conn: int) {
    match step
    case Drop(c) => c != conn
    case _ => step.p != p
  }

  ghost predicate AllSpare(steps: seq<Step>, p: int, conn: int) {
    forall step | step in steps :: Spares(step, p, conn)
  }

  /** The process is inside, owns the lock and keeps its session. */
  ghost predicate Protected(s: State, p: int, conn: int) {
    p in s.phases && InSection(PhaseOf(s, p)) && PhaseOf(s, p).conn == conn && conn !in s.ended && s.lock.Held?
      && s.lock.session == conn
  }

  lemma NextKeepsProtected(s: State, step: Step, p: int, conn: int)
    requires Exclusive(s) && Protected(s, p, conn) && Enabled(s, step) && Spares(step, p, conn)
    ensures Protected(Next(s, step), p, conn) && Next(s, step).tally.entered == s.tally.entered
  {
    if !step.Drop? && step.p in s.phases && !PhaseOf(s, step.p).Outside? {
      assert PhaseOf(s, step.p).conn != PhaseOf(s, p).conn;
    }
  }

  lemma {:induction false} ProtectedKeepsOthersOut(s: State, steps: seq<Step>, p: int, conn: int)
    requires Exclusive(s) && Protected(s, p, conn) && Runs(s, steps) && AllSpare(steps, p, conn)
    ensures After(s, steps).tally.entered == s.tally.entered
    decreases |steps|
  {
    hide Exclusive, Protected, Enabled, Next, Spares;
    if steps != [] {
      assert steps[0] in steps && forall step | step in steps[1..] :: step in steps;
      NextIsExclusive(s, steps[0]);
      NextKeepsProtected(s, steps[0], p, conn);
      ProtectedKeepsOthersOut(Next(s, steps[0]), steps[1..], p, conn);
    }
  }

  lemma {:induction false} UnusedNumber(used: set<int>) returns (n: int)
    ensures n !in used && forall x | x in used :: x < n
  {
    if used == {} {
      n := 0;
    } else {
      HasElement(used);
      var x :| x in used;
      var m := UnusedNumber(used - {x});
      n := if m > x then m else x + 1;
      forall y | y in used
        ensures y < n
      {
        assert y == x || y in used - {x};
      }
    }
  }

  function ConnsHeld(s: State): set<int> {
    set p | p in s.phases && !s.phases[p].Outside? :: s.phases[p].conn
  }

  /** With the lock free a newcomer on a new session gets in. */
  lemma NewcomerEnters(s: State, p: int) returns (steps: seq<Step>, q: int)
    requires s.lock == Free
    ensures Runs(s, steps) && After(s, steps).tally.entered == s.tally.entered + 1
    ensures q != p && InSection(PhaseOf(After(s, steps), q)) && forall conn :: AllSpare(steps, p, conn)
  {
    q := UnusedNumber(s.phases.Keys + {p});
    var conn := UnusedNumber(s.ended + ConnsHeld(s));
    assert Unheld(s, conn) by {
      forall x | x in s.phases
        ensures !Holds(s, x, conn)
      {
        if !s.phases[x].Outside? {
          assert s.phases[x].conn in ConnsHeld(s);
        }
      }
    }
    var a := Next(s, Connect(q, conn));
    NoSteps(Next(a, TryLock(q, true)));
    hide Runs;
    steps := Before(a, TryLock(q, true), []);
    steps := Before(s, Connect(q, conn), steps);
  }

  /** Exactly when mutual exclusion can fail beside a process inside: in a continuation in which it takes no step and
      its session is not ended, another process can enter if and only if its session had already ended. */
  lemma OthersCanEnterIff(s: State, p: int)
    requires Exclusive(s) && p in s.phases && InSection(PhaseOf(s, p))
    ensures var conn := PhaseOf(s, p).conn;
      (exists steps :: Runs(s, steps) && AllSpare(steps, p, conn) && After(s, steps).tally.entered > s.tally.entered)
        <==> conn in s.ended
  {
    var conn := PhaseOf(s, p).conn;
    if conn !in s.ended {
      forall steps | Runs(s, steps) && AllSpare(steps, p, conn)
        ensures After(s, steps).tally.entered == s.tally.entered
      {
        ProtectedKeepsOthersOut(s, steps, p, conn);
      }
    } else if s.lock.Free? {
      var steps, _ := NewcomerEnters(s, p);
    } else {
      var session := s.lock.session;
      var a := Next(s, Drop(session));
      var steps, _ := NewcomerEnters(a, p);
      assert AllSpare(steps, p, conn);
      var all := Before(s, Drop(session), steps);
      assert AllSpare(all, p, conn);
    }
  }
}
