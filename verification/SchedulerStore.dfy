/** One locked run as the schedulers and the import runner write it, over a store whose methods are the protocol's
    statements. */
module SchedulerStore {
  import opened SchedulerLock

  /** How the calls of one locked run turn out; `connectOk` says whether the pool hands out a connection and `closed`
      whether it is discarded at the end. */
  datatype Outcomes = Outcomes(connectOk: bool, conn: int, tryOk: bool, startOk: bool, runFails: bool, finishOk: bool,
                               unlockOk: bool, closed: bool)

  datatype Result = LockError | LockBusy | Done(failed: bool)

  /** The statements of a run that does not get the lock: none at all without a connection. */
  function Refusal(p: int, o: Outcomes): seq<Step> {
    if o.connectOk then [Connect(p, o.conn), TryLock(p, o.tryOk), Disconnect(p, o.closed)] else []
  }

  function Acquiring(p: int, o: Outcomes): seq<Step> {
    [Connect(p, o.conn), TryLock(p, o.tryOk)]
  }

  function InsideAndOut(p: int, o: Outcomes): seq<Step> {
    [MarkStarted(p, o.startOk), RunJob(p, o.runFails), MarkFinished(p, o.finishOk), Unlock(p, o.unlockOk),
     Disconnect(p, o.closed)]
  }

  /** The statements of a run that gets the lock. */
  function Section(p: int, o: Outcomes): seq<Step> {
    Acquiring(p, o) + InsideAndOut(p, o)
  }

  predicate Granted(s: State, o: Outcomes) {
    o.connectOk && o.tryOk && (s.lock.Held? ==> s.lock.session == o.conn)
  }

  function LockedRun(s: State, p: int, o: Outcomes): seq<Step> {
    if Granted(s, o) then Section(p, o) else Refusal(p, o)
  }

  /** The process is outside and a connection that it gets is live and free. */
  ghost predicate CanStart(s: State, p: int, o: Outcomes) {
    PhaseOf(s, p).Outside? && (o.connectOk ==> o.conn !in s.ended && Unheld(s, o.conn))
  }

  lemma {:induction false} RunsFurther(s: State, steps: seq<Step>, step: Step)
    requires Runs(s, steps) && Enabled(After(s, steps), step)
    ensures Runs(s, steps + [step]) && After(s, steps + [step]) == Next(After(s, steps), step)
    decreases |steps|
  {
    hide Enabled, Next;
    if steps == [] {
      assert [] + [step] == [step] && [step][1..] == [];
    } else {
      RunsFurther(Next(s, steps[0]), steps[1..], step);
      assert (steps + [step])[1..] == steps[1..] + [step];
    }
  }

  /** What a process inside does, statement by statement, up to its final mark. */
  lemma SectionEffect(s: State, p: int, o: Outcomes)
    requires PhaseOf(s, p) == Entered(o.conn) && o.conn !in s.ended
    ensures Enabled(s, MarkStarted(p, o.startOk))
    ensures Enabled(Next(s, MarkStarted(p, o.startOk)), RunJob(p, o.runFails))
    ensures Enabled(Next(Next(s, MarkStarted(p, o.startOk)), RunJob(p, o.runFails)), MarkFinished(p, o.finishOk))
    ensures var e := Next(Next(Next(s, MarkStarted(p, o.startOk)), RunJob(p, o.runFails)), MarkFinished(p, o.finishOk));
      && e.lock == s.lock && PhaseOf(e, p) == Finished(o.conn) && e.ended == s.ended
      && RunsTotal(e) == RunsTotal(s) + (if o.finishOk then 1 else 0)
      && (o.finishOk ==> e.row.Some? && e.row.value.status == if o.runFails then "error" else "ok")
  {
  }

  /** What release does. */
  lemma ReleaseEffect(s: State, p: int, o: Outcomes)
    requires PhaseOf(s, p) == Finished(o.conn) && o.conn !in s.ended
    ensures Enabled(s, Unlock(p, o.unlockOk))
    ensures Enabled(Next(s, Unlock(p, o.unlockOk)), Disconnect(p, o.closed))
    ensures var g := Next(Next(s, Unlock(p, o.unlockOk)), Disconnect(p, o.closed));
      && PhaseOf(g, p).Outside? && g.row == s.row
      && (s.lock == Held(o.conn, 1) ==> g.lock == if o.unlockOk || o.closed then Free else Held(o.conn, 1))
  {
  }

  /** What acquiring does. */
  lemma AcquireEffect(s: State, p: int, o: Outcomes)
    requires CanStart(s, p, o) && Exclusive(s) && o.connectOk
    ensures Enabled(s, Connect(p, o.conn))
    ensures Enabled(Next(s, Connect(p, o.conn)), TryLock(p, o.tryOk))
    ensures var b := Next(Next(s, Connect(p, o.conn)), TryLock(p, o.tryOk));
      && b.row == s.row && b.ended == s.ended
      && (Granted(s, o) ==> PhaseOf(b, p) == Entered(o.conn) && (s.lock == Free ==> b.lock == Held(o.conn, 1)))
      && (!Granted(s, o) ==>
          PhaseOf(b, p) == Refused(o.conn) && b.lock == s.lock && Enabled(b, Disconnect(p, o.closed)))
  {
  }

  class Store {
    var state: State

    constructor (s: State)
      ensures state == s
    {
      state := s;
    }

    /** One statement against the database. */
    method Execute(step: Step, ghost start: State, ghost done: seq<Step>) returns (ghost steps: seq<Step>)
      requires Runs(start, done) && state == After(start, done) && Enabled(state, step)
      modifies this
      ensures state == Next(old(state), step)
      ensures steps == done + [step] && Runs(start, steps) && state == After(start, steps)
    {
      hide Next, Enabled;
      RunsFurther(start, done, step);
      state := Next(state, step);
      steps := done + [step];
    }

    method AcquireSchedulerLock(p: int, o: Outcomes) returns (acquired: bool, error: bool, ghost steps: seq<Step>)
      requires CanStart(state, p, o) && Exclusive(state)
      modifies this
      ensures Runs(old(state), steps) && state == After(old(state), steps)
      ensures acquired <==> Granted(old(state), o)
      ensures !acquired ==> error == !(o.connectOk && o.tryOk) && steps == Refusal(p, o)
      ensures !o.connectOk ==> state == old(state)
      ensures acquired ==> !error && PhaseOf(state, p) == Entered(o.conn) && o.conn !in state.ended
      ensures acquired ==> steps == Acquiring(p, o)
    {
      ghost var start := state;
      NoSteps(start);
      if !o.connectOk {
        return false, true, [];
      }
      hide Runs;
      steps := Execute(Connect(p, o.conn), start, []);
      steps := Execute(TryLock(p, o.tryOk), start, steps);
      acquired, error := state.phases[p].Entered?, !o.tryOk;
      if !acquired {
        steps := Execute(Disconnect(p, o.closed), start, steps);
      }
    }

    /** Between acquiring and returning: mark, run, mark, release. */
    method RunInside(p: int, o: Outcomes, ghost start: State, ghost done: seq<Step>) returns (ghost steps: seq<Step>)
      requires Runs(start, done) && state == After(start, done) && PhaseOf(state, p) == Entered(o.conn)
        && o.conn !in state.ended
      modifies this
      ensures steps == done + InsideAndOut(p, o) && Runs(start, steps) && state == After(start, steps)
    {
      SectionEffect(state, p, o);
      hide Enabled, Next, Runs, After;
      steps := Execute(MarkStarted(p, o.startOk), start, done);
      steps := Execute(RunJob(p, o.runFails), start, steps);
      steps := Execute(MarkFinished(p, o.finishOk), start, steps);
      ReleaseEffect(state, p, o);
      steps := Execute(Unlock(p, o.unlockOk), start, steps);
      steps := Execute(Disconnect(p, o.closed), start, steps);
    }

    /** runAt, runWithLock, RunWithExternalLock and the import runner: acquire, mark, run, mark, release. */
    method RunLocked(p: int, o: Outcomes) returns (result: Result, ghost steps: seq<Step>)
      requires CanStart(state, p, o) && Exclusive(state)
      modifies this
      ensures steps == LockedRun(old(state), p, o)
      ensures Runs(old(state), steps) && state == After(old(state), steps)
      ensures result == if !(o.connectOk && o.tryOk) then LockError else if !Granted(old(state), o) then LockBusy
        else Done(o.runFails)
    {
      ghost var start := state;
      hide Runs, InsideAndOut;
      var acquired, error;
      acquired, error, steps := AcquireSchedulerLock(p, o);
      if error {
        return LockError, steps;
      }
      if !acquired {
        return LockBusy, steps;
      }
      steps := RunInside(p, o, start, steps);
      return Done(o.runFails), steps;
    }
  }

  lemma RefusedRun(s: State, p: int, o: Outcomes)
    requires CanStart(s, p, o) && Exclusive(s) && !Granted(s, o) && o.connectOk
    ensures Runs(s, Refusal(p, o))
    ensures After(s, Refusal(p, o)) == Next(Next(Next(s, Connect(p, o.conn)), TryLock(p, o.tryOk)),
                                            Disconnect(p, o.closed))
  {
    AcquireEffect(s, p, o);
    var a := Next(s, Connect(p, o.conn));
    var b := Next(a, TryLock(p, o.tryOk));
    NoSteps(Next(b, Disconnect(p, o.closed)));
    hide Runs, Next, Enabled, After, Exclusive, CanStart;
    var steps := Before(b, Disconnect(p, o.closed), []);
    steps := Before(a, TryLock(p, o.tryOk), steps);
    steps := Before(s, Connect(p, o.conn), steps);
    assert steps == Refusal(p, o);
  }

  lemma InsideRun(b: State, p: int, o: Outcomes) returns (e: State, t: State)
    requires PhaseOf(b, p) == Entered(o.conn) && o.conn !in b.ended
    ensures Runs(b, InsideAndOut(p, o)) && t == After(b, InsideAndOut(p, o))
    ensures Enabled(e, Unlock(p, o.unlockOk)) && Enabled(Next(e, Unlock(p, o.unlockOk)), Disconnect(p, o.closed))
    ensures t == Next(Next(e, Unlock(p, o.unlockOk)), Disconnect(p, o.closed)) && PhaseOf(e, p) == Finished(o.conn)
      && o.conn !in e.ended
    ensures e.lock == b.lock && RunsTotal(e) == RunsTotal(b) + (if o.finishOk then 1 else 0)
    ensures o.finishOk ==> e.row.Some? && e.row.value.status == if o.runFails then "error" else "ok"
  {
    SectionEffect(b, p, o);
    var c := Next(b, MarkStarted(p, o.startOk));
    var d := Next(c, RunJob(p, o.runFails));
    e := Next(d, MarkFinished(p, o.finishOk));
    ReleaseEffect(e, p, o);
    var f := Next(e, Unlock(p, o.unlockOk));
    t := Next(f, Disconnect(p, o.closed));
    NoSteps(t);
    hide Runs, Next, Enabled, After;
    var steps := Before(f, Disconnect(p, o.closed), []);
    steps := Before(e, Unlock(p, o.unlockOk), steps);
    steps := Before(d, MarkFinished(p, o.finishOk), steps);
    steps := Before(c, RunJob(p, o.runFails), steps);
    steps := Before(b, MarkStarted(p, o.startOk), steps);
    assert steps == InsideAndOut(p, o);
  }

  lemma GrantedRun(s: State, p: int, o: Outcomes) returns (e: State, t: State)
    requires CanStart(s, p, o) && Exclusive(s) && Granted(s, o)
    ensures Runs(s, Section(p, o)) && t == After(s, Section(p, o))
    ensures Enabled(e, Unlock(p, o.unlockOk)) && Enabled(Next(e, Unlock(p, o.unlockOk)), Disconnect(p, o.closed))
    ensures t == Next(Next(e, Unlock(p, o.unlockOk)), Disconnect(p, o.closed)) && PhaseOf(e, p) == Finished(o.conn)
      && o.conn !in e.ended
    ensures s.lock == Free ==> e.lock == Held(o.conn, 1)
    ensures RunsTotal(e) == RunsTotal(s) + (if o.finishOk then 1 else 0)
    ensures o.finishOk ==> e.row.Some? && e.row.value.status == if o.runFails then "error" else "ok"
  {
    AcquireEffect(s, p, o);
    var a := Next(s, Connect(p, o.conn));
    var b := Next(a, TryLock(p, o.tryOk));
    hide Runs, Next, Enabled, After, Exclusive, CanStart, InsideAndOut;
    e, t := InsideRun(b, p, o);
    var steps := Before(a, TryLock(p, o.tryOk), InsideAndOut(p, o));
    steps := Before(s, Connect(p, o.conn), steps);
    assert steps == Section(p, o);
  }

  /** A locked run that meets no other process leaves things as it found them: its process is outside, a lock that was
      free is free unless the unlock failed on a connection kept open, and the counter has grown by one exactly when
      the lock was granted and the final mark succeeded. */
  lemma LockedRunRestores(s: State, p: int, o: Outcomes)
    requires CanStart(s, p, o) && Exclusive(s)
    ensures Runs(s, LockedRun(s, p, o))
    ensures var t := After(s, LockedRun(s, p, o));
      && PhaseOf(t, p).Outside?
      && (!Granted(s, o) && (s.lock.Held? ==> s.lock.session != o.conn) ==> t.lock == s.lock && t.row == s.row)
      && (Granted(s, o) && s.lock == Free ==> t.lock == if o.unlockOk || o.closed then Free else Held(o.conn, 1))
      && RunsTotal(t) == RunsTotal(s) + (if Granted(s, o) && o.finishOk then 1 else 0)
      && (Granted(s, o) && o.finishOk ==> t.row.Some? && t.row.value.status == if o.runFails then "error" else "ok")
  {
    hide Runs, After;
    if Granted(s, o) {
      var e, t := GrantedRun(s, p, o);
      ReleaseEffect(e, p, o);
    } else if o.connectOk {
      AcquireEffect(s, p, o);
      RefusedRun(s, p, o);
    } else {
      NoSteps(s);
    }
  }
}
