/** How far one user's failures reach: which failures stop a run for everybody, and that all others stay with their
    user. */
module Isolation {
  import opened Options
  import opened Detection
  import opened AlertTables
  import opened Dispatch
  import opened Schedule
  import opened AlertCycle
  import opened CycleFacts
  import opened CycleTheorems
  import opened RunGuarantees
  import opened RunPerUser
  import opened LiveReads

  // ----- failures that stop a run -----

  /** The calls for this subscription make the first loop return an error. */
  predicate StopsCollecting(t: Tables, kind: Kind, sub: Subscription, r: SubReplies, now: int) {
    && Considered(kind, sub, r)
    && var inits := FindingsOf(t.marks, sub, r, now).inits;
       || !r.listOk
       || LeadingOk(r.initOk, |inits|) < |inits|
       || (!Immediately(kind, sub) && ShouldProcessDigest(sub.time, Get(t.digests, sub.userId), r.digestOk, now).None?)
  }

  /** Collecting fails exactly when some considered entry's states cannot be read, one of its initial watermarks
      cannot be written, or its user's dispatch state cannot be read. */
  lemma {:induction false} CollectFailsIff(t: Tables, kind: Kind, subs: seq<Subscription>, replies: seq<SubReplies>,
                                           now: int)
    requires |replies| == |subs|
    ensures Collect(t, kind, subs, replies, now).failed
      <==> exists j | 0 <= j < |subs| :: StopsCollecting(t, kind, subs[j], replies[j], now)
  {
    hide FindingsOf, InitWrites, Enqueue, ShouldProcessDigest;
    if subs != [] {
      var n := |subs| - 1;
      CollectFailsIff(t, kind, subs[..n], replies[..n], now);
      assert forall j | 0 <= j < n :: subs[..n][j] == subs[j] && replies[..n][j] == replies[j];
      if j :| 0 <= j < |subs| && StopsCollecting(t, kind, subs[j], replies[j], now) {
        assert j < n ==> StopsCollecting(t, kind, subs[..n][j], replies[..n][j], now);
      }
    }
  }

  /** After such a failure nobody is mailed and no digest row is written, and the initial watermarks of the entries
      behind the failing one are not written either. Nothing else about the run matters. */
  lemma StopEndsRun(t: Tables, kind: Kind, subs: seq<Subscription>, r: RunReplies, now: int,
                    immediateOrder: seq<int>, dueOrder: seq<int>, j: nat)
    requires |r.subs| == |subs| && OneEntryEach(subs)
    requires j < |subs| && StopsCollecting(t, kind, subs[j], r.subs[j], now)
    ensures RunFails(t, kind, subs, r, now, dueOrder)
    ensures RunEvents(t, kind, subs, r, now, immediateOrder, dueOrder)
      == Collect(t, kind, subs[..j + 1], r.subs[..j + 1], now).events
    ensures forall e | e in RunEvents(t, kind, subs, r, now, immediateOrder, dueOrder) ::
      e.MarkWritten? && exists i | 0 <= i <= j :: subs[i].watchlistId == e.state.key.watchlistId
  {
    hide StopsCollecting, FindingsOf, Once, GoodQueue, Turns;
    var (front, back) := (subs[..j + 1], r.subs[..j + 1]);
    assert front[j] == subs[j] && back[j] == r.subs[j];
    CollectFailsIff(t, kind, front, back, now);
    CollectStopped(t, kind, subs, r.subs, now, j + 1);
    CollectIsGood(t, kind, front, back, now);
    var events := Collect(t, kind, front, back, now).events;
    forall e | e in events
      ensures e.MarkWritten? && exists i | 0 <= i <= j :: subs[i].watchlistId == e.state.key.watchlistId
    {
      var i :| 0 <= i < |front| && Considered(kind, front[i], back[i])
        && e.state.key.watchlistId == front[i].watchlistId
        && e.state in FindingsOf(t.marks, front[i], back[i], now).inits;
      assert subs[i] == front[i];
    }
  }

  /** So one entry's failing read is enough to silence everybody: the same run with it mails nobody. */
  lemma OneReadSilencesAll(t: Tables, kind: Kind, subs: seq<Subscription>, r: RunReplies, now: int,
                           immediateOrder: seq<int>, dueOrder: seq<int>, j: nat)
    requires |r.subs| == |subs| && OneEntryEach(subs) && j < |subs| && Considered(kind, subs[j], r.subs[j])
    ensures var r' := r.(subs := r.subs[j := r.subs[j].(listOk := false)]);
      && RunFails(t, kind, subs, r', now, dueOrder)
      && forall e | e in RunEvents(t, kind, subs, r', now, immediateOrder, dueOrder) :: e.MarkWritten?
  {
    var r' := r.(subs := r.subs[j := r.subs[j].(listOk := false)]);
    assert StopsCollecting(t, kind, subs[j], r'.subs[j], now);
    hide StopsCollecting, RunEvents, Collect, RunFails;
    StopEndsRun(t, kind, subs, r', now, immediateOrder, dueOrder, j);
  }

  // ----- who is due -----

  /** When collecting succeeds, a user is due exactly when one of their considered digest entries says so. */
  lemma {:induction false} DueIff(t: Tables, kind: Kind, subs: seq<Subscription>, replies: seq<SubReplies>, now: int,
                                  u: int)
    requires |replies| == |subs| && !Collect(t, kind, subs, replies, now).failed
    ensures u in Collect(t, kind, subs, replies, now).due
      <==> exists j | 0 <= j < |subs| :: Routed(t, kind, subs[j], replies[j], now, u, false)
  {
    hide FindingsOf, InitWrites, Enqueue, ShouldProcessDigest;
    if subs != [] {
      var n := |subs| - 1;
      DueIff(t, kind, subs[..n], replies[..n], now, u);
      assert forall j | 0 <= j < n :: subs[..n][j] == subs[j] && replies[..n][j] == replies[j];
      if j :| 0 <= j < |subs| && Routed(t, kind, subs[j], replies[j], now, u, false) {
        assert j < n ==> Routed(t, kind, subs[..n][j], replies[..n][j], now, u, false);
      }
    }
  }

  /** A run returns an error exactly when collecting stops, or a due user without changes cannot be marked. */
  lemma RunFailsIff(t: Tables, kind: Kind, subs: seq<Subscription>, r: RunReplies, now: int, immediateOrder: seq<int>,
                    dueOrder: seq<int>)
    requires ValidRun(t, kind, subs, r, now, immediateOrder, dueOrder)
    ensures var c := Collect(t, kind, subs, r.subs, now);
      RunFails(t, kind, subs, r, now, dueOrder)
      <==> || (exists j | 0 <= j < |subs| :: StopsCollecting(t, kind, subs[j], r.subs[j], now))
           || (exists u :: u in c.due && u !in c.digest && !r.emptyOk(u))
  {
    hide SubscriptionStep, StopsCollecting, TurnsTaken;
    var c := Collect(t, kind, subs, r.subs, now);
    CollectFailsIff(t, kind, subs, r.subs, now);
    AllTurnsTakenIff(c.digest, r, dueOrder);
  }

  // ----- failures that stay with their user -----

  /** The two sets of outcomes agree on everything except the calls made for user w's entries and dispatches. */
  ghost predicate DifferOnlyFor(subs: seq<Subscription>, r: RunReplies, r': RunReplies, w: int) {
    && |r.subs| == |r'.subs| == |subs|
    && (forall j | 0 <= j < |subs| && subs[j].userId != w :: r.subs[j] == r'.subs[j])
    && forall u | u != w ::
      r.immediate(u) == r'.immediate(u) && r.digest(u) == r'.digest(u) && r.emptyOk(u) == r'.emptyOk(u)
  }

  ghost predicate Sends(t: Tables, kind: Kind, sub: Subscription, r: SubReplies, now: int, key: MarkKey) {
    Considered(kind, sub, r) && key in KeysIn(FindingsOf(t.marks, sub, r, now).sends)
  }

  ghost predicate Initialises(t: Tables, kind: Kind, sub: Subscription, r: SubReplies, now: int, key: MarkKey) {
    Considered(kind, sub, r) && key in KeysIn(FindingsOf(t.marks, sub, r, now).inits)
  }

  /** A key of user w that either run may notify, or that either initialises after differing answers. */
  ghost predicate Touches(t: Tables, kind: Kind, subs: seq<Subscription>, r: RunReplies, r': RunReplies, now: int,
                          w: int, key: MarkKey)
    requires |r.subs| == |r'.subs| == |subs|
  {
    exists j | 0 <= j < |subs| ::
      && subs[j].userId == w
      && (|| Sends(t, kind, subs[j], r.subs[j], now, key) || Sends(t, kind, subs[j], r'.subs[j], now, key)
          || (r.subs[j] != r'.subs[j]
              && (Initialises(t, kind, subs[j], r.subs[j], now, key)
                  || Initialises(t, kind, subs[j], r'.subs[j], now, key))))
  }

  /** An event that has nothing to do with user w. */
  ghost predicate Foreign(t: Tables, kind: Kind, subs: seq<Subscription>, r: RunReplies, r': RunReplies, now: int,
                          w: int, e: Event)
    requires |r.subs| == |r'.subs| == |subs|
  {
    match e
    case MarkWritten(state) => !Touches(t, kind, subs, r, r', now, w, state.key)
    case DigestWritten(user, _) => user != w
    case Emailed(user, _, _, _) => user != w
  }

  lemma {:induction false} SameRouted(t: Tables, kind: Kind, subs: seq<Subscription>, a: seq<SubReplies>,
                                      b: seq<SubReplies>, now: int,
                                      u: int, immediate: bool)
    requires |a| == |b| == |subs| && forall j | 0 <= j < |subs| && subs[j].userId == u :: a[j] == b[j]
    ensures RoutedFindings(t, kind, subs, a, now, u, immediate) == RoutedFindings(t, kind, subs, b, now, u, immediate)
  {
    hide FindingsOf, ShouldProcessDigest;
    if subs != [] {
      SameRouted(t, kind, subs[..|subs| - 1], a[..|subs| - 1], b[..|subs| - 1], now, u, immediate);
    }
  }

  /** Another user is queued alike in both runs, and due in both or neither. */
  lemma SameQueues(t: Tables, kind: Kind, subs: seq<Subscription>, r: RunReplies, r': RunReplies, now: int, w: int,
                   u: int)
    requires DifferOnlyFor(subs, r, r', w) && u != w
    requires !Collect(t, kind, subs, r.subs, now).failed && !Collect(t, kind, subs, r'.subs, now).failed
    ensures var (c, c') := (Collect(t, kind, subs, r.subs, now), Collect(t, kind, subs, r'.subs, now));
      Get(c.immediate, u) == Get(c'.immediate, u) && Get(c.digest, u) == Get(c'.digest, u)
        && (u in c.due <==> u in c'.due)
  {
    hide SubscriptionStep, FindingsOf, ShouldProcessDigest, RoutedFindings;
    QueuesHoldRoutedFindings(t, kind, subs, r.subs, now);
    QueuesHoldRoutedFindings(t, kind, subs, r'.subs, now);
    SameRouted(t, kind, subs, r.subs, r'.subs, now, u, true);
    SameRouted(t, kind, subs, r.subs, r'.subs, now, u, false);
    DueIff(t, kind, subs, r.subs, now, u);
    DueIff(t, kind, subs, r'.subs, now, u);
  }

  /** A foreign initial watermark is written in the other run too. */
  lemma ForeignInit(t: Tables, kind: Kind, subs: seq<Subscription>, r: RunReplies, r': RunReplies, now: int, w: int,
                    e: Event)
    requires DifferOnlyFor(subs, r, r', w) && OneEntryEach(subs) && !Collect(t, kind, subs, r'.subs, now).failed
    requires e in Collect(t, kind, subs, r.subs, now).events && Foreign(t, kind, subs, r, r', now, w, e)
    ensures e in Collect(t, kind, subs, r'.subs, now).events
  {
    hide SubscriptionStep, FindingsOf, Once, GoodQueue;
    CollectIsGood(t, kind, subs, r.subs, now);
    var j :| 0 <= j < |subs| && Considered(kind, subs[j], r.subs[j]) && e.state.key.watchlistId == subs[j].watchlistId
      && e.state in FindingsOf(t.marks, subs[j], r.subs[j], now).inits;
    assert Initialises(t, kind, subs[j], r.subs[j], now, e.state.key);
    assert r.subs[j] == r'.subs[j];
    CollectedInits(t, kind, subs, r'.subs, now, j, e.state);
  }

  /** What a foreign event's turn owns is not user w's. */
  lemma ForeignTurn(t: Tables, kind: Kind, subs: seq<Subscription>, r: RunReplies, r': RunReplies, now: int, w: int,
                    u: int, immediate: bool, e: Event)
    requires |r.subs| == |r'.subs| == |subs|
    requires Mine(t, kind, subs, r.subs, now, u, immediate, e) && Foreign(t, kind, subs, r, r', now, w, e)
    ensures u != w
  {
    hide FindingsOf;
    if e.MarkWritten? {
      var s := MineIsSend(t, kind, subs, r.subs, now, u, immediate, e);
      var j :| 0 <= j < |subs| && FoundBy(t, kind, subs[j], r.subs[j], now, u, immediate, s);
      assert s.key in KeysIn(FindingsOf(t.marks, subs[j], r.subs[j], now).sends);
      assert Sends(t, kind, subs[j], r.subs[j], now, e.state.key);
    }
  }

  /** A foreign event of one run happens in the other. */
  lemma OthersEvents(t: Tables, kind: Kind, subs: seq<Subscription>, r: RunReplies, r': RunReplies, now: int,
                     immediateOrder: seq<int>,
                     dueOrder: seq<int>, immediateOrder': seq<int>, dueOrder': seq<int>, w: int, e: Event)
    requires ValidRun(t, kind, subs, r, now, immediateOrder, dueOrder)
      && ValidRun(t, kind, subs, r', now, immediateOrder', dueOrder')
    requires DifferOnlyFor(subs, r, r', w)
    requires !RunFails(t, kind, subs, r, now, dueOrder) && !RunFails(t, kind, subs, r', now, dueOrder')
    requires e in RunEvents(t, kind, subs, r, now, immediateOrder, dueOrder) && Foreign(t, kind, subs, r, r', now, w, e)
    ensures e in RunEvents(t, kind, subs, r', now, immediateOrder', dueOrder')
  {
    hide SubscriptionStep, Once, Turns, TurnsTaken, DispatchEvents, GoodInits, Mine, Foreign;
    var (c, c') := (Collect(t, kind, subs, r.subs, now), Collect(t, kind, subs, r'.subs, now));
    RunParts(t, kind, subs, r, now, immediateOrder, dueOrder);
    assert dueOrder[..|dueOrder|] == dueOrder && dueOrder'[..|dueOrder'|] == dueOrder';
    if e in c.events {
      ForeignInit(t, kind, subs, r, r', now, w, e);
    } else {
      var (a, b) := (ImmediateTurn(c.immediate, r, now), DigestTurn(c.digest, r, now));
      var (a', b') := (ImmediateTurn(c'.immediate, r', now), DigestTurn(c'.digest, r', now));
      TurnsMembers(a, immediateOrder);
      TurnsMembers(b, dueOrder);
      TurnsMembers(a', immediateOrder');
      TurnsMembers(b', dueOrder');
      if e in Turns(a, immediateOrder) {
        var u :| u in immediateOrder && e in a(u);
        ForeignTurn(t, kind, subs, r, r', now, w, u, true, e);
        SameQueues(t, kind, subs, r, r', now, w, u);
        assert a(u) == a'(u) && u in immediateOrder';
      } else {
        var u :| u in dueOrder && e in b(u);
        ForeignTurn(t, kind, subs, r, r', now, w, u, false, e);
        SameQueues(t, kind, subs, r, r', now, w, u);
        assert b(u) == b'(u) && u in dueOrder';
      }
    }
  }

  /** Whatever the calls for user w's entries, contact, mail and writes return, as long as neither run returns an error:
      the other users' watermarks, digest rows and emails come out the same, in whatever orders users are visited. */
  lemma FailureStaysWithUser(t: Tables, kind: Kind, subs: seq<Subscription>, r: RunReplies, r': RunReplies, now: int,
                             immediateOrder: seq<int>,
                             dueOrder: seq<int>, immediateOrder': seq<int>, dueOrder': seq<int>, w: int)
    requires ValidRun(t, kind, subs, r, now, immediateOrder, dueOrder)
      && ValidRun(t, kind, subs, r', now, immediateOrder', dueOrder')
    requires DifferOnlyFor(subs, r, r', w)
    requires !RunFails(t, kind, subs, r, now, dueOrder) && !RunFails(t, kind, subs, r', now, dueOrder')
    ensures var (a, b) := (RunEvents(t, kind, subs, r, now, immediateOrder, dueOrder),
                           RunEvents(t, kind, subs, r', now, immediateOrder', dueOrder'));
      && (forall key | !Touches(t, kind, subs, r, r', now, w, key) ::
          Get(ApplyAll(t, a).marks, key) == Get(ApplyAll(t, b).marks, key))
      && (forall u | u != w :: Get(ApplyAll(t, a).digests, u) == Get(ApplyAll(t, b).digests, u))
      && (forall e: Event | e.Emailed? && e.user != w :: e in a <==> e in b)
  {
    hide SubscriptionStep, RunEvents, RunFails, Touches, Once;
    var (a, b) := (RunEvents(t, kind, subs, r, now, immediateOrder, dueOrder),
                   RunEvents(t, kind, subs, r', now, immediateOrder', dueOrder'));
    RunOnce(t, kind, subs, r, now, immediateOrder, dueOrder, false);
    RunOnce(t, kind, subs, r', now, immediateOrder', dueOrder', false);
    forall e | Foreign(t, kind, subs, r, r', now, w, e)
      ensures e in a <==> e in b
    {
      if e in a {
        OthersEvents(t, kind, subs, r, r', now, immediateOrder, dueOrder, immediateOrder', dueOrder', w, e);
      }
      if e in b {
        ForeignBothWays(t, kind, subs, r, r', now, w, e);
        OthersEvents(t, kind, subs, r', r, now, immediateOrder', dueOrder', immediateOrder, dueOrder, w, e);
      }
    }
    forall key | !Touches(t, kind, subs, r, r', now, w, key)
      ensures Get(ApplyAll(t, a).marks, key) == Get(ApplyAll(t, b).marks, key)
    {
      SameMark(t, a, b, key);
    }
    forall u | u != w
      ensures Get(ApplyAll(t, a).digests, u) == Get(ApplyAll(t, b).digests, u)
    {
      SameDigest(t, a, b, u);
    }
  }

  lemma ForeignBothWays(t: Tables, kind: Kind, subs: seq<Subscription>, r: RunReplies, r': RunReplies, now: int, w: int,
                        e: Event)
    requires |r.subs| == |r'.subs| == |subs| && Foreign(t, kind, subs, r, r', now, w, e)
    ensures Foreign(t, kind, subs, r', r, now, w, e)
  {
    hide Sends, Initialises;
  }

  lemma SameMark(t: Tables, a: seq<Event>, b: seq<Event>, key: MarkKey)
    requires WritesOnce(a) && WritesOnce(b)
    requires forall e: Event | e.MarkWritten? && e.state.key == key :: e in a <==> e in b
    ensures Get(ApplyAll(t, a).marks, key) == Get(ApplyAll(t, b).marks, key)
  {
    if WritesMark(a, key) {
      var e :| e in a && e.MarkWritten? && e.state.key == key;
      FinalMark(t, a, e.state);
      FinalMark(t, b, e.state);
    } else {
      MarkUntouched(t, a, key);
      MarkUntouched(t, b, key);
    }
  }

  lemma SameDigest(t: Tables, a: seq<Event>, b: seq<Event>, u: int)
    requires WritesOnce(a) && WritesOnce(b)
    requires forall e: Event | e.DigestWritten? && e.user == u :: e in a <==> e in b
    ensures Get(ApplyAll(t, a).digests, u) == Get(ApplyAll(t, b).digests, u)
  {
    if WritesDigest(a, u) {
      var e :| e in a && e.DigestWritten? && e.user == u;
      FinalDigest(t, a, u, e.digest);
      FinalDigest(t, b, u, e.digest);
    } else {
      DigestUntouched(t, a, u);
      DigestUntouched(t, b, u);
    }
  }
}
