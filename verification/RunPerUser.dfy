/** A run seen from one user: what is queued and what becomes of the digest row. */
module RunPerUser {
  import opened Options
  import opened Calendar
  import opened Detection
  import opened AlertTables
  import opened Dispatch
  import opened Schedule
  import opened AlertCycle
  import opened CycleFacts
  import opened CycleTheorems

  // ----- what is queued -----

  /** The subscription's findings go to its user's queue for this mode. */
  predicate Routed(t: Tables, kind: Kind, sub: Subscription, r: SubReplies, now: int, user: int, immediate: bool) {
    && Considered(kind, sub, r) && sub.userId == user && Immediately(kind, sub) == immediate
    && (immediate || ShouldProcessDigest(sub.time, Get(t.digests, user), r.digestOk, now) == Some(true))
  }

  /** All findings routed to one user, subscription by subscription, each found on the initial tables. */
  function RoutedFindings(t: Tables, kind: Kind, subs: seq<Subscription>, replies: seq<SubReplies>, now: int,
                          user: int, immediate: bool): Findings
    requires |replies| == |subs|
  {
    if subs == [] then NOTHING
    else
      var n := |subs| - 1;
      var before := RoutedFindings(t, kind, subs[..n], replies[..n], now, user, immediate);
      if Routed(t, kind, subs[n], replies[n], now, user, immediate) then
        var found := FindingsOf(t.marks, subs[n], replies[n], now);
        Findings(before.changes + found.changes, [], before.sends + found.sends)
      else before
  }

  function PendingFor(user: int, immediate: bool, found: Findings): Option<Pending> {
    if found.changes == [] then None
    else Some(Pending(if immediate then IMMEDIATE else DAILY_DIGEST, user, found.changes, found.sends))
  }

  ghost predicate QueueIs(t: Tables, kind: Kind, subs: seq<Subscription>, replies: seq<SubReplies>, now: int,
                          c: Collection)
    requires |replies| == |subs|
  {
    && (forall u :: Get(c.immediate, u) == PendingFor(u, true, RoutedFindings(t, kind, subs, replies, now, u, true)))
    && (forall u :: Get(c.digest, u) == PendingFor(u, false, RoutedFindings(t, kind, subs, replies, now, u, false)))
  }

  /** Findings in sequence pair change with update as each part does. */
  lemma PairedConcat(a: Findings, b: Findings)
    requires Paired(a) && Paired(b)
    ensures Paired(Findings(a.changes + b.changes, [], a.sends + b.sends))
  {
    hide Calendar.ParseDate;
  }

  lemma {:induction false} RoutedPaired(t: Tables, kind: Kind, subs: seq<Subscription>, replies: seq<SubReplies>,
                                        now: int, user: int, immediate: bool)
    requires |replies| == |subs|
    ensures Paired(RoutedFindings(t, kind, subs, replies, now, user, immediate))
  {
    hide FindingsOf, Paired, Routed;
    if subs == [] {
      NothingPaired();
    } else {
      var n := |subs| - 1;
      RoutedPaired(t, kind, subs[..n], replies[..n], now, user, immediate);
      if Routed(t, kind, subs[n], replies[n], now, user, immediate) {
        RoutedIsUsable(t, kind, subs[n], replies[n], now, user, immediate);
        SubFindings(t, subs[n], replies[n], now);
        PairedConcat(RoutedFindings(t, kind, subs[..n], replies[..n], now, user, immediate),
                     FindingsOf(t.marks, subs[n], replies[n], now));
      }
    }
  }

  lemma NothingPaired()
    ensures Paired(NOTHING)
  {
  }

  lemma RoutedIsUsable(t: Tables, kind: Kind, sub: Subscription, r: SubReplies, now: int, user: int, immediate: bool)
    requires Routed(t, kind, sub, r, now, user, immediate)
    ensures Usable(r)
  {
  }

  /** When collecting succeeds, every change found for an immediate or due subscription is in exactly one
      user's pending list, beside the update of its own key, and nothing else is. */
  lemma {:induction false} QueuesHoldRoutedFindings(t: Tables, kind: Kind, subs: seq<Subscription>,
                                                    replies: seq<SubReplies>, now: int)
    requires |replies| == |subs|
    requires !Collect(t, kind, subs, replies, now).failed
    ensures QueueIs(t, kind, subs, replies, now, Collect(t, kind, subs, replies, now))
  {
    if subs != [] {
      var n := |subs| - 1;
      QueuesHoldRoutedFindings(t, kind, subs[..n], replies[..n], now);
      var c := Collect(t, kind, subs[..n], replies[..n], now);
      StepQueues(t, kind, subs, replies, now, c);
    }
  }

  lemma StepQueues(t: Tables, kind: Kind, subs: seq<Subscription>, replies: seq<SubReplies>, now: int, c: Collection)
    requires subs != [] && |replies| == |subs|
    requires QueueIs(t, kind, subs[..|subs| - 1], replies[..|subs| - 1], now, c)
    requires !SubscriptionStep(t, c, kind, subs[|subs| - 1], replies[|subs| - 1], now).failed
    ensures QueueIs(t, kind, subs, replies, now, SubscriptionStep(t, c, kind, subs[|subs| - 1], replies[|subs| - 1],
                                                                  now))
  {
    hide FindingsOf, Paired, ShouldProcessDigest, InitWrites;
    var n := |subs| - 1;
    var c' := SubscriptionStep(t, c, kind, subs[n], replies[n], now);
    forall u
      ensures Get(c'.immediate, u) == PendingFor(u, true, RoutedFindings(t, kind, subs, replies, now, u, true))
    {
      EnqueueRouted(t, kind, subs, replies, now, c.immediate, u, true);
    }
    forall u
      ensures Get(c'.digest, u) == PendingFor(u, false, RoutedFindings(t, kind, subs, replies, now, u, false))
    {
      EnqueueRouted(t, kind, subs, replies, now, c.digest, u, false);
    }
  }

  /** One enqueue extends exactly the routed user's entry. */
  lemma EnqueueRouted(t: Tables, kind: Kind, subs: seq<Subscription>, replies: seq<SubReplies>, now: int,
                      queue: Queue, u: int, immediate: bool)
    requires subs != [] && |replies| == |subs|
    requires Get(queue, u) == PendingFor(u, immediate,
                                         RoutedFindings(t, kind, subs[..|subs| - 1], replies[..|subs| - 1], now, u,
                                                        immediate))
    ensures var (sub, r, after) := (subs[|subs| - 1], replies[|subs| - 1],
                                    RoutedFindings(t, kind, subs, replies, now, u, immediate));
      var mode := if immediate then IMMEDIATE else DAILY_DIGEST;
      && (!Routed(t, kind, sub, r, now, u, immediate) ==> Get(queue, u) == PendingFor(u, immediate, after))
      && (Usable(r) && sub.userId != u
          ==> Get(Enqueue(queue, mode, sub.userId, FindingsOf(t.marks, sub, r, now)), u) == Get(queue, u))
      && (Routed(t, kind, sub, r, now, u, immediate) ==>
            Get(Enqueue(queue, mode, u, FindingsOf(t.marks, sub, r, now)), u) == PendingFor(u, immediate, after))
  {
    hide FindingsOf, Routed, Paired;
    var n := |subs| - 1;
    RoutedPaired(t, kind, subs[..n], replies[..n], now, u, immediate);
    if Routed(t, kind, subs[n], replies[n], now, u, immediate) {
      RoutedIsUsable(t, kind, subs[n], replies[n], now, u, immediate);
      SubFindings(t, subs[n], replies[n], now);
      EnqueueAppends(queue, u, immediate, RoutedFindings(t, kind, subs[..n], replies[..n], now, u, immediate),
                     FindingsOf(t.marks, subs[n], replies[n], now));
    }
  }

  lemma EnqueueAppends(queue: Queue, u: int, immediate: bool, before: Findings, found: Findings)
    requires Paired(before) && Paired(found) && Get(queue, u) == PendingFor(u, immediate, before)
    ensures Get(Enqueue(queue, if immediate then IMMEDIATE else DAILY_DIGEST, u, found), u)
         == PendingFor(u, immediate, Findings(before.changes + found.changes, [], before.sends + found.sends))
  {
    SameLengths(before);
    SameLengths(found);
    hide Paired;
    if found.changes == [] {
      assert before.changes + found.changes == before.changes && before.sends + found.sends == before.sends;
    } else if before.changes == [] {
      assert before.changes + found.changes == found.changes && before.sends + found.sends == found.sends;
    }
  }

  lemma SameLengths(found: Findings)
    requires Paired(found)
    ensures |found.changes| == |found.sends|
  {
  }

  // ----- the digest row -----

  predicate TurnSucceeds(queue: Queue, r: RunReplies, u: int) {
    if u in queue then DispatchSucceeds(queue[u], r.digest(u), true) else r.emptyOk(u)
  }

  /** The digest loop reaches this user. */
  ghost predicate Reaches(c: Collection, r: RunReplies, dueOrder: seq<int>, u: int) {
    !c.failed && u in dueOrder[..TurnsTaken(c.digest, r, dueOrder)]
  }

  lemma DigestTurnMarks(t: Tables, kind: Kind, subs: seq<Subscription>, replies: seq<SubReplies>, queue: Queue,
                        r: RunReplies, now: int, u: int)
    requires |replies| == |subs| && GoodQueue(t, kind, subs, replies, now, queue, false)
    ensures WritesDigest(DigestTurn(queue, r, now)(u), u) <==> TurnSucceeds(queue, r, u)
  {
    hide GoodPending, DispatchEvents;
    if u in queue {
      assert GoodPending(t, kind, subs, replies, now, u, queue[u], false);
      GoodPendingUser(t, kind, subs, replies, now, u, queue[u], false);
      DigestMarkedIff(queue[u], r.digest(u), now);
    } else if r.emptyOk(u) {
      var e := DigestWritten(u, Digest(Some(DayOf(now)), None));
      assert e in DigestTurn(queue, r, now)(u);
    }
  }

  lemma GoodPendingUser(t: Tables, kind: Kind, subs: seq<Subscription>, replies: seq<SubReplies>, now: int,
                        u: int, p: Pending, immediate: bool)
    requires |replies| == |subs| && GoodPending(t, kind, subs, replies, now, u, p, immediate)
    ensures p.userId == u
  {
  }

  lemma ImmediateWritesNoDigest(t: Tables, kind: Kind, subs: seq<Subscription>, replies: seq<SubReplies>, now: int,
                                turn: Turn, order: seq<int>)
    requires |replies| == |subs| && MineAll(t, kind, subs, replies, now, turn, order, true)
    ensures forall e | e in Turns(turn, order) :: !e.DigestWritten?
  {
    hide Turns, HasSource, Once;
    TurnsMembers(turn, order);
    forall e | e in Turns(turn, order)
      ensures !e.DigestWritten?
    {
      var v :| v in order && e in turn(v);
      assert Mine(t, kind, subs, replies, now, v, true, e);
    }
  }

  /** A digest write of a run belongs to a reached user whose turn succeeded, and carries today. */
  lemma RunWritesDigestIff(t: Tables, kind: Kind, subs: seq<Subscription>, r: RunReplies, now: int,
                           immediateOrder: seq<int>, dueOrder: seq<int>, u: int)
    requires ValidRun(t, kind, subs, r, now, immediateOrder, dueOrder)
    ensures var c := Collect(t, kind, subs, r.subs, now);
      WritesDigest(RunEvents(t, kind, subs, r, now, immediateOrder, dueOrder), u)
      <==> Reaches(c, r, dueOrder, u) && TurnSucceeds(c.digest, r, u)
    ensures forall e | e in RunEvents(t, kind, subs, r, now, immediateOrder, dueOrder) && e.DigestWritten? ::
      e.digest.processedOn == Some(DayOf(now))
  {
    hide SubscriptionStep, Once, Turns, TurnsTaken, DispatchEvents, GoodInits, HasSource, TurnSucceeds;
    var c := Collect(t, kind, subs, r.subs, now);
    var events := RunEvents(t, kind, subs, r, now, immediateOrder, dueOrder);
    RunParts(t, kind, subs, r, now, immediateOrder, dueOrder);
    CollectIsGood(t, kind, subs, r.subs, now);
    InitsAreMarks(t, kind, subs, r.subs, now, c.events);
    hide GoodQueue;
    if !c.failed {
      var (a, b) := (ImmediateTurn(c.immediate, r, now), DigestTurn(c.digest, r, now));
      var due := dueOrder[..TurnsTaken(c.digest, r, dueOrder)];
      TurnsMembers(a, immediateOrder);
      TurnsMembers(b, due);
      DigestTurnMarks(t, kind, subs, r.subs, c.digest, r, now, u);
      ImmediateWritesNoDigest(t, kind, subs, r.subs, now, a, immediateOrder);
      assert forall e | e in events :: e in c.events || e in Turns(a, immediateOrder) || e in Turns(b, due);
      assert forall e | e in Turns(b, due) :: e in events;
      hide ImmediateTurn, DigestTurn;
      forall e | e in events && e.DigestWritten?
        ensures e.digest.processedOn == Some(DayOf(now)) && e.user in due && e in b(e.user)
      {
        var v :| v in due && e in b(v);
        assert Mine(t, kind, subs, r.subs, now, v, false, e);
      }
      if u in due && TurnSucceeds(c.digest, r, u) {
        var e :| e in b(u) && e.DigestWritten? && e.user == u;
        assert e in Turns(b, due);
      }
    }
  }

  lemma InitsAreMarks(t: Tables, kind: Kind, subs: seq<Subscription>, replies: seq<SubReplies>, now: int,
                      events: seq<Event>)
    requires |replies| == |subs| && GoodInits(t, kind, subs, replies, now, events)
    ensures forall e | e in events :: e.MarkWritten?
  {
  }

  /** After a run, a reached user whose dispatch or empty mark succeeded is processed for today;
      every other user's digest row is as it was. */
  lemma DigestAfterRun(t: Tables, kind: Kind, subs: seq<Subscription>, r: RunReplies, now: int,
                       immediateOrder: seq<int>, dueOrder: seq<int>, u: int)
    requires ValidRun(t, kind, subs, r, now, immediateOrder, dueOrder)
    ensures var c := Collect(t, kind, subs, r.subs, now);
      var row := Get(ApplyAll(t, RunEvents(t, kind, subs, r, now, immediateOrder, dueOrder)).digests, u);
      if Reaches(c, r, dueOrder, u) && TurnSucceeds(c.digest, r, u)
      then row.Some? && row.value.processedOn == Some(DayOf(now))
      else row == Get(t.digests, u)
  {
    hide SubscriptionStep, Once, RunEvents, TurnSucceeds, Reaches;
    var events := RunEvents(t, kind, subs, r, now, immediateOrder, dueOrder);
    RunOnce(t, kind, subs, r, now, immediateOrder, dueOrder, false);
    RunWritesDigestIff(t, kind, subs, r, now, immediateOrder, dueOrder, u);
    if WritesDigest(events, u) {
      var e :| e in events && e.DigestWritten? && e.user == u;
      FinalDigest(t, events, u, e.digest);
    } else {
      DigestUntouched(t, events, u);
    }
  }
}
