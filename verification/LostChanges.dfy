/** When a run advances a user's watermarks without telling the user. */
module LostChanges {
  import opened Detection
  import opened AlertTables
  import opened Dispatch
  import opened AlertCycle
  import opened CycleFacts
  import opened CycleTheorems
  import opened RunPerUser
  import opened Redetection

  function QueueOf(c: Collection, immediate: bool): Queue {
    if immediate then c.immediate else c.digest
  }

  function RepliesFor(r: RunReplies, u: int, immediate: bool): DispatchReplies {
    if immediate then r.immediate(u) else r.digest(u)
  }

  /** The run gets to the queued user's dispatch. */
  ghost predicate TurnComes(c: Collection, r: RunReplies, dueOrder: seq<int>, u: int, immediate: bool) {
    immediate || u in dueOrder[..TurnsTaken(c.digest, r, dueOrder)]
  }

  ghost predicate MailsUser(events: seq<Event>, u: int) {
    exists e :: e in events && e.Emailed? && e.user == u
  }

  /** One of the pending updates reaches its table row. */
  ghost predicate WritesUpdateOf(events: seq<Event>, p: Pending) {
    exists s :: s in p.updates && WritesMark(events, s.key)
  }

  /** The parts of a completed collection's run, as events of turns. */
  lemma EventOfPart(t: Tables, kind: Kind, subs: seq<Subscription>, r: RunReplies, now: int,
                    immediateOrder: seq<int>, dueOrder: seq<int>, e: Event)
    requires ValidRun(t, kind, subs, r, now, immediateOrder, dueOrder) && !Collect(t, kind, subs, r.subs, now).failed
    ensures var c := Collect(t, kind, subs, r.subs, now);
      e in RunEvents(t, kind, subs, r, now, immediateOrder, dueOrder) <==>
      || e in c.events
      || (exists v :: v in immediateOrder && e in ImmediateTurn(c.immediate, r, now)(v))
      || (exists v :: v in dueOrder[..TurnsTaken(c.digest, r, dueOrder)] && e in DigestTurn(c.digest, r, now)(v))
  {
    hide Collect, Turns, TurnsTaken, ImmediateTurn, DigestTurn;
    var c := Collect(t, kind, subs, r.subs, now);
    TurnsMembers(ImmediateTurn(c.immediate, r, now), immediateOrder);
    TurnsMembers(DigestTurn(c.digest, r, now), dueOrder[..TurnsTaken(c.digest, r, dueOrder)]);
  }

  /** A queued user's dispatch is part of the run when its turn comes. */
  lemma DispatchIsPart(t: Tables, kind: Kind, subs: seq<Subscription>, r: RunReplies, now: int,
                       immediateOrder: seq<int>, dueOrder: seq<int>, u: int, immediate: bool, e: Event)
    requires ValidRun(t, kind, subs, r, now, immediateOrder, dueOrder)
    requires var c := Collect(t, kind, subs, r.subs, now);
      !c.failed && u in QueueOf(c, immediate) && TurnComes(c, r, dueOrder, u, immediate)
    requires e in DispatchEvents(QueueOf(Collect(t, kind, subs, r.subs, now), immediate)[u],
                                 RepliesFor(r, u, immediate), now, !immediate)
    ensures e in RunEvents(t, kind, subs, r, now, immediateOrder, dueOrder)
  {
    hide SubscriptionStep, TurnsTaken, DispatchEvents, RunEvents;
    var c := Collect(t, kind, subs, r.subs, now);
    EventOfPart(t, kind, subs, r, now, immediateOrder, dueOrder, e);
    if immediate {
      assert u in immediateOrder && e in ImmediateTurn(c.immediate, r, now)(u);
    } else {
      assert e in DigestTurn(c.digest, r, now)(u);
    }
  }

  /** Only that dispatch writes the keys of its updates. */
  lemma UpdateWrittenByTurn(t: Tables, kind: Kind, subs: seq<Subscription>, r: RunReplies, now: int,
                            immediateOrder: seq<int>, dueOrder: seq<int>, u: int, immediate: bool, s: NotificationState,
                            e: Event)
    requires ValidRun(t, kind, subs, r, now, immediateOrder, dueOrder)
    requires var c := Collect(t, kind, subs, r.subs, now);
      !c.failed && u in QueueOf(c, immediate) && s in QueueOf(c, immediate)[u].updates
    requires e in RunEvents(t, kind, subs, r, now, immediateOrder, dueOrder) && e.MarkWritten? && e.state.key == s.key
    ensures var c := Collect(t, kind, subs, r.subs, now);
      && TurnComes(c, r, dueOrder, u, immediate)
      && e in DispatchEvents(QueueOf(c, immediate)[u], RepliesFor(r, u, immediate), now, !immediate)
  {
    hide SubscriptionStep, TurnsTaken, DispatchEvents, RunEvents, HasSource, Once, Paired, DistinctKeys, GoodInits;
    var c := Collect(t, kind, subs, r.subs, now);
    CollectIsGood(t, kind, subs, r.subs, now);
    assert GoodPending(t, kind, subs, r.subs, now, u, QueueOf(c, immediate)[u], immediate);
    var own := MarkWritten(s);
    assert SameWatermark(s, s) && Mine(t, kind, subs, r.subs, now, u, immediate, own);
    hide GoodPending, Mine;
    RunParts(t, kind, subs, r, now, immediateOrder, dueOrder);
    EventOfPart(t, kind, subs, r, now, immediateOrder, dueOrder, e);
    if e in c.events {
      InitApart(t, kind, subs, r.subs, now, c.events, u, immediate, e, own);
    } else if v :| v in immediateOrder && e in ImmediateTurn(c.immediate, r, now)(v) {
      if u != v || !immediate {
        TurnsApart(t, kind, subs, r.subs, now, u, immediate, own, v, true, e);
      }
    } else {
      var v :| v in dueOrder[..TurnsTaken(c.digest, r, dueOrder)] && e in DigestTurn(c.digest, r, now)(v);
      if u != v || immediate {
        TurnsApart(t, kind, subs, r.subs, now, u, immediate, own, v, false, e);
      }
    }
  }

  /** Only that dispatch mails the user. */
  lemma MailSentByTurn(t: Tables, kind: Kind, subs: seq<Subscription>, r: RunReplies, now: int,
                       immediateOrder: seq<int>, dueOrder: seq<int>, u: int, immediate: bool, e: Event)
    requires ValidRun(t, kind, subs, r, now, immediateOrder, dueOrder) && OneModeEach(subs)
    requires var c := Collect(t, kind, subs, r.subs, now); !c.failed && u in QueueOf(c, immediate)
    requires e in RunEvents(t, kind, subs, r, now, immediateOrder, dueOrder) && e.Emailed? && e.user == u
    ensures var c := Collect(t, kind, subs, r.subs, now);
      && TurnComes(c, r, dueOrder, u, immediate)
      && e in DispatchEvents(QueueOf(c, immediate)[u], RepliesFor(r, u, immediate), now, !immediate)
  {
    hide SubscriptionStep, TurnsTaken, DispatchEvents, RunEvents, HasSource, Once, GoodPending;
    var c := Collect(t, kind, subs, r.subs, now);
    CollectIsGood(t, kind, subs, r.subs, now);
    InitsAreMarks(t, kind, subs, r.subs, now, c.events);
    QueuesApart(t, kind, subs, r.subs, now, c.immediate, c.digest);
    RunParts(t, kind, subs, r, now, immediateOrder, dueOrder);
    EventOfPart(t, kind, subs, r, now, immediateOrder, dueOrder, e);
    hide GoodQueue, GoodInits;
    if v :| v in immediateOrder && e in ImmediateTurn(c.immediate, r, now)(v) {
      assert Mine(t, kind, subs, r.subs, now, v, true, e);
    } else {
      var v :| v in dueOrder[..TurnsTaken(c.digest, r, dueOrder)] && e in DigestTurn(c.digest, r, now)(v);
      assert Mine(t, kind, subs, r.subs, now, v, false, e);
    }
  }

  /** A run advances a queued user's watermarks and does not mail that user exactly when the user's turn comes, the
      contact cannot be mailed and a write gets through. */
  lemma LostInRunIff(t: Tables, kind: Kind, subs: seq<Subscription>, r: RunReplies, now: int,
                     immediateOrder: seq<int>, dueOrder: seq<int>, u: int, immediate: bool)
    requires ValidRun(t, kind, subs, r, now, immediateOrder, dueOrder) && OneModeEach(subs)
    requires var c := Collect(t, kind, subs, r.subs, now); !c.failed && u in QueueOf(c, immediate)
    ensures var (c, events) := (Collect(t, kind, subs, r.subs, now),
                                RunEvents(t, kind, subs, r, now, immediateOrder, dueOrder));
      var (p, replies) := (QueueOf(c, immediate)[u], RepliesFor(r, u, immediate));
      WritesUpdateOf(events, p) && !MailsUser(events, u)
      <==> TurnComes(c, r, dueOrder, u, immediate) && !CanMail(replies.contact) && Reached(p, replies) > 0
  {
    hide SubscriptionStep, TurnsTaken, DispatchEvents, RunEvents, HasSource, Once, CanMail, Reached, Paired, GoodInits,
      TurnComes;
    var (c, events) := (Collect(t, kind, subs, r.subs, now),
                        RunEvents(t, kind, subs, r, now, immediateOrder, dueOrder));
    var (p, replies) := (QueueOf(c, immediate)[u], RepliesFor(r, u, immediate));
    var own := DispatchEvents(p, replies, now, !immediate);
    CollectIsGood(t, kind, subs, r.subs, now);
    assert GoodPending(t, kind, subs, r.subs, now, u, p, immediate);
    hide GoodQueue, GoodPending;
    LostWithoutMailIff(p, replies, now, !immediate);
    MarksOfDispatch(p, replies, now, !immediate);
    if WritesUpdateOf(events, p) {
      var s :| s in p.updates && WritesMark(events, s.key);
      var e :| e in events && e.MarkWritten? && e.state.key == s.key;
      UpdateWrittenByTurn(t, kind, subs, r, now, immediateOrder, dueOrder, u, immediate, s, e);
      if m :| m in own && m.Emailed? {
        DispatchStaysInside(p, replies, now, !immediate, m);
        DispatchIsPart(t, kind, subs, r, now, immediateOrder, dueOrder, u, immediate, m);
      }
    }
    if TurnComes(c, r, dueOrder, u, immediate) && !CanMail(replies.contact) && Reached(p, replies) > 0 {
      var e := MarkWritten(StampedAt(p, replies, now, 0));
      assert e in own && p.updates[0] in p.updates;
      DispatchIsPart(t, kind, subs, r, now, immediateOrder, dueOrder, u, immediate, e);
      assert WritesMark(events, p.updates[0].key);
      if m :| m in events && m.Emailed? && m.user == u {
        MailSentByTurn(t, kind, subs, r, now, immediateOrder, dueOrder, u, immediate, m);
      }
    }
  }
}
