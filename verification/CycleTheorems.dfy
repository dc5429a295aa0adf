/** Whose events a run's events are: the loops and the initial writes keep apart, so that no row is written twice and no
    user is mailed twice. */
module CycleTheorems {
  import opened Options
  import opened Calendar
  import opened Grouping
  import opened Detection
  import opened AlertTables
  import opened Dispatch
  import opened AlertCycle
  import opened CycleFacts
  import opened Redetection

  // ----- whose event it is -----

  /** An event of user u's turn in the immediate or the digest loop. */
  ghost predicate Mine(t: Tables, kind: Kind, subs: seq<Subscription>, replies: seq<SubReplies>, now: int,
                       u: int, immediate: bool, e: Event)
    requires |replies| == |subs|
  {
    match e
    case MarkWritten(state) =>
      exists s :: SameWatermark(s, state) && HasSource(t, kind, subs, replies, now, u, immediate, s)
    case DigestWritten(user, digest) => !immediate && user == u && digest.processedOn == Some(DayOf(now))
    case Emailed(user, mode, at, _) => user == u && at == now && mode == (if immediate then IMMEDIATE else DAILY_DIGEST)
  }

  lemma DispatchIsMine(t: Tables, kind: Kind, subs: seq<Subscription>, replies: seq<SubReplies>, now: int,
                       u: int, p: Pending, r: DispatchReplies, immediate: bool)
    requires |replies| == |subs| && GoodPending(t, kind, subs, replies, now, u, p, immediate)
    ensures forall e | e in DispatchEvents(p, r, now, !immediate) :: Mine(t, kind, subs, replies, now, u, immediate, e)
    ensures Once(DispatchEvents(p, r, now, !immediate), true)
  {
    hide DispatchEvents, HasSource, Paired, DayOf, SortedChanges;
    var events := DispatchEvents(p, r, now, !immediate);
    DispatchWritesOnce(p, r, now, !immediate);
    MarksOfDispatch(p, r, now, !immediate);
    forall e | e in events
      ensures Mine(t, kind, subs, replies, now, u, immediate, e)
    {
      DispatchStaysInside(p, r, now, !immediate, e);
      if e.MarkWritten? {
        var i :| 0 <= i < Reached(p, r) && e.state == StampedAt(p, r, now, i);
        assert p.updates[i] in p.updates && SameWatermark(p.updates[i], e.state);
      }
    }
  }

  lemma SourceUnique(t: Tables, kind: Kind, subs: seq<Subscription>, replies: seq<SubReplies>, now: int,
                     u: int, immediate: bool, s: NotificationState, u': int, immediate': bool, s': NotificationState)
    requires |replies| == |subs| && OneEntryEach(subs) && s.key == s'.key
    requires HasSource(t, kind, subs, replies, now, u, immediate, s)
    requires HasSource(t, kind, subs, replies, now, u', immediate', s')
    ensures u == u' && immediate == immediate'
  {
    hide FindingsOf;
    var i :| 0 <= i < |subs| && FoundBy(t, kind, subs[i], replies[i], now, u, immediate, s);
    var j :| 0 <= j < |subs| && FoundBy(t, kind, subs[j], replies[j], now, u', immediate', s');
    assert i == j;
  }

  /** Different turns use different slots; the mailbox is shared only between a user's own two turns. */
  lemma TurnsApart(t: Tables, kind: Kind, subs: seq<Subscription>, replies: seq<SubReplies>, now: int,
                   u: int, immediate: bool, e: Event, u': int, immediate': bool, e': Event)
    requires |replies| == |subs| && OneEntryEach(subs)
    requires Mine(t, kind, subs, replies, now, u, immediate, e) && Mine(t, kind, subs, replies, now, u', immediate', e')
    requires u != u' || (immediate != immediate' && !e.Emailed?)
    ensures SlotOf(e) != SlotOf(e')
  {
    hide HasSource;
    if e.MarkWritten? && e'.MarkWritten? {
      var s :| SameWatermark(s, e.state) && HasSource(t, kind, subs, replies, now, u, immediate, s);
      var s' :| SameWatermark(s', e'.state) && HasSource(t, kind, subs, replies, now, u', immediate', s');
      if s.key == s'.key {
        SourceUnique(t, kind, subs, replies, now, u, immediate, s, u', immediate', s');
      }
    }
  }

  lemma InitApart(t: Tables, kind: Kind, subs: seq<Subscription>, replies: seq<SubReplies>, now: int,
                  events: seq<Event>, u: int, immediate: bool, e: Event, e': Event)
    requires |replies| == |subs| && OneEntryEach(subs)
    requires GoodInits(t, kind, subs, replies, now, events) && e in events
    requires Mine(t, kind, subs, replies, now, u, immediate, e')
    ensures SlotOf(e) != SlotOf(e')
  {
    hide FindingsOf, Once;
    if e'.MarkWritten? && e.state.key == e'.state.key {
      var s :| SameWatermark(s, e'.state) && HasSource(t, kind, subs, replies, now, u, immediate, s);
      var i :| 0 <= i < |subs| && FoundBy(t, kind, subs[i], replies[i], now, u, immediate, s);
      var j :| 0 <= j < |subs| && Considered(kind, subs[j], replies[j])
        && e.state.key.watchlistId == subs[j].watchlistId
        && e.state in FindingsOf(t.marks, subs[j], replies[j], now).inits;
      assert i == j;
      InitIsNoSend(t, subs[i], replies[i], now, e.state, s);
    }
  }

  lemma InitIsNoSend(t: Tables, sub: Subscription, r: SubReplies, now: int, init: NotificationState,
                     send: NotificationState)
    requires Usable(r)
    requires init in FindingsOf(t.marks, sub, r, now).inits && send in FindingsOf(t.marks, sub, r, now).sends
    ensures init.key != send.key
  {
    var found := FindingsOf(t.marks, sub, r, now);
    hide FindingsOf;
    SubFindings(t, sub, r, now);
    assert init.key in KeysIn(found.inits) && send.key in KeysIn(found.sends);
  }

  // ----- the two loops -----

  ghost predicate MineAll(t: Tables, kind: Kind, subs: seq<Subscription>, replies: seq<SubReplies>, now: int,
                          turn: Turn, order: seq<int>, immediate: bool)
    requires |replies| == |subs|
  {
    && Distinct(order)
    && forall u | u in order ::
         Once(turn(u), true) && forall e | e in turn(u) :: Mine(t, kind, subs, replies, now, u, immediate, e)
  }

  lemma ImmediateTurnsAreMine(t: Tables, kind: Kind, subs: seq<Subscription>, r: RunReplies, now: int, queue: Queue,
                              order: seq<int>)
    requires |r.subs| == |subs| && GoodQueue(t, kind, subs, r.subs, now, queue, true) && Distinct(order)
    ensures MineAll(t, kind, subs, r.subs, now, ImmediateTurn(queue, r, now), order, true)
  {
    hide Mine, DispatchEvents, Once, GoodPending;
    EmptyOnce(true);
    forall u | u in order
      ensures Once(ImmediateTurn(queue, r, now)(u), true)
      ensures forall e | e in ImmediateTurn(queue, r, now)(u) :: Mine(t, kind, subs, r.subs, now, u, true, e)
    {
      if u in queue {
        DispatchIsMine(t, kind, subs, r.subs, now, u, queue[u], r.immediate(u), true);
      }
    }
  }

  lemma OneEventOnce(e: Event)
    ensures Once([e], true)
  {
  }

  lemma DigestTurnsAreMine(t: Tables, kind: Kind, subs: seq<Subscription>, r: RunReplies, now: int, queue: Queue,
                           order: seq<int>)
    requires |r.subs| == |subs| && GoodQueue(t, kind, subs, r.subs, now, queue, false) && Distinct(order)
    ensures MineAll(t, kind, subs, r.subs, now, DigestTurn(queue, r, now), order, false)
  {
    hide DispatchEvents, Once, GoodPending, HasSource;
    EmptyOnce(true);
    forall u | u in order
      ensures Once(DigestTurn(queue, r, now)(u), true)
      ensures forall e | e in DigestTurn(queue, r, now)(u) :: Mine(t, kind, subs, r.subs, now, u, false, e)
    {
      if u in queue {
        DispatchIsMine(t, kind, subs, r.subs, now, u, queue[u], r.digest(u), false);
      } else {
        OneEventOnce(DigestWritten(u, Digest(Some(DayOf(now)), None)));
      }
    }
  }

  lemma LoopOnce(t: Tables, kind: Kind, subs: seq<Subscription>, replies: seq<SubReplies>, now: int,
                 turn: Turn, order: seq<int>, immediate: bool)
    requires |replies| == |subs| && OneEntryEach(subs) && MineAll(t, kind, subs, replies, now, turn, order, immediate)
    ensures Once(Turns(turn, order), true)
    ensures forall e | e in Turns(turn, order) :: exists u ::
      u in order && Mine(t, kind, subs, replies, now, u, immediate, e)
  {
    hide Mine, Once, SlotOf, Turns;
    forall u, v | u in order && v in order && u != v
      ensures Apart(turn(u), turn(v), true)
    {
      forall e, f | e in turn(u) && f in turn(v)
        ensures SlotOf(e) != SlotOf(f)
      {
        TurnsApart(t, kind, subs, replies, now, u, immediate, e, v, immediate, f);
      }
    }
    TurnsOnce(turn, order, true);
    TurnsMembers(turn, order);
  }

  // ----- the whole run -----

  /** Preferences belong to users, so a user's subscriptions share their mode. */
  ghost predicate OneModeEach(subs: seq<Subscription>) {
    forall i, j | 0 <= i < |subs| && 0 <= j < |subs| && subs[i].userId == subs[j].userId :: subs[i].mode == subs[j].mode
  }

  lemma QueuedUserHasEntry(t: Tables, kind: Kind, subs: seq<Subscription>, replies: seq<SubReplies>, now: int,
                           u: int, p: Pending, immediate: bool)
    requires |replies| == |subs| && GoodPending(t, kind, subs, replies, now, u, p, immediate)
    ensures exists j | 0 <= j < |subs| :: subs[j].userId == u && Immediately(kind, subs[j]) == immediate
  {
    hide FindingsOf;
    assert p.updates[0] in p.updates;
    var j :| 0 <= j < |subs| && FoundBy(t, kind, subs[j], replies[j], now, u, immediate, p.updates[0]);
  }

  /** With one mode per user, nobody waits in both queues. */
  lemma QueuesApart(t: Tables, kind: Kind, subs: seq<Subscription>, replies: seq<SubReplies>, now: int, a: Queue,
                    b: Queue)
    requires |replies| == |subs| && OneModeEach(subs)
    requires GoodQueue(t, kind, subs, replies, now, a, true) && GoodQueue(t, kind, subs, replies, now, b, false)
    ensures a.Keys !! b.Keys
  {
    hide GoodPending;
    forall u | u in a && u in b
      ensures false
    {
      QueuedUserHasEntry(t, kind, subs, replies, now, u, a[u], true);
      QueuedUserHasEntry(t, kind, subs, replies, now, u, b[u], false);
    }
  }

  /** The three parts of a run's events. */
  lemma RunParts(t: Tables, kind: Kind, subs: seq<Subscription>, r: RunReplies, now: int, immediateOrder: seq<int>,
                 dueOrder: seq<int>)
    requires ValidRun(t, kind, subs, r, now, immediateOrder, dueOrder)
    ensures var c := Collect(t, kind, subs, r.subs, now);
      && GoodInits(t, kind, subs, r.subs, now, c.events)
      && (!c.failed ==>
          && MineAll(t, kind, subs, r.subs, now, ImmediateTurn(c.immediate, r, now), immediateOrder, true)
          && MineAll(t, kind, subs, r.subs, now, DigestTurn(c.digest, r, now),
                     dueOrder[..TurnsTaken(c.digest, r, dueOrder)], false))
  {
    hide GoodInits, GoodQueue, MineAll, Collect, TurnsTaken;
    var c := Collect(t, kind, subs, r.subs, now);
    CollectIsGood(t, kind, subs, r.subs, now);
    if !c.failed {
      ImmediateTurnsAreMine(t, kind, subs, r, now, c.immediate, immediateOrder);
      DigestTurnsAreMine(t, kind, subs, r, now, c.digest, dueOrder[..TurnsTaken(c.digest, r, dueOrder)]);
    }
  }

  lemma WeakerOnce(events: seq<Event>)
    requires Once(events, true)
    ensures Once(events, false)
  {
  }

  /** No run writes a row twice, and with one mode per user it mails no user twice. */
  lemma RunOnce(t: Tables, kind: Kind, subs: seq<Subscription>, r: RunReplies, now: int,
                immediateOrder: seq<int>, dueOrder: seq<int>, mail: bool)
    requires ValidRun(t, kind, subs, r, now, immediateOrder, dueOrder)
    requires mail ==> OneModeEach(subs)
    ensures Once(RunEvents(t, kind, subs, r, now, immediateOrder, dueOrder), mail)
  {
    hide GoodInits, Collect, TurnsTaken, Mine, SlotOf, Once, MineAll;
    var c := Collect(t, kind, subs, r.subs, now);
    RunParts(t, kind, subs, r, now, immediateOrder, dueOrder);
    InitsOnce(t, kind, subs, r.subs, now, c.events);
    if c.failed {
    } else {
      var due := dueOrder[..TurnsTaken(c.digest, r, dueOrder)];
      var (a, b) := (Turns(ImmediateTurn(c.immediate, r, now), immediateOrder),
                     Turns(DigestTurn(c.digest, r, now), due));
      LoopOnce(t, kind, subs, r.subs, now, ImmediateTurn(c.immediate, r, now), immediateOrder, true);
      LoopOnce(t, kind, subs, r.subs, now, DigestTurn(c.digest, r, now), due, false);
      WeakerOnce(a);
      WeakerOnce(b);
      InitsApart(t, kind, subs, r.subs, now, c.events, a, true);
      InitsApart(t, kind, subs, r.subs, now, c.events, b, false);
      OnceConcat(c.events, a, mail);
      LoopsApart(t, kind, subs, r, now, immediateOrder, due, mail);
      ApartConcat(c.events, a, b, mail);
      OnceConcat(c.events + a, b, mail);
    }
  }

  lemma InitsOnce(t: Tables, kind: Kind, subs: seq<Subscription>, replies: seq<SubReplies>, now: int,
                  events: seq<Event>)
    requires |replies| == |subs| && GoodInits(t, kind, subs, replies, now, events)
    ensures Once(events, true) && Once(events, false)
  {
  }

  lemma ApartConcat(a: seq<Event>, b: seq<Event>, c: seq<Event>, mail: bool)
    requires Apart(a, c, mail) && Apart(b, c, mail)
    ensures Apart(a + b, c, mail)
  {
  }

  lemma InitsApart(t: Tables, kind: Kind, subs: seq<Subscription>, replies: seq<SubReplies>, now: int,
                   inits: seq<Event>, events: seq<Event>, immediate: bool)
    requires |replies| == |subs| && OneEntryEach(subs) && GoodInits(t, kind, subs, replies, now, inits)
    requires forall e | e in events :: exists u :: Mine(t, kind, subs, replies, now, u, immediate, e)
    ensures Apart(inits, events, true) && Apart(inits, events, false)
  {
    hide GoodInits, Mine, SlotOf;
    forall e, f | e in inits && f in events
      ensures SlotOf(e) != SlotOf(f)
    {
      var u :| Mine(t, kind, subs, replies, now, u, immediate, f);
      InitApart(t, kind, subs, replies, now, inits, u, immediate, e, f);
    }
  }

  lemma LoopsApart(t: Tables, kind: Kind, subs: seq<Subscription>, r: RunReplies, now: int,
                   immediateOrder: seq<int>, due: seq<int>, mail: bool)
    requires |r.subs| == |subs| && OneEntryEach(subs) && (mail ==> OneModeEach(subs))
    requires var c := Collect(t, kind, subs, r.subs, now);
      && MineAll(t, kind, subs, r.subs, now, ImmediateTurn(c.immediate, r, now), immediateOrder, true)
      && MineAll(t, kind, subs, r.subs, now, DigestTurn(c.digest, r, now), due, false)
    ensures var c := Collect(t, kind, subs, r.subs, now);
      Apart(Turns(ImmediateTurn(c.immediate, r, now), immediateOrder), Turns(DigestTurn(c.digest, r, now), due), mail)
  {
    hide Collect, SlotOf, Once, Turns, DispatchEvents;
    var c := Collect(t, kind, subs, r.subs, now);
    var (a, b) := (ImmediateTurn(c.immediate, r, now), DigestTurn(c.digest, r, now));
    TurnsMembers(a, immediateOrder);
    TurnsMembers(b, due);
    CollectIsGood(t, kind, subs, r.subs, now);
    if mail {
      QueuesApart(t, kind, subs, r.subs, now, c.immediate, c.digest);
    }
    hide GoodQueue, GoodInits;
    forall e, f | e in Turns(a, immediateOrder) && f in Turns(b, due) && (mail || !e.Emailed?)
      ensures SlotOf(e) != SlotOf(f)
    {
      var u :| u in immediateOrder && e in a(u);
      var v :| v in due && f in b(v);
      if u == v && mail && e.Emailed? {
        assert u in c.immediate && v !in c.digest;
        MailNeedsMail(e, f);
      } else {
        TurnsApart(t, kind, subs, r.subs, now, u, true, e, v, false, f);
      }
    }
  }

  lemma MailNeedsMail(e: Event, f: Event)
    requires e.Emailed? && !f.Emailed?
    ensures SlotOf(e) != SlotOf(f)
  {
  }
}
