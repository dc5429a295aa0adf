/** Whom a run may touch: which entries and users its events can belong to. */
module Served {
  import opened Calendar
  import opened Detection
  import opened AlertTables
  import opened Dispatch
  import opened Schedule
  import opened AlertCycle
  import opened CycleFacts
  import opened RunPerUser
  import opened LostChanges
  import opened Isolation

  /** The user has notifications on and is the target, if there is one; the item is active and its history readable. */
  ghost predicate Eligible(kind: Kind, sub: Subscription, r: SubReplies) {
    && sub.notificationsEnabled && (kind.Manual? && kind.target > 0 ==> sub.userId == kind.target)
    && r.item.ItemFound? && r.item.item.isActive && r.history.HistoryFound?
  }

  lemma ConsideredIff(kind: Kind, sub: Subscription, r: SubReplies)
    ensures Considered(kind, sub, r) <==> Eligible(kind, sub, r)
  {
  }

  /** An entry that is not eligible is passed over, whatever else is answered for it. */
  lemma IneligibleIsPassedOver(t: Tables, c: Collection, kind: Kind, sub: Subscription, r: SubReplies, now: int)
    requires !Eligible(kind, sub, r)
    ensures SubscriptionStep(t, c, kind, sub, r, now) == c
  {
    ConsideredIff(kind, sub, r);
    hide Considered;
  }

  /** The event is about this entry: its watermark, or its user's digest row or email. */
  ghost predicate About(kind: Kind, sub: Subscription, e: Event) {
    match e
    case MarkWritten(state) => state.key.watchlistId == sub.watchlistId
    case DigestWritten(user, _) => user == sub.userId && kind.Scheduled? && sub.mode != "immediate"
    case Emailed(user, mode, _, _) =>
      user == sub.userId && mode == if kind.Manual? || sub.mode == "immediate" then "immediate" else "daily_digest"
  }

  ghost predicate AboutEligible(kind: Kind, subs: seq<Subscription>, replies: seq<SubReplies>, e: Event)
    requires |replies| == |subs|
  {
    exists j | 0 <= j < |subs| :: Eligible(kind, subs[j], replies[j]) && About(kind, subs[j], e)
  }

  lemma SourceIsEligible(t: Tables, kind: Kind, subs: seq<Subscription>, replies: seq<SubReplies>, now: int,
                         u: int, immediate: bool, s: NotificationState, e: Event)
    requires |replies| == |subs| && HasSource(t, kind, subs, replies, now, u, immediate, s)
    requires match e
             case MarkWritten(state) => state.key == s.key
             case DigestWritten(user, _) => user == u && !immediate
             case Emailed(user, mode, _, _) => user == u && mode == if immediate then IMMEDIATE else DAILY_DIGEST
    ensures AboutEligible(kind, subs, replies, e)
  {
    hide FindingsOf;
    var j :| 0 <= j < |subs| && FoundBy(t, kind, subs[j], replies[j], now, u, immediate, s);
    ConsideredIff(kind, subs[j], replies[j]);
    hide Considered, Eligible;
    assert About(kind, subs[j], e);
  }

  lemma DispatchIsEligible(t: Tables, kind: Kind, subs: seq<Subscription>, replies: seq<SubReplies>, now: int,
                           u: int, p: Pending, immediate: bool, r: DispatchReplies, e: Event)
    requires |replies| == |subs| && GoodPending(t, kind, subs, replies, now, u, p, immediate)
    requires e in DispatchEvents(p, r, now, !immediate)
    ensures AboutEligible(kind, subs, replies, e)
  {
    DispatchStaysInside(p, r, now, !immediate, e);
    MarksOfDispatch(p, r, now, !immediate);
    hide DispatchEvents, HasSource, AboutEligible, CanMail, SortedChanges, DayOf;
    assert |p.updates| == |p.changes| > 0 && p.updates[0] in p.updates;
    if e.MarkWritten? {
      var i :| 0 <= i < Reached(p, r) && e.state == StampedAt(p, r, now, i);
      assert p.updates[i] in p.updates;
      SourceIsEligible(t, kind, subs, replies, now, u, immediate, p.updates[i], e);
    } else {
      SourceIsEligible(t, kind, subs, replies, now, u, immediate, p.updates[0], e);
    }
  }

  lemma DueIsEligible(t: Tables, kind: Kind, subs: seq<Subscription>, replies: seq<SubReplies>, now: int, u: int,
                      digest: Digest)
    requires |replies| == |subs| && !Collect(t, kind, subs, replies, now).failed
      && u in Collect(t, kind, subs, replies, now).due
    ensures AboutEligible(kind, subs, replies, DigestWritten(u, digest))
  {
    hide Collect, ShouldProcessDigest;
    DueIff(t, kind, subs, replies, now, u);
    var j :| 0 <= j < |subs| && Routed(t, kind, subs[j], replies[j], now, u, false);
    ConsideredIff(kind, subs[j], replies[j]);
    hide Considered, Eligible;
    assert About(kind, subs[j], DigestWritten(u, digest));
  }

  lemma InitIsEligible(t: Tables, kind: Kind, subs: seq<Subscription>, replies: seq<SubReplies>, now: int,
                       events: seq<Event>, e: Event)
    requires |replies| == |subs| && GoodInits(t, kind, subs, replies, now, events) && e in events
    ensures AboutEligible(kind, subs, replies, e)
  {
    hide FindingsOf;
    var j :| 0 <= j < |subs| && Considered(kind, subs[j], replies[j]) && e.state.key.watchlistId == subs[j].watchlistId
      && e.state in FindingsOf(t.marks, subs[j], replies[j], now).inits;
    ConsideredIff(kind, subs[j], replies[j]);
    hide Considered, Eligible;
    assert About(kind, subs[j], e);
  }

  /** Every event of a run is about an eligible entry: nobody who has switched notifications off is mailed or marked,
      nor anybody but the target, nor for an item that is gone or inactive. */
  lemma RunServesEligible(t: Tables, kind: Kind, subs: seq<Subscription>, r: RunReplies, now: int,
                          immediateOrder: seq<int>, dueOrder: seq<int>, e: Event)
    requires ValidRun(t, kind, subs, r, now, immediateOrder, dueOrder)
    requires e in RunEvents(t, kind, subs, r, now, immediateOrder, dueOrder)
    ensures AboutEligible(kind, subs, r.subs, e)
  {
    hide SubscriptionStep, Turns, TurnsTaken, GoodInits, GoodPending, DispatchEvents, AboutEligible, Once;
    var c := Collect(t, kind, subs, r.subs, now);
    CollectIsGood(t, kind, subs, r.subs, now);
    if c.failed {
      InitIsEligible(t, kind, subs, r.subs, now, c.events, e);
    } else {
      EventOfPart(t, kind, subs, r, now, immediateOrder, dueOrder, e);
      hide RunEvents;
      if e in c.events {
        InitIsEligible(t, kind, subs, r.subs, now, c.events, e);
      } else if v :| v in immediateOrder && e in ImmediateTurn(c.immediate, r, now)(v) {
        DispatchIsEligible(t, kind, subs, r.subs, now, v, c.immediate[v], true, r.immediate(v), e);
      } else {
        var v :| v in dueOrder[..TurnsTaken(c.digest, r, dueOrder)] && e in DigestTurn(c.digest, r, now)(v);
        if v in c.digest {
          DispatchIsEligible(t, kind, subs, r.subs, now, v, c.digest[v], false, r.digest(v), e);
        } else {
          assert v in dueOrder;
          DueIsEligible(t, kind, subs, r.subs, now, v, e.digest);
        }
      }
    }
  }
}
