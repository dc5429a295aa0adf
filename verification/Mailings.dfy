/** Whether a user is ever told the same thing twice: exactly when an email carries the day and value of an earlier
    one. */
module Mailings {
  import opened Options
  import opened GoStrings
  import opened Calendar
  import opened Grouping
  import opened Detection
  import opened AlertTables
  import opened Dispatch
  import opened Schedule
  import opened AlertCycle
  import opened CycleFacts
  import opened CycleTheorems
  import opened RunPerUser
  import opened Redetection
  import opened LiveReads
  import opened LostChanges
  import opened Served
  import opened AlertRuns
  import opened CatchUp

  /** The run mails user u, and the email carries the i-th update queued for that user. */
  ghost predicate Mails(t: Tables, op: Op, u: int, immediate: bool, i: nat) {
    && op.Run? && |op.r.subs| == |op.subs|
    && var c := Collect(t, op.kind, op.subs, op.r.subs, op.now);
    && !c.failed && u in QueueOf(c, immediate) && TurnComes(c, op.r, op.dueOrder, u, immediate)
    && i < |QueueOf(c, immediate)[u].updates|
    && EmailPart(QueueOf(c, immediate)[u], RepliesFor(op.r, u, immediate), op.now) != []
  }

  ghost function UpdateOf(t: Tables, op: Op, u: int, immediate: bool, i: nat): NotificationState
    requires Mails(t, op, u, immediate, i)
  {
    QueueOf(Collect(t, op.kind, op.subs, op.r.subs, op.now), immediate)[u].updates[i]
  }

  /** The write of that update succeeds after the email. */
  ghost predicate WriteFollows(t: Tables, op: Op, u: int, immediate: bool, i: nat)
    requires Mails(t, op, u, immediate, i)
  {
    i < Reached(QueueOf(Collect(t, op.kind, op.subs, op.r.subs, op.now), immediate)[u], RepliesFor(op.r, u, immediate))
  }

  /** The change shows the update's pair, day and value. */
  predicate Tells(c: Change, itemId: string, s: NotificationState) {
    && c.itemId == itemId && c.source == s.key.source && c.gameMode == s.key.gameMode
    && ParseDate(c.collectedOn) == s.mark.day && Some(c.current) == s.mark.value
  }

  lemma {:induction false} ChangesOfItem(watchlistId: int, item: Item, groups: seq<seq<PriceRow>>, current: Lookup,
                                         now: int)
    requires NoEmptyGroup(groups)
    ensures forall c | c in Detected(watchlistId, item, groups, current, now).changes :: c.itemId == item.id
  {
    hide Decide;
    if groups != [] {
      ChangesOfItem(watchlistId, item, groups[..|groups| - 1], current, now);
    }
  }

  lemma FoundTells(t: Tables, sub: Subscription, r: SubReplies, now: int)
    requires Usable(r)
    ensures var found := FindingsOf(t.marks, sub, r, now);
      |found.changes| == |found.sends| && forall k | 0 <= k < |found.sends| ::
        Tells(found.changes[k], r.item.item.id, found.sends[k])
  {
    SubFindings(t, sub, r, now);
    GroupedIsGrouping(r.history.rows);
    ChangesOfItem(sub.watchlistId, r.item.item, Grouped(r.history.rows), TableLookup(t.marks, sub.watchlistId), now);
    hide Detected, Grouped, ParseDate;
  }

  /** The i-th routed change tells the i-th routed update of one of the user's entries. */
  ghost predicate TellsRouted(t: Tables, kind: Kind, subs: seq<Subscription>, replies: seq<SubReplies>, now: int,
                              u: int, immediate: bool, c: Change, s: NotificationState)
    requires |replies| == |subs|
  {
    exists j | 0 <= j < |subs| ::
      && Routed(t, kind, subs[j], replies[j], now, u, immediate) && s.key.watchlistId == subs[j].watchlistId
      && s in FindingsOf(t.marks, subs[j], replies[j], now).sends && Tells(c, replies[j].item.item.id, s)
  }

  lemma TellsMore(t: Tables, kind: Kind, subs: seq<Subscription>, replies: seq<SubReplies>, now: int, u: int,
                  immediate: bool, c: Change, s: NotificationState)
    requires |replies| == |subs| > 0
    requires TellsRouted(t, kind, subs[..|subs| - 1], replies[..|subs| - 1], now, u, immediate, c, s)
    ensures TellsRouted(t, kind, subs, replies, now, u, immediate, c, s)
  {
    hide FindingsOf, ShouldProcessDigest, Tells;
    var (front, back) := (subs[..|subs| - 1], replies[..|subs| - 1]);
    var j :| 0 <= j < |front| && Routed(t, kind, front[j], back[j], now, u, immediate)
      && s.key.watchlistId == front[j].watchlistId
      && s in FindingsOf(t.marks, front[j], back[j], now).sends && Tells(c, back[j].item.item.id, s);
    assert Routed(t, kind, subs[j], replies[j], now, u, immediate);
  }

  lemma TellsLast(t: Tables, kind: Kind, subs: seq<Subscription>, replies: seq<SubReplies>, now: int, u: int,
                  immediate: bool)
    requires |replies| == |subs| > 0 && Routed(t, kind, subs[|subs| - 1], replies[|subs| - 1], now, u, immediate)
    ensures Usable(replies[|subs| - 1])
    ensures var found := FindingsOf(t.marks, subs[|subs| - 1], replies[|subs| - 1], now);
      && |found.changes| == |found.sends|
      && forall k | 0 <= k < |found.sends| ::
        TellsRouted(t, kind, subs, replies, now, u, immediate, found.changes[k], found.sends[k])
  {
    hide FindingsOf, Routed, Tells;
    var (sub, r) := (subs[|subs| - 1], replies[|subs| - 1]);
    RoutedIsUsable(t, kind, sub, r, now, u, immediate);
    SubFindings(t, sub, r, now);
    FoundTells(t, sub, r, now);
  }

  ghost predicate AllTold(t: Tables, kind: Kind, subs: seq<Subscription>, replies: seq<SubReplies>, now: int, u: int,
                          immediate: bool, found: Findings)
    requires |replies| == |subs|
  {
    && |found.changes| == |found.sends|
    && forall i | 0 <= i < |found.sends| ::
      TellsRouted(t, kind, subs, replies, now, u, immediate, found.changes[i], found.sends[i])
  }

  lemma ToldConcat(t: Tables, kind: Kind, subs: seq<Subscription>, replies: seq<SubReplies>, now: int, u: int,
                   immediate: bool, a: Findings, b: Findings)
    requires |replies| == |subs|
    requires AllTold(t, kind, subs, replies, now, u, immediate, a)
      && AllTold(t, kind, subs, replies, now, u, immediate, b)
    ensures AllTold(t, kind, subs, replies, now, u, immediate, Findings(a.changes + b.changes, [], a.sends + b.sends))
  {
    hide TellsRouted;
  }

  lemma {:induction false} RoutedTells(t: Tables, kind: Kind, subs: seq<Subscription>, replies: seq<SubReplies>,
                                       now: int, u: int, immediate: bool)
    requires |replies| == |subs|
    ensures AllTold(t, kind, subs, replies, now, u, immediate,
                    RoutedFindings(t, kind, subs, replies, now, u, immediate))
  {
    hide FindingsOf, Routed, TellsRouted;
    if subs != [] {
      var n := |subs| - 1;
      var before := RoutedFindings(t, kind, subs[..n], replies[..n], now, u, immediate);
      RoutedTells(t, kind, subs[..n], replies[..n], now, u, immediate);
      forall i | 0 <= i < |before.sends|
        ensures TellsRouted(t, kind, subs, replies, now, u, immediate, before.changes[i], before.sends[i])
      {
        TellsMore(t, kind, subs, replies, now, u, immediate, before.changes[i], before.sends[i]);
      }
      if Routed(t, kind, subs[n], replies[n], now, u, immediate) {
        TellsLast(t, kind, subs, replies, now, u, immediate);
        ToldConcat(t, kind, subs, replies, now, u, immediate, before, FindingsOf(t.marks, subs[n], replies[n], now));
      }
    }
  }

  /** What the change tells is the update, of the item that the catalog gave for the update's entry. */
  ghost predicate TellsEntry(op: Op, c: Change, s: NotificationState)
    requires op.Run? && |op.r.subs| == |op.subs|
  {
    exists j | 0 <= j < |op.subs| ::
      op.subs[j].watchlistId == s.key.watchlistId && Usable(op.r.subs[j]) && Tells(c, op.r.subs[j].item.item.id, s)
  }

  lemma QueuedTells(t: Tables, op: Op, u: int, immediate: bool, i: nat)
    requires op.Run? && |op.r.subs| == |op.subs|
    requires var c := Collect(t, op.kind, op.subs, op.r.subs, op.now);
      !c.failed && u in QueueOf(c, immediate) && i < |QueueOf(c, immediate)[u].updates|
    ensures var p := QueueOf(Collect(t, op.kind, op.subs, op.r.subs, op.now), immediate)[u];
      && |p.changes| == |p.updates| && p.userId == u
      && TellsEntry(op, p.changes[i], p.updates[i])
  {
    hide Collect, FindingsOf, ShouldProcessDigest, Tells, Paired;
    var c := Collect(t, op.kind, op.subs, op.r.subs, op.now);
    QueuesHoldRoutedFindings(t, op.kind, op.subs, op.r.subs, op.now);
    RoutedTells(t, op.kind, op.subs, op.r.subs, op.now, u, immediate);
    var found := RoutedFindings(t, op.kind, op.subs, op.r.subs, op.now, u, immediate);
    assert Get(QueueOf(c, immediate), u) == PendingFor(u, immediate, found);
    assert TellsRouted(t, op.kind, op.subs, op.r.subs, op.now, u, immediate, found.changes[i], found.sends[i]);
  }

  /** An email of the operation to the user tells the update. */
  ghost predicate Told(t: Tables, op: Op, u: int, s: NotificationState) {
    op.Run? && |op.r.subs| == |op.subs|
    && exists e, c ::
      e in OpEvents(t, op) && e.Emailed? && e.user == u && e.at == op.now && c in e.changes && TellsEntry(op, c, s)
  }

  /** A mailed update is told by an email of the run. */
  lemma MailedIsTold(t: Tables, op: Op, u: int, immediate: bool, i: nat)
    requires Mails(t, op, u, immediate, i)
      && ValidRun(t, op.kind, op.subs, op.r, op.now, op.immediateOrder, op.dueOrder)
    ensures Told(t, op, u, UpdateOf(t, op, u, immediate, i))
  {
    hide Collect, RunEvents, CanMail, SortedChanges, TurnComes, TellsEntry;
    QueuedTells(t, op, u, immediate, i);
    var p := QueueOf(Collect(t, op.kind, op.subs, op.r.subs, op.now), immediate)[u];
    var e := EmailOf(p, op.now);
    assert EmailPart(p, RepliesFor(op.r, u, immediate), op.now) == [e];
    DispatchIsPart(t, op.kind, op.subs, op.r, op.now, op.immediateOrder, op.dueOrder, u, immediate, e);
    SameMembers(SortedChanges(p.changes), p.changes);
    assert p.changes[i] in e.changes && TellsEntry(op, p.changes[i], UpdateOf(t, op, u, immediate, i));
  }

  /** And an email tells nothing but mailed updates of its user. */
  lemma ToldIsMailed(t: Tables, op: Op, e: Event, c: Change)
    requires op.Run? && ValidRun(t, op.kind, op.subs, op.r, op.now, op.immediateOrder, op.dueOrder)
    requires e in OpEvents(t, op) && e.Emailed? && c in e.changes
    ensures exists immediate, i: nat ::
      Mails(t, op, e.user, immediate, i) && TellsEntry(op, c, UpdateOf(t, op, e.user, immediate, i))
  {
    hide SubscriptionStep, RunEvents, CanMail, SortedChanges, TellsEntry, Turns, TurnsTaken, FindingsOf, GoodPending,
      Once;
    var (kind, subs, r, now) := (op.kind, op.subs, op.r, op.now);
    var col := Collect(t, kind, subs, r.subs, now);
    CollectIsGood(t, kind, subs, r.subs, now);
    hide GoodQueue;
    InitsAreMarks(t, kind, subs, r.subs, now, col.events);
    NoMailWhenFailed(t, op, e);
    EventOfPart(t, kind, subs, r, now, op.immediateOrder, op.dueOrder, e);
    if v :| v in op.immediateOrder && e in ImmediateTurn(col.immediate, r, now)(v) {
      EmailOfTurn(t, op, v, true, e, c);
    } else {
      var v :| v in op.dueOrder[..TurnsTaken(col.digest, r, op.dueOrder)] && e in DigestTurn(col.digest, r, now)(v);
      EmailOfTurn(t, op, v, false, e, c);
    }
  }

  lemma NoMailWhenFailed(t: Tables, op: Op, e: Event)
    requires op.Run? && ValidRun(t, op.kind, op.subs, op.r, op.now, op.immediateOrder, op.dueOrder)
    requires e in OpEvents(t, op) && e.Emailed?
    ensures !Collect(t, op.kind, op.subs, op.r.subs, op.now).failed
  {
    hide Collect, GoodQueue, FindingsOf;
    CollectIsGood(t, op.kind, op.subs, op.r.subs, op.now);
  }

  lemma EmailOfTurn(t: Tables, op: Op, v: int, immediate: bool, e: Event, c: Change)
    requires op.Run? && |op.r.subs| == |op.subs|
    requires var col := Collect(t, op.kind, op.subs, op.r.subs, op.now);
      && !col.failed && v in QueueOf(col, immediate) && TurnComes(col, op.r, op.dueOrder, v, immediate)
      && e in DispatchEvents(QueueOf(col, immediate)[v], RepliesFor(op.r, v, immediate), op.now, !immediate)
    requires e.Emailed? && c in e.changes
    ensures exists i: nat :: Mails(t, op, v, immediate, i) && TellsEntry(op, c, UpdateOf(t, op, v, immediate, i))
    ensures e.user == v
  {
    hide Collect, CanMail, SortedChanges, TellsEntry, TurnComes;
    var col := Collect(t, op.kind, op.subs, op.r.subs, op.now);
    var (p, dr) := (QueueOf(col, immediate)[v], RepliesFor(op.r, v, immediate));
    DispatchStaysInside(p, dr, op.now, !immediate, e);
    SameMembers(SortedChanges(p.changes), p.changes);
    var i :| 0 <= i < |p.changes| && p.changes[i] == c;
    QueuedLengths(t, op, v, immediate);
    QueuedTells(t, op, v, immediate, i);
    MailMakesPart(p, dr, op.now, !immediate, e);
    assert Mails(t, op, v, immediate, i);
  }

  lemma QueuedLengths(t: Tables, op: Op, u: int, immediate: bool)
    requires op.Run? && |op.r.subs| == |op.subs|
    requires var c := Collect(t, op.kind, op.subs, op.r.subs, op.now); !c.failed && u in QueueOf(c, immediate)
    ensures var p := QueueOf(Collect(t, op.kind, op.subs, op.r.subs, op.now), immediate)[u];
      |p.changes| == |p.updates| && p.changes != [] && p.userId == u
  {
    hide Collect, FindingsOf, ShouldProcessDigest, Paired;
    var c := Collect(t, op.kind, op.subs, op.r.subs, op.now);
    QueuesHoldRoutedFindings(t, op.kind, op.subs, op.r.subs, op.now);
    RoutedTells(t, op.kind, op.subs, op.r.subs, op.now, u, immediate);
    assert Get(QueueOf(c, immediate), u)
        == PendingFor(u, immediate, RoutedFindings(t, op.kind, op.subs, op.r.subs, op.now, u, immediate));
  }

  lemma MailMakesPart(p: Pending, r: DispatchReplies, now: int, markDigest: bool, e: Event)
    requires e in DispatchEvents(p, r, now, markDigest) && e.Emailed?
    ensures EmailPart(p, r, now) != []
  {
    hide CanMail, SortedChanges, DayOf;
  }

  /** A mailed update advances its watermark as it stands when the run starts. */
  lemma MailedUpdateAdvances(t: Tables, op: Op, u: int, immediate: bool, i: nat)
    requires Mails(t, op, u, immediate, i)
      && ValidRun(t, op.kind, op.subs, op.r, op.now, op.immediateOrder, op.dueOrder)
    ensures var s := UpdateOf(t, op, u, immediate, i); Advances(Get(t.marks, s.key), s.mark)
  {
    hide SubscriptionStep, FindingsOf, GoodInits, Paired;
    var s := UpdateOf(t, op, u, immediate, i);
    var c := Collect(t, op.kind, op.subs, op.r.subs, op.now);
    CollectIsGood(t, op.kind, op.subs, op.r.subs, op.now);
    assert GoodPending(t, op.kind, op.subs, op.r.subs, op.now, u, QueueOf(c, immediate)[u], immediate);
    assert s in QueueOf(c, immediate)[u].updates;
    var j :| 0 <= j < |op.subs| && FoundBy(t, op.kind, op.subs[j], op.r.subs[j], op.now, u, immediate, s);
    SubFindings(t, op.subs[j], op.r.subs[j], op.now);
  }

  /** When its write follows the email, the watermark holds the mailed day and value after the run. */
  lemma MailedUpdateIsHeld(t: Tables, op: Op, u: int, immediate: bool, i: nat)
    requires Mails(t, op, u, immediate, i)
      && ValidRun(t, op.kind, op.subs, op.r, op.now, op.immediateOrder, op.dueOrder)
    requires WriteFollows(t, op, u, immediate, i)
    ensures var (s, row) := (UpdateOf(t, op, u, immediate, i),
                             Get(ApplyAll(t, OpEvents(t, op)).marks, UpdateOf(t, op, u, immediate, i).key));
      row.Some? && row.value.day == s.mark.day && row.value.value == s.mark.value
  {
    hide SubscriptionStep, RunEvents, Turns, TurnsTaken, CanMail, DispatchEvents, Once, TurnComes;
    var c := Collect(t, op.kind, op.subs, op.r.subs, op.now);
    var (p, replies) := (QueueOf(c, immediate)[u], RepliesFor(op.r, u, immediate));
    MarksOfDispatch(p, replies, op.now, !immediate);
    var e := MarkWritten(StampedAt(p, replies, op.now, i));
    DispatchIsPart(t, op.kind, op.subs, op.r, op.now, op.immediateOrder, op.dueOrder, u, immediate, e);
    RunOnce(t, op.kind, op.subs, op.r, op.now, op.immediateOrder, op.dueOrder, false);
    FinalMark(t, OpEvents(t, op), e.state);
  }

  // ----- between two emails -----

  lemma {:induction false} ValidAt(s: State, ops: seq<Op>, items: int -> string, k: nat)
    requires Valid(s, ops, items) && k < |ops|
    ensures ValidOp(StateAfter(s, ops[..k]), ops[k], items)
  {
    hide ValidOp, StateAfter, Clear;
    var n := |ops| - 1;
    if k < n {
      ValidAt(s, ops[..n], items, k);
      assert ops[..n][..k] == ops[..k];
    }
  }

  lemma NextState(s: State, ops: seq<Op>, k: nat)
    requires k < |ops|
    ensures StateAfter(s, ops[..k + 1]) == Step(StateAfter(s, ops[..k]), ops[k])
  {
    hide Step;
    assert ops[..k + 1][..k] == ops[..k];
  }

  /** No operation from i on, up to the j-th, writes the key's watermark. */
  ghost predicate NoneWrites(s: State, ops: seq<Op>, i: nat, j: nat, key: MarkKey)
    requires j <= |ops|
  {
    forall k | i <= k < j :: !WritesMark(OpEvents(StateAfter(s, ops[..k]).tables, ops[k]), key)
  }

  lemma {:induction false} RowBetweenOps(s: State, ops: seq<Op>, items: int -> string, i: nat, j: nat, key: MarkKey)
    requires Valid(s, ops, items) && i <= j <= |ops|
    ensures var (before, after) := (Get(StateAfter(s, ops[..i]).tables.marks, key),
                                    Get(StateAfter(s, ops[..j]).tables.marks, key));
      NotBack(before, after) && (NoneWrites(s, ops, i, j, key) ==> before == after)
    decreases j - i
  {
    hide OpEvents, ValidOp, Valid, StateAfter, Steps, WritesMark;
    if i < j {
      var t := StateAfter(s, ops[..j - 1]).tables;
      RowBetweenOps(s, ops, items, i, j - 1, key);
      ValidAt(s, ops, items, j - 1);
      NextState(s, ops, j - 1);
      OpSteps(StateAfter(s, ops[..j - 1]), ops[j - 1], items);
      StepsNeverGoBack(t, OpEvents(t, ops[j - 1]), key);
      if !WritesMark(OpEvents(t, ops[j - 1]), key) {
        MarkUntouched(t, OpEvents(t, ops[j - 1]), key);
      }
    }
  }

  // ----- the same history again -----

  lemma {:induction false} LeftMembers(states: seq<NotificationState>, done: Pairs)
    ensures forall s :: s in LeftStates(states, done) <==> s in states && (s.key.source, s.key.gameMode) !in done
  {
    if states != [] {
      var n := |states| - 1;
      LeftMembers(states[..n], done);
      assert states == states[..n] + [states[n]];
    }
  }

  /** After a run, a change it found for an entry is found again on the same history, with the same day and value,
      exactly when the run did not write its watermark. */
  lemma FoundAgainIff(t: Tables, kind: Kind, subs: seq<Subscription>, r: RunReplies, now: int,
                      immediateOrder: seq<int>, dueOrder: seq<int>, j: nat, s: NotificationState, later: int)
    requires ValidRun(t, kind, subs, r, now, immediateOrder, dueOrder) && j < |subs| && Usable(r.subs[j])
    requires s in FindingsOf(t.marks, subs[j], r.subs[j], now).sends
    ensures var events := RunEvents(t, kind, subs, r, now, immediateOrder, dueOrder);
      (exists s' ::
       s' in FindingsOf(ApplyAll(t, events).marks, subs[j], r.subs[j], later).sends && SameWatermark(s, s'))
      <==> !WritesMark(events, s.key)
  {
    hide RunEvents, Grouped, WrittenPairs, Once, WritesFindings, ParseDate;
    var (sub, rep) := (subs[j], r.subs[j]);
    var (rows, events) := (rep.history.rows, RunEvents(t, kind, subs, r, now, immediateOrder, dueOrder));
    var (groups, current) := (Grouped(rows), TableLookup(t.marks, sub.watchlistId));
    RunOnce(t, kind, subs, r, now, immediateOrder, dueOrder, false);
    RunWritesFindings(t, kind, subs, r, now, immediateOrder, dueOrder, j);
    GroupedIsGrouping(rows);
    GroupingAscends(rows, groups);
    DetectAfterWrites(t, events, sub.watchlistId, rep.item.item, groups, now, later);
    TimeOnlyStamps(sub.watchlistId, rep.item.item, groups, current, now, later);
    FindingsSound(sub.watchlistId, rep.item.item, groups, current, now);
    var (found, again) := (Detected(sub.watchlistId, rep.item.item, groups, current, now),
                           Detected(sub.watchlistId, rep.item.item, groups, current, later));
    LeftMembers(again.sends, WrittenPairs(events, sub.watchlistId));
    hide Detected;
    var i :| 0 <= i < |found.sends| && found.sends[i] == s;
    var s' := again.sends[i];
    assert s' in again.sends && SameWatermark(s, s');
    PairIsWritten(events, sub.watchlistId, s.key);
    assert found.sends[i].key.watchlistId == sub.watchlistId;
  }

  lemma PairIsWritten(events: seq<Event>, watchlistId: int, key: MarkKey)
    requires key.watchlistId == watchlistId
    ensures (key.source, key.gameMode) in WrittenPairs(events, watchlistId) <==> WritesMark(events, key)
  {
    if e :| e in events && e.MarkWritten? && e.state.key == key {
      assert (e.state.key.source, e.state.key.gameMode) in WrittenPairs(events, watchlistId);
    }
    if (key.source, key.gameMode) in WrittenPairs(events, watchlistId) {
      var e :| e in events && e.MarkWritten? && e.state.key.watchlistId == watchlistId
        && (e.state.key.source, e.state.key.gameMode) == (key.source, key.gameMode);
      assert e.state.key == key;
    }
  }

  /** A mailed update's watermark is written by the run exactly when the dispatch reaches its write. */
  lemma MailedIsWrittenIff(t: Tables, op: Op, u: int, immediate: bool, i: nat)
    requires Mails(t, op, u, immediate, i)
      && ValidRun(t, op.kind, op.subs, op.r, op.now, op.immediateOrder, op.dueOrder)
    ensures WritesMark(OpEvents(t, op), UpdateOf(t, op, u, immediate, i).key) <==> WriteFollows(t, op, u, immediate, i)
  {
    hide SubscriptionStep, RunEvents, Turns, TurnsTaken, CanMail, DispatchEvents, GoodInits, HasSource, Paired,
      TurnComes, SortedChanges;
    var c := Collect(t, op.kind, op.subs, op.r.subs, op.now);
    var (p, replies, s) := (QueueOf(c, immediate)[u], RepliesFor(op.r, u, immediate), UpdateOf(t, op, u, immediate, i));
    CollectIsGood(t, op.kind, op.subs, op.r.subs, op.now);
    assert GoodPending(t, op.kind, op.subs, op.r.subs, op.now, u, p, immediate);
    MarksOfDispatch(p, replies, op.now, !immediate);
    if WriteFollows(t, op, u, immediate, i) {
      var e := MarkWritten(StampedAt(p, replies, op.now, i));
      DispatchIsPart(t, op.kind, op.subs, op.r, op.now, op.immediateOrder, op.dueOrder, u, immediate, e);
    }
    if e :| e in OpEvents(t, op) && e.MarkWritten? && e.state.key == s.key {
      UpdateWrittenByTurn(t, op.kind, op.subs, op.r, op.now, op.immediateOrder, op.dueOrder, u, immediate, s, e);
      var k :| 0 <= k < Reached(p, replies) && e.state == StampedAt(p, replies, op.now, k);
      assert p.updates[k].key == p.updates[i].key;
    }
  }

  // ----- exactly when an email carries a given day and value -----

  /** The key has a watermark that names a day, so that a difference is sent and not merely recorded. */
  predicate Tracked(row: Option<Mark>) {
    row.Some? && row.value.day.Some?
  }

  lemma {:induction false} DetectedIff(watchlistId: int, item: Item, groups: seq<seq<PriceRow>>, current: Lookup,
                                       now: int, s: NotificationState)
    requires NoEmptyGroup(groups) && s.key.watchlistId == watchlistId && s.mark.day.Some?
    ensures (exists s' :: s' in Detected(watchlistId, item, groups, current, now).sends && SameWatermark(s, s'))
      <==> exists g :: g in groups && SentFrom(current, g, s)
  {
    hide ParseDate;
    if groups != [] {
      var (front, g) := (groups[..|groups| - 1], groups[|groups| - 1]);
      DetectedIff(watchlistId, item, front, current, now, s);
      assert groups == front + [g];
      assert forall h :: h in groups <==> h in front || h == g;
      var (before, found) := (Detected(watchlistId, item, front, current, now),
                              Detected(watchlistId, item, groups, current, now));
      SendIff(watchlistId, item, g, current, now, s, before);
      assert found == Add(before, watchlistId, item, g[0], Decide(g, Current(current, g[0])), now);
    }
  }

  /** The group's newest row has the update's pair, day and value, and moves the pair's watermark on. */
  predicate SentFrom(current: Lookup, g: seq<PriceRow>, s: NotificationState) {
    FromGroup(s, g) && Tracked(Current(current, g[0])) && Advances(Current(current, g[0]), s.mark)
  }

  lemma SendIff(watchlistId: int, item: Item, g: seq<PriceRow>, current: Lookup, now: int, s: NotificationState,
                before: Findings)
    requires g != [] && s.key.watchlistId == watchlistId && s.mark.day.Some?
    ensures (exists s' ::
             s' in Add(before, watchlistId, item, g[0], Decide(g, Current(current, g[0])), now).sends
               && SameWatermark(s, s'))
      <==> (exists s' :: s' in before.sends && SameWatermark(s, s')) || SentFrom(current, g, s)
  {
    hide ParseDate;
    var decision := Decide(g, Current(current, g[0]));
    var after := Add(before, watchlistId, item, g[0], decision, now);
    if decision.Send? {
      var added := StateFor(watchlistId, g[0], Mark(Some(decision.day), Some(decision.value), Some(now)));
      assert after.sends == before.sends + [added];
      assert SameWatermark(s, added) <==> SentFrom(current, g, s);
      assert added in after.sends;
    }
  }

  /** The newest row shown for the update's pair has its day and value. */
  ghost predicate Heads(r: SubReplies, s: NotificationState) {
    Usable(r) && exists g :: g in Grouped(r.history.rows) && FromGroup(s, g)
  }

  /** A detection sends a key with a given day and value exactly when that is what the newest row shows and it moves a
      watermark that names a day. */
  lemma FoundIff(marks: Marks, sub: Subscription, r: SubReplies, now: int, s: NotificationState)
    requires Usable(r) && s.key.watchlistId == sub.watchlistId && s.mark.day.Some?
    ensures (exists s' :: s' in FindingsOf(marks, sub, r, now).sends && SameWatermark(s, s'))
      <==> Heads(r, s) && Tracked(Get(marks, s.key)) && Advances(Get(marks, s.key), s.mark)
  {
    hide Detected, Grouped, ParseDate, Advances;
    var (groups, current) := (Grouped(r.history.rows), TableLookup(marks, sub.watchlistId));
    GroupedIsGrouping(r.history.rows);
    DetectedIff(sub.watchlistId, r.item.item, groups, current, now, s);
    forall g: seq<PriceRow> | g in groups && FromGroup(s, g)
      ensures Current(current, g[0]) == Get(marks, s.key)
    {
      assert MarkKey(sub.watchlistId, g[0].source, g[0].gameMode) == s.key;
    }
  }

  predicate GoesOut(r: DispatchReplies) {
    CanMail(r.contact) && r.renderOk && r.sendOk
  }

  /** The run gets as far as an email to the user about the entry, and the entry's newest row is the update's. */
  ghost predicate WouldSay(t: Tables, op: Op, j: nat, u: int, immediate: bool, s: NotificationState) {
    && op.Run? && |op.r.subs| == |op.subs| && j < |op.subs|
    && var c := Collect(t, op.kind, op.subs, op.r.subs, op.now);
    && !c.failed && Routed(t, op.kind, op.subs[j], op.r.subs[j], op.now, u, immediate) && Heads(op.r.subs[j], s)
    && TurnComes(c, op.r, op.dueOrder, u, immediate) && GoesOut(RepliesFor(op.r, u, immediate))
  }

  /** An email of the run to the user carries the key with this day and value. */
  ghost predicate Says(t: Tables, op: Op, u: int, immediate: bool, s: NotificationState) {
    exists y: nat :: Mails(t, op, u, immediate, y) && SameWatermark(s, UpdateOf(t, op, u, immediate, y))
  }

  lemma SaidIsTold(t: Tables, op: Op, u: int, immediate: bool, s: NotificationState)
    requires op.Run? && ValidRun(t, op.kind, op.subs, op.r, op.now, op.immediateOrder, op.dueOrder)
      && Says(t, op, u, immediate, s)
    ensures Told(t, op, u, s)
  {
    hide Collect, OpEvents, Mails, UpdateOf, ParseDate;
    var y: nat :| Mails(t, op, u, immediate, y) && SameWatermark(s, UpdateOf(t, op, u, immediate, y));
    MailedIsTold(t, op, u, immediate, y);
    var e, c :| e in OpEvents(t, op) && e.Emailed? && e.user == u && e.at == op.now && c in e.changes
      && TellsEntry(op, c, UpdateOf(t, op, u, immediate, y));
    assert TellsEntry(op, c, s);
  }

  lemma SaysForward(t: Tables, op: Op, j: nat, u: int, immediate: bool, s: NotificationState)
    requires op.Run? && ValidRun(t, op.kind, op.subs, op.r, op.now, op.immediateOrder, op.dueOrder)
    requires j < |op.subs| && s.key.watchlistId == op.subs[j].watchlistId && s.mark.day.Some?
      && Says(t, op, u, immediate, s)
    ensures WouldSay(t, op, j, u, immediate, s) && Tracked(Get(t.marks, s.key)) && Advances(Get(t.marks, s.key), s.mark)
  {
    hide Collect, FindingsOf, ShouldProcessDigest, Tells, Paired, TurnComes, CanMail, Heads, Advances, Tracked;
    var c := Collect(t, op.kind, op.subs, op.r.subs, op.now);
    var y: nat :| Mails(t, op, u, immediate, y) && SameWatermark(s, UpdateOf(t, op, u, immediate, y));
    var s' := UpdateOf(t, op, u, immediate, y);
    QueuesHoldRoutedFindings(t, op.kind, op.subs, op.r.subs, op.now);
    RoutedTells(t, op.kind, op.subs, op.r.subs, op.now, u, immediate);
    var found := RoutedFindings(t, op.kind, op.subs, op.r.subs, op.now, u, immediate);
    assert Get(QueueOf(c, immediate), u) == PendingFor(u, immediate, found);
    assert found.sends[y] == s';
    var j' :| 0 <= j' < |op.subs| && Routed(t, op.kind, op.subs[j'], op.r.subs[j'], op.now, u, immediate)
      && s'.key.watchlistId == op.subs[j'].watchlistId
      && s' in FindingsOf(t.marks, op.subs[j'], op.r.subs[j'], op.now).sends
      && Tells(found.changes[y], op.r.subs[j'].item.item.id, s');
    assert j' == j;
    FoundIff(t.marks, op.subs[j], op.r.subs[j], op.now, s);
  }

  lemma SaysBackward(t: Tables, op: Op, j: nat, u: int, immediate: bool, s: NotificationState)
    requires op.Run? && ValidRun(t, op.kind, op.subs, op.r, op.now, op.immediateOrder, op.dueOrder)
    requires j < |op.subs| && s.key.watchlistId == op.subs[j].watchlistId && s.mark.day.Some?
    requires WouldSay(t, op, j, u, immediate, s) && Tracked(Get(t.marks, s.key))
      && Advances(Get(t.marks, s.key), s.mark)
    ensures Says(t, op, u, immediate, s)
  {
    hide Collect, FindingsOf, ShouldProcessDigest, Tells, Paired, TurnComes, CanMail, Heads, Advances, Tracked,
      SortedChanges;
    var c := Collect(t, op.kind, op.subs, op.r.subs, op.now);
    FoundIff(t.marks, op.subs[j], op.r.subs[j], op.now, s);
    var s' :| s' in FindingsOf(t.marks, op.subs[j], op.r.subs[j], op.now).sends && SameWatermark(s, s');
    RoutedSends(t, op.kind, op.subs, op.r.subs, op.now, u, immediate, j, s');
    QueuesHoldRoutedFindings(t, op.kind, op.subs, op.r.subs, op.now);
    RoutedTells(t, op.kind, op.subs, op.r.subs, op.now, u, immediate);
    var found := RoutedFindings(t, op.kind, op.subs, op.r.subs, op.now, u, immediate);
    assert Get(QueueOf(c, immediate), u) == PendingFor(u, immediate, found);
    var y :| 0 <= y < |found.sends| && found.sends[y] == s';
    assert Mails(t, op, u, immediate, y) && UpdateOf(t, op, u, immediate, y) == s';
  }

  /** A run mails a user a key with a given day and value exactly when the user's email goes out, the key's entry is
      routed to it, its newest row shows them, and they move a watermark that names a day. */
  lemma SaysIff(t: Tables, op: Op, j: nat, u: int, immediate: bool, s: NotificationState)
    requires op.Run? && ValidRun(t, op.kind, op.subs, op.r, op.now, op.immediateOrder, op.dueOrder)
    requires j < |op.subs| && s.key.watchlistId == op.subs[j].watchlistId && s.mark.day.Some?
    ensures Says(t, op, u, immediate, s)
      <==> WouldSay(t, op, j, u, immediate, s) && Tracked(Get(t.marks, s.key)) && Advances(Get(t.marks, s.key), s.mark)
  {
    hide Says, WouldSay, Tracked, Advances;
    if Says(t, op, u, immediate, s) {
      SaysForward(t, op, j, u, immediate, s);
    }
    if WouldSay(t, op, j, u, immediate, s) && Tracked(Get(t.marks, s.key)) && Advances(Get(t.marks, s.key), s.mark) {
      SaysBackward(t, op, j, u, immediate, s);
    }
  }

  /** The same, on the fields of the rows and answers: a run mails the user the key with this day and value exactly when
      its collecting succeeds, the entry is eligible, is the user's and goes to this queue, its newest row shows the day
      and value, the watermark is on an earlier day or on the same day with another value, and the user's turn comes
      with a verified address that is not blank and a rendering and a send that succeed. */
  lemma SaysExactly(t: Tables, op: Op, j: nat, u: int, immediate: bool, s: NotificationState)
    requires op.Run? && ValidRun(t, op.kind, op.subs, op.r, op.now, op.immediateOrder, op.dueOrder)
    requires j < |op.subs| && s.key.watchlistId == op.subs[j].watchlistId && s.mark.day.Some?
    ensures Says(t, op, u, immediate, s)
      <==> var (c, sub, r, d) := (Collect(t, op.kind, op.subs, op.r.subs, op.now), op.subs[j], op.r.subs[j],
                                  if immediate then op.r.immediate(u) else op.r.digest(u));
           && !c.failed && Eligible(op.kind, sub, r) && sub.userId == u
           && (immediate <==> op.kind.Manual? || sub.mode == "immediate")
           && (!immediate ==> ShouldProcessDigest(sub.time, Get(t.digests, u), r.digestOk, op.now) == Some(true))
           && (exists g: seq<PriceRow> ::
                 && g in Grouped(r.history.rows) && g != [] && s.mark.value == Some(g[0].value)
                 && g[0].source == s.key.source && g[0].gameMode == s.key.gameMode
                 && ParseDate(g[0].collectedOn) == s.mark.day)
           && s.key in t.marks && t.marks[s.key].day.Some?
           && (|| t.marks[s.key].day.value < s.mark.day.value
               || (&& t.marks[s.key].day == s.mark.day && t.marks[s.key].value.Some?
                   && t.marks[s.key].value != s.mark.value))
           && (immediate || u in op.dueOrder[..TurnsTaken(c.digest, op.r, op.dueOrder)])
           && d.contact.ContactFound? && d.contact.verified
           && (exists i :: 0 <= i < |d.contact.email| && !IsSpace(d.contact.email[i])) && d.renderOk && d.sendOk
  {
    SaysIff(t, op, j, u, immediate, s);
    ConsideredIff(op.kind, op.subs[j], op.r.subs[j]);
    MailableIff(RepliesFor(op.r, u, immediate).contact);
    hide Says, Collect, TurnsTaken, ShouldProcessDigest, Considered, CanMail, IsSpace, Grouped, ParseDate;
  }

  // ----- repeated emails -----

  /** The tables before the i-th operation. */
  function At(s: State, ops: seq<Op>, i: nat): Tables
    requires i <= |ops|
  {
    StateAfter(s, ops[..i]).tables
  }

  lemma ValidRunAt(s: State, ops: seq<Op>, items: int -> string, i: nat)
    requires Valid(s, ops, items) && i < |ops| && ops[i].Run?
    ensures ValidRun(At(s, ops, i), ops[i].kind, ops[i].subs, ops[i].r, ops[i].now, ops[i].immediateOrder,
                     ops[i].dueOrder)
  {
    hide Valid, StateAfter, ValidRun, ShowsWindow;
    ValidAt(s, ops, items, i);
  }

  /** What a mailed update that is written leaves behind: its row is never at an earlier day again. */
  lemma MailedStays(s: State, ops: seq<Op>, items: int -> string, i: nat, j: nat, u: int, immediate: bool, x: nat)
    requires Valid(s, ops, items) && i < j <= |ops|
    requires Mails(At(s, ops, i), ops[i], u, immediate, x) && WriteFollows(At(s, ops, i), ops[i], u, immediate, x)
    ensures var (first, row) := (UpdateOf(At(s, ops, i), ops[i], u, immediate, x),
                                 Get(At(s, ops, j).marks, UpdateOf(At(s, ops, i), ops[i], u, immediate, x).key));
      && first.mark.day.Some? && first.mark.value.Some? && Tracked(row) && first.mark.day.value <= row.value.day.value
      && (NoneWrites(s, ops, i + 1, j, first.key) ==>
          (row.value.day, row.value.value) == (first.mark.day, first.mark.value))
  {
    hide OpEvents, Valid, StateAfter, Collect, TurnComes, NoneWrites, WriteFollows, Mails, UpdateOf, ValidRun;
    MailsIsRun(At(s, ops, i), ops[i], u, immediate, x);
    ValidRunAt(s, ops, items, i);
    MailedUpdateAdvances(At(s, ops, i), ops[i], u, immediate, x);
    MailedUpdateIsHeld(At(s, ops, i), ops[i], u, immediate, x);
    NextState(s, ops, i);
    RowBetweenOps(s, ops, items, i + 1, j, UpdateOf(At(s, ops, i), ops[i], u, immediate, x).key);
  }

  /** After an email whose watermark write succeeded, a later email of the run of operations carries the key with the
      same day and value exactly when it would say so and the watermark has meanwhile come to hold another value of that
      day. */
  lemma EmailRepeatsIff(s: State, ops: seq<Op>, items: int -> string, i: nat, j: nat,
                        u: int, immediate: bool, x: nat, n: nat, v: int, immediate': bool)
    requires Valid(s, ops, items) && i < j < |ops| && ops[j].Run? && n < |ops[j].subs|
    requires Mails(At(s, ops, i), ops[i], u, immediate, x) && WriteFollows(At(s, ops, i), ops[i], u, immediate, x)
    requires UpdateOf(At(s, ops, i), ops[i], u, immediate, x).key.watchlistId == ops[j].subs[n].watchlistId
    ensures var first := UpdateOf(At(s, ops, i), ops[i], u, immediate, x);
      var row := Get(At(s, ops, j).marks, first.key);
      Says(At(s, ops, j), ops[j], v, immediate', first)
      <==> && WouldSay(At(s, ops, j), ops[j], n, v, immediate', first)
           && row.Some? && row.value.day == first.mark.day && row.value.value.Some?
           && row.value.value != first.mark.value
    ensures var first := UpdateOf(At(s, ops, i), ops[i], u, immediate, x);
      && Told(At(s, ops, i), ops[i], u, first)
      && (Says(At(s, ops, j), ops[j], v, immediate', first) ==> Told(At(s, ops, j), ops[j], v, first))
  {
    hide Valid, At, Mails, WriteFollows, UpdateOf, Says, WouldSay, ValidRun, NoneWrites, Told;
    MailedStays(s, ops, items, i, j, u, immediate, x);
    ValidRunAt(s, ops, items, j);
    SaysIff(At(s, ops, j), ops[j], n, v, immediate', UpdateOf(At(s, ops, i), ops[i], u, immediate, x));
    BothTold(s, ops, items, i, j, u, immediate, x, v, immediate');
  }

  lemma BothTold(s: State, ops: seq<Op>, items: int -> string, i: nat, j: nat,
                 u: int, immediate: bool, x: nat, v: int, immediate': bool)
    requires Valid(s, ops, items) && i < j < |ops| && ops[j].Run? && Mails(At(s, ops, i), ops[i], u, immediate, x)
    ensures var first := UpdateOf(At(s, ops, i), ops[i], u, immediate, x);
      && Told(At(s, ops, i), ops[i], u, first)
      && (Says(At(s, ops, j), ops[j], v, immediate', first) ==> Told(At(s, ops, j), ops[j], v, first))
  {
    hide Valid, At, Mails, UpdateOf, Says, Told, ValidRun;
    MailsIsRun(At(s, ops, i), ops[i], u, immediate, x);
    ValidRunAt(s, ops, items, i);
    ValidRunAt(s, ops, items, j);
    MailedIsTold(At(s, ops, i), ops[i], u, immediate, x);
    var first := UpdateOf(At(s, ops, i), ops[i], u, immediate, x);
    if Says(At(s, ops, j), ops[j], v, immediate', first) {
      SaidIsTold(At(s, ops, j), ops[j], v, immediate', first);
    }
  }

  /** When nothing writes the watermark between two emails, the second carries the first one's day and value exactly
      when it would say so and the write after the first email was not reached. */
  lemma EmailResentIff(s: State, ops: seq<Op>, items: int -> string, i: nat, j: nat,
                       u: int, immediate: bool, x: nat, n: nat, v: int, immediate': bool)
    requires Valid(s, ops, items) && i < j < |ops| && ops[j].Run? && n < |ops[j].subs|
    requires Mails(At(s, ops, i), ops[i], u, immediate, x)
    requires UpdateOf(At(s, ops, i), ops[i], u, immediate, x).key.watchlistId == ops[j].subs[n].watchlistId
    requires NoneWrites(s, ops, i + 1, j, UpdateOf(At(s, ops, i), ops[i], u, immediate, x).key)
    ensures var first := UpdateOf(At(s, ops, i), ops[i], u, immediate, x);
      Says(At(s, ops, j), ops[j], v, immediate', first)
      <==> WouldSay(At(s, ops, j), ops[j], n, v, immediate', first) && !WriteFollows(At(s, ops, i), ops[i], u,
          immediate, x)
    ensures var first := UpdateOf(At(s, ops, i), ops[i], u, immediate, x);
      && Told(At(s, ops, i), ops[i], u, first)
      && (Says(At(s, ops, j), ops[j], v, immediate', first) ==> Told(At(s, ops, j), ops[j], v, first))
  {
    hide Valid, At, Mails, WriteFollows, UpdateOf, Says, WouldSay, ValidRun, NoneWrites, OpEvents, Told;
    BothTold(s, ops, items, i, j, u, immediate, x, v, immediate');
    var (a, first) := (At(s, ops, i), UpdateOf(At(s, ops, i), ops[i], u, immediate, x));
    MailsIsRun(a, ops[i], u, immediate, x);
    ValidRunAt(s, ops, items, i);
    ValidRunAt(s, ops, items, j);
    MailedUpdateAdvances(a, ops[i], u, immediate, x);
    SaysIff(At(s, ops, j), ops[j], n, v, immediate', first);
    if WriteFollows(a, ops[i], u, immediate, x) {
      MailedStays(s, ops, items, i, j, u, immediate, x);
    } else {
      UnwrittenStays(s, ops, items, i, j, u, immediate, x);
    }
  }

  lemma UnwrittenStays(s: State, ops: seq<Op>, items: int -> string, i: nat, j: nat, u: int, immediate: bool, x: nat)
    requires Valid(s, ops, items) && i < j <= |ops|
    requires Mails(At(s, ops, i), ops[i], u, immediate, x) && !WriteFollows(At(s, ops, i), ops[i], u, immediate, x)
    requires NoneWrites(s, ops, i + 1, j, UpdateOf(At(s, ops, i), ops[i], u, immediate, x).key)
    ensures var key := UpdateOf(At(s, ops, i), ops[i], u, immediate, x).key;
      Get(At(s, ops, j).marks, key) == Get(At(s, ops, i).marks, key) && Tracked(Get(At(s, ops, i).marks, key))
  {
    hide Valid, StateAfter, Mails, WriteFollows, UpdateOf, ValidRun, NoneWrites, OpEvents, WritesMark;
    var (a, key) := (At(s, ops, i), UpdateOf(At(s, ops, i), ops[i], u, immediate, x).key);
    MailsIsRun(a, ops[i], u, immediate, x);
    ValidRunAt(s, ops, items, i);
    MailedIsWrittenIff(a, ops[i], u, immediate, x);
    NextState(s, ops, i);
    MarkUntouched(a, OpEvents(a, ops[i]), key);
    RowBetweenOps(s, ops, items, i + 1, j, key);
    MailedIsTracked(a, ops[i], u, immediate, x);
  }

  lemma MailedIsTracked(t: Tables, op: Op, u: int, immediate: bool, i: nat)
    requires Mails(t, op, u, immediate, i)
      && ValidRun(t, op.kind, op.subs, op.r, op.now, op.immediateOrder, op.dueOrder)
    ensures Tracked(Get(t.marks, UpdateOf(t, op, u, immediate, i).key))
  {
    hide SubscriptionStep, FindingsOf, GoodInits, Paired;
    var s := UpdateOf(t, op, u, immediate, i);
    var c := Collect(t, op.kind, op.subs, op.r.subs, op.now);
    CollectIsGood(t, op.kind, op.subs, op.r.subs, op.now);
    assert GoodPending(t, op.kind, op.subs, op.r.subs, op.now, u, QueueOf(c, immediate)[u], immediate);
    assert s in QueueOf(c, immediate)[u].updates;
    var j :| 0 <= j < |op.subs| && FoundBy(t, op.kind, op.subs[j], op.r.subs[j], op.now, u, immediate, s);
    SubFindings(t, op.subs[j], op.r.subs[j], op.now);
    FoundIff(t.marks, op.subs[j], op.r.subs[j], op.now, s);
    assert SameWatermark(s, s);
  }

  /** Of two emails that carry one key, the first followed by its watermark write, the later never carries an earlier
      day. */
  lemma EmailsNeverGoBack(s: State, ops: seq<Op>, items: int -> string, i: nat, j: nat,
                          u: int, immediate: bool, x: nat, v: int, immediate': bool, y: nat)
    requires Valid(s, ops, items) && i < j < |ops|
    requires Mails(At(s, ops, i), ops[i], u, immediate, x) && WriteFollows(At(s, ops, i), ops[i], u, immediate, x)
    requires Mails(At(s, ops, j), ops[j], v, immediate', y)
    requires UpdateOf(At(s, ops, i), ops[i], u, immediate, x).key
      == UpdateOf(At(s, ops, j), ops[j], v, immediate', y).key
    ensures var (first, second) := (UpdateOf(At(s, ops, i), ops[i], u, immediate, x),
                                    UpdateOf(At(s, ops, j), ops[j], v, immediate', y));
      && first.mark.day.Some? && second.mark.day.Some? && first.mark.day.value <= second.mark.day.value
      && (NoneWrites(s, ops, i + 1, j, first.key) ==>
          (first.mark.day, first.mark.value) != (second.mark.day, second.mark.value))
  {
    hide Valid, At, Mails, WriteFollows, UpdateOf, ValidRun, NoneWrites;
    MailedStays(s, ops, items, i, j, u, immediate, x);
    MailsIsRun(At(s, ops, j), ops[j], v, immediate', y);
    ValidRunAt(s, ops, items, j);
    MailedUpdateAdvances(At(s, ops, j), ops[j], v, immediate', y);
  }

  lemma MailsIsRun(t: Tables, op: Op, u: int, immediate: bool, i: nat)
    requires Mails(t, op, u, immediate, i)
    ensures op.Run?
  {
  }
}
