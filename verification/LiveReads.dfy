/** The run reads each entry's watermarks from the live table; these lemmas show it sees what stood there at the
    start. */
module LiveReads {
  import opened Options
  import opened Calendar
  import opened Grouping
  import opened Detection
  import opened AlertTables
  import opened Dispatch
  import opened Schedule
  import opened AlertCycle
  import opened CycleFacts
  import opened CycleTheorems
  import opened RunGuarantees
  import opened Redetection

  lemma {:induction false} LeadingStops(ok: nat -> bool, i: nat, n: nat)
    requires i < n && LeadingOk(ok, i) == i
    ensures !ok(i) ==> LeadingOk(ok, n) == i
    ensures ok(i) ==> LeadingOk(ok, i + 1) == i + 1
    decreases n
  {
    if i + 1 < n {
      LeadingStops(ok, i, n - 1);
    }
  }

  // ----- text keys and one row per day -----

  /** What the catalog's unique index gives, and no text key shared with another pair of the entry. */
  ghost predicate ClearReply(marks: Marks, watchlistId: int, r: SubReplies) {
    r.history.HistoryFound? ==>
      && OneRowPerDay(r.history.rows)
      && forall k, row | k in marks && k.watchlistId == watchlistId && row in r.history.rows ::
           !Ambiguous(k.source, k.gameMode, row.source, row.gameMode)
  }

  /** The two tables agree about one watchlist entry. */
  ghost predicate SameEntry(a: Marks, b: Marks, watchlistId: int) {
    forall k: MarkKey | k.watchlistId == watchlistId :: Get(a, k) == Get(b, k)
  }

  lemma HeadIsRow(history: seq<PriceRow>, groups: seq<seq<PriceRow>>, g: seq<PriceRow>)
    requires IsGrouping(history, groups) && g in groups
    ensures g != [] && g[0] in history
  {
    var i :| 0 <= i < |groups| && groups[i] == g;
    SameMembers(g, Rows(history, GroupKey(g)));
    RowsMembers(history, GroupKey(g));
    assert g[0] in g;
  }

  // ----- writes of earlier subscriptions -----

  lemma UntouchedEntry(t: Tables, events: seq<Event>, watchlistId: int)
    requires forall e | e in events && e.MarkWritten? :: e.state.key.watchlistId != watchlistId
    ensures SameEntry(ApplyAll(t, events).marks, t.marks, watchlistId)
  {
    forall k: MarkKey | k.watchlistId == watchlistId
      ensures Get(ApplyAll(t, events).marks, k) == Get(t.marks, k)
    {
      MarkUntouched(t, events, k);
    }
  }

  /** When a subscription's turn comes, its own watermarks and its user's digest row are as at the start, whatever
      tables the earlier ones were collected from. */
  lemma EarlierWritesElsewhere(start: Tables, t: Tables, kind: Kind, subs: seq<Subscription>, replies: seq<SubReplies>,
                               now: int, i: nat)
    requires |replies| == |subs| && OneEntryEach(subs) && i < |subs|
    ensures var live := ApplyAll(start, Collect(t, kind, subs[..i], replies[..i], now).events);
      && SameEntry(live.marks, start.marks, subs[i].watchlistId)
      && forall u :: Get(live.digests, u) == Get(start.digests, u)
  {
    hide FindingsOf, Once, GoodQueue, SameEntry;
    var (front, back) := (subs[..i], replies[..i]);
    CollectIsGood(t, kind, front, back, now);
    var events := Collect(t, kind, front, back, now).events;
    forall e | e in events
      ensures e.MarkWritten? && e.state.key.watchlistId != subs[i].watchlistId
    {
      var j :| 0 <= j < |front| && Considered(kind, front[j], back[j])
        && e.state.key.watchlistId == front[j].watchlistId
        && e.state in FindingsOf(t.marks, front[j], back[j], now).inits;
      assert subs[j].watchlistId != subs[i].watchlistId;
    }
    UntouchedEntry(start, events, subs[i].watchlistId);
    forall u
      ensures Get(ApplyAll(start, events).digests, u) == Get(start.digests, u)
    {
      DigestUntouched(start, events, u);
    }
  }

  lemma CollectNext(t: Tables, kind: Kind, subs: seq<Subscription>, replies: seq<SubReplies>, now: int, i: nat)
    requires |replies| == |subs| && i < |subs|
    ensures Collect(t, kind, subs[..i + 1], replies[..i + 1], now)
         == SubscriptionStep(t, Collect(t, kind, subs[..i], replies[..i], now), kind, subs[i], replies[i], now)
  {
    hide SubscriptionStep;
    assert subs[..i + 1][..i] == subs[..i] && replies[..i + 1][..i] == replies[..i];
  }

  /** After an error the loop has returned: the remaining subscriptions change nothing. */
  lemma {:induction false} CollectStopped(t: Tables, kind: Kind, subs: seq<Subscription>, replies: seq<SubReplies>,
                                          now: int, i: nat)
    requires |replies| == |subs| && i <= |subs| && Collect(t, kind, subs[..i], replies[..i], now).failed
    ensures Collect(t, kind, subs, replies, now) == Collect(t, kind, subs[..i], replies[..i], now)
    decreases |subs| - i
  {
    if i == |subs| {
      assert subs[..i] == subs && replies[..i] == replies;
    } else {
      CollectNext(t, kind, subs, replies, now, i);
      CollectStopped(t, kind, subs, replies, now, i + 1);
    }
  }

  // ----- which rows a run writes -----

  lemma {:induction false} CollectedInits(t: Tables, kind: Kind, subs: seq<Subscription>, replies: seq<SubReplies>,
                                          now: int, j: nat, s: NotificationState)
    requires |replies| == |subs| && j < |subs| && !Collect(t, kind, subs, replies, now).failed
    requires Considered(kind, subs[j], replies[j]) && s in FindingsOf(t.marks, subs[j], replies[j], now).inits
    ensures MarkWritten(s) in Collect(t, kind, subs, replies, now).events
  {
    hide FindingsOf, Enqueue, ShouldProcessDigest;
    var n := |subs| - 1;
    if j == n {
      var found := FindingsOf(t.marks, subs[n], replies[n], now);
      var i :| 0 <= i < |found.inits| && found.inits[i] == s;
      assert InitWrites(found, replies[n])[i] == MarkWritten(s);
      assert MarkWritten(s) in InitWrites(found, replies[n]);
    } else {
      CollectedInits(t, kind, subs[..n], replies[..n], now, j, s);
    }
  }

  /** A watermark write of a run carries a finding of the subscription it belongs to. */
  lemma WriteOfRun(t: Tables, kind: Kind, subs: seq<Subscription>, r: RunReplies, now: int,
                   immediateOrder: seq<int>, dueOrder: seq<int>, e: Event) returns (j: nat, s: NotificationState)
    requires ValidRun(t, kind, subs, r, now, immediateOrder, dueOrder)
    requires e in RunEvents(t, kind, subs, r, now, immediateOrder, dueOrder) && e.MarkWritten?
    ensures j < |subs| && Considered(kind, subs[j], r.subs[j]) && e.state.key.watchlistId == subs[j].watchlistId
    ensures var found := FindingsOf(t.marks, subs[j], r.subs[j], now); s in found.inits || s in found.sends
    ensures SameWatermark(s, e.state)
  {
    hide RunEvents, Collect, GoodQueue, Once, FindingsOf, Mine;
    var c := Collect(t, kind, subs, r.subs, now);
    CollectIsGood(t, kind, subs, r.subs, now);
    EventsOfRun(t, kind, subs, r, now, immediateOrder, dueOrder, e);
    if e in c.events {
      j :| 0 <= j < |subs| && Considered(kind, subs[j], r.subs[j]) && e.state.key.watchlistId == subs[j].watchlistId
        && e.state in FindingsOf(t.marks, subs[j], r.subs[j], now).inits;
      s := e.state;
    } else {
      var u, immediate :| Mine(t, kind, subs, r.subs, now, u, immediate, e);
      s := MineIsSend(t, kind, subs, r.subs, now, u, immediate, e);
      j :| 0 <= j < |subs| && FoundBy(t, kind, subs[j], r.subs[j], now, u, immediate, s);
    }
  }

  lemma MineIsSend(t: Tables, kind: Kind, subs: seq<Subscription>, replies: seq<SubReplies>, now: int,
                   u: int, immediate: bool, e: Event) returns (s: NotificationState)
    requires |replies| == |subs| && Mine(t, kind, subs, replies, now, u, immediate, e) && e.MarkWritten?
    ensures SameWatermark(s, e.state) && HasSource(t, kind, subs, replies, now, u, immediate, s)
  {
    hide HasSource;
    s :| SameWatermark(s, e.state) && HasSource(t, kind, subs, replies, now, u, immediate, s);
  }

  lemma GroupingAscends(history: seq<PriceRow>, groups: seq<seq<PriceRow>>)
    requires IsGrouping(history, groups)
    ensures NoEmptyGroup(groups) && AscendingGroups(groups)
  {
  }

  /** The reply shows a row of the key's pair. */
  ghost predicate ShowsPair(r: SubReplies, k: MarkKey) {
    r.history.HistoryFound? && exists row ::
      row in r.history.rows && row.source == k.source && row.gameMode == k.gameMode
  }

  lemma FindingIsShown(marks: Marks, sub: Subscription, r: SubReplies, now: int, s: NotificationState)
    requires Usable(r)
    requires s in FindingsOf(marks, sub, r, now).inits || s in FindingsOf(marks, sub, r, now).sends
    ensures ShowsPair(r, s.key)
  {
    hide IsGrouping, Detected, Grouped, ParseDate;
    var (rows, current) := (r.history.rows, TableLookup(marks, sub.watchlistId));
    GroupedIsGrouping(rows);
    GroupingAscends(rows, Grouped(rows));
    FindingsSound(sub.watchlistId, r.item.item, Grouped(rows), current, now);
    var g :| g in Grouped(rows) && FromGroup(s, g);
    HeadIsRow(rows, Grouped(rows), g);
  }

  lemma {:induction false} NewKeysAreWritten(t: Tables, events: seq<Event>)
    ensures forall k | k in ApplyAll(t, events).marks :: k in t.marks || WritesMark(events, k)
  {
    if events != [] {
      var (front, last) := (events[..|events| - 1], events[|events| - 1]);
      assert last in events && forall e | e in front :: e in events;
      NewKeysAreWritten(t, front);
    }
  }

  lemma WrittenIsShown(t: Tables, kind: Kind, subs: seq<Subscription>, r: RunReplies, now: int,
                       immediateOrder: seq<int>, dueOrder: seq<int>, k: MarkKey)
    requires ValidRun(t, kind, subs, r, now, immediateOrder, dueOrder)
    requires WritesMark(RunEvents(t, kind, subs, r, now, immediateOrder, dueOrder), k)
    ensures exists j | 0 <= j < |subs| :: subs[j].watchlistId == k.watchlistId && ShowsPair(r.subs[j], k)
  {
    hide RunEvents, Collect, FindingsOf, Once;
    var e :| e in RunEvents(t, kind, subs, r, now, immediateOrder, dueOrder) && e.MarkWritten? && e.state.key == k;
    var j, s := WriteOfRun(t, kind, subs, r, now, immediateOrder, dueOrder, e);
    FindingIsShown(t.marks, subs[j], r.subs[j], now, s);
  }

  /** A run gives watermarks only to pairs that it was shown for the entry. */
  lemma RunWritesShownPairs(t: Tables, kind: Kind, subs: seq<Subscription>, r: RunReplies, now: int,
                            immediateOrder: seq<int>, dueOrder: seq<int>, k: MarkKey)
    requires ValidRun(t, kind, subs, r, now, immediateOrder, dueOrder)
    requires k in ApplyAll(t, RunEvents(t, kind, subs, r, now, immediateOrder, dueOrder)).marks
    ensures k in t.marks || exists j | 0 <= j < |subs| ::
      subs[j].watchlistId == k.watchlistId && ShowsPair(r.subs[j], k)
  {
    hide RunEvents, Collect;
    NewKeysAreWritten(t, RunEvents(t, kind, subs, r, now, immediateOrder, dueOrder));
    if k !in t.marks {
      WrittenIsShown(t, kind, subs, r, now, immediateOrder, dueOrder, k);
    }
  }

  // ----- visiting loops -----

  lemma TurnsAppend(turn: Turn, order: seq<int>, u: int)
    ensures Turns(turn, order + [u]) == Turns(turn, order) + turn(u)
  {
    assert (order + [u])[..|order|] == order;
  }

  lemma VisitsOneMore(order: seq<int>, visited: set<int>, u: int)
    requires Visits(order, visited) && u !in visited
    ensures Visits(order + [u], visited + {u})
  {
    assert forall i | 0 <= i < |order| :: order[i] in order;
  }

  lemma FrontVisits(order: seq<int>, users: set<int>)
    requires Visits(order, users) && order != []
    ensures order[|order| - 1] in users && Visits(order[..|order| - 1], users - {order[|order| - 1]})
  {
    var (front, last) := (order[..|order| - 1], order[|order| - 1]);
    assert last in order && order == front + [last];
    forall u
      ensures u in front <==> u in users - {last}
    {
      if u in front {
        var i :| 0 <= i < |front| && front[i] == u;
        assert order[i] == u;
      }
    }
  }

  lemma VisitsJoin(a: seq<int>, before: set<int>, b: seq<int>, rest: set<int>)
    requires Visits(a, before) && Visits(b, rest) && before !! rest
    ensures Visits(a + b, before + rest)
  {
    forall i, j | 0 <= i < |a| && 0 <= j < |b|
      ensures a[i] != b[j]
    {
      var (u, v) := (a[i], b[j]);
      assert u in a && v in b;
    }
  }

  /** The users of a set in some order. */
  lemma Enumerate(users: set<int>) returns (order: seq<int>)
    ensures Visits(order, users)
  {
    order := [];
    var rest := users;
    while rest != {}
      invariant rest <= users
      invariant forall u :: u in order <==> u in users && u !in rest
      invariant Distinct(order)
    {
      HasElement(rest);
      var u :| u in rest;
      order := order + [u];
      rest := rest - {u};
    }
  }

  lemma TurnsTakenUpTo(queue: Queue, r: RunReplies, done: seq<int>, u: int, rest: seq<int>)
    requires TurnsTaken(queue, r, done) == |done|
    ensures TurnAborts(queue, r, u) ==> TurnsTaken(queue, r, done + [u] + rest) == |done|
    ensures !TurnAborts(queue, r, u) ==> TurnsTaken(queue, r, done + [u]) == |done| + 1
  {
    hide TurnAborts;
    var (all, next) := (done + [u] + rest, done + [u]);
    var (n, m) := (TurnsTaken(queue, r, all), TurnsTaken(queue, r, next));
    hide TurnsTaken;
    assert all[|done|] == u && next[|done|] == u;
    assert forall i | 0 <= i < |done| :: all[i] == done[i] && next[i] == done[i];
  }
}
