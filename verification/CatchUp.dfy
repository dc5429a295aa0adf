/** Watermarks against a price table that only grows: every watermark names a stored price day, so a run that
    delivers a subscription's findings leaves each of its keys at the newest stored day and value. */
module CatchUp {
  import opened Options
  import opened Calendar
  import opened Grouping
  import opened PriceTable
  import opened Detection
  import opened AlertTables
  import opened Dispatch
  import opened Schedule
  import opened AlertCycle
  import opened CycleFacts
  import opened CycleTheorems
  import opened RunPerUser
  import opened Redetection
  import opened LiveReads
  import opened AlertRuns
  import Snapshots = Snapshot

  // ----- every watermark names a stored day -----

  predicate HasPrice(prices: Prices, item: string, k: MarkKey, day: nat) {
    day < END_OF_DAYS && PriceKey(item, k.source, k.gameMode, day) in prices
  }

  predicate AnchoredMark(prices: Prices, item: string, k: MarkKey, mark: Mark) {
    mark.day.Some? ==> mark.value.Some? && HasPrice(prices, item, k, mark.day.value)
  }

  ghost predicate Anchored(marks: Marks, prices: Prices, items: int -> string) {
    forall k | k in marks :: AnchoredMark(prices, items(k.watchlistId), k, marks[k])
  }

  /** Each row of a window is a stored price of the item, under its own source, mode and day. */
  lemma WindowRowIsStored(prices: Prices, item: string, r: SubReplies, row: PriceRow)
    requires r.history.HistoryFound? && ShowsWindow(prices, item, r) && row in r.history.rows
    ensures ParseDate(row.collectedOn).Some?
    ensures HasPrice(prices, item, MarkKey(0, row.source, row.gameMode), ParseDate(row.collectedOn).value)
  {
    hide ParseDate, FormatDate;
    var listing: seq<PriceKey> :| Listing(prices, item, "", listing)
      && r.history.rows == RowsOf(prices, listing[..Cut(|listing|, 10)]);
    var i :| 0 <= i < |r.history.rows| && r.history.rows[i] == row;
    assert listing[i] in listing;
    DateReadsBack(listing[i].day);
  }

  lemma FindingIsAnchored(prices: Prices, item: string, marks: Marks, sub: Subscription, r: SubReplies, now: int,
                          s: NotificationState)
    requires Usable(r) && ShowsWindow(prices, item, r)
    requires s in FindingsOf(marks, sub, r, now).inits || s in FindingsOf(marks, sub, r, now).sends
    ensures AnchoredMark(prices, item, s.key, s.mark)
  {
    hide IsGrouping, Detected, Grouped, ParseDate, ShowsWindow;
    var (rows, current) := (r.history.rows, TableLookup(marks, sub.watchlistId));
    GroupedIsGrouping(rows);
    GroupingAscends(rows, Grouped(rows));
    FindingsSound(sub.watchlistId, r.item.item, Grouped(rows), current, now);
    var g :| g in Grouped(rows) && FromGroup(s, g);
    HeadIsRow(rows, Grouped(rows), g);
    WindowRowIsStored(prices, item, r, g[0]);
  }

  ghost predicate Shown(prices: Prices, subs: seq<Subscription>, r: RunReplies, items: int -> string)
    requires |r.subs| == |subs|
  {
    forall j | 0 <= j < |subs| ::
      subs[j].itemId == items(subs[j].watchlistId) && ShowsWindow(prices, subs[j].itemId, r.subs[j])
  }

  lemma {:induction false} AnchoredAfter(t: Tables, events: seq<Event>, prices: Prices, items: int -> string)
    requires Anchored(t.marks, prices, items)
    requires forall e | e in events && e.MarkWritten? ::
      AnchoredMark(prices, items(e.state.key.watchlistId), e.state.key, e.state.mark)
    ensures Anchored(ApplyAll(t, events).marks, prices, items)
  {
    hide AnchoredMark;
    if events != [] {
      var (front, last) := (events[..|events| - 1], events[|events| - 1]);
      assert last in events && forall e | e in front :: e in events;
      AnchoredAfter(t, front, prices, items);
    }
  }

  lemma RunStaysAnchored(t: Tables, prices: Prices, items: int -> string, kind: Kind, subs: seq<Subscription>,
                         r: RunReplies, now: int,
                         immediateOrder: seq<int>, dueOrder: seq<int>)
    requires ValidRun(t, kind, subs, r, now, immediateOrder, dueOrder) && Shown(prices, subs, r, items)
    requires Anchored(t.marks, prices, items)
    ensures Anchored(ApplyAll(t, RunEvents(t, kind, subs, r, now, immediateOrder, dueOrder)).marks, prices, items)
  {
    hide RunEvents, Collect, FindingsOf, ShowsWindow, Anchored, Once;
    var events := RunEvents(t, kind, subs, r, now, immediateOrder, dueOrder);
    forall e | e in events && e.MarkWritten?
      ensures AnchoredMark(prices, items(e.state.key.watchlistId), e.state.key, e.state.mark)
    {
      var j, s := WriteOfRun(t, kind, subs, r, now, immediateOrder, dueOrder, e);
      FindingIsAnchored(prices, subs[j].itemId, t.marks, subs[j], r.subs[j], now, s);
    }
    AnchoredAfter(t, events, prices, items);
  }

  lemma OpStaysAnchored(s: State, op: Op, items: int -> string)
    requires ValidOp(s, op, items) && Anchored(s.tables.marks, s.prices, items)
    ensures Anchored(Step(s, op).tables.marks, Step(s, op).prices, items)
  {
    hide RunEvents, Collect, Turns, ShowsWindow, Once;
    match op
    case PriceUpsert(key, cell) =>
    case Run(kind, subs, r, now, immediateOrder, dueOrder) =>
      RunStaysAnchored(s.tables, s.prices, items, kind, subs, r, now, immediateOrder, dueOrder);
    case ForcedSnapshot(queue, r, now, order) =>
      Snapshots.SnapshotOnlyMails(queue, r, now, order, s.tables);
  }

  /** Over any serialised run of upserts, cycles, diffs and snapshots, each watermark names a stored price day of its
      key. */
  lemma {:induction false} RunsStayAnchored(s: State, ops: seq<Op>, items: int -> string)
    requires Valid(s, ops, items) && Anchored(s.tables.marks, s.prices, items)
    ensures Anchored(StateAfter(s, ops).tables.marks, StateAfter(s, ops).prices, items)
  {
    hide ValidOp, Anchored, Step;
    if ops != [] {
      RunsStayAnchored(s, ops[..|ops| - 1], items);
      OpStaysAnchored(StateAfter(s, ops[..|ops| - 1]), ops[|ops| - 1], items);
    }
  }

  // ----- the limited window against the full history -----

  /** For any limit and any fall of ties: each group of the window belongs to a group of the full history for which the
      engine reaches the same verdict with the same day and value; even the previous value is the same unless the
      window holds a single row of the key. */
  lemma WindowDecidesAsFullHistory(prices: Prices, item: string, seen: seq<PriceKey>, n: nat, full: seq<PriceKey>,
                                   window: seq<seq<PriceRow>>, all: seq<seq<PriceRow>>, i: nat, current: Option<Mark>)
    requires ClearSources(prices) && Listing(prices, item, "", seen) && Listing(prices, item, "", full) && n <= |seen|
    requires IsGrouping(RowsOf(prices, seen[..n]), window) && IsGrouping(RowsOf(prices, full), all) && i < |window|
    ensures exists j | 0 <= j < |all| ::
      GroupKey(all[j]) == GroupKey(window[i]) && SameVerdict(window[i], all[j], current)
  {
    hide Listing, RowOf, Decide, KeyOf;
    WindowShowsPrefixes(prices, item, seen, n, full, window, all, i);
    var j :| 0 <= j < |all| && GroupKey(all[j]) == GroupKey(window[i]) && window[i] <= all[j];
    PrefixDecides(window[i], all[j], current);
  }

  predicate SameVerdict(part: seq<PriceRow>, whole: seq<PriceRow>, current: Option<Mark>)
    requires part != [] && whole != []
  {
    var (d, e) := (Decide(part, current), Decide(whole, current));
    && (d.Skip? <==> e.Skip?) && (d.Init? <==> e.Init?)
    && (!d.Skip? ==> d.day == e.day && d.value == e.value)
    && (|part| > 1 ==> d == e)
  }

  // ----- nothing left to find means caught up -----

  lemma {:induction false} NothingMeansSkips(watchlistId: int, item: Item, groups: seq<seq<PriceRow>>, current: Lookup,
                                             now: int)
    requires NoEmptyGroup(groups) && Detected(watchlistId, item, groups, current, now) == NOTHING
    ensures forall g: seq<PriceRow> | g in groups :: Decide(g, Current(current, g[0])) == Skip
  {
    hide Decide;
    if groups != [] {
      var (front, last) := (groups[..|groups| - 1], groups[|groups| - 1]);
      var before := Detected(watchlistId, item, front, current, now);
      assert before == NOTHING && Decide(last, Current(current, last[0])) == Skip;
      NothingMeansSkips(watchlistId, item, front, current, now);
      assert forall g: seq<PriceRow> | g in groups :: g in front || g == last;
    }
  }

  /** The head of a window's group is the newest stored day of its key. */
  lemma HeadIsNewest(prices: Prices, item: string, r: SubReplies, g: seq<PriceRow>, day: nat)
    requires ClearSources(prices) && r.history.HistoryFound? && ShowsWindow(prices, item, r)
      && g in Grouped(r.history.rows)
    requires g != [] && HasPrice(prices, item, MarkKey(0, g[0].source, g[0].gameMode), day)
    ensures ParseDate(g[0].collectedOn).Some? && day <= ParseDate(g[0].collectedOn).value
  {
    hide ParseDate, FormatDate, Grouped, IsGrouping;
    var listing: seq<PriceKey> :| Listing(prices, item, "", listing)
      && r.history.rows == RowsOf(prices, listing[..Cut(|listing|, 10)]);
    var (rows, full) := (r.history.rows, RowsOf(prices, listing));
    GroupedIsGrouping(rows);
    HeadIsRow(rows, Grouped(rows), g);
    WindowRowIsStored(prices, item, r, g[0]);
    GroupInWindow(rows, g);
    WindowGroupIsPrefix(prices, item, listing, Cut(|listing|, 10), g);
    var k := PriceKey(item, g[0].source, g[0].gameMode, day);
    var i :| 0 <= i < |listing| && listing[i] == k;
    var row := full[i];
    assert row == RowOf(prices, k) && row in full;
    NoneNewer(prices, item, listing, g, row);
    DateReadsBack(day);
    StringOrderIsCalendarOrder(g[0].collectedOn, row.collectedOn);
  }

  lemma GroupInWindow(rows: seq<PriceRow>, g: seq<PriceRow>)
    requires g in Grouped(rows) && g != []
    ensures NewestFirst(g) && multiset(g) == multiset(Rows(rows, GroupKey(g)))
  {
    hide Grouped;
    GroupedIsGrouping(rows);
    var i :| 0 <= i < |Grouped(rows)| && Grouped(rows)[i] == g;
  }

  lemma NoneNewer(prices: Prices, item: string, listing: seq<PriceKey>, g: seq<PriceRow>, row: PriceRow)
    requires Listing(prices, item, "", listing) && row in RowsOf(prices, listing) && g != []
    requires g <= Rows(RowsOf(prices, listing), GroupKey(g)) && KeyOf(row) == GroupKey(g)
    ensures !NewerThan(row, g[0])
  {
    hide RowOf;
    var full := RowsOf(prices, listing);
    ListingIsNewestFirst(prices, item, "", listing);
    RowsKeepOrder(full, GroupKey(g));
    RowsMembers(full, GroupKey(g));
    FirstIsNewest(Rows(full, GroupKey(g)), row);
    NotNewerThanItself(row);
  }

  lemma NotNewerThanItself(row: PriceRow)
    ensures !NewerThan(row, row)
  {
  }

  /** With watermarks anchored in a table that only grew, skipping a key means it is caught up. */
  lemma SkipIsCaughtUp(prices: Prices, items: int -> string, marks: Marks, sub: Subscription, r: SubReplies,
                       g: seq<PriceRow>)
    requires ClearSources(prices) && Anchored(marks, prices, items) && sub.itemId == items(sub.watchlistId)
    requires Usable(r) && ShowsWindow(prices, sub.itemId, r) && g in Grouped(r.history.rows) && g != []
    requires Decide(g, Current(TableLookup(marks, sub.watchlistId), g[0])) == Skip
    ensures CaughtUp(g[0], Get(marks, MarkKey(sub.watchlistId, g[0].source, g[0].gameMode)))
  {
    hide ParseDate, FormatDate, Grouped, IsGrouping, ShowsWindow;
    var key := MarkKey(sub.watchlistId, g[0].source, g[0].gameMode);
    GroupedIsGrouping(r.history.rows);
    HeadIsRow(r.history.rows, Grouped(r.history.rows), g);
    WindowRowIsStored(prices, sub.itemId, r, g[0]);
    SkipMeans(g, Get(marks, key));
    assert AnchoredMark(prices, items(sub.watchlistId), key, marks[key]);
    HeadIsNewest(prices, sub.itemId, r, g, marks[key].day.value);
  }

  // ----- a run that delivers -----

  lemma {:induction false} RoutedSends(t: Tables, kind: Kind, subs: seq<Subscription>, replies: seq<SubReplies>,
                                       now: int, user: int, immediate: bool, j: nat, s: NotificationState)
    requires |replies| == |subs| && j < |subs| && Routed(t, kind, subs[j], replies[j], now, user, immediate)
    requires s in FindingsOf(t.marks, subs[j], replies[j], now).sends
    ensures s in RoutedFindings(t, kind, subs, replies, now, user, immediate).sends
  {
    hide FindingsOf, Routed;
    RoutedIsUsable(t, kind, subs[j], replies[j], now, user, immediate);
    var n := |subs| - 1;
    if j < n {
      RoutedSends(t, kind, subs[..n], replies[..n], now, user, immediate, j, s);
    }
  }

  /** The run gets to the end of the watermark writes of this user's dispatch. */
  ghost predicate Delivers(c: Collection, r: RunReplies, dueOrder: seq<int>, u: int, immediate: bool) {
    && !c.failed
    && (immediate && u in c.immediate ==> Reached(c.immediate[u], r.immediate(u)) == |c.immediate[u].updates|)
    && (!immediate && u in c.digest ==>
          u in dueOrder[..TurnsTaken(c.digest, r, dueOrder)]
            && Reached(c.digest[u], r.digest(u)) == |c.digest[u].updates|)
  }

  lemma DeliveredSend(t: Tables, kind: Kind, subs: seq<Subscription>, r: RunReplies, now: int,
                      immediateOrder: seq<int>, dueOrder: seq<int>, j: nat, immediate: bool, s: NotificationState)
    requires ValidRun(t, kind, subs, r, now, immediateOrder, dueOrder) && j < |subs|
    requires Routed(t, kind, subs[j], r.subs[j], now, subs[j].userId, immediate)
    requires Delivers(Collect(t, kind, subs, r.subs, now), r, dueOrder, subs[j].userId, immediate)
    requires s in FindingsOf(t.marks, subs[j], r.subs[j], now).sends
    ensures WritesMark(RunEvents(t, kind, subs, r, now, immediateOrder, dueOrder), s.key)
  {
    hide SubscriptionStep, FindingsOf, Routed, DispatchEvents, Turns, TurnsTaken, Reached, DayOf, Paired, OneEntryEach;
    var (u, c) := (subs[j].userId, Collect(t, kind, subs, r.subs, now));
    RoutedSends(t, kind, subs, r.subs, now, u, immediate, j, s);
    QueuesHoldRoutedFindings(t, kind, subs, r.subs, now);
    RoutedPaired(t, kind, subs, r.subs, now, u, immediate);
    var found := RoutedFindings(t, kind, subs, r.subs, now, u, immediate);
    SameLengths(found);
    var queue := if immediate then c.immediate else c.digest;
    assert Get(queue, u) == PendingFor(u, immediate, found);
    var p := queue[u];
    var i :| 0 <= i < |p.updates| && p.updates[i] == s;
    var dr := if immediate then r.immediate(u) else r.digest(u);
    MarksOfDispatch(p, dr, now, !immediate);
    var e := MarkWritten(StampedAt(p, dr, now, i));
    assert e in DispatchEvents(p, dr, now, !immediate);
    if immediate {
      TurnsMembers(ImmediateTurn(c.immediate, r, now), immediateOrder);
      assert e in ImmediateTurn(c.immediate, r, now)(u) && u in immediateOrder;
    } else {
      TurnsMembers(DigestTurn(c.digest, r, now), dueOrder[..TurnsTaken(c.digest, r, dueOrder)]);
      assert e in DigestTurn(c.digest, r, now)(u);
    }
    assert e in RunEvents(t, kind, subs, r, now, immediateOrder, dueOrder) && e.state.key == s.key;
  }

  /** The events of a run write only this subscription's findings to its watermarks. */
  lemma RunWritesFindings(t: Tables, kind: Kind, subs: seq<Subscription>, r: RunReplies, now: int,
                          immediateOrder: seq<int>, dueOrder: seq<int>, j: nat)
    requires ValidRun(t, kind, subs, r, now, immediateOrder, dueOrder) && j < |subs| && Usable(r.subs[j])
    ensures WritesFindings(RunEvents(t, kind, subs, r, now, immediateOrder, dueOrder), subs[j].watchlistId,
                           FindingsOf(t.marks, subs[j], r.subs[j], now))
  {
    hide RunEvents, FindingsOf, Collect;
    var events := RunEvents(t, kind, subs, r, now, immediateOrder, dueOrder);
    var found := FindingsOf(t.marks, subs[j], r.subs[j], now);
    forall e | e in events && e.MarkWritten? && e.state.key.watchlistId == subs[j].watchlistId
      ensures exists s | s in found.inits || s in found.sends :: SameWatermark(s, e.state)
    {
      var i, s := WriteOfRun(t, kind, subs, r, now, immediateOrder, dueOrder, e);
      assert i == j;
    }
  }

  /** Catching up: when a run reaches the end of a subscription's writes, every key in its window holds the newest
      stored day and value, and detecting again on the same history, at any time, finds nothing. */
  lemma RunCatchesUp(s: State, items: int -> string, kind: Kind, subs: seq<Subscription>, r: RunReplies, now: int,
                     immediateOrder: seq<int>, dueOrder: seq<int>, j: nat, immediate: bool, later: int)
    requires ValidRun(s.tables, kind, subs, r, now, immediateOrder, dueOrder) && Shown(s.prices, subs, r, items)
    requires Anchored(s.tables.marks, s.prices, items) && ClearSources(s.prices)
    requires j < |subs| && Routed(s.tables, kind, subs[j], r.subs[j], now, subs[j].userId, immediate)
    requires Delivers(Collect(s.tables, kind, subs, r.subs, now), r, dueOrder, subs[j].userId, immediate)
    ensures var after := ApplyAll(s.tables, RunEvents(s.tables, kind, subs, r, now, immediateOrder, dueOrder)).marks;
      && Considered(kind, subs[j], r.subs[j])
      && FindingsOf(after, subs[j], r.subs[j], later) == NOTHING
      && forall g: seq<PriceRow> | g in Grouped(r.subs[j].history.rows) ::
           g != [] && CaughtUp(g[0], Get(after, MarkKey(subs[j].watchlistId, g[0].source, g[0].gameMode)))
  {
    hide RunEvents, SubscriptionStep, Grouped, Detected, WritesMark, Once, ShowsWindow, Anchored, ParseDate, IsGrouping,
      Delivers, Reached, TurnsTaken, ShouldProcessDigest;
    var (t, sub, rep) := (s.tables, subs[j], r.subs[j]);
    var (rows, events) := (rep.history.rows, RunEvents(t, kind, subs, r, now, immediateOrder, dueOrder));
    var (found, after) := (FindingsOf(t.marks, sub, rep, now), ApplyAll(t, events).marks);
    FindingsAllWritten(t, kind, subs, r, now, immediateOrder, dueOrder, j, immediate);
    RunOnce(t, kind, subs, r, now, immediateOrder, dueOrder, false);
    RunWritesFindings(t, kind, subs, r, now, immediateOrder, dueOrder, j);
    GroupedIsGrouping(rows);
    GroupingAscends(rows, Grouped(rows));
    NothingAfterAllWrites(t, events, sub.watchlistId, rep.item.item, Grouped(rows), now, later);
    NothingMeansSkips(sub.watchlistId, rep.item.item, Grouped(rows), TableLookup(after, sub.watchlistId), later);
    RunStaysAnchored(t, s.prices, items, kind, subs, r, now, immediateOrder, dueOrder);
    forall g: seq<PriceRow> | g in Grouped(rows)
      ensures g != [] && CaughtUp(g[0], Get(after, MarkKey(sub.watchlistId, g[0].source, g[0].gameMode)))
    {
      HeadIsRow(rows, Grouped(rows), g);
      SkipIsCaughtUp(s.prices, items, after, sub, rep, g);
    }
  }

  lemma FindingsAllWritten(t: Tables, kind: Kind, subs: seq<Subscription>, r: RunReplies, now: int,
                           immediateOrder: seq<int>, dueOrder: seq<int>, j: nat, immediate: bool)
    requires ValidRun(t, kind, subs, r, now, immediateOrder, dueOrder) && j < |subs|
    requires Routed(t, kind, subs[j], r.subs[j], now, subs[j].userId, immediate)
    requires Delivers(Collect(t, kind, subs, r.subs, now), r, dueOrder, subs[j].userId, immediate)
    ensures Considered(kind, subs[j], r.subs[j])
    ensures var found := FindingsOf(t.marks, subs[j], r.subs[j], now);
      forall x | x in found.inits || x in found.sends ::
        WritesMark(RunEvents(t, kind, subs, r, now, immediateOrder, dueOrder), x.key)
  {
    hide SubscriptionStep, FindingsOf, Turns, TurnsTaken, ShouldProcessDigest;
    var found := FindingsOf(t.marks, subs[j], r.subs[j], now);
    forall x | x in found.inits || x in found.sends
      ensures WritesMark(RunEvents(t, kind, subs, r, now, immediateOrder, dueOrder), x.key)
    {
      if x in found.inits {
        CollectedInits(t, kind, subs, r.subs, now, j, x);
        assert MarkWritten(x) in RunEvents(t, kind, subs, r, now, immediateOrder, dueOrder);
      } else {
        DeliveredSend(t, kind, subs, r, now, immediateOrder, dueOrder, j, immediate, x);
      }
    }
  }
}
