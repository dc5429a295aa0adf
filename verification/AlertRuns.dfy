/** Whole serialised runs: price upserts, scheduled cycles, manual diffs and snapshots, in any order and with any
    failures. */
module AlertRuns {
  import opened Options
  import opened Calendar
  import opened Grouping
  import opened PriceTable
  import opened Detection
  import opened AlertTables
  import opened Dispatch
  import opened Schedule
  import opened AlertCycle
  import opened CycleFacts
  import opened CycleTheorems
  import opened RunGuarantees
  import opened RunPerUser
  import opened LiveReads
  import opened LostChanges
  import Snapshots = Snapshot

  datatype State = State(tables: Tables, prices: Prices)

  datatype Op =
    | PriceUpsert(key: PriceKey, cell: PriceCell)
    | Run(kind: Kind, subs: seq<Subscription>, r: RunReplies, now: int, immediateOrder: seq<int>, dueOrder: seq<int>)
    | ForcedSnapshot(queue: Queue, r: RunReplies, now: int, order: seq<int>)

  function OpEvents(t: Tables, op: Op): seq<Event> {
    match op
    case PriceUpsert(_, _) => []
    case Run(kind, subs, r, now, immediateOrder, dueOrder) =>
      if |r.subs| == |subs| then RunEvents(t, kind, subs, r, now, immediateOrder, dueOrder) else []
    case ForcedSnapshot(queue, r, now, order) => Turns(ImmediateTurn(queue, r, now), order)
  }

  function Step(s: State, op: Op): State {
    State(ApplyAll(s.tables, OpEvents(s.tables, op)), if op.PriceUpsert? then s.prices[op.key := op.cell] else s.prices)
  }

  function StateAfter(s: State, ops: seq<Op>): State {
    if ops == [] then s else Step(StateAfter(s, ops[..|ops| - 1]), ops[|ops| - 1])
  }

  /** Everything written and mailed, in order. */
  function Trace(s: State, ops: seq<Op>): seq<Event> {
    if ops == [] then []
    else
      var front := ops[..|ops| - 1];
      Trace(s, front) + OpEvents(StateAfter(s, front).tables, ops[|ops| - 1])
  }

  /** The history shown for a subscription is the catalog's window of ten rows for its item, ties falling either way. */
  ghost predicate ShowsWindow(prices: Prices, item: string, r: SubReplies) {
    r.history.HistoryFound? ==>
      exists listing ::
        Listing(prices, item, "", listing) && r.history.rows == RowsOf(prices, listing[..Cut(|listing|, 10)])
  }

  /** No pair stored for an item shares its text key with another, among prices and watermarks alike. */
  ghost predicate Clear(s: State, items: int -> string) {
    && ClearSources(s.prices)
    && forall k, p | k in s.tables.marks && p in s.prices && p.item == items(k.watchlistId) ::
         !Ambiguous(k.source, k.gameMode, p.source, p.gameMode)
  }

  /** An operation as the services can perform it. `items` gives the item of a watchlist entry, which never changes. */
  ghost predicate ValidOp(s: State, op: Op, items: int -> string) {
    match op
    case PriceUpsert(key, cell) => Clear(Step(s, op), items)
    case Run(kind, subs, r, now, immediateOrder, dueOrder) =>
      && ValidRun(s.tables, kind, subs, r, now, immediateOrder, dueOrder) && OneModeEach(subs)
      && forall j | 0 <= j < |subs| ::
        subs[j].itemId == items(subs[j].watchlistId) && ShowsWindow(s.prices, subs[j].itemId, r.subs[j])
    case ForcedSnapshot(queue, r, now, order) =>
      forall u | u in queue :: queue[u].updates == [] && queue[u].mode == SNAPSHOT
  }

  ghost predicate Valid(s: State, ops: seq<Op>, items: int -> string) {
    if ops == [] then Clear(s, items)
    else Valid(s, ops[..|ops| - 1], items) && ValidOp(StateAfter(s, ops[..|ops| - 1]), ops[|ops| - 1], items)
  }

  lemma {:induction false} TraceLeadsToState(s: State, ops: seq<Op>)
    ensures ApplyAll(s.tables, Trace(s, ops)) == StateAfter(s, ops).tables
  {
    hide OpEvents;
    if ops != [] {
      var front := ops[..|ops| - 1];
      TraceLeadsToState(s, front);
      ApplyConcat(s.tables, Trace(s, front), OpEvents(StateAfter(s, front).tables, ops[|ops| - 1]));
    }
  }

  /** Such a window is the item's ten newest rows, or all when there are no more. */
  lemma WindowIsNewestTen(prices: Prices, item: string, r: SubReplies)
    requires r.history.HistoryFound? && ShowsWindow(prices, item, r)
    ensures var all := set k | k in prices && k.item == item; |r.history.rows| == if |all| < 10 then |all| else 10
    ensures exists keys :: ShowsNewest(prices, item, "", keys, r.history.rows)
  {
    hide FormatDate, ShowsNewest;
    var listing :| Listing(prices, item, "", listing)
      && r.history.rows == RowsOf(prices, listing[..Cut(|listing|, 10)]);
    ListingCount(prices, item, "", listing);
    assert (set k | k in prices && k.item == item && ("" == "" || k.gameMode == ""))
        == set k | k in prices && k.item == item;
    CutShows(prices, item, "", listing, Cut(|listing|, 10));
  }

  // ----- text keys stay clear -----

  /** A pair shown for an item is a pair stored for it. */
  lemma ShownPairIsStored(prices: Prices, item: string, r: SubReplies, row: PriceRow)
    requires r.history.HistoryFound? && ShowsWindow(prices, item, r) && row in r.history.rows
    ensures exists p :: p in prices && p.item == item && p.source == row.source && p.gameMode == row.gameMode
  {
    hide FormatDate;
    var listing: seq<PriceKey> :| Listing(prices, item, "", listing)
      && r.history.rows == RowsOf(prices, listing[..Cut(|listing|, 10)]);
    var i :| 0 <= i < |r.history.rows| && r.history.rows[i] == row;
    assert listing[i] in listing;
  }

  /** What a run is shown in a clear state is clear beside the watermarks, so the service realises the run's
      specification. */
  lemma ShownRepliesAreClear(s: State, items: int -> string, watchlistId: int, r: SubReplies)
    requires Clear(s, items) && ShowsWindow(s.prices, items(watchlistId), r)
    ensures ClearReply(s.tables.marks, watchlistId, r)
  {
    hide FormatDate;
    if r.history.HistoryFound? {
      var (item, rows) := (items(watchlistId), r.history.rows);
      var listing: seq<PriceKey> :| Listing(s.prices, item, "", listing)
        && rows == RowsOf(s.prices, listing[..Cut(|listing|, 10)]);
      ListingHasOneRowPerDay(s.prices, item, "", listing[..Cut(|listing|, 10)]);
      hide ShowsWindow;
      forall k, row | k in s.tables.marks && k.watchlistId == watchlistId && row in rows
        ensures !Ambiguous(k.source, k.gameMode, row.source, row.gameMode)
      {
        ShownPairIsStored(s.prices, item, r, row);
      }
    }
  }

  lemma OpStaysClear(s: State, op: Op, items: int -> string)
    requires Clear(s, items) && ValidOp(s, op, items)
    ensures Clear(Step(s, op), items)
  {
    hide RunEvents, Collect, Turns, ShowsWindow, Once, Ambiguous;
    match op
    case PriceUpsert(_, _) =>
    case Run(kind, subs, r, now, immediateOrder, dueOrder) =>
      forall k, p | k in Step(s, op).tables.marks && p in s.prices && p.item == items(k.watchlistId)
        ensures !Ambiguous(k.source, k.gameMode, p.source, p.gameMode)
      {
        RunWritesShownPairs(s.tables, kind, subs, r, now, immediateOrder, dueOrder, k);
        if k !in s.tables.marks {
          var j :| 0 <= j < |subs| && subs[j].watchlistId == k.watchlistId && ShowsPair(r.subs[j], k);
          var row :| row in r.subs[j].history.rows && row.source == k.source && row.gameMode == k.gameMode;
          ShownPairIsStored(s.prices, subs[j].itemId, r.subs[j], row);
        }
      }
    case ForcedSnapshot(queue, r, now, order) =>
      Snapshots.SnapshotOnlyMails(queue, r, now, order, s.tables);
  }

  /** Text keys stay clear along every valid run, so each of its cycles and diffs meets what the service requires. */
  lemma {:induction false} RunsStayClear(s: State, ops: seq<Op>, items: int -> string)
    requires Valid(s, ops, items)
    ensures Clear(s, items) && Clear(StateAfter(s, ops), items)
  {
    hide ValidOp, Clear, Step;
    if ops != [] {
      RunsStayClear(s, ops[..|ops| - 1], items);
      OpStaysClear(StateAfter(s, ops[..|ops| - 1]), ops[|ops| - 1], items);
    }
  }

  // ----- watermarks over a whole run -----

  lemma SnapshotMail(queue: Queue, r: RunReplies, now: int, order: seq<int>, e: Event)
    requires forall u | u in queue :: queue[u].updates == [] && queue[u].mode == SNAPSHOT
    requires e in Turns(ImmediateTurn(queue, r, now), order)
    ensures e.Emailed? && e.mode == SNAPSHOT
  {
    hide CanMail, SortedChanges;
    TurnsMembers(ImmediateTurn(queue, r, now), order);
    var u :| u in order && e in ImmediateTurn(queue, r, now)(u);
  }

  lemma OpSteps(s: State, op: Op, items: int -> string)
    requires ValidOp(s, op, items)
    ensures Steps(s.tables, OpEvents(s.tables, op))
  {
    hide RunEvents, Collect, Once, Turns, ShowsWindow;
    match op
    case PriceUpsert(_, _) =>
    case Run(kind, subs, r, now, immediateOrder, dueOrder) =>
      RunIsPlanned(s.tables, kind, subs, r, now, immediateOrder, dueOrder);
      PlanSteps(s.tables, RunEvents(s.tables, kind, subs, r, now, immediateOrder, dueOrder));
    case ForcedSnapshot(queue, r, now, order) =>
      var events := OpEvents(s.tables, op);
      forall i | 0 <= i < |events|
        ensures events[i].Emailed?
      {
        assert events[i] in events;
        SnapshotMail(queue, r, now, order, events[i]);
      }
  }

  lemma {:induction false} TraceSteps(s: State, ops: seq<Op>, items: int -> string)
    requires Valid(s, ops, items)
    ensures Steps(s.tables, Trace(s, ops))
  {
    hide OpEvents, ValidOp, Steps;
    if ops == [] {
      NothingSteps(s.tables);
    } else {
      var front := ops[..|ops| - 1];
      TraceSteps(s, front, items);
      OpSteps(StateAfter(s, front), ops[|ops| - 1], items);
      TraceLeadsToState(s, front);
      StepsConcat(s.tables, Trace(s, front), OpEvents(StateAfter(s, front).tables, ops[|ops| - 1]));
    }
  }

  lemma NothingSteps(t: Tables)
    ensures Steps(t, [])
  {
  }

  /** Over any serialised run with any failures: of two writes of one key's watermark the later never carries an
      earlier day, and two consecutive ones never carry the same (day, value) pair. */
  lemma WatermarksOnlyAdvance(s: State, ops: seq<Op>, items: int -> string, i: nat, j: nat)
    requires Valid(s, ops, items)
    requires var trace := Trace(s, ops);
      i < j < |trace| && trace[i].MarkWritten? && trace[j].MarkWritten? && trace[i].state.key == trace[j].state.key
    ensures var trace := Trace(s, ops); var (first, second) := (trace[i].state.mark, trace[j].state.mark);
      && first.day.Some? && second.day.Some? && first.day.value <= second.day.value
      && (!WritesMark(trace[i + 1..j], trace[i].state.key) ==> (first.day, first.value) != (second.day, second.value))
  {
    hide Trace, Valid, Steps;
    TraceSteps(s, ops, items);
    WritesOfOneKey(s.tables, Trace(s, ops), i, j);
  }

  /** Nor does any row ever move back between the start and the end of a run. */
  lemma RowsNeverGoBack(s: State, ops: seq<Op>, items: int -> string, key: MarkKey)
    requires Valid(s, ops, items)
    ensures NotBack(Get(s.tables.marks, key), Get(StateAfter(s, ops).tables.marks, key))
  {
    hide Trace, Valid, Steps, StateAfter;
    TraceSteps(s, ops, items);
    TraceLeadsToState(s, ops);
    StepsNeverGoBack(s.tables, Trace(s, ops), key);
  }

  // ----- one digest a day -----

  predicate DigestMail(e: Event) {
    e.Emailed? && e.mode == DAILY_DIGEST
  }

  predicate InTimeOrder(ops: seq<Op>) {
    forall i, j | 0 <= i < j < |ops| && ops[i].Run? && ops[j].Run? :: ops[i].now <= ops[j].now
  }

  /** No table write of a digest dispatch fails after its email went out. */
  ghost predicate WritesFollowSends(t: Tables, op: Op) {
    op.Run? && |op.r.subs| == |op.subs| ==>
      var c := Collect(t, op.kind, op.subs, op.r.subs, op.now);
      forall u | u in c.digest && Reaches(c, op.r, op.dueOrder, u)
        && EmailPart(c.digest[u], op.r.digest(u), op.now) != [] ::
        DispatchSucceeds(c.digest[u], op.r.digest(u), true)
  }

  ghost predicate AllWritesFollowSends(s: State, ops: seq<Op>) {
    forall k | 0 <= k < |ops| :: WritesFollowSends(StateAfter(s, ops[..k]).tables, ops[k])
  }

  /** A digest email comes from the reached turn of a user with a pending digest. */
  lemma DigestMailOfRun(t: Tables, kind: Kind, subs: seq<Subscription>, r: RunReplies, now: int,
                        immediateOrder: seq<int>, dueOrder: seq<int>, e: Event)
    requires ValidRun(t, kind, subs, r, now, immediateOrder, dueOrder)
    requires e in RunEvents(t, kind, subs, r, now, immediateOrder, dueOrder) && DigestMail(e)
    ensures var c := Collect(t, kind, subs, r.subs, now);
      && Reaches(c, r, dueOrder, e.user) && e.at == now
      && e.user in c.digest && e.user in c.due && EmailPart(c.digest[e.user], r.digest(e.user), now) != []
  {
    hide SubscriptionStep, Once, Turns, TurnsTaken, DispatchEvents, HasSource;
    var c := Collect(t, kind, subs, r.subs, now);
    RunParts(t, kind, subs, r, now, immediateOrder, dueOrder);
    CollectIsGood(t, kind, subs, r.subs, now);
    InitsAreMarks(t, kind, subs, r.subs, now, c.events);
    var (a, b) := (ImmediateTurn(c.immediate, r, now), DigestTurn(c.digest, r, now));
    var due := dueOrder[..TurnsTaken(c.digest, r, dueOrder)];
    ImmediateSendsNoDigest(t, kind, subs, r.subs, now, a, immediateOrder);
    TurnsMembers(b, due);
    hide GoodQueue, GoodInits;
    assert e in Turns(b, due);
    var u :| u in due && e in b(u);
    assert Mine(t, kind, subs, r.subs, now, u, false, e);
    MailOfDispatch(c.digest[u], r.digest(u), now, e);
  }

  lemma ImmediateSendsNoDigest(t: Tables, kind: Kind, subs: seq<Subscription>, replies: seq<SubReplies>, now: int,
                               turn: Turn, order: seq<int>)
    requires |replies| == |subs| && MineAll(t, kind, subs, replies, now, turn, order, true)
    ensures forall e | e in Turns(turn, order) :: !DigestMail(e)
  {
    hide Turns, HasSource, Once;
    TurnsMembers(turn, order);
    forall e | e in Turns(turn, order)
      ensures !DigestMail(e)
    {
      var v :| v in order && e in turn(v);
      assert Mine(t, kind, subs, replies, now, v, true, e);
    }
  }

  lemma MailOfDispatch(p: Pending, r: DispatchReplies, now: int, e: Event)
    requires e in DispatchEvents(p, r, now, true) && e.Emailed?
    ensures EmailPart(p, r, now) != []
  {
    hide CanMail, SortedChanges, DayOf;
  }

  /** A due user has not been processed today. */
  lemma {:induction false} DueIsUnprocessed(t: Tables, kind: Kind, subs: seq<Subscription>, replies: seq<SubReplies>,
                                            now: int, u: int)
    requires |replies| == |subs| && u in Collect(t, kind, subs, replies, now).due
    ensures var row := Get(t.digests, u); !(row.Some? && row.value.processedOn == Some(DayOf(now)))
  {
    hide FindingsOf, InitWrites, Enqueue, ParseTodaySchedule;
    if subs != [] {
      var n := |subs| - 1;
      if u in Collect(t, kind, subs[..n], replies[..n], now).due {
        DueIsUnprocessed(t, kind, subs[..n], replies[..n], now, u);
      }
    }
  }

  /** After a cycle every digest email it sent is on record, and earlier records are kept or brought up to today. */
  lemma RunRecordsDigests(t: Tables, op: Op, e: Event)
    requires op.Run? && ValidRun(t, op.kind, op.subs, op.r, op.now, op.immediateOrder, op.dueOrder)
    requires WritesFollowSends(t, op) && e in OpEvents(t, op) && DigestMail(e)
    ensures e.at == op.now
    ensures var before := Get(t.digests, e.user); !(before.Some? && before.value.processedOn == Some(DayOf(op.now)))
    ensures var row := Get(ApplyAll(t, OpEvents(t, op)).digests, e.user);
      row.Some? && row.value.processedOn == Some(DayOf(op.now))
  {
    hide SubscriptionStep, RunEvents, Once, EmailPart, DispatchSucceeds, Reaches;
    var c := Collect(t, op.kind, op.subs, op.r.subs, op.now);
    DigestMailOfRun(t, op.kind, op.subs, op.r, op.now, op.immediateOrder, op.dueOrder, e);
    DueIsUnprocessed(t, op.kind, op.subs, op.r.subs, op.now, e.user);
    DigestAfterRun(t, op.kind, op.subs, op.r, op.now, op.immediateOrder, op.dueOrder, e.user);
  }

  /** The digest row of a user records a day from that of the email on, up to the clock. */
  predicate Recorded(t: Tables, e: Event, clock: int)
    requires e.Emailed?
  {
    var row := Get(t.digests, e.user);
    row.Some? && row.value.processedOn.Some? && DayOf(e.at) <= row.value.processedOn.value <= DayOf(clock)
  }

  lemma RecordedLater(t: Tables, op: Op, items: int -> string, prices: Prices, e: Event, clock: int)
    requires ValidOp(State(t, prices), op, items) && e.Emailed? && Recorded(t, e, clock)
    requires op.Run? ==> clock <= op.now
    ensures Recorded(ApplyAll(t, OpEvents(t, op)), e, if op.Run? then op.now else clock)
  {
    hide RunEvents, Collect, Once, Turns, ShowsWindow, Reaches, TurnSucceeds;
    match op
    case PriceUpsert(_, _) =>
    case Run(kind, subs, r, now, immediateOrder, dueOrder) =>
      DayOfMonotone(clock, now);
      DigestAfterRun(t, kind, subs, r, now, immediateOrder, dueOrder, e.user);
    case ForcedSnapshot(queue, r, now, order) =>
      Snapshots.SnapshotOnlyMails(queue, r, now, order, t);
  }

  ghost predicate OncePerDay(trace: seq<Event>) {
    forall i, j | 0 <= i < j < |trace| && DigestMail(trace[i]) && DigestMail(trace[j])
      && trace[i].user == trace[j].user ::
      DayOf(trace[i].at) != DayOf(trace[j].at)
  }

  ghost predicate AllRecorded(t: Tables, trace: seq<Event>, clock: int) {
    forall e | e in trace && DigestMail(e) :: Recorded(t, e, clock)
  }

  lemma OpOncePerDay(t: Tables, op: Op, items: int -> string, prices: Prices)
    requires ValidOp(State(t, prices), op, items)
    ensures OncePerDay(OpEvents(t, op))
  {
    hide RunEvents, Collect, Turns, ShowsWindow;
    var events := OpEvents(t, op);
    match op
    case PriceUpsert(_, _) =>
    case Run(kind, subs, r, now, immediateOrder, dueOrder) =>
      RunOnce(t, kind, subs, r, now, immediateOrder, dueOrder, true);
      assert forall i, j | 0 <= i < j < |events| :: SlotOf(events[i]) != SlotOf(events[j]);
    case ForcedSnapshot(queue, r, now, order) =>
      forall i | 0 <= i < |events|
        ensures !DigestMail(events[i])
      {
        assert events[i] in events;
        SnapshotMail(queue, r, now, order, events[i]);
      }
  }

  lemma OnceConcatenated(t: Tables, op: Op, trace: seq<Event>, clock: int)
    requires OncePerDay(trace) && OncePerDay(OpEvents(t, op)) && AllRecorded(t, trace, clock)
    requires op.Run? ==> clock <= op.now
    requires forall e | e in OpEvents(t, op) && DigestMail(e) ::
      op.Run? && e.at == op.now && var row := Get(t.digests, e.user);
        !(row.Some? && row.value.processedOn == Some(DayOf(op.now)))
    ensures OncePerDay(trace + OpEvents(t, op))
  {
    hide OpEvents;
    var (events, both) := (OpEvents(t, op), trace + OpEvents(t, op));
    forall i, j | 0 <= i < j < |both| && DigestMail(both[i]) && DigestMail(both[j]) && both[i].user == both[j].user
      ensures DayOf(both[i].at) != DayOf(both[j].at)
    {
      if i < |trace| <= j {
        assert both[i] in trace && both[j] in events;
        assert Recorded(t, both[i], clock);
        DayOfMonotone(clock, op.now);
      }
    }
  }

  ghost predicate ClockReaches(ops: seq<Op>, clock: int) {
    forall k | 0 <= k < |ops| && ops[k].Run? :: ops[k].now <= clock
  }

  /** One more operation keeps the record. `before` is a bound on the clock so far. */
  lemma DigestStep(s: State, op: Op, items: int -> string, trace: seq<Event>, before: int, clock: int)
    requires ValidOp(s, op, items) && WritesFollowSends(s.tables, op)
    requires OncePerDay(trace) && AllRecorded(s.tables, trace, before)
    requires before <= clock && (op.Run? ==> before == op.now)
    ensures OncePerDay(trace + OpEvents(s.tables, op))
    ensures AllRecorded(ApplyAll(s.tables, OpEvents(s.tables, op)), trace + OpEvents(s.tables, op), clock)
  {
    hide OpEvents, ValidOp, Recorded, OncePerDay, WritesFollowSends, ApplyAll;
    var (t, events) := (s.tables, OpEvents(s.tables, op));
    OpOncePerDay(t, op, items, s.prices);
    forall e | e in events && DigestMail(e)
      ensures op.Run? && e.at == op.now && Recorded(ApplyAll(t, events), e, clock)
      ensures var row := Get(t.digests, e.user); !(row.Some? && row.value.processedOn == Some(DayOf(op.now)))
    {
      NewDigestRecorded(s, op, items, e, clock);
    }
    OnceConcatenated(t, op, trace, before);
    forall e | e in trace && DigestMail(e)
      ensures Recorded(ApplyAll(t, events), e, clock)
    {
      OldDigestRecorded(s, op, items, e, before, clock);
    }
  }

  /** At most one digest email per user and UTC day over any serialised run whose clock does not run backwards,
      when no table write fails after a digest email has gone out. */
  lemma {:induction false} OneDigestPerDay(s: State, ops: seq<Op>, items: int -> string, clock: int)
    requires Valid(s, ops, items) && InTimeOrder(ops) && AllWritesFollowSends(s, ops) && ClockReaches(ops, clock)
    ensures OncePerDay(Trace(s, ops))
    ensures AllRecorded(StateAfter(s, ops).tables, Trace(s, ops), clock)
  {
    hide OpEvents, ValidOp, OncePerDay, AllRecorded, WritesFollowSends, ApplyAll;
    if ops == [] {
      NothingSent(s.tables, clock);
    } else {
      var (front, op) := (ops[..|ops| - 1], ops[|ops| - 1]);
      var before := if op.Run? then op.now else clock;
      assert forall k | 0 <= k < |front| :: front[..k] == ops[..k] && front[k] == ops[k];
      OneDigestPerDay(s, front, items, before);
      assert WritesFollowSends(StateAfter(s, front).tables, op);
      DigestStep(StateAfter(s, front), op, items, Trace(s, front), before, clock);
    }
  }

  lemma NothingSent(t: Tables, clock: int)
    ensures OncePerDay([]) && AllRecorded(t, [], clock)
  {
  }

  lemma NewDigestRecorded(s: State, op: Op, items: int -> string, e: Event, clock: int)
    requires ValidOp(s, op, items) && WritesFollowSends(s.tables, op) && e in OpEvents(s.tables, op) && DigestMail(e)
    requires op.Run? ==> op.now <= clock
    ensures op.Run? && e.at == op.now && Recorded(ApplyAll(s.tables, OpEvents(s.tables, op)), e, clock)
    ensures var row := Get(s.tables.digests, e.user); !(row.Some? && row.value.processedOn == Some(DayOf(op.now)))
  {
    if op.ForcedSnapshot? {
      SnapshotMail(op.queue, op.r, op.now, op.order, e);
    } else {
      hide RunEvents, Collect;
      RunRecordsDigests(s.tables, op, e);
      DayOfMonotone(op.now, clock);
    }
  }

  lemma OldDigestRecorded(s: State, op: Op, items: int -> string, e: Event, before: int, clock: int)
    requires ValidOp(s, op, items) && DigestMail(e) && Recorded(s.tables, e, before) && before <= clock
    requires op.Run? ==> before == op.now
    ensures Recorded(ApplyAll(s.tables, OpEvents(s.tables, op)), e, clock)
  {
    hide OpEvents, ValidOp, DayOf;
    RecordedLater(s.tables, op, items, s.prices, e, before);
    DayOfMonotone(before, clock);
  }

  /** Without that condition the guarantee fails exactly there: a user whose digest email went out is due again
      later the same day if and only if one of the writes that follow the email failed. */
  lemma DueAgainTodayIff(t: Tables, kind: Kind, subs: seq<Subscription>, r: RunReplies, now: int,
                         immediateOrder: seq<int>, dueOrder: seq<int>, e: Event, time: string, later: int)
    requires ValidRun(t, kind, subs, r, now, immediateOrder, dueOrder)
    requires e in RunEvents(t, kind, subs, r, now, immediateOrder, dueOrder) && DigestMail(e)
    requires ParseClock(time).Some? && DayOf(later) == DayOf(now)
      && DayStart(later) + ParseClock(time).value * MINUTE <= later
    ensures e.user in Collect(t, kind, subs, r.subs, now).digest
    ensures var p := Collect(t, kind, subs, r.subs, now).digest[e.user];
      var row := Get(ApplyAll(t, RunEvents(t, kind, subs, r, now, immediateOrder, dueOrder)).digests, e.user);
      ShouldProcessDigest(time, row, true, later) == Some(true)
      <==> !r.digest(e.user).digestOk || exists i :: 0 <= i < |p.updates| && !r.digest(e.user).writeOk(i)
  {
    hide SubscriptionStep, RunEvents, Once, Reaches, ParseClock, ShouldProcessDigest, DayOf, CanMail, SortedChanges,
      LeadingOk;
    var c := Collect(t, kind, subs, r.subs, now);
    DigestMailOfRun(t, kind, subs, r, now, immediateOrder, dueOrder, e);
    DueIsUnprocessed(t, kind, subs, r.subs, now, e.user);
    DigestAfterRun(t, kind, subs, r, now, immediateOrder, dueOrder, e.user);
    var row := Get(ApplyAll(t, RunEvents(t, kind, subs, r, now, immediateOrder, dueOrder)).digests, e.user);
    DueWindow(time, row, later);
    var k := LeadingOk(r.digest(e.user).writeOk, |c.digest[e.user].updates|);
  }

  /** Which users a run mails a digest: those queued and reached whose contact can be mailed, with rendering and sending
      working. */
  lemma DigestMailedIff(t: Tables, kind: Kind, subs: seq<Subscription>, r: RunReplies, now: int,
                        immediateOrder: seq<int>, dueOrder: seq<int>, u: int)
    requires ValidRun(t, kind, subs, r, now, immediateOrder, dueOrder)
    ensures (exists e ::
             e in RunEvents(t, kind, subs, r, now, immediateOrder, dueOrder) && DigestMail(e) && e.user == u)
      <==> DigestGoesOut(Collect(t, kind, subs, r.subs, now), r, dueOrder, u)
  {
    hide SubscriptionStep, RunEvents, TurnsTaken, CanMail, SortedChanges, HasSource, GoodInits, Paired;
    var (c, events) := (Collect(t, kind, subs, r.subs, now),
                        RunEvents(t, kind, subs, r, now, immediateOrder, dueOrder));
    if e :| e in events && DigestMail(e) && e.user == u {
      DigestMailOfRun(t, kind, subs, r, now, immediateOrder, dueOrder, e);
    }
    if DigestGoesOut(c, r, dueOrder, u) {
      CollectIsGood(t, kind, subs, r.subs, now);
      assert GoodPending(t, kind, subs, r.subs, now, u, c.digest[u], false);
      var e := EmailOf(c.digest[u], now);
      assert EmailPart(c.digest[u], r.digest(u), now) == [e];
      DispatchIsPart(t, kind, subs, r, now, immediateOrder, dueOrder, u, false, e);
    }
  }

  predicate DigestGoesOut(c: Collection, r: RunReplies, dueOrder: seq<int>, u: int) {
    && !c.failed && u in c.digest && u in dueOrder[..TurnsTaken(c.digest, r, dueOrder)]
    && CanMail(r.digest(u).contact) && r.digest(u).renderOk && r.digest(u).sendOk
  }

  /** Some table write of the user's digest dispatch fails. */
  predicate DigestWriteFails(p: Pending, r: DispatchReplies) {
    !r.digestOk || exists i :: 0 <= i < |p.updates| && !r.writeOk(i)
  }

  /** A second digest on one day: after a run that mailed the user one, a later run of the same day mails another
      exactly when a write failed after the first email and the second run again has a digest for the user that goes
      out. */
  lemma SecondDigestIff(t: Tables, kind: Kind, subs: seq<Subscription>, r: RunReplies, now: int,
                        immediateOrder: seq<int>, dueOrder: seq<int>,
                        e: Event, kind': Kind, subs': seq<Subscription>, r': RunReplies, later: int,
                        immediateOrder': seq<int>, dueOrder': seq<int>)
    requires ValidRun(t, kind, subs, r, now, immediateOrder, dueOrder)
    requires e in RunEvents(t, kind, subs, r, now, immediateOrder, dueOrder) && DigestMail(e)
      && DayOf(later) == DayOf(now)
    requires var t' := ApplyAll(t, RunEvents(t, kind, subs, r, now, immediateOrder, dueOrder));
      ValidRun(t', kind', subs', r', later, immediateOrder', dueOrder')
    ensures e.user in Collect(t, kind, subs, r.subs, now).digest
    ensures var t' := ApplyAll(t, RunEvents(t, kind, subs, r, now, immediateOrder, dueOrder));
      (exists f ::
       f in RunEvents(t', kind', subs', r', later, immediateOrder', dueOrder') && DigestMail(f) && f.user == e.user)
      <==> && DigestWriteFails(Collect(t, kind, subs, r.subs, now).digest[e.user], r.digest(e.user))
           && DigestGoesOut(Collect(t', kind', subs', r'.subs, later), r', dueOrder', e.user)
  {
    hide SubscriptionStep, RunEvents, Once, Reaches, DayOf, CanMail, SortedChanges, LeadingOk, GoodQueue, GoodInits;
    var c := Collect(t, kind, subs, r.subs, now);
    var t' := ApplyAll(t, RunEvents(t, kind, subs, r, now, immediateOrder, dueOrder));
    DigestMailOfRun(t, kind, subs, r, now, immediateOrder, dueOrder, e);
    DigestAfterRun(t, kind, subs, r, now, immediateOrder, dueOrder, e.user);
    DigestMailedIff(t', kind', subs', r', later, immediateOrder', dueOrder', e.user);
    var k := LeadingOk(r.digest(e.user).writeOk, |c.digest[e.user].updates|);
    if DigestGoesOut(Collect(t', kind', subs', r'.subs, later), r', dueOrder', e.user) {
      CollectIsGood(t', kind', subs', r'.subs, later);
      DueIsUnprocessed(t', kind', subs', r'.subs, later, e.user);
    }
  }
}
