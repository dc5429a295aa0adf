/** Runs that mail the same day and value of a key twice, and a manual diff that mails more than it reports. */
module Repeats {
  import opened Options
  import opened Calendar
  import opened Grouping
  import opened PriceTable
  import opened Detection
  import opened AlertTables
  import opened Dispatch
  import opened Schedule
  import opened AlertCycle
  import opened CycleTheorems
  import opened AlertRuns
  import opened Readings
  import opened AlertService
  import opened Witnesses

  // ----- one entry of one user, dispatched at once -----

  lemma LoneImmediate(t: Tables, kind: Kind, sub: Subscription, r: RunReplies, now: int, p: Pending)
    requires |r.subs| == 1 && Collect(t, kind, [sub], r.subs, now) == Collection([], map[1 := p], map[], {}, false)
    ensures ValidRun(t, kind, [sub], r, now, [1], [])
    ensures RunEvents(t, kind, [sub], r, now, [1], []) == DispatchEvents(p, r.immediate(1), now, false)
  {
    NobodyTwice();
    var queue: Queue := map[1 := p];
    var nobody: Queue := map[];
    var none: seq<int> := [];
    assert queue.Keys == {1};
    OneTurn(ImmediateTurn(queue, r, now), 1);
    OneTurn(DigestTurn(nobody, r, now), 1);
    NoDueUsers(nobody, r);
    hide Collect, Visits, Turns, TurnsTaken, DispatchEvents;
    var events := DispatchEvents(p, r.immediate(1), now, false);
    assert ImmediateTurn(queue, r, now)(1) == events;
    assert RunEvents(t, kind, [sub], r, now, [1], none)
        == [] + Turns(ImmediateTurn(queue, r, now), [1])
          + Turns(DigestTurn(nobody, r, now), none[..TurnsTaken(nobody, r, none)]);
    assert [] + events + [] == events;
  }

  function Sent(contact: ContactReply, now: int): Option<int> {
    if CanMail(contact) then Some(now) else None
  }

  function MailAndMark(c: Change, s: NotificationState, contact: ContactReply, now: int): seq<Event> {
    (if CanMail(contact) then [Emailed(1, IMMEDIATE, now, [c])] else [])
    + [MarkWritten(s.(mark := s.mark.(sentAt := Sent(contact, now))))]
  }

  lemma OneDispatched(c: Change, s: NotificationState, contact: ContactReply, now: int)
    ensures DispatchEvents(Pending(IMMEDIATE, 1, [c], [s]), Contacted(contact, true), now, false)
      == MailAndMark(c, s, contact, now)
  {
    var (p, r) := (Pending(IMMEDIATE, 1, [c], [s]), Contacted(contact, true));
    LeadingAll(r.writeOk, 1);
    OneSorted(c);
    hide CanMail, SortedChanges, LeadingOk;
    var stamped := Stamped(p.updates, Stamp(r, now));
    assert stamped[..1] == [s.(mark := s.mark.(sentAt := Sent(contact, now)))];
    assert MarkEvents(stamped[..1]) == [MarkWritten(s.(mark := s.mark.(sentAt := Sent(contact, now))))];
  }

  // ----- a price that comes back -----

  /** A cycle for the scene's one entry, with all writes succeeding. */
  function Visit(x: Scene, contact: ContactReply, now: int): Op {
    Run(Scheduled, [Entry(x, 1, IMMEDIATE)], OneUser(x, contact, true), now, [1], [])
  }

  /** The scene after its change has been noted. */
  function Noted(x: Scene, contact: ContactReply, now: int): Scene {
    x.(before := Mark(Some(x.price.day), Some(x.cell.value), Sent(contact, now)))
  }

  lemma VisitEvents(x: Scene, contact: ContactReply, now: int)
    requires Changed(x)
    ensures var op := Visit(x, contact, now);
      && ValidRun(One(x), Scheduled, op.subs, op.r, now, [1], []) && OneModeEach(op.subs)
      && OpEvents(One(x), op) == MailAndMark(ChangeOf(x), SendOf(x, 1, now), contact, now)
  {
    hide ParseClock, Collect, RunEvents, ValidRun, CanMail, Answered, One, ChangeOf, SendOf, Entry, DispatchEvents,
      MailAndMark;
    var c := OneQueued(x, IMMEDIATE, now);
    LoneImmediate(One(x), Scheduled, Entry(x, 1, IMMEDIATE), OneUser(x, contact, true), now, c.immediate[1]);
    OneDispatched(ChangeOf(x), SendOf(x, 1, now), contact, now);
  }

  lemma MarkOverwrites(x: Scene, contact: ContactReply, now: int)
    requires Changed(x)
    ensures ApplyAll(One(x), MailAndMark(ChangeOf(x), SendOf(x, 1, now), contact, now)) == One(Noted(x, contact, now))
  {
    hide ParseClock, CanMail, ChangeOf;
    var mail := if CanMail(contact) then [Emailed(1, IMMEDIATE, now, [ChangeOf(x)])] else [];
    if CanMail(contact) {
      MailChangesNothing(One(x), mail[0]);
    }
    assert ApplyAll(One(x), mail) == One(x);
    var s := SendOf(x, 1, now);
    ApplyOne(One(x), mail, MarkWritten(s.(mark := s.mark.(sentAt := Sent(contact, now)))));
  }

  lemma VisitStep(x: Scene, contact: ContactReply, now: int, items: int -> string)
    requires Changed(x) && items(1) == x.price.item
    ensures ValidOp(Start(x), Visit(x, contact, now), items)
    ensures Step(Start(x), Visit(x, contact, now)) == Start(Noted(x, contact, now))
    ensures OpEvents(One(x), Visit(x, contact, now)) == MailAndMark(ChangeOf(x), SendOf(x, 1, now), contact, now)
  {
    hide Changed, One, Answered, ChangeOf, SendOf, RunEvents, ValidRun, ShowsWindow, ApplyAll, MailAndMark;
    VisitEvents(x, contact, now);
    WindowShown(x);
    MarkOverwrites(x, contact, now);
  }

  lemma UpsertStep(x: Scene, cell: PriceCell, items: int -> string)
    ensures ValidOp(Start(x), PriceUpsert(x.price, cell), items)
    ensures Step(Start(x), PriceUpsert(x.price, cell)) == Start(x.(cell := cell))
    ensures OpEvents(One(x), PriceUpsert(x.price, cell)) == []
  {
    StartIsClear(x.(cell := cell), items);
    hide Clear;
    assert map[x.price := x.cell][x.price := cell] == map[x.price := cell];
  }

  lemma Extended(s: State, ops: seq<Op>, op: Op, items: int -> string)
    requires Valid(s, ops, items) && ValidOp(StateAfter(s, ops), op, items)
    ensures Valid(s, ops + [op], items) && StateAfter(s, ops + [op]) == Step(StateAfter(s, ops), op)
    ensures Trace(s, ops + [op]) == Trace(s, ops) + OpEvents(StateAfter(s, ops).tables, op)
  {
    hide ValidOp, Step, OpEvents;
    assert (ops + [op])[..|ops|] == ops;
  }

  /** One more cycle after operations that lead to the scene. */
  lemma VisitNext(s: State, ops: seq<Op>, x: Scene, contact: ContactReply, now: int, items: int -> string)
    requires Valid(s, ops, items) && StateAfter(s, ops) == Start(x) && Changed(x) && items(1) == x.price.item
    ensures var after := ops + [Visit(x, contact, now)];
      && Valid(s, after, items) && StateAfter(s, after) == Start(Noted(x, contact, now))
      && Trace(s, after) == Trace(s, ops) + MailAndMark(ChangeOf(x), SendOf(x, 1, now), contact, now)
  {
    hide Valid, Trace, StateAfter, Step, OpEvents, ValidOp, Changed, ChangeOf, SendOf, MailAndMark, One;
    VisitStep(x, contact, now, items);
    Extended(s, ops, Visit(x, contact, now), items);
  }

  lemma FirstVisit(x: Scene, contact: ContactReply, now: int, items: int -> string)
    requires Changed(x) && items(1) == x.price.item
    ensures var ops := [Visit(x, contact, now)];
      && Valid(Start(x), ops, items) && StateAfter(Start(x), ops) == Start(Noted(x, contact, now))
      && Trace(Start(x), ops) == MailAndMark(ChangeOf(x), SendOf(x, 1, now), contact, now)
  {
    hide Clear, Start, Visit, Changed, ChangeOf, SendOf, MailAndMark;
    StartIsClear(x, items);
    assert Valid(Start(x), [], items) && StateAfter(Start(x), []) == Start(x) && Trace(Start(x), []) == [];
    hide Valid, StateAfter, Trace;
    VisitNext(Start(x), [], x, contact, now, items);
    assert [] + [Visit(x, contact, now)] == [Visit(x, contact, now)];
    assert [] + MailAndMark(ChangeOf(x), SendOf(x, 1, now), contact, now)
      == MailAndMark(ChangeOf(x), SendOf(x, 1, now), contact, now);
  }

  lemma UpsertNext(s: State, ops: seq<Op>, x: Scene, cell: PriceCell, items: int -> string)
    requires Valid(s, ops, items) && StateAfter(s, ops) == Start(x)
    ensures var after := ops + [PriceUpsert(x.price, cell)];
      Valid(s, after, items) && StateAfter(s, after) == Start(x.(cell := cell)) && Trace(s, after) == Trace(s, ops)
  {
    hide Valid, Trace, StateAfter, Step, OpEvents, ValidOp, One;
    UpsertStep(x, cell, items);
    Extended(s, ops, PriceUpsert(x.price, cell), items);
    assert Trace(s, ops) + [] == Trace(s, ops);
  }

  /** The price changes and a cycle follows. */
  lemma ChangeAndVisit(s: State, ops: seq<Op>, x: Scene, cell: PriceCell, contact: ContactReply, now: int,
                       items: int -> string)
    requires Valid(s, ops, items) && StateAfter(s, ops) == Start(x) && items(1) == x.price.item
      && Changed(x.(cell := cell))
    ensures var (y, after) := (x.(cell := cell), ops
                               + [PriceUpsert(x.price, cell), Visit(x.(cell := cell), contact, now)]);
      && Valid(s, after, items) && StateAfter(s, after) == Start(Noted(y, contact, now))
      && Trace(s, after) == Trace(s, ops) + MailAndMark(ChangeOf(y), SendOf(y, 1, now), contact, now)
  {
    hide Valid, Trace, StateAfter, Changed, Start, Visit, ChangeOf, SendOf, MailAndMark, Noted;
    var y := x.(cell := cell);
    UpsertNext(s, ops, x, cell, items);
    VisitNext(s, ops + [PriceUpsert(x.price, cell)], y, contact, now, items);
    assert ops + [PriceUpsert(x.price, cell)] + [Visit(y, contact, now)]
      == ops + [PriceUpsert(x.price, cell), Visit(y, contact, now)];
  }

  function Second(x: Scene, other: PriceCell, at: int): Scene {
    Noted(x, x.contact, at).(cell := other)
  }

  function Third(x: Scene, other: PriceCell, middle: ContactReply, at: int, at': int): Scene {
    Noted(Second(x, other, at), middle, at').(cell := x.cell)
  }

  /** Three cycles with the price changed before the second and changed back before the third. */
  function ThereAndBack(x: Scene, other: PriceCell, middle: ContactReply, at: int, at': int, at'': int): seq<Op> {
    [Visit(x, x.contact, at)]
    + [PriceUpsert(x.price, other), Visit(Second(x, other, at), middle, at')]
    + [PriceUpsert(x.price, x.cell), Visit(Third(x, other, middle, at, at'), x.contact, at'')]
  }

  /** The two emails tell one change each, of one item and pair, with one day and value. */
  predicate SameDayAndValue(e: Event, f: Event) {
    && e.Emailed? && f.Emailed? && e.user == f.user && |e.changes| == |f.changes| == 1
    && var (c, d) := (e.changes[0], f.changes[0]);
    && c.itemId == d.itemId && c.source == d.source && c.gameMode == d.gameMode
    && c.collectedOn == d.collectedOn && c.current == d.current
  }

  lemma ScenesInBetween(x: Scene, other: PriceCell, middle: ContactReply, at: int, at': int)
    requires Changed(x) && other.value != x.cell.value
    ensures Changed(Second(x, other, at)) && Changed(Third(x, other, middle, at, at'))
  {
    hide ParseClock, CanMail;
  }

  lemma ThereAndBackRuns(x: Scene, other: PriceCell, middle: ContactReply, at: int, at': int, at'': int,
                         items: int -> string)
    requires Changed(x) && Changed(Second(x, other, at)) && Changed(Third(x, other, middle, at, at'))
      && items(1) == x.price.item
    ensures var (ops, y, z) := (ThereAndBack(x, other, middle, at, at', at''), Second(x, other, at),
                                Third(x, other, middle, at, at'));
      && Valid(Start(x), ops, items)
      && Trace(Start(x), ops)
         == MailAndMark(ChangeOf(x), SendOf(x, 1, at), x.contact, at)
           + MailAndMark(ChangeOf(y), SendOf(y, 1, at'), middle, at')
            + MailAndMark(ChangeOf(z), SendOf(z, 1, at''), x.contact, at'')
  {
    var (s, y, z) := (Start(x), Second(x, other, at), Third(x, other, middle, at, at'));
    hide Valid, Trace, StateAfter, Changed, Start, Visit, ChangeOf, SendOf, MailAndMark;
    FirstVisit(x, x.contact, at, items);
    var first := [Visit(x, x.contact, at)];
    ChangeAndVisit(s, first, Noted(x, x.contact, at), other, middle, at', items);
    var second := first + [PriceUpsert(x.price, other), Visit(y, middle, at')];
    ChangeAndVisit(s, second, Noted(y, middle, at'), x.cell, x.contact, at'', items);
  }

  /** A price that changes and comes back within a day is mailed twice with the same day and value, although no call
      fails: the change in between may have been mailed, or noted without an email. */
  lemma ReturningPriceIsMailedAgain(x: Scene, other: PriceCell, middle: ContactReply, at: int, at': int, at'': int)
    requires Changed(x) && other.value != x.cell.value && at <= at' <= at''
    ensures var ops := ThereAndBack(x, other, middle, at, at', at'');
      && Valid(Start(x), ops, _ => x.price.item) && InTimeOrder(ops)
      && var trace := Trace(Start(x), ops);
      && |trace| == 4 + (if CanMail(middle) then 2 else 1)
      && SameDayAndValue(trace[0], trace[|trace| - 2])
  {
    var (y, z, items) := (Second(x, other, at), Third(x, other, middle, at, at'), _ => x.price.item);
    ScenesInBetween(x, other, middle, at, at');
    ThereAndBackRuns(x, other, middle, at, at', at'', items);
    FirstAndLastMail(x, y, z, middle, at, at', at'');
    ThereAndBackInOrder(x, other, middle, at, at', at'');
    hide Valid, Trace, Changed, Start, ThereAndBack, InTimeOrder, ChangeOf, SendOf, MailAndMark, SameDayAndValue,
      CanMail;
  }

  lemma ThereAndBackInOrder(x: Scene, other: PriceCell, middle: ContactReply, at: int, at': int, at'': int)
    requires at <= at' <= at''
    ensures InTimeOrder(ThereAndBack(x, other, middle, at, at', at''))
  {
    hide Entry, OneUser, Second, Third;
  }

  lemma FirstAndLastMail(x: Scene, y: Scene, z: Scene, middle: ContactReply, at: int, at': int, at'': int)
    requires Changed(x) && Changed(y) && Changed(z) && z.item == x.item && z.price == x.price && z.cell == x.cell
    ensures var trace := MailAndMark(ChangeOf(x), SendOf(x, 1, at), x.contact, at)
      + MailAndMark(ChangeOf(y), SendOf(y, 1, at'), middle, at')
                         + MailAndMark(ChangeOf(z), SendOf(z, 1, at''), x.contact, at'');
      && |trace| == 4 + (if CanMail(middle) then 2 else 1)
      && SameDayAndValue(trace[0], trace[|trace| - 2])
  {
    hide ParseClock, CanMail, FormatDate;
  }

  // ----- one text for two pairs -----

  /** The entry's own watermark is at the newest day and value; another pair's, with the same text, is behind. */
  function Collided(x: Scene, other: MarkKey, sentAt: Option<int>): Tables {
    Tables(map[Key(x, 1) := Mark(Some(x.price.day), Some(x.cell.value), sentAt), other := x.before], map[])
  }

  function Confused(x: Scene, other: MarkKey): Tables {
    Tables(map[Key(x, 1) := x.before, other := x.before], map[])
  }

  lemma OtherIsRead(x: Scene, other: MarkKey, sentAt: Option<int>)
    requires other.watchlistId == 1 && Ambiguous(x.price.source, x.price.gameMode, other.source, other.gameMode)
    ensures ReadsAs(Collided(x, other, sentAt).marks, 1, Answered(x), Confused(x, other).marks)
  {
    hide FormatDate;
    var t := Collided(x, other, sentAt);
    assert other in t.marks && t.marks[other] == x.before;
    var states := ListedLast(t.marks, other);
    var text := StateKey(x.price.source, x.price.gameMode);
    assert ByKey(states)[text] == x.before;
    assert Get(Confused(x, other).marks, Key(x, 1)) == Some(x.before);
    hide Lists, ByKey;
  }

  lemma OneEntryRead(t: Tables, sub: Subscription, r: SubReplies, now: int, seen: Tables)
    requires seen.digests == t.digests && r.history.HistoryFound? && ReadsAs(t.marks, sub.watchlistId, r, seen.marks)
    ensures ActsOn(t, Scheduled, [sub], [r], now, seen, [r])
  {
    hide ReadsAs, Collect, Considered;
    assert FirstRead(t.marks, Scheduled, [sub], [r], seen.marks, 1);
  }

  lemma ActsConfused(x: Scene, other: MarkKey, sentAt: Option<int>, now: int)
    requires other.watchlistId == 1 && Ambiguous(x.price.source, x.price.gameMode, other.source, other.gameMode)
    ensures ActsOn(Collided(x, other, sentAt), Scheduled, [Entry(x, 1, IMMEDIATE)], [Answered(x)], now,
                   Confused(x, other), [Answered(x)])
  {
    hide ReadsAs, ActsOn, Row;
    OtherIsRead(x, other, sentAt);
    OneEntryRead(Collided(x, other, sentAt), Entry(x, 1, IMMEDIATE), Answered(x), now, Confused(x, other));
  }

  lemma ConfusedIsQueued(x: Scene, other: MarkKey, now: int)
    requires Changed(x)
    ensures Collect(Confused(x, other), Scheduled, [Entry(x, 1, IMMEDIATE)], [Answered(x)], now)
         == Collection([], map[1 := Queued(x, 1, IMMEDIATE, now)], map[], {}, false)
  {
    var t := Confused(x, other);
    assert Key(x, 1) in t.marks && t.marks[Key(x, 1)] == x.before;
    hide Confused, Changed, Answered, Entry, Queued, Key;
    CollectOne(t, Entry(x, 1, IMMEDIATE), Answered(x), now);
    hide Collect, SubscriptionStep;
    EntryIsQueued(x, t, EMPTY, 1, IMMEDIATE, now);
  }

  /** A run the service may perform: the database lists the other pair's row last, and the day and value on record are
      mailed and written once more. */
  lemma CollidedPairIsMailedAgain(x: Scene, other: MarkKey, sentAt: Option<int>, now: int)
    requires Changed(x) && other.watchlistId == 1
    requires Ambiguous(x.price.source, x.price.gameMode, other.source, other.gameMode)
    ensures var (t, seen, subs, r) := (Collided(x, other, sentAt), Confused(x, other), [Entry(x, 1, IMMEDIATE)],
                                       OneUser(x, x.contact, true));
      && ActsOn(t, Scheduled, subs, r.subs, now, seen, r.subs) && ValidRun(seen, Scheduled, subs, r, now, [1], [])
      && var events := RunEvents(seen, Scheduled, subs, r, now, [1], []);
      && |events| == 2 && events[0] == Emailed(1, IMMEDIATE, now, [ChangeOf(x)])
      && events[1].MarkWritten? && events[1].state.key == Key(x, 1) && Key(x, 1) in t.marks
      && events[1].state.mark.day == t.marks[Key(x, 1)].day && events[1].state.mark.value == t.marks[Key(x, 1)].value
  {
    hide ActsOn, Collided, Confused, Collect, Answered, Entry, ChangeOf, DispatchEvents, ParseClock, CanMail, RunEvents,
      ValidRun, Key, Ambiguous;
    ActsConfused(x, other, sentAt, now);
    OwnMark(x, other, sentAt);
    ConfusedEvents(x, other, now);
  }

  lemma ConfusedEvents(x: Scene, other: MarkKey, now: int)
    requires Changed(x)
    ensures var (seen, subs, r) := (Confused(x, other), [Entry(x, 1, IMMEDIATE)], OneUser(x, x.contact, true));
      && ValidRun(seen, Scheduled, subs, r, now, [1], [])
      && RunEvents(seen, Scheduled, subs, r, now, [1], [])
         == [Emailed(1, IMMEDIATE, now, [ChangeOf(x)]), MarkWritten(SendOf(x, 1, now))]
  {
    hide Confused, Collect, Answered, Entry, ChangeOf, DispatchEvents, ParseClock, CanMail, RunEvents, ValidRun, Key;
    var r := OneUser(x, x.contact, true);
    ConfusedIsQueued(x, other, now);
    LoneImmediate(Confused(x, other), Scheduled, Entry(x, 1, IMMEDIATE), r, now, Queued(x, 1, IMMEDIATE, now));
    OneDispatched(ChangeOf(x), SendOf(x, 1, now), x.contact, now);
  }

  lemma OwnMark(x: Scene, other: MarkKey, sentAt: Option<int>)
    requires Ambiguous(x.price.source, x.price.gameMode, other.source, other.gameMode)
    ensures var marks := Collided(x, other, sentAt).marks;
      && Key(x, 1) in marks && marks[Key(x, 1)].day == Some(x.price.day) && marks[Key(x, 1)].value == Some(x.cell.value)
  {
  }

  // ----- mailed and not reported -----

  lemma ManualQueued(x: Scene, mode: string, now: int)
    requires Changed(x)
    ensures Collect(One(x), Manual(1), [Entry(x, 1, mode)], [Answered(x)], now)
         == Collection([], map[1 := Queued(x, 1, IMMEDIATE, now)], map[], {}, false)
  {
    hide One, Changed, Answered, Entry, ChangeOf, SendOf, Considered, Immediately, SubscriptionStep, FindingsOf,
      Collect, Key;
    ManualConsiders(x, mode);
    OwnRow(x);
    OneChange(x, One(x).marks, 1, mode, now);
    StepQueues(One(x), EMPTY, Manual(1), Entry(x, 1, mode), Answered(x), now, ChangeOf(x), SendOf(x, 1, now));
    CollectOneManual(One(x), Entry(x, 1, mode), Answered(x), now);
  }

  lemma ManualConsiders(x: Scene, mode: string)
    requires Changed(x)
    ensures var (sub, r) := (Entry(x, 1, mode), Answered(x));
      Considered(Manual(1), sub, r) && Immediately(Manual(1), sub) && r.listOk && sub.userId == 1
  {
    hide FormatDate, ParseClock, CanMail;
  }

  lemma OwnRow(x: Scene)
    ensures Key(x, 1) in One(x).marks && One(x).marks[Key(x, 1)] == x.before
  {
  }

  lemma CollectOneManual(t: Tables, sub: Subscription, r: SubReplies, now: int)
    ensures Collect(t, Manual(1), [sub], [r], now) == SubscriptionStep(t, EMPTY, Manual(1), sub, r, now)
  {
    hide SubscriptionStep;
    assert [sub][..0] == [] && [r][..0] == [];
  }

  /** A manual diff mails its user and then cannot write the watermark: the provider has accepted one email and the
      result counts none. */
  lemma MailIsNotReported(x: Scene, mode: string, now: int)
    requires Changed(x)
    ensures var (t, subs, r) := (One(x), [Entry(x, 1, mode)], OneUser(x, x.contact, false));
      && ValidRun(t, Manual(1), subs, r, now, [1], []) && !Collect(t, Manual(1), subs, r.subs, now).failed
      && Emails(RunEvents(t, Manual(1), subs, r, now, [1], [])) == [Emailed(1, IMMEDIATE, now, [ChangeOf(x)])]
      && SentUsers(Collect(t, Manual(1), subs, r.subs, now).immediate, r) == {}
  {
    var (t, sub, r) := (One(x), Entry(x, 1, mode), OneUser(x, x.contact, false));
    var p := Queued(x, 1, IMMEDIATE, now);
    hide One, Answered, Entry, ChangeOf, SendOf, Collect, RunEvents, ValidRun, ParseClock, CanMail, SortedChanges,
      DispatchEvents, Emails;
    ManualQueued(x, mode, now);
    LoneImmediate(t, Manual(1), sub, r, now, p);
    MailedOnly(ChangeOf(x), SendOf(x, 1, now), x.contact, now);
    NotSent(p, r);
  }

  lemma MailedOnly(c: Change, s: NotificationState, contact: ContactReply, now: int)
    requires CanMail(contact)
    ensures var (p, r) := (Pending(IMMEDIATE, 1, [c], [s]), Contacted(contact, false));
      && Emails(DispatchEvents(p, r, now, false)) == [Emailed(1, IMMEDIATE, now, [c])]
      && DispatchOutcome(p, r, false) == Failed
  {
    var (p, r) := (Pending(IMMEDIATE, 1, [c], [s]), Contacted(contact, false));
    OneSorted(c);
    DispatchMails(p, r, now, false);
    LeadingAll(r.writeOk, 1);
    hide CanMail, SortedChanges, DispatchEvents, Emails;
  }

  lemma NotSent(p: Pending, r: RunReplies)
    requires DispatchOutcome(p, r.immediate(1), false) == Failed
    ensures SentUsers(map[1 := p], r) == {}
  {
    hide DispatchOutcome;
  }
}
