/** Small runs in which the guarantees that need a condition fail without it, for every item whose price has moved
    on. */
module Witnesses {
  import opened Options
  import opened GoStrings
  import opened Calendar
  import opened Grouping
  import opened PriceTable
  import opened Detection
  import opened AlertTables
  import opened Dispatch
  import opened Schedule
  import opened AlertCycle
  import opened CycleTheorems
  import opened Isolation
  import opened LostChanges
  import opened AlertRuns

  // ----- one item, one price row, watermarks on an earlier day -----

  datatype Scene = Scene(item: Item, price: PriceKey, cell: PriceCell, before: Mark, time: string,
                         contact: ContactReply)

  /** The item is active, its price has moved on from the watermark, and the time and the contact are good ones. */
  predicate Changed(x: Scene) {
    && x.item.isActive && x.before.day.Some? && x.before.value.Some?
    && (|| x.before.day.value < x.price.day
        || (x.before.day.value == x.price.day && x.before.value.value != x.cell.value))
    && ParseClock(x.time).Some? && CanMail(x.contact)
  }

  /** The scene's digest time has come. */
  predicate Due(x: Scene, now: int) {
    ParseClock(x.time).Some? && DayStart(now) + ParseClock(x.time).value * MINUTE <= now
  }

  lemma MailboxIsMailable(email: string)
    requires email != "" && !IsSpace(email[0]) && !IsSpace(email[|email| - 1])
    ensures CanMail(ContactFound(email, true))
  {
    TrimFixed(email, IsSpace);
  }

  /** There is such a scene for any item, price day and watermark, with the default time, and two minutes of one day on
      which it is due. */
  lemma ScenesExist(item: Item, price: PriceKey, cell: PriceCell, before: Mark, day: int)
    requires item.isActive && before.day.Some? && before.day.value < price.day && before.value.Some?
    ensures exists x: Scene, now, later ::
      && x.item == item && x.price == price && x.cell == cell && x.before == before
      && Changed(x) && Due(x, now) && Due(x, later) && now < later && DayOf(now) == DayOf(later) == day
  {
    NineOClock();
    MailboxIsMailable("a@b");
    var x := Scene(item, price, cell, before, "09:00", ContactFound("a@b", true));
    var (now, later) := (day * DAY + 540 * MINUTE, day * DAY + 541 * MINUTE);
    hide ParseClock, CanMail;
    assert DayOf(now) == day && DayOf(later) == day;
    assert Changed(x) && Due(x, now) && Due(x, later);
  }

  function Row(x: Scene): PriceRow {
    PriceRow(x.price.source, x.price.gameMode, x.cell.value, x.cell.currency, FormatDate(x.price.day),
             x.cell.collectedAt)
  }

  /** Every call for an entry is answered. */
  function Answered(x: Scene): SubReplies {
    SubReplies(ItemFound(x.item), HistoryFound([Row(x)]), true, _ => true, true)
  }

  function Entry(x: Scene, user: int, mode: string): Subscription {
    Subscription(user, user, x.price.item, "", true, mode, x.time)
  }

  function Key(x: Scene, user: int): MarkKey {
    MarkKey(user, x.price.source, x.price.gameMode)
  }

  function ChangeOf(x: Scene): Change
    requires Changed(x)
  {
    ChangeFor(x.item, Row(x), x.before.value.value)
  }

  function SendOf(x: Scene, user: int, now: int): NotificationState {
    NotificationState(Key(x, user), Mark(Some(x.price.day), Some(x.cell.value), Some(now)))
  }

  lemma OneGroup(row: PriceRow)
    ensures Grouped([row]) == [[row]]
  {
    var h := [row];
    assert h[..0] == [];
    assert KeysOf(h) == [KeyOf(row)];
    assert Rows(h, KeyOf(row)) == [row];
    assert Newest([row]) == [row];
  }

  lemma {:induction false} OneDetected(watchlistId: int, item: Item, row: PriceRow, current: Lookup, now: int)
    ensures Detected(watchlistId, item, [[row]], current, now)
         == Add(NOTHING, watchlistId, item, row, Decide([row], Current(current, row)), now)
  {
    hide Decide, Add;
    var groups := [[row]];
    assert groups[..0] == [] && groups[0] == [row];
  }

  /** A watermark from an earlier day means one change and one update. */
  lemma OneChange(x: Scene, marks: Marks, user: int, mode: string, now: int)
    requires Changed(x) && Key(x, user) in marks && marks[Key(x, user)] == x.before
    ensures FindingsOf(marks, Entry(x, user, mode), Answered(x), now)
      == Findings([ChangeOf(x)], [], [SendOf(x, user, now)])
  {
    hide FormatDate, ParseDate, CanMail, ParseClock;
    var (row, current) := (Row(x), TableLookup(marks, user));
    OneGroup(row);
    OneDetected(user, x.item, row, current, now);
    hide Grouped, Detected;
    DateReadsBack(x.price.day);
    assert Current(current, row) == Some(x.before);
    assert Decide([row], Some(x.before)) == Send(x.price.day, x.cell.value, x.before.value.value);
  }

  /** All writes succeed, or all fail. */
  function Contacted(contact: ContactReply, writes: bool): DispatchReplies {
    DispatchReplies(contact, true, true, _ => writes, true)
  }

  lemma {:induction false} LeadingAll(ok: nat -> bool, n: nat)
    ensures (forall i: nat :: ok(i)) ==> LeadingOk(ok, n) == n
    ensures (forall i: nat :: !ok(i)) ==> LeadingOk(ok, n) == 0
  {
    if n > 0 {
      LeadingAll(ok, n - 1);
    }
  }

  // ----- collecting -----

  function Queued(x: Scene, user: int, mode: string, now: int): Pending
    requires Changed(x)
  {
    Pending(mode, user, [ChangeOf(x)], [SendOf(x, user, now)])
  }

  lemma CollectOne(t: Tables, sub: Subscription, r: SubReplies, now: int)
    ensures Collect(t, Scheduled, [sub], [r], now) == SubscriptionStep(t, EMPTY, Scheduled, sub, r, now)
  {
    hide SubscriptionStep;
    assert [sub][..0] == [] && [r][..0] == [];
  }

  lemma CollectTwo(t: Tables, a: Subscription, b: Subscription, r: SubReplies, r': SubReplies, now: int)
    ensures Collect(t, Scheduled, [a, b], [r, r'], now)
         == SubscriptionStep(t, SubscriptionStep(t, EMPTY, Scheduled, a, r, now), Scheduled, b, r', now)
  {
    hide SubscriptionStep;
    CollectOne(t, a, r, now);
    assert [a, b][..1] == [a] && [r, r'][..1] == [r];
  }

  lemma NothingWritten(found: Findings, r: SubReplies)
    requires found.inits == []
    ensures LeadingOk(r.initOk, |found.inits|) == 0 && InitWrites(found, r) == []
  {
    assert found.inits[..0] == [];
  }

  lemma EnqueueNew(queue: Queue, mode: string, user: int, change: Change, send: NotificationState)
    requires user !in queue
    ensures Enqueue(queue, mode, user, Findings([change], [], [send]))
      == queue[user := Pending(mode, user, [change], [send])]
  {
    assert [] + [change] == [change] && [] + [send] == [send];
  }

  /** What one change and one update do to the queues. */
  lemma StepQueues(t: Tables, c: Collection, kind: Kind, sub: Subscription, r: SubReplies, now: int, change: Change,
                   send: NotificationState)
    requires Considered(kind, sub, r) && r.listOk && !c.failed
    requires FindingsOf(t.marks, sub, r, now) == Findings([change], [], [send])
    requires Immediately(kind, sub) ==> sub.userId !in c.immediate
    requires !Immediately(kind, sub) ==>
      sub.userId !in c.digest && ShouldProcessDigest(sub.time, Get(t.digests, sub.userId), r.digestOk, now)
        == Some(true)
    ensures SubscriptionStep(t, c, kind, sub, r, now)
         == if Immediately(kind, sub) then
              c.(immediate := c.immediate[sub.userId := Pending(IMMEDIATE, sub.userId, [change], [send])])
            else
              c.(digest := c.digest[sub.userId := Pending(DAILY_DIGEST, sub.userId, [change], [send])],
                 due := c.due + {sub.userId})
  {
    NothingWritten(FindingsOf(t.marks, sub, r, now), r);
    EnqueueNew(if Immediately(kind, sub) then c.immediate else c.digest,
               if Immediately(kind, sub) then IMMEDIATE else DAILY_DIGEST,
               sub.userId, change, send);
    hide Considered, FindingsOf, ShouldProcessDigest, InitWrites, Enqueue, LeadingOk;
    assert c.events + [] == c.events;
  }

  lemma EntryIsConsidered(x: Scene, user: int, mode: string)
    requires Changed(x) && (mode == IMMEDIATE || mode == DAILY_DIGEST)
    ensures Considered(Scheduled, Entry(x, user, mode), Answered(x))
  {
    hide FormatDate, ParseClock, CanMail;
  }

  /** An entry a day behind is queued for its user. */
  lemma EntryIsQueued(x: Scene, t: Tables, c: Collection, user: int, mode: string, now: int)
    requires Changed(x) && Key(x, user) in t.marks && t.marks[Key(x, user)] == x.before && !c.failed
    requires mode == IMMEDIATE ==> user !in c.immediate
    requires mode == DAILY_DIGEST
      ==> user !in c.digest && ShouldProcessDigest(x.time, Get(t.digests, user), true, now) == Some(true)
    requires mode == IMMEDIATE || mode == DAILY_DIGEST
    ensures SubscriptionStep(t, c, Scheduled, Entry(x, user, mode), Answered(x), now)
         == if mode == IMMEDIATE then c.(immediate := c.immediate[user := Queued(x, user, mode, now)])
            else c.(digest := c.digest[user := Queued(x, user, mode, now)], due := c.due + {user})
  {
    EntryIsConsidered(x, user, mode);
    OneChange(x, t.marks, user, mode, now);
    hide Considered, FindingsOf, Row, ShouldProcessDigest, SubscriptionStep, Changed, ChangeOf, SendOf;
    StepQueues(t, c, Scheduled, Entry(x, user, mode), Answered(x), now, ChangeOf(x), SendOf(x, user, now));
  }

  // ----- a change lost -----

  function OneUser(x: Scene, contact: ContactReply, writes: bool): RunReplies {
    RunReplies([Answered(x)], _ => Contacted(contact, writes), _ => Contacted(contact, writes), _ => true)
  }

  lemma NoDueUsers(queue: Queue, r: RunReplies)
    ensures var none: seq<int> := []; TurnsTaken(queue, r, none) == 0 && none[..0] == none
  {
  }

  lemma NobodyTwice()
    ensures Visits([1, 2], {1, 2}) && Visits([1], {1}) && Visits([], {})
  {
    var order := [1, 2];
    assert order[0] == 1 && order[1] == 2;
  }

  function One(x: Scene): Tables {
    Tables(map[Key(x, 1) := x.before], map[])
  }

  lemma FirstQueued(x: Scene, mode: string, now: int)
    requires Changed(x)
    requires mode == IMMEDIATE || (mode == DAILY_DIGEST && ShouldProcessDigest(x.time, None, true, now) == Some(true))
    ensures SubscriptionStep(One(x), EMPTY, Scheduled, Entry(x, 1, mode), Answered(x), now)
         == if mode == IMMEDIATE then EMPTY.(immediate := map[1 := Queued(x, 1, mode, now)])
            else EMPTY.(digest := map[1 := Queued(x, 1, mode, now)], due := {1})
  {
    hide ShouldProcessDigest, Collect, Changed, SubscriptionStep, Answered, Queued, Entry;
    EntryIsQueued(x, One(x), EMPTY, 1, mode, now);
  }

  lemma OneQueued(x: Scene, mode: string, now: int) returns (c: Collection)
    requires Changed(x)
    requires mode == IMMEDIATE || (mode == DAILY_DIGEST && ShouldProcessDigest(x.time, None, true, now) == Some(true))
    ensures c == Collect(One(x), Scheduled, [Entry(x, 1, mode)], [Answered(x)], now)
    ensures c == if mode == IMMEDIATE then Collection([], map[1 := Queued(x, 1, mode, now)], map[], {}, false)
                 else Collection([], map[], map[1 := Queued(x, 1, mode, now)], {1}, false)
  {
    hide ShouldProcessDigest, Collect, Changed, SubscriptionStep, Answered, Queued, Entry;
    CollectOne(One(x), Entry(x, 1, mode), Answered(x), now);
    FirstQueued(x, mode, now);
    c := Collect(One(x), Scheduled, [Entry(x, 1, mode)], [Answered(x)], now);
  }

  lemma LoneChangeLost(t: Tables, sub: Subscription, r: RunReplies, now: int, p: Pending, s: NotificationState)
    requires |r.subs| == 1 && Collect(t, Scheduled, [sub], r.subs, now) == Collection([], map[1 := p], map[], {}, false)
    requires p.updates == [s] && r.immediate(1).contact == ContactError && r.immediate(1).writeOk(0)
    ensures ValidRun(t, Scheduled, [sub], r, now, [1], []) && !RunFails(t, Scheduled, [sub], r, now, [])
    ensures var events := RunEvents(t, Scheduled, [sub], r, now, [1], []);
      WritesMark(events, s.key) && !MailsUser(events, 1)
  {
    var (queue, subs) := (map[1 := p], [sub]);
    NobodyTwice();
    NoDueUsers(map[], r);
    assert queue.Keys == {1};
    assert LeadingOk(r.immediate(1).writeOk, 0) == 0;
    assert Reached(p, r.immediate(1)) > 0;
    hide Collect, RunEvents, Visits, TurnsTaken, Reached, LeadingOk;
    LostInRunIff(t, Scheduled, subs, r, now, [1], [], 1, true);
    var events := RunEvents(t, Scheduled, subs, r, now, [1], []);
    var other :| other in p.updates && WritesMark(events, other.key);
  }

  /** The contact lookup fails: the watermark advances, nobody is mailed and the run succeeds. */
  lemma ChangeIsLost(x: Scene, now: int)
    requires Changed(x)
    ensures var (t, subs, r) := (One(x), [Entry(x, 1, IMMEDIATE)], OneUser(x, ContactError, true));
      && ValidRun(t, Scheduled, subs, r, now, [1], []) && !RunFails(t, Scheduled, subs, r, now, [])
      && var events := RunEvents(t, Scheduled, subs, r, now, [1], []);
        WritesMark(events, Key(x, 1)) && !MailsUser(events, 1)
  {
    var (t, r) := (One(x), OneUser(x, ContactError, true));
    var c := OneQueued(x, IMMEDIATE, now);
    hide Collect, RunEvents, ValidRun, RunFails, Changed, Answered, One, Entry, WritesMark, MailsUser;
    LoneChangeLost(t, Entry(x, 1, IMMEDIATE), r, now, c.immediate[1], SendOf(x, 1, now));
  }

  // ----- one user's failure silencing another -----

  function TwoUsers(x: Scene, first: SubReplies): RunReplies {
    RunReplies([first, Answered(x)], _ => Contacted(x.contact, true), _ => Contacted(x.contact, true), _ => true)
  }

  function Two(x: Scene): Tables {
    Tables(map[Key(x, 1) := x.before, Key(x, 2) := x.before], map[])
  }

  function Both(x: Scene): seq<Subscription> {
    [Entry(x, 1, IMMEDIATE), Entry(x, 2, IMMEDIATE)]
  }

  lemma NextQueued(x: Scene, c: Collection, user: int, now: int)
    requires Changed(x) && (user == 1 || user == 2) && !c.failed && user !in c.immediate
    ensures SubscriptionStep(Two(x), c, Scheduled, Entry(x, user, IMMEDIATE), Answered(x), now)
         == c.(immediate := c.immediate[user := Queued(x, user, IMMEDIATE, now)])
  {
    hide Collect, Changed, SubscriptionStep, Answered, Queued, Entry;
    EntryIsQueued(x, Two(x), c, user, IMMEDIATE, now);
  }

  lemma BothQueued(x: Scene, now: int)
    requires Changed(x)
    ensures Collect(Two(x), Scheduled, Both(x), [Answered(x), Answered(x)], now)
         == Collection([], map[1 := Queued(x, 1, IMMEDIATE, now), 2 := Queued(x, 2, IMMEDIATE, now)], map[], {}, false)
  {
    hide Changed, Answered, Two, Entry, Queued;
    var (t, a, b) := (Two(x), Entry(x, 1, IMMEDIATE), Entry(x, 2, IMMEDIATE));
    CollectTwo(t, a, b, Answered(x), Answered(x), now);
    hide Collect, SubscriptionStep;
    NextQueued(x, EMPTY, 1, now);
    NextQueued(x, SubscriptionStep(t, EMPTY, Scheduled, a, Answered(x), now), 2, now);
  }

  lemma SecondMailed(t: Tables, subs: seq<Subscription>, r: RunReplies, now: int, p: Pending, q: Pending)
    requires |r.subs| == |subs| && OneEntryEach(subs)
    requires Collect(t, Scheduled, subs, r.subs, now) == Collection([], map[1 := p, 2 := q], map[], {}, false)
    requires q.userId == 2 && q.changes != [] && CanMail(r.immediate(2).contact) && r.immediate(2).renderOk
      && r.immediate(2).sendOk
    ensures ValidRun(t, Scheduled, subs, r, now, [1, 2], [])
      && MailsUser(RunEvents(t, Scheduled, subs, r, now, [1, 2], []), 2)
  {
    NobodyTwice();
    var queue := map[1 := p, 2 := q];
    assert queue.Keys == {1, 2};
    hide Collect, RunEvents, SortedChanges, CanMail, Visits, OneEntryEach;
    var e := EmailOf(q, now);
    assert EmailPart(q, r.immediate(2), now) == [e];
    DispatchIsPart(t, Scheduled, subs, r, now, [1, 2], [], 2, true, e);
  }

  /** With every call answered user 2 is mailed. */
  lemma SecondIsMailed(x: Scene, now: int)
    requires Changed(x)
    ensures ValidRun(Two(x), Scheduled, Both(x), TwoUsers(x, Answered(x)), now, [1, 2], [])
    ensures MailsUser(RunEvents(Two(x), Scheduled, Both(x), TwoUsers(x, Answered(x)), now, [1, 2], []), 2)
  {
    hide Collect, RunEvents, ValidRun, CanMail, MailsUser, Answered, Two, ChangeOf, SendOf, ParseClock;
    BothQueued(x, now);
    SecondMailed(Two(x), Both(x), TwoUsers(x, Answered(x)), now, Queued(x, 1, IMMEDIATE, now),
                 Queued(x, 2, IMMEDIATE, now));
  }

  lemma FirstStops(t: Tables, subs: seq<Subscription>, r: RunReplies, now: int)
    requires |r.subs| == |subs| > 0 && OneEntryEach(subs) && Considered(Scheduled, subs[0], r.subs[0])
      && !r.subs[0].listOk
    ensures ValidRun(t, Scheduled, subs, r, now, [1, 2], [])
      && !MailsUser(RunEvents(t, Scheduled, subs, r, now, [1, 2], []), 2)
  {
    assert StopsCollecting(t, Scheduled, subs[0], r.subs[0], now);
    hide StopsCollecting, Collect, RunEvents;
    StopEndsRun(t, Scheduled, subs, r, now, [1, 2], [], 0);
    CollectFailsIff(t, Scheduled, subs, r.subs, now);
  }

  lemma StillConsidered(sub: Subscription, r: SubReplies)
    requires Considered(Scheduled, sub, r)
    ensures Considered(Scheduled, sub, r.(listOk := false))
  {
  }

  lemma OnlyFirstDiffers(x: Scene, first: SubReplies)
    ensures DifferOnlyFor(Both(x), TwoUsers(x, Answered(x)), TwoUsers(x, first), 1) && OneEntryEach(Both(x))
  {
    hide Answered;
  }

  /** One failing read of user 1's watermarks is all the difference between user 2 being mailed and not. */
  lemma SilencedByAnother(x: Scene, now: int)
    requires Changed(x)
    ensures var (t, subs, r, r') := (Two(x), Both(x), TwoUsers(x, Answered(x)),
                                     TwoUsers(x, Answered(x).(listOk := false)));
      && DifferOnlyFor(subs, r, r', 1)
      && ValidRun(t, Scheduled, subs, r, now, [1, 2], []) && ValidRun(t, Scheduled, subs, r', now, [1, 2], [])
      && MailsUser(RunEvents(t, Scheduled, subs, r, now, [1, 2], []), 2)
      && !MailsUser(RunEvents(t, Scheduled, subs, r', now, [1, 2], []), 2)
  {
    hide Collect, RunEvents, Two, Changed, ValidRun, MailsUser, DifferOnlyFor, OneEntryEach, Answered, Entry, Chosen,
      Usable;
    var first := Answered(x).(listOk := false);
    SecondIsMailed(x, now);
    EntryIsConsidered(x, 1, IMMEDIATE);
    StillConsidered(Entry(x, 1, IMMEDIATE), Answered(x));
    OnlyFirstDiffers(x, first);
    hide Considered;
    FirstStops(Two(x), Both(x), TwoUsers(x, first), now);
  }

  // ----- two digests on one day -----

  /** A dispatch whose writes all fail sends its email and nothing else. */
  lemma EmailOnly(p: Pending, contact: ContactReply, now: int)
    requires p.changes != [] && p.updates != [] && CanMail(contact)
    ensures DispatchEvents(p, Contacted(contact, false), now, true) == [EmailOf(p, now)]
  {
    var r := Contacted(contact, false);
    hide CanMail, SortedChanges;
    LeadingAll(r.writeOk, |p.updates|);
    assert Stamped(p.updates, Stamp(r, now))[..0] == [];
  }

  lemma OneSorted(c: Change)
    ensures SortedChanges([c]) == [c]
  {
    assert [c][..0] == [];
  }

  lemma OneTurn(turn: Turn, u: int)
    ensures Turns(turn, [u]) == turn(u) && Turns(turn, []) == []
  {
    assert [u][..0] == [] && [] + turn(u) == turn(u);
  }

  lemma OneTaken(queue: Queue, r: RunReplies, u: int)
    requires u in queue
    ensures TurnsTaken(queue, r, [u]) == 1 && [u][..1] == [u]
  {
  }

  function CycleAt(x: Scene, now: int): Op {
    Run(Scheduled, [Entry(x, 1, DAILY_DIGEST)], OneUser(x, x.contact, false), now, [], [1])
  }

  lemma LoneDigest(t: Tables, sub: Subscription, r: RunReplies, now: int, p: Pending) returns (e: Event)
    requires |r.subs| == 1 && Collect(t, Scheduled, [sub], r.subs, now)
      == Collection([], map[], map[1 := p], {1}, false)
    requires p.userId == 1 && p.mode == DAILY_DIGEST && p.changes != [] && p.updates != []
    requires r.digest(1) == Contacted(r.digest(1).contact, false) && CanMail(r.digest(1).contact)
    ensures ValidRun(t, Scheduled, [sub], r, now, [], [1]) && RunEvents(t, Scheduled, [sub], r, now, [], [1]) == [e]
    ensures e == EmailOf(p, now)
  {
    NobodyTwice();
    var queue := map[1 := p];
    EmailOnly(p, r.digest(1).contact, now);
    e := EmailOf(p, now);
    OneTurn(DigestTurn(queue, r, now), 1);
    OneTurn(ImmediateTurn(map[], r, now), 1);
    OneTaken(queue, r, 1);
    hide Collect, Visits, Turns, TurnsTaken, DispatchEvents, SortedChanges, CanMail;
    assert [] + [] + [e] == [e];
  }

  lemma NeverProcessed(x: Scene, now: int)
    requires Due(x, now)
    ensures ShouldProcessDigest(x.time, None, true, now) == Some(true)
  {
    hide ParseClock;
    DueWindow(x.time, None, now);
  }

  /** With every write failing a due cycle's only event is the email. */
  lemma OnlyTheEmail(x: Scene, now: int) returns (e: Event)
    requires Changed(x) && Due(x, now)
    ensures var op := CycleAt(x, now);
      && ValidRun(One(x), Scheduled, op.subs, op.r, now, [], [1]) && OneModeEach(op.subs)
      && RunEvents(One(x), Scheduled, op.subs, op.r, now, [], [1]) == [e]
    ensures e == Emailed(1, DAILY_DIGEST, now, [ChangeOf(x)])
  {
    hide ParseClock, Due, ShouldProcessDigest, Collect, RunEvents, ValidRun, CanMail, Answered, One, ChangeOf, SendOf,
      Entry;
    NeverProcessed(x, now);
    var c := OneQueued(x, DAILY_DIGEST, now);
    e := LoneDigest(One(x), Entry(x, 1, DAILY_DIGEST), CycleAt(x, now).r, now, c.digest[1]);
    OneSorted(ChangeOf(x));
  }

  function Start(x: Scene): State {
    State(One(x), map[x.price := x.cell])
  }

  lemma WindowShown(x: Scene)
    ensures ShowsWindow(Start(x).prices, x.price.item, Answered(x))
  {
    hide FormatDate;
    var (prices, listing) := (Start(x).prices, [x.price]);
    assert listing[0] in listing;
    assert Listing(prices, x.price.item, "", listing);
    assert listing[..Cut(|listing|, 10)] == listing;
    assert RowsOf(prices, listing) == [Row(x)];
  }

  /** Such a cycle is a valid operation that mails and changes nothing. */
  lemma CycleOnlyMails(x: Scene, now: int) returns (e: Event)
    requires Changed(x) && Due(x, now)
    ensures ValidOp(Start(x), CycleAt(x, now), _ => x.price.item) && OpEvents(One(x), CycleAt(x, now)) == [e]
    ensures Step(Start(x), CycleAt(x, now)) == Start(x) && e == Emailed(1, DAILY_DIGEST, now, [ChangeOf(x)])
  {
    hide Changed, Due, One, Answered, ChangeOf, RunEvents, ValidRun, ShowsWindow, ApplyAll;
    e := OnlyTheEmail(x, now);
    WindowShown(x);
    MailChangesNothing(One(x), e);
  }

  lemma MailChangesNothing(t: Tables, e: Event)
    requires e.Emailed?
    ensures ApplyAll(t, [e]) == t
  {
    assert [e] == [] + [e];
    ApplyOne(t, [], e);
  }

  lemma StartIsClear(x: Scene, items: int -> string)
    ensures Clear(Start(x), items)
  {
  }

  /** Two cycles of one day, each failing to write after its email, mail one user two digests, the second repeating the
      first one's change, day and value. */
  lemma TwoDigestsInOneDay(x: Scene, now: int, later: int)
    requires Changed(x) && Due(x, now) && Due(x, later) && now <= later && DayOf(now) == DayOf(later)
    ensures var ops := [CycleAt(x, now), CycleAt(x, later)];
      && Valid(Start(x), ops, _ => x.price.item) && InTimeOrder(ops) && !OncePerDay(Trace(Start(x), ops))
      && Trace(Start(x), ops)
         == [Emailed(1, DAILY_DIGEST, now, [ChangeOf(x)]), Emailed(1, DAILY_DIGEST, later, [ChangeOf(x)])]
  {
    var (s, items, ops) := (Start(x), _ => x.price.item, [CycleAt(x, now), CycleAt(x, later)]);
    hide Changed, Due, Clear, OneUser, Entry, ChangeOf;
    var e := CycleOnlyMails(x, now);
    var f := CycleOnlyMails(x, later);
    StartIsClear(x, items);
    hide OpEvents, ValidOp, Step, DayOf;
    assert ops[..1] == [ops[0]] && ops[..1][..0] == [];
    assert StateAfter(s, []) == s && StateAfter(s, ops[..1]) == s;
    assert Valid(s, [], items) && Valid(s, ops[..1], items);
    assert Trace(s, []) == [] && Trace(s, ops[..1]) == [] + [e];
    var trace := Trace(s, ops);
    assert trace == [] + [e] + [f];
    assert trace[0] == e && trace[1] == f;
  }
}
