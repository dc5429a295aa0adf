/** The alert engine as it runs: methods over the mutable tables and the mail client, each producing exactly the
    events of its specification. */
module AlertService {
  import opened Options
  import opened GoStrings
  import opened Calendar
  import opened Detection
  import opened AlertTables
  import opened Dispatch
  import opened Schedule
  import opened AlertCycle
  import opened CycleFacts
  import opened CycleTheorems
  import opened RunPerUser
  import opened UserAssetTables
  import opened LiveReads
  import opened Readings
  import opened Served
  import opened Snapshot
  import PriceTable

  // ----- the outside world -----

  function Emails(events: seq<Event>): seq<Event> {
    if events == [] then []
    else
      var last := events[|events| - 1];
      Emails(events[..|events| - 1]) + if last.Emailed? then [last] else []
  }

  /** The tables and everything the mail provider has accepted. */
  datatype World = World(tables: Tables, delivered: seq<Event>)

  function After(w: World, events: seq<Event>): World {
    World(ApplyAll(w.tables, events), w.delivered + Emails(events))
  }

  lemma {:induction false} EmailsConcat(a: seq<Event>, b: seq<Event>)
    ensures Emails(a + b) == Emails(a) + Emails(b)
  {
    if b == [] {
      assert a + b == a;
    } else {
      EmailsConcat(a, b[..|b| - 1]);
      assert (a + b)[..|a + b| - 1] == a + b[..|b| - 1];
    }
  }

  lemma AfterConcat(w: World, a: seq<Event>, b: seq<Event>)
    ensures After(w, a + b) == After(After(w, a), b)
  {
    ApplyConcat(w.tables, a, b);
    EmailsConcat(a, b);
  }

  lemma AfterOne(w: World, e: Event)
    ensures After(w, [e]) == World(Apply(w.tables, e), w.delivered + if e.Emailed? then [e] else [])
    ensures After(w, []) == w
  {
    assert [e] == [] + [e] && [e][..0] == [] && w.delivered + [] == w.delivered;
    ApplyOne(w.tables, [], e);
    assert Emails([e]) == if e.Emailed? then [e] else [];
  }

  class NotificationClient {
    var delivered: seq<Event>

    constructor ()
      ensures delivered == []
    {
      delivered := [];
    }

    method SendEmail(userId: int, mode: string, at: int, changes: seq<Change>, ok: bool)
      modifies this
      ensures delivered == old(delivered) + if ok then [Emailed(userId, mode, at, changes)] else []
    {
      if ok {
        delivered := delivered + [Emailed(userId, mode, at, changes)];
      }
    }
  }

  // ----- results of a manual run -----

  datatype ManualDispatchResult = ManualDispatchResult(targetUserId: int, mode: string, usersChecked: nat,
                                                       emailsSent: nat,
                                                       changesFound: nat, usersWithDiff: nat, usersSkipped: nat)

  /** Users with a chosen, enabled subscription. */
  function CheckedUsers(kind: Kind, subs: seq<Subscription>): set<int> {
    set s | s in subs && Chosen(kind, s) && s.notificationsEnabled :: s.userId
  }

  /** Users whose dispatch reported an email sent. */
  function SentUsers(queue: Queue, r: RunReplies): set<int> {
    SentAmong(queue, r, queue.Keys)
  }

  function SentAmong(queue: Queue, r: RunReplies, users: set<int>): set<int> {
    set u | u in users && u in queue && DispatchOutcome(queue[u], r.immediate(u), false) == Dispatched(true)
  }

  function ChangedAmong(queue: Queue, users: set<int>): set<int> {
    set u | u in users && u in queue && queue[u].changes != []
  }

  lemma SentOneMore(queue: Queue, r: RunReplies, users: set<int>, u: int)
    requires u in queue && u !in users
    ensures |SentAmong(queue, r, users + {u})|
         == |SentAmong(queue, r, users)| + if DispatchOutcome(queue[u], r.immediate(u), false) == Dispatched(true)
           then 1 else 0
  {
    hide DispatchOutcome;
    var sent := SentAmong(queue, r, users);
    assert SentAmong(queue, r, users + {u})
        == if DispatchOutcome(queue[u], r.immediate(u), false) == Dispatched(true) then sent + {u} else sent;
  }

  lemma ChangedOneMore(queue: Queue, users: set<int>, u: int)
    requires u in queue && u !in users
    ensures |ChangedAmong(queue, users + {u})| == |ChangedAmong(queue, users)| + if queue[u].changes != [] then 1 else 0
  {
    var changed := ChangedAmong(queue, users);
    assert ChangedAmong(queue, users + {u}) == if queue[u].changes != [] then changed + {u} else changed;
  }

  /** Users whose email the provider accepted. */
  function MailedUsers(queue: Queue, r: RunReplies, now: int): set<int> {
    MailedAmong(queue, r, now, queue.Keys)
  }

  function MailedAmong(queue: Queue, r: RunReplies, now: int, users: set<int>): set<int> {
    set u | u in users && u in queue && EmailPart(queue[u], r.immediate(u), now) != []
  }

  /** The counters of a manual run after visiting some users. */
  datatype Tally = Tally(found: nat, withDiff: nat, sent: nat, skipped: nat)

  function TallyOf(queue: Queue, r: RunReplies, order: seq<int>): Tally {
    if order == [] then Tally(0, 0, 0, 0)
    else CountOne(TallyOf(queue, r, order[..|order| - 1]), queue, r, order[|order| - 1])
  }

  function CountOne(n: Tally, queue: Queue, r: RunReplies, u: int): Tally {
    if u !in queue then n
    else
      var (changes, sent) := (|queue[u].changes|, DispatchOutcome(queue[u], r.immediate(u), false) == Dispatched(true));
      Tally(n.found + changes, if changes > 0 then n.withDiff + 1 else n.withDiff,
            if sent then n.sent + 1 else n.sent, if sent then n.skipped else n.skipped + 1)
  }

  /** The changes of some users, one queued list after another. */
  function ChangesOf(queue: Queue, order: seq<int>): seq<Change> {
    if order == [] then []
    else
      var last := order[|order| - 1];
      ChangesOf(queue, order[..|order| - 1]) + if last in queue then queue[last].changes else []
  }

  /** The changes found are all those queued for the users visited. */
  lemma {:induction false} TallyFound(queue: Queue, r: RunReplies, order: seq<int>)
    ensures TallyOf(queue, r, order).found == |ChangesOf(queue, order)|
  {
    hide DispatchOutcome;
    if order != [] {
      TallyFound(queue, r, order[..|order| - 1]);
    }
  }

  lemma CheckedIff(kind: Kind, subs: seq<Subscription>, u: int)
    ensures u in CheckedUsers(kind, subs) <==> exists s :: && s in subs && s.userId == u && s.notificationsEnabled
                                                           && (kind.Manual? && kind.target > 0 ==> u == kind.target)
  {
  }

  lemma MailsAlike(kind: Kind, subs: seq<Subscription>, replies: seq<SnapshotReplies>, d: DispatchReplies, now: int,
                   user: int, events: seq<Event>)
    requires |replies| == |subs| && MailsNow(kind, subs, replies, d, now, user, events)
    ensures MailsNow(kind, subs, replies, d, now, user, Emails(events))
  {
    EmailsMembers(events);
    hide ListsEntries, Contributes, Blank, Emails;
  }

  lemma TallyAppend(queue: Queue, r: RunReplies, order: seq<int>, u: int)
    ensures TallyOf(queue, r, order + [u]) == CountOne(TallyOf(queue, r, order), queue, r, u)
  {
    assert (order + [u])[..|order|] == order;
  }

  /** Every queued user is counted once, as sent or as skipped, whatever the order. */
  lemma {:induction false} TallyTotals(queue: Queue, r: RunReplies, order: seq<int>, users: set<int>)
    requires Visits(order, users) && users <= queue.Keys
    ensures var n := TallyOf(queue, r, order);
      && n.sent == |SentAmong(queue, r, users)| && n.sent + n.skipped == |users|
      && n.withDiff == |ChangedAmong(queue, users)|
  {
    hide DispatchOutcome, SentAmong, ChangedAmong;
    if order == [] {
      NoElement(users);
      NobodyCounted(queue, r);
    } else {
      var (front, last) := (order[..|order| - 1], order[|order| - 1]);
      FrontVisits(order, users);
      assert users - {last} + {last} == users;
      TallyTotals(queue, r, front, users - {last});
      SentOneMore(queue, r, users - {last}, last);
      ChangedOneMore(queue, users - {last}, last);
    }
  }

  /** The mail provider accepts one email for each mailed user of the loop. */
  lemma {:induction false} MailCount(queue: Queue, r: RunReplies, now: int, order: seq<int>, users: set<int>)
    requires Visits(order, users) && users <= queue.Keys
    ensures |Emails(Turns(ImmediateTurn(queue, r, now), order))| == |MailedAmong(queue, r, now, users)|
  {
    hide EmailPart, MailedAmong, DispatchEvents;
    if order == [] {
      NoElement(users);
      NobodyMailed(queue, r, now);
    } else {
      var (front, last, turn) := (order[..|order| - 1], order[|order| - 1], ImmediateTurn(queue, r, now));
      FrontVisits(order, users);
      assert users - {last} + {last} == users;
      MailCount(queue, r, now, front, users - {last});
      EmailsConcat(Turns(turn, front), turn(last));
      DispatchMails(queue[last], r.immediate(last), now, false);
      OneMoreMailed(queue, r, now, users - {last}, last);
    }
  }

  lemma NobodyMailed(queue: Queue, r: RunReplies, now: int)
    ensures MailedAmong(queue, r, now, {}) == {}
  {
  }

  lemma OneMoreMailed(queue: Queue, r: RunReplies, now: int, users: set<int>, u: int)
    requires u in queue && u !in users
    ensures |MailedAmong(queue, r, now, users + {u})|
         == |MailedAmong(queue, r, now, users)| + if EmailPart(queue[u], r.immediate(u), now) != [] then 1 else 0
  {
    hide EmailPart;
    var mailed := MailedAmong(queue, r, now, users);
    assert MailedAmong(queue, r, now, users + {u}) ==
      if EmailPart(queue[u], r.immediate(u), now) != [] then mailed + {u} else mailed;
  }

  lemma DispatchMails(p: Pending, r: DispatchReplies, now: int, markDigest: bool)
    ensures Emails(DispatchEvents(p, r, now, markDigest)) == EmailPart(p, r, now)
    ensures |EmailPart(p, r, now)| <= 1
  {
    hide CanMail, SortedChanges, DayOf, DispatchSucceeds, EmailFails, Emails;
    var (mail, marks, digest) := (EmailPart(p, r, now), MarkPart(p, r, now), DigestPart(p, r, now, markDigest));
    EmailsConcat(mail + marks, digest);
    EmailsConcat(mail, marks);
    NoMail(marks);
    NoMail(digest);
    AllMail(mail);
  }

  /** The user's email is added exactly for a found, verified address with a character that is no space and something to
      tell, when rendering and sending succeed; and it is reported only then. */
  ghost predicate MailedAndReported(p: Pending, r: DispatchReplies, now: int, before: seq<Event>, after: seq<Event>,
                                    result: DispatchResult) {
    var mailed := && r.contact.ContactFound? && r.contact.verified
                  && (exists i | 0 <= i < |r.contact.email| :: !IsSpace(r.contact.email[i]))
                  && p.changes != [] && r.renderOk && r.sendOk;
    && after == before + (if mailed then [Emailed(p.userId, p.mode, now, SortedChanges(p.changes))] else [])
    && (result == Dispatched(true) ==> mailed) && (result == Dispatched(false) ==> !mailed)
  }

  lemma DispatchReports(w: World, p: Pending, r: DispatchReplies, now: int, markDigest: bool)
    ensures MailedAndReported(p, r, now, w.delivered, After(w, DispatchEvents(p, r, now, markDigest)).delivered,
                              DispatchOutcome(p, r, markDigest))
  {
    DispatchMails(p, r, now, markDigest);
    ReportedIff(p, r, markDigest);
    MailableIff(r.contact);
    hide CanMail, DispatchEvents, DispatchOutcome, SortedChanges, IsSpace;
  }

  lemma {:induction false} NoMail(events: seq<Event>)
    requires forall e | e in events :: !e.Emailed?
    ensures Emails(events) == []
  {
    if events != [] {
      assert events[|events| - 1] in events && forall e | e in events[..|events| - 1] :: e in events;
      NoMail(events[..|events| - 1]);
    }
  }

  lemma {:induction false} AllMail(events: seq<Event>)
    requires forall e | e in events :: e.Emailed?
    ensures Emails(events) == events
  {
    if events != [] {
      assert events[|events| - 1] in events && forall e | e in events[..|events| - 1] :: e in events;
      AllMail(events[..|events| - 1]);
    }
  }

  function MailedButUnwritten(queue: Queue, r: RunReplies, now: int): set<int> {
    set u | u in MailedUsers(queue, r, now) && exists i :: 0 <= i < |queue[u].updates| && !r.immediate(u).writeOk(i)
  }

  /** The reported count falls short of the accepted emails by exactly the users for whom an email went out
      and a later watermark write failed. */
  lemma SentVersusMailed(queue: Queue, r: RunReplies, now: int)
    ensures SentUsers(queue, r) <= MailedUsers(queue, r, now)
    ensures |SentUsers(queue, r)| == |MailedUsers(queue, r, now)| - |MailedButUnwritten(queue, r, now)|
  {
    hide CanMail, SortedChanges, LeadingOk;
    var (sent, mailed) := (SentUsers(queue, r), MailedUsers(queue, r, now));
    forall u | u in sent
      ensures u in mailed
    {
      assert EmailPart(queue[u], r.immediate(u), now) == [EmailOf(queue[u], now)];
    }
    forall u | u in mailed
      ensures u !in sent <==> exists i :: 0 <= i < |queue[u].updates| && !r.immediate(u).writeOk(i)
    {
      var k := LeadingOk(r.immediate(u).writeOk, |queue[u].updates|);
    }
    assert mailed - sent == MailedButUnwritten(queue, r, now);
    assert mailed == sent + (mailed - sent);
  }

  /** What a manual diff reports as sent is what the provider accepted, less the users whose watermark writes then
      failed. */
  lemma ManualReportsMail(t: Tables, target: int, subs: seq<Subscription>, r: RunReplies, now: int, order: seq<int>)
    requires ValidRun(t, Manual(target), subs, r, now, order, [])
      && !Collect(t, Manual(target), subs, r.subs, now).failed
    ensures var queue := Collect(t, Manual(target), subs, r.subs, now).immediate;
      |SentUsers(queue, r)|
        == |Emails(RunEvents(t, Manual(target), subs, r, now, order, []))| - |MailedButUnwritten(queue, r, now)|
  {
    hide Collect, GoodQueue, HasSource, SentUsers, MailedButUnwritten, MailedAmong, RunEvents, Once, GoodInits;
    var c := Collect(t, Manual(target), subs, r.subs, now);
    ManualEvents(t, target, subs, r, now, order);
    CollectIsGood(t, Manual(target), subs, r.subs, now);
    InitsAreMarks(t, Manual(target), subs, r.subs, now, c.events);
    NoMail(c.events);
    EmailsConcat(c.events, Turns(ImmediateTurn(c.immediate, r, now), order));
    MailCount(c.immediate, r, now, order, c.immediate.Keys);
    SentVersusMailed(c.immediate, r, now);
  }

  // ----- the calls of a run -----

  /** How the calls of one run turn out: the listing, those for each watchlist entry, those for each user's dispatch. */
  datatype Calls = Calls(listOk: bool, sub: int -> SubReplies, immediate: int -> DispatchReplies,
                         digest: int -> DispatchReplies,
                         emptyOk: int -> bool)
  {
    /** No answer is ambiguous beside the entry's watermarks. */
    ghost predicate Clear(marks: Marks) {
      forall id :: ClearReply(marks, id, sub(id))
    }
  }

  function Answers(subs: seq<Subscription>, calls: Calls): (r: RunReplies)
    ensures |r.subs| == |subs| && forall i | 0 <= i < |subs| :: r.subs[i] == calls.sub(subs[i].watchlistId)
  {
    RunReplies(seq(|subs|, i requires 0 <= i < |subs| => calls.sub(subs[i].watchlistId)), calls.immediate, calls.digest,
               calls.emptyOk)
  }

  function Snapshots(subs: seq<Subscription>, snapshot: int -> SnapshotReplies): (replies: seq<SnapshotReplies>)
    ensures |replies| == |subs|
  {
    seq(|subs|, i requires 0 <= i < |subs| => snapshot(subs[i].watchlistId))
  }

  lemma SnapshotHasNoUpdates(kind: Kind, subs: seq<Subscription>, replies: seq<SnapshotReplies>)
    requires |replies| == |subs|
    ensures var queue := SnapshotQueue(kind, subs, replies);
      && (forall u | u in queue :: queue[u].updates == [] && queue[u].changes != [])
      && ChangedAmong(queue, queue.Keys) == queue.Keys
  {
    var queue := SnapshotQueue(kind, subs, replies);
    forall u | u in queue
      ensures queue[u].updates == [] && queue[u].changes != []
    {
      SnapshotQueueHolds(kind, subs, replies, u);
    }
  }

  /** The run acts on tables and answers as it read them; with nothing ambiguous these are the given ones. */
  ghost predicate RunsAs(t: Tables, kind: Kind, subs: seq<Subscription>, calls: Calls, now: int, seen: Tables,
                         r: RunReplies) {
    && r == Answers(subs, calls).(subs := r.subs)
    && ActsOn(t, kind, subs, Answers(subs, calls).subs, now, seen, r.subs)
    && (calls.Clear(t.marks) ==> seen == t && r == Answers(subs, calls))
  }

  lemma ShownToCalls(t: Tables, kind: Kind, subs: seq<Subscription>, calls: Calls, now: int, seen: Tables,
                     r: RunReplies, immediateOrder: seq<int>, dueOrder: seq<int>)
    requires RunsAs(t, kind, subs, calls, now, seen, r) && ValidRun(seen, kind, subs, r, now, immediateOrder, dueOrder)
    ensures forall k | k in ApplyAll(t, RunEvents(seen, kind, subs, r, now, immediateOrder, dueOrder)).marks ::
      k in t.marks || ShowsPair(calls.sub(k.watchlistId), k)
  {
    hide RunEvents, Collect, ShowsPair, SameAnswer, FirstRead;
    var events := RunEvents(seen, kind, subs, r, now, immediateOrder, dueOrder);
    NewKeysAreWritten(t, events);
    forall k | k in ApplyAll(t, events).marks && k !in t.marks
      ensures ShowsPair(calls.sub(k.watchlistId), k)
    {
      WrittenIsShown(seen, kind, subs, r, now, immediateOrder, dueOrder, k);
      var j :| 0 <= j < |subs| && subs[j].watchlistId == k.watchlistId && ShowsPair(r.subs[j], k);
      SameShown(calls.sub(k.watchlistId), r.subs[j], k);
    }
  }

  /** The listing the repository returns. */
  ghost predicate ListedFrom(subs: seq<Subscription>, watchlist: map<int, WatchRow>,
                             preferences: map<int, Preferences>) {
    && InListOrder(subs)
    && forall s :: s in subs <==>
         && s.watchlistId in watchlist && watchlist[s.watchlistId].notifyEnabled
         && s == Joined(s.watchlistId, watchlist[s.watchlistId], preferences)
  }

  // ----- whom the service may touch -----

  /** The entry is enabled and its owner has notifications on, the owner is the target, if there is one, and the catalog
      answers with an active item and its history. */
  ghost predicate MayTouch(watchlist: map<int, WatchRow>, preferences: map<int, Preferences>, kind: Kind, calls: Calls,
                           id: int) {
    && id in watchlist && watchlist[id].notifyEnabled
    && (watchlist[id].userId in preferences ==> preferences[watchlist[id].userId].notificationsEnabled)
    && (kind.Manual? && kind.target > 0 ==> watchlist[id].userId == kind.target)
    && calls.sub(id).item.ItemFound? && calls.sub(id).item.item.isActive && calls.sub(id).history.HistoryFound?
  }

  ghost predicate Owner(watchlist: map<int, WatchRow>, preferences: map<int, Preferences>, kind: Kind, calls: Calls,
                        u: int) {
    exists id :: MayTouch(watchlist, preferences, kind, calls, id) && watchlist[id].userId == u
  }

  /** All other entries keep their watermarks, and all users without such an entry their digest rows; nobody else is
      mailed. */
  ghost predicate TouchesOnly(watchlist: map<int, WatchRow>, preferences: map<int, Preferences>, kind: Kind,
                              calls: Calls, before: World, after: World) {
    && (forall k: MarkKey | !MayTouch(watchlist, preferences, kind, calls, k.watchlistId) ::
          Get(after.tables.marks, k) == Get(before.tables.marks, k))
    && (forall u | !Owner(watchlist, preferences, kind, calls, u) ::
          Get(after.tables.digests, u) == Get(before.tables.digests, u))
    && before.delivered <= after.delivered
    && forall i | |before.delivered| <= i < |after.delivered| ::
         after.delivered[i].Emailed? && Owner(watchlist, preferences, kind, calls, after.delivered[i].user)
  }

  lemma {:induction false} EmailsMembers(events: seq<Event>)
    ensures forall e :: e in Emails(events) <==> e in events && e.Emailed?
  {
    if events != [] {
      var (front, last) := (events[..|events| - 1], events[|events| - 1]);
      EmailsMembers(front);
      assert events == front + [last];
    }
  }

  lemma EligibleMayTouch(t: Tables, watchlist: map<int, WatchRow>, preferences: map<int, Preferences>, kind: Kind,
                         subs: seq<Subscription>, calls: Calls, now: int, seen: Tables, r: RunReplies, j: nat)
    requires ListedFrom(subs, watchlist, preferences) && RunsAs(t, kind, subs, calls, now, seen, r)
    requires j < |subs| && Eligible(kind, subs[j], r.subs[j])
    ensures MayTouch(watchlist, preferences, kind, calls, subs[j].watchlistId)
    ensures watchlist[subs[j].watchlistId].userId == subs[j].userId
  {
    hide FirstRead, Collect, InListOrder;
    assert subs[j] in subs;
    assert SameAnswer(calls.sub(subs[j].watchlistId), r.subs[j]);
  }

  /** The event is about an entry that may be touched, or an owner of one. */
  ghost predicate AboutTouchable(watchlist: map<int, WatchRow>, preferences: map<int, Preferences>, kind: Kind,
                                 calls: Calls, e: Event) {
    match e
    case MarkWritten(state) => MayTouch(watchlist, preferences, kind, calls, state.key.watchlistId)
    case DigestWritten(user, _) => Owner(watchlist, preferences, kind, calls, user)
    case Emailed(user, _, _, _) => Owner(watchlist, preferences, kind, calls, user)
  }

  lemma EventTouches(t: Tables, watchlist: map<int, WatchRow>, preferences: map<int, Preferences>, kind: Kind,
                     subs: seq<Subscription>, calls: Calls, now: int, seen: Tables, r: RunReplies,
                     immediateOrder: seq<int>, dueOrder: seq<int>, e: Event)
    requires ListedFrom(subs, watchlist, preferences) && RunsAs(t, kind, subs, calls, now, seen, r)
    requires ValidRun(seen, kind, subs, r, now, immediateOrder, dueOrder)
    requires e in RunEvents(seen, kind, subs, r, now, immediateOrder, dueOrder)
    ensures AboutTouchable(watchlist, preferences, kind, calls, e)
  {
    hide Collect, RunEvents, ListedFrom, MayTouch, Eligible, ActsOn;
    RunServesEligible(seen, kind, subs, r, now, immediateOrder, dueOrder, e);
    var j :| 0 <= j < |subs| && Eligible(kind, subs[j], r.subs[j]) && About(kind, subs[j], e);
    EligibleMayTouch(t, watchlist, preferences, kind, subs, calls, now, seen, r, j);
  }

  lemma OnlyTouchableChanges(watchlist: map<int, WatchRow>, preferences: map<int, Preferences>, kind: Kind,
                             calls: Calls, w: World, events: seq<Event>)
    requires forall e | e in events :: AboutTouchable(watchlist, preferences, kind, calls, e)
    ensures TouchesOnly(watchlist, preferences, kind, calls, w, After(w, events))
  {
    hide MayTouch, Owner, Emails, ApplyAll;
    EmailsMembers(events);
    forall k: MarkKey | !MayTouch(watchlist, preferences, kind, calls, k.watchlistId)
      ensures Get(ApplyAll(w.tables, events).marks, k) == Get(w.tables.marks, k)
    {
      MarkUntouched(w.tables, events, k);
    }
    forall u | !Owner(watchlist, preferences, kind, calls, u)
      ensures Get(ApplyAll(w.tables, events).digests, u) == Get(w.tables.digests, u)
    {
      DigestUntouched(w.tables, events, u);
    }
    assert forall i | 0 <= i < |Emails(events)| :: Emails(events)[i] in Emails(events);
  }

  lemma EventsTouchOnly(t: Tables, watchlist: map<int, WatchRow>, preferences: map<int, Preferences>, kind: Kind,
                        subs: seq<Subscription>, calls: Calls, now: int, seen: Tables, r: RunReplies,
                        immediateOrder: seq<int>, dueOrder: seq<int>, w: World)
    requires ListedFrom(subs, watchlist, preferences) && RunsAs(t, kind, subs, calls, now, seen, r)
    requires ValidRun(seen, kind, subs, r, now, immediateOrder, dueOrder)
    ensures TouchesOnly(watchlist, preferences, kind, calls, w,
                        After(w, RunEvents(seen, kind, subs, r, now, immediateOrder, dueOrder)))
  {
    hide RunEvents, ListedFrom, ActsOn, AboutTouchable, TouchesOnly, Collect;
    var events := RunEvents(seen, kind, subs, r, now, immediateOrder, dueOrder);
    forall e | e in events
      ensures AboutTouchable(watchlist, preferences, kind, calls, e)
    {
      EventTouches(t, watchlist, preferences, kind, subs, calls, now, seen, r, immediateOrder, dueOrder, e);
    }
    OnlyTouchableChanges(watchlist, preferences, kind, calls, w, events);
  }

  /** A manual diff queues everything as immediate, and each queued user has changes. */
  lemma ManualHasNoDigest(t: Tables, target: int, subs: seq<Subscription>, r: RunReplies, now: int)
    requires |r.subs| == |subs| && OneEntryEach(subs)
    ensures var c := Collect(t, Manual(target), subs, r.subs, now);
      && (!c.failed ==> c.due == {} && c.digest == map[])
      && (forall u | u in c.immediate :: c.immediate[u].changes != [])
      && ChangedAmong(c.immediate, c.immediate.Keys) == c.immediate.Keys
  {
    hide HasSource, GoodInits;
    CollectIsGood(t, Manual(target), subs, r.subs, now);
    ManualNeverDue(t, target, subs, r.subs, now);
  }

  lemma ManualEvents(t: Tables, target: int, subs: seq<Subscription>, r: RunReplies, now: int, order: seq<int>)
    requires |r.subs| == |subs|
    ensures var c := Collect(t, Manual(target), subs, r.subs, now);
      && RunEvents(t, Manual(target), subs, r, now, order, [])
         == (if c.failed then c.events else c.events + Turns(ImmediateTurn(c.immediate, r, now), order))
      && RunFails(t, Manual(target), subs, r, now, []) == c.failed
  {
    hide Collect;
    var c := Collect(t, Manual(target), subs, r.subs, now);
    var none: seq<int> := [];
    assert none[..TurnsTaken(c.digest, r, none)] == [];
    assert Turns(DigestTurn(c.digest, r, now), []) == [];
  }

  lemma {:induction false} ManualNeverDue(t: Tables, target: int, subs: seq<Subscription>, replies: seq<SubReplies>,
                                          now: int)
    requires |replies| == |subs|
    ensures var c := Collect(t, Manual(target), subs, replies, now); c.due == {} && c.digest == map[]
  {
    hide FindingsOf, InitWrites, ShouldProcessDigest;
    if subs != [] {
      ManualNeverDue(t, target, subs[..|subs| - 1], replies[..|subs| - 1], now);
    }
  }

  // ----- the service -----

  class PriceAlertService {
    const repo: UserAssetRepository
    const notification: NotificationClient

    constructor (repo: UserAssetRepository, notification: NotificationClient)
      ensures this.repo == repo && this.notification == notification
    {
      this.repo, this.notification := repo, notification;
    }

    ghost function Now(): World
      reads repo, notification
    {
      World(repo.View(), notification.delivered)
    }

    /** Writes states one by one up to the first failure. */
    method WriteStates(states: seq<NotificationState>, writeOk: nat -> bool) returns (ok: bool)
      modifies repo`marks
      ensures Now() == After(old(Now()), MarkEvents(states[..LeadingOk(writeOk, |states|)]))
      ensures ok <==> LeadingOk(writeOk, |states|) == |states|
    {
      ghost var w := Now();
      assert MarkEvents(states[..0]) == [];
      for i := 0 to |states|
        invariant LeadingOk(writeOk, i) == i
        invariant Now() == After(w, MarkEvents(states[..i]))
      {
        LeadingStops(writeOk, i, |states|);
        repo.UpsertWatchlistNotificationState(states[i], writeOk(i));
        if !writeOk(i) {
          return false;
        }
        assert MarkEvents(states[..i + 1]) == MarkEvents(states[..i]) + [MarkWritten(states[i])];
        AfterConcat(w, MarkEvents(states[..i]), [MarkWritten(states[i])]);
        AfterOne(After(w, MarkEvents(states[..i])), MarkWritten(states[i]));
      }
      return true;
    }

    /** Marks the digest as processed today when asked to. */
    method MarkDigest(userId: int, digest: Digest, wanted: bool, digestOk: bool) returns (ok: bool)
      modifies repo`digests
      ensures Now() == After(old(Now()), if wanted && digestOk then [DigestWritten(userId, digest)] else [])
      ensures ok <==> (wanted ==> digestOk)
    {
      AfterOne(Now(), DigestWritten(userId, digest));
      if wanted {
        repo.UpsertUserNotificationDispatchState(userId, digest, digestOk);
        return digestOk;
      }
      return true;
    }

    method DispatchUserNotification(p: Pending, r: DispatchReplies, now: int, markDigest: bool)
      returns (result: DispatchResult)
      modifies repo`marks, repo`digests, notification
      ensures Now() == After(old(Now()), DispatchEvents(p, r, now, markDigest))
      ensures result == DispatchOutcome(p, r, markDigest)
      ensures MailedAndReported(p, r, now, old(notification.delivered), notification.delivered, result)
    {
      hide CanMail, DayOf, SortedChanges, MarkEvents, Stamped, LeadingOk, After, MailedAndReported;
      ghost var w := Now();
      DispatchReports(w, p, r, now, markDigest);
      ghost var (mail, marks, mark) := (EmailPart(p, r, now), MarkPart(p, r, now), DigestPart(p, r, now, markDigest));
      AfterConcat(w, mail + marks, mark);
      AfterConcat(w, mail, marks);
      ghost var e := EmailOf(p, now);
      AfterOne(w, e);
      var changes := SortedChanges(p.changes);
      if !CanMail(r.contact) {
        var advanced := WriteStates(Stamped(p.updates, None), r.writeOk);
        if !advanced {
          AfterOne(Now(), e);
          return Failed;
        }
        AfterOne(Now(), e);
        var marked := MarkDigest(p.userId, Digest(Some(DayOf(now)), None), markDigest, r.digestOk);
        return if marked then Dispatched(false) else Failed;
      }
      var sent := false;
      if |p.changes| > 0 {
        if !r.renderOk {
          return Failed;
        }
        Deliver(p.userId, p.mode, now, changes, r.sendOk);
        if !r.sendOk {
          return Failed;
        }
        sent := true;
      }
      assert Now() == After(w, mail);
      var advanced := WriteStates(Stamped(p.updates, Some(now)), r.writeOk);
      AfterOne(Now(), e);
      if !advanced {
        return Failed;
      }
      var marked := MarkDigest(p.userId, Digest(Some(DayOf(now)), Some(now)), markDigest, r.digestOk);
      return if marked then Dispatched(sent) else Failed;
    }

    method Deliver(userId: int, mode: string, at: int, changes: seq<Change>, ok: bool)
      modifies notification
      ensures Now() == After(old(Now()), if ok then [Emailed(userId, mode, at, changes)] else [])
    {
      AfterOne(Now(), Emailed(userId, mode, at, changes));
      notification.SendEmail(userId, mode, at, changes, ok);
    }

    // ----- collecting -----

    method ProcessDigestNow(userId: int, time: string, readOk: bool, now: int) returns (due: Option<bool>)
      ensures due == ShouldProcessDigest(time, Get(repo.digests, userId), readOk, now)
    {
      var scheduledAt := ParseTodaySchedule(time, now);
      if scheduledAt.None? || now < scheduledAt.value {
        return Some(false);
      }
      if !readOk {
        return None;
      }
      var row := repo.GetUserNotificationDispatchState(userId);
      return Some(!(row.Some? && row.value.processedOn == Some(DayOf(now))));
    }

    /** Reads one entry's watermarks, detects, and writes the initial ones. */
    method FindChanges(sub: Subscription, r: SubReplies, now: int)
      returns (ok: bool, found: Findings, ghost states: seq<NotificationState>)
      requires Usable(r)
      modifies repo`marks
      ensures !r.listOk ==> !ok && Now() == old(Now())
      ensures r.listOk ==>
        && Lists(old(repo.marks), sub.watchlistId, states)
        && IsDetection(sub.watchlistId, r.item.item, r.history.rows, KeyLookup(ByKey(states)), now, found)
        && Now() == After(old(Now()), InitWrites(found, r))
        && (ok <==> LeadingOk(r.initOk, |found.inits|) == |found.inits|)
    {
      hide IsDetection, ByKey, After, MarkEvents, Lists;
      if !r.listOk {
        return false, NOTHING, [];
      }
      var listed := repo.ListWatchlistNotificationStates(sub.watchlistId);
      states := listed;
      var changes, inits, sends := DetectPriceAlertChanges(sub.watchlistId, r.item.item, r.history.rows, listed, now);
      found := Findings(changes, inits, sends);
      ok := WriteStates(inits, r.initOk);
    }

    /** The first loop of RunCycle and of SendManualPriceAlerts. */
    method CollectChanges(kind: Kind, subs: seq<Subscription>, replies: seq<SubReplies>, now: int)
      returns (immediate: Queue, digest: Queue, due: set<int>, failed: bool, checked: set<int>,
               ghost seen: Tables, ghost asked: seq<SubReplies>)
      requires |replies| == |subs| && OneEntryEach(subs)
      modifies repo`marks
      ensures |asked| == |subs| && ActsOn(old(repo.View()), kind, subs, replies, now, seen, asked)
      ensures AllClear(old(repo.marks), subs, replies) ==> seen == old(repo.View()) && asked == replies
      ensures var c := Collect(seen, kind, subs, asked, now);
        && failed == c.failed && Now() == After(old(Now()), c.events)
        && (!failed ==> immediate == c.immediate && digest == c.digest && due == c.due
                        && checked == CheckedUsers(kind, subs))
    {
      hide FindingsOf, InitWrites, ShouldProcessDigest, After, ClearReply, SameEntry, Enqueue, CheckedUsers, ApplyAll,
        ParseTodaySchedule, FirstRead, IsDetection, Lists, ReadsAs, ActsOn;
      ghost var (t, w) := (repo.View(), Now());
      immediate, digest, due, checked := map[], map[], {}, {};
      seen, asked := t, replies;
      NobodyChecked(kind);
      NothingRead(t.marks, kind, subs, replies);
      AfterOne(w, DigestWritten(0, Digest(None, None)));
      for i := 0 to |subs|
        invariant ReadSoFar(t, kind, subs, replies, seen, asked, i)
        invariant AllClear(t.marks, subs, replies) ==> seen == t && asked == replies
        invariant Collect(seen, kind, subs[..i], asked[..i], now).(events := [])
          == Collection([], immediate, digest, due, false)
        invariant Now() == After(w, Collect(seen, kind, subs[..i], asked[..i], now).events)
        invariant checked == CheckedUsers(kind, subs[..i])
      {
        CheckedNext(kind, subs, i);
        var (sub, r) := (subs[i], replies[i]);
        ghost var c := Collect(seen, kind, subs[..i], asked[..i], now);
        if !Chosen(kind, sub) || !sub.notificationsEnabled {
          PassedOver(t, kind, subs, replies, now, seen, asked, i);
          continue;
        }
        checked := checked + {sub.userId};
        if !Usable(r) {
          PassedOver(t, kind, subs, replies, now, seen, asked, i);
          continue;
        }
        EarlierWritesElsewhere(t, seen, kind, subs, asked, now, i);
        AfterTables(w, c.events);
        ghost var live := repo.marks;
        var ok, found, states := FindChanges(sub, r, now);
        if !r.listOk {
          PassedOver(t, kind, subs, replies, now, seen, asked, i);
          StoppedAt(t, kind, subs, replies, now, seen, asked, i + 1);
          failed := true;
          return;
        }
        SameListing(live, t.marks, sub.watchlistId, states);
        seen, asked := ReadEntry(t, kind, subs, replies, now, seen, asked, i, states, found);
        AfterConcat(w, c.events, InitWrites(found, r));
        if !ok {
          StoppedAt(t, kind, subs, replies, now, seen, asked, i + 1);
          failed := true;
          return;
        }
        if Immediately(kind, sub) {
          immediate := Enqueue(immediate, IMMEDIATE, sub.userId, found);
          continue;
        }
        var isDue := ProcessDigestNow(sub.userId, sub.time, r.digestOk, now);
        if isDue.None? {
          StoppedAt(t, kind, subs, replies, now, seen, asked, i + 1);
          failed := true;
          return;
        }
        if !isDue.value {
          continue;
        }
        due := due + {sub.userId};
        digest := Enqueue(digest, DAILY_DIGEST, sub.userId, found);
      }
      assert subs[..|subs|] == subs && asked[..|subs|] == asked;
      AllRead(t, kind, subs, replies, now, seen, asked);
      failed := false;
    }

    // ----- dispatching -----

    /** The loop over the pending users; Go visits a map in an arbitrary order. */
    method DispatchPending(queue: Queue, dispatch: int -> DispatchReplies, now: int, ghost r: RunReplies)
      returns (changesFound: nat, withDiff: nat, sent: nat, skipped: nat, ghost order: seq<int>)
      requires r.immediate == dispatch
      modifies repo`marks, repo`digests, notification
      ensures Visits(order, queue.Keys) && Now() == After(old(Now()), Turns(ImmediateTurn(queue, r, now), order))
      ensures TallyOf(queue, r, order) == Tally(changesFound, withDiff, sent, skipped)
    {
      hide DispatchEvents, DispatchOutcome, After, MailedAndReported;
      ghost var (w, turn) := (Now(), ImmediateTurn(queue, r, now));
      changesFound, withDiff, sent, skipped, order := 0, 0, 0, 0, [];
      AfterOne(w, DigestWritten(0, Digest(None, None)));
      var rest := queue.Keys;
      ghost var visited: set<int> := {};
      assert Visits([], visited) && Turns(turn, []) == [] && TallyOf(queue, r, []) == Tally(0, 0, 0, 0);
      hide Visits, Turns, TallyOf, ImmediateTurn;
      while rest != {}
        invariant rest <= queue.Keys && visited == queue.Keys - rest && Visits(order, visited)
        invariant Now() == After(w, Turns(turn, order))
        invariant TallyOf(queue, r, order) == Tally(changesFound, withDiff, sent, skipped)
      {
        HasElement(rest);
        var u :| u in rest;
        var pending := queue[u];
        TurnsAppend(turn, order, u);
        TurnOfQueued(queue, r, now, u);
        AfterConcat(w, Turns(turn, order), turn(u));
        TallyAppend(queue, r, order, u);
        VisitsOneMore(order, visited, u);
        changesFound := changesFound + |pending.changes|;
        if |pending.changes| > 0 {
          withDiff := withDiff + 1;
        }
        var result := DispatchUserNotification(pending, dispatch(u), now, false);
        if result == Dispatched(true) {
          sent := sent + 1;
        } else {
          skipped := skipped + 1;
        }
        MoveOne(queue.Keys, rest, u);
        order, visited, rest := order + [u], visited + {u}, rest - {u};
      }
      assert visited == queue.Keys;
    }

    /** The loop over the due users, which returns on a failed empty mark. */
    method DispatchDue(queue: Queue, due: set<int>, dispatch: int -> DispatchReplies, emptyOk: int -> bool, now: int,
                       ghost r: RunReplies)
      returns (failed: bool, ghost order: seq<int>)
      requires r.digest == dispatch && r.emptyOk == emptyOk
      modifies repo`marks, repo`digests, notification
      ensures Visits(order, due)
      ensures var n := TurnsTaken(queue, r, order);
        Now() == After(old(Now()), Turns(DigestTurn(queue, r, now), order[..n])) && failed == (n < |order|)
    {
      hide DispatchEvents, DispatchOutcome, After, MailedAndReported;
      ghost var (w, turn) := (Now(), DigestTurn(queue, r, now));
      order := [];
      AfterOne(w, DigestWritten(0, Digest(None, None)));
      var rest := due;
      ghost var visited: set<int> := {};
      assert Visits([], visited) && Turns(turn, []) == [] && TurnsTaken(queue, r, []) == 0;
      hide Visits, Turns, TurnsTaken;
      while rest != {}
        invariant visited !! rest && visited + rest == due && Visits(order, visited)
        invariant Now() == After(w, Turns(turn, order)) && TurnsTaken(queue, r, order) == |order|
      {
        HasElement(rest);
        var u :| u in rest;
        ghost var others := Enumerate(rest - {u});
        TurnsTakenUpTo(queue, r, order, u, others);
        VisitsOneMore(order, visited, u);
        AfterOne(Now(), DigestWritten(u, Digest(Some(DayOf(now)), None)));
        if u in queue {
          var _ := DispatchUserNotification(queue[u], dispatch(u), now, true);
        } else {
          repo.UpsertUserNotificationDispatchState(u, Digest(Some(DayOf(now)), None), emptyOk(u));
          if !emptyOk(u) {
            ghost var all := order + [u] + others;
            VisitsJoin(order + [u], visited + {u}, others, rest - {u});
            assert visited + {u} + (rest - {u}) == due && all[..|order|] == order;
            return true, all;
          }
        }
        TurnsAppend(turn, order, u);
        AfterConcat(w, Turns(turn, order), turn(u));
        order, visited, rest := order + [u], visited + {u}, rest - {u};
      }
      assert visited == due && order[..|order|] == order;
      return false, order;
    }

    // ----- the two entry points -----

    /** One scheduled cycle, whatever the catalog answers and whatever order rows and maps come in. */
    method RunCycle(calls: Calls, now: int)
      returns (failed: bool, ghost subs: seq<Subscription>, ghost immediateOrder: seq<int>, ghost dueOrder: seq<int>,
               ghost seen: Tables, ghost r: RunReplies)
      requires repo.Valid()
      modifies repo`marks, repo`digests, notification
      ensures repo.Valid()
      ensures forall k | k in repo.marks :: k in old(repo.marks) || ShowsPair(calls.sub(k.watchlistId), k)
      ensures !calls.listOk ==> failed && Now() == old(Now())
      ensures calls.listOk ==>
        && ListedFrom(subs, repo.watchlist, repo.preferences) && OneModeEach(subs)
        && RunsAs(old(repo.View()), Scheduled, subs, calls, now, seen, r)
        && ValidRun(seen, Scheduled, subs, r, now, immediateOrder, dueOrder)
        && Now() == After(old(Now()), RunEvents(seen, Scheduled, subs, r, now, immediateOrder, dueOrder))
        && failed == RunFails(seen, Scheduled, subs, r, now, dueOrder)
      ensures TouchesOnly(repo.watchlist, repo.preferences, Scheduled, calls, old(Now()), Now())
    {
      hide Collect, After, Turns, TurnsTaken, ClearReply, DispatchEvents, ListedFrom, ActsOn;
      subs, immediateOrder, dueOrder, seen, r := [], [], [], repo.View(), Answers([], calls);
      if !calls.listOk {
        failed := true;
        return;
      }
      ghost var (t, w) := (repo.View(), Now());
      var subscriptions := List();
      subs := subscriptions;
      var answers := Answers(subscriptions, calls);
      var immediate, digest, due, stopped, _, read, asked :=
        CollectChanges(Scheduled, subscriptions, answers.subs, now);
      seen, r := read, answers.(subs := asked);
      ghost var c := Collect(seen, Scheduled, subs, r.subs, now);
      assert RunsAs(t, Scheduled, subs, calls, now, seen, r);
      if stopped {
        failed := true;
      } else {
        var _, _, _, _, order := DispatchPending(immediate, calls.immediate, now, r);
        immediateOrder := order;
        failed, dueOrder := DispatchDue(digest, due, calls.digest, calls.emptyOk, now, r);
        ghost var (a, b) := (Turns(ImmediateTurn(c.immediate, r, now), immediateOrder),
                             Turns(DigestTurn(c.digest, r, now), dueOrder[..TurnsTaken(c.digest, r, dueOrder)]));
        AfterConcat(w, c.events, a);
        AfterConcat(w, c.events + a, b);
      }
      assert Now() == After(w, RunEvents(seen, Scheduled, subs, r, now, immediateOrder, dueOrder));
      AfterTables(w, RunEvents(seen, Scheduled, subs, r, now, immediateOrder, dueOrder));
      ShownToCalls(t, Scheduled, subs, calls, now, seen, r, immediateOrder, dueOrder);
      EventsTouchOnly(t, repo.watchlist, repo.preferences, Scheduled, subs, calls, now, seen, r, immediateOrder,
                      dueOrder, w);
    }

    method List() returns (subs: seq<Subscription>)
      requires repo.Valid()
      ensures ListedFrom(subs, repo.watchlist, repo.preferences) && OneEntryEach(subs) && OneModeEach(subs)
    {
      subs := repo.ListNotificationSubscriptions();
      ListingIsUniform(subs, repo.watchlist, repo.preferences);
    }

    /** The forced snapshot: whatever fails, both tables are as before, so the next cycle finds what it would have
        found. */
    method SendForcedSnapshot(target: int, calls: Calls, snapshot: int -> SnapshotReplies, now: int)
      returns (result: Option<ManualDispatchResult>, ghost subs: seq<Subscription>, ghost order: seq<int>)
      requires repo.Valid()
      modifies repo`marks, repo`digests, notification
      ensures repo.View() == old(repo.View())
      ensures result.None? <==> !calls.listOk
      ensures result.None? ==> notification.delivered == old(notification.delivered)
      ensures result.Some? ==>
        && ListedFrom(subs, repo.watchlist, repo.preferences)
        && var (queue, r, n) := (SnapshotQueue(Manual(target), subs, Snapshots(subs, snapshot)), Answers(subs, calls),
                                 result.value);
        && Visits(order, queue.Keys)
        && notification.delivered == old(notification.delivered) + Emails(Turns(ImmediateTurn(queue, r, now), order))
        && n.targetUserId == target && n.mode == SNAPSHOT && n.usersChecked == |CheckedUsers(Manual(target), subs)|
        && n.usersWithDiff == |queue| == n.emailsSent + n.usersSkipped && n.emailsSent == |SentUsers(queue, r)|
        && n.changesFound == TallyOf(queue, r, order).found == |ChangesOf(queue, order)|
        && forall u :: MailsNow(Manual(target), subs, Snapshots(subs, snapshot), calls.immediate(u), now, u,
                                notification.delivered[|old(notification.delivered)|..])
    {
      hide MailsNow, Turns, DispatchEvents, ListedFrom, SnapshotChange, TallyOf, Visits, CheckedUsers;
      subs, order := [], [];
      if !calls.listOk {
        return None, subs, order;
      }
      ghost var w := Now();
      var subscriptions := List();
      subs := subscriptions;
      var replies := Snapshots(subscriptions, snapshot);
      var queue, checked := CollectSnapshot(Manual(target), subscriptions, replies);
      ghost var r := Answers(subscriptions, calls);
      SnapshotHasNoUpdates(Manual(target), subscriptions, replies);
      var found, withDiff, sent, skipped, visited := DispatchPending(queue, calls.immediate, now, r);
      order := visited;
      TallyTotals(queue, r, order, queue.Keys);
      SnapshotOnlyMails(queue, r, now, order, w.tables);
      TallyFound(queue, r, order);
      ghost var events := Turns(ImmediateTurn(queue, r, now), order);
      forall u
        ensures MailsNow(Manual(target), subs, replies, r.immediate(u), now, u, Emails(events))
      {
        SnapshotMails(Manual(target), subs, replies, r, now, order, u);
        MailsAlike(Manual(target), subs, replies, r.immediate(u), now, u, events);
      }
      assert notification.delivered[|w.delivered|..] == Emails(events);
      result := Some(ManualDispatchResult(target, SNAPSHOT, |checked|, sent, found, withDiff, skipped));
    }

    /** The fallback change, overwritten by a live price where there is one. */
    method SnapshotFromLive(sub: Subscription, item: Item, live: Option<LivePrice>) returns (change: Change)
      ensures change == LiveChange(sub, item, ResolvedLive(item, live))
    {
      hide TrimSpace, FormatDate;
      change := Change(item.id, item.name, item.imageURL, item.game, item.source, "", sub.currency, 0, 0,
                       PRICE_UNAVAILABLE, PriceTable.ZERO_TIME, 0);
      if TrimSpace(item.externalId) == "" || TrimSpace(item.game) == "" || live.None? {
        return;
      }
      var price := live.value;
      change := change.(source := price.source, gameMode := price.gameMode, currency := price.currency,
                        current := price.value, previous := price.value);
      if price.fetchedAt != PriceTable.ZERO_TIME {
        change := change.(collectedAt := price.fetchedAt, collectedOn := FormatDate(DayOf(price.fetchedAt)));
      }
    }

    method CollectSnapshot(kind: Kind, subs: seq<Subscription>, replies: seq<SnapshotReplies>)
      returns (queue: Queue, checked: set<int>)
      requires |replies| == |subs|
      ensures queue == SnapshotQueue(kind, subs, replies) && checked == CheckedUsers(kind, subs)
    {
      hide CheckedUsers, LiveChange, ChangeFor, AddToSnapshot, ResolvedLive, Chosen;
      queue, checked := map[], {};
      NobodyChecked(kind);
      for i := 0 to |subs|
        invariant queue == SnapshotQueue(kind, subs[..i], replies[..i]) && checked == CheckedUsers(kind, subs[..i])
      {
        assert subs[..i + 1][..i] == subs[..i] && replies[..i + 1][..i] == replies[..i];
        CheckedNext(kind, subs, i);
        var (sub, r) := (subs[i], replies[i]);
        if !Chosen(kind, sub) || !sub.notificationsEnabled {
          continue;
        }
        checked := checked + {sub.userId};
        if !r.item.ItemFound? || !r.item.item.isActive {
          continue;
        }
        if r.history.HistoryError? {
          continue;
        }
        if r.history.NoHistory? || |r.history.rows| == 0 {
          var change := SnapshotFromLive(sub, r.item.item, r.live);
          queue := AddToSnapshot(queue, sub.userId, change);
          continue;
        }
        queue := AddToSnapshot(queue, sub.userId, ChangeFor(r.item.item, r.history.rows[0], r.history.rows[0].value));
      }
      assert subs[..|subs|] == subs && replies[..|subs|] == replies;
    }

    /** A manual diff: everything found is dispatched at once, whatever the users' modes, and counted. */
    method SendManualPriceAlerts(target: int, calls: Calls, now: int)
      returns (result: Option<ManualDispatchResult>, ghost subs: seq<Subscription>, ghost order: seq<int>,
               ghost seen: Tables, ghost r: RunReplies)
      requires repo.Valid()
      modifies repo`marks, repo`digests, notification
      ensures repo.Valid()
      ensures forall k | k in repo.marks :: k in old(repo.marks) || ShowsPair(calls.sub(k.watchlistId), k)
      ensures !calls.listOk ==> result.None? && Now() == old(Now())
      ensures calls.listOk ==>
        && ListedFrom(subs, repo.watchlist, repo.preferences) && OneModeEach(subs)
        && RunsAs(old(repo.View()), Manual(target), subs, calls, now, seen, r)
        && ValidRun(seen, Manual(target), subs, r, now, order, [])
        && Now() == After(old(Now()), RunEvents(seen, Manual(target), subs, r, now, order, []))
        && result.None? == RunFails(seen, Manual(target), subs, r, now, [])
        && (result.Some? ==>
              var (c, n) := (Collect(seen, Manual(target), subs, r.subs, now), result.value);
              && n.targetUserId == target && n.mode == "diff"
              && n.usersChecked == |CheckedUsers(Manual(target), subs)|
              && n.usersWithDiff == |c.immediate| == n.emailsSent + n.usersSkipped
              && n.emailsSent == |SentUsers(c.immediate, r)|
              && n.changesFound == TallyOf(c.immediate, r, order).found == |ChangesOf(c.immediate, order)|)
      ensures TouchesOnly(repo.watchlist, repo.preferences, Manual(target), calls, old(Now()), Now())
    {
      hide Collect, After, Turns, TurnsTaken, ClearReply, DispatchEvents, ListedFrom, ActsOn;
      subs, order, seen, r := [], [], repo.View(), Answers([], calls);
      if !calls.listOk {
        result := None;
        return;
      }
      ghost var (t, w) := (repo.View(), Now());
      var subscriptions := List();
      subs := subscriptions;
      var answers := Answers(subscriptions, calls);
      var immediate, _, _, stopped, checked, read, asked :=
        CollectChanges(Manual(target), subscriptions, answers.subs, now);
      seen, r := read, answers.(subs := asked);
      ghost var c := Collect(seen, Manual(target), subs, r.subs, now);
      assert RunsAs(t, Manual(target), subs, calls, now, seen, r);
      ManualHasNoDigest(seen, target, subs, r, now);
      if stopped {
        result := None;
      } else {
        var found, withDiff, sent, skipped, visited := DispatchPending(immediate, calls.immediate, now, r);
        order := visited;
        TallyTotals(immediate, r, order, immediate.Keys);
        TallyFound(immediate, r, order);
        result := Some(ManualDispatchResult(target, "diff", |checked|, sent, found, withDiff, skipped));
        AfterConcat(w, c.events, Turns(ImmediateTurn(c.immediate, r, now), order));
      }
      ManualEvents(seen, target, subs, r, now, order);
      AfterTables(w, RunEvents(seen, Manual(target), subs, r, now, order, []));
      ShownToCalls(t, Manual(target), subs, calls, now, seen, r, order, []);
      EventsTouchOnly(t, repo.watchlist, repo.preferences, Manual(target), subs, calls, now, seen, r, order, [], w);
    }
  }

  lemma NobodyCounted(queue: Queue, r: RunReplies)
    ensures SentAmong(queue, r, {}) == {} && ChangedAmong(queue, {}) == {}
  {
  }

  lemma MoveOne(keys: set<int>, rest: set<int>, u: int)
    ensures u in keys ==> keys - (rest - {u}) == keys - rest + {u}
  {
  }

  lemma TurnOfQueued(queue: Queue, r: RunReplies, now: int, u: int)
    requires u in queue
    ensures ImmediateTurn(queue, r, now)(u) == DispatchEvents(queue[u], r.immediate(u), now, false)
  {
  }

  lemma NobodyChecked(kind: Kind)
    ensures CheckedUsers(kind, []) == {}
  {
  }

  lemma CheckedNext(kind: Kind, subs: seq<Subscription>, i: nat)
    requires i < |subs|
    ensures CheckedUsers(kind, subs[..i + 1])
         == CheckedUsers(kind, subs[..i]) + if Chosen(kind, subs[i]) && subs[i].notificationsEnabled
           then {subs[i].userId} else {}
  {
    assert subs[..i + 1] == subs[..i] + [subs[i]];
    assert forall s :: s in subs[..i + 1] <==> s in subs[..i] || s == subs[i];
  }

  lemma AfterTables(w: World, events: seq<Event>)
    ensures After(w, events).tables == ApplyAll(w.tables, events)
  {
  }
}
