/** The forced snapshot: every checked user's current values in one email, watermarks left alone. */
module Snapshot {
  import opened Options
  import opened GoStrings
  import opened Calendar
  import opened PriceTable
  import opened Detection
  import opened AlertTables
  import opened Dispatch
  import opened AlertCycle
  import opened CycleFacts

  const PRICE_UNAVAILABLE := "price unavailable"

  datatype LivePrice = LivePrice(source: string, gameMode: string, currency: string, value: int, fetchedAt: Instant)

  /** The outcomes of the calls for one subscription; `live` is None when the integration fails or has no price. */
  datatype SnapshotReplies = SnapshotReplies(item: ItemReply, history: HistoryReply, live: Option<LivePrice>)

  /** The live price is asked for only when the item carries an external id and a game. */
  function ResolvedLive(item: Item, live: Option<LivePrice>): Option<LivePrice> {
    if TrimSpace(item.externalId) == "" || TrimSpace(item.game) == "" then None else live
  }

  function LiveChange(sub: Subscription, item: Item, live: Option<LivePrice>): Change {
    match live
    case None => Change(item.id, item.name, item.imageURL, item.game, item.source, "", sub.currency, 0, 0,
                        PRICE_UNAVAILABLE, ZERO_TIME, 0)
    case Some(p) =>
      var known := p.fetchedAt != ZERO_TIME;
      Change(item.id, item.name, item.imageURL, item.game, p.source, p.gameMode, p.currency, p.value, p.value,
             if known then FormatDate(DayOf(p.fetchedAt)) else PRICE_UNAVAILABLE,
             if known then p.fetchedAt else ZERO_TIME, 0)
  }

  /** What a subscription contributes; None when it is skipped. */
  function SnapshotChange(kind: Kind, sub: Subscription, r: SnapshotReplies): Option<Change> {
    if !Chosen(kind, sub) || !sub.notificationsEnabled || !(r.item.ItemFound? && r.item.item.isActive)
      || r.history.HistoryError? then None
    else if r.history.HistoryFound? && r.history.rows != []
      then Some(ChangeFor(r.item.item, r.history.rows[0], r.history.rows[0].value))
    else Some(LiveChange(sub, r.item.item, ResolvedLive(r.item.item, r.live)))
  }

  function AddToSnapshot(queue: Queue, user: int, change: Change): Queue {
    var p := if user in queue then queue[user] else Pending(SNAPSHOT, user, [], []);
    queue[user := p.(changes := p.changes + [change])]
  }

  function SnapshotQueue(kind: Kind, subs: seq<Subscription>, replies: seq<SnapshotReplies>): Queue
    requires |replies| == |subs|
  {
    if subs == [] then map[]
    else
      var n := |subs| - 1;
      var queue := SnapshotQueue(kind, subs[..n], replies[..n]);
      match SnapshotChange(kind, subs[n], replies[n])
      case None => queue
      case Some(change) => AddToSnapshot(queue, subs[n].userId, change)
  }

  /** A user's snapshot carries one change for each contributing subscription, in listing order. */
  function SnapshotOf(kind: Kind, subs: seq<Subscription>, replies: seq<SnapshotReplies>, user: int): seq<Change>
    requires |replies| == |subs|
  {
    if subs == [] then []
    else
      var n := |subs| - 1;
      var change := SnapshotChange(kind, subs[n], replies[n]);
      SnapshotOf(kind, subs[..n], replies[..n], user) + if subs[n].userId == user && change.Some? then [change.value]
        else []
  }

  lemma {:induction false} SnapshotQueueHolds(kind: Kind, subs: seq<Subscription>, replies: seq<SnapshotReplies>,
                                              user: int)
    requires |replies| == |subs|
    ensures var changes := SnapshotOf(kind, subs, replies, user);
      Get(SnapshotQueue(kind, subs, replies), user) == if changes == [] then None
        else Some(Pending(SNAPSHOT, user, changes, []))
  {
    hide SnapshotChange;
    if subs != [] {
      var n := |subs| - 1;
      SnapshotQueueHolds(kind, subs[..n], replies[..n], user);
      var (before, change) := (SnapshotOf(kind, subs[..n], replies[..n], user),
                               SnapshotChange(kind, subs[n], replies[n]));
      if subs[n].userId == user && change.Some? {
        assert SnapshotOf(kind, subs, replies, user) == before + [change.value];
        assert before == [] ==> before + [change.value] == [change.value];
      } else {
        assert SnapshotOf(kind, subs, replies, user) == before;
      }
    }
  }

  // ----- what a snapshot says -----

  /** The entry's notifications are on, its user is the target, if there is one, its item is active, and its history can
      be read. */
  ghost predicate Contributes(kind: Kind, sub: Subscription, r: SnapshotReplies) {
    && sub.notificationsEnabled && (kind.Manual? && kind.target > 0 ==> sub.userId == kind.target)
    && r.item.ItemFound? && r.item.item.isActive && !r.history.HistoryError?
  }

  /** The change is about the entry's item and shows no difference: its newest stored row; without one the live price,
      for an item with an external id and a game; otherwise the marker of a missing price. */
  ghost predicate ShowsNow(c: Change, sub: Subscription, r: SnapshotReplies)
    requires r.item.ItemFound?
  {
    var item := r.item.item;
    && c.itemId == item.id && c.itemName == item.name && c.imageURL == item.imageURL && c.game == item.game
    && c.previous == c.current && c.absolute == 0
    && if r.history.HistoryFound? && |r.history.rows| > 0 then
         var row := r.history.rows[0];
         && c.source == row.source && c.gameMode == row.gameMode && c.currency == row.currency && c.current == row.value
         && c.collectedOn == row.collectedOn && c.collectedAt == row.collectedAt
       else if r.live.Some? && !Blank(item.externalId) && !Blank(item.game) then
         var p := r.live.value;
         && c.source == p.source && c.gameMode == p.gameMode && c.currency == p.currency && c.current == p.value
         && if p.fetchedAt != ZERO_TIME then
              ParseDate(c.collectedOn) == Some(DayOf(p.fetchedAt)) && c.collectedAt == p.fetchedAt
            else c.collectedOn == "price unavailable" && c.collectedAt == ZERO_TIME
       else
         && c.source == item.source && c.gameMode == "" && c.currency == sub.currency && c.current == 0
         && c.collectedOn == "price unavailable" && c.collectedAt == ZERO_TIME
  }

  ghost predicate Blank(s: string) {
    forall i | 0 <= i < |s| :: IsSpace(s[i])
  }

  lemma SnapshotChangeShows(kind: Kind, sub: Subscription, r: SnapshotReplies)
    ensures SnapshotChange(kind, sub, r).Some? <==> Contributes(kind, sub, r)
    ensures Contributes(kind, sub, r) ==> r.item.ItemFound? && ShowsNow(SnapshotChange(kind, sub, r).value, sub, r)
  {
    hide TrimSpace, IsSpace, FormatDate, ParseDate;
    if r.item.ItemFound? {
      BlankIff(r.item.item.externalId);
      BlankIff(r.item.item.game);
    }
    if r.live.Some? {
      DateReadsBack(DayOf(r.live.value.fetchedAt));
    }
  }

  /** The changes are those of the user's contributing entries, one for each, in listing order. */
  ghost predicate ListsEntries(kind: Kind, subs: seq<Subscription>, replies: seq<SnapshotReplies>, user: int,
                               changes: seq<Change>, entries: seq<nat>)
    requires |replies| == |subs|
  {
    && |entries| == |changes|
    && (forall i | 0 <= i < |entries| ::
          && entries[i] < |subs| && subs[entries[i]].userId == user
          && Contributes(kind, subs[entries[i]], replies[entries[i]])
          && ShowsNow(changes[i], subs[entries[i]], replies[entries[i]]))
    && (forall i, j | 0 <= i < j < |entries| :: entries[i] < entries[j])
    && forall j: nat | j < |subs| && subs[j].userId == user && Contributes(kind, subs[j], replies[j]) :: j in entries
  }

  lemma {:induction false} SnapshotLists(kind: Kind, subs: seq<Subscription>, replies: seq<SnapshotReplies>, user: int)
    returns (entries: seq<nat>)
    requires |replies| == |subs|
    ensures ListsEntries(kind, subs, replies, user, SnapshotOf(kind, subs, replies, user), entries)
  {
    hide SnapshotChange, ShowsNow, Contributes, ListsEntries;
    entries := [];
    if subs == [] {
      NothingListed(kind, user);
    } else {
      var n := |subs| - 1;
      entries := SnapshotLists(kind, subs[..n], replies[..n], user);
      SnapshotChangeShows(kind, subs[n], replies[n]);
      var changes := SnapshotOf(kind, subs[..n], replies[..n], user);
      if subs[n].userId == user && Contributes(kind, subs[n], replies[n]) {
        EntryListed(kind, subs, replies, user, changes, entries, SnapshotChange(kind, subs[n], replies[n]).value);
        entries := entries + [n];
      } else {
        EntrySkipped(kind, subs, replies, user, changes, entries);
        assert changes + [] == changes;
      }
    }
  }

  lemma NothingListed(kind: Kind, user: int)
    ensures ListsEntries(kind, [], [], user, [], [])
  {
  }

  lemma EntrySkipped(kind: Kind, subs: seq<Subscription>, replies: seq<SnapshotReplies>, user: int,
                     changes: seq<Change>, entries: seq<nat>)
    requires subs != [] && |replies| == |subs|
    requires ListsEntries(kind, subs[..|subs| - 1], replies[..|subs| - 1], user, changes, entries)
    requires subs[|subs| - 1].userId != user || !Contributes(kind, subs[|subs| - 1], replies[|subs| - 1])
    ensures ListsEntries(kind, subs, replies, user, changes, entries)
  {
    hide Contributes, ShowsNow;
    var (front, back) := (subs[..|subs| - 1], replies[..|subs| - 1]);
    assert forall j | 0 <= j < |front| :: front[j] == subs[j] && back[j] == replies[j];
  }

  lemma EntryListed(kind: Kind, subs: seq<Subscription>, replies: seq<SnapshotReplies>, user: int, changes: seq<Change>,
                    entries: seq<nat>, change: Change)
    requires subs != [] && |replies| == |subs|
    requires ListsEntries(kind, subs[..|subs| - 1], replies[..|subs| - 1], user, changes, entries)
    requires var n := |subs| - 1; subs[n].userId == user && Contributes(kind, subs[n], replies[n])
    requires replies[|subs| - 1].item.ItemFound? && ShowsNow(change, subs[|subs| - 1], replies[|subs| - 1])
    ensures ListsEntries(kind, subs, replies, user, changes + [change], entries + [|subs| - 1])
  {
    hide Contributes, ShowsNow;
    var n := |subs| - 1;
    var (front, back) := (subs[..n], replies[..n]);
    assert forall j | 0 <= j < n :: front[j] == subs[j] && back[j] == replies[j];
    assert (entries + [n])[|entries|] == n;
  }

  /** Every email to the user lists the user's contributing entries, and there is one exactly when there is such an
      entry, the contact is a verified address that is not blank, and rendering and sending succeed. */
  ghost predicate MailsNow(kind: Kind, subs: seq<Subscription>, replies: seq<SnapshotReplies>, d: DispatchReplies,
                           now: int, user: int, events: seq<Event>)
    requires |replies| == |subs|
  {
    && (forall e | e in events && e.Emailed? && e.user == user ::
          && e.mode == "snapshot" && e.at == now
          && exists changes, entries ::
               multiset(e.changes) == multiset(changes) && ListsEntries(kind, subs, replies, user, changes, entries))
    && ((exists e :: e in events && e.Emailed? && e.user == user)
        <==> && (exists j: nat :: j < |subs| && subs[j].userId == user && Contributes(kind, subs[j], replies[j]))
             && d.contact.ContactFound? && d.contact.verified && !Blank(d.contact.email) && d.renderOk && d.sendOk)
  }

  lemma SnapshotMails(kind: Kind, subs: seq<Subscription>, replies: seq<SnapshotReplies>, r: RunReplies, now: int,
                      order: seq<int>, user: int)
    requires |replies| == |subs| && Visits(order, SnapshotQueue(kind, subs, replies).Keys)
    ensures MailsNow(kind, subs, replies, r.immediate(user), now, user,
                     Turns(ImmediateTurn(SnapshotQueue(kind, subs, replies), r, now), order))
  {
    hide DispatchEvents, Turns, ListsEntries, Contributes, SnapshotQueue, SnapshotOf, IsSpace;
    var queue := SnapshotQueue(kind, subs, replies);
    var (turn, changes) := (ImmediateTurn(queue, r, now), SnapshotOf(kind, subs, replies, user));
    TurnsMembers(turn, order);
    var entries := SnapshotLists(kind, subs, replies, user);
    SnapshotHasEntries(kind, subs, replies, user, changes, entries);
    forall u | u in queue
      ensures queue[u].userId == u && queue[u].mode == SNAPSHOT && (u == user ==> queue[u].changes == changes != [])
    {
      SnapshotQueueHolds(kind, subs, replies, u);
    }
    SnapshotQueueHolds(kind, subs, replies, user);
    forall e | e in Turns(turn, order) && e.Emailed? && e.user == user
      ensures user in queue && e in DispatchEvents(queue[user], r.immediate(user), now, false)
    {
      var u :| u in order && e in turn(u);
      EmailGoesOutIff(queue[u], r.immediate(u), now, false);
    }
    if user in queue {
      EmailGoesOutIff(queue[user], r.immediate(user), now, false);
      assert user in order && turn(user) == DispatchEvents(queue[user], r.immediate(user), now, false);
    }
  }

  lemma SnapshotHasEntries(kind: Kind, subs: seq<Subscription>, replies: seq<SnapshotReplies>, user: int,
                           changes: seq<Change>, entries: seq<nat>)
    requires |replies| == |subs| && ListsEntries(kind, subs, replies, user, changes, entries)
    ensures changes != []
      <==> exists j: nat :: j < |subs| && subs[j].userId == user && Contributes(kind, subs[j], replies[j])
  {
    hide Contributes, ShowsNow;
    if changes != [] {
      assert entries[0] < |subs|;
    }
  }

  /** Whatever happens to its dispatches, a snapshot only sends mail. */
  lemma SnapshotOnlyMails(queue: Queue, r: RunReplies, now: int, order: seq<int>, t: Tables)
    requires forall u | u in queue :: queue[u].updates == []
    ensures ApplyAll(t, Turns(ImmediateTurn(queue, r, now), order)) == t
  {
    hide CanMail, SortedChanges;
    var events := Turns(ImmediateTurn(queue, r, now), order);
    TurnsMembers(ImmediateTurn(queue, r, now), order);
    forall e | e in events
      ensures e.Emailed?
    {
      var u :| u in order && e in ImmediateTurn(queue, r, now)(u);
    }
    MailChangesNothing(t, events);
  }

  lemma {:induction false} MailChangesNothing(t: Tables, events: seq<Event>)
    requires forall e | e in events :: e.Emailed?
    ensures ApplyAll(t, events) == t
  {
    if events != [] {
      var (front, last) := (events[..|events| - 1], events[|events| - 1]);
      assert last in events && forall e | e in front :: e in events;
      MailChangesNothing(t, front);
    }
  }
}
