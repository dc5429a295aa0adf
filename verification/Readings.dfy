/** What the engine acts on: each entry's history in the order its sort leaves it, and the watermarks that the text keys
    lead to in whatever order the database lists them. */
module Readings {
  import opened Options
  import opened Grouping
  import opened Detection
  import opened AlertTables
  import opened Schedule
  import opened AlertCycle
  import opened LiveReads

  /** The same answers, with the rows of the history in some order. */
  ghost predicate SameAnswer(r: SubReplies, r': SubReplies) {
    && r' == r.(history := r'.history)
    && (r.history.HistoryFound? ==> r'.history.HistoryFound? && multiset(r'.history.rows) == multiset(r.history.rows))
    && (!r.history.HistoryFound? ==> r' == r)
  }

  /** `view` gives each pair shown for the entry the watermark found under its text in some listing of the entry's
      rows. */
  ghost predicate ReadsAs(marks: Marks, watchlistId: int, r: SubReplies, view: Marks)
    requires r.history.HistoryFound?
  {
    exists states :: Lists(marks, watchlistId, states)
      && forall row | row in r.history.rows ::
           Get(view, MarkKey(watchlistId, row.source, row.gameMode))
             == KeyLookup(ByKey(states))(row.source, row.gameMode)
  }

  /** So read the first n entries, where anything is read for them. */
  ghost predicate FirstRead(marks: Marks, kind: Kind, subs: seq<Subscription>, replies: seq<SubReplies>, view: Marks,
                            n: nat)
    requires |replies| == |subs| && n <= |subs|
  {
    forall j | 0 <= j < n && Considered(kind, subs[j], replies[j]) && replies[j].listOk ::
      ReadsAs(marks, subs[j].watchlistId, replies[j], view)
  }

  /** The run on tables t with these answers acts as the specified run on `seen` with the answers `asked`: for every
      entry up to the one that makes the run fail, `seen` holds what was read. */
  ghost predicate ActsOn(t: Tables, kind: Kind, subs: seq<Subscription>, replies: seq<SubReplies>, now: int,
                         seen: Tables, asked: seq<SubReplies>) {
    && |replies| == |asked| == |subs| && seen.digests == t.digests
    && (forall j | 0 <= j < |subs| :: SameAnswer(replies[j], asked[j]))
    && exists n: nat :: n <= |subs| && FirstRead(t.marks, kind, subs, replies, seen.marks, n)
         && (n < |subs| ==> Collect(seen, kind, subs[..n], asked[..n], now).failed)
  }

  // ----- one entry -----

  function ShownKeys(watchlistId: int, rows: seq<PriceRow>): set<MarkKey> {
    set row | row in rows :: MarkKey(watchlistId, row.source, row.gameMode)
  }

  /** The view with the shown pairs' watermarks replaced by what the lookup finds. */
  function WithReading(view: Marks, watchlistId: int, rows: seq<PriceRow>, current: Lookup): Marks {
    (view - ShownKeys(watchlistId, rows))
    + map k | k in ShownKeys(watchlistId, rows) && current(k.source, k.gameMode).Some? ::
      current(k.source, k.gameMode).value
  }

  lemma ReadingGets(view: Marks, watchlistId: int, rows: seq<PriceRow>, current: Lookup, k: MarkKey)
    ensures Get(WithReading(view, watchlistId, rows, current), k)
         == if k in ShownKeys(watchlistId, rows) then current(k.source, k.gameMode) else Get(view, k)
  {
  }

  lemma ReadingAgrees(view: Marks, watchlistId: int, rows: seq<PriceRow>, current: Lookup)
    requires forall k | k in ShownKeys(watchlistId, rows) :: current(k.source, k.gameMode) == Get(view, k)
    ensures WithReading(view, watchlistId, rows, current) == view
  {
    var after := WithReading(view, watchlistId, rows, current);
    hide WithReading, ShownKeys;
    forall k
      ensures Get(after, k) == Get(view, k)
    {
      ReadingGets(view, watchlistId, rows, current, k);
    }
    SameGets(after, view);
  }

  lemma SameGets(a: Marks, b: Marks)
    requires forall k :: Get(a, k) == Get(b, k)
    ensures a == b
  {
    assert forall k :: k in a <==> Get(a, k).Some?;
    assert forall k :: k in b <==> Get(b, k).Some?;
    assert forall k | k in a :: a[k] == Get(b, k).value;
  }

  lemma SameListing(live: Marks, marks: Marks, watchlistId: int, states: seq<NotificationState>)
    requires Lists(live, watchlistId, states) && SameEntry(live, marks, watchlistId)
    ensures Lists(marks, watchlistId, states)
  {
    forall k: MarkKey | k.watchlistId == watchlistId
      ensures k in live <==> k in marks
      ensures k in live ==> live[k] == marks[k]
    {
      assert Get(live, k) == Get(marks, k);
    }
  }

  /** What was detected through text keys is the finding on the view and on the rows as the sort left them; with nothing
      ambiguous these are the table and the answer themselves. */
  lemma DetectedAsRead(marks: Marks, view: Marks, sub: Subscription, r: SubReplies, states: seq<NotificationState>,
                       now: int, found: Findings) returns (view': Marks, r': SubReplies)
    requires Usable(r) && Lists(marks, sub.watchlistId, states)
    requires IsDetection(sub.watchlistId, r.item.item, r.history.rows, KeyLookup(ByKey(states)), now, found)
    ensures SameAnswer(r, r') && Usable(r') && found == FindingsOf(view', sub, r', now)
    ensures ReadsAs(marks, sub.watchlistId, r, view')
    ensures forall k: MarkKey | k.watchlistId != sub.watchlistId :: Get(view', k) == Get(view, k)
    ensures view == marks && ClearReply(marks, sub.watchlistId, r) ==> view' == view && r' == r
  {
    var (rows, id, current) := (r.history.rows, sub.watchlistId, KeyLookup(ByKey(states)));
    var groups :| IsGrouping(rows, groups) && found == Detected(id, r.item.item, groups, current, now);
    hide IsGrouping, Detected, Grouped, ByKey, OneRowPerDay, Lists, KeyLookup, Flatten, ClearReply, FindingsOf,
      WithReading, TableLookup;
    GroupedIsGrouping(rows);
    GroupingOfSomeOrder(rows, groups);
    var rows' := if groups == Grouped(rows) then rows else Flatten(groups);
    r' := r.(history := HistoryFound(rows'));
    view' := WithReading(view, id, rows, current);
    ReadingIsFinding(view, id, r.item.item, rows, groups, current, now);
    FindingsAre(view', sub, r', now, groups);
    ReadingShows(view, id, rows, current);
    assert ReadsAs(marks, id, r, view');
    hide WithReading, TableLookup, FindingsOf, ReadsAs;
    if view == marks && ClearReply(marks, id, r) {
      ClearReading(marks, sub, r, states, groups);
    }
  }

  lemma FindingsAre(marks: Marks, sub: Subscription, r: SubReplies, now: int, groups: seq<seq<PriceRow>>)
    requires Usable(r) && NoEmptyGroup(groups) && Grouped(r.history.rows) == groups
    ensures FindingsOf(marks, sub, r, now)
         == Detected(sub.watchlistId, r.item.item, groups, TableLookup(marks, sub.watchlistId), now)
  {
    hide Detected, Grouped;
  }

  lemma ReadingShows(view: Marks, watchlistId: int, rows: seq<PriceRow>, current: Lookup)
    ensures var view' := WithReading(view, watchlistId, rows, current);
      && (forall row | row in rows ::
          Get(view', MarkKey(watchlistId, row.source, row.gameMode)) == current(row.source, row.gameMode))
      && (forall k: MarkKey | k.watchlistId != watchlistId :: Get(view', k) == Get(view, k))
  {
    var view' := WithReading(view, watchlistId, rows, current);
    hide WithReading;
    forall row | row in rows
      ensures Get(view', MarkKey(watchlistId, row.source, row.gameMode)) == current(row.source, row.gameMode)
    {
      assert MarkKey(watchlistId, row.source, row.gameMode) in ShownKeys(watchlistId, rows);
      ReadingGets(view, watchlistId, rows, current, MarkKey(watchlistId, row.source, row.gameMode));
    }
    forall k: MarkKey | k.watchlistId != watchlistId
      ensures Get(view', k) == Get(view, k)
    {
      ReadingGets(view, watchlistId, rows, current, k);
    }
  }

  lemma ReadingIsFinding(view: Marks, watchlistId: int, item: Item, rows: seq<PriceRow>, groups: seq<seq<PriceRow>>,
                         current: Lookup, now: int)
    requires IsGrouping(rows, groups)
    ensures NoEmptyGroup(groups)
    ensures Detected(watchlistId, item, groups, current, now)
         == Detected(watchlistId, item, groups, TableLookup(WithReading(view, watchlistId, rows, current), watchlistId),
                     now)
  {
    hide Detected, WithReading;
    NoneEmpty(rows, groups);
    ReadingShows(view, watchlistId, rows, current);
    var view' := WithReading(view, watchlistId, rows, current);
    forall g: seq<PriceRow> | g in groups
      ensures Current(current, g[0]) == Current(TableLookup(view', watchlistId), g[0])
    {
      HeadIsRow(rows, groups, g);
    }
    DetectionReads(watchlistId, item, groups, current, TableLookup(view', watchlistId), now);
  }

  lemma ClearReading(marks: Marks, sub: Subscription, r: SubReplies, states: seq<NotificationState>,
                     groups: seq<seq<PriceRow>>)
    requires Usable(r) && Lists(marks, sub.watchlistId, states) && ClearReply(marks, sub.watchlistId, r)
    requires IsGrouping(r.history.rows, groups)
    ensures groups == Grouped(r.history.rows)
    ensures WithReading(marks, sub.watchlistId, r.history.rows, KeyLookup(ByKey(states))) == marks
  {
    var (rows, id, current) := (r.history.rows, sub.watchlistId, KeyLookup(ByKey(states)));
    hide IsGrouping, Grouped, ByKey, Lists, OneRowPerDay, Ambiguous;
    GroupedIsGrouping(rows);
    GroupingUnique(rows, rows, groups, Grouped(rows));
    forall k | k in ShownKeys(id, rows)
      ensures current(k.source, k.gameMode) == Get(marks, k)
    {
      TextKeysSuffice(marks, id, states, k.source, k.gameMode);
    }
    ReadingAgrees(marks, id, rows, current);
  }

  lemma NoneEmpty(history: seq<PriceRow>, groups: seq<seq<PriceRow>>)
    requires IsGrouping(history, groups)
    ensures NoEmptyGroup(groups)
  {
  }

  // ----- the loop over the entries -----

  /** Collecting reads the watermarks of the listed entries and the digest rows only. */
  lemma {:induction false} CollectReads(a: Tables, b: Tables, kind: Kind, subs: seq<Subscription>,
                                        replies: seq<SubReplies>, now: int)
    requires |replies| == |subs| && a.digests == b.digests
    requires forall j | 0 <= j < |subs| :: SameEntry(a.marks, b.marks, subs[j].watchlistId)
    ensures Collect(a, kind, subs, replies, now) == Collect(b, kind, subs, replies, now)
  {
    hide FindingsOf, InitWrites, Enqueue, ShouldProcessDigest, SameEntry;
    if subs != [] {
      var n := |subs| - 1;
      CollectReads(a, b, kind, subs[..n], replies[..n], now);
      if Usable(replies[n]) {
        FindingsRead(a.marks, b.marks, subs[n], replies[n], now);
      }
    }
  }

  lemma FindingsRead(a: Marks, b: Marks, sub: Subscription, r: SubReplies, now: int)
    requires Usable(r) && SameEntry(a, b, sub.watchlistId)
    ensures FindingsOf(a, sub, r, now) == FindingsOf(b, sub, r, now)
  {
    hide Detected, Grouped;
    GroupedIsGrouping(r.history.rows);
    NoneEmpty(r.history.rows, Grouped(r.history.rows));
    DetectionReads(sub.watchlistId, r.item.item, Grouped(r.history.rows), TableLookup(a, sub.watchlistId),
                   TableLookup(b, sub.watchlistId), now);
  }

  /** A reading that concerns one entry leaves those of other entries valid. */
  lemma ReadingKept(marks: Marks, watchlistId: int, r: SubReplies, view: Marks, view': Marks)
    requires r.history.HistoryFound? && ReadsAs(marks, watchlistId, r, view) && SameEntry(view, view', watchlistId)
    ensures ReadsAs(marks, watchlistId, r, view')
  {
    hide Lists, ByKey;
    var states :| Lists(marks, watchlistId, states)
      && forall row | row in r.history.rows ::
           Get(view, MarkKey(watchlistId, row.source, row.gameMode))
             == KeyLookup(ByKey(states))(row.source, row.gameMode);
    forall row | row in r.history.rows
      ensures Get(view', MarkKey(watchlistId, row.source, row.gameMode))
        == KeyLookup(ByKey(states))(row.source, row.gameMode)
    {
    }
  }

  /** One more entry read. */
  lemma ReadNext(t: Tables, kind: Kind, subs: seq<Subscription>, replies: seq<SubReplies>, now: int, view: Marks,
                 asked: seq<SubReplies>, i: nat, view': Marks, r': SubReplies)
    requires |replies| == |asked| == |subs| && OneEntryEach(subs) && i < |subs| && Usable(replies[i])
    requires FirstRead(t.marks, kind, subs, replies, view, i)
      && ReadsAs(t.marks, subs[i].watchlistId, replies[i], view')
    requires forall k: MarkKey | k.watchlistId != subs[i].watchlistId :: Get(view', k) == Get(view, k)
    ensures FirstRead(t.marks, kind, subs, replies, view', i + 1)
    ensures asked[i := r'][..i] == asked[..i]
    ensures Collect(Tables(view', t.digests), kind, subs[..i], asked[..i], now)
         == Collect(Tables(view, t.digests), kind, subs[..i], asked[..i], now)
  {
    hide ReadsAs, Collect;
    forall j | 0 <= j < i
      ensures SameEntry(view, view', subs[j].watchlistId)
    {
      assert subs[j].watchlistId != subs[i].watchlistId;
    }
    forall j | 0 <= j < i && Considered(kind, subs[j], replies[j]) && replies[j].listOk
      ensures ReadsAs(t.marks, subs[j].watchlistId, replies[j], view')
    {
      ReadingKept(t.marks, subs[j].watchlistId, replies[j], view, view');
    }
    CollectReads(Tables(view', t.digests), Tables(view, t.digests), kind, subs[..i], asked[..i], now);
  }

  /** Permuted rows show the same pairs. */
  lemma SameShown(r: SubReplies, r': SubReplies, k: MarkKey)
    requires SameAnswer(r, r') && ShowsPair(r', k)
    ensures ShowsPair(r, k)
  {
    SameMembers(r'.history.rows, r.history.rows);
  }

  // ----- the state of the loop -----

  ghost predicate AllClear(marks: Marks, subs: seq<Subscription>, replies: seq<SubReplies>)
    requires |replies| == |subs|
  {
    forall j | 0 <= j < |subs| :: ClearReply(marks, subs[j].watchlistId, replies[j])
  }

  /** The first i entries have been read, and the answers for the others are as given. */
  ghost predicate ReadSoFar(t: Tables, kind: Kind, subs: seq<Subscription>, replies: seq<SubReplies>, seen: Tables,
                            asked: seq<SubReplies>, i: nat) {
    && |replies| == |asked| == |subs| && i <= |subs| && seen.digests == t.digests
    && (forall j | 0 <= j < |subs| :: SameAnswer(replies[j], asked[j]))
    && (forall j | i <= j < |subs| :: asked[j] == replies[j])
    && FirstRead(t.marks, kind, subs, replies, seen.marks, i)
  }

  lemma NothingRead(marks: Marks, kind: Kind, subs: seq<Subscription>, replies: seq<SubReplies>)
    requires |replies| == |subs|
    ensures FirstRead(marks, kind, subs, replies, marks, 0)
  {
  }

  /** An entry whose watermarks are not read. */
  lemma PassedOver(t: Tables, kind: Kind, subs: seq<Subscription>, replies: seq<SubReplies>, now: int, seen: Tables,
                   asked: seq<SubReplies>, i: nat)
    requires ReadSoFar(t, kind, subs, replies, seen, asked, i) && i < |subs|
    requires !Considered(kind, subs[i], replies[i]) || !replies[i].listOk
    ensures ReadSoFar(t, kind, subs, replies, seen, asked, i + 1)
    ensures Collect(seen, kind, subs[..i + 1], asked[..i + 1], now)
         == SubscriptionStep(seen, Collect(seen, kind, subs[..i], asked[..i], now), kind, subs[i], replies[i], now)
  {
    hide SubscriptionStep, ReadsAs, SameAnswer;
    CollectNext(seen, kind, subs, asked, now, i);
  }

  /** An entry whose watermarks are read and compared. */
  lemma ReadEntry(t: Tables, kind: Kind, subs: seq<Subscription>, replies: seq<SubReplies>, now: int, seen: Tables,
                  asked: seq<SubReplies>, i: nat, states: seq<NotificationState>, found: Findings)
    returns (seen': Tables, asked': seq<SubReplies>)
    requires ReadSoFar(t, kind, subs, replies, seen, asked, i) && i < |subs| && OneEntryEach(subs)
    requires Usable(replies[i]) && Lists(t.marks, subs[i].watchlistId, states)
    requires IsDetection(subs[i].watchlistId, replies[i].item.item, replies[i].history.rows, KeyLookup(ByKey(states)),
                         now, found)
    requires AllClear(t.marks, subs, replies) ==> seen == t && asked == replies
    ensures ReadSoFar(t, kind, subs, replies, seen', asked', i + 1)
    ensures AllClear(t.marks, subs, replies) ==> seen' == t && asked' == replies
    ensures SameAnswer(replies[i], asked'[i]) && Usable(asked'[i])
      && found == FindingsOf(seen'.marks, subs[i], asked'[i], now)
    ensures InitWrites(found, asked'[i]) == InitWrites(found, replies[i])
    ensures Collect(seen', kind, subs[..i], asked'[..i], now) == Collect(seen, kind, subs[..i], asked[..i], now)
    ensures Collect(seen', kind, subs[..i + 1], asked'[..i + 1], now)
         == SubscriptionStep(seen', Collect(seen, kind, subs[..i], asked[..i], now), kind, subs[i], asked'[i], now)
  {
    hide SubscriptionStep, Collect, ReadsAs, SameAnswer, IsDetection, Lists, FindingsOf, ClearReply, FirstRead, ByKey;
    var view', r' := DetectedAsRead(t.marks, seen.marks, subs[i], replies[i], states, now, found);
    ReadNext(t, kind, subs, replies, now, seen.marks, asked, i, view', r');
    seen', asked' := Tables(view', t.digests), asked[i := r'];
    assert seen == Tables(seen.marks, t.digests);
    CollectNext(seen', kind, subs, asked', now, i);
    SameWrites(replies[i], r', found);
  }

  lemma SameWrites(r: SubReplies, r': SubReplies, found: Findings)
    requires SameAnswer(r, r')
    ensures InitWrites(found, r') == InitWrites(found, r)
  {
  }

  lemma StoppedAt(t: Tables, kind: Kind, subs: seq<Subscription>, replies: seq<SubReplies>, now: int, seen: Tables,
                  asked: seq<SubReplies>, n: nat)
    requires ReadSoFar(t, kind, subs, replies, seen, asked, n) && Collect(seen, kind, subs[..n], asked[..n], now).failed
    ensures ActsOn(t, kind, subs, replies, now, seen, asked)
    ensures Collect(seen, kind, subs, asked, now) == Collect(seen, kind, subs[..n], asked[..n], now)
  {
    hide SubscriptionStep, SameAnswer, FirstRead;
    CollectStopped(seen, kind, subs, asked, now, n);
  }

  lemma AllRead(t: Tables, kind: Kind, subs: seq<Subscription>, replies: seq<SubReplies>, now: int, seen: Tables,
                asked: seq<SubReplies>)
    requires ReadSoFar(t, kind, subs, replies, seen, asked, |subs|)
    ensures ActsOn(t, kind, subs, replies, now, seen, asked)
  {
    hide SubscriptionStep, SameAnswer, FirstRead, Collect;
  }
}
