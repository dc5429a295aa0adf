/** Detecting again on the same history after some of the planned watermarks have been written. */
module Redetection {
  import opened GoStrings
  import opened Calendar
  import opened Grouping
  import opened Detection
  import opened AlertTables
  import opened Dispatch

  /** The (source, game mode) pairs of one watchlist entry whose watermark was written. */
  function WrittenPairs(events: seq<Event>, watchlistId: int): Pairs {
    set e | e in events && e.MarkWritten? && e.state.key.watchlistId == watchlistId ::
      (e.state.key.source, e.state.key.gameMode)
  }

  predicate SameWatermark(a: NotificationState, b: NotificationState) {
    a.key == b.key && a.mark.day == b.mark.day && a.mark.value == b.mark.value
  }

  /** Every write to the entry's watermarks carries a finding, whatever time it is stamped with. */
  ghost predicate WritesFindings(events: seq<Event>, watchlistId: int, found: Findings) {
    forall e | e in events && e.MarkWritten? && e.state.key.watchlistId == watchlistId ::
      exists s | s in found.inits || s in found.sends :: SameWatermark(s, e.state)
  }

  lemma SamePairSameGroup(groups: seq<seq<PriceRow>>, g: seq<PriceRow>, h: seq<PriceRow>)
    requires NoEmptyGroup(groups) && AscendingGroups(groups) && g in groups && h in groups
    requires g[0].source == h[0].source && g[0].gameMode == h[0].gameMode
    ensures g == h
  {
    var i :| 0 <= i < |groups| && groups[i] == g;
    var j :| 0 <= j < |groups| && groups[j] == h;
    LessIrreflexive(GroupKey(g));
    assert GroupKey(g) == GroupKey(h);
    assert !(i < j) && !(j < i);
  }

  /** The row of a group after the writes: caught up when written, unchanged when not. */
  lemma GroupAfterWrites(t: Tables, events: seq<Event>, watchlistId: int, found: Findings,
                         groups: seq<seq<PriceRow>>, g: seq<PriceRow>)
    requires NoEmptyGroup(groups) && AscendingGroups(groups) && g in groups
    requires WritesOnce(events) && WritesFindings(events, watchlistId, found)
    requires OfGroups(found.inits, groups) && OfGroups(found.sends, groups)
    ensures var (before, after) := (TableLookup(t.marks, watchlistId),
                                    TableLookup(ApplyAll(t, events).marks, watchlistId));
      if (g[0].source, g[0].gameMode) in WrittenPairs(events, watchlistId)
      then CaughtUp(g[0], Current(after, g[0]))
      else Current(after, g[0]) == Current(before, g[0])
  {
    hide ParseDate, GroupKey;
    var key := MarkKey(watchlistId, g[0].source, g[0].gameMode);
    if WritesMark(events, key) {
      var e :| e in events && e.MarkWritten? && e.state.key == key;
      FinalMark(t, events, e.state);
      var s: NotificationState :| (s in found.inits || s in found.sends) && SameWatermark(s, e.state);
      var h :| h in groups && FromGroup(s, h);
      SamePairSameGroup(groups, g, h);
    } else {
      MarkUntouched(t, events, key);
    }
  }

  /** Detecting again finds exactly what was found before about the keys not yet written,
      with the same current and previous values. */
  lemma DetectAfterWrites(t: Tables, events: seq<Event>, watchlistId: int, item: Item,
                          groups: seq<seq<PriceRow>>, foundAt: int, now: int)
    requires NoEmptyGroup(groups) && AscendingGroups(groups) && WritesOnce(events)
    requires WritesFindings(events, watchlistId, Detected(watchlistId, item, groups, TableLookup(t.marks, watchlistId),
                                                          foundAt))
    ensures Detected(watchlistId, item, groups, TableLookup(ApplyAll(t, events).marks, watchlistId), now)
         == Left(Detected(watchlistId, item, groups, TableLookup(t.marks, watchlistId), now),
                 WrittenPairs(events, watchlistId))
  {
    hide WrittenPairs, ParseDate;
    var (before, after) := (TableLookup(t.marks, watchlistId), TableLookup(ApplyAll(t, events).marks, watchlistId));
    var found := Detected(watchlistId, item, groups, before, foundAt);
    FindingsSound(watchlistId, item, groups, before, foundAt);
    forall g: seq<PriceRow> | g in groups
      ensures if (g[0].source, g[0].gameMode) in WrittenPairs(events, watchlistId)
              then CaughtUp(g[0], Current(after, g[0])) else Current(after, g[0]) == Current(before, g[0])
    {
      GroupAfterWrites(t, events, watchlistId, found, groups, g);
    }
    DetectAgain(watchlistId, item, groups, before, after, WrittenPairs(events, watchlistId), now);
  }

  lemma {:induction false} NoStatesLeft(states: seq<NotificationState>, done: Pairs)
    requires forall s | s in states :: (s.key.source, s.key.gameMode) in done
    ensures LeftStates(states, done) == []
  {
    if states != [] {
      assert states[|states| - 1] in states && forall s | s in states[..|states| - 1] :: s in states;
      NoStatesLeft(states[..|states| - 1], done);
    }
  }

  lemma {:induction false} NoChangesLeft(changes: seq<Change>, done: Pairs)
    requires forall c | c in changes :: (c.source, c.gameMode) in done
    ensures LeftChanges(changes, done) == []
  {
    if changes != [] {
      assert changes[|changes| - 1] in changes && forall c | c in changes[..|changes| - 1] :: c in changes;
      NoChangesLeft(changes[..|changes| - 1], done);
    }
  }

  /** The pairs a detection asks to write do not depend on the time it is asked at. */
  lemma {:induction false} TimeOnlyStamps(watchlistId: int, item: Item, groups: seq<seq<PriceRow>>, current: Lookup,
                                          a: int, b: int)
    requires NoEmptyGroup(groups)
    ensures var (x, y) := (Detected(watchlistId, item, groups, current, a),
                           Detected(watchlistId, item, groups, current, b));
      && x.changes == y.changes && x.inits == y.inits && |x.sends| == |y.sends|
      && forall i | 0 <= i < |x.sends| :: SameWatermark(x.sends[i], y.sends[i])
  {
    hide ParseDate;
    if groups != [] {
      TimeOnlyStamps(watchlistId, item, groups[..|groups| - 1], current, a, b);
    }
  }

  /** Once every finding's key is written, so is every key found again. */
  lemma AllDone(events: seq<Event>, watchlistId: int, found: Findings, again: Findings)
    requires again.inits == found.inits && |again.sends| == |found.sends| && Paired(again)
    requires forall i | 0 <= i < |found.sends| :: SameWatermark(found.sends[i], again.sends[i])
    requires forall s | s in found.inits || s in found.sends ::
      s.key.watchlistId == watchlistId && WritesMark(events, s.key)
    ensures var done := WrittenPairs(events, watchlistId);
      && (forall s | s in again.inits || s in again.sends :: (s.key.source, s.key.gameMode) in done)
      && (forall c | c in again.changes :: (c.source, c.gameMode) in done)
  {
    hide ParseDate;
    var done := WrittenPairs(events, watchlistId);
    forall s | s in again.inits || s in again.sends
      ensures (s.key.source, s.key.gameMode) in done
    {
      if s in again.sends {
        var i :| 0 <= i < |again.sends| && again.sends[i] == s;
        assert found.sends[i] in found.sends && found.sends[i].key == s.key;
      }
      var e :| e in events && e.MarkWritten? && e.state.key == s.key;
      assert (e.state.key.source, e.state.key.gameMode) in done;
    }
    forall c | c in again.changes
      ensures (c.source, c.gameMode) in done
    {
      var i :| 0 <= i < |again.changes| && again.changes[i] == c;
      assert again.sends[i] in again.sends;
    }
  }

  /** Catching up: once every finding has been written, the same history yields nothing at all. */
  lemma NothingAfterAllWrites(t: Tables, events: seq<Event>, watchlistId: int, item: Item,
                              groups: seq<seq<PriceRow>>, foundAt: int, now: int)
    requires NoEmptyGroup(groups) && AscendingGroups(groups) && WritesOnce(events)
    requires var found := Detected(watchlistId, item, groups, TableLookup(t.marks, watchlistId), foundAt);
      && WritesFindings(events, watchlistId, found)
      && forall s | s in found.inits || s in found.sends :: WritesMark(events, s.key)
    ensures Detected(watchlistId, item, groups, TableLookup(ApplyAll(t, events).marks, watchlistId), now) == NOTHING
  {
    hide ParseDate, GroupKey;
    var current := TableLookup(t.marks, watchlistId);
    var (found, again) := (Detected(watchlistId, item, groups, current, foundAt),
                           Detected(watchlistId, item, groups, current, now));
    var done := WrittenPairs(events, watchlistId);
    DetectAfterWrites(t, events, watchlistId, item, groups, foundAt, now);
    FindingsSound(watchlistId, item, groups, current, now);
    FindingsSound(watchlistId, item, groups, current, foundAt);
    TimeOnlyStamps(watchlistId, item, groups, current, foundAt, now);
    hide Detected;
    AllDone(events, watchlistId, found, again);
    NoStatesLeft(again.inits, done);
    NoStatesLeft(again.sends, done);
    NoChangesLeft(again.changes, done);
  }

  /** The pairs of one entry among the first k updates of a list. */
  function PairsOfFirst(updates: seq<NotificationState>, k: nat, watchlistId: int): Pairs
    requires k <= |updates|
  {
    set s | s in updates[..k] && s.key.watchlistId == watchlistId :: (s.key.source, s.key.gameMode)
  }

  lemma DispatchWritesFirst(p: Pending, r: DispatchReplies, now: int, markDigest: bool, watchlistId: int)
    ensures WrittenPairs(DispatchEvents(p, r, now, markDigest), watchlistId)
      == PairsOfFirst(p.updates, Reached(p, r), watchlistId)
  {
    hide DispatchEvents, Reached;
    var (events, k) := (DispatchEvents(p, r, now, markDigest), Reached(p, r));
    MarksOfDispatch(p, r, now, markDigest);
    var (a, b) := (WrittenPairs(events, watchlistId), PairsOfFirst(p.updates, k, watchlistId));
    forall x | x in a
      ensures x in b
    {
      var e :| e in events && e.MarkWritten? && e.state.key.watchlistId == watchlistId
        && x == (e.state.key.source, e.state.key.gameMode);
      var i :| 0 <= i < k && e.state == StampedAt(p, r, now, i);
      assert p.updates[i] in p.updates[..k];
    }
    forall x | x in b
      ensures x in a
    {
      var s :| s in p.updates[..k] && s.key.watchlistId == watchlistId && x == (s.key.source, s.key.gameMode);
      var i :| 0 <= i < k && p.updates[i] == s;
      assert MarkWritten(StampedAt(p, r, now, i)) in events;
    }
  }

  /** A dispatch that stops part way: detecting again on the same history yields exactly the changes whose
      watermark write was not reached, unaltered; after a failed send it yields all of them. */
  lemma DetectAfterDispatch(t: Tables, p: Pending, r: DispatchReplies, markDigest: bool, watchlistId: int, item: Item,
                            groups: seq<seq<PriceRow>>, foundAt: int, now: int)
    requires NoEmptyGroup(groups) && AscendingGroups(groups) && DistinctKeys(p.updates)
    requires var found := Detected(watchlistId, item, groups, TableLookup(t.marks, watchlistId), foundAt);
      forall s | s in p.updates && s.key.watchlistId == watchlistId :: s in found.sends
    ensures Detected(watchlistId, item, groups,
                     TableLookup(ApplyAll(t, DispatchEvents(p, r, foundAt, markDigest)).marks, watchlistId), now)
         == Left(Detected(watchlistId, item, groups, TableLookup(t.marks, watchlistId), now),
                 PairsOfFirst(p.updates, Reached(p, r), watchlistId))
  {
    hide ParseDate, GroupKey, PairsOfFirst, WrittenPairs, DispatchEvents, Reached;
    var events := DispatchEvents(p, r, foundAt, markDigest);
    MarksOfDispatch(p, r, foundAt, markDigest);
    DispatchWritesOnce(p, r, foundAt, markDigest);
    DispatchWritesFirst(p, r, foundAt, markDigest, watchlistId);
    var found := Detected(watchlistId, item, groups, TableLookup(t.marks, watchlistId), foundAt);
    forall e | e in events && e.MarkWritten? && e.state.key.watchlistId == watchlistId
      ensures exists s | s in found.inits || s in found.sends :: SameWatermark(s, e.state)
    {
      var i :| 0 <= i < Reached(p, r) && e.state == StampedAt(p, r, foundAt, i);
      assert p.updates[i] in p.updates && SameWatermark(p.updates[i], e.state);
    }
    DetectAfterWrites(t, events, watchlistId, item, groups, foundAt, now);
  }
}
