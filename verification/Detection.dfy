/** Which keys of an item's history call for an initial watermark, which for a notification, and which for nothing. */
module Detection {
  import opened Options
  import opened GoStrings
  import opened Calendar
  import opened Grouping

  datatype Item = Item(id: string, name: string, imageURL: string, game: string, source: string,
                       externalId: string, isActive: bool)

  /** The primary key of watchlist_notification_state. */
  datatype MarkKey = MarkKey(watchlistId: int, source: string, gameMode: string)

  /** A watermark: the last notified day and value, and when an email last carried the key. */
  datatype Mark = Mark(day: Option<nat>, value: Option<int>, sentAt: Option<int>)

  type Marks = map<MarkKey, Mark>

  datatype NotificationState = NotificationState(key: MarkKey, mark: Mark)

  datatype Change = Change(itemId: string, itemName: string, imageURL: string, game: string, source: string,
                           gameMode: string, currency: string, current: int, previous: int,
                           collectedOn: string, collectedAt: int, absolute: int)

  datatype Findings = Findings(changes: seq<Change>, inits: seq<NotificationState>, sends: seq<NotificationState>)

  const NOTHING := Findings([], [], [])

  // ----- the decision for one key -----

  datatype Decision = Skip | Init(day: nat, value: int) | Send(day: nat, value: int, previous: int)

  /** Compares a key's newest row with its watermark. */
  function Decide(group: seq<PriceRow>, current: Option<Mark>): Decision
    requires group != []
  {
    match ParseDate(group[0].collectedOn)
    case None => Skip
    case Some(day) =>
      if current.None? || current.value.day.None? then Init(day, group[0].value)
      else
        var (lastDay, lastValue) := (current.value.day.value, current.value.value);
        if day > lastDay then
          Send(day, group[0].value, if |group| > 1 then group[1].value
                                    else if lastValue.Some? then lastValue.value else group[0].value)
        else if day == lastDay && lastValue.Some? && lastValue.value != group[0].value then
          Send(day, group[0].value, lastValue.value)
        else Skip
  }

  /** A watermark write moves forward: a later day, or the same day with another value. */
  predicate Advances(current: Option<Mark>, next: Mark) {
    && next.day.Some? && next.value.Some?
    && (current.None? || current.value.day.None?
        || next.day.value > current.value.day.value
        || (next.day == current.value.day && current.value.value.Some? && current.value.value != next.value))
  }

  /** The watermark already holds the row's day and value. */
  predicate CaughtUp(row: PriceRow, current: Option<Mark>) {
    current.Some? && current.value.day == ParseDate(row.collectedOn) && current.value.value == Some(row.value)
  }

  /** A decision to write always advances, and once written there is nothing left to decide. */
  lemma DecisionAdvances(group: seq<PriceRow>, current: Option<Mark>, next: Mark)
    requires group != [] && !Decide(group, current).Skip?
    requires next.day == Some(Decide(group, current).day) && next.value == Some(Decide(group, current).value)
    ensures Advances(current, next) && CaughtUp(group[0], Some(next))
    ensures Decide(group, Some(next)) == Skip
  {
  }

  /** Skipping means: unreadable date, watermark on a later day, or the same day with no other value known. */
  lemma SkipMeans(group: seq<PriceRow>, current: Option<Mark>)
    requires group != []
    ensures Decide(group, current) == Skip <==>
      var day := ParseDate(group[0].collectedOn);
      (day.Some? ==>
        && current.Some? && current.value.day.Some?
        && (|| day.value < current.value.day.value
            || (day == current.value.day
                && (current.value.value.None? || current.value.value == Some(group[0].value)))))
  {
  }

  /** Deciding on the visible prefix of a key's history: same verdict, day and value as on all of it.
      Only the reported previous value can differ, and exactly when a new day's row is the only one visible,
      the history has another, and that other row is not what the fallback reports. */
  lemma PrefixDecides(window: seq<PriceRow>, all: seq<PriceRow>, current: Option<Mark>)
    requires window != [] && window <= all
    ensures var (d, e) := (Decide(window, current), Decide(all, current));
      && (d.Skip? <==> e.Skip?) && (d.Init? <==> e.Init?)
      && (!d.Skip? ==> d.day == e.day && d.value == e.value)
      && (d != e <==>
          && d.Send? && d.day > current.value.day.value
          && |window| == 1 && |all| > 1
          && all[1].value != (if current.value.value.Some? then current.value.value.value else all[0].value))
  {
    assert window[0] == all[0];
    assert |window| > 1 ==> window[1] == all[1];
  }

  // ----- detection over all groups -----

  /** The watermark of a (source, game mode) pair. */
  type Lookup = (string, string) -> Option<Mark>

  function StateFor(watchlistId: int, row: PriceRow, mark: Mark): NotificationState {
    NotificationState(MarkKey(watchlistId, row.source, row.gameMode), mark)
  }

  function ChangeFor(item: Item, row: PriceRow, previous: int): Change {
    Change(item.id, item.name, item.imageURL, item.game, row.source, row.gameMode, row.currency,
           row.value, previous, row.collectedOn, row.collectedAt, row.value - previous)
  }

  function Current(current: Lookup, row: PriceRow): Option<Mark> {
    current(row.source, row.gameMode)
  }

  function Add(found: Findings, watchlistId: int, item: Item, row: PriceRow, decision: Decision, now: int): Findings {
    match decision
    case Skip => found
    case Init(day, value) =>
      found.(inits := found.inits + [StateFor(watchlistId, row, Mark(Some(day), Some(value), None))])
    case Send(day, value, previous) =>
      found.(changes := found.changes + [ChangeFor(item, row, previous)],
             sends := found.sends + [StateFor(watchlistId, row, Mark(Some(day), Some(value), Some(now)))])
  }

  function Detected(watchlistId: int, item: Item, groups: seq<seq<PriceRow>>, current: Lookup, now: int): Findings
    requires NoEmptyGroup(groups)
  {
    if groups == [] then NOTHING
    else
      var group := groups[|groups| - 1];
      Add(Detected(watchlistId, item, groups[..|groups| - 1], current, now), watchlistId, item, group[0],
          Decide(group, Current(current, group[0])), now)
  }

  /** The findings of some grouping of the history. */
  ghost predicate IsDetection(watchlistId: int, item: Item, history: seq<PriceRow>, current: Lookup, now: int,
                              found: Findings) {
    exists groups :: IsGrouping(history, groups) && found == Detected(watchlistId, item, groups, current, now)
  }

  // ----- the method -----

  /** stateByKey: the last state listed under a text key. */
  function ByKey(states: seq<NotificationState>): map<string, Mark> {
    if states == [] then map[]
    else
      var last := states[|states| - 1];
      ByKey(states[..|states| - 1])[StateKey(last.key.source, last.key.gameMode) := last.mark]
  }

  function KeyLookup(byKey: map<string, Mark>): Lookup {
    (source, gameMode) => Get(byKey, StateKey(source, gameMode))
  }

  /** The states by text key, a later one replacing an earlier one. */
  method IndexStates(existing: seq<NotificationState>) returns (stateByKey: map<string, Mark>)
    ensures stateByKey == ByKey(existing)
  {
    stateByKey := map[];
    for i := 0 to |existing|
      invariant stateByKey == ByKey(existing[..i])
    {
      assert existing[..i + 1][..i] == existing[..i];
      var state := existing[i];
      stateByKey := stateByKey[StateKey(state.key.source, state.key.gameMode) := state.mark];
    }
    assert existing[..|existing|] == existing;
  }

  /** The loop over the groups. */
  method DetectInGroups(watchlistId: int, item: Item, groups: seq<seq<PriceRow>>, stateByKey: map<string, Mark>,
                        now: int)
    returns (changes: seq<Change>, inits: seq<NotificationState>, sends: seq<NotificationState>)
    requires NoEmptyGroup(groups)
    ensures Findings(changes, inits, sends) == Detected(watchlistId, item, groups, KeyLookup(stateByKey), now)
  {
    hide ParseDate, KeyOf;
    changes, inits, sends := [], [], [];
    for i := 0 to |groups|
      invariant Findings(changes, inits, sends) == Detected(watchlistId, item, groups[..i], KeyLookup(stateByKey), now)
    {
      assert groups[..i + 1][..i] == groups[..i];
      var group := groups[i];
      var latest := group[0];
      var currentState := Get(stateByKey, StateKey(latest.source, latest.gameMode));
      var parsed := ParseDate(latest.collectedOn);
      if parsed.None? {
        continue;
      }
      var latestDay := parsed.value;
      if currentState.None? || currentState.value.day.None? {
        inits := inits + [StateFor(watchlistId, latest, Mark(Some(latestDay), Some(latest.value), None))];
        continue;
      }
      var (lastDay, lastValue) := (currentState.value.day.value, currentState.value.value);
      var shouldSend := latestDay > lastDay;
      if !shouldSend && lastValue.Some? && latestDay == lastDay {
        shouldSend := latest.value != lastValue.value;
      }
      if !shouldSend {
        continue;
      }
      var previous := latest.value;
      if latestDay == lastDay && lastValue.Some? {
        previous := lastValue.value;
      } else if |group| > 1 {
        previous := group[1].value;
      } else if lastValue.Some? {
        previous := lastValue.value;
      }
      changes := changes + [ChangeFor(item, latest, previous)];
      sends := sends + [StateFor(watchlistId, latest, Mark(Some(latestDay), Some(latest.value), Some(now)))];
    }
    assert groups[..|groups|] == groups;
  }

  method DetectPriceAlertChanges(watchlistId: int, item: Item, history: seq<PriceRow>,
                                 existing: seq<NotificationState>, now: int)
    returns (changes: seq<Change>, inits: seq<NotificationState>, sends: seq<NotificationState>)
    ensures IsDetection(watchlistId, item, history, KeyLookup(ByKey(existing)), now, Findings(changes, inits, sends))
  {
    var stateByKey := IndexStates(existing);
    var grouped := GroupPriceHistory(history);
    changes, inits, sends := DetectInGroups(watchlistId, item, grouped, stateByKey, now);
  }

  // ----- text keys against the table -----

  /** The rows of one watchlist entry, each once, in any order. */
  ghost predicate Lists(marks: Marks, watchlistId: int, states: seq<NotificationState>) {
    && DistinctKeys(states)
    && (forall s | s in states :: s.key in marks && s.key.watchlistId == watchlistId && marks[s.key] == s.mark)
    && (forall k | k in marks && k.watchlistId == watchlistId :: NotificationState(k, marks[k]) in states)
  }

  function TableLookup(marks: Marks, watchlistId: int): Lookup {
    (source, gameMode) => Get(marks, MarkKey(watchlistId, source, gameMode))
  }

  lemma {:induction false} ByKeyHolds(states: seq<NotificationState>, key: string)
    ensures key in ByKey(states) ==>
      exists s: NotificationState ::
        s in states && StateKey(s.key.source, s.key.gameMode) == key && ByKey(states)[key] == s.mark
    ensures forall s | s in states && StateKey(s.key.source, s.key.gameMode) == key :: key in ByKey(states)
  {
    if states != [] {
      var (front, last) := (states[..|states| - 1], states[|states| - 1]);
      ByKeyHolds(front, key);
      assert states == front + [last];
      assert last in states;
      assert forall s :: s in states <==> s in front || s == last;
    }
  }

  /** When no other key of the entry has the same text, looking a key up by its text finds exactly its table row. */
  lemma TextKeysSuffice(marks: Marks, watchlistId: int, states: seq<NotificationState>, source: string,
                        gameMode: string)
    requires Lists(marks, watchlistId, states)
    requires forall k | k in marks && k.watchlistId == watchlistId :: !Ambiguous(k.source, k.gameMode, source, gameMode)
    ensures KeyLookup(ByKey(states))(source, gameMode) == TableLookup(marks, watchlistId)(source, gameMode)
  {
    var (text, k) := (StateKey(source, gameMode), MarkKey(watchlistId, source, gameMode));
    ByKeyHolds(states, text);
    if k in marks {
      assert NotificationState(k, marks[k]) in states;
    }
    if text in ByKey(states) {
      var s: NotificationState :| s in states && StateKey(s.key.source, s.key.gameMode) == text
        && ByKey(states)[text] == s.mark;
      assert s.key == k;
    }
  }

  /** A listing of an entry's rows that ends with a chosen one. */
  lemma ListedLast(marks: Marks, k: MarkKey) returns (states: seq<NotificationState>)
    requires k in marks
    ensures Lists(marks, k.watchlistId, states) && states != []
      && states[|states| - 1] == NotificationState(k, marks[k])
  {
    states := [];
    var rest := (set x | x in marks && x.watchlistId == k.watchlistId) - {k};
    while rest != {}
      invariant forall x | x in rest :: x in marks && x.watchlistId == k.watchlistId && x != k
      invariant forall s | s in states ::
        s.key in marks && s.key.watchlistId == k.watchlistId && marks[s.key] == s.mark && s.key !in rest && s.key != k
      invariant forall x | x in marks && x.watchlistId == k.watchlistId ::
        x == k || x in rest || NotificationState(x, marks[x]) in states
      invariant DistinctKeys(states)
      decreases |rest|
    {
      var x :| x in rest;
      states := states + [NotificationState(x, marks[x])];
      rest := rest - {x};
    }
    states := states + [NotificationState(k, marks[k])];
  }

  /** The engine reads a key's own row, whatever order the rows are listed in, exactly when every row of the entry
      with the same text holds the same watermark. */
  lemma TextLookupExactIff(marks: Marks, watchlistId: int, source: string, gameMode: string)
    ensures (forall states | Lists(marks, watchlistId, states) ::
               KeyLookup(ByKey(states))(source, gameMode) == TableLookup(marks, watchlistId)(source, gameMode))
      <==> (forall k | k in marks && k.watchlistId == watchlistId
            && StateKey(k.source, k.gameMode) == StateKey(source, gameMode) ::
              TableLookup(marks, watchlistId)(source, gameMode) == Some(marks[k]))
  {
    var (text, own) := (StateKey(source, gameMode), TableLookup(marks, watchlistId)(source, gameMode));
    if forall states | Lists(marks, watchlistId, states) :: KeyLookup(ByKey(states))(source, gameMode) == own {
      forall k | k in marks && k.watchlistId == watchlistId && StateKey(k.source, k.gameMode) == text
        ensures own == Some(marks[k])
      {
        var states := ListedLast(marks, k);
        assert KeyLookup(ByKey(states))(source, gameMode) == own;
      }
    }
    if forall k | k in marks && k.watchlistId == watchlistId && StateKey(k.source, k.gameMode) == text ::
      own == Some(marks[k]) {
      forall states | Lists(marks, watchlistId, states)
        ensures KeyLookup(ByKey(states))(source, gameMode) == own
      {
        ByKeyHolds(states, text);
        if own.Some? {
          assert NotificationState(MarkKey(watchlistId, source, gameMode), own.value) in states;
        }
      }
    }
  }

  /** What goes wrong otherwise: with another row of the same text on an earlier day, the engine sends a key again
      whose watermark already holds the newest day and value, and writes the same pair over it. */
  lemma CollidedKeyRepeats(marks: Marks, k: MarkKey, other: MarkKey, group: seq<PriceRow>, now: int)
    returns (states: seq<NotificationState>)
    requires k in marks && other in marks && k != other && k.watchlistId == other.watchlistId
    requires StateKey(k.source, k.gameMode) == StateKey(other.source, other.gameMode)
    requires group != [] && group[0].source == k.source && group[0].gameMode == k.gameMode
      && ParseDate(group[0].collectedOn).Some?
    requires CaughtUp(group[0], Some(marks[k])) && marks[other].day.Some? && marks[other].day.value < marks[k].day.value
    ensures Lists(marks, k.watchlistId, states)
    ensures var decision := Decide(group, KeyLookup(ByKey(states))(k.source, k.gameMode));
      && decision.Send? && Some(decision.day) == marks[k].day && Some(decision.value) == marks[k].value
      && !Advances(Some(marks[k]), Mark(Some(decision.day), Some(decision.value), Some(now)))
  {
    hide ParseDate;
    states := ListedLast(marks, other);
  }

  lemma {:induction false} DetectionReads(watchlistId: int, item: Item, groups: seq<seq<PriceRow>>, a: Lookup,
                                          b: Lookup, now: int)
    requires NoEmptyGroup(groups)
    requires forall g: seq<PriceRow> | g in groups :: Current(a, g[0]) == Current(b, g[0])
    ensures Detected(watchlistId, item, groups, a, now) == Detected(watchlistId, item, groups, b, now)
  {
    if groups != [] {
      var front := groups[..|groups| - 1];
      assert forall g | g in front :: g in groups;
      assert groups[|groups| - 1] in groups;
      DetectionReads(watchlistId, item, front, a, b, now);
    }
  }

  /** With one row per key and day, any permutation of the history yields the same findings. */
  lemma DetectionIgnoresOrder(watchlistId: int, item: Item, h: seq<PriceRow>, h': seq<PriceRow>, current: Lookup,
                              now: int, a: Findings, b: Findings)
    requires multiset(h) == multiset(h') && OneRowPerDay(h)
    requires IsDetection(watchlistId, item, h, current, now, a) && IsDetection(watchlistId, item, h', current, now, b)
    ensures a == b
  {
    var groups :| IsGrouping(h, groups) && a == Detected(watchlistId, item, groups, current, now);
    var groups' :| IsGrouping(h', groups') && b == Detected(watchlistId, item, groups', current, now);
    hide IsGrouping, OneRowPerDay;
    GroupingUnique(h, h', groups, groups');
  }

  // ----- what the findings say -----

  /** Changes and state updates run in parallel: each change has the update of its own key. */
  ghost predicate Paired(found: Findings) {
    && |found.changes| == |found.sends|
    && forall i | 0 <= i < |found.sends| ::
         && found.changes[i].source == found.sends[i].key.source
         && found.changes[i].gameMode == found.sends[i].key.gameMode
         && Some(found.changes[i].current) == found.sends[i].mark.value
         && ParseDate(found.changes[i].collectedOn) == found.sends[i].mark.day
         && found.changes[i].absolute == found.changes[i].current - found.changes[i].previous
  }

  ghost predicate AllAdvance(states: seq<NotificationState>, watchlistId: int, current: Lookup) {
    forall s | s in states ::
      s.key.watchlistId == watchlistId && Advances(current(s.key.source, s.key.gameMode), s.mark)
  }

  function KeysIn(states: seq<NotificationState>): set<MarkKey> {
    set s | s in states :: s.key
  }

  ghost predicate DistinctKeys(states: seq<NotificationState>) {
    forall i, j | 0 <= i < j < |states| :: states[i].key != states[j].key
  }

  /** An update of the group's pair to the day and value of its newest row. */
  predicate FromGroup(s: NotificationState, g: seq<PriceRow>) {
    g != [] && g[0].source == s.key.source && g[0].gameMode == s.key.gameMode && CaughtUp(g[0], Some(s.mark))
  }

  ghost predicate OfGroups(states: seq<NotificationState>, groups: seq<seq<PriceRow>>) {
    forall s | s in states :: exists g | g in groups :: FromGroup(s, g)
  }

  ghost predicate AscendingGroups(groups: seq<seq<PriceRow>>)
    requires NoEmptyGroup(groups)
  {
    forall i, j | 0 <= i < j < |groups| :: Less(GroupKey(groups[i]), GroupKey(groups[j]))
  }

  /** Every update advances its watermark, no key is updated twice, and changes pair with updates. */
  ghost predicate Sound(found: Findings, watchlistId: int, groups: seq<seq<PriceRow>>, current: Lookup)
    requires NoEmptyGroup(groups)
  {
    && Paired(found)
    && AllAdvance(found.inits, watchlistId, current) && AllAdvance(found.sends, watchlistId, current)
    && OfGroups(found.inits, groups) && OfGroups(found.sends, groups)
    && DistinctKeys(found.inits) && DistinctKeys(found.sends) && KeysIn(found.inits) !! KeysIn(found.sends)
  }

  lemma {:induction false} FindingsSound(watchlistId: int, item: Item, groups: seq<seq<PriceRow>>, current: Lookup,
                                         now: int)
    requires NoEmptyGroup(groups) && AscendingGroups(groups)
    ensures Sound(Detected(watchlistId, item, groups, current, now), watchlistId, groups, current)
  {
    hide ParseDate, GroupKey;
    if groups != [] {
      var (front, group) := (groups[..|groups| - 1], groups[|groups| - 1]);
      FindingsSound(watchlistId, item, front, current, now);
      var before := Detected(watchlistId, item, front, current, now);
      GroupsGrow(before.inits, groups);
      GroupsGrow(before.sends, groups);
      NewKey(groups, before, watchlistId);
      SoundAdd(before, watchlistId, item, groups, current, now);
    }
  }

  lemma SoundAdd(before: Findings, watchlistId: int, item: Item, groups: seq<seq<PriceRow>>, current: Lookup, now: int)
    requires groups != [] && NoEmptyGroup(groups) && Sound(before, watchlistId, groups, current)
    requires var row := groups[|groups| - 1][0];
      MarkKey(watchlistId, row.source, row.gameMode) !in KeysIn(before.inits) + KeysIn(before.sends)
    ensures var group := groups[|groups| - 1];
      Sound(Add(before, watchlistId, item, group[0], Decide(group, Current(current, group[0])), now), watchlistId,
            groups, current)
  {
    hide ParseDate, GroupKey;
    var group := groups[|groups| - 1];
    var decision := Decide(group, Current(current, group[0]));
    if !decision.Skip? {
      var mark := Mark(Some(decision.day), Some(decision.value), if decision.Init? then None else Some(now));
      var state := StateFor(watchlistId, group[0], mark);
      DecisionAdvances(group, Current(current, group[0]), mark);
      GroupsGain(if decision.Init? then before.inits else before.sends, groups, watchlistId, mark);
      assert KeysIn(before.inits + [state]) == KeysIn(before.inits) + {state.key};
      assert KeysIn(before.sends + [state]) == KeysIn(before.sends) + {state.key};
    }
  }

  lemma GroupsGrow(states: seq<NotificationState>, groups: seq<seq<PriceRow>>)
    requires groups != [] && NoEmptyGroup(groups) && OfGroups(states, groups[..|groups| - 1])
    ensures OfGroups(states, groups)
  {
    assert forall g: seq<PriceRow> | g in groups[..|groups| - 1] :: g in groups;
  }

  lemma GroupsGain(states: seq<NotificationState>, groups: seq<seq<PriceRow>>, watchlistId: int, mark: Mark)
    requires groups != [] && NoEmptyGroup(groups) && OfGroups(states, groups)
    requires CaughtUp(groups[|groups| - 1][0], Some(mark))
    ensures OfGroups(states + [StateFor(watchlistId, groups[|groups| - 1][0], mark)], groups)
  {
    assert groups[|groups| - 1] in groups
      && FromGroup(StateFor(watchlistId, groups[|groups| - 1][0], mark), groups[|groups| - 1]);
  }

  lemma NewKey(groups: seq<seq<PriceRow>>, before: Findings, watchlistId: int)
    requires groups != [] && NoEmptyGroup(groups) && AscendingGroups(groups)
    requires var front := groups[..|groups| - 1]; OfGroups(before.inits, front) && OfGroups(before.sends, front)
    ensures var last := groups[|groups| - 1][0];
      MarkKey(watchlistId, last.source, last.gameMode) !in KeysIn(before.inits) + KeysIn(before.sends)
  {
    var (front, last) := (groups[..|groups| - 1], groups[|groups| - 1][0]);
    forall s | s in before.inits || s in before.sends
      ensures s.key != MarkKey(watchlistId, last.source, last.gameMode)
    {
      var g :| g in front && FromGroup(s, g);
      var i :| 0 <= i < |front| && front[i] == g;
      LessIrreflexive(KeyOf(last));
      assert Less(GroupKey(groups[i]), GroupKey(groups[|groups| - 1]));
    }
  }

  // ----- detecting again -----

  type Pairs = set<(string, string)>

  function LeftStates(states: seq<NotificationState>, done: Pairs): seq<NotificationState> {
    if states == [] then []
    else
      var last := states[|states| - 1];
      LeftStates(states[..|states| - 1], done) + if (last.key.source, last.key.gameMode) in done then [] else [last]
  }

  function LeftChanges(changes: seq<Change>, done: Pairs): seq<Change> {
    if changes == [] then []
    else
      var last := changes[|changes| - 1];
      LeftChanges(changes[..|changes| - 1], done) + if (last.source, last.gameMode) in done then [] else [last]
  }

  /** The findings about keys that are not done. */
  function Left(found: Findings, done: Pairs): Findings {
    Findings(LeftChanges(found.changes, done), LeftStates(found.inits, done), LeftStates(found.sends, done))
  }

  lemma LeftAdds(found: Findings, done: Pairs, watchlistId: int, item: Item, row: PriceRow, decision: Decision,
                 now: int)
    ensures Left(Add(found, watchlistId, item, row, decision, now), done) ==
      if (row.source, row.gameMode) in done then Left(found, done)
      else Add(Left(found, done), watchlistId, item, row, decision, now)
  {
    var added := Add(found, watchlistId, item, row, decision, now);
    if decision.Init? {
      assert added.inits[..|added.inits| - 1] == found.inits;
    } else if decision.Send? {
      assert added.sends[..|added.sends| - 1] == found.sends;
      assert added.changes[..|added.changes| - 1] == found.changes;
    }
  }

  /** After some keys have caught up and the others have not moved, the same history yields exactly the findings
      about the others, with the same current and previous values. */
  lemma {:induction false} DetectAgain(watchlistId: int, item: Item, groups: seq<seq<PriceRow>>,
                                       before: Lookup, after: Lookup, done: Pairs, now: int)
    requires NoEmptyGroup(groups)
    requires forall g: seq<PriceRow> | g in groups :: if (g[0].source, g[0].gameMode) in done
                                       then CaughtUp(g[0], Current(after, g[0]))
                                       else Current(after, g[0]) == Current(before, g[0])
    ensures Detected(watchlistId, item, groups, after, now)
      == Left(Detected(watchlistId, item, groups, before, now), done)
  {
    hide ParseDate;
    if groups != [] {
      var (front, group) := (groups[..|groups| - 1], groups[|groups| - 1]);
      assert forall g | g in front :: g in groups;
      assert group in groups;
      DetectAgain(watchlistId, item, front, before, after, done, now);
      LeftAdds(Detected(watchlistId, item, front, before, now), done, watchlistId, item, group[0],
               Decide(group, Current(before, group[0])), now);
    }
  }

  // ----- exactly what is found -----

  /** The first sight of a key whose newest row is dated: its day and value are recorded, without a time of sending. */
  ghost predicate RecordsFirst(s: NotificationState, watchlistId: int, g: seq<PriceRow>, current: Lookup) {
    && g != [] && ParseDate(g[0].collectedOn).Some?
    && var last := current(g[0].source, g[0].gameMode);
    && (last.None? || last.value.day.None?)
    && s == NotificationState(MarkKey(watchlistId, g[0].source, g[0].gameMode),
                              Mark(ParseDate(g[0].collectedOn), Some(g[0].value), None))
  }

  /** A change to the newest row of a key that is on record: from the row before it, or from the recorded value when
      there is none, on a later day; from the recorded value, when that differs, on the recorded day. */
  ghost predicate TellsChange(c: Change, s: NotificationState, watchlistId: int, item: Item, g: seq<PriceRow>,
                              current: Lookup, now: int) {
    && g != [] && var (row, day, last) := (g[0], ParseDate(g[0].collectedOn), current(g[0].source, g[0].gameMode));
    && day.Some? && last.Some? && last.value.day.Some?
    && s == NotificationState(MarkKey(watchlistId, row.source, row.gameMode), Mark(day, Some(row.value), Some(now)))
    && c.itemId == item.id && c.itemName == item.name && c.imageURL == item.imageURL && c.game == item.game
    && c.source == row.source && c.gameMode == row.gameMode && c.currency == row.currency && c.current == row.value
    && c.collectedOn == row.collectedOn && c.collectedAt == row.collectedAt && c.absolute == c.current - c.previous
    && (|| (day.value > last.value.day.value
            && c.previous == if |g| > 1 then g[1].value
                             else if last.value.value.Some? then last.value.value.value
                             else row.value)
        || (day == last.value.day && last.value.value.Some? && last.value.value.value != row.value
            && c.previous == last.value.value.value))
  }

  ghost predicate HoldsPair(found: Findings, c: Change, s: NotificationState) {
    exists i :: 0 <= i < |found.changes| && i < |found.sends| && found.changes[i] == c && found.sends[i] == s
  }

  lemma AddExactly(before: Findings, watchlistId: int, item: Item, g: seq<PriceRow>, current: Lookup, now: int)
    requires g != [] && |before.changes| == |before.sends|
    ensures var after := Add(before, watchlistId, item, g[0], Decide(g, Current(current, g[0])), now);
      && |after.changes| == |after.sends|
      && (forall s :: s in after.inits <==> s in before.inits || RecordsFirst(s, watchlistId, g, current))
      && forall c, s :: HoldsPair(after, c, s) <==>
        HoldsPair(before, c, s) || TellsChange(c, s, watchlistId, item, g, current, now)
  {
    hide ParseDate;
    var decision := Decide(g, Current(current, g[0]));
    var after := Add(before, watchlistId, item, g[0], decision, now);
    if decision.Send? {
      var (c, s) := (after.changes[|before.changes|], after.sends[|before.sends|]);
      assert TellsChange(c, s, watchlistId, item, g, current, now);
      forall c', s' | TellsChange(c', s', watchlistId, item, g, current, now)
        ensures c' == c && s' == s
      {
      }
      PairAppended(before, after, c, s);
    }
  }

  lemma PairAppended(before: Findings, after: Findings, c: Change, s: NotificationState)
    requires |before.changes| == |before.sends| && after.changes == before.changes + [c]
      && after.sends == before.sends + [s]
    ensures forall c', s' :: HoldsPair(after, c', s') <==> HoldsPair(before, c', s') || (c' == c && s' == s)
  {
    forall c', s'
      ensures HoldsPair(after, c', s') <==> HoldsPair(before, c', s') || (c' == c && s' == s)
    {
      if i :| 0 <= i < |before.changes| && before.changes[i] == c' && before.sends[i] == s' {
        assert after.changes[i] == c' && after.sends[i] == s';
      }
      assert after.changes[|before.changes|] == c && after.sends[|before.sends|] == s;
    }
  }

  /** A detection records exactly the first sights among the groups and tells exactly their changes, each beside the
      update of its key. */
  lemma {:induction false} DetectedExactly(watchlistId: int, item: Item, groups: seq<seq<PriceRow>>, current: Lookup,
                                           now: int)
    requires NoEmptyGroup(groups)
    ensures var found := Detected(watchlistId, item, groups, current, now);
      && |found.changes| == |found.sends|
      && (forall s :: s in found.inits <==> exists g :: g in groups && RecordsFirst(s, watchlistId, g, current))
      && forall c, s :: HoldsPair(found, c, s)
                        <==> exists g :: g in groups && TellsChange(c, s, watchlistId, item, g, current, now)
  {
    hide RecordsFirst, TellsChange, HoldsPair, Add, Decide;
    if groups == [] {
      NothingHeld();
    } else {
      var (front, g) := (groups[..|groups| - 1], groups[|groups| - 1]);
      DetectedExactly(watchlistId, item, front, current, now);
      AddExactly(Detected(watchlistId, item, front, current, now), watchlistId, item, g, current, now);
      assert groups == front + [g];
      assert forall h :: h in groups <==> h in front || h == g;
    }
  }

  lemma NothingHeld()
    ensures forall c, s :: !HoldsPair(NOTHING, c, s)
  {
  }
}
