/** The catalog's prices table: one row per item, source, game mode and day, and its limited, ordered read. */
module PriceTable {
  import opened Options
  import opened GoStrings
  import opened Calendar
  import opened Grouping

  /** The unique index uq_prices_item_source_mode_day. */
  datatype PriceKey = PriceKey(item: string, source: string, gameMode: string, day: Day)

  datatype PriceCell = PriceCell(value: int, currency: string, collectedAt: int)

  type Prices = map<PriceKey, PriceCell>

  type Instant = t: int | 0 <= t < END_OF_DAYS * DAY

  /** Go's zero time, 0001-01-01 00:00 UTC. */
  const ZERO_TIME: Instant := 366 * DAY

  /** The column value of collected_on: the UTC day of collectedOn, or of collectedAt when that is the zero time. */
  function CollectedDay(collectedOn: Instant, collectedAt: Instant): Day {
    if DayStart(collectedOn) == ZERO_TIME then DayOf(collectedAt) else DayOf(collectedOn)
  }

  function RowOf(prices: Prices, k: PriceKey): PriceRow
    requires k in prices
  {
    PriceRow(k.source, k.gameMode, prices[k].value, prices[k].currency, FormatDate(k.day), prices[k].collectedAt)
  }

  /** The WHERE clause: an item, and a game mode unless the filter is empty. */
  predicate Selected(k: PriceKey, item: string, gameMode: string) {
    k.item == item && (gameMode == "" || k.gameMode == gameMode)
  }

  /** ORDER BY collected_on DESC, collected_at DESC */
  predicate Before(prices: Prices, a: PriceKey, b: PriceKey)
    requires a in prices && b in prices
  {
    a.day > b.day || (a.day == b.day && prices[a].collectedAt > prices[b].collectedAt)
  }

  ghost predicate InOrder(prices: Prices, keys: seq<PriceKey>)
    requires forall k | k in keys :: k in prices
  {
    forall i, j | 0 <= i < j < |keys| :: !Before(prices, keys[j], keys[i])
  }

  /** Some order in which the database may return all selected rows. */
  ghost predicate Listing(prices: Prices, item: string, gameMode: string, keys: seq<PriceKey>) {
    && Distinct(keys)
    && (forall k :: k in keys <==> k in prices && Selected(k, item, gameMode))
    && InOrder(prices, keys)
  }

  function RowsOf(prices: Prices, keys: seq<PriceKey>): (rows: seq<PriceRow>)
    requires forall k | k in keys :: k in prices
    ensures |rows| == |keys|
    ensures forall i | 0 <= i < |keys| :: rows[i] == RowOf(prices, keys[i])
  {
    seq(|keys|, i requires 0 <= i < |keys| => RowOf(prices, keys[i]))
  }

  function Cut(n: nat, limit: int): nat {
    var limit := if limit <= 0 then 30 else limit;
    if limit < n then limit else n
  }

  class CatalogRepository {
    var prices: Prices

    constructor ()
      ensures prices == map[]
    {
      prices := map[];
    }

    method UpsertPriceHistory(item: string, source: string, gameMode: string, value: int, currency: string,
                              collectedOn: Instant, collectedAt: Instant)
      modifies this
      ensures prices == old(prices)[PriceKey(item, source, gameMode, CollectedDay(collectedOn, collectedAt)) :=
                                    PriceCell(value, currency, collectedAt)]
    {
      var day := DayOf(collectedOn);
      if day * DAY == ZERO_TIME {
        day := DayOf(collectedAt);
      }
      prices := prices[PriceKey(item, source, gameMode, day) := PriceCell(value, currency, collectedAt)];
    }

    /** The first rows of some listing of all selected rows: as many as the limit, thirty when it is not positive, or
        all when there are no more; each the stored row of another key, newest first, and none left out newer than one
        returned. */
    method GetPriceHistory(item: string, gameMode: string, limit: int) returns (history: seq<PriceRow>)
      ensures exists full ::
        Listing(prices, item, gameMode, full) && history == RowsOf(prices, full[..Cut(|full|, limit)])
      ensures var (all, bound) := (set k | k in prices && k.item == item && (gameMode == "" || k.gameMode == gameMode),
                                   if limit > 0 then limit else 30);
        |history| == if |all| < bound then |all| else bound
      ensures exists keys :: ShowsNewest(prices, item, gameMode, keys, history)
    {
      var keys: seq<PriceKey> := [];
      var rest := set k | k in prices && Selected(k, item, gameMode);
      while rest != {}
        invariant forall k | k in rest :: k !in keys
        invariant forall k :: k in keys || k in rest <==> k in prices && Selected(k, item, gameMode)
        invariant Distinct(keys) && InOrder(prices, keys)
        decreases |rest|
      {
        var k :| k in rest;
        ghost var keys0 := keys;
        keys := Insert(prices, keys, k);
        InsertMembersAndOrder(prices, keys0, k);
        rest := rest - {k};
      }
      assert Listing(prices, item, gameMode, keys);
      history := ReadRows(prices, keys[..Cut(|keys|, limit)]);
      hide Insert, InOrder, Selected, ShowsNewest;
      ListingCount(prices, item, gameMode, keys);
      CutShows(prices, item, gameMode, keys, Cut(|keys|, limit));
    }
  }

  /** On an earlier day than the other, or on its day and not collected after it. */
  predicate NoLater(prices: Prices, a: PriceKey, b: PriceKey)
    requires a in prices && b in prices
  {
    a.day < b.day || (a.day == b.day && prices[a].collectedAt <= prices[b].collectedAt)
  }

  lemma {:induction false} DistinctCount(keys: seq<PriceKey>)
    requires Distinct(keys)
    ensures |set k | k in keys| == |keys|
  {
    if keys != [] {
      var (front, last) := (keys[..|keys| - 1], keys[|keys| - 1]);
      DistinctCount(front);
      assert keys == front + [last];
      assert (set k | k in keys) == (set k | k in front) + {last};
    }
  }

  lemma ListingCount(prices: Prices, item: string, gameMode: string, keys: seq<PriceKey>)
    requires Listing(prices, item, gameMode, keys)
    ensures |set k | k in prices && k.item == item && (gameMode == "" || k.gameMode == gameMode)| == |keys|
  {
    DistinctCount(keys);
    assert (set k | k in keys) == set k | k in prices && k.item == item && (gameMode == "" || k.gameMode == gameMode);
  }

  /** The rows are those stored under these keys of the item, each once, newest first, and none left out is newer than
      one of them. */
  ghost predicate ShowsNewest(prices: Prices, item: string, gameMode: string, keys: seq<PriceKey>,
                              rows: seq<PriceRow>) {
    && |rows| == |keys| && (forall i, j | 0 <= i < j < |keys| :: keys[i] != keys[j])
    && (forall i | 0 <= i < |keys| ::
          && keys[i] in prices && keys[i].item == item && (gameMode == "" || keys[i].gameMode == gameMode)
          && rows[i].source == keys[i].source && rows[i].gameMode == keys[i].gameMode
          && rows[i].value == prices[keys[i]].value && rows[i].currency == prices[keys[i]].currency
          && ParseDate(rows[i].collectedOn) == Some(keys[i].day) && rows[i].collectedAt == prices[keys[i]].collectedAt)
    && (forall i, j | 0 <= i < j < |keys| :: NoLater(prices, keys[j], keys[i]))
    && forall k, i | k in prices && k.item == item && (gameMode == "" || k.gameMode == gameMode) && k !in keys
                     && 0 <= i < |keys| :: NoLater(prices, k, keys[i])
  }

  lemma CutShows(prices: Prices, item: string, gameMode: string, full: seq<PriceKey>, n: nat)
    requires Listing(prices, item, gameMode, full) && n <= |full|
    ensures ShowsNewest(prices, item, gameMode, full[..n], RowsOf(prices, full[..n]))
  {
    hide FormatDate, ParseDate;
    var keys := full[..n];
    forall i | 0 <= i < |full|
      ensures full[i] in full && ParseDate(FormatDate(full[i].day)) == Some(full[i].day)
    {
      DateReadsBack(full[i].day);
    }
    forall i, j | 0 <= i < j < |full|
      ensures NoLater(prices, full[j], full[i])
    {
      assert !Before(prices, full[j], full[i]);
    }
    forall k, i | k in prices && Selected(k, item, gameMode) && k !in keys && 0 <= i < |keys|
      ensures NoLater(prices, k, keys[i])
    {
      var j :| 0 <= j < |full| && full[j] == k;
      if j < n {
        assert keys[j] == k;
      }
    }
  }

  /** The scan loop over the result set. */
  method ReadRows(prices: Prices, keys: seq<PriceKey>) returns (history: seq<PriceRow>)
    requires forall k | k in keys :: k in prices
    ensures history == RowsOf(prices, keys)
  {
    hide RowOf;
    history := [];
    for i := 0 to |keys|
      invariant history == RowsOf(prices, keys[..i])
    {
      history := history + [RowOf(prices, keys[i])];
    }
    assert keys[..|keys|] == keys;
  }

  function Insert(prices: Prices, keys: seq<PriceKey>, k: PriceKey): seq<PriceKey>
    requires k in prices && forall x | x in keys :: x in prices
  {
    if keys == [] || Before(prices, k, keys[0]) then [k] + keys
    else [keys[0]] + Insert(prices, keys[1..], k)
  }

  lemma {:induction false} InsertMembersAndOrder(prices: Prices, keys: seq<PriceKey>, k: PriceKey)
    requires k in prices && forall x | x in keys :: x in prices
    requires k !in keys && Distinct(keys)
    requires InOrder(prices, keys)
    ensures var out := Insert(prices, keys, k);
      && (forall x :: x in out <==> x in keys || x == k)
      && Distinct(out)
      && InOrder(prices, out)
  {
    if keys != [] && !Before(prices, k, keys[0]) {
      assert keys == [keys[0]] + keys[1..];
      InsertMembersAndOrder(prices, keys[1..], k);
      var tail := Insert(prices, keys[1..], k);
      assert forall j | 0 <= j < |tail| :: tail[j] in tail;
    }
  }

  // ----- what a limited window shows of each key -----

  /** The pairs stored for one item have different text keys. */
  ghost predicate ClearSources(prices: Prices) {
    forall k, k' | k in prices && k' in prices && k.item == k'.item ::
      !Ambiguous(k.source, k.gameMode, k'.source, k'.gameMode)
  }

  lemma FormatInjective(a: Day, b: Day)
    requires FormatDate(a) == FormatDate(b)
    ensures a == b
  {
    DateReadsBack(a);
    DateReadsBack(b);
  }

  lemma FormatOrder(a: Day, b: Day)
    ensures Less(FormatDate(a), FormatDate(b)) <==> a < b
  {
    DateReadsBack(a);
    DateReadsBack(b);
    StringOrderIsCalendarOrder(FormatDate(a), FormatDate(b));
  }

  /** The database's order is the order groupPriceHistory sorts by. */
  lemma ListingIsNewestFirst(prices: Prices, item: string, gameMode: string, keys: seq<PriceKey>)
    requires Listing(prices, item, gameMode, keys)
    ensures NewestFirst(RowsOf(prices, keys))
  {
    hide FormatDate;
    var rows := RowsOf(prices, keys);
    forall i, j | 0 <= i < j < |rows|
      ensures !NewerThan(rows[j], rows[i])
    {
      FormatOrder(keys[i].day, keys[j].day);
      if FormatDate(keys[i].day) == FormatDate(keys[j].day) {
        FormatInjective(keys[i].day, keys[j].day);
      }
    }
  }

  lemma SameDaySameKey(prices: Prices, item: string, a: PriceKey, b: PriceKey)
    requires ClearSources(prices) && a in prices && b in prices && a.item == b.item == item
    requires KeyOf(RowOf(prices, a)) == KeyOf(RowOf(prices, b)) && FormatDate(a.day) == FormatDate(b.day)
    ensures a == b
  {
    FormatInjective(a.day, b.day);
  }

  lemma ListingHasOneRowPerDay(prices: Prices, item: string, gameMode: string, keys: seq<PriceKey>)
    requires ClearSources(prices)
    requires forall k | k in keys :: k in prices && Selected(k, item, gameMode)
    ensures OneRowPerDay(RowsOf(prices, keys))
  {
    hide FormatDate;
    var rows := RowsOf(prices, keys);
    forall r, r' | r in rows && r' in rows && KeyOf(r) == KeyOf(r') && r.collectedOn == r'.collectedOn
      ensures r == r'
    {
      var i :| 0 <= i < |rows| && rows[i] == r;
      var j :| 0 <= j < |rows| && rows[j] == r';
      assert keys[i] in keys && keys[j] in keys;
      SameDaySameKey(prices, item, keys[i], keys[j]);
    }
  }

  lemma {:induction false} RowsKeepOrder(history: seq<PriceRow>, key: string)
    requires NewestFirst(history)
    ensures NewestFirst(Rows(history, key))
  {
    if history != [] {
      var (front, last) := (history[..|history| - 1], history[|history| - 1]);
      RowsKeepOrder(front, key);
      RowsMembers(front, key);
      forall x | x in Rows(front, key)
        ensures !NewerThan(last, x)
      {
        var i :| 0 <= i < |front| && front[i] == x;
        assert history[i] == x;
      }
      Append(Rows(front, key), last);
    }
  }

  lemma Append(rows: seq<PriceRow>, last: PriceRow)
    requires NewestFirst(rows) && forall x | x in rows :: !NewerThan(last, x)
    ensures NewestFirst(rows + [last])
  {
  }

  lemma {:induction false} RowsOfPrefix(history: seq<PriceRow>, n: nat, key: string)
    requires n <= |history|
    ensures Rows(history[..n], key) <= Rows(history, key)
    decreases |history| - n
  {
    if n == |history| {
      assert history[..n] == history;
    } else {
      RowsStep(history, n, key);
      RowsOfPrefix(history, n + 1, key);
    }
  }

  /** A group of a listing is the listing's rows of its key, as they come. */
  lemma GroupOfSorted(history: seq<PriceRow>, group: seq<PriceRow>)
    requires NewestFirst(history) && OneRowPerDay(history)
    requires group != [] && NewestFirst(group) && multiset(group) == multiset(Rows(history, GroupKey(group)))
    ensures group == Rows(history, GroupKey(group))
  {
    RowsKeepOrder(history, GroupKey(group));
    GroupIsOneRowPerText(history, group);
    NewestFirstUnique(group, Rows(history, GroupKey(group)));
  }

  lemma SameRowsInEveryListing(prices: Prices, item: string, a: seq<PriceKey>, b: seq<PriceKey>, key: string)
    requires ClearSources(prices) && Listing(prices, item, "", a) && Listing(prices, item, "", b)
    ensures Rows(RowsOf(prices, a), key) == Rows(RowsOf(prices, b), key)
  {
    hide FormatDate;
    var (ra, rb) := (RowsOf(prices, a), RowsOf(prices, b));
    ListingBag(prices, a, b);
    forall r
      ensures multiset(Rows(ra, key))[r] == multiset(Rows(rb, key))[r]
    {
      RowsCount(ra, key, r);
      RowsCount(rb, key, r);
    }
    assert multiset(Rows(ra, key)) == multiset(Rows(rb, key));
    ListingIsNewestFirst(prices, item, "", a);
    ListingIsNewestFirst(prices, item, "", b);
    RowsKeepOrder(ra, key);
    RowsKeepOrder(rb, key);
    ListingHasOneRowPerDay(prices, item, "", a);
    RowsMembers(ra, key);
    NewestFirstUnique(Rows(ra, key), Rows(rb, key));
  }

  lemma TakeOut(keys: seq<PriceKey>, k: PriceKey) returns (j: nat, rest: seq<PriceKey>)
    requires k in keys && Distinct(keys)
    ensures j < |keys| && keys[j] == k && rest == keys[..j] + keys[j + 1..]
    ensures Distinct(rest) && forall x :: x in rest <==> x in keys && x != k
  {
    j :| 0 <= j < |keys| && keys[j] == k;
    rest := keys[..j] + keys[j + 1..];
    assert keys == keys[..j] + [k] + keys[j + 1..];
    forall x | x in rest
      ensures x != k
    {
      var i :| 0 <= i < |rest| && rest[i] == x;
      assert x == keys[if i < j then i else i + 1];
    }
  }

  lemma RowsOfSplit(prices: Prices, keys: seq<PriceKey>, j: nat)
    requires j < |keys| && forall k | k in keys :: k in prices
    ensures multiset(RowsOf(prices, keys)) == multiset(RowsOf(prices, keys[..j] + keys[j + 1..]))
      + multiset{RowOf(prices, keys[j])}
  {
    var (before, k, after) := (keys[..j], keys[j], keys[j + 1..]);
    assert keys == before + [k] + after;
    assert forall x | x in before || x in after || x == k :: x in keys;
    RowsOfConcat(prices, before + [k], after);
    RowsOfConcat(prices, before, [k]);
    RowsOfConcat(prices, before, after);
    assert RowsOf(prices, [k]) == [RowOf(prices, k)];
    hide RowOf, RowsOf;
  }

  lemma RowsOfConcat(prices: Prices, a: seq<PriceKey>, b: seq<PriceKey>)
    requires (forall k | k in a :: k in prices) && forall k | k in b :: k in prices
    ensures RowsOf(prices, a + b) == RowsOf(prices, a) + RowsOf(prices, b)
  {
    hide RowOf;
  }

  /** Two arrangements of the same distinct keys give the same bag of rows. */
  lemma {:induction false} ListingBag(prices: Prices, a: seq<PriceKey>, b: seq<PriceKey>)
    requires Distinct(a) && Distinct(b) && forall k :: k in a <==> k in b
    requires forall k | k in a :: k in prices
    ensures multiset(RowsOf(prices, a)) == multiset(RowsOf(prices, b))
  {
    hide RowOf;
    if a == [] {
      if b != [] {
        HasMember(b);
      }
    } else {
      assert a[0] in a;
      var i, a' := TakeOut(a, a[0]);
      var j, b' := TakeOut(b, a[0]);
      ListingBag(prices, a', b');
      RowsOfSplit(prices, a, i);
      RowsOfSplit(prices, b, j);
    }
  }

  lemma WindowGroupIsPrefix(prices: Prices, item: string, seen: seq<PriceKey>, n: nat, group: seq<PriceRow>)
    requires ClearSources(prices) && Listing(prices, item, "", seen) && n <= |seen|
    requires group != [] && NewestFirst(group)
    requires multiset(group) == multiset(Rows(RowsOf(prices, seen[..n]), GroupKey(group)))
    ensures group <= Rows(RowsOf(prices, seen), GroupKey(group))
  {
    hide RowOf;
    var (shown, rows) := (RowsOf(prices, seen[..n]), RowsOf(prices, seen));
    assert shown == rows[..n];
    ListingIsNewestFirst(prices, item, "", seen);
    ListingHasOneRowPerDay(prices, item, "", seen[..n]);
    GroupOfSorted(shown, group);
    RowsOfPrefix(rows, n, GroupKey(group));
  }

  lemma GroupOfListing(prices: Prices, item: string, keys: seq<PriceKey>, group: seq<PriceRow>)
    requires ClearSources(prices) && Listing(prices, item, "", keys)
    requires group != [] && NewestFirst(group)
    requires multiset(group) == multiset(Rows(RowsOf(prices, keys), GroupKey(group)))
    ensures group == Rows(RowsOf(prices, keys), GroupKey(group))
  {
    ListingIsNewestFirst(prices, item, "", keys);
    ListingHasOneRowPerDay(prices, item, "", keys);
    GroupOfSorted(RowsOf(prices, keys), group);
  }

  /** Whatever the limit and however ties fall, each group inside the window is a prefix of
      the same key's group in the full history. */
  lemma WindowShowsPrefixes(prices: Prices, item: string, seen: seq<PriceKey>, n: nat, full: seq<PriceKey>,
                            window: seq<seq<PriceRow>>, all: seq<seq<PriceRow>>, i: nat)
    requires ClearSources(prices) && Listing(prices, item, "", seen) && Listing(prices, item, "", full)
    requires n <= |seen|
    requires IsGrouping(RowsOf(prices, seen[..n]), window) && IsGrouping(RowsOf(prices, full), all)
    requires i < |window|
    ensures exists j | 0 <= j < |all| :: GroupKey(all[j]) == GroupKey(window[i]) && window[i] <= all[j]
  {
    hide RowOf, KeyOf;
    var (history, key) := (RowsOf(prices, full), GroupKey(window[i]));
    WindowGroupIsPrefix(prices, item, seen, n, window[i]);
    SameRowsInEveryListing(prices, item, seen, full, key);
    assert window[i][0] in Rows(history, key);
    RowsMembers(history, key);
    var j :| 0 <= j < |all| && GroupKey(all[j]) == key;
    GroupOfListing(prices, item, full, all[j]);
  }
}
