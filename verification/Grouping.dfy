/** An item's price history as the catalog returns it, and its grouping by (source, game mode). */
module Grouping {
  import opened GoStrings

  /** One row of price history; values are in units of 10^-6. */
  datatype PriceRow = PriceRow(source: string, gameMode: string, value: int, currency: string,
                               collectedOn: string, collectedAt: int)

  // ----- the text key of a (source, game mode) pair -----

  function StateKey(source: string, gameMode: string): string {
    source + "|" + gameMode
  }

  function KeyOf(r: PriceRow): string {
    StateKey(r.source, r.gameMode)
  }

  /** Two different pairs with one text. */
  predicate Ambiguous(s: string, m: string, s': string, m': string) {
    StateKey(s, m) == StateKey(s', m') && (s, m) != (s', m')
  }

  /** One source, followed by the separator, begins the other. */
  predicate Collide(s: string, s': string) {
    s != s' && (s + "|" <= s' || s' + "|" <= s)
  }

  lemma SameSourceSameMode(s: string, m: string, m': string)
    requires StateKey(s, m) == StateKey(s, m')
    ensures m == m'
  {
    var k := StateKey(s, m);
    assert m == k[|s| + 1..] && m' == k[|s| + 1..];
  }

  lemma SameLengthSameSource(s: string, m: string, s': string, m': string)
    requires StateKey(s, m) == StateKey(s', m') && |s| == |s'|
    ensures s == s'
  {
    assert s == StateKey(s, m)[..|s|] && s' == StateKey(s', m')[..|s|];
  }

  lemma ShorterBegins(s: string, m: string, s': string, m': string)
    requires StateKey(s, m) == StateKey(s', m') && |s| < |s'|
    ensures s + "|" <= s'
  {
    var k := StateKey(s, m);
    assert k[..|s| + 1] == s + "|";
    assert k[..|s'|] == s';
  }

  /** Two sources can share a text key, for some modes, exactly when one followed by the separator begins the other. */
  lemma StateKeyCollidesIff(s: string, s': string)
    requires s != s'
    ensures (exists m, m' :: StateKey(s, m) == StateKey(s', m')) <==> Collide(s, s')
  {
    if m, m' :| StateKey(s, m) == StateKey(s', m') {
      if |s| < |s'| {
        ShorterBegins(s, m, s', m');
      } else if |s'| < |s| {
        ShorterBegins(s', m', s, m);
      } else {
        SameLengthSameSource(s, m, s', m');
      }
    }
    if s + "|" <= s' {
      assert StateKey(s, s'[|s| + 1..] + "|") == StateKey(s', "");
    } else if s' + "|" <= s {
      assert StateKey(s, "") == StateKey(s', s[|s'| + 1..] + "|");
    }
  }

  /** Among sources that do not collide a text key stands for one pair only. */
  lemma StateKeyInjective(s: string, m: string, s': string, m': string)
    requires !Collide(s, s')
    ensures !Ambiguous(s, m, s', m')
  {
    if StateKey(s, m) == StateKey(s', m') {
      if s == s' {
        SameSourceSameMode(s, m, m');
      } else {
        StateKeyCollidesIff(s, s');
      }
    }
  }

  /** Sources without the separator never collide. */
  lemma PlainSourcesNeverCollide(s: string, s': string)
    requires '|' !in s && '|' !in s'
    ensures !Collide(s, s')
  {
    if s + "|" <= s' {
      HoldsSeparator(s, s');
    }
    if s' + "|" <= s {
      HoldsSeparator(s', s);
    }
  }

  lemma HoldsSeparator(s: string, s': string)
    requires s + "|" <= s'
    ensures '|' in s'
  {
    assert s'[|s|] == '|';
  }

  /** Colliding sources exist. */
  lemma StateKeyCollides()
    ensures Ambiguous("a|b", "c", "a", "b|c")
  {
    var (left, right) := (StateKey("a|b", "c"), StateKey("a", "b|c"));
    assert left == ['a', '|', 'b', '|', 'c'];
    assert right == ['a', '|', 'b', '|', 'c'];
    assert |"a|b"| != |"a"|;
  }

  // ----- order -----

  lemma SameMembers<T>(a: seq<T>, b: seq<T>)
    requires multiset(a) == multiset(b)
    ensures |a| == |b| && forall x :: x in a <==> x in b
  {
    assert |multiset(a)| == |a| && |multiset(b)| == |b|;
    assert forall x :: x in a <==> x in multiset(a);
    assert forall x :: x in b <==> x in multiset(b);
  }

  /** The comparison handed to sort.Slice: later day text first, then later collection. */
  predicate NewerThan(a: PriceRow, b: PriceRow) {
    if a.collectedOn == b.collectedOn then a.collectedAt > b.collectedAt else Less(b.collectedOn, a.collectedOn)
  }

  predicate NewestFirst(rows: seq<PriceRow>) {
    forall i, j | 0 <= i < j < |rows| :: !NewerThan(rows[j], rows[i])
  }

  lemma NotNewerTransitive(a: PriceRow, b: PriceRow, c: PriceRow)
    requires !NewerThan(b, a) && !NewerThan(c, b)
    ensures !NewerThan(c, a)
  {
    if NewerThan(c, a) {
      LessTotal(a.collectedOn, b.collectedOn);
      LessTotal(b.collectedOn, c.collectedOn);
      if a.collectedOn != b.collectedOn && b.collectedOn != c.collectedOn {
        LessTransitive(c.collectedOn, b.collectedOn, a.collectedOn);
      }
      if a.collectedOn != c.collectedOn {
        LessAsymmetric(a.collectedOn, c.collectedOn);
      } else if a.collectedOn != b.collectedOn {
        LessAsymmetric(a.collectedOn, b.collectedOn);
      }
    }
  }

  lemma NewerAsymmetric(a: PriceRow, b: PriceRow)
    requires NewerThan(a, b)
    ensures !NewerThan(b, a)
  {
    if a.collectedOn != b.collectedOn {
      LessAsymmetric(b.collectedOn, a.collectedOn);
    }
  }

  /** Puts a row behind every row it is not newer than. */
  function InsertNewest(rows: seq<PriceRow>, r: PriceRow): (out: seq<PriceRow>)
    ensures |out| == |rows| + 1
    ensures multiset(out) == multiset(rows) + multiset{r}
  {
    if rows == [] then [r]
    else if NewerThan(r, rows[0]) then [r] + rows
    else
      assert rows == [rows[0]] + rows[1..];
      [rows[0]] + InsertNewest(rows[1..], r)
  }

  lemma FirstIsNewest(rows: seq<PriceRow>, r: PriceRow)
    requires NewestFirst(rows) && r in rows
    ensures r == rows[0] || !NewerThan(r, rows[0])
  {
  }

  lemma InsertMembers(rows: seq<PriceRow>, r: PriceRow)
    ensures forall x :: x in InsertNewest(rows, r) <==> x in rows || x == r
  {
    assert multiset(InsertNewest(rows, r)) == multiset(rows + [r]);
    SameMembers(InsertNewest(rows, r), rows + [r]);
  }

  lemma Prepend(first: PriceRow, rows: seq<PriceRow>)
    requires NewestFirst(rows) && forall x | x in rows :: !NewerThan(x, first)
    ensures NewestFirst([first] + rows)
  {
    var out := [first] + rows;
    forall i, j | 0 <= i < j < |out|
      ensures !NewerThan(out[j], out[i])
    {
      assert out[j] == rows[j - 1] && rows[j - 1] in rows;
    }
  }

  lemma {:induction false} InsertKeepsOrder(rows: seq<PriceRow>, r: PriceRow)
    requires NewestFirst(rows)
    ensures NewestFirst(InsertNewest(rows, r))
  {
    if rows == [] {
    } else if NewerThan(r, rows[0]) {
      NewerAsymmetric(r, rows[0]);
      forall x | x in rows
        ensures !NewerThan(x, r)
      {
        FirstIsNewest(rows, x);
        if x != rows[0] {
          NotNewerTransitive(r, rows[0], x);
        }
      }
      Prepend(r, rows);
    } else {
      InsertKeepsOrder(rows[1..], r);
      InsertMembers(rows[1..], r);
      Prepend(rows[0], InsertNewest(rows[1..], r));
    }
  }

  /** sort.Slice on rows: some permutation in order; equal rows may come out either way round. */
  method SortRows(rows: seq<PriceRow>) returns (out: seq<PriceRow>)
    ensures NewestFirst(out)
    ensures multiset(out) == multiset(rows)
  {
    out := [];
    for i := 0 to |rows|
      invariant NewestFirst(out)
      invariant multiset(out) == multiset(rows[..i])
    {
      InsertKeepsOrder(out, rows[i]);
      out := InsertNewest(out, rows[i]);
      assert rows[..i + 1] == rows[..i] + [rows[i]];
    }
    assert rows[..|rows|] == rows;
  }

  predicate Ascending(keys: seq<string>) {
    forall i, j | 0 <= i < j < |keys| :: Less(keys[i], keys[j])
  }

  function InsertKey(keys: seq<string>, k: string): (out: seq<string>)
    ensures |out| == |keys| + 1
    ensures multiset(out) == multiset(keys) + multiset{k}
  {
    if keys == [] then [k]
    else if Less(k, keys[0]) then [k] + keys
    else
      assert keys == [keys[0]] + keys[1..];
      [keys[0]] + InsertKey(keys[1..], k)
  }

  lemma InsertKeyMembers(keys: seq<string>, k: string)
    ensures forall x :: x in InsertKey(keys, k) <==> x in keys || x == k
  {
    assert multiset(InsertKey(keys, k)) == multiset(keys + [k]);
    SameMembers(InsertKey(keys, k), keys + [k]);
  }

  lemma PrependKey(first: string, keys: seq<string>)
    requires Ascending(keys) && forall x | x in keys :: Less(first, x)
    ensures Ascending([first] + keys)
  {
    var out := [first] + keys;
    forall i, j | 0 <= i < j < |out|
      ensures Less(out[i], out[j])
    {
      assert out[j] == keys[j - 1] && keys[j - 1] in keys;
    }
  }

  lemma FirstIsLeast(keys: seq<string>, k: string)
    requires Ascending(keys) && k in keys
    ensures k == keys[0] || Less(keys[0], k)
  {
  }

  lemma {:induction false} InsertKeyAscends(keys: seq<string>, k: string)
    requires Ascending(keys) && k !in keys
    ensures Ascending(InsertKey(keys, k))
  {
    if keys == [] {
    } else if Less(k, keys[0]) {
      forall x | x in keys
        ensures Less(k, x)
      {
        FirstIsLeast(keys, x);
        if x != keys[0] {
          LessTransitive(k, keys[0], x);
        }
      }
      PrependKey(k, keys);
    } else {
      InsertKeyAscends(keys[1..], k);
      InsertKeyMembers(keys[1..], k);
      LessTotal(keys[0], k);
      forall x | x in keys[1..]
        ensures Less(keys[0], x)
      {
      }
      PrependKey(keys[0], InsertKey(keys[1..], k));
    }
  }

  predicate Distinct<T(==)>(s: seq<T>) {
    forall i, j | 0 <= i < j < |s| :: s[i] != s[j]
  }

  /** sort.Strings on keys without repetition. */
  method SortKeys(keys: seq<string>) returns (out: seq<string>)
    requires Distinct(keys)
    ensures Ascending(out)
    ensures multiset(out) == multiset(keys)
  {
    out := [];
    for i := 0 to |keys|
      invariant Ascending(out)
      invariant multiset(out) == multiset(keys[..i])
    {
      assert keys[i] !in multiset(keys[..i]);
      InsertKeyAscends(out, keys[i]);
      out := InsertKey(out, keys[i]);
      assert keys[..i + 1] == keys[..i] + [keys[i]];
    }
    assert keys[..|keys|] == keys;
  }

  // ----- grouping -----

  /** The rows of one key, in the order of the history. */
  function Rows(history: seq<PriceRow>, key: string): seq<PriceRow> {
    if history == [] then []
    else
      var last := history[|history| - 1];
      Rows(history[..|history| - 1], key) + if KeyOf(last) == key then [last] else []
  }

  lemma RowsMembers(history: seq<PriceRow>, key: string)
    ensures forall r :: r in Rows(history, key) <==> r in history && KeyOf(r) == key
  {
    forall r
      ensures r in Rows(history, key) <==> r in history && KeyOf(r) == key
    {
      RowsCount(history, key, r);
      assert r in Rows(history, key) <==> r in multiset(Rows(history, key));
      assert r in history <==> r in multiset(history);
    }
  }

  lemma {:induction false} RowsCount(history: seq<PriceRow>, key: string, r: PriceRow)
    ensures multiset(Rows(history, key))[r] == if KeyOf(r) == key then multiset(history)[r] else 0
  {
    if history != [] {
      var (front, last) := (history[..|history| - 1], history[|history| - 1]);
      RowsCount(front, key, r);
      assert history == front + [last];
    }
  }

  function GroupKey(group: seq<PriceRow>): string
    requires group != []
  {
    KeyOf(group[0])
  }

  predicate NoEmptyGroup(groups: seq<seq<PriceRow>>) {
    forall i | 0 <= i < |groups| :: groups[i] != []
  }

  /** What groupPriceHistory returns: a partition of the history, one nonempty newest-first
      group for each key, in ascending order of key. */
  ghost predicate IsGrouping(history: seq<PriceRow>, groups: seq<seq<PriceRow>>) {
    && NoEmptyGroup(groups)
    && (forall i, j | 0 <= i < j < |groups| :: Less(GroupKey(groups[i]), GroupKey(groups[j])))
    && (forall i | 0 <= i < |groups| :: NewestFirst(groups[i]))
    && (forall i | 0 <= i < |groups| :: multiset(groups[i]) == multiset(Rows(history, GroupKey(groups[i]))))
    && (forall r | r in history :: exists i | 0 <= i < |groups| :: GroupKey(groups[i]) == KeyOf(r))
  }

  lemma RowsStep(history: seq<PriceRow>, i: nat, key: string)
    requires i < |history|
    ensures Rows(history[..i + 1], key) == Rows(history[..i], key) + if KeyOf(history[i]) == key then [history[i]]
      else []
  {
    assert history[..i + 1][..i] == history[..i];
  }

  /** The map and key list that the first loop keeps. */
  ghost predicate Collected(history: seq<PriceRow>, groups: map<string, seq<PriceRow>>, keys: seq<string>) {
    && Distinct(keys)
    && (forall k :: k in keys <==> k in groups)
    && (forall k | k in groups :: groups[k] != [] && groups[k] == Rows(history, k))
    && (forall k | k !in groups :: Rows(history, k) == [])
  }

  lemma CollectStep(history: seq<PriceRow>, i: nat, groups: map<string, seq<PriceRow>>, keys: seq<string>,
                    groups': map<string, seq<PriceRow>>, keys': seq<string>)
    requires i < |history| && Collected(history[..i], groups, keys)
    requires var key := KeyOf(history[i]);
      && keys' == (if key in groups then keys else keys + [key])
      && groups' == groups[key := (if key in groups then groups[key] else []) + [history[i]]]
    ensures Collected(history[..i + 1], groups', keys')
  {
    var (r, key) := (history[i], KeyOf(history[i]));
    forall k
      ensures k in groups' ==> groups'[k] != [] && groups'[k] == Rows(history[..i + 1], k)
      ensures k !in groups' ==> Rows(history[..i + 1], k) == []
      ensures k in keys' <==> k in groups'
    {
      RowsStep(history, i, k);
    }
  }

  /** The first loop of groupPriceHistory: rows appended to their key's slice, keys in order of appearance. */
  method CollectGroups(history: seq<PriceRow>) returns (groups: map<string, seq<PriceRow>>, keys: seq<string>)
    ensures Collected(history, groups, keys)
  {
    groups, keys := map[], [];
    for i := 0 to |history|
      invariant Collected(history[..i], groups, keys)
    {
      var entry := history[i];
      var key := KeyOf(entry);
      ghost var (groups0, keys0) := (groups, keys);
      if key !in groups {
        keys := keys + [key];
      }
      groups := groups[key := (if key in groups then groups[key] else []) + [entry]];
      CollectStep(history, i, groups0, keys0, groups, keys);
    }
    assert history[..|history|] == history;
  }

  /** Its second loop: each key's rows sorted, in the order of the sorted keys. */
  method SortGroups(groups: map<string, seq<PriceRow>>, sorted: seq<string>, ghost history: seq<PriceRow>)
    returns (out: seq<seq<PriceRow>>)
    requires forall k | k in sorted :: k in groups && groups[k] != [] && groups[k] == Rows(history, k)
    ensures |out| == |sorted| && forall j | 0 <= j < |sorted| :: GroupOf(history, sorted[j], out[j])
  {
    out := [];
    for i := 0 to |sorted|
      invariant |out| == i
      invariant forall j | 0 <= j < i :: GroupOf(history, sorted[j], out[j])
    {
      var key := sorted[i];
      assert key in sorted;
      var entries := SortRows(groups[key]);
      SortedIsGroup(history, key, entries);
      out := out + [entries];
    }
  }

  method GroupPriceHistory(history: seq<PriceRow>) returns (out: seq<seq<PriceRow>>)
    ensures IsGrouping(history, out)
  {
    var groups, keys := CollectGroups(history);
    var sorted := SortKeys(keys);
    SameMembers(sorted, keys);
    out := SortGroups(groups, sorted, history);
    AssembledIsGrouping(history, sorted, out);
  }

  ghost predicate GroupOf(history: seq<PriceRow>, key: string, group: seq<PriceRow>) {
    group != [] && NewestFirst(group) && GroupKey(group) == key && multiset(group) == multiset(Rows(history, key))
  }

  lemma SortedIsGroup(history: seq<PriceRow>, key: string, group: seq<PriceRow>)
    requires Rows(history, key) != [] && NewestFirst(group) && multiset(group) == multiset(Rows(history, key))
    ensures GroupOf(history, key, group)
  {
    SameMembers(group, Rows(history, key));
    RowsMembers(history, key);
    assert group[0] in Rows(history, key);
  }

  lemma AssembledIsGrouping(history: seq<PriceRow>, keys: seq<string>, groups: seq<seq<PriceRow>>)
    requires |groups| == |keys| && Ascending(keys)
    requires forall k :: k in keys <==> Rows(history, k) != []
    requires forall j | 0 <= j < |keys| :: GroupOf(history, keys[j], groups[j])
    ensures IsGrouping(history, groups)
  {
    forall r | r in history
      ensures exists i | 0 <= i < |groups| :: GroupKey(groups[i]) == KeyOf(r)
    {
      RowsMembers(history, KeyOf(r));
      var i :| 0 <= i < |keys| && keys[i] == KeyOf(r);
      assert GroupKey(groups[i]) == KeyOf(r);
    }
  }

  function Flatten(groups: seq<seq<PriceRow>>): seq<PriceRow> {
    if groups == [] then [] else groups[0] + Flatten(groups[1..])
  }

  /** Grouping neither drops nor repeats a row. */
  lemma GroupingConserves(history: seq<PriceRow>, groups: seq<seq<PriceRow>>)
    requires IsGrouping(history, groups)
    ensures multiset(Flatten(groups)) == multiset(history)
  {
    forall r
      ensures multiset(Flatten(groups))[r] == multiset(history)[r]
    {
      CountInGroups(history, groups, r);
      if r !in multiset(history) {
        assert multiset(history)[r] == 0;
      } else {
        assert r in history;
      }
    }
  }

  ghost predicate HasGroup(groups: seq<seq<PriceRow>>, key: string)
    requires NoEmptyGroup(groups)
  {
    exists i | 0 <= i < |groups| :: GroupKey(groups[i]) == key
  }

  lemma {:induction false} CountInGroups(history: seq<PriceRow>, groups: seq<seq<PriceRow>>, r: PriceRow)
    requires NoEmptyGroup(groups)
    requires forall i, j | 0 <= i < j < |groups| :: Less(GroupKey(groups[i]), GroupKey(groups[j]))
    requires forall i | 0 <= i < |groups| :: multiset(groups[i]) == multiset(Rows(history, GroupKey(groups[i])))
    ensures multiset(Flatten(groups))[r] == if HasGroup(groups, KeyOf(r)) then multiset(history)[r] else 0
  {
    if groups != [] {
      var (first, rest) := (groups[0], groups[1..]);
      CountInGroups(history, rest, r);
      RowsCount(history, GroupKey(first), r);
      if HasGroup(rest, KeyOf(r)) {
        var i :| 0 <= i < |rest| && GroupKey(rest[i]) == KeyOf(r);
        assert rest[i] == groups[i + 1];
        LessAsymmetric(GroupKey(first), KeyOf(r));
      } else {
        assert forall i | 0 < i < |groups| :: groups[i] == rest[i - 1] && GroupKey(rest[i - 1]) != KeyOf(r);
      }
    }
  }

  // ----- one grouping only -----

  /** The unique index on (item, source, game mode, day): a day of a key has one row. */
  ghost predicate OneRowPerDay(history: seq<PriceRow>) {
    forall r, r' | r in history && r' in history && KeyOf(r) == KeyOf(r') && r.collectedOn == r'.collectedOn :: r == r'
  }

  ghost predicate OneRowPerText(rows: seq<PriceRow>) {
    forall r, r' | r in rows && r' in rows && r.collectedOn == r'.collectedOn :: r == r'
  }

  lemma SameFirst(a: seq<PriceRow>, b: seq<PriceRow>)
    requires NewestFirst(a) && NewestFirst(b) && a != [] && b != []
    requires a[0] in b && b[0] in a && OneRowPerText(a)
    ensures a[0] == b[0]
  {
    FirstIsNewest(b, a[0]);
    FirstIsNewest(a, b[0]);
    LessTotal(a[0].collectedOn, b[0].collectedOn);
  }

  lemma {:induction false} NewestFirstUnique(a: seq<PriceRow>, b: seq<PriceRow>)
    requires NewestFirst(a) && NewestFirst(b) && multiset(a) == multiset(b)
    requires OneRowPerText(a)
    ensures a == b
  {
    SameMembers(a, b);
    if a != [] {
      SameFirst(a, b);
      SameTail(a, b);
      NewestFirstUnique(a[1..], b[1..]);
      assert a == [a[0]] + a[1..] && b == [b[0]] + b[1..];
    }
  }

  lemma {:induction false} AscendingUnique(a: seq<string>, b: seq<string>)
    requires Ascending(a) && Ascending(b)
    requires forall k :: k in a <==> k in b
    ensures a == b
  {
    if a == [] {
      if b != [] {
        HasMember(b);
      }
    } else {
      assert a[0] in b && b != [] && b[0] in a;
      FirstIsLeast(a, b[0]);
      FirstIsLeast(b, a[0]);
      if a[0] != b[0] {
        LessAsymmetric(a[0], b[0]);
      }
      forall k
        ensures k in a[1..] <==> k in b[1..]
      {
        TailMember(a, k);
        TailMember(b, k);
      }
      AscendingUnique(a[1..], b[1..]);
    }
  }

  lemma HasMember<T>(s: seq<T>)
    requires s != []
    ensures exists x :: x in s
  {
    assert s[0] in s;
  }

  lemma SameTail<T>(a: seq<T>, b: seq<T>)
    requires a != [] && b != [] && a[0] == b[0] && multiset(a) == multiset(b)
    ensures multiset(a[1..]) == multiset(b[1..])
  {
    assert a == [a[0]] + a[1..] && b == [b[0]] + b[1..];
    assert multiset(a[1..]) == multiset(a) - multiset{a[0]};
    assert multiset(b[1..]) == multiset(b) - multiset{b[0]};
  }

  lemma TailMember(keys: seq<string>, k: string)
    requires Ascending(keys) && keys != []
    ensures k in keys[1..] <==> k in keys && k != keys[0]
  {
    LessIrreflexive(keys[0]);
    if k in keys[1..] {
      var i :| 0 <= i < |keys[1..]| && keys[1..][i] == k;
      assert keys[i + 1] == k;
    }
  }

  function Keys(groups: seq<seq<PriceRow>>): (keys: seq<string>)
    requires NoEmptyGroup(groups)
    ensures |keys| == |groups|
    ensures forall i | 0 <= i < |groups| :: keys[i] == GroupKey(groups[i])
  {
    seq(|groups|, i requires 0 <= i < |groups| => GroupKey(groups[i]))
  }

  lemma KeysCoverHistory(history: seq<PriceRow>, groups: seq<seq<PriceRow>>, k: string)
    requires IsGrouping(history, groups)
    ensures k in Keys(groups) <==> exists r :: r in history && KeyOf(r) == k
  {
    if k in Keys(groups) {
      var i :| 0 <= i < |groups| && GroupKey(groups[i]) == k;
      RowsMembers(history, k);
      assert groups[i][0] in multiset(Rows(history, k));
      assert groups[i][0] in history && KeyOf(groups[i][0]) == k;
    }
    if r :| r in history && KeyOf(r) == k {
      var i :| 0 <= i < |groups| && GroupKey(groups[i]) == KeyOf(r);
      assert Keys(groups)[i] == k;
    }
  }

  /** With one row per key and day, every permutation of the history has the same, single grouping. */
  lemma GroupingUnique(h: seq<PriceRow>, h': seq<PriceRow>, groups: seq<seq<PriceRow>>, groups': seq<seq<PriceRow>>)
    requires multiset(h) == multiset(h') && OneRowPerDay(h)
    requires IsGrouping(h, groups) && IsGrouping(h', groups')
    ensures groups == groups'
  {
    SameMembers(h, h');
    forall k
      ensures k in Keys(groups) <==> k in Keys(groups')
    {
      KeysCoverHistory(h, groups, k);
      KeysCoverHistory(h', groups', k);
    }
    AscendingUnique(Keys(groups), Keys(groups'));
    forall i | 0 <= i < |groups|
      ensures groups[i] == groups'[i]
    {
      assert Keys(groups)[i] == Keys(groups')[i];
      SameKeySameGroup(h, h', groups[i], groups'[i]);
    }
  }

  lemma SameKeySameGroup(h: seq<PriceRow>, h': seq<PriceRow>, group: seq<PriceRow>, group': seq<PriceRow>)
    requires multiset(h) == multiset(h') && OneRowPerDay(h)
    requires group != [] && group' != [] && GroupKey(group) == GroupKey(group')
    requires NewestFirst(group) && NewestFirst(group')
    requires multiset(group) == multiset(Rows(h, GroupKey(group)))
    requires multiset(group') == multiset(Rows(h', GroupKey(group')))
    ensures group == group'
  {
    forall r
      ensures multiset(group)[r] == multiset(group')[r]
    {
      RowsCount(h, GroupKey(group), r);
      RowsCount(h', GroupKey(group), r);
    }
    assert multiset(group) == multiset(group');
    GroupIsOneRowPerText(h, group);
    NewestFirstUnique(group, group');
  }

  lemma GroupIsOneRowPerText(history: seq<PriceRow>, group: seq<PriceRow>)
    requires OneRowPerDay(history) && group != []
    requires multiset(group) == multiset(Rows(history, GroupKey(group)))
    ensures OneRowPerText(group)
    ensures forall r | r in group :: KeyOf(r) == GroupKey(group) && r in history
  {
    SameMembers(group, Rows(history, GroupKey(group)));
    RowsMembers(history, GroupKey(group));
  }

  // ----- a reference definition -----

  function AddKey(keys: seq<string>, k: string): seq<string> {
    if k in keys then keys else InsertKey(keys, k)
  }

  /** The keys of a history in ascending order. */
  function KeysOf(history: seq<PriceRow>): seq<string> {
    if history == [] then [] else AddKey(KeysOf(history[..|history| - 1]), KeyOf(history[|history| - 1]))
  }

  /** The rows, newest first. */
  function Newest(rows: seq<PriceRow>): (out: seq<PriceRow>)
    ensures multiset(out) == multiset(rows)
  {
    if rows == [] then []
    else
      assert rows == rows[..|rows| - 1] + [rows[|rows| - 1]];
      InsertNewest(Newest(rows[..|rows| - 1]), rows[|rows| - 1])
  }

  /** The grouping by definition: each key in order, with its rows newest first. */
  function Grouped(history: seq<PriceRow>): (groups: seq<seq<PriceRow>>) {
    var keys := KeysOf(history);
    seq(|keys|, i requires 0 <= i < |keys| => Newest(Rows(history, keys[i])))
  }

  lemma {:induction false} NewestIsSorted(rows: seq<PriceRow>)
    ensures NewestFirst(Newest(rows))
  {
    if rows != [] {
      NewestIsSorted(rows[..|rows| - 1]);
      InsertKeepsOrder(Newest(rows[..|rows| - 1]), rows[|rows| - 1]);
    }
  }

  lemma {:induction false} KeysOfHistory(history: seq<PriceRow>)
    ensures Ascending(KeysOf(history))
    ensures forall k :: k in KeysOf(history) <==> Rows(history, k) != []
  {
    if history != [] {
      var (front, last) := (history[..|history| - 1], KeyOf(history[|history| - 1]));
      KeysOfHistory(front);
      var keys := KeysOf(front);
      if last !in keys {
        InsertKeyAscends(keys, last);
        assert multiset(InsertKey(keys, last)) == multiset(keys + [last]);
        SameMembers(InsertKey(keys, last), keys + [last]);
      }
    }
  }

  lemma GroupedIsGrouping(history: seq<PriceRow>)
    ensures IsGrouping(history, Grouped(history))
  {
    var (groups, keys) := (Grouped(history), KeysOf(history));
    KeysOfHistory(history);
    forall i | 0 <= i < |groups|
      ensures GroupOf(history, keys[i], groups[i])
    {
      assert keys[i] in keys;
      NewestIsSorted(Rows(history, keys[i]));
      SortedIsGroup(history, keys[i], groups[i]);
    }
    AssembledIsGrouping(history, keys, groups);
  }

  // ----- any fall of ties -----

  lemma {:induction false} InsertAtEnd(rows: seq<PriceRow>, r: PriceRow)
    requires forall x | x in rows :: !NewerThan(r, x)
    ensures InsertNewest(rows, r) == rows + [r]
  {
    if rows != [] {
      InsertAtEnd(rows[1..], r);
      assert rows + [r] == [rows[0]] + (rows[1..] + [r]);
    }
  }

  lemma {:induction false} NewestOfSorted(rows: seq<PriceRow>)
    requires NewestFirst(rows)
    ensures Newest(rows) == rows
  {
    if rows != [] {
      var (front, last) := (rows[..|rows| - 1], rows[|rows| - 1]);
      NewestOfSorted(front);
      InsertAtEnd(front, last);
    }
  }

  lemma RowsAppend(rows: seq<PriceRow>, r: PriceRow, key: string)
    ensures Rows(rows + [r], key) == Rows(rows, key) + if KeyOf(r) == key then [r] else []
  {
    hide KeyOf;
    assert (rows + [r])[..|rows|] == rows;
  }

  lemma {:induction false} RowsConcat(a: seq<PriceRow>, b: seq<PriceRow>, key: string)
    ensures Rows(a + b, key) == Rows(a, key) + Rows(b, key)
  {
    hide Rows, KeyOf;
    if b == [] {
      assert a + b == a;
      NoRows(key);
    } else {
      var (front, last) := (b[..|b| - 1], b[|b| - 1]);
      RowsConcat(a, front, key);
      RowsAppend(a + front, last, key);
      RowsAppend(front, last, key);
      assert b == front + [last] && a + b == a + front + [last];
    }
  }

  lemma NoRows(key: string)
    ensures Rows([], key) == []
  {
  }

  ghost predicate AllOfKey(rows: seq<PriceRow>, key: string) {
    forall r | r in rows :: KeyOf(r) == key
  }

  lemma FrontOfKey(rows: seq<PriceRow>, key: string)
    requires AllOfKey(rows, key) && rows != []
    ensures AllOfKey(rows[..|rows| - 1], key) && KeyOf(rows[|rows| - 1]) == key
  {
    hide KeyOf;
    assert rows[|rows| - 1] in rows && forall r | r in rows[..|rows| - 1] :: r in rows;
  }

  lemma {:induction false} RowsOfOneKey(rows: seq<PriceRow>, key: string, other: string)
    requires AllOfKey(rows, key)
    ensures Rows(rows, other) == if other == key then rows else []
  {
    hide KeyOf, AllOfKey, Rows;
    if rows == [] {
      NoRows(other);
    } else {
      var (front, last) := (rows[..|rows| - 1], rows[|rows| - 1]);
      FrontOfKey(rows, key);
      RowsOfOneKey(front, key, other);
      RowsAppend(front, last, other);
      assert rows == front + [last];
    }
  }

  /** Groups of one key each, keys ascending. */
  ghost predicate Separate(groups: seq<seq<PriceRow>>) {
    && NoEmptyGroup(groups)
    && (forall i, j | 0 <= i < j < |groups| :: Less(GroupKey(groups[i]), GroupKey(groups[j])))
    && (forall i | 0 <= i < |groups| :: forall r | r in groups[i] :: KeyOf(r) == GroupKey(groups[i]))
  }

  lemma SeparateTail(groups: seq<seq<PriceRow>>)
    requires Separate(groups) && groups != []
    ensures Separate(groups[1..]) && forall g | g in groups[1..] :: g != [] && GroupKey(g) != GroupKey(groups[0])
  {
    var rest := groups[1..];
    assert forall i | 0 <= i < |rest| :: rest[i] == groups[i + 1];
    LessIrreflexive(GroupKey(groups[0]));
  }

  lemma {:induction false} RowsOfAbsent(groups: seq<seq<PriceRow>>, key: string)
    requires Separate(groups) && forall g | g in groups :: g != [] && GroupKey(g) != key
    ensures Rows(Flatten(groups), key) == []
  {
    if groups != [] {
      var (first, rest) := (groups[0], groups[1..]);
      SeparateTail(groups);
      assert first in groups && forall g | g in rest :: g in groups;
      RowsOfOneKey(first, GroupKey(first), key);
      hide Separate;
      RowsOfAbsent(rest, key);
      RowsConcat(first, Flatten(rest), key);
    }
  }

  lemma {:induction false} RowsOfPresent(groups: seq<seq<PriceRow>>, i: nat)
    requires Separate(groups) && i < |groups|
    ensures Rows(Flatten(groups), GroupKey(groups[i])) == groups[i]
  {
    var (first, rest, key) := (groups[0], groups[1..], GroupKey(groups[i]));
    SeparateTail(groups);
    RowsOfOneKey(first, GroupKey(first), key);
    hide Separate, KeyOf;
    if i == 0 {
      RowsOfAbsent(rest, key);
    } else {
      assert rest[i - 1] == groups[i] && rest[i - 1] in rest;
      RowsOfPresent(rest, i - 1);
    }
    RowsConcat(first, Flatten(rest), key);
  }

  lemma GroupsAreSeparate(history: seq<PriceRow>, groups: seq<seq<PriceRow>>)
    requires IsGrouping(history, groups)
    ensures Separate(groups)
  {
    forall i, r | 0 <= i < |groups| && r in groups[i]
      ensures KeyOf(r) == GroupKey(groups[i])
    {
      SameMembers(groups[i], Rows(history, GroupKey(groups[i])));
      RowsMembers(history, GroupKey(groups[i]));
    }
  }

  /** However the sort lets ties fall, the groups are those of the definition for the rows in some order. */
  lemma GroupingOfSomeOrder(history: seq<PriceRow>, groups: seq<seq<PriceRow>>)
    requires IsGrouping(history, groups)
    ensures multiset(Flatten(groups)) == multiset(history) && Grouped(Flatten(groups)) == groups
  {
    var rows := Flatten(groups);
    GroupingConserves(history, groups);
    GroupsAreSeparate(history, groups);
    KeysOfHistory(rows);
    forall k
      ensures k in KeysOf(rows) <==> k in Keys(groups)
    {
      if k in Keys(groups) {
        var i :| 0 <= i < |groups| && Keys(groups)[i] == k;
        RowsOfPresent(groups, i);
      } else {
        forall g | g in groups
          ensures g != [] && GroupKey(g) != k
        {
          var i :| 0 <= i < |groups| && groups[i] == g;
          assert Keys(groups)[i] == GroupKey(g);
        }
        RowsOfAbsent(groups, k);
      }
    }
    AscendingUnique(KeysOf(rows), Keys(groups));
    forall i | 0 <= i < |groups|
      ensures Grouped(rows)[i] == groups[i]
    {
      RowsOfPresent(groups, i);
      assert KeysOf(rows)[i] == GroupKey(groups[i]);
      NewestOfSorted(groups[i]);
    }
  }
}
