/** The user-asset service's tables behind its repository, and the preferences operations over them. */
module UserAssetTables {
  import opened Options
  import opened GoStrings
  import opened Detection
  import opened AlertTables
  import Dispatch
  import opened Schedule
  import opened AlertCycle
  import opened CycleTheorems

  datatype WatchRow = WatchRow(userId: int, itemId: string, notifyEnabled: bool)

  /** A row of the join of watchlist_items with user_preferences, with the column defaults where no preferences
      exist. */
  function Joined(id: int, row: WatchRow, preferences: map<int, Preferences>): Subscription {
    var p := if row.userId in preferences then preferences[row.userId] else DEFAULTS;
    Subscription(id, row.userId, row.itemId, p.currency, p.notificationsEnabled, p.mode, p.time)
  }

  /** The entry's owner and item, with the owner's stored currency, switch, mode and time; the column defaults only when
      the owner has no row. */
  ghost predicate CarriesPreferences(s: Subscription, row: WatchRow, preferences: map<int, Preferences>) {
    && s.userId == row.userId && s.itemId == row.itemId
    && if row.userId in preferences then
         var p := preferences[row.userId];
         && s.currency == p.currency && s.notificationsEnabled == p.notificationsEnabled
         && s.mode == p.mode && s.time == p.time
       else s.currency == "credits" && s.notificationsEnabled && s.mode == "daily_digest" && s.time == "09:00"
  }

  /** ORDER BY user_id, id */
  predicate ListedBefore(a: Subscription, b: Subscription) {
    a.userId < b.userId || (a.userId == b.userId && a.watchlistId < b.watchlistId)
  }

  ghost predicate InListOrder(subs: seq<Subscription>) {
    forall i, j | 0 <= i < j < |subs| :: ListedBefore(subs[i], subs[j])
  }

  function InsertListed(subs: seq<Subscription>, s: Subscription): seq<Subscription> {
    if subs == [] || ListedBefore(s, subs[0]) then [s] + subs else [subs[0]] + InsertListed(subs[1..], s)
  }

  lemma {:induction false} InsertListedKeeps(subs: seq<Subscription>, s: Subscription)
    requires InListOrder(subs) && forall x | x in subs :: x.watchlistId != s.watchlistId
    ensures InListOrder(InsertListed(subs, s))
    ensures forall x :: x in InsertListed(subs, s) <==> x in subs || x == s
  {
    if subs != [] && !ListedBefore(s, subs[0]) {
      assert subs == [subs[0]] + subs[1..];
      InsertListedKeeps(subs[1..], s);
      var tail := InsertListed(subs[1..], s);
      assert subs[0].watchlistId != s.watchlistId;
      forall j | 0 <= j < |tail|
        ensures ListedBefore(subs[0], tail[j])
      {
        assert tail[j] in tail;
        if tail[j] != s {
          var i :| 0 <= i < |subs[1..]| && subs[1..][i] == tail[j];
          assert subs[i + 1] == tail[j];
        }
      }
    }
  }

  class UserAssetRepository {
    var watchlist: map<int, WatchRow>
    var preferences: map<int, Preferences>
    var marks: Marks
    var digests: map<int, Digest>

    constructor ()
      ensures Valid() && View() == Tables(map[], map[]) && watchlist == map[] && preferences == map[]
    {
      watchlist, preferences, marks, digests := map[], map[], map[], map[];
    }

    ghost function View(): Tables
      reads this
    {
      Tables(marks, digests)
    }

    /** Only accepted preferences are stored. */
    ghost predicate Valid()
      reads this
    {
      forall u | u in preferences :: ValidPreferences(preferences[u])
    }

    /** The enabled entries with their owner's preferences, ordered by owner and id. */
    method ListNotificationSubscriptions() returns (subs: seq<Subscription>)
      ensures InListOrder(subs)
      ensures forall s :: s in subs <==>
        s.watchlistId in watchlist && watchlist[s.watchlistId].notifyEnabled
          && s == Joined(s.watchlistId, watchlist[s.watchlistId], preferences)
      ensures forall s | s in subs :: CarriesPreferences(s, watchlist[s.watchlistId], preferences)
      ensures forall i, j | 0 <= i < j < |subs| ::
        subs[i].userId < subs[j].userId
          || (subs[i].userId == subs[j].userId && subs[i].watchlistId < subs[j].watchlistId)
    {
      subs := [];
      var rest: set<int> := set id | id in watchlist && watchlist[id].notifyEnabled;
      while rest != {}
        invariant InListOrder(subs)
        invariant forall id | id in rest :: id in watchlist && watchlist[id].notifyEnabled
        invariant forall s :: s in subs <==>
          && s.watchlistId in watchlist && watchlist[s.watchlistId].notifyEnabled && s.watchlistId !in rest
          && s == Joined(s.watchlistId, watchlist[s.watchlistId], preferences)
        decreases |rest|
      {
        HasElement(rest);
        var id :| id in rest;
        InsertListedKeeps(subs, Joined(id, watchlist[id], preferences));
        subs := InsertListed(subs, Joined(id, watchlist[id], preferences));
        rest := rest - {id};
      }
    }

    /** The rows of one watchlist entry, in whatever order they are stored. */
    method ListWatchlistNotificationStates(watchlistId: int) returns (states: seq<NotificationState>)
      ensures Lists(marks, watchlistId, states)
    {
      states := [];
      var rest := set k | k in marks && k.watchlistId == watchlistId;
      while rest != {}
        invariant forall k | k in rest :: k in marks && k.watchlistId == watchlistId
        invariant forall s | s in states ::
          s.key in marks && s.key.watchlistId == watchlistId && marks[s.key] == s.mark && s.key !in rest
        invariant DistinctKeys(states)
        invariant forall k | k in marks && k.watchlistId == watchlistId ::
          k in rest || NotificationState(k, marks[k]) in states
        decreases |rest|
      {
        var k :| k in rest;
        states := states + [NotificationState(k, marks[k])];
        rest := rest - {k};
      }
    }

    method UpsertWatchlistNotificationState(state: NotificationState, ok: bool)
      modifies this`marks
      ensures View() == if ok then Apply(old(View()), MarkWritten(state)) else old(View())
    {
      if ok {
        marks := marks[state.key := state.mark];
      }
    }

    method GetUserNotificationDispatchState(userId: int) returns (row: Option<Digest>)
      ensures row == Get(digests, userId)
    {
      row := Get(digests, userId);
    }

    method UpsertUserNotificationDispatchState(userId: int, digest: Digest, ok: bool)
      modifies this`digests
      ensures View() == if ok then Apply(old(View()), DigestWritten(userId, digest)) else old(View())
    {
      if ok {
        digests := digests[userId := digest];
      }
    }
  }

  class UserAssetService {
    const repo: UserAssetRepository

    constructor (repo: UserAssetRepository)
      ensures this.repo == repo
    {
      this.repo := repo;
    }

    /** A missing row is created with the defaults; None is a failed read or write, which changes nothing. */
    method GetPreferences(userId: int, readOk: bool, writeOk: bool) returns (p: Option<Preferences>)
      requires repo.Valid()
      modifies repo`preferences
      ensures repo.Valid() && (p.Some? ==> ValidPreferences(p.value))
      ensures p == if !readOk then None
                   else if userId in old(repo.preferences) then Some(old(repo.preferences)[userId])
                   else if writeOk then Some(Preferences("credits", true, "daily_digest", "09:00")) else None
      ensures repo.preferences == if p.Some? then old(repo.preferences)[userId := p.value] else old(repo.preferences)
    {
      NineOClock();
      if !readOk {
        return None;
      }
      if userId in repo.preferences {
        assert repo.preferences == repo.preferences[userId := repo.preferences[userId]];
        return Some(repo.preferences[userId]);
      }
      if !writeOk {
        return None;
      }
      repo.preferences := repo.preferences[userId := DEFAULTS];
      return Some(DEFAULTS);
    }

    /** Rejected input and a failed write change nothing. */
    method UpdatePreferences(userId: int, currency: string, enabled: bool, mode: string, time: string, writeOk: bool)
      returns (stored: Option<Preferences>)
      requires repo.Valid()
      modifies repo`preferences
      ensures repo.Valid()
      ensures stored == if writeOk then AcceptPreferences(userId, currency, enabled, mode, time) else None
      ensures repo.preferences == if stored.Some? then old(repo.preferences)[userId := stored.value]
        else old(repo.preferences)
    {
      hide TrimSpace, ParseClock;
      AcceptedIsValid(userId, currency, enabled, mode, time);
      if userId <= 0 {
        return None;
      }
      var currency := if currency == "" then "credits" else currency;
      var mode := TrimSpace(mode);
      if mode == "" {
        mode := Dispatch.DAILY_DIGEST;
      }
      if mode != Dispatch.DAILY_DIGEST && mode != Dispatch.IMMEDIATE {
        return None;
      }
      var time := TrimSpace(time);
      if time == "" {
        time := "09:00";
      }
      if ParseClock(time).None? {
        return None;
      }
      if !writeOk {
        return None;
      }
      var accepted := Preferences(currency, enabled, mode, time);
      repo.preferences := repo.preferences[userId := accepted];
      return Some(accepted);
    }
  }

  /** A listing names each watchlist entry once, gives each user one mode, and every mode and time in it was
      accepted. */
  lemma ListingIsUniform(subs: seq<Subscription>, watchlist: map<int, WatchRow>, preferences: map<int, Preferences>)
    requires InListOrder(subs)
    requires forall s | s in subs ::
      s.watchlistId in watchlist && s == Joined(s.watchlistId, watchlist[s.watchlistId], preferences)
    requires forall u | u in preferences :: ValidPreferences(preferences[u])
    ensures OneEntryEach(subs) && OneModeEach(subs)
    ensures forall s | s in subs ::
      (s.mode == Dispatch.DAILY_DIGEST || s.mode == Dispatch.IMMEDIATE) && ParseClock(s.time).Some?
  {
    NineOClock();
    forall i, j | 0 <= i < j < |subs|
      ensures subs[i].watchlistId != subs[j].watchlistId
    {
      var (a, b) := (subs[i], subs[j]);
      assert a in subs && b in subs && ListedBefore(a, b);
    }
    forall i, j | 0 <= i < |subs| && 0 <= j < |subs| && subs[i].userId == subs[j].userId
      ensures subs[i].mode == subs[j].mode
    {
      var (a, b) := (subs[i], subs[j]);
      assert a in subs && b in subs;
    }
  }
}
