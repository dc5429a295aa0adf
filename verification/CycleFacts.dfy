/** What holds of every run of the alert engine, whatever fails and in whatever order maps are visited. */
module CycleFacts {
  import opened Options
  import opened Calendar
  import opened Grouping
  import opened Detection
  import opened AlertTables
  import opened Dispatch
  import opened Schedule
  import opened AlertCycle

  // ----- turns -----

  lemma {:induction false} TurnsMembers(turn: Turn, order: seq<int>)
    ensures forall e :: e in Turns(turn, order) <==> exists u :: u in order && e in turn(u)
  {
    if order != [] {
      var (front, last) := (order[..|order| - 1], order[|order| - 1]);
      assert order == front + [last];
      TurnsMembers(turn, front);
      forall e
        ensures e in Turns(turn, order) <==> exists u :: u in order && e in turn(u)
      {
        if e in turn(last) {
          assert last in order;
        }
        if e in Turns(turn, front) {
          var u :| u in front && e in turn(u);
          assert u in order;
        }
      }
    }
  }

  lemma {:induction false} TurnsOnce(turn: Turn, order: seq<int>, mail: bool)
    requires Distinct(order)
    requires forall u | u in order :: Once(turn(u), mail)
    requires forall u, v | u in order && v in order && u != v :: Apart(turn(u), turn(v), mail)
    ensures Once(Turns(turn, order), mail)
  {
    hide Once, Apart;
    if order == [] {
      EmptyOnce(mail);
    } else {
      var (front, last) := (order[..|order| - 1], order[|order| - 1]);
      assert last in order && forall u | u in front :: u in order;
      TurnsOnce(turn, front, mail);
      TurnsMembers(turn, front);
      ApartFromAll(turn, front, last, mail);
      OnceConcat(Turns(turn, front), turn(last), mail);
    }
  }

  lemma EmptyOnce(mail: bool)
    ensures Once([], mail)
  {
  }

  lemma ApartFromAll(turn: Turn, order: seq<int>, last: int, mail: bool)
    requires forall u | u in order :: Apart(turn(u), turn(last), mail)
    requires forall e :: e in Turns(turn, order) <==> exists u :: u in order && e in turn(u)
    ensures Apart(Turns(turn, order), turn(last), mail)
  {
  }

  lemma {:induction false} TurnsWithout(turn: Turn, order: seq<int>, i: nat)
    requires i < |order|
    ensures multiset(Turns(turn, order)) == multiset(Turns(turn, order[..i] + order[i + 1..]))
      + multiset(turn(order[i]))
    decreases |order|
  {
    var (front, last) := (order[..|order| - 1], order[|order| - 1]);
    if i == |order| - 1 {
      assert order[..i] + order[i + 1..] == front;
    } else {
      TurnsWithout(turn, front, i);
      var rest := order[..i] + order[i + 1..];
      assert rest[..|rest| - 1] == front[..i] + front[i + 1..] && rest[|rest| - 1] == last;
    }
  }

  /** Visiting the same users in another order produces the same bag of events. */
  lemma {:induction false} TurnsAnyOrder(turn: Turn, a: seq<int>, b: seq<int>)
    requires Distinct(a) && Distinct(b) && forall u :: u in a <==> u in b
    ensures multiset(Turns(turn, a)) == multiset(Turns(turn, b))
    decreases |a|
  {
    hide Turns;
    if a == [] {
      if b != [] {
        HasUser(b);
      }
      assert a == b;
    } else {
      var u := a[|a| - 1];
      assert u in a && u in b;
      var j :| 0 <= j < |b| && b[j] == u;
      var (a', b') := (a[..|a| - 1] + a[|a| - 1 + 1..], b[..j] + b[j + 1..]);
      TurnsWithout(turn, a, |a| - 1);
      TurnsWithout(turn, b, j);
      WithoutMembers(a, |a| - 1);
      WithoutMembers(b, j);
      TurnsAnyOrder(turn, a', b');
    }
  }

  lemma HasUser(users: seq<int>)
    requires users != []
    ensures exists u :: u in users
  {
    var u := users[0];
    assert u in users;
  }

  lemma WithoutMembers(s: seq<int>, i: nat)
    requires Distinct(s) && i < |s|
    ensures var rest := s[..i] + s[i + 1..];
      Distinct(rest) && forall u :: u in rest <==> u in s && u != s[i]
  {
    var rest := s[..i] + s[i + 1..];
    assert forall k | 0 <= k < |rest| :: rest[k] == s[if k < i then k else k + 1];
    assert forall k | 0 <= k < |s| && k != i :: s[k] == rest[if k < i then k else k - 1];
  }

  // ----- where pending updates come from -----

  /** The subscription is the source of the update, found on the tables as they stood at the start. */
  ghost predicate FoundBy(t: Tables, kind: Kind, sub: Subscription, r: SubReplies, now: int,
                          user: int, immediate: bool, s: NotificationState) {
    && Considered(kind, sub, r) && sub.userId == user && Immediately(kind, sub) == immediate
    && s.key.watchlistId == sub.watchlistId
    && s in FindingsOf(t.marks, sub, r, now).sends
  }

  ghost predicate HasSource(t: Tables, kind: Kind, subs: seq<Subscription>, replies: seq<SubReplies>, now: int,
                            user: int, immediate: bool, s: NotificationState)
    requires |replies| == |subs|
  {
    exists j | 0 <= j < |subs| :: FoundBy(t, kind, subs[j], replies[j], now, user, immediate, s)
  }

  /** One user's pending notification: changes paired with updates, no key twice, every update with a source. */
  ghost predicate GoodPending(t: Tables, kind: Kind, subs: seq<Subscription>, replies: seq<SubReplies>, now: int,
                              u: int, p: Pending, immediate: bool)
    requires |replies| == |subs|
  {
    && p.userId == u && p.mode == (if immediate then IMMEDIATE else DAILY_DIGEST)
    && p.changes != [] && Paired(Findings(p.changes, [], p.updates))
    && DistinctKeys(p.updates)
    && forall s | s in p.updates :: HasSource(t, kind, subs, replies, now, u, immediate, s)
  }

  ghost predicate GoodQueue(t: Tables, kind: Kind, subs: seq<Subscription>, replies: seq<SubReplies>, now: int,
                            queue: Queue, immediate: bool)
    requires |replies| == |subs|
  {
    forall u | u in queue :: GoodPending(t, kind, subs, replies, now, u, queue[u], immediate)
  }

  /** The initial watermarks written: findings of considered subscriptions. */
  ghost predicate GoodInits(t: Tables, kind: Kind, subs: seq<Subscription>, replies: seq<SubReplies>, now: int,
                            events: seq<Event>)
    requires |replies| == |subs|
  {
    && WritesOnce(events)
    && forall e | e in events :: e.MarkWritten? && exists j | 0 <= j < |subs| ::
         && Considered(kind, subs[j], replies[j])
         && e.state.key.watchlistId == subs[j].watchlistId
         && e.state in FindingsOf(t.marks, subs[j], replies[j], now).inits
  }

  lemma SubFindings(t: Tables, sub: Subscription, r: SubReplies, now: int)
    requires Usable(r)
    ensures var found := FindingsOf(t.marks, sub, r, now);
      && Paired(found) && DistinctKeys(found.inits) && DistinctKeys(found.sends)
      && KeysIn(found.inits) !! KeysIn(found.sends)
      && (forall s | s in found.inits || s in found.sends ::
            s.key.watchlistId == sub.watchlistId && Advances(Get(t.marks, s.key), s.mark))
  {
    hide ParseDate, Grouped;
    GroupedIsGrouping(r.history.rows);
    FindingsSound(sub.watchlistId, r.item.item, Grouped(r.history.rows), TableLookup(t.marks, sub.watchlistId), now);
  }

  lemma SourceOfMore(t: Tables, kind: Kind, subs: seq<Subscription>, replies: seq<SubReplies>, now: int,
                     user: int, immediate: bool, s: NotificationState)
    requires subs != [] && |replies| == |subs|
    requires HasSource(t, kind, subs[..|subs| - 1], replies[..|subs| - 1], now, user, immediate, s)
    ensures HasSource(t, kind, subs, replies, now, user, immediate, s)
  {
    var j :| 0 <= j < |subs| - 1
      && FoundBy(t, kind, subs[..|subs| - 1][j], replies[..|subs| - 1][j], now, user, immediate, s);
    assert FoundBy(t, kind, subs[j], replies[j], now, user, immediate, s);
  }

  lemma QueueOfMore(t: Tables, kind: Kind, subs: seq<Subscription>, replies: seq<SubReplies>, now: int, queue: Queue,
                    immediate: bool)
    requires subs != [] && |replies| == |subs|
    requires GoodQueue(t, kind, subs[..|subs| - 1], replies[..|subs| - 1], now, queue, immediate)
    ensures GoodQueue(t, kind, subs, replies, now, queue, immediate)
  {
    hide HasSource, Paired, DistinctKeys;
    forall u | u in queue
      ensures GoodPending(t, kind, subs, replies, now, u, queue[u], immediate)
    {
      forall s | s in queue[u].updates
        ensures HasSource(t, kind, subs, replies, now, u, immediate, s)
      {
        SourceOfMore(t, kind, subs, replies, now, u, immediate, s);
      }
    }
  }

  /** Appending one more subscription's findings to a user's pending notification keeps it good. */
  lemma AppendIsGood(t: Tables, kind: Kind, subs: seq<Subscription>, replies: seq<SubReplies>, now: int, u: int,
                     p: Pending, immediate: bool, watchlistId: int, found: Findings)
    requires |replies| == |subs|
    requires p.userId == u && p.mode == (if immediate then IMMEDIATE else DAILY_DIGEST)
    requires Paired(Findings(p.changes, [], p.updates)) && DistinctKeys(p.updates)
    requires forall s | s in p.updates ::
      HasSource(t, kind, subs, replies, now, u, immediate, s) && s.key.watchlistId != watchlistId
    requires Paired(found) && DistinctKeys(found.sends) && found.changes != []
    requires forall s | s in found.sends ::
      HasSource(t, kind, subs, replies, now, u, immediate, s) && s.key.watchlistId == watchlistId
    ensures GoodPending(t, kind, subs, replies, now, u,
                        p.(changes := p.changes + found.changes, updates := p.updates + found.sends), immediate)
  {
    hide HasSource, ParseDate;
    var updates := p.updates + found.sends;
    forall i, j | 0 <= i < j < |updates|
      ensures updates[i].key != updates[j].key
    {
      if i < |p.updates| <= j {
        assert p.updates[i] in p.updates && found.sends[j - |p.updates|] in found.sends;
      }
    }
  }

  lemma NewSource(t: Tables, kind: Kind, subs: seq<Subscription>, replies: seq<SubReplies>, now: int, immediate: bool,
                  s: NotificationState)
    requires subs != [] && |replies| == |subs|
    requires FoundBy(t, kind, subs[|subs| - 1], replies[|subs| - 1], now, subs[|subs| - 1].userId, immediate, s)
    ensures HasSource(t, kind, subs, replies, now, subs[|subs| - 1].userId, immediate, s)
  {
  }

  lemma EarlierSource(t: Tables, kind: Kind, subs: seq<Subscription>, replies: seq<SubReplies>, now: int,
                      user: int, immediate: bool, s: NotificationState)
    requires subs != [] && |replies| == |subs| && OneEntryEach(subs)
    requires HasSource(t, kind, subs[..|subs| - 1], replies[..|subs| - 1], now, user, immediate, s)
    ensures s.key.watchlistId != subs[|subs| - 1].watchlistId
  {
    var n := |subs| - 1;
    var j :| 0 <= j < n && FoundBy(t, kind, subs[..n][j], replies[..n][j], now, user, immediate, s);
    assert subs[j].watchlistId != subs[n].watchlistId;
  }

  lemma EnqueueIsGood(t: Tables, kind: Kind, subs: seq<Subscription>, replies: seq<SubReplies>, now: int, queue: Queue,
                      immediate: bool)
    requires subs != [] && |replies| == |subs| && OneEntryEach(subs)
    requires GoodQueue(t, kind, subs[..|subs| - 1], replies[..|subs| - 1], now, queue, immediate)
    requires Considered(kind, subs[|subs| - 1], replies[|subs| - 1]) && Immediately(kind, subs[|subs| - 1]) == immediate
    ensures var (sub, found) := (subs[|subs| - 1], FindingsOf(t.marks, subs[|subs| - 1], replies[|subs| - 1], now));
      GoodQueue(t, kind, subs, replies, now,
                Enqueue(queue, if immediate then IMMEDIATE else DAILY_DIGEST, sub.userId, found), immediate)
  {
    hide FindingsOf, HasSource, Paired, DistinctKeys;
    var (n, sub, r, mode) := (|subs| - 1, subs[|subs| - 1], replies[|subs| - 1],
                              if immediate then IMMEDIATE else DAILY_DIGEST);
    var found := FindingsOf(t.marks, sub, r, now);
    SubFindings(t, sub, r, now);
    QueueOfMore(t, kind, subs, replies, now, queue, immediate);
    if found.changes != [] {
      var p := if sub.userId in queue then queue[sub.userId] else Pending(mode, sub.userId, [], []);
      forall s | s in found.sends
        ensures HasSource(t, kind, subs, replies, now, sub.userId, immediate, s)
      {
        NewSource(t, kind, subs, replies, now, immediate, s);
      }
      forall s | s in p.updates
        ensures s.key.watchlistId != sub.watchlistId
      {
        EarlierSource(t, kind, subs, replies, now, sub.userId, immediate, s);
      }
      EmptyPaired();
      AppendIsGood(t, kind, subs, replies, now, sub.userId, p, immediate, sub.watchlistId, found);
    }
  }

  lemma EmptyPaired()
    ensures Paired(NOTHING) && DistinctKeys([])
  {
  }

  lemma InitsOfMore(t: Tables, kind: Kind, subs: seq<Subscription>, replies: seq<SubReplies>, now: int,
                    events: seq<Event>)
    requires subs != [] && |replies| == |subs|
    requires GoodInits(t, kind, subs[..|subs| - 1], replies[..|subs| - 1], now, events)
    ensures GoodInits(t, kind, subs, replies, now, events)
  {
    hide FindingsOf, Once;
    forall e | e in events
      ensures exists j | 0 <= j < |subs| ::
         && Considered(kind, subs[j], replies[j])
         && e.state.key.watchlistId == subs[j].watchlistId
         && e.state in FindingsOf(t.marks, subs[j], replies[j], now).inits
    {
      var n := |subs| - 1;
      var j :| 0 <= j < n && Considered(kind, subs[..n][j], replies[..n][j])
        && e.state.key.watchlistId == subs[..n][j].watchlistId
        && e.state in FindingsOf(t.marks, subs[..n][j], replies[..n][j], now).inits;
      assert subs[j] == subs[..n][j] && replies[j] == replies[..n][j];
    }
  }

  lemma InitWritesAreGood(t: Tables, kind: Kind, subs: seq<Subscription>, replies: seq<SubReplies>, now: int,
                          events: seq<Event>)
    requires subs != [] && |replies| == |subs| && OneEntryEach(subs)
    requires GoodInits(t, kind, subs[..|subs| - 1], replies[..|subs| - 1], now, events)
    requires Considered(kind, subs[|subs| - 1], replies[|subs| - 1])
    ensures var found := FindingsOf(t.marks, subs[|subs| - 1], replies[|subs| - 1], now);
      GoodInits(t, kind, subs, replies, now, events + InitWrites(found, replies[|subs| - 1]))
  {
    hide FindingsOf;
    var (n, sub, r) := (|subs| - 1, subs[|subs| - 1], replies[|subs| - 1]);
    var found := FindingsOf(t.marks, sub, r, now);
    var added := InitWrites(found, r);
    SubFindings(t, sub, r, now);
    InitsOfMore(t, kind, subs, replies, now, events);
    forall e | e in added
      ensures e.MarkWritten? && e.state in found.inits && e.state.key.watchlistId == sub.watchlistId
    {
      var i :| 0 <= i < |added| && added[i] == e;
      assert e.state == found.inits[i];
    }
    forall i, j | 0 <= i < j < |added|
      ensures SlotOf(added[i]) != SlotOf(added[j])
    {
      assert added[i].state == found.inits[i] && added[j].state == found.inits[j];
    }
    forall e | e in events
      ensures e.MarkWritten? && e.state.key.watchlistId != sub.watchlistId
    {
      var j :| 0 <= j < n && Considered(kind, subs[..n][j], replies[..n][j])
        && e.state.key.watchlistId == subs[..n][j].watchlistId
        && e.state in FindingsOf(t.marks, subs[..n][j], replies[..n][j], now).inits;
      assert subs[j].watchlistId != subs[n].watchlistId;
    }
    OnceConcat(events, added, false);
  }

  /** The first loop's result: sound queues, sound initial writes, and only due users in the digest queue. */
  lemma {:induction false} CollectIsGood(t: Tables, kind: Kind, subs: seq<Subscription>, replies: seq<SubReplies>,
                                         now: int)
    requires |replies| == |subs| && OneEntryEach(subs)
    ensures var c := Collect(t, kind, subs, replies, now);
      && GoodQueue(t, kind, subs, replies, now, c.immediate, true)
      && GoodQueue(t, kind, subs, replies, now, c.digest, false)
      && GoodInits(t, kind, subs, replies, now, c.events)
      && c.digest.Keys <= c.due
  {
    if subs != [] {
      var n := |subs| - 1;
      CollectIsGood(t, kind, subs[..n], replies[..n], now);
      var c := Collect(t, kind, subs[..n], replies[..n], now);
      SubscriptionStepIsGood(t, kind, subs, replies, now, c);
    }
  }

  lemma SubscriptionStepIsGood(t: Tables, kind: Kind, subs: seq<Subscription>, replies: seq<SubReplies>, now: int,
                               c: Collection)
    requires subs != [] && |replies| == |subs| && OneEntryEach(subs)
    requires var (n, front, back) := (|subs| - 1, subs[..|subs| - 1], replies[..|subs| - 1]);
      && GoodQueue(t, kind, front, back, now, c.immediate, true)
      && GoodQueue(t, kind, front, back, now, c.digest, false)
      && GoodInits(t, kind, front, back, now, c.events)
      && c.digest.Keys <= c.due
    ensures var c' := SubscriptionStep(t, c, kind, subs[|subs| - 1], replies[|subs| - 1], now);
      && GoodQueue(t, kind, subs, replies, now, c'.immediate, true)
      && GoodQueue(t, kind, subs, replies, now, c'.digest, false)
      && GoodInits(t, kind, subs, replies, now, c'.events)
      && c'.digest.Keys <= c'.due
  {
    hide FindingsOf, GoodQueue, GoodInits, ShouldProcessDigest, InitWrites;
    var (sub, r) := (subs[|subs| - 1], replies[|subs| - 1]);
    QueueOfMore(t, kind, subs, replies, now, c.immediate, true);
    QueueOfMore(t, kind, subs, replies, now, c.digest, false);
    InitsOfMore(t, kind, subs, replies, now, c.events);
    if Considered(kind, sub, r) {
      InitWritesAreGood(t, kind, subs, replies, now, c.events);
      EnqueueIsGood(t, kind, subs, replies, now,
                    if Immediately(kind, sub) then c.immediate else c.digest, Immediately(kind, sub));
    }
  }
}
