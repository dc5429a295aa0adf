/** What a caller can rely on after one scheduled cycle or manual diff. */
module RunGuarantees {
  import opened Options
  import opened Grouping
  import opened Detection
  import opened AlertTables
  import opened AlertCycle
  import opened CycleFacts
  import opened CycleTheorems
  import opened Redetection

  // ----- watermarks -----

  lemma EventsOfRun(t: Tables, kind: Kind, subs: seq<Subscription>, r: RunReplies, now: int,
                    immediateOrder: seq<int>, dueOrder: seq<int>, e: Event)
    requires ValidRun(t, kind, subs, r, now, immediateOrder, dueOrder)
    requires e in RunEvents(t, kind, subs, r, now, immediateOrder, dueOrder)
    ensures var c := Collect(t, kind, subs, r.subs, now);
      || e in c.events
      || (!c.failed && exists u, immediate :: Mine(t, kind, subs, r.subs, now, u, immediate, e))
  {
    hide Collect, Mine, GoodInits, Turns, TurnsTaken, MineAll;
    var c := Collect(t, kind, subs, r.subs, now);
    RunParts(t, kind, subs, r, now, immediateOrder, dueOrder);
    if !c.failed {
      LoopOnce(t, kind, subs, r.subs, now, ImmediateTurn(c.immediate, r, now), immediateOrder, true);
      LoopOnce(t, kind, subs, r.subs, now, DigestTurn(c.digest, r, now), dueOrder[..TurnsTaken(c.digest, r, dueOrder)],
               false);
    }
  }

  lemma MineAdvances(t: Tables, kind: Kind, subs: seq<Subscription>, replies: seq<SubReplies>, now: int,
                     u: int, immediate: bool, e: Event)
    requires |replies| == |subs| && Mine(t, kind, subs, replies, now, u, immediate, e) && e.MarkWritten?
    ensures Advances(Get(t.marks, e.state.key), e.state.mark)
  {
    hide FindingsOf;
    var s :| SameWatermark(s, e.state) && HasSource(t, kind, subs, replies, now, u, immediate, s);
    var j :| 0 <= j < |subs| && FoundBy(t, kind, subs[j], replies[j], now, u, immediate, s);
    SubFindings(t, subs[j], replies[j], now);
  }

  lemma InitsAdvance(t: Tables, kind: Kind, subs: seq<Subscription>, replies: seq<SubReplies>, now: int,
                     events: seq<Event>, e: Event)
    requires |replies| == |subs| && GoodInits(t, kind, subs, replies, now, events) && e in events
    ensures e.MarkWritten? && Advances(Get(t.marks, e.state.key), e.state.mark)
  {
    hide FindingsOf, Once;
    var j :| 0 <= j < |subs| && Considered(kind, subs[j], replies[j]) && e.state.key.watchlistId == subs[j].watchlistId
      && e.state in FindingsOf(t.marks, subs[j], replies[j], now).inits;
    SubFindings(t, subs[j], replies[j], now);
  }

  /** Whatever calls fail, a run writes each watermark at most once and only forward. */
  lemma RunIsPlanned(t: Tables, kind: Kind, subs: seq<Subscription>, r: RunReplies, now: int,
                     immediateOrder: seq<int>, dueOrder: seq<int>)
    requires ValidRun(t, kind, subs, r, now, immediateOrder, dueOrder)
    ensures Plan(t, RunEvents(t, kind, subs, r, now, immediateOrder, dueOrder))
  {
    hide Collect, Mine, GoodInits, GoodQueue, Once, RunEvents;
    var events := RunEvents(t, kind, subs, r, now, immediateOrder, dueOrder);
    RunOnce(t, kind, subs, r, now, immediateOrder, dueOrder, false);
    CollectIsGood(t, kind, subs, r.subs, now);
    forall e | e in events && e.MarkWritten?
      ensures Advances(Get(t.marks, e.state.key), e.state.mark)
    {
      EventsOfRun(t, kind, subs, r, now, immediateOrder, dueOrder, e);
      var c := Collect(t, kind, subs, r.subs, now);
      if e in c.events {
        InitsAdvance(t, kind, subs, r.subs, now, c.events, e);
      } else {
        var u, immediate :| Mine(t, kind, subs, r.subs, now, u, immediate, e);
        MineAdvances(t, kind, subs, r.subs, now, u, immediate, e);
      }
    }
  }

  // ----- mail -----

  /** At most one email per user in a run. */
  lemma OneEmailPerUser(t: Tables, kind: Kind, subs: seq<Subscription>, r: RunReplies, now: int,
                        immediateOrder: seq<int>, dueOrder: seq<int>, i: nat, j: nat)
    requires ValidRun(t, kind, subs, r, now, immediateOrder, dueOrder) && OneModeEach(subs)
    requires var events := RunEvents(t, kind, subs, r, now, immediateOrder, dueOrder);
      i < j < |events| && events[i].Emailed? && events[j].Emailed?
    ensures var events := RunEvents(t, kind, subs, r, now, immediateOrder, dueOrder); events[i].user != events[j].user
  {
    hide RunEvents;
    var events := RunEvents(t, kind, subs, r, now, immediateOrder, dueOrder);
    RunOnce(t, kind, subs, r, now, immediateOrder, dueOrder, true);
    assert SlotOf(events[i]) != SlotOf(events[j]);
  }

  // ----- order of visiting -----

  /** The digest loop completes in every order exactly when no due user's empty mark fails. */
  lemma AllTurnsTakenIff(queue: Queue, r: RunReplies, order: seq<int>)
    ensures TurnsTaken(queue, r, order) == |order| <==> forall u | u in order :: !TurnAborts(queue, r, u)
  {
    var n := TurnsTaken(queue, r, order);
    hide TurnsTaken, TurnAborts;
    if n < |order| {
      assert order[n] in order;
    }
  }

  /** When no empty mark fails, the order in which Go visits its maps changes neither the tables
      nor the bag of events, emails included. */
  lemma OrderDoesNotMatter(t: Tables, kind: Kind, subs: seq<Subscription>, r: RunReplies, now: int,
                           immediateOrder: seq<int>, dueOrder: seq<int>, immediateOrder': seq<int>, dueOrder': seq<int>)
    requires ValidRun(t, kind, subs, r, now, immediateOrder, dueOrder)
    requires ValidRun(t, kind, subs, r, now, immediateOrder', dueOrder')
    requires NoEmptyMarkFails(Collect(t, kind, subs, r.subs, now), r)
    ensures var (a, b) := (RunEvents(t, kind, subs, r, now, immediateOrder, dueOrder),
                           RunEvents(t, kind, subs, r, now, immediateOrder', dueOrder'));
      multiset(a) == multiset(b) && ApplyAll(t, a) == ApplyAll(t, b)
  {
    hide SubscriptionStep, Once, Turns, TurnsTaken;
    var c := Collect(t, kind, subs, r.subs, now);
    RunOnce(t, kind, subs, r, now, immediateOrder, dueOrder, false);
    RunOnce(t, kind, subs, r, now, immediateOrder', dueOrder', false);
    if !c.failed {
      NoAborts(c, r, dueOrder);
      NoAborts(c, r, dueOrder');
      TurnsAnyOrder(ImmediateTurn(c.immediate, r, now), immediateOrder, immediateOrder');
      TurnsAnyOrder(DigestTurn(c.digest, r, now), dueOrder, dueOrder');
      assert RunEvents(t, kind, subs, r, now, immediateOrder, dueOrder)
          == c.events + Turns(ImmediateTurn(c.immediate, r, now), immediateOrder)
            + Turns(DigestTurn(c.digest, r, now), dueOrder);
      assert RunEvents(t, kind, subs, r, now, immediateOrder', dueOrder')
          == c.events + Turns(ImmediateTurn(c.immediate, r, now), immediateOrder')
            + Turns(DigestTurn(c.digest, r, now), dueOrder');
      BagOfParts(c.events, Turns(ImmediateTurn(c.immediate, r, now), immediateOrder),
                 Turns(DigestTurn(c.digest, r, now), dueOrder),
                 Turns(ImmediateTurn(c.immediate, r, now), immediateOrder'),
                   Turns(DigestTurn(c.digest, r, now), dueOrder'));
    }
    assert multiset(RunEvents(t, kind, subs, r, now, immediateOrder, dueOrder))
        == multiset(RunEvents(t, kind, subs, r, now, immediateOrder', dueOrder'));
    BagDecidesTables(t, RunEvents(t, kind, subs, r, now, immediateOrder, dueOrder),
                     RunEvents(t, kind, subs, r, now, immediateOrder', dueOrder'));
  }

  /** Every due user without pending changes gets marked. */
  ghost predicate NoEmptyMarkFails(c: Collection, r: RunReplies) {
    forall u | u in c.due :: !TurnAborts(c.digest, r, u)
  }

  lemma NoAborts(c: Collection, r: RunReplies, order: seq<int>)
    requires Visits(order, c.due) && NoEmptyMarkFails(c, r)
    ensures TurnsTaken(c.digest, r, order) == |order|
    ensures order[..TurnsTaken(c.digest, r, order)] == order
  {
    forall u | u in order
      ensures !TurnAborts(c.digest, r, u)
    {
      assert u in c.due;
    }
    AllTurnsTakenIff(c.digest, r, order);
  }

  lemma BagOfParts(inits: seq<Event>, a: seq<Event>, b: seq<Event>, a': seq<Event>, b': seq<Event>)
    requires multiset(a) == multiset(a') && multiset(b) == multiset(b')
    ensures multiset(inits + a + b) == multiset(inits + a' + b')
  {
  }

  function DigestLoop(queue: Queue, r: RunReplies, now: int, order: seq<int>): seq<Event> {
    Turns(DigestTurn(queue, r, now), order[..TurnsTaken(queue, r, order)])
  }

  ghost predicate OrderFree(queue: Queue, r: RunReplies, now: int, due: set<int>) {
    forall a: seq<int>, b: seq<int> | Visits(a, due) && Visits(b, due) ::
      multiset(DigestLoop(queue, r, now, a)) == multiset(DigestLoop(queue, r, now, b))
  }

  /** The digest loop is independent of the visiting order exactly when no empty mark fails,
      or when no due user's turn would produce anything anyway. */
  lemma OrderFreeIff(queue: Queue, r: RunReplies, now: int, due: set<int>, order: seq<int>)
    requires Visits(order, due)
    ensures OrderFree(queue, r, now, due) <==>
      || (forall u | u in due :: !TurnAborts(queue, r, u))
      || (forall u | u in due :: DigestTurn(queue, r, now)(u) == [])
  {
    var turn := DigestTurn(queue, r, now);
    if forall u | u in due :: !TurnAborts(queue, r, u) {
      forall a: seq<int>, b: seq<int> | Visits(a, due) && Visits(b, due)
        ensures multiset(DigestLoop(queue, r, now, a)) == multiset(DigestLoop(queue, r, now, b))
      {
        AllTurnsTakenIff(queue, r, a);
        AllTurnsTakenIff(queue, r, b);
        assert a[..|a|] == a && b[..|b|] == b;
        TurnsAnyOrder(turn, a, b);
      }
    } else if forall u | u in due :: turn(u) == [] {
      forall a: seq<int>, b: seq<int> | Visits(a, due) && Visits(b, due)
        ensures multiset(DigestLoop(queue, r, now, a)) == multiset(DigestLoop(queue, r, now, b))
      {
        SilentTurns(turn, a[..TurnsTaken(queue, r, a)]);
        SilentTurns(turn, b[..TurnsTaken(queue, r, b)]);
      }
    } else {
      var u :| u in due && TurnAborts(queue, r, u);
      var v :| v in due && turn(v) != [];
      var a := ToFront(order, u);
      var b := ToFront(a, v);
      AbortsFirst(queue, r, now, a);
      AbortsSecond(queue, r, now, b);
      assert !OrderFree(queue, r, now, due) by {
        assert Visits(a, due) && Visits(b, due);
        assert multiset(DigestLoop(queue, r, now, a)) == multiset{};
        assert DigestLoop(queue, r, now, b)[0] in multiset(DigestLoop(queue, r, now, b));
      }
    }
  }

  lemma {:induction false} SilentTurns(turn: Turn, order: seq<int>)
    requires forall u | u in order :: turn(u) == []
    ensures Turns(turn, order) == []
  {
    if order != [] {
      var last := order[|order| - 1];
      assert last in order && forall u | u in order[..|order| - 1] :: u in order;
      assert turn(last) == [];
      SilentTurns(turn, order[..|order| - 1]);
    }
  }

  /** The same users with u visited first. */
  lemma ToFront(order: seq<int>, u: int) returns (out: seq<int>)
    requires Distinct(order) && u in order
    ensures out != [] && out[0] == u && Distinct(out) && forall x :: x in out <==> x in order
    ensures order[0] != u ==> |out| > 1 && out[1] == order[0]
  {
    var i :| 0 <= i < |order| && order[i] == u;
    var rest := order[..i] + order[i + 1..];
    WithoutMembers(order, i);
    out := [u] + rest;
    assert forall k | 0 < k < |out| :: out[k] == rest[k - 1] && rest[k - 1] in rest;
    assert i > 0 ==> rest[0] == order[0];
  }

  lemma AbortsFirst(queue: Queue, r: RunReplies, now: int, order: seq<int>)
    requires order != [] && TurnAborts(queue, r, order[0])
    ensures DigestLoop(queue, r, now, order) == []
  {
    var none: seq<int> := order[..TurnsTaken(queue, r, order)];
    assert TurnsTaken(queue, r, order) == 0;
    assert none == [];
    assert Turns(DigestTurn(queue, r, now), none) == [];
  }

  lemma AbortsSecond(queue: Queue, r: RunReplies, now: int, order: seq<int>)
    requires |order| > 1 && TurnAborts(queue, r, order[1]) && DigestTurn(queue, r, now)(order[0]) != []
    ensures DigestLoop(queue, r, now, order) != []
  {
    assert TurnsTaken(queue, r, order) == 1;
    assert order[..1][..0] == [] && order[..1][0] == order[0];
  }
}
