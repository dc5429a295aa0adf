/** The two notification tables, and the events through which the alert engine changes them. */
module AlertTables {
  import opened Options
  import opened Detection

  /** A row of user_notification_dispatch_state. */
  datatype Digest = Digest(processedOn: Option<int>, sentAt: Option<int>)

  datatype Tables = Tables(marks: Marks, digests: map<int, Digest>)

  /** What a run does to the outside world, in order: successful table writes and delivered emails. */
  datatype Event =
    | MarkWritten(state: NotificationState)
    | DigestWritten(user: int, digest: Digest)
    | Emailed(user: int, mode: string, at: int, changes: seq<Change>)

  function Apply(t: Tables, e: Event): Tables {
    match e
    case MarkWritten(state) => t.(marks := t.marks[state.key := state.mark])
    case DigestWritten(user, digest) => t.(digests := t.digests[user := digest])
    case Emailed(_, _, _, _) => t
  }

  function ApplyAll(t: Tables, events: seq<Event>): Tables {
    if events == [] then t else Apply(ApplyAll(t, events[..|events| - 1]), events[|events| - 1])
  }

  lemma {:induction false} ApplyConcat(t: Tables, a: seq<Event>, b: seq<Event>)
    ensures ApplyAll(t, a + b) == ApplyAll(ApplyAll(t, a), b)
  {
    if b == [] {
      assert a + b == a;
    } else {
      var front := b[..|b| - 1];
      ApplyConcat(t, a, front);
      assert (a + b)[..|a + b| - 1] == a + front;
    }
  }

  lemma ApplyOne(t: Tables, events: seq<Event>, e: Event)
    ensures ApplyAll(t, events + [e]) == Apply(ApplyAll(t, events), e)
  {
    assert (events + [e])[..|events|] == events;
  }

  // ----- which rows a run writes -----

  ghost predicate WritesMark(events: seq<Event>, key: MarkKey) {
    exists e :: e in events && e.MarkWritten? && e.state.key == key
  }

  ghost predicate WritesDigest(events: seq<Event>, user: int) {
    exists e :: e in events && e.DigestWritten? && e.user == user
  }

  lemma {:induction false} MarkUntouched(t: Tables, events: seq<Event>, key: MarkKey)
    requires !WritesMark(events, key)
    ensures Get(ApplyAll(t, events).marks, key) == Get(t.marks, key)
  {
    if events != [] {
      var (front, last) := (events[..|events| - 1], events[|events| - 1]);
      assert last in events && forall e | e in front :: e in events;
      MarkUntouched(t, front, key);
    }
  }

  lemma {:induction false} DigestUntouched(t: Tables, events: seq<Event>, user: int)
    requires !WritesDigest(events, user)
    ensures Get(ApplyAll(t, events).digests, user) == Get(t.digests, user)
  {
    if events != [] {
      var (front, last) := (events[..|events| - 1], events[|events| - 1]);
      assert last in events && forall e | e in front :: e in events;
      DigestUntouched(t, front, user);
    }
  }

  /** The row an event writes, or the mailbox it fills. */
  datatype Slot = MarkSlot(key: MarkKey) | DigestSlot(user: int) | MailSlot(user: int)

  function SlotOf(e: Event): Slot {
    match e
    case MarkWritten(state) => MarkSlot(state.key)
    case DigestWritten(user, _) => DigestSlot(user)
    case Emailed(user, _, _, _) => MailSlot(user)
  }

  /** No row is written twice and, when mail counts too, no user is mailed twice. */
  ghost predicate Once(events: seq<Event>, mail: bool) {
    forall i, j | 0 <= i < j < |events| && (mail || !events[i].Emailed?) :: SlotOf(events[i]) != SlotOf(events[j])
  }

  ghost predicate WritesOnce(events: seq<Event>) {
    Once(events, false)
  }

  /** No slot is used on both sides. */
  ghost predicate Apart(a: seq<Event>, b: seq<Event>, mail: bool) {
    forall e, f | e in a && f in b && (mail || !e.Emailed?) :: SlotOf(e) != SlotOf(f)
  }

  lemma OnceConcat(a: seq<Event>, b: seq<Event>, mail: bool)
    requires Once(a, mail) && Once(b, mail) && Apart(a, b, mail)
    ensures Once(a + b, mail)
  {
    hide SlotOf;
    var both := a + b;
    forall i, j | 0 <= i < j < |both| && (mail || !both[i].Emailed?)
      ensures SlotOf(both[i]) != SlotOf(both[j])
    {
      if i < |a| <= j {
        assert both[i] in a && both[j] in b;
      }
    }
  }

  lemma {:induction false} FinalMark(t: Tables, events: seq<Event>, state: NotificationState)
    requires WritesOnce(events) && MarkWritten(state) in events
    ensures Get(ApplyAll(t, events).marks, state.key) == Some(state.mark)
  {
    var (front, last) := (events[..|events| - 1], events[|events| - 1]);
    if last != MarkWritten(state) {
      assert events == front + [last];
      assert MarkWritten(state) in front;
      var i :| 0 <= i < |front| && front[i] == MarkWritten(state);
      assert events[i] == MarkWritten(state) && SlotOf(events[i]) != SlotOf(last);
      FinalMark(t, front, state);
    }
  }

  lemma {:induction false} FinalDigest(t: Tables, events: seq<Event>, user: int, digest: Digest)
    requires WritesOnce(events) && DigestWritten(user, digest) in events
    ensures Get(ApplyAll(t, events).digests, user) == Some(digest)
  {
    var (front, last) := (events[..|events| - 1], events[|events| - 1]);
    if last != DigestWritten(user, digest) {
      assert events == front + [last];
      assert DigestWritten(user, digest) in front;
      var i :| 0 <= i < |front| && front[i] == DigestWritten(user, digest);
      assert events[i] == DigestWritten(user, digest) && SlotOf(events[i]) != SlotOf(last);
      FinalDigest(t, front, user, digest);
    }
  }

  lemma SameRow<K, V>(a: map<K, V>, b: map<K, V>)
    requires forall k :: Get(a, k) == Get(b, k)
    ensures a == b
  {
    forall k
      ensures k in a <==> k in b
    {
      assert Get(a, k) == Get(b, k);
    }
    forall k | k in a
      ensures a[k] == b[k]
    {
      assert Get(a, k) == Get(b, k);
    }
  }

  /** When no row is written twice, the order of the writes does not matter. */
  lemma BagDecidesTables(t: Tables, a: seq<Event>, b: seq<Event>)
    requires WritesOnce(a) && WritesOnce(b) && multiset(a) == multiset(b)
    ensures ApplyAll(t, a) == ApplyAll(t, b)
  {
    assert forall e :: e in a <==> e in multiset(a);
    assert forall e :: e in b <==> e in multiset(b);
    forall k
      ensures Get(ApplyAll(t, a).marks, k) == Get(ApplyAll(t, b).marks, k)
    {
      if WritesMark(a, k) {
        var e :| e in a && e.MarkWritten? && e.state.key == k;
        FinalMark(t, a, e.state);
        FinalMark(t, b, e.state);
      } else {
        MarkUntouched(t, a, k);
        MarkUntouched(t, b, k);
      }
    }
    SameRow(ApplyAll(t, a).marks, ApplyAll(t, b).marks);
    forall u
      ensures Get(ApplyAll(t, a).digests, u) == Get(ApplyAll(t, b).digests, u)
    {
      if WritesDigest(a, u) {
        var e :| e in a && e.DigestWritten? && e.user == u;
        FinalDigest(t, a, u, e.digest);
        FinalDigest(t, b, u, e.digest);
      } else {
        DigestUntouched(t, a, u);
        DigestUntouched(t, b, u);
      }
    }
    SameRow(ApplyAll(t, a).digests, ApplyAll(t, b).digests);
  }

  // ----- watermarks only move forward -----

  /** Each watermark write advances the row as it stands at that moment. */
  ghost predicate Steps(t: Tables, events: seq<Event>) {
    forall i | 0 <= i < |events| && events[i].MarkWritten? ::
      Advances(Get(ApplyAll(t, events[..i]).marks, events[i].state.key), events[i].state.mark)
  }

  /** Each watermark write advances the row as it stood at the start, and no row is written twice. */
  ghost predicate Plan(t: Tables, events: seq<Event>) {
    && WritesOnce(events)
    && forall e | e in events && e.MarkWritten? :: Advances(Get(t.marks, e.state.key), e.state.mark)
  }

  lemma PlanSteps(t: Tables, events: seq<Event>)
    requires Plan(t, events)
    ensures Steps(t, events)
  {
    forall i | 0 <= i < |events| && events[i].MarkWritten?
      ensures Advances(Get(ApplyAll(t, events[..i]).marks, events[i].state.key), events[i].state.mark)
    {
      forall e | e in events[..i]
        ensures SlotOf(e) != SlotOf(events[i]) || e.Emailed?
      {
      }
      MarkUntouched(t, events[..i], events[i].state.key);
    }
  }

  lemma StepsConcat(t: Tables, a: seq<Event>, b: seq<Event>)
    requires Steps(t, a) && Steps(ApplyAll(t, a), b)
    ensures Steps(t, a + b)
  {
    var both := a + b;
    forall i | 0 <= i < |both| && both[i].MarkWritten?
      ensures Advances(Get(ApplyAll(t, both[..i]).marks, both[i].state.key), both[i].state.mark)
    {
      if i < |a| {
        assert both[..i] == a[..i];
      } else {
        assert both[..i] == a + b[..i - |a|];
        ApplyConcat(t, a, b[..i - |a|]);
      }
    }
  }

  predicate NotBack(before: Option<Mark>, after: Option<Mark>) {
    before.Some? ==>
      after.Some? && (before.value.day.Some?
                      ==> after.value.day.Some? && before.value.day.value <= after.value.day.value)
  }

  lemma OneStepNotBack(t: Tables, e: Event, key: MarkKey, before: Option<Mark>)
    requires e.MarkWritten? ==> Advances(Get(t.marks, e.state.key), e.state.mark)
    requires NotBack(before, Get(t.marks, key))
    ensures NotBack(before, Get(Apply(t, e).marks, key))
  {
  }

  /** Along a run that steps forward, a row never moves back. */
  lemma {:induction false} StepsNeverGoBack(t: Tables, events: seq<Event>, key: MarkKey)
    requires Steps(t, events)
    ensures NotBack(Get(t.marks, key), Get(ApplyAll(t, events).marks, key))
  {
    if events != [] {
      var (front, last) := (events[..|events| - 1], events[|events| - 1]);
      StepsPrefix(t, events, |front|);
      StepsNeverGoBack(t, front, key);
      OneStepNotBack(ApplyAll(t, front), last, key, Get(t.marks, key));
    }
  }

  lemma StepsSuffix(t: Tables, events: seq<Event>, i: nat)
    requires Steps(t, events) && i <= |events|
    ensures Steps(ApplyAll(t, events[..i]), events[i..])
  {
    var rest := events[i..];
    forall j | 0 <= j < |rest| && rest[j].MarkWritten?
      ensures Advances(Get(ApplyAll(ApplyAll(t, events[..i]), rest[..j]).marks, rest[j].state.key), rest[j].state.mark)
    {
      ApplyConcat(t, events[..i], rest[..j]);
      assert rest[..j] == events[i..i + j];
      assert events[..i] + rest[..j] == events[..i + j];
    }
  }

  lemma StepsPrefix(t: Tables, events: seq<Event>, i: nat)
    requires Steps(t, events) && i <= |events|
    ensures Steps(t, events[..i])
  {
    var front := events[..i];
    forall j | 0 <= j < |front| && front[j].MarkWritten?
      ensures Advances(Get(ApplyAll(t, front[..j]).marks, front[j].state.key), front[j].state.mark)
    {
      assert front[..j] == events[..j] && front[j] == events[j];
    }
  }

  lemma RowBetween(t: Tables, events: seq<Event>, i: nat, j: nat, key: MarkKey)
    requires Steps(t, events) && i < j <= |events|
    requires events[i].MarkWritten? && events[i].state.key == key && events[i].state.mark.day.Some?
    ensures var (first, row) := (events[i].state.mark, Get(ApplyAll(t, events[..j]).marks, key));
      && row.Some? && row.value.day.Some? && first.day.value <= row.value.day.value
      && (!WritesMark(events[i + 1..j], key) ==> row == Some(first))
  {
    hide Steps;
    var (head, between) := (events[..i + 1], events[i + 1..j]);
    assert head == events[..i] + [events[i]];
    ApplyOne(t, events[..i], events[i]);
    var after := ApplyAll(t, head);
    assert Get(after.marks, key) == Some(events[i].state.mark);
    assert events[..j][..i + 1] == head && events[..j][i + 1..] == between && head + between == events[..j];
    StepsPrefix(t, events, j);
    StepsSuffix(t, events[..j], i + 1);
    ApplyConcat(t, head, between);
    StepsNeverGoBack(after, between, key);
    if !WritesMark(between, key) {
      MarkUntouched(after, between, key);
    }
  }

  /** Any two writes of one key: the day does not go back, and if nothing wrote the key in between,
      the later write carries another (day, value) pair. */
  lemma WritesOfOneKey(t: Tables, events: seq<Event>, i: nat, j: nat)
    requires Steps(t, events) && i < j < |events|
    requires events[i].MarkWritten? && events[j].MarkWritten? && events[i].state.key == events[j].state.key
    ensures var (first, second) := (events[i].state.mark, events[j].state.mark);
      && first.day.Some? && second.day.Some? && first.day.value <= second.day.value
      && (!WritesMark(events[i + 1..j], events[i].state.key) ==> (first.day, first.value) != (second.day, second.value))
  {
    RowBetween(t, events, i, j, events[i].state.key);
  }
}
