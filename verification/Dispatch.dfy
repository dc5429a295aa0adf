/** One user's pending changes becoming one email, and the table writes that follow it. */
module Dispatch {
  import opened Options
  import opened GoStrings
  import opened Calendar
  import opened Grouping
  import opened Detection
  import opened AlertTables

  const IMMEDIATE := "immediate"
  const DAILY_DIGEST := "daily_digest"
  const SNAPSHOT := "snapshot"

  datatype Pending = Pending(mode: string, userId: int, changes: seq<Change>, updates: seq<NotificationState>)

  /** The answer of the auth service to a contact lookup. */
  datatype ContactReply = ContactError | NoContact | ContactFound(email: string, verified: bool)

  predicate CanMail(c: ContactReply) {
    c.ContactFound? && TrimSpace(c.email) != "" && c.verified
  }

  /** The outcomes of the calls one dispatch makes; `writeOk(i)` is that of the i-th state write. */
  datatype DispatchReplies = DispatchReplies(contact: ContactReply, renderOk: bool, sendOk: bool,
                                             writeOk: nat -> bool, digestOk: bool)

  datatype DispatchResult = Dispatched(sent: bool) | Failed

  /** How many of n calls succeed before the first failure. */
  function LeadingOk(ok: nat -> bool, n: nat): (k: nat)
    ensures k <= n
    ensures forall i: nat | i < k :: ok(i)
    ensures k < n ==> !ok(k)
  {
    if n == 0 then 0
    else
      var k := LeadingOk(ok, n - 1);
      if k == n - 1 && ok(n - 1) then n else k
  }

  // ----- the order of changes in an email -----

  /** The comparison handed to sort.Slice: most recently collected first, then by item name. */
  predicate ShownBefore(a: Change, b: Change) {
    if a.collectedAt == b.collectedAt then Less(a.itemName, b.itemName) else a.collectedAt > b.collectedAt
  }

  function InsertChange(changes: seq<Change>, c: Change): (out: seq<Change>)
    ensures multiset(out) == multiset(changes) + multiset{c}
  {
    if changes == [] then [c]
    else if ShownBefore(c, changes[0]) then [c] + changes
    else
      assert changes == [changes[0]] + changes[1..];
      [changes[0]] + InsertChange(changes[1..], c)
  }

  /** The changes in the order in which the email lists them. */
  function SortedChanges(changes: seq<Change>): (out: seq<Change>)
    ensures multiset(out) == multiset(changes)
  {
    if changes == [] then []
    else
      assert changes == changes[..|changes| - 1] + [changes[|changes| - 1]];
      InsertChange(SortedChanges(changes[..|changes| - 1]), changes[|changes| - 1])
  }

  ghost predicate ShownInOrder(changes: seq<Change>) {
    forall i, j | 0 <= i < j < |changes| :: !ShownBefore(changes[j], changes[i])
  }

  lemma NotBeforeTransitive(a: Change, b: Change, c: Change)
    requires !ShownBefore(b, a) && !ShownBefore(c, b)
    ensures !ShownBefore(c, a)
  {
    if ShownBefore(c, a) {
      LessTotal(a.itemName, b.itemName);
      LessTotal(b.itemName, c.itemName);
      if a.collectedAt == b.collectedAt == c.collectedAt && a.itemName != b.itemName && b.itemName != c.itemName {
        LessTransitive(a.itemName, b.itemName, c.itemName);
        LessAsymmetric(a.itemName, c.itemName);
      }
    }
  }

  lemma PrependChange(first: Change, changes: seq<Change>)
    requires ShownInOrder(changes) && forall x | x in changes :: !ShownBefore(x, first)
    ensures ShownInOrder([first] + changes)
  {
    var out := [first] + changes;
    forall i, j | 0 <= i < j < |out|
      ensures !ShownBefore(out[j], out[i])
    {
      assert out[j] == changes[j - 1] && changes[j - 1] in changes;
    }
  }

  lemma FirstIsShown(changes: seq<Change>, x: Change)
    requires ShownInOrder(changes) && x in changes
    ensures x == changes[0] || !ShownBefore(x, changes[0])
  {
  }

  lemma {:induction false} InsertChangeOrdered(changes: seq<Change>, c: Change)
    requires ShownInOrder(changes)
    ensures ShownInOrder(InsertChange(changes, c))
  {
    if changes == [] {
    } else if ShownBefore(c, changes[0]) {
      if c.collectedAt == changes[0].collectedAt {
        LessAsymmetric(c.itemName, changes[0].itemName);
      }
      forall x | x in changes
        ensures !ShownBefore(x, c)
      {
        FirstIsShown(changes, x);
        if x != changes[0] {
          NotBeforeTransitive(c, changes[0], x);
        }
      }
      PrependChange(c, changes);
    } else {
      var tail := InsertChange(changes[1..], c);
      InsertChangeOrdered(changes[1..], c);
      assert multiset(tail) == multiset(changes[1..] + [c]);
      SameMembers(tail, changes[1..] + [c]);
      PrependChange(changes[0], tail);
    }
  }

  lemma {:induction false} SortedChangesOrdered(changes: seq<Change>)
    ensures ShownInOrder(SortedChanges(changes))
  {
    if changes != [] {
      SortedChangesOrdered(changes[..|changes| - 1]);
      InsertChangeOrdered(SortedChanges(changes[..|changes| - 1]), changes[|changes| - 1]);
    }
  }

  // ----- one dispatch as a list of events -----

  function MarkEvents(states: seq<NotificationState>): (events: seq<Event>)
    ensures |events| == |states|
    ensures forall i | 0 <= i < |states| :: events[i] == MarkWritten(states[i])
  {
    seq(|states|, i requires 0 <= i < |states| => MarkWritten(states[i]))
  }

  /** The states with their time of notification replaced. */
  function Stamped(states: seq<NotificationState>, sentAt: Option<int>): (out: seq<NotificationState>)
    ensures |out| == |states|
    ensures forall i | 0 <= i < |states| :: out[i] == states[i].(mark := states[i].mark.(sentAt := sentAt))
  {
    seq(|states|, i requires 0 <= i < |states| => states[i].(mark := states[i].mark.(sentAt := sentAt)))
  }

  /** The time stamped on the watermarks: none when no email can go out. */
  function Stamp(r: DispatchReplies, now: int): Option<int> {
    if CanMail(r.contact) then Some(now) else None
  }

  function EmailOf(p: Pending, now: int): Event {
    Emailed(p.userId, p.mode, now, SortedChanges(p.changes))
  }

  /** An email is attempted and fails: nothing is written. */
  predicate EmailFails(p: Pending, r: DispatchReplies) {
    CanMail(r.contact) && p.changes != [] && !(r.renderOk && r.sendOk)
  }

  function EmailPart(p: Pending, r: DispatchReplies, now: int): seq<Event> {
    if CanMail(r.contact) && p.changes != [] && r.renderOk && r.sendOk then [EmailOf(p, now)] else []
  }

  /** The watermark writes that succeed: all up to the first failure. */
  function MarkPart(p: Pending, r: DispatchReplies, now: int): seq<Event> {
    if EmailFails(p, r) then []
    else MarkEvents(Stamped(p.updates, Stamp(r, now))[..LeadingOk(r.writeOk, |p.updates|)])
  }

  predicate DispatchSucceeds(p: Pending, r: DispatchReplies, markDigest: bool) {
    !EmailFails(p, r) && LeadingOk(r.writeOk, |p.updates|) == |p.updates| && (markDigest ==> r.digestOk)
  }

  function DigestPart(p: Pending, r: DispatchReplies, now: int, markDigest: bool): seq<Event> {
    if markDigest && DispatchSucceeds(p, r, true)
      then [DigestWritten(p.userId, Digest(Some(DayOf(now)), Stamp(r, now)))] else []
  }

  function DispatchEvents(p: Pending, r: DispatchReplies, now: int, markDigest: bool): seq<Event> {
    EmailPart(p, r, now) + MarkPart(p, r, now) + DigestPart(p, r, now, markDigest)
  }

  function DispatchOutcome(p: Pending, r: DispatchReplies, markDigest: bool): DispatchResult {
    if DispatchSucceeds(p, r, markDigest) then Dispatched(CanMail(r.contact) && p.changes != []) else Failed
  }

  // ----- what a dispatch can and cannot do -----

  /** How many of the updates reach the table. */
  function Reached(p: Pending, r: DispatchReplies): (k: nat)
    ensures k <= |p.updates|
  {
    if EmailFails(p, r) then 0 else LeadingOk(r.writeOk, |p.updates|)
  }

  /** The i-th update as it is written. */
  function StampedAt(p: Pending, r: DispatchReplies, now: int, i: nat): NotificationState
    requires i < |p.updates|
  {
    p.updates[i].(mark := p.updates[i].mark.(sentAt := Stamp(r, now)))
  }

  /** The watermark writes of a dispatch are the first updates of the list, and no others. */
  lemma MarksOfDispatch(p: Pending, r: DispatchReplies, now: int, markDigest: bool)
    ensures var events := DispatchEvents(p, r, now, markDigest);
      && (forall e | e in events && e.MarkWritten? :: exists i | 0 <= i < Reached(p, r) ::
          e.state == StampedAt(p, r, now, i))
      && (forall i | 0 <= i < Reached(p, r) :: MarkWritten(StampedAt(p, r, now, i)) in events)
  {
    hide CanMail, DayOf, SortedChanges;
    var (events, marks) := (DispatchEvents(p, r, now, markDigest), MarkPart(p, r, now));
    forall e | e in events && e.MarkWritten?
      ensures exists i | 0 <= i < Reached(p, r) :: e.state == StampedAt(p, r, now, i)
    {
      assert e in marks;
      var i :| 0 <= i < |marks| && marks[i] == e;
      assert e.state == StampedAt(p, r, now, i);
    }
    forall i | 0 <= i < Reached(p, r)
      ensures MarkWritten(StampedAt(p, r, now, i)) in events
    {
      assert marks[i] == MarkWritten(StampedAt(p, r, now, i)) && marks[i] in marks;
    }
  }

  /** Beyond the watermarks a dispatch writes its own user's digest row, with today, and sends that user's mail. */
  lemma DispatchStaysInside(p: Pending, r: DispatchReplies, now: int, markDigest: bool, e: Event)
    requires e in DispatchEvents(p, r, now, markDigest)
    ensures e.DigestWritten? ==> markDigest && e == DigestWritten(p.userId, Digest(Some(DayOf(now)), Stamp(r, now)))
    ensures e.Emailed? ==> e == EmailOf(p, now)
  {
    hide CanMail, DayOf, SortedChanges;
    assert e in EmailPart(p, r, now) || e in MarkPart(p, r, now) || e in DigestPart(p, r, now, markDigest);
  }

  /** A failed send leaves both tables alone and sends nothing. */
  lemma FailedSendChangesNothing(p: Pending, r: DispatchReplies, now: int, markDigest: bool)
    requires EmailFails(p, r)
    ensures DispatchEvents(p, r, now, markDigest) == []
    ensures DispatchOutcome(p, r, markDigest) == Failed
  {
  }

  /** The digest row becomes today's exactly when no call failed; with a digest email out, exactly when every write
      succeeded. */
  lemma DigestMarkedIff(p: Pending, r: DispatchReplies, now: int)
    ensures WritesDigest(DispatchEvents(p, r, now, true), p.userId) <==> DispatchOutcome(p, r, true).Dispatched?
    ensures EmailPart(p, r, now) != [] ==>
      (WritesDigest(DispatchEvents(p, r, now, true), p.userId)
       <==> (forall i: nat | i < |p.updates| :: r.writeOk(i)) && r.digestOk)
  {
    hide CanMail, DayOf, SortedChanges;
    var events := DispatchEvents(p, r, now, true);
    if DispatchSucceeds(p, r, true) {
      assert DigestPart(p, r, now, true)[0] in events;
    } else {
      assert events == EmailPart(p, r, now) + MarkPart(p, r, now);
      assert forall e | e in events :: e in EmailPart(p, r, now) || e in MarkPart(p, r, now);
    }
  }

  /** Watermarks advance without an email exactly when the contact cannot be mailed and a write gets through:
      those changes are lost. */
  lemma LostWithoutMailIff(p: Pending, r: DispatchReplies, now: int, markDigest: bool)
    requires p.changes != []
    ensures var events := DispatchEvents(p, r, now, markDigest);
      (exists e :: e in events && e.MarkWritten?) && (forall e | e in events :: !e.Emailed?)
      <==> !CanMail(r.contact) && Reached(p, r) > 0
  {
    hide CanMail, DayOf, SortedChanges;
    var events := DispatchEvents(p, r, now, markDigest);
    MarksOfDispatch(p, r, now, markDigest);
    if CanMail(r.contact) && Reached(p, r) > 0 {
      assert EmailPart(p, r, now) == [EmailOf(p, now)];
      assert EmailOf(p, now) in events;
    }
    forall e | e in events && e.Emailed?
      ensures CanMail(r.contact)
    {
      assert e in EmailPart(p, r, now);
    }
    if Reached(p, r) > 0 {
      assert MarkWritten(StampedAt(p, r, now, 0)) in events;
    }
  }

  /** A failing contact lookup is not even an error of the dispatch: with working writes every update is written,
      nobody is mailed, and success is reported. */
  lemma ContactErrorLosesAll(p: Pending, r: DispatchReplies, now: int, markDigest: bool)
    requires r.contact.ContactError? && (forall i: nat :: r.writeOk(i)) && r.digestOk
    ensures var events := DispatchEvents(p, r, now, markDigest);
      && (forall i | 0 <= i < |p.updates| :: MarkWritten(StampedAt(p, r, now, i)) in events)
      && forall e | e in events :: !e.Emailed?
    ensures DispatchOutcome(p, r, markDigest) == Dispatched(false)
  {
    hide DayOf, SortedChanges;
    MarksOfDispatch(p, r, now, markDigest);
    var k := LeadingOk(r.writeOk, |p.updates|);
  }

  // ----- what decides -----

  /** A contact can be mailed exactly when the lookup found a verified address that is not blank. */
  lemma MailableIff(c: ContactReply)
    ensures CanMail(c) <==> c.ContactFound? && c.verified && exists i | 0 <= i < |c.email| :: !IsSpace(c.email[i])
  {
    hide TrimSpace, IsSpace;
    if c.ContactFound? {
      BlankIff(c.email);
    }
  }

  /** An email goes out exactly for a verified address that is not blank, a pending change, and a rendering and a send
      that succeed; it is the user's, with the pending changes. */
  lemma EmailGoesOutIff(p: Pending, r: DispatchReplies, now: int, markDigest: bool)
    ensures (exists e :: e in DispatchEvents(p, r, now, markDigest) && e.Emailed?)
      <==> && r.contact.ContactFound? && r.contact.verified
           && (exists i | 0 <= i < |r.contact.email| :: !IsSpace(r.contact.email[i]))
           && p.changes != [] && r.renderOk && r.sendOk
    ensures forall e | e in DispatchEvents(p, r, now, markDigest) && e.Emailed? ::
      && e.user == p.userId && e.mode == p.mode && e.at == now && multiset(e.changes) == multiset(p.changes)
  {
    MailableIff(r.contact);
    hide CanMail, IsSpace, SortedChanges, DayOf;
    forall e | e in DispatchEvents(p, r, now, markDigest) && e.Emailed?
      ensures e in EmailPart(p, r, now)
    {
    }
    if EmailPart(p, r, now) != [] {
      assert EmailOf(p, now) in DispatchEvents(p, r, now, markDigest);
    }
  }

  /** Everything a dispatch writes is stamped with the time when its contact can be mailed, and with none otherwise. */
  lemma StampedIff(p: Pending, r: DispatchReplies, now: int, markDigest: bool, e: Event)
    requires e in DispatchEvents(p, r, now, markDigest)
    ensures var sentAt := if && r.contact.ContactFound? && r.contact.verified
                             && exists i | 0 <= i < |r.contact.email| :: !IsSpace(r.contact.email[i])
                          then Some(now) else None;
      && (e.MarkWritten? ==> e.state.mark.sentAt == sentAt)
      && (e.DigestWritten? ==> e.digest == Digest(Some(DayOf(now)), sentAt))
  {
    MailableIff(r.contact);
    MarksOfDispatch(p, r, now, markDigest);
    DispatchStaysInside(p, r, now, markDigest, e);
    hide CanMail, IsSpace, SortedChanges, DayOf, DispatchEvents;
  }

  /** The writes reach the i-th update exactly when no email failed and all writes up to it succeed. */
  lemma ReachedIff(p: Pending, r: DispatchReplies, i: nat)
    requires i < |p.updates|
    ensures i < Reached(p, r)
      <==> && (forall j: nat | j <= i :: r.writeOk(j))
           && (|| p.changes == [] || (r.renderOk && r.sendOk)
               || !(&& r.contact.ContactFound? && r.contact.verified
                    && exists k | 0 <= k < |r.contact.email| :: !IsSpace(r.contact.email[k])))
  {
    MailableIff(r.contact);
    hide CanMail, IsSpace;
    var k := LeadingOk(r.writeOk, |p.updates|);
  }

  /** What is reported: an email, exactly when one went out and every write after it succeeded; no email, exactly when
      none was due to go out and every write succeeded; a failure otherwise. */
  lemma ReportedIff(p: Pending, r: DispatchReplies, markDigest: bool)
    ensures var mailable := && r.contact.ContactFound? && r.contact.verified
                            && exists i | 0 <= i < |r.contact.email| :: !IsSpace(r.contact.email[i]);
      var written := (forall i: nat | i < |p.updates| :: r.writeOk(i)) && (markDigest ==> r.digestOk);
      && (DispatchOutcome(p, r, markDigest) == Dispatched(true)
          <==> mailable && p.changes != [] && r.renderOk && r.sendOk && written)
      && (DispatchOutcome(p, r, markDigest) == Dispatched(false) <==> !(mailable && p.changes != []) && written)
  {
    MailableIff(r.contact);
    hide CanMail, IsSpace;
    var k := LeadingOk(r.writeOk, |p.updates|);
  }

  /** In an email a change precedes every change collected earlier, and at one instant every change of an item named
      later. */
  lemma EmailOrder(changes: seq<Change>, i: nat, j: nat)
    requires i < j < |SortedChanges(changes)|
    ensures var (a, b) := (SortedChanges(changes)[i], SortedChanges(changes)[j]);
      a.collectedAt > b.collectedAt || (a.collectedAt == b.collectedAt && !Less(b.itemName, a.itemName))
  {
    SortedChangesOrdered(changes);
    hide SortedChanges;
  }

  // ----- a partial dispatch against the table -----

  /** Each update's row is at its old or its new watermark; the new ones are the first of the list. */
  lemma PartialDispatch(t: Tables, p: Pending, r: DispatchReplies, now: int, markDigest: bool, i: nat)
    requires DistinctKeys(p.updates) && i < |p.updates|
    ensures Get(ApplyAll(t, DispatchEvents(p, r, now, markDigest)).marks, p.updates[i].key) ==
      if i < Reached(p, r) then Some(StampedAt(p, r, now, i).mark) else Get(t.marks, p.updates[i].key)
  {
    hide CanMail, DayOf, SortedChanges;
    var events := DispatchEvents(p, r, now, markDigest);
    MarksOfDispatch(p, r, now, markDigest);
    DispatchWritesOnce(p, r, now, markDigest);
    hide DispatchEvents;
    if i < Reached(p, r) {
      FinalMark(t, events, StampedAt(p, r, now, i));
    } else {
      MarkUntouched(t, events, p.updates[i].key);
    }
  }

  lemma DispatchWritesOnce(p: Pending, r: DispatchReplies, now: int, markDigest: bool)
    requires DistinctKeys(p.updates)
    ensures Once(DispatchEvents(p, r, now, markDigest), true)
    ensures WritesOnce(DispatchEvents(p, r, now, markDigest))
  {
    hide CanMail, DayOf, SortedChanges;
    var events := DispatchEvents(p, r, now, markDigest);
    var (mail, marks, digest) := (EmailPart(p, r, now), MarkPart(p, r, now), DigestPart(p, r, now, markDigest));
    forall i, j | 0 <= i < j < |marks|
      ensures SlotOf(marks[i]) != SlotOf(marks[j])
    {
      assert marks[i].state.key == p.updates[i].key && marks[j].state.key == p.updates[j].key;
    }
    assert forall e | e in marks :: e.MarkWritten?;
    OnceConcat(mail, marks, true);
    OnceConcat(mail + marks, digest, true);
  }
}
