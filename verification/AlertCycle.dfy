/** One run of the alert engine as a specification: which events a scheduled cycle or a manual diff produces. */
module AlertCycle {
  import opened Options
  import opened Calendar
  import opened Grouping
  import opened Detection
  import opened AlertTables
  import opened Dispatch
  import opened Schedule

  datatype Subscription = Subscription(watchlistId: int, userId: int, itemId: string, currency: string,
                                       notificationsEnabled: bool, mode: string, time: string)

  datatype ItemReply = ItemError | NoItem | ItemFound(item: Item)

  datatype HistoryReply = HistoryError | NoHistory | HistoryFound(rows: seq<PriceRow>)

  /** The outcomes of the calls made for one subscription; `initOk(i)` is that of its i-th initial watermark. */
  datatype SubReplies = SubReplies(item: ItemReply, history: HistoryReply, listOk: bool, initOk: nat -> bool,
                                   digestOk: bool)

  /** A scheduled cycle, or a manual diff for one user (all users when the target is not positive). */
  datatype Kind = Scheduled | Manual(target: int)

  predicate Chosen(kind: Kind, sub: Subscription) {
    kind.Manual? && kind.target > 0 ==> sub.userId == kind.target
  }

  predicate Usable(r: SubReplies) {
    r.item.ItemFound? && r.item.item.isActive && r.history.HistoryFound?
  }

  /** The subscription gets as far as reading its watermarks. */
  predicate Considered(kind: Kind, sub: Subscription, r: SubReplies) {
    Chosen(kind, sub) && sub.notificationsEnabled && Usable(r)
  }

  function FindingsOf(marks: Marks, sub: Subscription, r: SubReplies, now: int): Findings
    requires Usable(r)
  {
    GroupedIsGrouping(r.history.rows);
    Detected(sub.watchlistId, r.item.item, Grouped(r.history.rows), TableLookup(marks, sub.watchlistId), now)
  }

  // ----- collecting -----

  type Queue = map<int, Pending>

  /** Appends a subscription's findings to its user's pending notification. */
  function Enqueue(queue: Queue, mode: string, user: int, found: Findings): Queue {
    if found.changes == [] then queue
    else
      var p := if user in queue then queue[user] else Pending(mode, user, [], []);
      queue[user := p.(changes := p.changes + found.changes, updates := p.updates + found.sends)]
  }

  /** What the first loop has accumulated; `failed` when it returned with an error. */
  datatype Collection = Collection(events: seq<Event>, immediate: Queue, digest: Queue, due: set<int>, failed: bool)

  const EMPTY := Collection([], map[], map[], {}, false)

  predicate Immediately(kind: Kind, sub: Subscription) {
    kind.Manual? || sub.mode == IMMEDIATE
  }

  function InitWrites(found: Findings, r: SubReplies): seq<Event> {
    MarkEvents(found.inits[..LeadingOk(r.initOk, |found.inits|)])
  }

  function SubscriptionStep(t: Tables, c: Collection, kind: Kind, sub: Subscription, r: SubReplies,
                            now: int): Collection {
    if c.failed || !Considered(kind, sub, r) then c
    else if !r.listOk then c.(failed := true)
    else
      var found := FindingsOf(t.marks, sub, r, now);
      var c := c.(events := c.events + InitWrites(found, r));
      if LeadingOk(r.initOk, |found.inits|) < |found.inits| then c.(failed := true)
      else if Immediately(kind, sub) then c.(immediate := Enqueue(c.immediate, IMMEDIATE, sub.userId, found))
      else
        match ShouldProcessDigest(sub.time, Get(t.digests, sub.userId), r.digestOk, now)
        case None => c.(failed := true)
        case Some(due) =>
          if !due then c
          else c.(due := c.due + {sub.userId}, digest := Enqueue(c.digest, DAILY_DIGEST, sub.userId, found))
  }

  function Collect(t: Tables, kind: Kind, subs: seq<Subscription>, replies: seq<SubReplies>, now: int): Collection
    requires |replies| == |subs|
  {
    if subs == [] then EMPTY
    else
      var n := |subs| - 1;
      SubscriptionStep(t, Collect(t, kind, subs[..n], replies[..n], now), kind, subs[n], replies[n], now)
  }

  // ----- dispatching -----

  /** The outcomes of a whole run's calls. Each user is dispatched at most once from each queue. */
  datatype RunReplies = RunReplies(subs: seq<SubReplies>, immediate: int -> DispatchReplies,
                                   digest: int -> DispatchReplies,
                                   emptyOk: int -> bool)

  /** A Go map visited in some order. */
  ghost predicate Visits(order: seq<int>, keys: set<int>) {
    Distinct(order) && forall u :: u in order <==> u in keys
  }

  /** What visiting a user produces. */
  type Turn = int -> seq<Event>

  function Turns(turn: Turn, order: seq<int>): seq<Event> {
    if order == [] then [] else Turns(turn, order[..|order| - 1]) + turn(order[|order| - 1])
  }

  function ImmediateTurn(queue: Queue, r: RunReplies, now: int): Turn {
    u => if u in queue then DispatchEvents(queue[u], r.immediate(u), now, false) else []
  }

  /** A due user's turn: the digest dispatch, or the empty mark when nothing is pending. */
  function DigestTurn(queue: Queue, r: RunReplies, now: int): Turn {
    u => if u in queue then DispatchEvents(queue[u], r.digest(u), now, true)
         else if r.emptyOk(u) then [DigestWritten(u, Digest(Some(DayOf(now)), None))]
         else []
  }

  /** The turn at which the cycle returns an error. */
  predicate TurnAborts(queue: Queue, r: RunReplies, u: int) {
    u !in queue && !r.emptyOk(u)
  }

  /** How many turns the digest loop completes. */
  function TurnsTaken(queue: Queue, r: RunReplies, order: seq<int>): (n: nat)
    ensures n <= |order|
    ensures forall i | 0 <= i < n :: !TurnAborts(queue, r, order[i])
    ensures n < |order| ==> TurnAborts(queue, r, order[n])
  {
    if order == [] then 0
    else
      var n := TurnsTaken(queue, r, order[..|order| - 1]);
      if n == |order| - 1 && !TurnAborts(queue, r, order[n]) then |order| else n
  }

  /** All events of a run: initial watermarks, then one dispatch per pending user, then the due users' turns. */
  function RunEvents(t: Tables, kind: Kind, subs: seq<Subscription>, r: RunReplies, now: int,
                     immediateOrder: seq<int>, dueOrder: seq<int>): seq<Event>
    requires |r.subs| == |subs|
  {
    var c := Collect(t, kind, subs, r.subs, now);
    if c.failed then c.events
    else
      c.events + Turns(ImmediateTurn(c.immediate, r, now), immediateOrder)
      + Turns(DigestTurn(c.digest, r, now), dueOrder[..TurnsTaken(c.digest, r, dueOrder)])
  }

  predicate RunFails(t: Tables, kind: Kind, subs: seq<Subscription>, r: RunReplies, now: int, dueOrder: seq<int>)
    requires |r.subs| == |subs|
  {
    var c := Collect(t, kind, subs, r.subs, now);
    c.failed || TurnsTaken(c.digest, r, dueOrder) < |dueOrder|
  }

  ghost predicate ValidRun(t: Tables, kind: Kind, subs: seq<Subscription>, r: RunReplies, now: int,
                           immediateOrder: seq<int>, dueOrder: seq<int>) {
    && |r.subs| == |subs|
    && OneEntryEach(subs)
    && var c := Collect(t, kind, subs, r.subs, now);
       !c.failed ==> Visits(immediateOrder, c.immediate.Keys) && Visits(dueOrder, c.due)
  }

  /** Watchlist ids are primary keys. */
  ghost predicate OneEntryEach(subs: seq<Subscription>) {
    forall i, j | 0 <= i < j < |subs| :: subs[i].watchlistId != subs[j].watchlistId
  }
}
