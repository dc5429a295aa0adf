/** The price-history synchronisation and the admin job that reports its progress. */
module PriceSync {
  import opened Options
  import opened GoStrings
  import opened Calendar
  import opened PriceTable

  // ----- jobs -----

  const RUNNING := "running"
  const COMPLETED := "completed"
  const FAILED := "failed"
  const SKIPPED := "skipped"

  /** How a job's runner returns. */
  datatype Outcome = Done | LockBusy | Error(text: string)

  predicate InRange(percents: seq<int>) {
    forall i | 0 <= i < |percents| :: 0 <= percents[i] <= 100
  }

  predicate Rising(percents: seq<int>) {
    forall i, j | 0 <= i < j < |percents| :: percents[i] <= percents[j]
  }

  class Job {
    const id: string
    const kind: string
    const meta: map<string, string>
    var status: string
    var progressPercent: int
    var processed: int
    var total: int
    var error: string
    var finishedAt: Option<int>
    /** Every value the percentage has had. */
    ghost var shown: seq<int>

    constructor (id: string, kind: string, meta: map<string, string>)
      ensures this.id == id && this.kind == kind && this.meta == meta && status == RUNNING && error == ""
      ensures progressPercent == processed == total == 0 && finishedAt == None && shown == [0]
    {
      this.id, this.kind, this.meta, status, error := id, kind, meta, RUNNING, "";
      progressPercent, processed, total, finishedAt, shown := 0, 0, 0, None, [0];
    }

    constructor Clone(job: Job)
      ensures SameAs(job) && shown == job.shown
    {
      id, kind, meta, status, error := job.id, job.kind, job.meta, job.status, job.error;
      progressPercent, processed, total, finishedAt, shown := job.progressPercent, job.processed, job.total,
        job.finishedAt, job.shown;
    }

    ghost predicate SameAs(job: Job)
      reads this, job
    {
      && id == job.id && kind == job.kind && meta == job.meta && status == job.status && error == job.error
      && progressPercent == job.progressPercent && processed == job.processed && total == job.total
      && finishedAt == job.finishedAt
    }

    ghost predicate Valid()
      reads this
    {
      shown != [] && shown[|shown| - 1] == progressPercent
    }

    method Show(percent: int)
      requires Valid()
      modifies this`progressPercent, this`shown
      ensures Valid() && progressPercent == percent && shown == old(shown) + [percent]
    {
      progressPercent, shown := percent, shown + [percent];
    }
  }

  class Manager {
    var jobs: map<string, Job>

    constructor ()
      ensures Valid() && jobs == map[]
    {
      jobs := map[];
    }

    /** Each job is stored under its own id, so distinct ids hold distinct jobs. */
    ghost predicate Valid()
      reads this, jobs.Values
    {
      forall id | id in jobs :: jobs[id].id == id && jobs[id].Valid()
    }

    /** The part of StartWithMeta before the goroutine: a running job under an unused id, and a copy for the caller. */
    method StartWithMeta(kind: string, nanos: int, meta: map<string, string>) returns (copy: Job, id: string)
      requires Valid() && kind + "-" + Itoa(nanos) !in jobs
      modifies this
      ensures Valid() && id == kind + "-" + Itoa(nanos) && jobs.Keys == old(jobs).Keys + {id}
      ensures forall x | x in old(jobs) :: jobs[x] == old(jobs)[x]
      ensures fresh(jobs[id]) && jobs[id].status == RUNNING && jobs[id].progressPercent == 0 && jobs[id].shown == [0]
      ensures fresh(copy) && copy != jobs[id] && copy.SameAs(jobs[id])
    {
      id := kind + "-" + Itoa(nanos);
      var job := new Job(id, kind, meta);
      jobs := jobs[id := job];
      copy := new Job.Clone(job);
    }

    /** The end of the goroutine: the status follows the runner's outcome. */
    method Finish(id: string, outcome: Outcome, at: int)
      requires Valid() && id in jobs
      modifies jobs[id]
      ensures Valid() && jobs[id].finishedAt == Some(at)
      ensures jobs[id].status == match outcome case Done => COMPLETED case LockBusy => SKIPPED case Error(_) => FAILED
      ensures jobs[id].error ==
        match outcome case Done => old(jobs[id].error) case LockBusy => "job lock busy" case Error(text) => text
      ensures outcome.Done? ==> jobs[id].shown == old(jobs[id].shown) + [100]
      ensures !outcome.Done? ==> jobs[id].shown == old(jobs[id].shown)
      ensures jobs[id].processed == old(jobs[id].processed) && jobs[id].total == old(jobs[id].total)
    {
      var job := jobs[id];
      job.finishedAt := Some(at);
      match outcome {
        case LockBusy => job.status, job.error := SKIPPED, "job lock busy";
        case Error(text) => job.status, job.error := FAILED, text;
        case Done =>
          job.status := COMPLETED;
          job.Show(100);
      }
    }

    /** A copy: later changes to the job do not show in it. */
    method Get(id: string) returns (copy: Job?)
      ensures id !in jobs <==> copy == null
      ensures copy != null ==> fresh(copy) && copy.SameAs(jobs[id])
    {
      if id !in jobs {
        return null;
      }
      copy := new Job.Clone(jobs[id]);
    }

    method UpdateProgress(id: string, processed: int, total: int)
      requires (id in jobs ==> jobs[id].Valid()) && 0 <= processed && 0 <= total
      modifies if id in jobs then {jobs[id]} else {}
      ensures id in jobs ==>
        && jobs[id].Valid() && jobs[id].processed == processed && jobs[id].total == total
        && jobs[id].status == old(jobs[id].status)
        && jobs[id].shown == old(jobs[id].shown) + if total > 0 then [Percent(processed, total)] else []
    {
      if id !in jobs {
        return;
      }
      var job := jobs[id];
      job.processed, job.total := processed, total;
      if total > 0 {
        job.Show(processed * 100 / total);
      }
    }
  }

  function Percent(processed: int, total: int): int
    requires 0 <= processed && total > 0
  {
    processed * 100 / total
  }

  // ----- observers -----

  class ProgressObserver {
    const manager: Manager
    const jobId: string
    var processed: int
    var total: int

    constructor (manager: Manager, jobId: string)
      ensures this.manager == manager && this.jobId == jobId && processed == total == 0
    {
      this.manager, this.jobId, processed, total := manager, jobId, 0, 0;
    }

    ghost predicate Valid()
      reads this, manager, if jobId in manager.jobs then {manager.jobs[jobId]} else {}
    {
      jobId in manager.jobs && manager.jobs[jobId].Valid() && 0 <= processed && 0 <= total
    }

    ghost function Job(): Job
      requires jobId in manager.jobs
      reads manager
    {
      manager.jobs[jobId]
    }

    method OnStart(total: nat)
      requires Valid()
      modifies this`total, Job()
      ensures Valid() && this.total == total
      ensures Job().shown == old(Job().shown) + Shown(processed, total) && Job().status == old(Job().status)
    {
      this.total := total;
      manager.UpdateProgress(jobId, processed, this.total);
    }

    method OnItemProcessed()
      requires Valid()
      modifies this`processed, Job()
      ensures Valid() && processed == old(processed) + 1
      ensures Job().shown == old(Job().shown) + Shown(processed, total) && Job().status == old(Job().status)
    {
      processed := processed + 1;
      manager.UpdateProgress(jobId, processed, total);
    }

    method OnFinish()
      requires Valid()
      modifies Job()
      ensures Valid()
      ensures Job().shown == old(Job().shown) + Shown(total, total) && Job().status == old(Job().status)
    {
      manager.UpdateProgress(jobId, total, total);
    }
  }

  /** What an update shows: nothing while the total is unknown. */
  function Shown(processed: int, total: int): seq<int>
    requires 0 <= processed && 0 <= total
  {
    if total > 0 then [Percent(processed, total)] else []
  }

  /** What is shown from the start until n items are processed. */
  function Progress(total: nat, n: nat): seq<int> {
    if n == 0 then Shown(0, total) else Progress(total, n - 1) + Shown(n, total)
  }

  /** countingObserver: counts for the schedule row and passes everything on. */
  class CountingObserver {
    const inner: ProgressObserver
    var processed: nat
    var total: nat

    constructor (inner: ProgressObserver)
      ensures this.inner == inner && processed == total == 0
    {
      this.inner, processed, total := inner, 0, 0;
    }

    ghost predicate Valid()
      reads this, inner, inner.manager, if inner.jobId in inner.manager.jobs then {inner.manager.jobs[inner.jobId]}
        else {}
    {
      inner.Valid() && inner.processed == processed && inner.total == total
    }

    ghost function Job(): Job
      requires inner.jobId in inner.manager.jobs
      reads inner.manager
    {
      inner.Job()
    }

    method OnStart(total: nat)
      requires Valid()
      modifies this`total, inner, Job()
      ensures Valid() && this.total == total
      ensures Job().shown == old(Job().shown) + Shown(processed, total) && Job().status == old(Job().status)
    {
      this.total := total;
      inner.OnStart(total);
    }

    method OnItemProcessed()
      requires Valid()
      modifies this`processed, inner, Job()
      ensures Valid() && processed == old(processed) + 1
      ensures Job().shown == old(Job().shown) + Shown(processed, total) && Job().status == old(Job().status)
    {
      processed := processed + 1;
      inner.OnItemProcessed();
    }

    method OnFinish()
      requires Valid()
      modifies Job()
      ensures Valid()
      ensures Job().shown == old(Job().shown) + Shown(total, total) && Job().status == old(Job().status)
    {
      inner.OnFinish();
    }
  }

  // ----- one item -----

  datatype CatalogItem = CatalogItem(id: string, isTarkov: bool)

  /** The integration's answer: an error of any kind, or a price whose fields may be missing. */
  datatype PriceReply = NoPrice | TopPrice(source: string, gameMode: string, value: Option<int>, currency: string,
                                           fetchedAt: Instant)

  function Modes(item: CatalogItem): seq<string> {
    if item.isTarkov then ["regular", "pve"] else [""]
  }

  /** The upstream answers and the outcomes of the upserts, by item and game mode. */
  datatype Upstream = Upstream(price: (string, string) -> PriceReply, storeOk: (string, string) -> bool)

  predicate Complete(p: PriceReply) {
    p.TopPrice? && p.value.Some? && p.currency != "" && p.fetchedAt != ZERO_TIME
  }

  /** The service's own checks: no blank item, source or currency, and a time of collection. */
  predicate Accepted(item: string, source: string, currency: string, collectedAt: Instant) {
    TrimSpace(item) != "" && TrimSpace(source) != "" && TrimSpace(currency) != "" && collectedAt != ZERO_TIME
  }

  predicate Stores(item: string, mode: string, up: Upstream) {
    var p := up.price(item, mode);
    Complete(p) && Accepted(item, p.source, p.currency, p.fetchedAt) && up.storeOk(item, mode)
  }

  /** The row a price becomes: trimmed fields, and the day it is collected for, or at when that is missing. */
  function KeyFor(item: string, source: string, gameMode: string, collectedOn: Instant,
                  collectedAt: Instant): PriceKey {
    PriceKey(TrimSpace(item), TrimSpace(source), TrimSpace(gameMode), CollectedDay(collectedOn, collectedAt))
  }

  function CollectedModes(prices: Prices, item: string, modes: seq<string>, up: Upstream): Prices {
    if modes == [] then prices
    else
      var (before, mode) := (CollectedModes(prices, item, modes[..|modes| - 1], up), modes[|modes| - 1]);
      if !Stores(item, mode, up) then before
      else
        var p := up.price(item, mode);
        before[KeyFor(item, p.source, p.gameMode, p.fetchedAt, p.fetchedAt) :=
               PriceCell(p.value.value, TrimSpace(p.currency), p.fetchedAt)]
  }

  function CollectedItems(prices: Prices, items: seq<CatalogItem>, up: Upstream): Prices {
    if items == [] then prices
    else
      var last := items[|items| - 1];
      CollectedModes(CollectedItems(prices, items[..|items| - 1], up), last.id, Modes(last), up)
  }

  function CountStored(item: string, modes: seq<string>, up: Upstream): nat {
    if modes == [] then 0
    else CountStored(item, modes[..|modes| - 1], up) + if Stores(item, modes[|modes| - 1], up) then 1 else 0
  }

  /** A price is stored under its trimmed fields and the day it is collected for, or at when that is missing. */
  lemma KeyIs(item: string, source: string, gameMode: string, collectedOn: Instant, collectedAt: Instant)
    ensures var key := KeyFor(item, source, gameMode, collectedOn, collectedAt);
      && key.item == TrimSpace(item) && key.source == TrimSpace(source) && key.gameMode == TrimSpace(gameMode)
      && key.day == DayOf(if DayStart(collectedOn) == ZERO_TIME then collectedAt else collectedOn)
  {
    hide TrimSpace;
  }

  /** UpsertPriceHistory of the catalog service. */
  method UpsertPriceHistory(repo: CatalogRepository, item: string, source: string, gameMode: string, value: int,
                            currency: string,
                            collectedOn: Instant, collectedAt: Instant, storeOk: bool) returns (ok: bool)
    modifies repo
    ensures ok <==> Accepted(item, source, currency, collectedAt) && storeOk
    ensures ok <==> && storeOk && collectedAt != ZERO_TIME
                    && TrimSpace(item) != "" && TrimSpace(source) != "" && TrimSpace(currency) != ""
    ensures repo.prices == if ok then old(repo.prices)[KeyFor(item, source, gameMode, collectedOn, collectedAt) :=
                                                       PriceCell(value, TrimSpace(currency), collectedAt)]
                           else old(repo.prices)
  {
    hide TrimSpace;
    if TrimSpace(item) == "" || TrimSpace(source) == "" || TrimSpace(currency) == "" {
      return false;
    }
    if collectedAt == ZERO_TIME {
      return false;
    }
    var collectedOn' := collectedOn;
    if collectedOn == ZERO_TIME {
      collectedOn' := collectedAt;
    }
    if !storeOk {
      return false;
    }
    repo.UpsertPriceHistory(TrimSpace(item), TrimSpace(source), TrimSpace(gameMode), value, TrimSpace(currency),
                            collectedOn', collectedAt);
    return true;
  }

  /** One game mode of an item: asked for, checked and stored. */
  method CollectMode(repo: CatalogRepository, item: string, mode: string, up: Upstream) returns (stored: bool)
    modifies repo
    ensures stored <==> Stores(item, mode, up)
    ensures repo.prices == if !stored then old(repo.prices)
                           else var p := up.price(item, mode);
                                old(repo.prices)[KeyFor(item, p.source, p.gameMode, p.fetchedAt, p.fetchedAt) :=
                                                 PriceCell(p.value.value, TrimSpace(p.currency), p.fetchedAt)]
  {
    hide CollectedDay, TrimSpace, KeyFor;
    var price := up.price(item, mode);
    if price.NoPrice? {
      return false;
    }
    if price.value.None? || price.currency == "" || price.fetchedAt == ZERO_TIME {
      return false;
    }
    stored := UpsertPriceHistory(repo, item, price.source, price.gameMode, price.value.value, price.currency,
                                 price.fetchedAt, price.fetchedAt, up.storeOk(item, mode));
  }

  lemma OneModeCollected(prices: Prices, item: string, modes: seq<string>, up: Upstream, i: nat)
    requires i < |modes|
    ensures var (before, mode) := (CollectedModes(prices, item, modes[..i], up), modes[i]);
      CollectedModes(prices, item, modes[..i + 1], up)
      == if !Stores(item, mode, up) then before
         else var p := up.price(item, mode);
              before[KeyFor(item, p.source, p.gameMode, p.fetchedAt, p.fetchedAt) :=
                     PriceCell(p.value.value, TrimSpace(p.currency), p.fetchedAt)]
    ensures CountStored(item, modes[..i + 1], up)
         == CountStored(item, modes[..i], up) + if Stores(item, modes[i], up) then 1 else 0
  {
    hide CollectedDay, TrimSpace, KeyFor, Accepted;
    assert modes[..i + 1][..i] == modes[..i];
  }

  method CollectItem(repo: CatalogRepository, item: CatalogItem, up: Upstream) returns (processed: nat)
    modifies repo
    ensures repo.prices == CollectedModes(old(repo.prices), item.id, Modes(item), up)
    ensures processed == CountStored(item.id, Modes(item), up)
    ensures CollectedAsAnswered(old(repo.prices), repo.prices, item, up, processed)
  {
    ItemCollected(repo.prices, item, up);
    ghost var prices := repo.prices;
    var modes := Modes(item);
    NoneCollected(prices, item.id, up);
    hide CollectedModes, CountStored, KeyFor, TrimSpace, Accepted, CollectedAsAnswered, Modes;
    processed := 0;
    assert modes[..0] == [];
    for i := 0 to |modes|
      invariant repo.prices == CollectedModes(prices, item.id, modes[..i], up)
      invariant processed == CountStored(item.id, modes[..i], up)
    {
      OneModeCollected(prices, item.id, modes, up, i);
      var stored := CollectMode(repo, item.id, modes[i], up);
      if !stored {
        continue;
      }
      processed := processed + 1;
    }
    assert modes[..|modes|] == modes;
  }

  lemma NoneCollected(prices: Prices, item: string, up: Upstream)
    ensures CollectedModes(prices, item, [], up) == prices && CountStored(item, [], up) == 0
  {
  }

  /** The item and the answer are complete, nothing in them is blank, the store accepts the row, and it is stored under
      this key: the trimmed fields and the day of the fetch. */
  ghost predicate StoredAs(item: string, mode: string, up: Upstream, key: PriceKey) {
    && up.price(item, mode).TopPrice? && up.storeOk(item, mode)
    && var p := up.price(item, mode);
    && p.value.Some? && p.fetchedAt != ZERO_TIME
    && TrimSpace(item) != "" && TrimSpace(p.source) != "" && TrimSpace(p.currency) != ""
    && key.item == TrimSpace(item) && key.source == TrimSpace(p.source) && key.gameMode == TrimSpace(p.gameMode)
    && key.day == DayOf(p.fetchedAt)
  }

  lemma StoredIff(item: string, mode: string, up: Upstream)
    ensures Stores(item, mode, up) <==> exists key :: StoredAs(item, mode, up, key)
    ensures forall key | StoredAs(item, mode, up, key) ::
      var p := up.price(item, mode); key == KeyFor(item, p.source, p.gameMode, p.fetchedAt, p.fetchedAt)
  {
    var p := up.price(item, mode);
    BlankIff("");
    if up.price(item, mode).TopPrice? {
      KeyIs(item, p.source, p.gameMode, p.fetchedAt, p.fetchedAt);
    }
    hide TrimSpace, CollectedDay, DayOf, KeyFor, IsSpace;
    if Stores(item, mode, up) {
      assert StoredAs(item, mode, up, KeyFor(item, p.source, p.gameMode, p.fetchedAt, p.fetchedAt));
    }
  }

  /** Under the key the table holds the answer of the last mode stored there, or without one what it held before. */
  ghost predicate HoldsCollected(before: Prices, after: Prices, item: string, modes: seq<string>, up: Upstream,
                                 key: PriceKey) {
    && ((forall m | m in modes :: !StoredAs(item, m, up, key)) ==> Get(after, key) == Get(before, key))
    && forall i | 0 <= i < |modes| && StoredAs(item, modes[i], up, key) && LastStored(item, modes, up, key, i) ::
         Get(after, key) == CellOf(up.price(item, modes[i]))
  }

  ghost predicate LastStored(item: string, modes: seq<string>, up: Upstream, key: PriceKey, i: nat) {
    forall j | i < j < |modes| :: !StoredAs(item, modes[j], up, key)
  }

  ghost function CellOf(p: PriceReply): Option<PriceCell> {
    if p.TopPrice? && p.value.Some? then Some(PriceCell(p.value.value, TrimSpace(p.currency), p.fetchedAt)) else None
  }

  lemma {:induction false} CollectedHolds(prices: Prices, item: string, modes: seq<string>, up: Upstream, key: PriceKey)
    ensures HoldsCollected(prices, CollectedModes(prices, item, modes, up), item, modes, up, key)
  {
    hide TrimSpace, CollectedDay, DayOf, DayStart, Stores, KeyFor, Accepted, Complete;
    if modes != [] {
      var (front, mode) := (modes[..|modes| - 1], modes[|modes| - 1]);
      CollectedHolds(prices, item, front, up, key);
      StoredIff(item, mode, up);
      var (before, after) := (CollectedModes(prices, item, front, up), CollectedModes(prices, item, modes, up));
      assert StoredAs(item, mode, up, key) ==> Get(after, key) == CellOf(up.price(item, mode));
      assert !StoredAs(item, mode, up, key) ==> Get(after, key) == Get(before, key);
      hide CollectedModes, CellOf;
      OneModeMore(prices, before, after, item, front, mode, up, key);
      assert modes == front + [mode];
    }
  }

  lemma OneModeMore(prices: Prices, before: Prices, after: Prices, item: string, front: seq<string>, mode: string,
                    up: Upstream, key: PriceKey)
    requires HoldsCollected(prices, before, item, front, up, key)
    requires StoredAs(item, mode, up, key) ==> Get(after, key) == CellOf(up.price(item, mode))
    requires !StoredAs(item, mode, up, key) ==> Get(after, key) == Get(before, key)
    ensures HoldsCollected(prices, after, item, front + [mode], up, key)
  {
    hide StoredAs, CellOf, LastStored;
    var modes := front + [mode];
    forall i | 0 <= i < |modes| && StoredAs(item, modes[i], up, key) && LastStored(item, modes, up, key, i)
      ensures Get(after, key) == CellOf(up.price(item, modes[i]))
    {
      if i < |front| {
        LastOfFront(item, front, mode, up, key, i);
      }
    }
    assert modes[|front|] == mode && mode in modes;
    assert forall m | m in front :: m in modes;
  }

  lemma LastOfFront(item: string, front: seq<string>, mode: string, up: Upstream, key: PriceKey, i: nat)
    requires i < |front| && LastStored(item, front + [mode], up, key, i)
    ensures LastStored(item, front, up, key, i) && !StoredAs(item, mode, up, key)
  {
    hide StoredAs;
    var modes := front + [mode];
    assert modes[|front|] == mode;
    assert forall j | 0 <= j < |front| :: modes[j] == front[j];
  }

  ghost function StoredModes(item: string, modes: seq<string>, up: Upstream): set<nat> {
    set i: nat | i < |modes| && (exists key :: StoredAs(item, modes[i], up, key))
  }

  lemma {:induction false} StoredCounted(item: string, modes: seq<string>, up: Upstream)
    ensures CountStored(item, modes, up) == |StoredModes(item, modes, up)|
  {
    hide Stores, StoredModes;
    if modes == [] {
      NoModes(item, up);
    } else {
      StoredCounted(item, modes[..|modes| - 1], up);
      StoredMore(item, modes, up);
    }
  }

  lemma NoModes(item: string, up: Upstream)
    ensures StoredModes(item, [], up) == {}
  {
  }

  lemma StoredMore(item: string, modes: seq<string>, up: Upstream)
    requires modes != []
    ensures |StoredModes(item, modes, up)|
         == |StoredModes(item, modes[..|modes| - 1], up)| + if Stores(item, modes[|modes| - 1], up) then 1 else 0
  {
    hide Stores, StoredModes, DayOf, TrimSpace;
    var (front, n) := (modes[..|modes| - 1], |modes| - 1);
    var (before, after) := (StoredModes(item, front, up), StoredModes(item, modes, up));
    assert modes == front + [modes[n]];
    forall i: nat
      ensures i in after <==> i in before || (i == n && Stores(item, modes[n], up))
      ensures i in before ==> i < n
    {
      StoredModesAt(item, modes, up, i);
      StoredModesAt(item, front, up, i);
    }
    assert after == before + if Stores(item, modes[n], up) then {n} else {};
  }

  lemma StoredModesAt(item: string, modes: seq<string>, up: Upstream, i: nat)
    ensures i in StoredModes(item, modes, up) <==> i < |modes| && Stores(item, modes[i], up)
  {
    hide Stores, StoredAs;
    if i < |modes| {
      StoredIff(item, modes[i], up);
    }
  }

  /** The table holds the answers for the item's game modes: "regular" and "pve" for a Tarkov item, none for others; and
      the modes stored are counted. */
  ghost predicate CollectedAsAnswered(before: Prices, after: Prices, item: CatalogItem, up: Upstream, processed: nat) {
    var modes := if item.isTarkov then ["regular", "pve"] else [""];
    && (forall key :: HoldsCollected(before, after, item.id, modes, up, key))
    && processed == |StoredModes(item.id, modes, up)|
  }

  lemma ItemCollected(prices: Prices, item: CatalogItem, up: Upstream)
    ensures CollectedAsAnswered(prices, CollectedModes(prices, item.id, Modes(item), up), item, up,
                                CountStored(item.id, Modes(item), up))
  {
    hide CollectedModes, CountStored, StoredModes, HoldsCollected;
    forall key
      ensures HoldsCollected(prices, CollectedModes(prices, item.id, Modes(item), up), item.id, Modes(item), up, key)
    {
      CollectedHolds(prices, item.id, Modes(item), up, key);
    }
    StoredCounted(item.id, Modes(item), up);
  }

  // ----- the two passes -----

  const BATCH_SIZE := 100

  /** LIMIT and OFFSET over the active items in their order. */
  function Page(items: seq<CatalogItem>, limit: nat, offset: nat): seq<CatalogItem> {
    if offset >= |items| then []
    else if offset + limit <= |items| then items[offset..offset + limit] else items[offset..]
  }

  /** The counting pass. */
  method CountItems(items: seq<CatalogItem>, listOk: nat -> bool) returns (total: Option<nat>)
    ensures total.Some? ==> total.value == |items|
    ensures total.None? ==> exists offset :: 0 <= offset <= |items| && !listOk(offset)
  {
    var (count, offset) := (0, 0);
    while true
      invariant 0 <= offset <= |items| && count == offset
      decreases |items| - offset
    {
      if !listOk(offset) {
        return None;
      }
      var page := Page(items, BATCH_SIZE, offset);
      if |page| == 0 {
        break;
      }
      count := count + |page|;
      if |page| < BATCH_SIZE {
        break;
      }
      offset := offset + BATCH_SIZE;
    }
    return Some(count);
  }

  method CollectAndReport(repo: CatalogRepository, item: CatalogItem, up: Upstream, o: CountingObserver)
    requires o.Valid()
    modifies repo, o`processed, o.inner, o.Job()
    ensures o.Valid() && o.processed == old(o.processed) + 1 && o.Job().status == old(o.Job().status)
    ensures repo.prices == CollectedModes(old(repo.prices), item.id, Modes(item), up)
    ensures o.Job().shown == old(o.Job().shown) + Shown(o.processed, o.total)
  {
    hide CollectedModes, Shown, CountStored, Stores;
    var _ := CollectItem(repo, item, up);
    o.OnItemProcessed();
  }

  /** One page of the collecting pass. */
  method CollectPage(repo: CatalogRepository, page: seq<CatalogItem>, up: Upstream, o: CountingObserver)
    requires o.Valid()
    modifies repo, o`processed, o.inner, o.Job()
    ensures o.Valid() && o.processed == old(o.processed) + |page| && o.Job().status == old(o.Job().status)
    ensures repo.prices == CollectedItems(old(repo.prices), page, up)
    ensures o.Job().shown == old(o.Job().shown) + Further(o.total, old(o.processed), |page|)
  {
    ghost var (prices, n, shown, status) := (repo.prices, o.processed, o.Job().shown, o.Job().status);
    NothingFurther(prices, up, o.total, n);
    hide CollectedItems, CollectedModes, Further, Shown;
    assert page[..0] == [];
    for i := 0 to |page|
      invariant o.Valid() && o.processed == n + i && o.Job().status == status
      invariant repo.prices == CollectedItems(prices, page[..i], up)
      invariant o.Job().shown == shown + Further(o.total, n, i)
    {
      CollectedNext(prices, page, i, up);
      FurtherNext(shown, o.total, n, i);
      CollectAndReport(repo, page[i], up, o);
    }
    assert page[..|page|] == page;
  }

  lemma NothingFurther(prices: Prices, up: Upstream, total: nat, n: nat)
    ensures CollectedItems(prices, [], up) == prices && Further(total, n, 0) == []
  {
  }

  lemma FurtherNext(shown: seq<int>, total: nat, n: nat, k: nat)
    ensures shown + Further(total, n, k + 1) == shown + Further(total, n, k) + Shown(n + k + 1, total)
  {
    hide Shown;
  }

  lemma CollectedNext(prices: Prices, items: seq<CatalogItem>, i: nat, up: Upstream)
    requires i < |items|
    ensures CollectedItems(prices, items[..i + 1], up)
         == CollectedModes(CollectedItems(prices, items[..i], up), items[i].id, Modes(items[i]), up)
  {
    hide CollectedModes;
    assert items[..i + 1][..i] == items[..i];
  }

  /** What is shown while k items are processed after the first n. */
  function Further(total: nat, n: nat, k: nat): seq<int> {
    if k == 0 then [] else Further(total, n, k - 1) + Shown(n + k, total)
  }

  lemma {:induction false} ProgressContinues(total: nat, n: nat, k: nat)
    ensures Progress(total, n) + Further(total, n, k) == Progress(total, n + k)
  {
    hide Shown;
    if k > 0 {
      ProgressContinues(total, n, k - 1);
    }
  }

  lemma {:induction false} CollectedConcat(prices: Prices, a: seq<CatalogItem>, b: seq<CatalogItem>, up: Upstream)
    ensures CollectedItems(prices, a + b, up) == CollectedItems(CollectedItems(prices, a, up), b, up)
  {
    hide CollectedModes;
    if b == [] {
      assert a + b == a;
    } else {
      CollectedConcat(prices, a, b[..|b| - 1], up);
      assert (a + b)[..|a + b| - 1] == a + b[..|b| - 1];
    }
  }

  /** RunOnce. The active items may change between the passes: `first` is the list being counted, `second` the one
      collected. Without a list error every item of the second list is collected exactly once, in order. */
  method RunOnce(repo: CatalogRepository, first: seq<CatalogItem>, second: seq<CatalogItem>, firstOk: nat -> bool,
                 secondOk: nat -> bool,
                 up: Upstream, o: CountingObserver) returns (finished: bool, counted: bool, visited: seq<CatalogItem>)
    requires o.Valid() && o.processed == 0 && o.total == 0
    modifies repo, o, o.inner, o.Job()
    ensures o.Valid() && o.processed == |visited| && o.Job().status == old(o.Job().status)
    ensures visited <= second && repo.prices == CollectedItems(old(repo.prices), visited, up)
    ensures !counted ==> !finished && visited == [] && o.Job().shown == old(o.Job().shown)
    ensures !counted ==> exists offset :: 0 <= offset <= |first| && !firstOk(offset)
    ensures counted ==> o.total == |first|
    ensures counted && !finished ==> o.Job().shown == old(o.Job().shown) + Progress(|first|, |visited|)
    ensures counted && !finished ==> exists offset :: 0 <= offset <= |second| + BATCH_SIZE && !secondOk(offset)
    ensures finished ==> counted && visited == second
    ensures finished ==> o.Job().shown == old(o.Job().shown) + Progress(|first|, |second|) + Shown(|first|, |first|)
  {
    hide CollectedItems, Percent, Progress, Further;
    visited := [];
    NothingCollected(repo.prices, up, |first|);
    var total := CountItems(first, firstOk);
    if total.None? {
      return false, false, visited;
    }
    counted := true;
    o.OnStart(total.value);
    var offset := 0;
    while true
      invariant 0 <= offset && visited == second[..if offset <= |second| then offset else |second|]
      invariant offset < |second| + BATCH_SIZE
      invariant o.Valid() && o.total == |first| && o.processed == |visited| && o.Job().status == old(o.Job().status)
      invariant repo.prices == CollectedItems(old(repo.prices), visited, up)
      invariant o.Job().shown == old(o.Job().shown) + Progress(|first|, |visited|)
      decreases |second| + BATCH_SIZE - offset
    {
      if !secondOk(offset) {
        return false, true, visited;
      }
      var page := Page(second, BATCH_SIZE, offset);
      if |page| == 0 {
        break;
      }
      CollectedConcat(old(repo.prices), visited, page, up);
      ProgressContinues(|first|, |visited|, |page|);
      CollectPage(repo, page, up, o);
      visited := visited + page;
      offset := offset + BATCH_SIZE;
    }
    o.OnFinish();
    finished := true;
  }

  lemma NothingCollected(prices: Prices, up: Upstream, total: nat)
    ensures CollectedItems(prices, [], up) == prices && Progress(total, 0) == Shown(0, total)
  {
  }

  // ----- the admin job -----

  /** How taking the shared lock turns out. */
  datatype LockReply = LockError(text: string) | Busy | Acquired

  /** What the job shows while n of the items counted as `total` are processed. */
  function ShownByRun(total: nat, n: nat, finished: bool): seq<int> {
    [0] + Progress(total, n) + if finished then Shown(total, total) else []
  }

  /** The same to the job's completion. */
  function JobShown(total: nat, n: nat, finished: bool): seq<int> {
    ShownByRun(total, n, finished) + [100]
  }

  /** RunWithExternalLock once the lock is taken: the collection under a counting observer for this job. */
  method RunWithLockHeld(manager: Manager, id: string, repo: CatalogRepository,
                         first: seq<CatalogItem>, second: seq<CatalogItem>, firstOk: nat -> bool, secondOk: nat -> bool,
                         up: Upstream) returns (counted: bool, finished: bool, visited: seq<CatalogItem>)
    requires manager.Valid() && id in manager.jobs && manager.jobs[id].shown == [0]
    modifies manager.jobs[id], repo
    ensures manager.Valid() && manager.jobs[id].status == old(manager.jobs[id].status)
    ensures visited <= second && (finished ==> visited == second)
      && repo.prices == CollectedItems(old(repo.prices), visited, up)
    ensures manager.jobs[id].shown == if counted then ShownByRun(|first|, |visited|, finished) else [0]
    ensures (forall k :: firstOk(k) && secondOk(k)) ==> counted && finished
  {
    hide CollectedItems, Progress, Shown;
    var inner := new ProgressObserver(manager, id);
    var o := new CountingObserver(inner);
    finished, counted, visited := RunOnce(repo, first, second, firstOk, secondOk, up, o);
  }

  /** StartPriceHistorySync, run to its end. A list error in RunOnce is not reported, so the job completes all the
      same. */
  method StartPriceHistorySync(manager: Manager, nanos: int, lock: LockReply, repo: CatalogRepository,
                               first: seq<CatalogItem>, second: seq<CatalogItem>, firstOk: nat -> bool,
                               secondOk: nat -> bool,
                               up: Upstream, at: int)
                                 returns (id: string, counted: bool, finished: bool, visited: seq<CatalogItem>)
    requires manager.Valid() && "price-history-sync" + "-" + Itoa(nanos) !in manager.jobs
    modifies manager, repo
    ensures manager.Valid() && id in manager.jobs && manager.jobs[id].finishedAt == Some(at)
    ensures manager.jobs[id].status ==
      match lock case LockError(_) => FAILED case Busy => SKIPPED case Acquired => COMPLETED
    ensures !lock.Acquired? ==> manager.jobs[id].shown == [0] && repo.prices == old(repo.prices)
    ensures lock.Acquired? ==> visited <= second && (finished
                                                     ==> visited == second)
                                                       && repo.prices == CollectedItems(old(repo.prices), visited, up)
    ensures lock.Acquired? ==>
      manager.jobs[id].shown == if counted then JobShown(|first|, |visited|, finished) else [0, 100]
    ensures (forall k :: firstOk(k) && secondOk(k)) && lock.Acquired? ==> counted && finished
  {
    hide CollectedItems, ShownByRun, Itoa;
    counted, finished, visited := false, false, [];
    var copy;
    copy, id := manager.StartWithMeta("price-history-sync", nanos, map[]);
    match lock {
      case LockError(text) => manager.Finish(id, Error(text), at);
      case Busy => manager.Finish(id, LockBusy, at);
      case Acquired =>
        counted, finished, visited := RunWithLockHeld(manager, id, repo, first, second, firstOk, secondOk, up);
        manager.Finish(id, Done, at);
    }
  }

  lemma TimesKeepsOrder(c: nat, x: int, y: int)
    requires x <= y
    ensures c * x <= c * y
  {
  }

  /** The percentage is the largest q with total * q <= 100 * n. */
  lemma PercentIs(n: nat, total: nat, q: int)
    requires total > 0
    ensures q <= Percent(n, total) <==> total * q <= 100 * n
  {
    var p := Percent(n, total);
    assert total * p <= n * 100 < total * (p + 1);
    if q <= p {
      TimesKeepsOrder(total, q, p);
    } else {
      TimesKeepsOrder(total, p + 1, q);
    }
  }

  lemma PercentBound(n: nat, total: nat)
    requires total > 0
    ensures Percent(n, total) >= 0
    ensures Percent(n, total) <= 100 <==> 100 * n < 101 * total
  {
    PercentIs(n, total, 0);
    PercentIs(n, total, 101);
  }

  lemma PercentMonotone(a: nat, b: nat, total: nat)
    requires total > 0 && a <= b
    ensures Percent(a, total) <= Percent(b, total)
  {
    var q := Percent(a, total);
    PercentIs(a, total, q);
    PercentIs(b, total, q);
  }

  lemma {:induction false} ProgressRises(total: nat, n: nat)
    requires total > 0
    ensures var shown := Progress(total, n);
      && |shown| == n + 1 && forall i | 0 <= i <= n :: shown[i] == Percent(i, total)
    ensures Rising(Progress(total, n))
  {
    hide Percent;
    if n > 0 {
      ProgressRises(total, n - 1);
    }
    var shown := Progress(total, n);
    forall i, j | 0 <= i < j < |shown|
      ensures shown[i] <= shown[j]
    {
      PercentMonotone(i, j, total);
    }
  }

  lemma NoTotalShowsNothing(n: nat)
    ensures Progress(0, n) == []
  {
    if n > 0 {
      NoTotalShowsNothing(n - 1);
    }
  }

  lemma PercentIsHundred(total: nat)
    requires total > 0
    ensures Percent(total, total) == 100
  {
    PercentIs(total, total, 100);
    PercentIs(total, total, 101);
  }

  /** The body of a job's display fits when its last percentage does. */
  lemma BodyBounded(total: nat, n: nat, i: nat)
    requires total > 0 && i <= n
    ensures Progress(total, n) != [] && i < |Progress(total, n)|
    ensures 0 <= Progress(total, n)[i] <= Percent(n, total)
  {
    hide Percent;
    ProgressRises(total, n);
    PercentBound(i, total);
    PercentMonotone(i, n, total);
  }

  lemma RisingAppend(percents: seq<int>, next: int)
    requires percents != []
    ensures Rising(percents + [next]) <==> Rising(percents) && percents[|percents| - 1] <= next
  {
    var all := percents + [next];
    if Rising(all) {
      assert forall i, j | 0 <= i < j < |percents| :: percents[i] == all[i] && percents[j] == all[j];
      assert all[|percents| - 1] <= all[|percents|];
    } else if Rising(percents) && percents[|percents| - 1] <= next {
      forall i, j | 0 <= i < j < |all|
        ensures all[i] <= all[j]
      {
        if j == |percents| && i < |percents| - 1 {
          assert percents[i] <= percents[|percents| - 1];
        }
      }
    }
  }

  /** The percentage stays within 0..100, never falls and ends at 100, exactly as long as the second pass does not
      overshoot the first count by a full percent; in particular whenever both passes see the same items. */
  lemma JobProgressIff(total: nat, n: nat, finished: bool)
    ensures var shown := JobShown(total, n, finished);
      && shown[|shown| - 1] == 100
      && (InRange(shown) && Rising(shown) <==> total == 0 || 100 * n < 101 * total)
  {
    hide Percent, Rising;
    var (shown, body) := (JobShown(total, n, finished), Progress(total, n));
    if total == 0 {
      NoTotalShowsNothing(n);
      assert shown == [0, 100];
      ZeroThenHundred();
    } else {
      var last := Percent(n, total);
      ProgressRises(total, n);
      PercentBound(n, total);
      PercentIsHundred(total);
      PercentBound(0, total);
      forall i | 0 <= i <= n
        ensures 0 <= body[i] <= last
      {
        BodyBounded(total, n, i);
      }
      ZeroInFront(body);
      var start := [0] + body;
      assert start[|start| - 1] == last;
      RisingAppend(start, 100);
      RisingAppend(start + [100], 100);
      if finished {
        assert shown == start + [100] + [100];
      } else {
        assert shown == start + [100];
      }
      assert shown[n + 1] == last;
    }
  }

  lemma ZeroThenHundred()
    ensures Rising([0, 100]) && InRange([0, 100])
  {
  }

  lemma ZeroInFront(body: seq<int>)
    requires Rising(body) && forall i | 0 <= i < |body| :: 0 <= body[i]
    ensures Rising([0] + body)
  {
    var all := [0] + body;
    assert forall i | 0 < i < |all| :: all[i] == body[i - 1];
  }
}
