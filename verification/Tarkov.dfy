/** The Tarkov importer: paging with a batch limit that shrinks as items are consumed, against a plain list
    specification. */
module Tarkov {
  import opened Options
  import opened GoStrings

  datatype TarkovItem = TarkovItem(id: string, name: string, description: string, iconLink: string, image512: string,
                                   avg24h: Option<int>, low24h: Option<int>, high24h: Option<int>, base: Option<int>,
                                   lastLow: Option<int>)

  datatype RawTranslation = RawTranslation(languageCode: string, name: string, description: string)

  datatype RawItem = RawItem(game: string, source: string, externalId: string, slug: string, name: string,
                             description: string, imageURL: string, translations: seq<RawTranslation>)

  datatype StreamError = FetchFailed | ConsumeFailed

  const PAGE_SIZE := 1000

  // ----- prices -----

  function PricesOf(item: TarkovItem): seq<Option<int>> {
    [item.avg24h, item.low24h, item.high24h, item.base, item.lastLow]
  }

  /** Some known price is positive. */
  predicate HasPrice(item: TarkovItem) {
    exists p: Option<int> :: p in PricesOf(item) && p.Some? && p.value > 0
  }

  method TarkovHasPrice(item: TarkovItem) returns (priced: bool)
    ensures priced <==> HasPrice(item)
  {
    var prices := PricesOf(item);
    for i := 0 to |prices|
      invariant forall j | 0 <= j < i :: !(prices[j].Some? && prices[j].value > 0)
    {
      if prices[i].Some? && prices[i].value > 0 {
        assert prices[i] in PricesOf(item);
        return true;
      }
    }
    return false;
  }

  // ----- one item -----

  function FallbackString(a: string, b: string): string {
    if TrimSpace(a) != "" then a else if TrimSpace(b) != "" then b else ""
  }

  function RawOf(item: TarkovItem, translations: seq<RawTranslation>): RawItem {
    RawItem("tarkov", "tarkov-dev", item.id, item.id, TrimSpace(item.name), TrimSpace(item.description),
            FallbackString(TrimSpace(item.image512), TrimSpace(item.iconLink)), translations)
  }

  /** The translation that a localized item gives: none when it is blank. */
  function Translated(language: string, item: TarkovItem, local: TarkovItem): seq<RawTranslation> {
    var (name, description) := (TrimSpace(local.name), TrimSpace(local.description));
    if name == "" && description == "" then []
    else [RawTranslation(language, FallbackString(name, TrimSpace(item.name)), description)]
  }

  // ----- the list specification -----

  /** Translations by position. */
  type Translations = seq<seq<RawTranslation>>

  /** The priced items in upstream order. */
  function Priced(items: seq<TarkovItem>, ts: Translations): (raws: seq<RawItem>)
    requires |ts| == |items|
    ensures |raws| <= |items|
  {
    if items == [] then []
    else
      var n := |items| - 1;
      Priced(items[..n], ts[..n]) + if HasPrice(items[n]) then [RawOf(items[n], ts[n])] else []
  }

  /** What an import of a list is meant to take: the first `limit` priced items, all of them when there is no limit. */
  function Wanted(items: seq<TarkovItem>, ts: Translations, limit: int): seq<RawItem>
    requires |ts| == |items|
  {
    var priced := Priced(items, ts);
    if 0 < limit < |priced| then priced[..limit] else priced
  }

  lemma PricedNext(items: seq<TarkovItem>, ts: Translations, i: nat)
    requires |ts| == |items| && i < |items|
    ensures Priced(items[..i + 1], ts[..i + 1])
         == Priced(items[..i], ts[..i]) + if HasPrice(items[i]) then [RawOf(items[i], ts[i])] else []
  {
    assert items[..i + 1][..i] == items[..i] && ts[..i + 1][..i] == ts[..i];
  }

  lemma {:induction false} PricedPrefix(items: seq<TarkovItem>, ts: Translations, i: nat)
    requires |ts| == |items| && i <= |items|
    ensures Priced(items[..i], ts[..i]) <= Priced(items, ts)
    decreases |items| - i
  {
    if i == |items| {
      assert items[..i] == items && ts[..i] == ts;
    } else {
      PricedNext(items, ts, i);
      PricedPrefix(items, ts, i + 1);
    }
  }

  /** What has been taken when the first i items are through is wanted, and all of it once the limit is reached. */
  lemma TakenIsWanted(items: seq<TarkovItem>, ts: Translations, limit: int, i: nat)
    requires |ts| == |items| && i <= |items| && (limit > 0 ==> |Priced(items[..i], ts[..i])| <= limit)
    ensures Priced(items[..i], ts[..i]) <= Wanted(items, ts, limit)
    ensures limit > 0 && |Priced(items[..i], ts[..i])| == limit
      ==> Priced(items[..i], ts[..i]) == Wanted(items, ts, limit)
    ensures i == |items| ==> Priced(items[..i], ts[..i]) == Wanted(items, ts, limit)
  {
    hide HasPrice, RawOf;
    PricedPrefix(items, ts, i);
    if i == |items| {
      assert items[..i] == items && ts[..i] == ts;
    }
  }

  // ----- translations -----

  predicate Translates(language: string) {
    language != "" && language != "en"
  }

  /** The localized list has the same items in the same places. */
  ghost predicate Parallel(items: seq<TarkovItem>, local: seq<TarkovItem>) {
    && |local| == |items|
    && (forall i | 0 <= i < |items| :: local[i].id == items[i].id)
    && forall i, j | 0 <= i < j < |items| :: items[i].id != items[j].id
  }

  /** A translation is that of a localized item with the same id, or there is none; over parallel lists it is the one
      in the same place. */
  ghost predicate Fits(items: seq<TarkovItem>, local: seq<TarkovItem>, language: string, i: nat, t: seq<RawTranslation>)
    requires i < |items|
  {
    if !Translates(language) then t == []
    else
      && (t == [] || exists l :: l in local && l.id == items[i].id && t == Translated(language, items[i], l))
      && (Parallel(items, local) ==> t == Translated(language, items[i], local[i]))
  }

  ghost predicate AllFit(items: seq<TarkovItem>, local: seq<TarkovItem>, language: string, ts: Translations) {
    |ts| == |items| && forall i | 0 <= i < |items| :: Fits(items, local, language, i, ts[i])
  }

  /** Before any page is fetched. */
  ghost function Expected(items: seq<TarkovItem>, local: seq<TarkovItem>, language: string): (ts: Translations)
    ensures AllFit(items, local, language, ts)
  {
    var ts := seq(|items|, i requires 0 <= i < |items| =>
      if Translates(language) && Parallel(items, local) then Translated(language, items[i], local[i]) else []);
    assert forall i | 0 <= i < |items| && Parallel(items, local) :: local[i] in local;
    ts
  }

  /** localizedByID: the last item of a page under its id. */
  function ById(page: seq<TarkovItem>): map<string, TarkovItem> {
    if page == [] then map[] else ById(page[..|page| - 1])[page[|page| - 1].id := page[|page| - 1]]
  }

  /** An id leads to its last item on the page. */
  lemma {:induction false} LastById(page: seq<TarkovItem>, k: nat)
    requires k < |page| && forall j | k < j < |page| :: page[j].id != page[k].id
    ensures page[k].id in ById(page) && ById(page)[page[k].id] == page[k]
  {
    if k < |page| - 1 {
      var front := page[..|page| - 1];
      assert forall j | k < j < |front| :: front[j].id == page[j].id;
      LastById(front, k);
      assert page[|page| - 1].id != page[k].id;
    }
  }

  lemma {:induction false} ByIdHolds(page: seq<TarkovItem>, id: string)
    ensures id in ById(page) ==> ById(page)[id] in page && ById(page)[id].id == id
    ensures forall l | l in page && l.id == id :: id in ById(page)
  {
    if page != [] {
      var (front, last) := (page[..|page| - 1], page[|page| - 1]);
      ByIdHolds(front, id);
      assert page == front + [last];
    }
  }

  function TranslationFor(byId: map<string, TarkovItem>, language: string, item: TarkovItem): seq<RawTranslation> {
    if item.id in byId then Translated(language, item, byId[item.id]) else []
  }

  /** The upstream page. */
  function Page(items: seq<TarkovItem>, offset: nat, limit: nat): (page: seq<TarkovItem>)
    ensures |page| <= limit
  {
    if offset >= |items| then []
    else if offset + limit <= |items| then items[offset..offset + limit] else items[offset..]
  }

  ghost predicate IsPage(items: seq<TarkovItem>, offset: nat, page: seq<TarkovItem>) {
    offset + |page| <= |items| && page == items[offset..offset + |page|]
  }

  /** A page starts at its offset, and a short one ends the list. */
  lemma PageIs(items: seq<TarkovItem>, offset: nat, limit: nat)
    requires offset <= |items|
    ensures var page := Page(items, offset, limit);
      IsPage(items, offset, page) && offset + |page| <= |items| && (|page| < limit ==> offset + |page| == |items|)
  {
  }

  lemma PageAt(items: seq<TarkovItem>, offset: nat, limit: nat, k: nat)
    requires k < |Page(items, offset, limit)|
    ensures offset + k < |items| && Page(items, offset, limit)[k] == items[offset + k]
  {
  }

  lemma PageHolds(items: seq<TarkovItem>, offset: nat, limit: nat, i: nat)
    requires offset <= i < |items| && i < offset + limit
    ensures items[i] in Page(items, offset, limit)
  {
    assert Page(items, offset, limit)[i - offset] == items[i];
  }

  lemma FoundOnPage(items: seq<TarkovItem>, offset: nat, limit: nat, item: TarkovItem) returns (k: nat)
    requires item in Page(items, offset, limit)
    ensures k < |items| && items[k] == item
  {
    hide Page;
    var page := Page(items, offset, limit);
    var at :| 0 <= at < |page| && page[at] == item;
    PageAt(items, offset, limit, at);
    k := offset + at;
  }

  /** What the map of a localized page gives for an item of the same base page fits. */
  lemma PageFits(items: seq<TarkovItem>, local: seq<TarkovItem>, language: string, offset: nat, limit: nat, i: nat)
    requires offset <= i < |items| && i < offset + |Page(items, offset, limit)| && Translates(language)
    ensures Fits(items, local, language, i, TranslationFor(ById(Page(local, offset, limit)), language, items[i]))
  {
    hide Translated, Page, ById;
    var (page, id) := (Page(local, offset, limit), items[i].id);
    ByIdHolds(page, id);
    if Parallel(items, local) {
      PageHolds(local, offset, limit, i);
    }
    if id in ById(page) {
      var k := FoundOnPage(local, offset, limit, ById(page)[id]);
      assert local[k] in local;
    }
  }

  // ----- streaming -----

  /** The first `offset` items are through and the limit is not reached. */
  ghost predicate Taken(items: seq<TarkovItem>, ts: Translations, limit: int, offset: nat, consumed: seq<RawItem>)
    requires |ts| == |items|
  {
    offset <= |items| && consumed == Priced(items[..offset], ts[..offset]) && (limit > 0 ==> |consumed| < limit)
  }

  lemma TakenSoFar(items: seq<TarkovItem>, ts: Translations, limit: int, offset: nat, consumed: seq<RawItem>)
    requires |ts| == |items| && Taken(items, ts, limit, offset, consumed)
    ensures consumed <= Wanted(items, ts, limit) && offset <= |items| && (limit > 0 ==> |consumed| < limit)
    ensures offset == |items| ==> consumed == Wanted(items, ts, limit)
  {
    TakenIsWanted(items, ts, limit, offset);
  }

  lemma NothingTaken(items: seq<TarkovItem>, ts: Translations, limit: int)
    requires |ts| == |items|
    ensures Taken(items, ts, limit, 0, [])
  {
  }

  /** Consumed are the wanted items with fitting translations; a prefix of them when not complete. */
  ghost predicate IsStreamed(items: seq<TarkovItem>, local: seq<TarkovItem>, language: string, limit: int,
                             consumed: seq<RawItem>, complete: bool) {
    exists ts | AllFit(items, local, language, ts) ::
      consumed <= Wanted(items, ts, limit) && (complete ==> consumed == Wanted(items, ts, limit))
  }

  /** The page's items have the translations that its map gives. */
  ghost predicate InPlace(items: seq<TarkovItem>, byId: map<string, TarkovItem>, language: string, ts: Translations,
                          offset: nat, n: nat) {
    |ts| == |items| && forall i | offset <= i < offset + n && i < |items| ::
      ts[i] == TranslationFor(byId, language, items[i])
  }

  /** Consumes one page. `done` says the limit was reached. */
  method ConsumePage(page: seq<TarkovItem>, byId: map<string, TarkovItem>, language: string, limit: int,
                     before: seq<RawItem>,
                     consumeOk: nat -> bool, ghost items: seq<TarkovItem>, ghost ts: Translations, ghost offset: nat)
    returns (consumed: seq<RawItem>, done: bool, error: Option<StreamError>)
    requires |ts| == |items| && IsPage(items, offset, page)
    requires InPlace(items, byId, language, ts, offset, |page|)
    requires Taken(items, ts, limit, offset, before)
    ensures error == None || error == Some(ConsumeFailed)
    ensures error.Some? ==> consumed <= Wanted(items, ts, limit) && !consumeOk(|consumed|)
    ensures error.None? && done ==> consumed == Wanted(items, ts, limit)
    ensures error.None? && !done ==> Taken(items, ts, limit, offset + |page|, consumed)
  {
    hide HasPrice, RawOf, Wanted, Priced, TranslationFor;
    consumed := before;
    for i := 0 to |page|
      invariant consumed == Priced(items[..offset + i], ts[..offset + i]) && (limit > 0 ==> |consumed| < limit)
    {
      PricedNext(items, ts, offset + i);
      TakenIsWanted(items, ts, limit, offset + i);
      if limit > 0 ==> |Priced(items[..offset + i + 1], ts[..offset + i + 1])| <= limit {
        TakenIsWanted(items, ts, limit, offset + i + 1);
      }
      var priced := TarkovHasPrice(page[i]);
      if !priced {
        continue;
      }
      if !consumeOk(|consumed|) {
        return consumed, false, Some(ConsumeFailed);
      }
      consumed := consumed + [RawOf(page[i], TranslationFor(byId, language, page[i]))];
      if limit > 0 && |consumed| >= limit {
        return consumed, true, None;
      }
    }
    return consumed, false, None;
  }

  /** The localized items of a page by id. */
  method IndexById(page: seq<TarkovItem>) returns (byId: map<string, TarkovItem>)
    ensures byId == ById(page)
    ensures forall k | 0 <= k < |page| && (forall j | k < j < |page| :: page[j].id != page[k].id) ::
      page[k].id in byId && byId[page[k].id] == page[k]
  {
    byId := map[];
    for i := 0 to |page|
      invariant byId == ById(page[..i])
    {
      assert page[..i + 1][..i] == page[..i];
      byId := byId[page[i].id := page[i]];
    }
    assert page[..|page|] == page;
    forall k | 0 <= k < |page| && (forall j | k < j < |page| :: page[j].id != page[k].id)
      ensures page[k].id in byId && byId[page[k].id] == page[k]
    {
      LastById(page, k);
    }
  }

  /** The translations of one page put in their places. */
  ghost function Placed(items: seq<TarkovItem>, byId: map<string, TarkovItem>, language: string, ts: Translations,
                        offset: nat, n: nat): (out: Translations)
    requires |ts| == |items| && offset + n <= |items|
    ensures |out| == |items| && out[..offset] == ts[..offset]
    ensures forall i | 0 <= i < |items| ::
      out[i] == if offset <= i < offset + n then TranslationFor(byId, language, items[i]) else ts[i]
  {
    seq(|items|, i requires 0 <= i < |items| =>
        if offset <= i < offset + n then TranslationFor(byId, language, items[i]) else ts[i])
  }

  /** The page's lookup map, empty when nothing is translated; whatever it holds fits. */
  method FetchLocalized(items: seq<TarkovItem>, local: seq<TarkovItem>, language: string, offset: nat, limit: nat,
                        ghost ts: Translations,
                        ghost max: int, ghost consumed: seq<RawItem>)
    returns (byId: map<string, TarkovItem>, ghost placed: Translations)
    requires offset <= |items| && AllFit(items, local, language, ts) && Taken(items, ts, max, offset, consumed)
    ensures AllFit(items, local, language, placed) && |placed| == |items| && Taken(items, placed, max, offset, consumed)
    ensures InPlace(items, byId, language, placed, offset, |Page(items, offset, limit)|)
  {
    hide Fits, Taken, Page;
    byId := map[];
    if Translates(language) {
      byId := IndexById(Page(local, offset, limit));
    }
    PageIs(items, offset, limit);
    ghost var n := |Page(items, offset, limit)|;
    placed := Placed(items, byId, language, ts, offset, n);
    forall i | 0 <= i < |items|
      ensures Fits(items, local, language, i, placed[i])
    {
      if offset <= i < offset + n {
        if Translates(language) {
          PageFits(items, local, language, offset, limit, i);
        } else {
          NothingFits(items, local, language, i);
        }
      }
    }
    StillTaken(items, local, language, ts, placed, max, offset, consumed);
  }

  lemma NothingFits(items: seq<TarkovItem>, local: seq<TarkovItem>, language: string, i: nat)
    requires i < |items| && !Translates(language)
    ensures Fits(items, local, language, i, [])
  {
  }

  /** A page, or what remains of the limit when that is less. */
  function BatchLimit(limit: int, processed: nat): (n: int)
    ensures n <= PAGE_SIZE && (limit > 0 ==> processed + n <= limit)
    ensures n < PAGE_SIZE ==> limit > 0 && processed + n == limit
  {
    if limit > 0 && limit - processed < PAGE_SIZE then limit - processed else PAGE_SIZE
  }

  /** A fetch at this offset fails, or the localized one where something is translated. */
  ghost predicate FetchFails(items: seq<TarkovItem>, language: string, fetchOk: nat -> bool, localOk: nat -> bool,
                             offset: nat) {
    offset <= |items| && !(fetchOk(offset) && (language != "" && language != "en" ==> localOk(offset)))
  }

  /** Whatever page sizes the shrinking limit leads to, a stream without failures consumes exactly the wanted items,
      each once and in order; a stream that fails has consumed a prefix of them. `local` is the upstream list in the
      requested language, `fetchOk` and `localOk` tell how the two fetches at an offset turn out and `consumeOk(n)` how
      the n-th item is received. */
  method Stream(items: seq<TarkovItem>, local: seq<TarkovItem>, language: string, limit: int, fetchOk: nat -> bool,
                localOk: nat -> bool,
                consumeOk: nat -> bool)
    returns (consumed: seq<RawItem>, error: Option<StreamError>)
    ensures IsStreamed(items, local, language, limit, consumed, error.None?)
    ensures error == Some(FetchFailed) ==> exists offset :: FetchFails(items, language, fetchOk, localOk, offset)
    ensures error == Some(ConsumeFailed) ==> !consumeOk(|consumed|)
  {
    hide AllFit, IsStreamed;
    consumed := [];
    var offset := 0;
    ghost var ts := ExpectedFits(items, local, language);
    NothingTaken(items, ts, limit);
    StreamedSoFar(items, local, language, ts, limit, offset, consumed);
    hide HasPrice, RawOf, Wanted, Priced, Page, Taken, TranslationFor, InPlace, Translates, IsPage;
    while true
      invariant 0 <= offset <= |items| && |ts| == |items| && AllFit(items, local, language, ts)
        && Taken(items, ts, limit, offset, consumed)
      invariant (limit > 0 ==> |consumed| < limit)
        && IsStreamed(items, local, language, limit, consumed, offset == |items|)
      decreases |items| - offset
    {
      WeakenStreamed(items, local, language, limit, consumed, offset == |items|);
      var batchLimit := BatchLimit(limit, |consumed|);
      if batchLimit <= 0 {
        break;
      }
      if !fetchOk(offset) {
        assert FetchFails(items, language, fetchOk, localOk, offset);
        return consumed, Some(FetchFailed);
      }
      var page := Page(items, offset, batchLimit);
      PageIs(items, offset, batchLimit);
      if |page| == 0 {
        break;
      }
      if Translates(language) && !localOk(offset) {
        LocalFetchFails(items, language, fetchOk, localOk, offset);
        return consumed, Some(FetchFailed);
      }
      var byId;
      byId, ts := FetchLocalized(items, local, language, offset, batchLimit, ts, limit, consumed);
      var done;
      consumed, done, error := ConsumePage(page, byId, language, limit, consumed, consumeOk, items, ts, offset);
      if error.Some? || done {
        Streamed(items, local, language, ts, limit, consumed, error.None?);
        return;
      }
      offset := offset + |page|;
      StreamedSoFar(items, local, language, ts, limit, offset, consumed);
      if |page| < batchLimit {
        break;
      }
    }
    error := None;
  }

  lemma LocalFetchFails(items: seq<TarkovItem>, language: string, fetchOk: nat -> bool, localOk: nat -> bool,
                        offset: nat)
    requires offset <= |items| && Translates(language) && !localOk(offset)
    ensures FetchFails(items, language, fetchOk, localOk, offset)
  {
  }

  lemma Streamed(items: seq<TarkovItem>, local: seq<TarkovItem>, language: string, ts: Translations, limit: int,
                 consumed: seq<RawItem>, complete: bool)
    requires |ts| == |items| && AllFit(items, local, language, ts)
    requires consumed <= Wanted(items, ts, limit) && (complete ==> consumed == Wanted(items, ts, limit))
    ensures IsStreamed(items, local, language, limit, consumed, complete)
  {
  }

  lemma StreamedSoFar(items: seq<TarkovItem>, local: seq<TarkovItem>, language: string, ts: Translations, limit: int,
                      offset: nat, consumed: seq<RawItem>)
    requires |ts| == |items| && AllFit(items, local, language, ts) && Taken(items, ts, limit, offset, consumed)
    ensures IsStreamed(items, local, language, limit, consumed, offset == |items|) && (limit > 0 ==> |consumed| < limit)
  {
    hide AllFit, Wanted;
    TakenSoFar(items, ts, limit, offset, consumed);
  }

  lemma WeakenStreamed(items: seq<TarkovItem>, local: seq<TarkovItem>, language: string, limit: int,
                       consumed: seq<RawItem>, complete: bool)
    requires IsStreamed(items, local, language, limit, consumed, complete)
    ensures IsStreamed(items, local, language, limit, consumed, false)
  {
  }

  lemma ExpectedFits(items: seq<TarkovItem>, local: seq<TarkovItem>, language: string) returns (ts: Translations)
    ensures AllFit(items, local, language, ts) && |ts| == |items|
  {
    ts := Expected(items, local, language);
  }

  lemma StillTaken(items: seq<TarkovItem>, local: seq<TarkovItem>, language: string, before: Translations,
                   after: Translations, limit: int, offset: nat, consumed: seq<RawItem>)
    requires AllFit(items, local, language, before) && AllFit(items, local, language, after)
    requires offset <= |items| && before[..offset] == after[..offset] && Taken(items, before, limit, offset, consumed)
    ensures |after| == |items| && Taken(items, after, limit, offset, consumed)
  {
  }

  // ----- the hint -----

  method TotalHint(items: seq<TarkovItem>, limit: int, fetchOk: nat -> bool) returns (total: Option<nat>)
    ensures total.Some? ==> total.value == if limit > 0 then limit else |items|
    ensures total.None? ==> limit <= 0 && exists offset :: 0 <= offset <= |items| && !fetchOk(offset)
  {
    if limit > 0 {
      return Some(limit);
    }
    var count, offset := 0, 0;
    while true
      invariant 0 <= offset <= |items| && count == offset
      decreases |items| - offset
    {
      if !fetchOk(offset) {
        return None;
      }
      var page := Page(items, offset, PAGE_SIZE);
      count := count + |page|;
      if |page| < PAGE_SIZE {
        break;
      }
      offset := offset + |page|;
    }
    return Some(count);
  }

  /** An import never takes more than the hint announces, and without a limit takes that many exactly when every item is
      priced. */
  lemma {:induction false} HintCovers(items: seq<TarkovItem>, ts: Translations, limit: int)
    requires |ts| == |items|
    ensures limit > 0 ==> |Wanted(items, ts, limit)| <= limit
    ensures limit <= 0 ==> |Wanted(items, ts, limit)| <= |items|
    ensures limit <= 0 ==> (|Wanted(items, ts, limit)| == |items| <==> forall item | item in items :: HasPrice(item))
  {
    hide HasPrice, RawOf;
    if items != [] {
      var n := |items| - 1;
      HintCovers(items[..n], ts[..n], 0);
      assert items == items[..n] + [items[n]];
    }
  }

  /** Each priced item has its place in the wanted list: after the priced items before it, with its own translation. */
  lemma PricedAt(items: seq<TarkovItem>, ts: Translations, i: nat)
    requires |ts| == |items| && i < |items| && HasPrice(items[i])
    ensures var k := |Priced(items[..i], ts[..i])|;
      k < |Priced(items, ts)| && Priced(items, ts)[k] == RawOf(items[i], ts[i])
  {
    hide HasPrice, RawOf;
    PricedNext(items, ts, i);
    PricedPrefix(items, ts, i + 1);
  }

  // ----- what is consumed -----

  ghost predicate Blank(s: string) {
    forall i | 0 <= i < |s| :: IsSpace(s[i])
  }

  ghost predicate Positive(price: Option<int>) {
    price.Some? && price.value > 0
  }

  /** An item counts as priced exactly when one of its five prices is known and positive. */
  lemma HasPriceIff(item: TarkovItem)
    ensures HasPrice(item)
      <==> || Positive(item.avg24h) || Positive(item.low24h) || Positive(item.high24h) || Positive(item.base)
           || Positive(item.lastLow)
  {
    var prices := PricesOf(item);
    assert prices[0] in prices && prices[1] in prices && prices[2] in prices && prices[3] in prices
      && prices[4] in prices;
  }

  /** The item's id twice, its name and description trimmed, and its large picture or, without one, its icon. */
  ghost predicate ShowsItem(raw: RawItem, item: TarkovItem) {
    && raw.game == "tarkov" && raw.source == "tarkov-dev" && raw.externalId == item.id && raw.slug == item.id
    && raw.name == TrimSpace(item.name) && raw.description == TrimSpace(item.description)
    && raw.imageURL == if !Blank(item.image512) then TrimSpace(item.image512) else TrimSpace(item.iconLink)
  }

  /** One translation with the localized name, or the item's own when that is blank; none when the description is blank
      too. */
  ghost predicate ShowsTranslation(ts: seq<RawTranslation>, language: string, item: TarkovItem, local: TarkovItem) {
    if Blank(local.name) && Blank(local.description) then ts == []
    else
      && |ts| == 1 && ts[0].languageCode == language && ts[0].description == TrimSpace(local.description)
      && ts[0].name == if Blank(local.name) then TrimSpace(item.name) else TrimSpace(local.name)
  }

  lemma TrimmedTwice(s: string)
    ensures TrimSpace(TrimSpace(s)) == TrimSpace(s)
  {
    var a, b := TrimCuts(s, IsSpace);
    hide Trim;
    if a < b {
      assert TrimSpace(s)[0] == s[a] && TrimSpace(s)[|TrimSpace(s)| - 1] == s[b - 1];
    }
    TrimFixed(TrimSpace(s), IsSpace);
  }

  lemma RawShows(item: TarkovItem, ts: seq<RawTranslation>)
    ensures ShowsItem(RawOf(item, ts), item) && RawOf(item, ts).translations == ts
  {
    TrimmedTwice(item.image512);
    TrimmedTwice(item.iconLink);
    BlankIff(item.image512);
    hide TrimSpace, IsSpace;
  }

  lemma TranslatedShows(language: string, item: TarkovItem, local: TarkovItem)
    ensures ShowsTranslation(Translated(language, item, local), language, item, local)
  {
    TrimmedTwice(local.name);
    TrimmedTwice(item.name);
    BlankIff(local.name);
    BlankIff(local.description);
    hide TrimSpace, IsSpace;
  }

  /** Whatever is consumed shows a priced item, without translations for no language or English, and otherwise, over
      parallel lists, with that of the localized item in the same place. */
  lemma ConsumedShows(items: seq<TarkovItem>, local: seq<TarkovItem>, language: string, limit: int,
                      consumed: seq<RawItem>, complete: bool, raw: RawItem)
    requires IsStreamed(items, local, language, limit, consumed, complete) && raw in consumed
    ensures exists i ::
      && 0 <= i < |items| && ShowsItem(raw, items[i])
      && (|| Positive(items[i].avg24h) || Positive(items[i].low24h) || Positive(items[i].high24h)
          || Positive(items[i].base) || Positive(items[i].lastLow))
      && (language == "" || language == "en" ==> raw.translations == [])
      && (language != "" && language != "en" && Parallel(items, local) ==>
            ShowsTranslation(raw.translations, language, items[i], local[i]))
  {
    hide TrimSpace, ShowsItem, ShowsTranslation, RawOf, Translated, HasPrice, Parallel;
    var ts :| AllFit(items, local, language, ts) && consumed <= Wanted(items, ts, limit);
    var k :| 0 <= k < |consumed| && consumed[k] == raw;
    assert Wanted(items, ts, limit)[k] == raw;
    assert raw in Priced(items, ts);
    var i := PricedFrom(items, ts, raw);
    HasPriceIff(items[i]);
    RawShows(items[i], ts[i]);
    assert Fits(items, local, language, i, ts[i]);
    if language != "" && language != "en" && Parallel(items, local) {
      LocalFound(items, local, i);
      TranslatedShows(language, items[i], local[i]);
    }
  }

  lemma LocalFound(items: seq<TarkovItem>, local: seq<TarkovItem>, i: nat)
    requires Parallel(items, local) && i < |items|
    ensures i < |local|
  {
  }

  lemma {:induction false} PricedFrom(items: seq<TarkovItem>, ts: Translations, raw: RawItem) returns (i: nat)
    requires |ts| == |items| && raw in Priced(items, ts)
    ensures i < |items| && HasPrice(items[i]) && raw == RawOf(items[i], ts[i])
  {
    hide HasPrice, RawOf;
    var n := |items| - 1;
    if raw in Priced(items[..n], ts[..n]) {
      i := PricedFrom(items[..n], ts[..n], raw);
    } else {
      i := n;
    }
  }

  /** The places of the items with a known positive price. */
  ghost function PricedPlaces(items: seq<TarkovItem>): set<nat> {
    set i: nat | i < |items| && (|| Positive(items[i].avg24h) || Positive(items[i].low24h) || Positive(items[i].high24h)
                                 || Positive(items[i].base) || Positive(items[i].lastLow))
  }

  lemma {:induction false} PricedCount(items: seq<TarkovItem>, ts: Translations)
    requires |ts| == |items|
    ensures |Priced(items, ts)| == |PricedPlaces(items)|
  {
    hide HasPrice, RawOf, Positive;
    if items != [] {
      var n := |items| - 1;
      PricedCount(items[..n], ts[..n]);
      HasPriceIff(items[n]);
      assert PricedPlaces(items) == PricedPlaces(items[..n]) + if HasPrice(items[n]) then {n} else {};
    }
  }

  /** A stream without failures takes as many items as are priced, or as the limit allows. */
  lemma CompleteCount(items: seq<TarkovItem>, local: seq<TarkovItem>, language: string, limit: int,
                      consumed: seq<RawItem>)
    requires IsStreamed(items, local, language, limit, consumed, true)
    ensures |consumed| == if 0 < limit < |PricedPlaces(items)| then limit else |PricedPlaces(items)|
  {
    hide PricedPlaces, Priced;
    var ts :| AllFit(items, local, language, ts) && consumed == Wanted(items, ts, limit);
    PricedCount(items, ts);
  }
}
