/** Stock synchronisation (src/services/inventorySync.ts): `checkAndUpdateStock`
    reads a store product, finds the NETSEA product it was published from, and
    sets the store stock to 1 or 0 according to whether any NETSEA variant is
    available; `startAutoSync` runs that check over a product list in batches,
    forever. The NETSEA lookup is a parameter (`lookup`, what the lookup call
    ended with); `CheckAsWritten` feeds it the call the source makes. */
module InventorySync {
  import opened Prelude
  import opened Text
  import opened Errors
  import opened Effects
  import LogService
  import AppSettings
  import Catalog
  import NetseaApi
  import WooPayload
  import WooClient
  import Base64

  // ---------------------------------------------------------------- messages

  const StoreFetchFailed: string := "WooCommerce商品の取得に失敗しました"
  const NoNetseaId: string := "NETSEA商品IDが見つかりません"
  const NoNetseaProduct: string := "NETSEA商品が見つかりません"
  const UpdateFailed: string := "在庫の更新に失敗しました"
  const SyncedPrefix: string := "在庫同期完了: "
  const InStockNote: string := "NETSEA在庫: あり\nWooCommerce在庫: 1"
  const OutOfStockNote: string := "NETSEA在庫: なし\nWooCommerce在庫: 0"
  const InStockMessage: string := "在庫を在庫あり(1)に更新しました"
  const OutOfStockMessage: string := "在庫を在庫切れ(0)に更新しました"
  const StockSyncError: string := "在庫同期エラー"
  const StockSyncFallback: string := "在庫同期に失敗しました"
  const Undefined: string := "undefined"
  const ProductsPath: string := "/products/"
  const BasicScheme: string := "Basic "

  // ---------------------------------------------------------------- one product

  /** The parts of `GET /products/{id}` the check reads: the name and `meta_data`. */
  datatype StoreProduct = StoreProduct(name: string, metaData: Option<seq<Catalog.MetaEntry>>)

  /** `StockCheckResult`. */
  datatype StockCheck = StockCheck(hasStock: bool, message: Option<string>)

  /** A template-literal rendering of a possibly missing setting. */
  function Field(v: Option<string>): string {
    if v.Some? then v.value else Undefined
  }

  /** The site of the stored settings: trailing slashes dropped, and the default
      site when the URL is missing or empty once stripped. */
  function Site(stored: AppSettings.SettingsPatch): (r: string)
    ensures stored.woocommerceSiteUrl.None? ==> r == AppSettings.DefaultSiteUrl
    ensures r != "" && r[|r| - 1] != '/'
  {
    WooClient.SlashesFallBack(0);
    assert seq(0, _ => '/') == "";
    WooClient.SiteBase(stored.woocommerceSiteUrl.GetOr(""))
  }

  /** `btoa(`${key}:${secret}`)`, which throws on a character above U+00FF. */
  function Auth(stored: AppSettings.SettingsPatch): Option<string> {
    Base64.Btoa(Field(stored.woocommerceApiKey) + ":" + Field(stored.woocommerceApiSecret))
  }

  function ProductUrl(stored: AppSettings.SettingsPatch, productId: string): string {
    Site(stored) + WooClient.ApiPath + ProductsPath + productId
  }

  function Fetch(url: string, auth: string): Request {
    Request(Get, url, BasicScheme + auth, NoBody)
  }

  /** `hasStock ? 1 : 0`. */
  function Quantity(hasStock: bool): (q: int)
    ensures q == 1 <==> hasStock
    ensures q == 0 <==> !hasStock
  {
    if hasStock then 1 else 0
  }

  /** The PUT that records the stock; stock management is always switched on. */
  function Update(url: string, auth: string, hasStock: bool): Request {
    Request(Put, url, BasicScheme + auth, StockJson(WooPayload.StockUpdate(Quantity(hasStock), true)))
  }

  /** `meta_data?.find(meta => meta.key === '_netsea_product_id')?.value`. */
  function NetseaId(p: StoreProduct): Option<string> {
    if p.metaData.None? then None else Catalog.FindMeta(p.metaData.value, Catalog.NetseaIdKey)
  }

  function StockMessage(hasStock: bool): string {
    if hasStock then InStockMessage else OutOfStockMessage
  }

  function SyncedLog(name: string, hasStock: bool): LogService.LogEntry {
    LogService.LogEntry(LogService.Success, LogService.Stock, SyncedPrefix + name,
      Some(if hasStock then InStockNote else OutOfStockNote))
  }

  function FailedLog(e: Error): LogService.LogEntry {
    LogService.LogEntry(LogService.Error, LogService.Stock, StockSyncError, Some(MessageOr(e, StockSyncFallback)))
  }

  /** Whether the check gets as far as the NETSEA lookup: the credentials encode,
      the store product is read and it records a NETSEA id. */
  predicate ReachesLookup(stored: AppSettings.SettingsPatch, get: Fetched<StoreProduct>) {
    Auth(stored).Some? && get.Replied? && get.reply.Ok() && get.reply.content.Payload?
    && TruthyStr(NetseaId(get.reply.content.value))
  }

  /** The events of the check after the store product `p` has been read. */
  function FromProduct(url: string, auth: string, p: StoreProduct, lookup: Traced<NetseaApi.ItemsPage>,
                       put: Fetched<()>): (o: Traced<StockCheck>)
    ensures o.result.Ok? ==>
      TruthyStr(NetseaId(p)) && lookup.result.Ok? && |lookup.result.value.data| > 0
      && put.Replied? && put.reply.Ok()
      && o.result.value.hasStock == Catalog.HasStock(lookup.result.value.data[0])
      && o.result.value.message == Some(StockMessage(o.result.value.hasStock))
      && o.trace == lookup.trace + [Call(Update(url, auth, o.result.value.hasStock))]
  {
    if !TruthyStr(NetseaId(p)) then Traced(Err(PlainError(NoNetseaId)), [])
    else if lookup.result.Err? then Traced(Err(lookup.result.error), lookup.trace)
    else if |lookup.result.value.data| == 0 then Traced(Err(PlainError(NoNetseaProduct)), lookup.trace)
    else
      var has := Catalog.HasStock(lookup.result.value.data[0]);
      var t := lookup.trace + [Call(Update(url, auth, has))];
      if put.Failed? then Traced(Err(put.error), t)
      else if !put.reply.Ok() then Traced(Err(PlainError(UpdateFailed)), t)
      else Traced(Ok(StockCheck(has, Some(StockMessage(has)))), t)
  }

  /** The `try` block of `checkAndUpdateStock`: what it returns or throws, and
      the requests made on the way. */
  function Try(productId: string, stored: AppSettings.SettingsPatch, get: Fetched<StoreProduct>,
               lookup: Traced<NetseaApi.ItemsPage>, put: Fetched<()>): (o: Traced<StockCheck>)
    ensures o.result.Ok? ==>
      ReachesLookup(stored, get) && lookup.result.Ok? && |lookup.result.value.data| > 0
      && put.Replied? && put.reply.Ok()
      && o.result.value.hasStock == Catalog.HasStock(lookup.result.value.data[0])
      && o.result.value.message == Some(StockMessage(o.result.value.hasStock))
      && o.trace == [Call(Fetch(ProductUrl(stored, productId), Auth(stored).value))] + lookup.trace
                    + [Call(Update(ProductUrl(stored, productId), Auth(stored).value, o.result.value.hasStock))]
  {
    var auth := Auth(stored);
    if auth.None? then Traced(Err(WooClient.InvalidCharacter()), [])
    else
      var url := ProductUrl(stored, productId);
      var first := [Call(Fetch(url, auth.value))];
      if get.Failed? then Traced(Err(get.error), first)
      else if !get.reply.Ok() then Traced(Err(PlainError(StoreFetchFailed)), first)
      else if get.reply.content.NotJson? then Traced(Err(JsError("SyntaxError", get.reply.content.parseError)), first)
      else if get.reply.content.OtherJson? then Traced(Err(PlainError(NoNetseaId)), first)
      else After(first, FromProduct(url, auth.value, get.reply.content.value, lookup, put))
  }

  /** `checkAndUpdateStock(productId)` with the stored settings `stored` (an
      absent entry reads as `{}`, every field missing): the `try` block, then one
      log line, success or error, and the caught error rethrown unchanged. */
  function CheckAndUpdateStock(productId: string, stored: AppSettings.SettingsPatch, get: Fetched<StoreProduct>,
                               lookup: Traced<NetseaApi.ItemsPage>, put: Fetched<()>): (o: Traced<StockCheck>)
    ensures |o.trace| >= 1 && o.trace[|o.trace| - 1].Log?
    ensures var entry := o.trace[|o.trace| - 1].entry;
      entry.category == LogService.Stock
      && (o.result.Ok? <==> entry.kind == LogService.Success)
      && (o.result.Err? ==> entry == FailedLog(o.result.error))
    ensures o.result.Ok? ==>
      ReachesLookup(stored, get) && lookup.result.Ok? && |lookup.result.value.data| > 0
      && put.Replied? && put.reply.Ok()
      && o.result.value.hasStock == Catalog.HasStock(lookup.result.value.data[0])
      && o.result.value.message == Some(StockMessage(o.result.value.hasStock))
      && o.trace[|o.trace| - 1].entry == SyncedLog(get.reply.content.value.name, o.result.value.hasStock)
      && o.trace[..|o.trace| - 1] ==
         [Call(Fetch(ProductUrl(stored, productId), Auth(stored).value))] + lookup.trace
         + [Call(Update(ProductUrl(stored, productId), Auth(stored).value, o.result.value.hasStock))]
  {
    var t := Try(productId, stored, get, lookup, put);
    var entry := if t.result.Ok? then SyncedLog(get.reply.content.value.name, t.result.value.hasStock)
                 else FailedLog(t.result.error);
    var o := Traced(t.result, t.trace + [Log(entry)]);
    assert o.trace[..|o.trace| - 1] == t.trace;
    o
  }

  /** The logs of the `try` block are the lookup's own, and only when the
      lookup is reached; the check itself adds exactly one line. */
  lemma CheckLogsOnce(productId: string, stored: AppSettings.SettingsPatch, get: Fetched<StoreProduct>,
                      lookup: Traced<NetseaApi.ItemsPage>, put: Fetched<()>)
    ensures var o := CheckAndUpdateStock(productId, stored, get, lookup, put);
      Logs(o.trace) == (if ReachesLookup(stored, get) then Logs(lookup.trace) else []) + [o.trace[|o.trace| - 1].entry]
  {
    var t := Try(productId, stored, get, lookup, put);
    var o := CheckAndUpdateStock(productId, stored, get, lookup, put);
    assert o.trace == t.trace + [o.trace[|o.trace| - 1]];
    LogsAppend(t.trace, [o.trace[|o.trace| - 1]]);
    TryQuiet(productId, stored, get, lookup, put);
  }

  /** Apart from the lookup, the `try` block only makes requests: no log line
      and no wait of its own. */
  lemma TryQuiet(productId: string, stored: AppSettings.SettingsPatch, get: Fetched<StoreProduct>,
                 lookup: Traced<NetseaApi.ItemsPage>, put: Fetched<()>)
    ensures var t := Try(productId, stored, get, lookup, put).trace;
      Logs(t) == (if ReachesLookup(stored, get) then Logs(lookup.trace) else [])
      && Waited(t) == (if ReachesLookup(stored, get) then Waited(lookup.trace) else 0)
  {
    var t := Try(productId, stored, get, lookup, put).trace;
    if Auth(stored).Some? && get.Replied? && get.reply.Ok() && get.reply.content.Payload? {
      var url := ProductUrl(stored, productId);
      var first := [Call(Fetch(url, Auth(stored).value))];
      var rest := FromProduct(url, Auth(stored).value, get.reply.content.value, lookup, put).trace;
      assert t == first + rest;
      LogsAppend(first, rest);
      WaitedAppend(first, rest);
      FromProductQuiet(url, Auth(stored).value, get.reply.content.value, lookup, put);
    }
  }

  /** After the GET, the check's own steps write no log line and do not wait. */
  lemma FromProductQuiet(url: string, auth: string, p: StoreProduct, lookup: Traced<NetseaApi.ItemsPage>, put: Fetched<()>)
    ensures var t := FromProduct(url, auth, p, lookup, put).trace;
      Logs(t) == (if TruthyStr(NetseaId(p)) then Logs(lookup.trace) else [])
      && Waited(t) == (if TruthyStr(NetseaId(p)) then Waited(lookup.trace) else 0)
  {
    if TruthyStr(NetseaId(p)) && lookup.result.Ok? && |lookup.result.value.data| > 0 {
      var tail := [Call(Update(url, auth, Catalog.HasStock(lookup.result.value.data[0])))];
      LogsAppend(lookup.trace, tail);
      WaitedAppend(lookup.trace, tail);
    }
  }

  /** A store product without a NETSEA id stops the check after the one GET:
      the lookup and the update never happen, whatever they would return. */
  lemma MissingIdStopsEarly(productId: string, stored: AppSettings.SettingsPatch, get: Fetched<StoreProduct>,
                            lookup: Traced<NetseaApi.ItemsPage>, put: Fetched<()>)
    requires Auth(stored).Some? && get.Replied? && get.reply.Ok() && get.reply.content.Payload?
    requires !TruthyStr(NetseaId(get.reply.content.value))
    ensures var o := CheckAndUpdateStock(productId, stored, get, lookup, put);
      o.result == Err(PlainError(NoNetseaId))
      && o.trace == [Call(Fetch(ProductUrl(stored, productId), Auth(stored).value)), Log(FailedLog(PlainError(NoNetseaId)))]
  {
  }

  /** An empty lookup result stops the check before the update: the only
      requests are the GET and the lookup's own. */
  lemma EmptyLookupStopsBeforeUpdate(productId: string, stored: AppSettings.SettingsPatch, get: Fetched<StoreProduct>,
                                     lookup: Traced<NetseaApi.ItemsPage>, put: Fetched<()>)
    requires ReachesLookup(stored, get)
    requires lookup.result.Ok? && lookup.result.value.data == []
    ensures var o := CheckAndUpdateStock(productId, stored, get, lookup, put);
      o.result == Err(PlainError(NoNetseaProduct))
      && o.trace == [Call(Fetch(ProductUrl(stored, productId), Auth(stored).value))] + lookup.trace
                    + [Log(FailedLog(PlainError(NoNetseaProduct)))]
  {
  }

  /** The update carries stock 1 exactly when some variant of the first NETSEA
      product is not sold out, and 0 otherwise, with stock management on. */
  lemma UpdateFollowsVariants(productId: string, stored: AppSettings.SettingsPatch, get: Fetched<StoreProduct>,
                              lookup: Traced<NetseaApi.ItemsPage>, put: Fetched<()>)
    requires CheckAndUpdateStock(productId, stored, get, lookup, put).result.Ok?
    ensures var o := CheckAndUpdateStock(productId, stored, get, lookup, put);
      var update := o.trace[|o.trace| - 2].request.body.update;
      var first := lookup.result.value.data[0];
      o.trace[|o.trace| - 2].Call? && o.trace[|o.trace| - 2].request.verb == Put
      && o.trace[|o.trace| - 2].request.body.StockJson?
      && update.manageStock
      && (update.stockQuantity == 1 <==> exists k :: 0 <= k < |first.variants| && first.variants[k].soldOutFlag == "N")
      && (update.stockQuantity == 0 <==> forall k :: 0 <= k < |first.variants| ==> first.variants[k].soldOutFlag != "N")
  {
    var o := CheckAndUpdateStock(productId, stored, get, lookup, put);
    var pre := o.trace[..|o.trace| - 1];
    assert o.trace[|o.trace| - 2] == pre[|pre| - 1];
  }

  // ---------------------------------------------------------------- as written

  /** The lookup as the source makes it: `fetchSupplierProducts(undefined,
      netseaProductId)`. With the settings argument `undefined` it throws while
      reading the API key, before the id is used, so the id is not passed. */
  function AsWrittenLookup(netsea: Fetched<NetseaApi.ItemsBody>): (o: Traced<NetseaApi.ItemsPage>)
    ensures o == Traced(Err(UndefinedRead("netseaApiKey")), [])
  {
    NetseaApi.FetchSupplierProducts(None, None, None, netsea)
  }

  function CheckAsWritten(productId: string, stored: AppSettings.SettingsPatch, get: Fetched<StoreProduct>,
                          netsea: Fetched<NetseaApi.ItemsBody>, put: Fetched<()>): Traced<StockCheck> {
    CheckAndUpdateStock(productId, stored, get, AsWrittenLookup(netsea), put)
  }

  /** As written, no check ever succeeds and no stock is ever updated: at most
      the GET is made, and the one log line is the error line. */
  lemma AsWrittenNeverUpdates(productId: string, stored: AppSettings.SettingsPatch, get: Fetched<StoreProduct>,
                              netsea: Fetched<NetseaApi.ItemsBody>, put: Fetched<()>)
    ensures var o := CheckAsWritten(productId, stored, get, netsea, put);
      o.result.Err? && Calls(o.trace) <= 1 && Logs(o.trace) == [FailedLog(o.result.error)]
      && (ReachesLookup(stored, get) ==> o.result.error == UndefinedRead("netseaApiKey"))
  {
    var lookup := AsWrittenLookup(netsea);
    var o := CheckAsWritten(productId, stored, get, netsea, put);
    var t := Try(productId, stored, get, lookup, put);
    CheckLogsOnce(productId, stored, get, lookup, put);
    TryStopsAtLookup(productId, stored, get, lookup, put);
    assert o.trace == t.trace + [Log(FailedLog(o.result.error))];
    ShortThenLog(t.trace, FailedLog(o.result.error));
  }

  /** A lookup that throws without a request leaves the `try` block with at
      most the GET. */
  lemma TryStopsAtLookup(productId: string, stored: AppSettings.SettingsPatch, get: Fetched<StoreProduct>,
                         lookup: Traced<NetseaApi.ItemsPage>, put: Fetched<()>)
    requires lookup.result.Err? && lookup.trace == []
    ensures var t := Try(productId, stored, get, lookup, put);
      t.result.Err? && |t.trace| <= 1 && (ReachesLookup(stored, get) ==> t.result.error == lookup.result.error)
  {
  }

  /** At most one event and then a log line make at most one call. */
  lemma ShortThenLog(t: seq<Event>, entry: LogService.LogEntry)
    requires |t| <= 1
    ensures Calls(t + [Log(entry)]) <= 1
  {
    CallsAppend(t, [Log(entry)]);
  }

  // ---------------------------------------------------------------- auto sync

  /** An entry of the product list `startAutoSync` is given: its id and name. */
  datatype SyncItem = SyncItem(id: string, name: string)

  const BatchSize: nat := 10
  const ItemPause: int := 2000
  const BatchPause: int := 5000
  const HourMs: int := 3600000
  const PassStarted: string := "自動在庫同期を開始します"
  const PassDone: string := "自動在庫同期が完了しました"
  const ItemFailedPrefix: string := "商品の在庫同期に失敗: "
  const UnknownError: string := "不明なエラー"

  function StartLog(n: nat): LogService.LogEntry {
    LogService.LogEntry(LogService.Info, LogService.Sync, PassStarted, Some("対象商品数: " + NatStr(n) + "件"))
  }

  function DoneLog(hours: int): LogService.LogEntry {
    LogService.LogEntry(LogService.Success, LogService.Sync, PassDone, Some("次回の同期まで" + IntStr(hours) + "時間待機します"))
  }

  function ItemFailedLog(name: string, e: Error): LogService.LogEntry {
    LogService.LogEntry(LogService.Error, LogService.Sync, ItemFailedPrefix + name, Some(MessageOr(e, UnknownError)))
  }

  /** One product of a batch: its check, then a pause after a success or a
      failure line after a throw. */
  function ItemEvents(item: SyncItem, check: Traced<StockCheck>): seq<Event> {
    check.trace + (if check.result.Ok? then [Sleep(ItemPause)] else [Log(ItemFailedLog(item.name, check.result.error))])
  }

  /** Products `i` up to `j` in order; `checks[k]` is what the check of
      `items[k]` does. */
  function Visit(items: seq<SyncItem>, checks: seq<Traced<StockCheck>>, i: nat, j: nat): seq<Event>
    requires |checks| == |items| && j <= |items|
    decreases j - i
  {
    if i >= j then [] else ItemEvents(items[i], checks[i]) + Visit(items, checks, i + 1, j)
  }

  /** The batches from position `i` on, each followed by the batch pause. */
  function PassFrom(items: seq<SyncItem>, checks: seq<Traced<StockCheck>>, i: nat): seq<Event>
    requires |checks| == |items|
    decreases |items| - i
  {
    if i >= |items| then []
    else Visit(items, checks, i, Min(i + BatchSize, |items|)) + [Sleep(BatchPause)] + PassFrom(items, checks, i + BatchSize)
  }

  /** One pass of the loop: the start line, the batches, the done line and the
      wait until the next pass. */
  function Pass(items: seq<SyncItem>, checks: seq<Traced<StockCheck>>, hours: int): seq<Event>
    requires |checks| == |items|
  {
    [Log(StartLog(|items|))] + PassFrom(items, checks, 0) + [Log(DoneLog(hours)), Sleep(hours * HourMs)]
  }

  const PassFailed: string := "自動在庫同期でエラーが発生しました"
  const ErrorCooldown: int := 300000

  /** The outer `catch` of the loop: an error that escapes a pass is logged
      once and the loop waits five minutes, not the interval, before the next
      pass. */
  function Recovery(e: Error): (r: seq<Event>)
    ensures Logs(r) == [LogService.LogEntry(LogService.Error, LogService.Sync, PassFailed, Some(MessageOr(e, UnknownError)))]
    ensures Waited(r) == ErrorCooldown
  {
    var r := [Log(LogService.LogEntry(LogService.Error, LogService.Sync, PassFailed, Some(MessageOr(e, UnknownError)))),
              Sleep(ErrorCooldown)];
    assert r[1..] == [Sleep(ErrorCooldown)] && r[1..][1..] == [];
    assert Waited(r[1..]) == ErrorCooldown + Waited(r[1..][1..]);
    r
  }

  /** What `startAutoSync` does up to the end of its first pass; with auto sync
      off (or not stored) it returns at once. */
  function FirstPass(stored: AppSettings.SettingsPatch, items: seq<SyncItem>, checks: seq<Traced<StockCheck>>,
                     hours: int): seq<Event>
    requires |checks| == |items|
  {
    if stored.autoSync == Some(true) then Pass(items, checks, hours) else []
  }

  ghost predicate BatchAccounted(items: seq<SyncItem>, checks: seq<Traced<StockCheck>>, i: nat, j: nat, e: nat,
                                 batch: seq<Event>)
    requires |checks| == |items| && e <= |items|
  {
    batch + Visit(items, checks, j, e) == Visit(items, checks, i, e)
  }

  lemma BatchStep(items: seq<SyncItem>, checks: seq<Traced<StockCheck>>, i: nat, j: nat, e: nat,
                  batch: seq<Event>, step: seq<Event>)
    requires |checks| == |items| && j < e <= |items|
    requires BatchAccounted(items, checks, i, j, e, batch)
    requires step == ItemEvents(items[j], checks[j])
    ensures BatchAccounted(items, checks, i, j + 1, e, batch + step)
  {
    AppendAssoc(batch, step, Visit(items, checks, j + 1, e));
  }

  ghost predicate PassAccounted(items: seq<SyncItem>, checks: seq<Traced<StockCheck>>, i: nat, events: seq<Event>)
    requires |checks| == |items|
  {
    events + PassFrom(items, checks, i) == [Log(StartLog(|items|))] + PassFrom(items, checks, 0)
  }

  lemma PassStep(items: seq<SyncItem>, checks: seq<Traced<StockCheck>>, i: nat, events: seq<Event>, batch: seq<Event>)
    requires |checks| == |items| && i < |items|
    requires PassAccounted(items, checks, i, events)
    requires batch == Visit(items, checks, i, Min(i + BatchSize, |items|))
    ensures PassAccounted(items, checks, i + BatchSize, events + batch + [Sleep(BatchPause)])
  {
    var rest := PassFrom(items, checks, i + BatchSize);
    var pause := [Sleep(BatchPause)];
    PassFromBatch(items, checks, i);
    Regroup(events, batch, pause, rest);
  }

  /** A pass from item `i` is its first batch, the pause and the rest. */
  lemma PassFromBatch(items: seq<SyncItem>, checks: seq<Traced<StockCheck>>, i: nat)
    requires |checks| == |items| && i < |items|
    ensures PassFrom(items, checks, i)
         == Visit(items, checks, i, Min(i + BatchSize, |items|)) + [Sleep(BatchPause)] + PassFrom(items, checks, i + BatchSize)
  {
  }

  /** The batch pause writes no log line. */
  lemma PausedLogs(batch: seq<Event>, rest: seq<Event>)
    ensures Logs(batch + [Sleep(BatchPause)] + rest) == Logs(batch) + Logs(rest)
  {
    LogsAppend(batch + [Sleep(BatchPause)], rest);
    LogsAppend(batch, [Sleep(BatchPause)]);
  }

  lemma Regroup<T>(a: seq<T>, b: seq<T>, c: seq<T>, d: seq<T>)
    ensures a + (b + c + d) == (a + b + c) + d
  {
    AppendAssoc(a, b + c, d);
    AppendAssoc(a, b, c);
  }

  /** `startAutoSync(products, intervalHours)` up to the end of its first pass:
      it does nothing when auto sync is off, and otherwise checks the products
      in order, ten at a time. */
  method StartAutoSync(stored: AppSettings.SettingsPatch, items: seq<SyncItem>, checks: seq<Traced<StockCheck>>,
                       hours: int) returns (events: seq<Event>)
    requires |checks| == |items|
    ensures events == FirstPass(stored, items, checks, hours)
    ensures stored.autoSync != Some(true) ==> events == []
  {
    if stored.autoSync != Some(true) {
      return [];
    }
    events := [Log(StartLog(|items|))];
    var i: nat := 0;
    while i < |items|
      invariant PassAccounted(items, checks, i, events)
      decreases |items| - i
    {
      var e := Min(i + BatchSize, |items|);
      var batch: seq<Event> := [];
      var j := i;
      while j < e
        invariant i <= j <= e
        invariant BatchAccounted(items, checks, i, j, e, batch)
        decreases e - j
      {
        var step := ItemEvents(items[j], checks[j]);
        BatchStep(items, checks, i, j, e, batch, step);
        batch := batch + step;
        j := j + 1;
      }
      AppendEmpty(batch, Visit(items, checks, j, e), Visit(items, checks, i, e));
      PassStep(items, checks, i, events, batch);
      events := events + batch + [Sleep(BatchPause)];
      i := i + BatchSize;
    }
    AppendEmpty(events, PassFrom(items, checks, i), [Log(StartLog(|items|))] + PassFrom(items, checks, 0));
    events := events + [Log(DoneLog(hours)), Sleep(hours * HourMs)];
  }

  // ---------------------------------------------------------------- pass properties

  /** How many of the checks `i` up to `j` succeed. */
  function Succeeded(checks: seq<Traced<StockCheck>>, i: nat, j: nat): nat
    requires j <= |checks|
    decreases j - i
  {
    if i >= j then 0 else (if checks[i].result.Ok? then 1 else 0) + Succeeded(checks, i + 1, j)
  }

  /** How many batches start at or after position `i`. */
  function Batches(n: nat, i: nat): nat
    decreases n - i
  {
    if i >= n then 0 else 1 + Batches(n, i + BatchSize)
  }

  lemma {:induction false} BatchesCount(n: nat, i: nat)
    requires i <= n
    ensures Batches(n, i) == (n - i + BatchSize - 1) / BatchSize
    decreases n - i
  {
    if i < n && i + BatchSize <= n {
      BatchesCount(n, i + BatchSize);
    }
  }

  lemma {:induction false} SucceededSplit(checks: seq<Traced<StockCheck>>, i: nat, m: nat, j: nat)
    requires i <= m <= j <= |checks|
    ensures Succeeded(checks, i, j) == Succeeded(checks, i, m) + Succeeded(checks, m, j)
    decreases m - i
  {
    if i < m {
      SucceededSplit(checks, i + 1, m, j);
    }
  }

  lemma {:induction false} VisitWaits(items: seq<SyncItem>, checks: seq<Traced<StockCheck>>, i: nat, j: nat)
    requires |checks| == |items| && j <= |items|
    requires forall k :: 0 <= k < |checks| ==> Waited(checks[k].trace) == 0
    ensures Waited(Visit(items, checks, i, j)) == ItemPause * Succeeded(checks, i, j)
    decreases j - i
  {
    if i < j {
      var tail := if checks[i].result.Ok? then [Sleep(ItemPause)] else [Log(ItemFailedLog(items[i].name, checks[i].result.error))];
      assert Waited(tail) == if checks[i].result.Ok? then ItemPause else 0;
      WaitedAppend(checks[i].trace, tail);
      WaitedAppend(ItemEvents(items[i], checks[i]), Visit(items, checks, i + 1, j));
      VisitWaits(items, checks, i + 1, j);
    }
  }

  lemma {:induction false} PassFromWaits(items: seq<SyncItem>, checks: seq<Traced<StockCheck>>, i: nat)
    requires |checks| == |items| && i <= |items|
    requires forall k :: 0 <= k < |checks| ==> Waited(checks[k].trace) == 0
    ensures Waited(PassFrom(items, checks, i)) == ItemPause * Succeeded(checks, i, |items|) + BatchPause * Batches(|items|, i)
    decreases |items| - i
  {
    if i < |items| {
      var e := Min(i + BatchSize, |items|);
      var batch := Visit(items, checks, i, e);
      var rest := PassFrom(items, checks, i + BatchSize);
      WaitedAppend(batch + [Sleep(BatchPause)], rest);
      WaitedAppend(batch, [Sleep(BatchPause)]);
      VisitWaits(items, checks, i, e);
      SucceededSplit(checks, i, e, |items|);
      if i + BatchSize <= |items| {
        PassFromWaits(items, checks, i + BatchSize);
      } else {
        assert Succeeded(checks, e, |items|) == 0;
      }
    }
  }

  /** Over a pass the wait adds up to 2 s per successful check (none after a
      failed one), 5 s per batch of ten, the last short batch included, and
      the interval before the next pass. */
  lemma PassWaits(items: seq<SyncItem>, checks: seq<Traced<StockCheck>>, hours: int)
    requires |checks| == |items|
    requires forall k :: 0 <= k < |checks| ==> Waited(checks[k].trace) == 0
    ensures Waited(Pass(items, checks, hours)) ==
      ItemPause * Succeeded(checks, 0, |items|) + BatchPause * ((|items| + BatchSize - 1) / BatchSize) + hours * HourMs
  {
    var head := [Log(StartLog(|items|))];
    var body := PassFrom(items, checks, 0);
    var tail := [Log(DoneLog(hours)), Sleep(hours * HourMs)];
    WaitedAppend(head + body, tail);
    WaitedAppend(head, body);
    assert Waited(tail) == hours * HourMs by {
      assert tail[1..][1..] == [];
    }
    PassFromWaits(items, checks, 0);
    BatchesCount(|items|, 0);
  }

  /** The log lines of products `i` up to `j`: each check's own lines, then the
      failure line of a check that threw. */
  function VisitLogs(items: seq<SyncItem>, checks: seq<Traced<StockCheck>>, i: nat, j: nat): seq<LogService.LogEntry>
    requires |checks| == |items| && j <= |items|
    decreases j - i
  {
    if i >= j then [] else ItemLogLines(items[i], checks[i]) + VisitLogs(items, checks, i + 1, j)
  }

  /** One product's log lines: its check's, then the failure line if it threw. */
  function ItemLogLines(item: SyncItem, check: Traced<StockCheck>): seq<LogService.LogEntry> {
    Logs(check.trace) + (if check.result.Ok? then [] else [ItemFailedLog(item.name, check.result.error)])
  }

  lemma {:induction false} VisitLogsSplit(items: seq<SyncItem>, checks: seq<Traced<StockCheck>>, i: nat, m: nat, j: nat)
    requires |checks| == |items| && i <= m <= j <= |items|
    ensures VisitLogs(items, checks, i, j) == VisitLogs(items, checks, i, m) + VisitLogs(items, checks, m, j)
    decreases m - i
  {
    if i < m {
      VisitLogsSplit(items, checks, i + 1, m, j);
    }
  }

  lemma {:induction false} VisitLogged(items: seq<SyncItem>, checks: seq<Traced<StockCheck>>, i: nat, j: nat)
    requires |checks| == |items| && j <= |items|
    ensures Logs(Visit(items, checks, i, j)) == VisitLogs(items, checks, i, j)
    decreases j - i
  {
    if i < j {
      ItemLogs(items[i], checks[i]);
      LogsAppend(ItemEvents(items[i], checks[i]), Visit(items, checks, i + 1, j));
      VisitLogged(items, checks, i + 1, j);
    }
  }

  lemma ItemLogs(item: SyncItem, check: Traced<StockCheck>)
    ensures Logs(ItemEvents(item, check)) == ItemLogLines(item, check)
  {
    var tail := if check.result.Ok? then [Sleep(ItemPause)] else [Log(ItemFailedLog(item.name, check.result.error))];
    LogsAppend(check.trace, tail);
  }

  lemma {:induction false} PassFromLogged(items: seq<SyncItem>, checks: seq<Traced<StockCheck>>, i: nat)
    requires |checks| == |items| && i <= |items|
    ensures Logs(PassFrom(items, checks, i)) == VisitLogs(items, checks, i, |items|)
    decreases |items| - i
  {
    if i < |items| {
      var e := Min(i + BatchSize, |items|);
      var batch := Visit(items, checks, i, e);
      var rest := PassFrom(items, checks, i + BatchSize);
      PassFromBatch(items, checks, i);
      PausedLogs(batch, rest);
      VisitLogged(items, checks, i, e);
      VisitLogsSplit(items, checks, i, e, |items|);
      if i + BatchSize <= |items| {
        PassFromLogged(items, checks, i + BatchSize);
      } else {
        assert VisitLogs(items, checks, e, |items|) == [];
      }
    }
  }

  /** Every product of the list is checked, in order, whatever the others do:
      the log lines of a pass are the start line, then per product its check's
      lines and, when it threw, the failure line naming it, then the done line. */
  lemma PassLogs(items: seq<SyncItem>, checks: seq<Traced<StockCheck>>, hours: int)
    requires |checks| == |items|
    ensures Logs(Pass(items, checks, hours)) == [StartLog(|items|)] + VisitLogs(items, checks, 0, |items|) + [DoneLog(hours)]
  {
    var head := [Log(StartLog(|items|))];
    var body := PassFrom(items, checks, 0);
    var tail := [Log(DoneLog(hours)), Sleep(hours * HourMs)];
    LogsAppend(head + body, tail);
    LogsAppend(head, body);
    assert Logs(tail) == [DoneLog(hours)] by {
      assert tail[1..][1..] == [];
    }
    PassFromLogged(items, checks, 0);
  }

  /** The checks the source runs in a pass: product k's check with its own
      store reply, NETSEA reply and update reply. */
  function ChecksAsWritten(items: seq<SyncItem>, stored: AppSettings.SettingsPatch, gets: nat -> Fetched<StoreProduct>,
                           netsea: nat -> Fetched<NetseaApi.ItemsBody>, puts: nat -> Fetched<()>): (r: seq<Traced<StockCheck>>)
    ensures |r| == |items|
  {
    seq(|items|, k requires 0 <= k < |items| => CheckAsWritten(items[k].id, stored, gets(k), netsea(k), puts(k)))
  }

  lemma {:induction false} NoneSucceed(checks: seq<Traced<StockCheck>>, i: nat, j: nat)
    requires j <= |checks|
    requires forall k :: 0 <= k < |checks| ==> checks[k].result.Err?
    ensures Succeeded(checks, i, j) == 0
    decreases j - i
  {
    if i < j {
      NoneSucceed(checks, i + 1, j);
    }
  }

  /** As written every check of a pass throws, so a pass never takes the 2 s
      pause: it waits 5 s per batch and then the interval. */
  lemma AsWrittenPassWaits(items: seq<SyncItem>, stored: AppSettings.SettingsPatch, gets: nat -> Fetched<StoreProduct>,
                           netsea: nat -> Fetched<NetseaApi.ItemsBody>, puts: nat -> Fetched<()>, hours: int)
    ensures var checks := ChecksAsWritten(items, stored, gets, netsea, puts);
      Waited(Pass(items, checks, hours)) == BatchPause * ((|items| + BatchSize - 1) / BatchSize) + hours * HourMs
  {
    var checks := ChecksAsWritten(items, stored, gets, netsea, puts);
    forall k | 0 <= k < |checks|
      ensures checks[k].result.Err? && Waited(checks[k].trace) == 0
    {
      AsWrittenNeverUpdates(items[k].id, stored, gets(k), netsea(k), puts(k));
      CheckQuiet(items[k].id, stored, gets(k), AsWrittenLookup(netsea(k)), puts(k));
    }
    NoneSucceed(checks, 0, |items|);
    PassWaits(items, checks, hours);
  }

  /** A check waits only as long as its lookup does. */
  lemma CheckQuiet(productId: string, stored: AppSettings.SettingsPatch, get: Fetched<StoreProduct>,
                   lookup: Traced<NetseaApi.ItemsPage>, put: Fetched<()>)
    ensures var o := CheckAndUpdateStock(productId, stored, get, lookup, put);
      Waited(o.trace) == (if ReachesLookup(stored, get) then Waited(lookup.trace) else 0)
  {
    var t := Try(productId, stored, get, lookup, put);
    var o := CheckAndUpdateStock(productId, stored, get, lookup, put);
    assert o.trace == t.trace + [o.trace[|o.trace| - 1]];
    WaitedAppend(t.trace, [o.trace[|o.trace| - 1]]);
    TryQuiet(productId, stored, get, lookup, put);
  }
}
