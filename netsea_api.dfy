/** The NETSEA and BASE catalog client (src/services/netseaApi.ts): suppliers,
    a cursor-paginated item list requested with a form body, categories, and BASE
    items. Each fetcher checks its key before any request, turns a response
    outside 2xx into an error carrying the status and the body text, logs the
    outcome once and rethrows the original error. The reply of the one request
    each fetcher makes is the oracle `outcome`. */
module NetseaApi {
  import opened Prelude
  import opened Text
  import opened Errors
  import opened Effects
  import opened Catalog
  import AppSettings
  import LogService

  const KeyMissingMessage: string := "NETSEAのAPIキーが設定されていません。設定画面でAPIキーを設定してください。"
  const CategoryKeyMissingMessage: string := "NETSEAのAPIキーが設定されていません"
  const BaseKeyMissingMessage: string := "BASE APIキーが設定されていません。設定画面でAPIキーを設定してください。"

  const SuppliersUrl: string := "https://api.netsea.jp/buyer/v1/suppliers"
  const ItemsUrl: string := "https://api.netsea.jp/buyer/v1/items"
  const CategoriesUrl: string := "https://api.netsea.jp/buyer/v1/categories"
  const BaseItemsUrl: string := "https://api.thebase.in/1/items"

  const NetseaErrorPrefix: string := "NETSEA API エラー ("
  const BaseErrorPrefix: string := "BASE API エラー ("
  const UnknownError: string := "不明なエラー"

  /** The `Authorization` header of both APIs. */
  function Bearer(key: string): string {
    "Bearer " + key
  }

  // ---------------------------------------------------------------- one request

  /** What the `try` block sees of the reply before reading its JSON: a rejected
      `fetch` keeps its error, a status outside 2xx becomes
      `Error('<API> エラー (status): body text')`, and a body that is not JSON
      is the SyntaxError of `response.json()`. */
  function Received<P>(f: Fetched<P>, prefix: string): (r: Result<Content<P>, Error>)
    ensures f.Failed? ==> r == Err(f.error)
    ensures f.Replied? && !f.reply.Ok() ==>
      r == Err(PlainError(prefix + IntStr(f.reply.status) + "): " + f.reply.text))
    ensures r.Ok? <==> f.Replied? && f.reply.Ok() && !f.reply.content.NotJson?
    ensures r.Ok? ==> r.value == f.reply.content
  {
    match f
    case Failed(e) => Err(e)
    case Replied(reply) =>
      if !reply.Ok() then Err(PlainError(prefix + IntStr(reply.status) + "): " + reply.text))
      else if reply.content.NotJson? then Err(JsError("SyntaxError", reply.content.parseError))
      else Ok(reply.content)
  }

  /** The log line of the `catch` of every fetcher. */
  function FailureLog(message: string, e: Error): (r: LogService.LogEntry)
    ensures r.kind == LogService.Error && r.details == Some(MessageOr(e, UnknownError))
  {
    LogService.LogEntry(LogService.Error, LogService.Sync, message, Some(MessageOr(e, UnknownError)))
  }

  function CountLog(message: string, count: string): LogService.LogEntry {
    LogService.LogEntry(LogService.Success, LogService.Sync, message, Some("取得件数: " + count + "件"))
  }

  /** `catch (error) { await addLogEntry(...); throw error; }` after the request. */
  function Failing<T>(req: Request, message: string, e: Error): (o: Traced<T>)
    ensures o == Traced(Err(e), [Call(req), Log(FailureLog(message, e))])
  {
    Traced(Err(e), [Call(req), Log(FailureLog(message, e))])
  }

  // ---------------------------------------------------------------- suppliers

  const SuppliersOk: string := "サプライヤー情報を取得しました"
  const SuppliersFailed: string := "サプライヤー情報の取得に失敗しました"

  function SuppliersRequest(key: string): Request {
    Request(Get, SuppliersUrl, Bearer(key), NoBody)
  }

  /** `fetchSuppliers(settings)`; the payload is the `data` array of the reply. */
  function FetchSuppliers(s: AppSettings.Settings, outcome: Fetched<seq<Supplier>>): (o: Traced<seq<Supplier>>)
    ensures s.netseaApiKey == "" ==> o == Traced(Err(PlainError(KeyMissingMessage)), [])
    ensures s.netseaApiKey != "" ==>
      |o.trace| == 2 && o.trace[0] == Call(SuppliersRequest(s.netseaApiKey)) && o.trace[1].Log?
      && (o.result.Ok? <==> o.trace[1].entry.kind == LogService.Success)
    ensures o.result.Ok? ==>
      outcome.Replied? && outcome.reply.Ok() && outcome.reply.content == Payload(o.result.value)
    ensures s.netseaApiKey != "" && outcome.Replied? && outcome.reply.Ok() && outcome.reply.content.Payload? ==>
      o.result == Ok(outcome.reply.content.value)
  {
    if s.netseaApiKey == "" then Traced(Err(PlainError(KeyMissingMessage)), [])
    else
      var req := SuppliersRequest(s.netseaApiKey);
      var got := Received(outcome, NetseaErrorPrefix);
      if got.Err? then Failing(req, SuppliersFailed, got.error)
      else match got.value
        case Payload(list) => Traced(Ok(list), [Call(req), Log(CountLog(SuppliersOk, NatStr(|list|)))])
        case _ => Failing(req, SuppliersFailed, UndefinedRead("length"))
  }

  // ---------------------------------------------------------------- items

  const ItemsOk: string := "商品情報を取得しました"
  const ItemsFailed: string := "商品情報の取得に失敗しました"

  /** The JSON of the items endpoint: the products, the cursor of the next page
      and whatever other keys the reply has. */
  datatype ItemsBody = ItemsBody(data: seq<Product>, nextDirectItemId: Option<string>, otherKeys: seq<string>)

  /** What `fetchSupplierProducts` returns. */
  datatype ItemsPage = ItemsPage(data: seq<Product>, nextDirectItemId: Option<string>)

  const SupplierIdsKey: string := "supplier_ids"
  const NextIdKey: string := "next_direct_item_id"

  /** The fields of the `URLSearchParams` body (WHATWG URL Standard, section 5),
      in the order they are appended. */
  function ItemsFields(supplierId: Option<int>, next: Option<string>): (r: seq<(string, string)>)
    ensures (exists k :: 0 <= k < |r| && r[k].0 == SupplierIdsKey) <==> TruthyInt(supplierId)
    ensures (exists k :: 0 <= k < |r| && r[k].0 == NextIdKey) <==> TruthyStr(next)
    ensures TruthyInt(supplierId) ==> r[0] == (SupplierIdsKey, IntStr(supplierId.value))
    ensures TruthyStr(next) ==> r[|r| - 1] == (NextIdKey, next.value)
    ensures |r| <= 2
  {
    var a: seq<(string, string)> := if TruthyInt(supplierId) then [(SupplierIdsKey, IntStr(supplierId.value))] else [];
    var b: seq<(string, string)> := if TruthyStr(next) then [(NextIdKey, next.value)] else [];
    assert SupplierIdsKey != NextIdKey by { assert SupplierIdsKey[0] != NextIdKey[0]; }
    var r := a + b;
    assert TruthyInt(supplierId) ==> r[0].0 == SupplierIdsKey;
    assert TruthyStr(next) ==> r[|r| - 1].0 == NextIdKey;
    assert forall k :: 0 <= k < |r| ==> r[k].0 == (if k < |a| then SupplierIdsKey else NextIdKey);
    r
  }

  /** The `formData.append` calls, each guarded by the truthiness of its value. */
  method BuildItemsForm(supplierId: Option<int>, next: Option<string>) returns (fields: seq<(string, string)>)
    ensures fields == ItemsFields(supplierId, next)
  {
    fields := [];
    if TruthyInt(supplierId) {
      fields := fields + [(SupplierIdsKey, IntStr(supplierId.value))];
    }
    if TruthyStr(next) {
      fields := fields + [(NextIdKey, next.value)];
    }
  }

  function ItemsRequest(key: string, supplierId: Option<int>, next: Option<string>): Request {
    Request(Post, ItemsUrl, Bearer(key), Form(ItemsFields(supplierId, next)))
  }

  /** The success details: the count, then the requested cursor when there was one. */
  function ItemsLog(count: nat, next: Option<string>): LogService.LogEntry {
    LogService.LogEntry(LogService.Success, LogService.Sync, ItemsOk,
      Some("取得件数: " + NatStr(count) + "件" + (if TruthyStr(next) then "\n次のページID: " + next.value else "")))
  }

  /** `fetchSupplierProducts(settings, supplierId, nextDirectItemId)`. `settings`
      may be `undefined` (`None`): reading its key then throws a TypeError. */
  function FetchSupplierProducts(settings: Option<AppSettings.Settings>, supplierId: Option<int>, next: Option<string>,
                                 outcome: Fetched<ItemsBody>): (o: Traced<ItemsPage>)
    ensures settings.None? ==> o == Traced(Err(UndefinedRead("netseaApiKey")), [])
    ensures settings.Some? && settings.value.netseaApiKey == "" ==> o == Traced(Err(PlainError(KeyMissingMessage)), [])
    ensures settings.Some? && settings.value.netseaApiKey != "" ==>
      |o.trace| == 2 && o.trace[0] == Call(ItemsRequest(settings.value.netseaApiKey, supplierId, next)) && o.trace[1].Log?
      && (o.result.Ok? <==> o.trace[1].entry.kind == LogService.Success)
    ensures o.result.Ok? ==>
      outcome.Replied? && outcome.reply.Ok() && outcome.reply.content.Payload?
      && o.result.value == ItemsPage(outcome.reply.content.value.data, outcome.reply.content.value.nextDirectItemId)
  {
    if settings.None? then Traced(Err(UndefinedRead("netseaApiKey")), [])
    else if settings.value.netseaApiKey == "" then Traced(Err(PlainError(KeyMissingMessage)), [])
    else
      var req := ItemsRequest(settings.value.netseaApiKey, supplierId, next);
      var got := Received(outcome, NetseaErrorPrefix);
      if got.Err? then Failing(req, ItemsFailed, got.error)
      else match got.value
        case Payload(body) =>
          Traced(Ok(ItemsPage(body.data, body.nextDirectItemId)), [Call(req), Log(ItemsLog(|body.data|, next))])
        case _ => Failing(req, ItemsFailed, UndefinedRead("length"))
  }

  /** A failed request is logged once and its error is rethrown unchanged: a
      rejected `fetch` keeps its own error, a status outside 2xx reports the
      status and the body text. */
  lemma ItemsFailureRethrown(s: AppSettings.Settings, supplierId: Option<int>, next: Option<string>, outcome: Fetched<ItemsBody>)
    requires s.netseaApiKey != ""
    requires outcome.Failed? || !outcome.reply.Ok()
    ensures var o := FetchSupplierProducts(Some(s), supplierId, next, outcome);
      var e := if outcome.Failed? then outcome.error
               else PlainError(NetseaErrorPrefix + IntStr(outcome.reply.status) + "): " + outcome.reply.text);
      o.result == Err(e) && Logs(o.trace) == [FailureLog(ItemsFailed, e)] && Calls(o.trace) == 1
  {
    var o := FetchSupplierProducts(Some(s), supplierId, next, outcome);
    assert o.trace[1..][1..] == [];
  }

  /** A page is logged with its item count and returned with only its products
      and cursor; other keys of the reply are dropped. */
  lemma ItemsSuccessProjects(s: AppSettings.Settings, supplierId: Option<int>, next: Option<string>, body: ItemsBody, reply: Reply<ItemsBody>)
    requires s.netseaApiKey != "" && reply.Ok() && reply.content == Payload(body)
    ensures var o := FetchSupplierProducts(Some(s), supplierId, next, Replied(reply));
      o.result == Ok(ItemsPage(body.data, body.nextDirectItemId))
      && Logs(o.trace) == [ItemsLog(|body.data|, next)]
  {
    var o := FetchSupplierProducts(Some(s), supplierId, next, Replied(reply));
    assert o.trace[1..][1..] == [];
  }

  // ---------------------------------------------------------------- categories

  const CategoriesOk: string := "カテゴリ情報を取得しました"
  const CategoriesFailed: string := "カテゴリ情報の取得に失敗しました"

  /** A category as the API returns it; only `id` and `name` are kept. */
  datatype RawCategory = RawCategory(id: int, name: string, otherKeys: seq<string>)

  function CategoriesRequest(key: string): Request {
    Request(Get, CategoriesUrl, Bearer(key), NoBody)
  }

  /** `data.map(category => ({ id, name }))`. */
  function Project(raw: seq<RawCategory>): (r: seq<Category>)
    ensures |r| == |raw|
    ensures forall k :: 0 <= k < |r| ==> r[k] == Category(raw[k].id, raw[k].name)
  {
    seq(|raw|, k requires 0 <= k < |raw| => Category(raw[k].id, raw[k].name))
  }

  /** `fetchNetseaCategories(settings)`. A JSON reply that is not an array has no
      `length` (the success line then reads "undefined") and no `map`, so the
      projection throws after the success line was written. */
  function FetchCategories(s: AppSettings.Settings, outcome: Fetched<seq<RawCategory>>): (o: Traced<seq<Category>>)
    ensures s.netseaApiKey == "" ==> o == Traced(Err(PlainError(CategoryKeyMissingMessage)), [])
    ensures s.netseaApiKey != "" ==> |o.trace| >= 2 && o.trace[0] == Call(CategoriesRequest(s.netseaApiKey))
    ensures o.result.Ok? ==>
      outcome.Replied? && outcome.reply.Ok() && outcome.reply.content.Payload?
      && o.result.value == Project(outcome.reply.content.value)
    ensures Progresses(o.trace) == [] && Calls(o.trace) <= 1
  {
    if s.netseaApiKey == "" then Traced(Err(PlainError(CategoryKeyMissingMessage)), [])
    else
      var req := CategoriesRequest(s.netseaApiKey);
      var got := Received(outcome, NetseaErrorPrefix);
      if got.Err? then Failing(req, CategoriesFailed, got.error)
      else if got.value.Payload? then
        var raw := got.value.value;
        Traced(Ok(Project(raw)), [Call(req), Log(CountLog(CategoriesOk, NatStr(|raw|)))])
      else
        var e := JsError("TypeError", "data.map is not a function");
        var t := [Call(req), Log(CountLog(CategoriesOk, "undefined")), Log(FailureLog(CategoriesFailed, e))];
        assert t[1..][1..][1..] == [];
        assert Calls(t[1..][1..]) == 0 && Progresses(t[1..][1..]) == [];
        assert Calls(t[1..]) == 0 && Progresses(t[1..]) == [];
        Traced(Err(e), t)
  }

  /** Categories are projected to id and name in the order of the reply. */
  lemma CategoriesInOrder(s: AppSettings.Settings, raw: seq<RawCategory>, reply: Reply<seq<RawCategory>>, k: nat)
    requires s.netseaApiKey != "" && reply.Ok() && reply.content == Payload(raw) && k < |raw|
    ensures var o := FetchCategories(s, Replied(reply));
      o.result.Ok? && |o.result.value| == |raw|
      && o.result.value[k].id == raw[k].id && o.result.value[k].name == raw[k].name
  {
  }

  // ---------------------------------------------------------------- BASE

  const BaseOk: string := "BASE商品情報を取得しました"
  const BaseFailed: string := "BASE商品情報の取得に失敗しました"

  function BaseRequest(key: string): Request {
    Request(Get, BaseItemsUrl, Bearer(key), NoBody)
  }

  /** `fetchBaseProducts(settings)`: the parsed JSON is returned as it is, an array
      of items or any other JSON value (whose `length` reads "undefined").
      `settings` may be `undefined` (`None`): reading its key then throws a
      TypeError before any request. */
  function FetchBaseProducts(settings: Option<AppSettings.Settings>, outcome: Fetched<seq<BaseProduct>>)
    : (o: Traced<Content<seq<BaseProduct>>>)
    ensures settings.None? ==> o == Traced(Err(UndefinedRead("baseApiKey")), [])
    ensures settings.Some? && settings.value.baseApiKey == "" ==> o == Traced(Err(PlainError(BaseKeyMissingMessage)), [])
    ensures settings.Some? && settings.value.baseApiKey != "" ==>
      |o.trace| == 2 && o.trace[0] == Call(BaseRequest(settings.value.baseApiKey)) && o.trace[1].Log?
      && (o.result.Ok? <==> o.trace[1].entry.kind == LogService.Success)
    ensures o.result.Ok? ==>
      outcome.Replied? && outcome.reply.Ok() && o.result.value == outcome.reply.content && !o.result.value.NotJson?
  {
    if settings.None? then Traced(Err(UndefinedRead("baseApiKey")), [])
    else if settings.value.baseApiKey == "" then Traced(Err(PlainError(BaseKeyMissingMessage)), [])
    else
      var req := BaseRequest(settings.value.baseApiKey);
      var got := Received(outcome, BaseErrorPrefix);
      if got.Err? then Failing(req, BaseFailed, got.error)
      else
        var count := if got.value.Payload? then NatStr(|got.value.value|) else "undefined";
        Traced(Ok(got.value), [Call(req), Log(CountLog(BaseOk, count))])
  }

  /** With settings and a key, a 2xx reply carrying a list is returned as that
      list after one request and one success log. */
  lemma BaseListReturned(s: AppSettings.Settings, reply: Reply<seq<BaseProduct>>)
    requires s.baseApiKey != "" && reply.Ok() && reply.content.Payload?
    ensures var o := FetchBaseProducts(Some(s), Replied(reply));
      o.result == Ok(reply.content) && Calls(o.trace) == 1
      && Logs(o.trace) == [CountLog(BaseOk, NatStr(|reply.content.value|))]
  {
    var o := FetchBaseProducts(Some(s), Replied(reply));
    assert o.trace[1..][1..] == [];
  }
}
