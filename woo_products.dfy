/** The product endpoints of the WooCommerce client
    (src/services/api/woocommerce/products.ts): reading the store's products in
    batches of five with their variations, and the publisher that checks the
    keys, rejects products with an exclude word in the name or the description,
    rewrites both, and then posts the product and its variations. Batch members
    are read one after another in list order (the source starts them together
    and collects them in order). */
module WooProducts {
  import opened Prelude
  import opened Text
  import opened Errors
  import opened Effects
  import opened Catalog
  import AppSettings
  import ContentRules
  import WooPayload
  import LogService
  import WooClient
  import Variations

  const ProductBatchSize: nat := 5
  const ProductRetryDelay: int := 2000
  const ListContext: string := "商品一覧の取得"
  const ListFallback: string := "WooCommerce商品の取得に失敗しました"

  // ---------------------------------------------------------------- fetchWooCommerceProducts

  /** One product after enrichment, and the events its variation read caused. */
  datatype Enriched = Enriched(product: WooCommerceProduct, trace: seq<Event>)

  predicate HasVariations(p: RawWooProduct) {
    p.variations.Some? && |p.variations.value| > 0
  }

  /** The mapped record of one product; `parsePrice` is `parseFloat`. */
  function ToProduct(p: RawWooProduct, variations: seq<VariationSummary>, parsePrice: string -> real): WooCommerceProduct
  {
    WooCommerceProduct(
      IntStr(p.id),
      if p.metaData.Some? then FindMeta(p.metaData.value, NetseaIdKey).GetOr("") else "",
      p.name,
      parsePrice(if TruthyStr(p.price) then p.price.value else "0"),
      p.stockQuantity.GetOr(0),
      p.images.GetOr([]),
      p.permalink, p.dateCreated, p.dateModified, p.status,
      p.categories.GetOr([]),
      p.sku.GetOr(""),
      Some(variations))
  }

  /** The mapping fills every field, with `""`, `0` or `[]` where the store
      leaves one out, a price of `"0"` when the price is empty, and the NETSEA id
      from the metadata. */
  lemma ToProductFields(p: RawWooProduct, variations: seq<VariationSummary>, parsePrice: string -> real)
    ensures var r := ToProduct(p, variations, parsePrice);
      r.id == IntStr(p.id) && r.name == p.name
      && r.sku == p.sku.GetOr("") && r.stockQuantity == p.stockQuantity.GetOr(0)
      && r.originalProductId == (if p.metaData.Some? then FindMeta(p.metaData.value, NetseaIdKey).GetOr("") else "")
      && r.price == parsePrice(if TruthyStr(p.price) then p.price.value else "0")
      && r.images == p.images.GetOr([]) && r.categories == p.categories.GetOr([])
      && r.variations == Some(variations)
  {
  }

  /** One product of a batch, given the read of its variations, which is used
      only when the product lists some. */
  function Enrich(p: RawWooProduct, fetched: Traced<seq<VariationSummary>>, parsePrice: string -> real): Enriched
  {
    if !HasVariations(p) then Enriched(ToProduct(p, [], parsePrice), [])
    else if fetched.result.Ok? then Enriched(ToProduct(p, fetched.result.value, parsePrice), fetched.trace)
    else Enriched(ToProduct(p, [], parsePrice), fetched.trace)
  }

  /** A product listing no variations is mapped with an empty list and causes
      no event; one listing some carries what the read returned and its events. */
  lemma EnrichCases(p: RawWooProduct, fetched: Traced<seq<VariationSummary>>, parsePrice: string -> real)
    ensures !HasVariations(p) ==> Enrich(p, fetched, parsePrice).trace == [] && Enrich(p, fetched, parsePrice).product.variations == Some([])
    ensures HasVariations(p) ==> Enrich(p, fetched, parsePrice).trace == fetched.trace
    ensures HasVariations(p) && fetched.result.Ok? ==> Enrich(p, fetched, parsePrice).product.variations == Some(fetched.result.value)
  {
  }

  /** The variation read of each product of the list, by index. */
  function VariationReads(apiUrl: string, authHeader: string, raw: seq<RawWooProduct>,
                          outcomes: nat -> nat -> nat -> Fetched<seq<RawVariation>>): (fetches: nat -> Traced<seq<VariationSummary>>)
    ensures forall k :: 0 <= k < |raw| ==> fetches(k) == Variations.FetchVariations(apiUrl, authHeader, IntStr(raw[k].id), outcomes(k), 0)
  {
    (k: nat) => if k < |raw| then Variations.FetchVariations(apiUrl, authHeader, IntStr(raw[k].id), outcomes(k), 0) else Traced(Ok([]), [])
  }

  /** None of these reads rejects. */
  lemma ReadsNeverReject(apiUrl: string, authHeader: string, raw: seq<RawWooProduct>,
                         outcomes: nat -> nat -> nat -> Fetched<seq<RawVariation>>, k: nat)
    requires k < |raw|
    ensures VariationReads(apiUrl, authHeader, raw, outcomes)(k).result.Ok?
  {
    Variations.FetchNeverRejects(apiUrl, authHeader, IntStr(raw[k].id), outcomes(k), 0);
  }

  /** Every product of the list, enriched, in order. */
  function EnrichList(raw: seq<RawWooProduct>, fetches: nat -> Traced<seq<VariationSummary>>, parsePrice: string -> real): (e: seq<Enriched>)
    ensures |e| == |raw|
    ensures forall k :: 0 <= k < |raw| ==> e[k] == Enrich(raw[k], fetches(k), parsePrice)
  {
    seq(|raw|, k requires 0 <= k < |raw| => Enrich(raw[k], fetches(k), parsePrice))
  }

  /** A placeholder past the end of the list; never read. */
  const NoProduct: WooCommerceProduct := WooCommerceProduct("", "", "", 0.0, 0, [], "", "", "", "", [], "", None)

  /** The callback the batch loop maps over the list: `enrich(k)` is product `k`
      after its variations were read. */
  function EnrichFn(raw: seq<RawWooProduct>, fetches: nat -> Traced<seq<VariationSummary>>, parsePrice: string -> real): (enrich: nat -> Enriched)
    ensures forall k :: 0 <= k < |raw| ==> enrich(k) == Enrich(raw[k], fetches(k), parsePrice)
  {
    (k: nat) => if k < |raw| then Enrich(raw[k], fetches(k), parsePrice) else Enriched(NoProduct, [])
  }

  /** The products of entries `lo` .. `hi - 1`, in order. */
  function ItemProducts(e: seq<Enriched>, lo: nat, hi: nat): (r: seq<WooCommerceProduct>)
    requires lo <= hi <= |e|
    ensures |r| == hi - lo
    decreases hi - lo
  {
    if lo == hi then [] else ItemProducts(e, lo, hi - 1) + [e[hi - 1].product]
  }

  /** The events of entries `lo` .. `hi - 1`, in order. */
  function ItemEvents(e: seq<Enriched>, lo: nat, hi: nat): seq<Event>
    requires lo <= hi <= |e|
    decreases hi - lo
  {
    if lo == hi then [] else ItemEvents(e, lo, hi - 1) + e[hi - 1].trace
  }

  const ProgressTitle: string := "商品データ同期進捗"
  const ProgressUnit: string := "件処理中"
  const DoneTitle: string := "商品データ同期完了"
  const DoneUnit: string := "件の商品を同期しました"

  function ProgressLog(done: int, total: int): LogService.LogEntry {
    LogService.LogEntry(LogService.Info, LogService.Sync, ProgressTitle, Some(IntStr(done) + "/" + IntStr(total) + ProgressUnit))
  }

  /** The progress lines of a sync of `total` products, by the count done. */
  function ProgressMark(total: nat): (mark: nat -> LogService.LogEntry)
    ensures forall done: nat :: mark(done) == ProgressLog(done, total)
  {
    (done: nat) => ProgressLog(done, total)
  }

  function DoneLog(count: int): LogService.LogEntry {
    LogService.LogEntry(LogService.Success, LogService.Sync, DoneTitle, Some(IntStr(count) + DoneUnit))
  }

  /** Where the batch starting at `i` ends, for `n` products. */
  function BatchEnd(n: nat, i: nat): nat {
    if i + ProductBatchSize <= n then i + ProductBatchSize else n
  }

  /** The progress line of the batch starting at `i`, for `n` products; `mark`
      renders the line from the count done so far. */
  function Progress(n: nat, i: nat, mark: nat -> LogService.LogEntry): seq<Event> {
    [Log(mark(BatchEnd(n, i)))]
  }

  /** The wait after the batch starting at `i`: none after the last. */
  function Pause(n: nat, i: nat): seq<Event> {
    if i + ProductBatchSize < n then [Sleep(ProductRetryDelay)] else []
  }

  /** The products of the batch loop from index `i` on. */
  function BatchProducts(e: seq<Enriched>, i: nat): seq<WooCommerceProduct>
    decreases |e| - i
  {
    if i >= |e| then [] else ItemProducts(e, i, BatchEnd(|e|, i)) + BatchProducts(e, i + ProductBatchSize)
  }

  /** The events of the batch loop from index `i` on: per batch a progress
      line, the events of its products, and the pause. */
  function BatchEvents(e: seq<Enriched>, i: nat, mark: nat -> LogService.LogEntry): seq<Event>
    decreases |e| - i
  {
    if i >= |e| then []
    else Progress(|e|, i, mark) + ItemEvents(e, i, BatchEnd(|e|, i)) + Pause(|e|, i)
         + BatchEvents(e, i + ProductBatchSize, mark)
  }

  /** One step of the batch loop. */
  lemma BatchStep(e: seq<Enriched>, i: nat, mark: nat -> LogService.LogEntry)
    requires i < |e|
    ensures BatchProducts(e, i) == ItemProducts(e, i, BatchEnd(|e|, i)) + BatchProducts(e, i + ProductBatchSize)
    ensures BatchEvents(e, i, mark) == Progress(|e|, i, mark) + ItemEvents(e, i, BatchEnd(|e|, i)) + Pause(|e|, i)
                                 + BatchEvents(e, i + ProductBatchSize, mark)
  {
  }

  /** The loop invariant: what has been produced, followed by what the loop
      produces from index `i` on, is what it produces from the start. */
  predicate Accounted(e: seq<Enriched>, i: nat, products: seq<WooCommerceProduct>, trace: seq<Event>, mark: nat -> LogService.LogEntry) {
    products + BatchProducts(e, i) == BatchProducts(e, 0) && trace + BatchEvents(e, i, mark) == BatchEvents(e, 0, mark)
  }

  lemma AccountedStart(e: seq<Enriched>, mark: nat -> LogService.LogEntry)
    ensures Accounted(e, 0, [], [], mark)
  {
    assert [] + BatchProducts(e, 0) == BatchProducts(e, 0);
    assert [] + BatchEvents(e, 0, mark) == BatchEvents(e, 0, mark);
  }

  lemma AccountedEnd(e: seq<Enriched>, i: nat, products: seq<WooCommerceProduct>, trace: seq<Event>, mark: nat -> LogService.LogEntry)
    requires i >= |e| && Accounted(e, i, products, trace, mark)
    ensures products == BatchProducts(e, 0) && trace == BatchEvents(e, 0, mark)
  {
    BatchesDone(e, i, mark);
    AppendEmpty(products, BatchProducts(e, i), BatchProducts(e, 0));
    AppendEmpty(trace, BatchEvents(e, i, mark), BatchEvents(e, 0, mark));
  }

  /** Past the end, the loop produces nothing. */
  lemma BatchesDone(e: seq<Enriched>, i: nat, mark: nat -> LogService.LogEntry)
    requires i >= |e|
    ensures BatchProducts(e, i) == [] && BatchEvents(e, i, mark) == []
  {
  }

  /** After the batch at `i`, what is left of the loop is the loop from the
      next batch on. */
  lemma LoopStep(e: seq<Enriched>, n: nat, i: nat, products: seq<WooCommerceProduct>, trace: seq<Event>,
                 bp: seq<WooCommerceProduct>, step: seq<Event>, mark: nat -> LogService.LogEntry)
    requires i < n == |e|
    requires bp == ItemProducts(e, i, BatchEnd(n, i))
    requires step == Progress(n, i, mark) + ItemEvents(e, i, BatchEnd(n, i)) + Pause(n, i)
    requires Accounted(e, i, products, trace, mark)
    ensures Accounted(e, i + ProductBatchSize, products + bp, trace + step, mark)
  {
    BatchStep(e, i, mark);
    AppendAssoc(products, bp, BatchProducts(e, i + ProductBatchSize));
    AppendAssoc(trace, step, BatchEvents(e, i + ProductBatchSize, mark));
  }

  function ListRequest(apiUrl: string, authHeader: string): Request {
    Request(Get, apiUrl + "/products?per_page=100", authHeader, NoBody)
  }

  /** `fetchWooCommerceProducts(settings)`: the header is computed outside the
      `try`, so a `btoa` failure escapes as it is; every later error becomes a
      plain `Error` with the same message. A JSON body that is not an array has
      no `length`, so the loop does not run. */
  function FetchProducts(s: AppSettings.Settings, listOutcome: nat -> Fetched<seq<RawWooProduct>>,
                         outcomes: nat -> nat -> nat -> Fetched<seq<RawVariation>>, parsePrice: string -> real): Traced<seq<WooCommerceProduct>>
  {
    var apiUrl := WooClient.ApiUrl(s);
    var auth := WooClient.AuthHeader(s);
    if auth.Err? then Traced(Err(auth.error), [])
    else
      var run := WooClient.Run(ListRequest(apiUrl, auth.value), WooClient.DefaultOptions(), ListContext, listOutcome, 1, None);
      match run.result
      case Err(e) => Traced(Err(PlainError(MessageOr(e, ListFallback))), run.trace)
      case Ok(reply) =>
        match reply.content
        case NotJson(message) => Traced(Err(PlainError(message)), run.trace)
        case OtherJson(_) => Traced(Ok([]), run.trace + [Log(DoneLog(0))])
        case Payload(raw) =>
          var e := EnrichList(raw, VariationReads(apiUrl, auth.value, raw, outcomes), parsePrice);
          var products := BatchProducts(e, 0);
          Traced(Ok(products), run.trace + BatchEvents(e, 0, ProgressMark(|raw|)) + [Log(DoneLog(|products|))])
  }

  /** The products of one batch: entries `lo` .. `hi - 1`, each produced by the
      callback, one after another; `e` is the list the callbacks produce. */
  method MapBatch(enrich: nat -> Enriched, ghost e: seq<Enriched>, lo: nat, hi: nat)
    returns (products: seq<WooCommerceProduct>, trace: seq<Event>)
    requires forall k :: 0 <= k < |e| ==> e[k] == enrich(k)
    requires lo <= hi <= |e|
    ensures products == ItemProducts(e, lo, hi) && trace == ItemEvents(e, lo, hi)
  {
    products, trace := [], [];
    var k := lo;
    while k < hi
      invariant lo <= k <= hi
      invariant products == ItemProducts(e, lo, k) && trace == ItemEvents(e, lo, k)
      decreases hi - k
    {
      var x := enrich(k);
      products := products + [x.product];
      trace := trace + x.trace;
      k := k + 1;
    }
  }

  /** One pass of the batch loop at index `i`: the progress line, the products
      of the batch, then the pause unless it was the last batch. */
  method SyncBatch(n: nat, enrich: nat -> Enriched, mark: nat -> LogService.LogEntry, ghost e: seq<Enriched>, i: nat)
    returns (products: seq<WooCommerceProduct>, trace: seq<Event>)
    requires |e| == n && forall k :: 0 <= k < n ==> e[k] == enrich(k)
    requires i < n
    ensures products == ItemProducts(e, i, BatchEnd(n, i))
    ensures trace == Progress(n, i, mark) + ItemEvents(e, i, BatchEnd(n, i)) + Pause(n, i)
  {
    var end := Min(i + ProductBatchSize, n);
    var progress := [Log(mark(end))];
    var mapped;
    products, mapped := MapBatch(enrich, e, i, end);
    var wait := if i + ProductBatchSize < n then [Sleep(ProductRetryDelay)] else [];
    trace := progress + mapped + wait;
  }

  /** The batch loop of `fetchWooCommerceProducts` over the `n` products read,
      in batches of five; `e` is the list the callbacks produce. */
  method SyncBatches(n: nat, enrich: nat -> Enriched, mark: nat -> LogService.LogEntry, ghost e: seq<Enriched>)
    returns (products: seq<WooCommerceProduct>, trace: seq<Event>)
    requires |e| == n && forall k :: 0 <= k < n ==> e[k] == enrich(k)
    ensures products == BatchProducts(e, 0) && trace == BatchEvents(e, 0, mark)
  {
    products, trace := [], [];
    var i: nat := 0;
    AccountedStart(e, mark);
    while i < n
      invariant Accounted(e, i, products, trace, mark)
      decreases n - i
    {
      var bp, step := SyncBatch(n, enrich, mark, e, i);
      LoopStep(e, n, i, products, trace, bp, step, mark);
      products, trace := products + bp, trace + step;
      i := i + ProductBatchSize;
    }
    AccountedEnd(e, i, products, trace, mark);
  }

  /** `fetchWooCommerceProducts(settings)`. */
  method FetchWooCommerceProducts(s: AppSettings.Settings, listOutcome: nat -> Fetched<seq<RawWooProduct>>,
                                  outcomes: nat -> nat -> nat -> Fetched<seq<RawVariation>>, parsePrice: string -> real)
    returns (result: Result<seq<WooCommerceProduct>, Error>, trace: seq<Event>)
    ensures Traced(result, trace) == FetchProducts(s, listOutcome, outcomes, parsePrice)
  {
    var apiUrl := WooClient.ApiUrl(s);
    var auth := WooClient.AuthHeader(s);
    if auth.Err? {
      return Err(auth.error), [];
    }
    var r, t := WooClient.FetchWithRetry(ListRequest(apiUrl, auth.value), WooClient.DefaultOptions(), ListContext, listOutcome);
    if r.Err? {
      return Err(PlainError(MessageOr(r.error, ListFallback))), t;
    }
    match r.value.content
    case NotJson(message) =>
      result, trace := Err(PlainError(message)), t;
    case OtherJson(_) =>
      result, trace := Ok([]), t + [Log(DoneLog(0))];
    case Payload(raw) =>
      var fetches := VariationReads(apiUrl, auth.value, raw, outcomes);
      var products, bt := SyncBatches(|raw|, EnrichFn(raw, fetches, parsePrice), ProgressMark(|raw|), EnrichList(raw, fetches, parsePrice));
      result, trace := Ok(products), t + bt + [Log(DoneLog(|products|))];
  }

  /** Entries `lo` .. `hi - 1` come out in index order, one record each. */
  lemma {:induction false} ItemsInOrder(e: seq<Enriched>, lo: nat, hi: nat)
    requires lo <= hi <= |e|
    ensures var r := ItemProducts(e, lo, hi);
      forall k :: lo <= k < hi ==> r[k - lo] == e[k].product
    decreases hi - lo
  {
    if lo < hi {
      ItemsInOrder(e, lo, hi - 1);
    }
  }

  /** The batches together yield every product once, in index order. */
  lemma {:induction false} BatchesInOrder(e: seq<Enriched>, i: nat)
    requires i <= |e|
    ensures var r := BatchProducts(e, i);
      |r| == |e| - i && forall k :: i <= k < |e| ==> r[k - i] == e[k].product
    decreases |e| - i
  {
    if i < |e| {
      var end := BatchEnd(|e|, i);
      var items := ItemProducts(e, i, end);
      var rest := BatchProducts(e, i + ProductBatchSize);
      var r := BatchProducts(e, i);
      assert r == items + rest;
      ItemsInOrder(e, i, end);
      if i + ProductBatchSize < |e| {
        BatchesInOrder(e, i + ProductBatchSize);
        forall k | i <= k < |e|
          ensures r[k - i] == e[k].product
        {
          if k < end {
            assert r[k - i] == items[k - i];
          } else {
            assert r[k - i] == rest[k - end];
          }
        }
      } else {
        assert rest == [];
        assert r == items;
      }
    }
  }

  /** The synced list is the input list enriched one to one, in order. */
  lemma SyncKeepsOrder(raw: seq<RawWooProduct>, fetches: nat -> Traced<seq<VariationSummary>>, parsePrice: string -> real)
    ensures var r := BatchProducts(EnrichList(raw, fetches, parsePrice), 0);
      |r| == |raw| && forall k :: 0 <= k < |raw| ==> r[k] == Enrich(raw[k], fetches(k), parsePrice).product
  {
    BatchesInOrder(EnrichList(raw, fetches, parsePrice), 0);
  }

  /** How many batches the loop runs over `n` products from index `i` on. */
  function BatchCount(n: int, i: int): nat
    decreases n - i
  {
    if i >= n then 0 else 1 + BatchCount(n, i + ProductBatchSize)
  }

  /** The number of batches is `ceil((n - i) / 5)`. */
  lemma {:induction false} BatchCountCeil(n: nat, i: nat)
    requires i <= n
    ensures BatchCount(n, i) == (n - i + 4) / 5
    decreases n - i
  {
    if i + ProductBatchSize <= n {
      BatchCountCeil(n, i + ProductBatchSize);
    }
  }

  /** Entries without events add none. */
  lemma {:induction false} QuietItems(e: seq<Enriched>, lo: nat, hi: nat)
    requires lo <= hi <= |e|
    requires forall k :: lo <= k < hi ==> e[k].trace == []
    ensures ItemEvents(e, lo, hi) == []
    decreases hi - lo
  {
    if lo < hi {
      QuietItems(e, lo, hi - 1);
    }
  }

  /** The events of the batch loop over `n` products when the products
      themselves cause none: the progress lines and the pauses. */
  function Schedule(n: nat, i: nat, mark: nat -> LogService.LogEntry): seq<Event>
    decreases n - i
  {
    if i >= n then [] else Progress(n, i, mark) + Pause(n, i) + Schedule(n, i + ProductBatchSize, mark)
  }

  lemma ScheduleStep(n: nat, i: nat, mark: nat -> LogService.LogEntry)
    requires i < n
    ensures Schedule(n, i, mark) == Progress(n, i, mark) + Pause(n, i) + Schedule(n, i + ProductBatchSize, mark)
  {
  }

  /** When no entry causes events, the loop's events are the schedule. */
  lemma {:induction false} QuietBatches(e: seq<Enriched>, i: nat, mark: nat -> LogService.LogEntry)
    requires forall k :: 0 <= k < |e| ==> e[k].trace == []
    ensures BatchEvents(e, i, mark) == Schedule(|e|, i, mark)
    decreases |e| - i
  {
    if i < |e| {
      BatchStep(e, i, mark);
      QuietItems(e, i, BatchEnd(|e|, i));
      QuietBatches(e, i + ProductBatchSize, mark);
      ScheduleStep(|e|, i, mark);
      DropEmpty(Progress(|e|, i, mark), ItemEvents(e, i, BatchEnd(|e|, i)), Pause(|e|, i), Schedule(|e|, i + ProductBatchSize, mark));
    } else {
      BatchesDone(e, i, mark);
    }
  }

  /** The schedule makes no request. */
  lemma {:induction false} ScheduleCalls(n: nat, i: nat, mark: nat -> LogService.LogEntry)
    ensures Calls(Schedule(n, i, mark)) == 0
    decreases n - i
  {
    if i < n {
      var first := Progress(n, i, mark);
      ScheduleCalls(n, i + ProductBatchSize, mark);
      CallsAppend(first + Pause(n, i), Schedule(n, i + ProductBatchSize, mark));
      CallsAppend(first, Pause(n, i));
    }
  }

  /** The schedule writes one progress line per batch, the `b`-th reporting
      `min(i + 5(b+1), n)/n`. */
  lemma {:induction false} ScheduleLogs(n: nat, i: nat, mark: nat -> LogService.LogEntry)
    ensures var l := Logs(Schedule(n, i, mark));
      |l| == BatchCount(n, i)
      && forall b :: 0 <= b < |l| ==> l[b] == mark(Min(i + ProductBatchSize * (b + 1), n))
    decreases n - i
  {
    if i < n {
      var first := Progress(n, i, mark);
      var rest := Schedule(n, i + ProductBatchSize, mark);
      ScheduleLogs(n, i + ProductBatchSize, mark);
      LogsAppend(first + Pause(n, i), rest);
      LogsAppend(first, Pause(n, i));
      assert first[1..] == [];
      assert Logs(Pause(n, i)) == [] by {
        if Pause(n, i) != [] {
          assert Pause(n, i)[1..] == [];
        }
      }
      var l := Logs(Schedule(n, i, mark));
      assert l == [mark(BatchEnd(n, i))] + Logs(rest);
      forall b | 1 <= b < |l|
        ensures l[b] == mark(Min(i + ProductBatchSize * (b + 1), n))
      {
        assert l[b] == Logs(rest)[b - 1];
        assert i + ProductBatchSize + ProductBatchSize * (b - 1 + 1) == i + ProductBatchSize * (b + 1);
      }
    }
  }

  /** The schedule waits 2000 ms between batches and not after the last. */
  lemma {:induction false} ScheduleWaits(n: nat, i: nat, mark: nat -> LogService.LogEntry)
    requires i < n
    ensures Waited(Schedule(n, i, mark)) == ProductRetryDelay * (BatchCount(n, i) - 1)
    decreases n - i
  {
    var first := Progress(n, i, mark);
    var rest := Schedule(n, i + ProductBatchSize, mark);
    WaitedAppend(first + Pause(n, i), rest);
    WaitedAppend(first, Pause(n, i));
    assert first[1..] == [];
    if i + ProductBatchSize < n {
      assert Pause(n, i)[1..] == [];
      ScheduleWaits(n, i + ProductBatchSize, mark);
      var later: int := Waited(rest);
      assert later == ProductRetryDelay * (BatchCount(n, i + ProductBatchSize) - 1);
    } else {
      assert rest == [];
    }
  }

  /** Products that list no variations cause no events. */
  lemma QuietList(raw: seq<RawWooProduct>, fetches: nat -> Traced<seq<VariationSummary>>, parsePrice: string -> real)
    requires forall k :: 0 <= k < |raw| ==> !HasVariations(raw[k])
    ensures var e := EnrichList(raw, fetches, parsePrice);
      forall k :: 0 <= k < |e| ==> e[k].trace == []
  {
    forall k | 0 <= k < |raw|
      ensures EnrichList(raw, fetches, parsePrice)[k].trace == []
    {
      EnrichCases(raw[k], fetches(k), parsePrice);
    }
  }

  /** When no entry causes events, the loop makes no request, writes one
      progress line per batch of five, the `b`-th for `min(5(b+1), n)`, and
      waits 2000 ms between batches. */
  lemma QuietTrace(e: seq<Enriched>, mark: nat -> LogService.LogEntry)
    requires |e| > 0
    requires forall k :: 0 <= k < |e| ==> e[k].trace == []
    ensures var t := BatchEvents(e, 0, mark);
      Calls(t) == 0 && |Logs(t)| == (|e| + 4) / 5
      && (forall b :: 0 <= b < |Logs(t)| ==> Logs(t)[b] == mark(Min(ProductBatchSize * (b + 1), |e|)))
      && Waited(t) == ProductRetryDelay * ((|e| + 4) / 5 - 1)
  {
    QuietBatches(e, 0, mark);
    ScheduleCalls(|e|, 0, mark);
    ScheduleLogs(|e|, 0, mark);
    ScheduleWaits(|e|, 0, mark);
    BatchCountCeil(|e|, 0);
  }

  /** When no product lists variations, syncing makes no request and writes
      exactly the progress lines, one per batch of five, the `b`-th reporting
      `min(5(b+1), n)/n`, with a 2000 ms wait between batches. */
  lemma SyncWithoutVariations(raw: seq<RawWooProduct>, fetches: nat -> Traced<seq<VariationSummary>>, parsePrice: string -> real)
    requires |raw| > 0
    requires forall k :: 0 <= k < |raw| ==> !HasVariations(raw[k])
    ensures var t := BatchEvents(EnrichList(raw, fetches, parsePrice), 0, ProgressMark(|raw|));
      Calls(t) == 0 && |Logs(t)| == (|raw| + 4) / 5
      && (forall b :: 0 <= b < |Logs(t)| ==> Logs(t)[b] == ProgressLog(Min(ProductBatchSize * (b + 1), |raw|), |raw|))
      && Waited(t) == ProductRetryDelay * ((|raw| + 4) / 5 - 1)
  {
    QuietList(raw, fetches, parsePrice);
    var t := BatchEvents(EnrichList(raw, fetches, parsePrice), 0, ProgressMark(|raw|));
    QuietTrace(EnrichList(raw, fetches, parsePrice), ProgressMark(|raw|));
    Rendered(Logs(t), |raw|, ProgressMark(|raw|));
  }

  /** Lines rendered by `ProgressMark(n)` are progress lines. */
  lemma Rendered(l: seq<LogService.LogEntry>, n: nat, mark: nat -> LogService.LogEntry)
    requires forall b :: 0 <= b < |l| ==> l[b] == mark(Min(ProductBatchSize * (b + 1), n))
    requires mark == ProgressMark(n)
    ensures forall b :: 0 <= b < |l| ==> l[b] == ProgressLog(Min(ProductBatchSize * (b + 1), n), n)
  {
  }



  // ---------------------------------------------------------------- publishToWooCommerce

  const MissingKeysMessage: string := "WooCommerce APIキーが設定されていません"
  const ExcludedMessage: string := "除外ワードが含まれているため、この商品は出品できません"
  const NoParentMessage: string := "商品の作成に失敗しました"
  const ApiErrorPrefix: string := "WooCommerce APIエラー: "
  const PublishContext: string := "商品の出品"

  /** Some exclude word occurs in the name or in the description. */
  predicate ExcludedEither(p: Product, words: seq<string>) {
    exists k :: 0 <= k < |words| &&
      (ContainsCI(p.productName, words[k]) || ContainsCI(p.description.GetOr(""), words[k]))
  }

  /** The test is the disjunction of the exclusion tests of the two texts. */
  lemma ExcludedEitherIff(p: Product, words: seq<string>)
    ensures ExcludedEither(p, words)
            <==> ContentRules.Excluded(p.productName, words) || ContentRules.Excluded(p.description.GetOr(""), words)
  {
    if ContentRules.Excluded(p.productName, words) {
      var k :| 0 <= k < |words| && ContentRules.MatchesWord(p.productName, words[k]);
      assert ContainsCI(p.productName, words[k]);
    }
    if ContentRules.Excluded(p.description.GetOr(""), words) {
      var k :| 0 <= k < |words| && ContentRules.MatchesWord(p.description.GetOr(""), words[k]);
      assert ContainsCI(p.description.GetOr(""), words[k]);
    }
  }

  /** The description sent: rewritten, then the additional text after a blank
      line when there is one. */
  function FinalDescription(p: Product, s: AppSettings.Settings): (r: string)
    ensures s.additionalDescription == "" ==> r == ContentRules.Rewrite(p.description.GetOr(""), s.replaceWords)
    ensures s.additionalDescription != "" ==>
      r == ContentRules.Rewrite(p.description.GetOr(""), s.replaceWords) + "\n\n" + s.additionalDescription
  {
    var d := ContentRules.Rewrite(p.description.GetOr(""), s.replaceWords);
    if s.additionalDescription != "" then d + "\n\n" + s.additionalDescription else d
  }

  /** `new Error('WooCommerce APIエラー: ' + message)` in the outer `catch`:
      a plain `Error` whose message is the prefix and then the caught
      message, or the "unknown error" text for a non-`Error`. */
  function Wrap(e: Error): (r: Error)
    ensures r.JsError? && r.name == "Error" && StartsWith(r.message, ApiErrorPrefix)
    ensures r.message[|ApiErrorPrefix|..] == MessageOr(e, "不明なエラーが発生しました")
  {
    PlainError(ApiErrorPrefix + MessageOr(e, "不明なエラーが発生しました"))
  }

  /** `parentProduct.id` of the create reply, which must be truthy. */
  function ParentId(c: Content<Option<int>>): (r: Result<int, Error>)
    ensures r.Ok? <==> c.Payload? && TruthyInt(c.value)
    ensures r.Ok? ==> r.value == c.value.value
  {
    match c
    case Payload(id) => if TruthyInt(id) then Ok(id.value) else Err(PlainError(NoParentMessage))
    case OtherJson(_) => Err(PlainError(NoParentMessage))
    case NotJson(message) => Err(JsError("SyntaxError", message))
  }

  function PublishRequest(apiUrl: string, authHeader: string, data: WooPayload.ProductData): Request {
    Request(Post, apiUrl + "/products", authHeader, ProductJson(data))
  }

  function PublishedLog(name: string): LogService.LogEntry {
    LogService.LogEntry(LogService.Success, LogService.Sync, "商品出品完了", Some("商品「" + name + "」を出品しました"))
  }

  /** The product data this publisher sends: category 1 always. */
  function PublishData(p: Product, price: int, s: AppSettings.Settings): WooPayload.ProductData {
    WooPayload.BuildProductData(p, ContentRules.Rewrite(p.productName, s.replaceWords), FinalDescription(p, s), [1], price)
  }

  /** `publishToWooCommerce(product, price, settings)` of this module; `post` is
      the oracle of the product post, `posts` that of the variation posts. */
  function Publish<V>(p: Product, price: int, s: AppSettings.Settings,
                      post: nat -> Fetched<Option<int>>, posts: nat -> nat -> Fetched<V>): Traced<()>
  {
    var apiUrl := WooClient.ApiUrl(s);
    var auth := WooClient.AuthHeader(s);
    if auth.Err? then Traced(Err(auth.error), [])
    else if s.woocommerceApiKey == "" || s.woocommerceApiSecret == "" then Traced(Err(PlainError(MissingKeysMessage)), [])
    else if ExcludedEither(p, s.excludeWords) then Traced(Err(PlainError(ExcludedMessage)), [])
    else PostProduct(apiUrl, auth.value, PublishData(p, price, s), post, posts)
  }

  /** What follows the checks: the product post, then its variations, then
      the success line; every error is wrapped. */
  function PostProduct<V>(apiUrl: string, authHeader: string, data: WooPayload.ProductData,
                          post: nat -> Fetched<Option<int>>, posts: nat -> nat -> Fetched<V>): Traced<()>
  {
    var run := WooClient.Run(PublishRequest(apiUrl, authHeader, data), WooClient.DefaultOptions(), PublishContext, post, 1, None);
    if run.result.Err? then Traced(Err(Wrap(run.result.error)), run.trace)
    else
      var parent := ParentId(run.result.value.content);
      if parent.Err? then Traced(Err(Wrap(parent.error)), run.trace)
      else
        var id := IntStr(parent.value);
        var c := Variations.Create(id, data.variations, Variations.PostRuns(apiUrl, authHeader, id, data.variations, posts), 0);
        if c.result.Err? then Traced(Err(Wrap(c.result.error)), run.trace + c.trace)
        else Traced(Ok(()), run.trace + c.trace + [Log(PublishedLog(data.name))])
  }

  /** The `forEach` over the replace rules, rewriting the name and the
      description together. */
  method RewriteBoth(name: string, description: string, rules: seq<AppSettings.ReplaceRule>)
    returns (newName: string, newDescription: string)
    ensures newName == ContentRules.Rewrite(name, rules)
    ensures newDescription == ContentRules.Rewrite(description, rules)
  {
    newName, newDescription := name, description;
    var i := 0;
    while i < |rules|
      invariant i <= |rules|
      invariant ContentRules.Rewrite(newName, rules[i..]) == ContentRules.Rewrite(name, rules)
      invariant ContentRules.Rewrite(newDescription, rules[i..]) == ContentRules.Rewrite(description, rules)
      decreases |rules| - i
    {
      assert rules[i..][1..] == rules[i + 1..];
      newName := ReplaceAllCI(newName, rules[i].from, rules[i].to);
      newDescription := ReplaceAllCI(newDescription, rules[i].from, rules[i].to);
      i := i + 1;
    }
    assert rules[i..] == [];
  }

  /** `publishToWooCommerce(product, price, settings)`. */
  method PublishToWooCommerce<V>(p: Product, price: int, s: AppSettings.Settings,
                                 post: nat -> Fetched<Option<int>>, posts: nat -> nat -> Fetched<V>)
    returns (result: Result<(), Error>, trace: seq<Event>)
    ensures Traced(result, trace) == Publish(p, price, s, post, posts)
  {
    var apiUrl := WooClient.ApiUrl(s);
    var auth := WooClient.AuthHeader(s);
    if auth.Err? {
      return Err(auth.error), [];
    }
    if s.woocommerceApiKey == "" || s.woocommerceApiSecret == "" {
      return Err(PlainError(MissingKeysMessage)), [];
    }
    if ExcludedEither(p, s.excludeWords) {
      return Err(PlainError(ExcludedMessage)), [];
    }
    var name, description := RewriteBoth(p.productName, p.description.GetOr(""), s.replaceWords);
    if s.additionalDescription != "" {
      description := description + "\n\n" + s.additionalDescription;
    }
    var data := WooPayload.BuildProductData(p, name, description, [1], price);
    assert data == PublishData(p, price, s);
    var r, t := WooClient.FetchWithRetry(PublishRequest(apiUrl, auth.value, data), WooClient.DefaultOptions(), PublishContext, post);
    if r.Err? {
      return Err(Wrap(r.error)), t;
    }
    var parent := ParentId(r.value.content);
    if parent.Err? {
      return Err(Wrap(parent.error)), t;
    }
    var id := IntStr(parent.value);
    var cr, ct := Variations.CreateProductVariations(apiUrl, auth.value, id, data.variations, posts);
    if cr.Err? {
      return Err(Wrap(cr.error)), t + ct;
    }
    result, trace := Ok(()), t + ct + [Log(PublishedLog(name))];
  }

  /** Missing keys are reported before the exclusion test and before any request. */
  lemma PublishNeedsKeys<V>(p: Product, price: int, s: AppSettings.Settings,
                            post: nat -> Fetched<Option<int>>, posts: nat -> nat -> Fetched<V>)
    requires WooClient.AuthHeader(s).Ok?
    requires s.woocommerceApiKey == "" || s.woocommerceApiSecret == ""
    ensures Publish(p, price, s, post, posts) == Traced(Err(PlainError(MissingKeysMessage)), [])
  {
  }

  /** An exclude word in the name or the description rejects the product without a request. */
  lemma PublishRejectsExcluded<V>(p: Product, price: int, s: AppSettings.Settings,
                                  post: nat -> Fetched<Option<int>>, posts: nat -> nat -> Fetched<V>)
    requires WooClient.AuthHeader(s).Ok? && s.woocommerceApiKey != "" && s.woocommerceApiSecret != ""
    requires ContentRules.Excluded(p.productName, s.excludeWords) || ContentRules.Excluded(p.description.GetOr(""), s.excludeWords)
    ensures Publish(p, price, s, post, posts) == Traced(Err(PlainError(ExcludedMessage)), [])
  {
    ExcludedEitherIff(p, s.excludeWords);
  }

  /** The product sent carries the rewritten name, the rewritten and extended
      description, category 1 and the variation payloads. */
  lemma PublishDataFields(p: Product, price: int, s: AppSettings.Settings)
    ensures var data := PublishData(p, price, s);
      data.name == ContentRules.Rewrite(p.productName, s.replaceWords)
      && data.description == FinalDescription(p, s)
      && data.categories == [1]
      && data.variations == WooPayload.Variations(p, price)
  {
  }

  /** The first event of the post stage is the product post. */
  lemma PostStartsWithCall<V>(apiUrl: string, authHeader: string, data: WooPayload.ProductData,
                              post: nat -> Fetched<Option<int>>, posts: nat -> nat -> Fetched<V>)
    ensures var t := PostProduct(apiUrl, authHeader, data, post, posts).trace;
      |t| > 0 && t[0] == Call(PublishRequest(apiUrl, authHeader, data))
  {
    var request := PublishRequest(apiUrl, authHeader, data);
    WooClient.RunStartsWithCall(request, WooClient.DefaultOptions(), PublishContext, post);
    var run := WooClient.Run(request, WooClient.DefaultOptions(), PublishContext, post, 1, None);
    var t := PostProduct(apiUrl, authHeader, data, post, posts).trace;
    assert t[..|run.trace|] == run.trace;
  }

  /** Past the checks, the first event is the post of that product. */
  lemma PublishPostsPayload<V>(p: Product, price: int, s: AppSettings.Settings,
                               post: nat -> Fetched<Option<int>>, posts: nat -> nat -> Fetched<V>)
    requires WooClient.AuthHeader(s).Ok? && s.woocommerceApiKey != "" && s.woocommerceApiSecret != ""
    requires !ContentRules.Excluded(p.productName, s.excludeWords) && !ContentRules.Excluded(p.description.GetOr(""), s.excludeWords)
    ensures var t := Publish(p, price, s, post, posts).trace;
      |t| > 0 && t[0] == Call(PublishRequest(WooClient.ApiUrl(s), WooClient.AuthHeader(s).value, PublishData(p, price, s)))
  {
    ExcludedEitherIff(p, s.excludeWords);
    PostStartsWithCall(WooClient.ApiUrl(s), WooClient.AuthHeader(s).value, PublishData(p, price, s), post, posts);
  }

  /** A created product without an id is an error, and no variation is posted. */
  lemma PublishNeedsParentId<V>(p: Product, price: int, s: AppSettings.Settings,
                                post: nat -> Fetched<Option<int>>, posts: nat -> nat -> Fetched<V>)
    requires WooClient.AuthHeader(s).Ok? && s.woocommerceApiKey != "" && s.woocommerceApiSecret != ""
    requires !ExcludedEither(p, s.excludeWords)
    requires var run := WooClient.Run(PublishRequest(WooClient.ApiUrl(s), WooClient.AuthHeader(s).value, PublishData(p, price, s)),
                                      WooClient.DefaultOptions(), PublishContext, post, 1, None);
      run.result.Ok? && run.result.value.content.Payload? && !TruthyInt(run.result.value.content.value)
    ensures var run := WooClient.Run(PublishRequest(WooClient.ApiUrl(s), WooClient.AuthHeader(s).value, PublishData(p, price, s)),
                                     WooClient.DefaultOptions(), PublishContext, post, 1, None);
      Publish(p, price, s, post, posts) == Traced(Err(PlainError(ApiErrorPrefix + NoParentMessage)), run.trace)
  {
  }

  /** Every error of the post stage is a wrapped one. */
  lemma PostErrorsWrapped<V>(apiUrl: string, authHeader: string, data: WooPayload.ProductData,
                             post: nat -> Fetched<Option<int>>, posts: nat -> nat -> Fetched<V>)
    requires PostProduct(apiUrl, authHeader, data, post, posts).result.Err?
    ensures exists e :: PostProduct(apiUrl, authHeader, data, post, posts).result.error == Wrap(e)
  {
  }

  /** Past the checks, every error is rethrown with the "WooCommerce APIエラー: " prefix. */
  lemma PublishErrorsPrefixed<V>(p: Product, price: int, s: AppSettings.Settings,
                                 post: nat -> Fetched<Option<int>>, posts: nat -> nat -> Fetched<V>)
    requires WooClient.AuthHeader(s).Ok? && s.woocommerceApiKey != "" && s.woocommerceApiSecret != ""
    requires !ExcludedEither(p, s.excludeWords)
    requires Publish(p, price, s, post, posts).result.Err?
    ensures var e := Publish(p, price, s, post, posts).result.error;
      e.JsError? && e.name == "Error" && StartsWith(e.message, ApiErrorPrefix)
  {
    var data := PublishData(p, price, s);
    PostErrorsWrapped(WooClient.ApiUrl(s), WooClient.AuthHeader(s).value, data, post, posts);
    var e :| PostProduct(WooClient.ApiUrl(s), WooClient.AuthHeader(s).value, data, post, posts).result.error == Wrap(e);
  }

  /** The header is computed first: credentials `btoa` rejects fail with its
      error even when the other key is missing. */
  lemma HeaderBeforeKeyCheck<V>(p: Product, price: int, s: AppSettings.Settings,
                                post: nat -> Fetched<Option<int>>, posts: nat -> nat -> Fetched<V>)
    requires WooClient.AuthHeader(s).Err?
    ensures Publish(p, price, s, post, posts) == Traced(Err(WooClient.InvalidCharacter()), [])
  {
  }
}
