/** The publishing logic of the products page (src/pages/Products.tsx): reading
    every page of a supplier's NETSEA catalog, deciding whether a product is
    already in the store, publishing all unpublished products of a supplier or
    the products the user picked, and the pick toggle. The page's state is a
    class; the settings, the store products and the category mappings come from
    other providers and are parameters. */
module ProductsPage {
  import opened Prelude
  import opened Text
  import opened Errors
  import opened Effects
  import opened Catalog
  import AppSettings
  import NetseaApi
  import WooCommerceApi
  import PriceCalculator
  import OrderedSet
  import Categories

  const SelectSupplierMessage: string := "サプライヤーを選択してください"
  const FetchingStep: string := "商品情報を取得中..."
  const NothingToPublishMessage: string := "未出品の商品がありません"
  const PublishingStep: string := "WooCommerceへ出品中..."
  const PublishFailedFallback: string := "出品に失敗しました"
  const PartialFailurePrefix: string := "一部の商品で出品に失敗しました:\n"
  const PublishedCountSuffix: string := "件の商品を出品しました"
  const SelectProductsMessage: string := "出品する商品を選択してください"
  const SelectPlatformsMessage: string := "出品先を選択してください"
  const PreparingStep: string := "商品情報の準備中..."
  const VariationsStep: string := "バリエーション情報を登録中..."
  const SelectedPublishedMessage: string := "選択した商品を出品しました"
  const WooPlatform: string := "woocommerce"
  const LineBreak: string := "\n"
  const ErrorSeparator: string := ": "

  /** `setPublishProgress({ currentProduct, currentStep, progress, total })`. */
  function Shown(progress: int, total: int, step: string, product: string): Event {
    Progress(progress, total, step, Some(product))
  }

  /** The progress box is cleared in the `finally` blocks. */
  const Cleared: Event := Progress(0, 0, "", Some(""))

  // ---------------------------------------------------------------- all pages of a supplier

  /** The fetch at position `last` cannot continue the cursor chain: it fails,
      or its reply carries no truthy `next_direct_item_id`. */
  predicate ChainEnds(pages: nat -> Fetched<NetseaApi.ItemsBody>, last: nat) {
    !(pages(last).Replied? && pages(last).reply.content.Payload?
      && TruthyStr(pages(last).reply.content.value.nextDirectItemId))
  }

  /** `fetchAllSupplierProducts(supplierId)` from fetch `k` on, with cursor
      `next`: fetch a page, append its products, and go on while the returned
      cursor is truthy. A failed page rejects the whole read. */
  function FetchFrom(s: AppSettings.Settings, supplierId: int, pages: nat -> Fetched<NetseaApi.ItemsBody>,
                     k: nat, next: Option<string>, last: nat): Traced<seq<Product>>
    requires k <= last && ChainEnds(pages, last)
    decreases last - k
  {
    var o := NetseaApi.FetchSupplierProducts(Some(s), Some(supplierId), next, pages(k));
    if o.result.Err? then Traced(Err(o.result.error), o.trace)
    else if !TruthyStr(o.result.value.nextDirectItemId) then Traced(Ok(o.result.value.data), o.trace)
    else
      var rest := FetchFrom(s, supplierId, pages, k + 1, o.result.value.nextDirectItemId, last);
      Traced(if rest.result.Ok? then Ok(o.result.value.data + rest.result.value) else rest.result, o.trace + rest.trace)
  }

  /** What has been read so far, followed by the rest of the read. */
  function Joined(acc: seq<Product>, t: seq<Event>, o: Traced<seq<Product>>): Traced<seq<Product>> {
    Traced(if o.result.Ok? then Ok(acc + o.result.value) else o.result, t + o.trace)
  }

  lemma JoinedStep(acc: seq<Product>, t: seq<Event>, data: seq<Product>, u: seq<Event>, rest: Traced<seq<Product>>)
    ensures Joined(acc, t, Traced(if rest.result.Ok? then Ok(data + rest.result.value) else rest.result, u + rest.trace))
         == Joined(acc + data, t + u, rest)
  {
    AppendAssoc(t, u, rest.trace);
    if rest.result.Ok? {
      AppendAssoc(acc, data, rest.result.value);
    }
  }

  lemma JoinedStart(o: Traced<seq<Product>>)
    ensures Joined([], [], o) == o
  {
    assert [] + o.trace == o.trace;
    if o.result.Ok? {
      assert [] + o.result.value == o.result.value;
    }
  }

  /** The loop state `all`, `trace` at fetch `k` with cursor `next`, followed
      by the rest of the read, is the whole read. */
  predicate FetchAccounted(s: AppSettings.Settings, supplierId: int, pages: nat -> Fetched<NetseaApi.ItemsBody>, last: nat,
                           all: seq<Product>, trace: seq<Event>, k: nat, next: Option<string>)
    requires ChainEnds(pages, last)
  {
    k <= last && Joined(all, trace, FetchFrom(s, supplierId, pages, k, next, last)) == FetchFrom(s, supplierId, pages, 0, None, last)
  }

  lemma FetchAccountedStart(s: AppSettings.Settings, supplierId: int, pages: nat -> Fetched<NetseaApi.ItemsBody>, last: nat)
    requires ChainEnds(pages, last)
    ensures FetchAccounted(s, supplierId, pages, last, [], [], 0, None)
  {
    JoinedStart(FetchFrom(s, supplierId, pages, 0, None, last));
  }

  /** A page that ends the read (a failure or no cursor) closes the account. */
  lemma FetchAccountedEnd(s: AppSettings.Settings, supplierId: int, pages: nat -> Fetched<NetseaApi.ItemsBody>, last: nat,
                          all: seq<Product>, trace: seq<Event>, k: nat, next: Option<string>,
                          response: Traced<NetseaApi.ItemsPage>)
    requires ChainEnds(pages, last) && FetchAccounted(s, supplierId, pages, last, all, trace, k, next)
    requires response == NetseaApi.FetchSupplierProducts(Some(s), Some(supplierId), next, pages(k))
    requires response.result.Err? || !TruthyStr(response.result.value.nextDirectItemId)
    ensures response.result.Err? ==>
      Traced(Err(response.result.error), trace + response.trace) == FetchFrom(s, supplierId, pages, 0, None, last)
    ensures response.result.Ok? ==>
      Traced(Ok(all + response.result.value.data), trace + response.trace) == FetchFrom(s, supplierId, pages, 0, None, last)
  {
  }

  /** A page with a cursor moves the account on to the next fetch. */
  lemma FetchAccountedStep(s: AppSettings.Settings, supplierId: int, pages: nat -> Fetched<NetseaApi.ItemsBody>, last: nat,
                           all: seq<Product>, trace: seq<Event>, k: nat, next: Option<string>,
                           response: Traced<NetseaApi.ItemsPage>)
    requires ChainEnds(pages, last) && FetchAccounted(s, supplierId, pages, last, all, trace, k, next)
    requires response == NetseaApi.FetchSupplierProducts(Some(s), Some(supplierId), next, pages(k))
    requires response.result.Ok? && TruthyStr(response.result.value.nextDirectItemId)
    ensures k < last
    ensures FetchAccounted(s, supplierId, pages, last, all + response.result.value.data, trace + response.trace, k + 1,
                           response.result.value.nextDirectItemId)
  {
    var page := response.result.value;
    JoinedStep(all, trace, page.data, response.trace, FetchFrom(s, supplierId, pages, k + 1, page.nextDirectItemId, last));
  }

  /** The `do { … } while (nextId)` loop. `last` bounds the number of pages: the
      loop ends there at the latest. */
  method FetchAllSupplierProducts(s: AppSettings.Settings, supplierId: int, pages: nat -> Fetched<NetseaApi.ItemsBody>,
                                  ghost last: nat)
    returns (result: Result<seq<Product>, Error>, trace: seq<Event>)
    requires ChainEnds(pages, last)
    ensures Traced(result, trace) == FetchFrom(s, supplierId, pages, 0, None, last)
  {
    var all: seq<Product> := [];
    var nextId: Option<string> := None;
    var k := 0;
    trace := [];
    FetchAccountedStart(s, supplierId, pages, last);
    while true
      invariant FetchAccounted(s, supplierId, pages, last, all, trace, k, nextId)
      decreases last - k
    {
      var response := NetseaApi.FetchSupplierProducts(Some(s), Some(supplierId), nextId, pages(k));
      if response.result.Err? {
        FetchAccountedEnd(s, supplierId, pages, last, all, trace, k, nextId, response);
        return Err(response.result.error), trace + response.trace;
      }
      var page := response.result.value;
      if !TruthyStr(page.nextDirectItemId) {
        FetchAccountedEnd(s, supplierId, pages, last, all, trace, k, nextId, response);
        return Ok(all + page.data), trace + response.trace;
      }
      FetchAccountedStep(s, supplierId, pages, last, all, trace, k, nextId, response);
      all := all + page.data;
      trace := trace + response.trace;
      nextId := page.nextDirectItemId;
      k := k + 1;
    }
  }

  /** Without a NETSEA key nothing is fetched; with one, the first request asks
      for the supplier's first page (no cursor), so at least one page is read. */
  lemma FetchAllStartsAtFirstPage(s: AppSettings.Settings, supplierId: int, pages: nat -> Fetched<NetseaApi.ItemsBody>, last: nat)
    requires ChainEnds(pages, last)
    ensures var o := FetchFrom(s, supplierId, pages, 0, None, last);
      && (s.netseaApiKey == "" ==> o == Traced(Err(PlainError(NetseaApi.KeyMissingMessage)), []))
      && (s.netseaApiKey != "" ==> |o.trace| >= 1 && o.trace[0] == Call(NetseaApi.ItemsRequest(s.netseaApiKey, Some(supplierId), None)))
  {
  }

  /** A page with a truthy cursor is followed by a request for that cursor. */
  lemma FetchFollowsCursor(s: AppSettings.Settings, supplierId: int, pages: nat -> Fetched<NetseaApi.ItemsBody>,
                           k: nat, next: Option<string>, last: nat)
    requires k <= last && ChainEnds(pages, last) && s.netseaApiKey != ""
    requires pages(k).Replied? && pages(k).reply.Ok() && pages(k).reply.content.Payload?
    requires TruthyStr(pages(k).reply.content.value.nextDirectItemId)
    ensures k < last
    ensures var o := FetchFrom(s, supplierId, pages, k, next, last);
      |o.trace| >= 3 && o.trace[2] == Call(NetseaApi.ItemsRequest(s.netseaApiKey, Some(supplierId), pages(k).reply.content.value.nextDirectItemId))
  {
    var first := NetseaApi.FetchSupplierProducts(Some(s), Some(supplierId), next, pages(k));
    var cursor := pages(k).reply.content.value.nextDirectItemId;
    var rest := FetchFrom(s, supplierId, pages, k + 1, cursor, last);
    assert first.result.Ok? by {
      assert first.trace[1..][1..] == [];
    }
    assert (first.trace + rest.trace)[2] == rest.trace[0];
  }

  /** Every product read comes from one of the pages fetched, and the pages are
      read in order: the products of fetch `k` come first. */
  lemma {:induction false} FetchAllCollects(s: AppSettings.Settings, supplierId: int, pages: nat -> Fetched<NetseaApi.ItemsBody>,
                                            k: nat, next: Option<string>, last: nat)
    requires k <= last && ChainEnds(pages, last)
    ensures var o := FetchFrom(s, supplierId, pages, k, next, last);
      o.result.Ok? ==>
        && pages(k).Replied? && pages(k).reply.content.Payload?
        && StartsWith(o.result.value, pages(k).reply.content.value.data)
        && forall p :: p in o.result.value ==>
             exists j :: k <= j <= last && pages(j).Replied? && pages(j).reply.content.Payload? && p in pages(j).reply.content.value.data
    decreases last - k
  {
    var first := NetseaApi.FetchSupplierProducts(Some(s), Some(supplierId), next, pages(k));
    var o := FetchFrom(s, supplierId, pages, k, next, last);
    if o.result.Ok? {
      var data := first.result.value.data;
      if TruthyStr(first.result.value.nextDirectItemId) {
        var cursor := first.result.value.nextDirectItemId;
        FetchAllCollects(s, supplierId, pages, k + 1, cursor, last);
        var rest := FetchFrom(s, supplierId, pages, k + 1, cursor, last).result.value;
        assert o.result.value == data + rest;
        assert (data + rest)[..|data|] == data;
        forall p | p in o.result.value
          ensures exists j :: k <= j <= last && pages(j).Replied? && pages(j).reply.content.Payload? && p in pages(j).reply.content.value.data
        {
          if p !in data {
            assert p in rest;
          }
        }
      } else {
        assert o.result.value == data;
        assert data[..|data|] == data;
      }
    }
  }

  // ---------------------------------------------------------------- already published?

  /** The store product stands for NETSEA product `id`: same sku, same original
      id, or a variation whose sku starts with `id`. */
  predicate Represents(p: WooCommerceProduct, id: string) {
    p.sku == id || p.originalProductId == id
    || (p.variations.Some? && exists v :: v in p.variations.value && StartsWith(v.sku, id))
  }

  /** `isPublishedToWooCommerce(productId)`. */
  predicate IsPublished(woo: seq<WooCommerceProduct>, id: string) {
    exists p :: p in woo && Represents(p, id)
  }

  /** The variation test is a prefix test: `'12'` is published by a variation
      with sku `'123-…'`, so a shorter id can be taken for a longer one. */
  lemma PrefixCountsAsPublished(woo: seq<WooCommerceProduct>, k: nat, v: VariationSummary, id: string, rest: string)
    requires k < |woo| && woo[k].variations.Some? && v in woo[k].variations.value && v.sku == id + rest
    ensures IsPublished(woo, id)
  {
    assert (id + rest)[..|id|] == id;
    assert Represents(woo[k], id);
  }

  /** Nothing is published in an empty store, and adding store products never
      unpublishes anything. */
  lemma PublishedGrows(woo: seq<WooCommerceProduct>, more: seq<WooCommerceProduct>, id: string)
    ensures !IsPublished([], id)
    ensures IsPublished(woo, id) ==> IsPublished(woo + more, id)
  {
    if IsPublished(woo, id) {
      var p :| p in woo && Represents(p, id);
      assert p in woo + more;
    }
  }

  /** The products publish-all attempts: the unpublished ones, in catalog order. */
  function Unpublished(woo: seq<WooCommerceProduct>, all: seq<Product>): (r: seq<Product>)
    ensures forall p :: p in r <==> p in all && !IsPublished(woo, p.productId)
  {
    Filter(all, (p: Product) => !IsPublished(woo, p.productId))
  }

  // ---------------------------------------------------------------- publish inputs

  /** `product.set[0]?.price || 0`. */
  function BasePrice(p: Product): int {
    if |p.variants| == 0 then 0 else p.variants[0].price
  }

  /** The first mapping whose `netseaId.toString()` is the product's category. */
  function FindCategoryMapping(mappings: seq<Categories.Mapping>, categoryId: string): (r: Option<nat>)
    ensures r.Some? ==> r.value < |mappings| && IntStr(mappings[r.value].netseaId) == categoryId
                        && forall j :: 0 <= j < r.value ==> IntStr(mappings[j].netseaId) != categoryId
    ensures r.None? ==> forall j :: 0 <= j < |mappings| ==> IntStr(mappings[j].netseaId) != categoryId
    decreases |mappings|
  {
    if |mappings| == 0 then None
    else if IntStr(mappings[0].netseaId) == categoryId then Some(0)
    else
      var r := FindCategoryMapping(mappings[1..], categoryId);
      if r.None? then None else Some(r.value + 1)
  }

  /** `categoryMappings.find(…)?.wooCommerceId`. */
  function CategoryFor(mappings: seq<Categories.Mapping>, categoryId: string): Option<int> {
    var k := FindCategoryMapping(mappings, categoryId);
    if k.None? then None else mappings[k.value].wooCommerceId
  }

  /** The store category is that of the first matching mapping, and undefined
      when no mapping matches. */
  lemma CategoryForFirst(mappings: seq<Categories.Mapping>, categoryId: string, k: nat)
    requires k < |mappings| && IntStr(mappings[k].netseaId) == categoryId
    requires forall j :: 0 <= j < k ==> IntStr(mappings[j].netseaId) != categoryId
    ensures CategoryFor(mappings, categoryId) == mappings[k].wooCommerceId
  {
  }

  /** One `publishToWooCommerce(product, calculatePrice(base, settings), settings,
      categoryId)` call; `post` and `posts` are its network outcomes. */
  function PublishAttempt(p: Product, s: AppSettings.Settings, mappings: seq<Categories.Mapping>,
                          post: Fetched<int>, posts: nat -> Fetched<int>): Traced<()> {
    WooCommerceApi.Publish(p, PriceCalculator.CalculatePrice(BasePrice(p), s), s, CategoryFor(mappings, p.categoryId), post, posts)
  }

  /** Each product is priced from its first variant's price, and a product
      with no variant from a cost of 0: under the default settings it is then
      listed at the bare minimum profit of 500 yen. */
  lemma PricedFromFirstVariant(p: Product, s: AppSettings.Settings, mappings: seq<Categories.Mapping>,
                               post: Fetched<int>, posts: nat -> Fetched<int>)
    ensures PublishAttempt(p, s, mappings, post, posts)
      == WooCommerceApi.Publish(p, PriceCalculator.CalculatePrice(BasePrice(p), s), s, CategoryFor(mappings, p.categoryId), post, posts)
    ensures |p.variants| > 0 ==> BasePrice(p) == p.variants[0].price
    ensures |p.variants| == 0 ==> BasePrice(p) == 0
    ensures |p.variants| == 0 && s == AppSettings.Defaults() ==> PriceCalculator.CalculatePrice(BasePrice(p), s) == 500
  {
    if |p.variants| == 0 && s == AppSettings.Defaults() {
      PriceCalculator.DefaultsKeepFloor(0);
    }
  }

  /** `${product.product_name}: ${message}`. */
  function ErrorLine(name: string, e: Error): string {
    name + ErrorSeparator + MessageOr(e, PublishFailedFallback)
  }

  /** The running count, the error lines and the events of a publishing loop. */
  datatype Tally = Tally(progress: nat, errors: seq<string>, events: seq<Event>)

  // ---------------------------------------------------------------- publish all

  /** One pass of the publish-all loop body: show the product, publish it; a
      success raises the counter and shows it, a failure adds an error line. */
  function AllStep(items: seq<Product>, attempts: seq<Traced<()>>, i: nat, progress: nat): Tally
    requires i < |items| == |attempts|
  {
    var name := items[i].productName;
    var a := attempts[i];
    var shown := Shown(progress, |items|, PublishingStep, name);
    if a.result.Ok? then Tally(progress + 1, [], [shown] + a.trace + [Shown(progress + 1, |items|, PublishingStep, name)])
    else Tally(progress, [ErrorLine(name, a.result.error)], [shown] + a.trace)
  }

  function AllFrom(items: seq<Product>, attempts: seq<Traced<()>>, i: nat, progress: nat): Tally
    requires |items| == |attempts|
    decreases |items| - i
  {
    if i >= |items| then Tally(progress, [], [])
    else
      var a := AllStep(items, attempts, i, progress);
      var b := AllFrom(items, attempts, i + 1, a.progress);
      Tally(b.progress, a.errors + b.errors, a.events + b.events)
  }

  predicate Succeeded(a: Traced<()>) { a.result.Ok? }
  predicate Failed(a: Traced<()>) { a.result.Err? }

  /** The counter rises only on success: it ends at the number of products
      published, and there is one error line per failure, in order. */
  lemma {:induction false} AllFromCounts(items: seq<Product>, attempts: seq<Traced<()>>, i: nat, progress: nat)
    requires i <= |items| == |attempts|
    ensures var t := AllFrom(items, attempts, i, progress);
      && t.progress == progress + Count(attempts[i..], Succeeded)
      && |t.errors| == Count(attempts[i..], Failed)
    decreases |items| - i
  {
    if i < |items| {
      var a := AllStep(items, attempts, i, progress);
      AllFromCounts(items, attempts, i + 1, a.progress);
      assert attempts[i..][0] == attempts[i] && attempts[i..][1..] == attempts[i + 1..];
    }
  }

  /** The attempts publish-all makes, one per unpublished product; `post(k)` and
      `posts(k)` are the outcomes for the k-th of them. */
  function AllAttempts(items: seq<Product>, s: AppSettings.Settings, mappings: seq<Categories.Mapping>,
                       post: nat -> Fetched<int>, posts: nat -> nat -> Fetched<int>): (r: seq<Traced<()>>)
    ensures |r| == |items|
  {
    seq(|items|, k requires 0 <= k < |items| => PublishAttempt(items[k], s, mappings, post(k), posts(k)))
  }

  /** The closing message: the error lines when there are any, else the count. */
  function Summary(errors: seq<string>, success: string): string {
    if |errors| > 0 then PartialFailurePrefix + Join(errors, LineBreak) else success
  }

  /** What a publishing handler leaves behind: the message it shows, the first
      page it reloaded, and the events. */
  datatype Outcome = Outcome(message: Option<string>, reloaded: Option<NetseaApi.ItemsPage>, trace: seq<Event>, ranTry: bool)

  /** Publish-all once the catalog read `fetched` is back: a failed read sets
      its message; with nothing unpublished the message says so; otherwise the
      loop runs, the message summarises it and the first page is reloaded, and a
      failed reload replaces the message. The trace is what follows the read. */
  function AfterRead(selected: int, s: AppSettings.Settings, woo: seq<WooCommerceProduct>, mappings: seq<Categories.Mapping>,
                     fetched: Result<seq<Product>, Error>, post: nat -> Fetched<int>, posts: nat -> nat -> Fetched<int>,
                     reload: Fetched<NetseaApi.ItemsBody>): Outcome
  {
    if fetched.Err? then Outcome(Some(MessageOr(fetched.error, PublishFailedFallback)), None, [Cleared], true)
    else
      var items := Unpublished(woo, fetched.value);
      if |items| == 0 then Outcome(Some(NothingToPublishMessage), None, [Cleared], true)
      else
        var tally := AllFrom(items, AllAttempts(items, s, mappings, post, posts), 0, 0);
        var r := NetseaApi.FetchSupplierProducts(Some(s), Some(selected), None, reload);
        var trace := tally.events + r.trace + [Cleared];
        if r.result.Err? then Outcome(Some(MessageOr(r.result.error, PublishFailedFallback)), None, trace, true)
        else Outcome(Some(Summary(tally.errors, NatStr(tally.progress) + PublishedCountSuffix)), Some(r.result.value), trace, true)
  }

  /** `handlePublishAllSupplierProducts()`. `pages` are the outcomes of the
      catalog read, `post(k)`/`posts(k)` those of the k-th publish, and `reload`
      that of the first-page reload at the end. */
  function PublishAll(selected: Option<int>, s: AppSettings.Settings, woo: seq<WooCommerceProduct>,
                      mappings: seq<Categories.Mapping>, pages: nat -> Fetched<NetseaApi.ItemsBody>, last: nat,
                      post: nat -> Fetched<int>, posts: nat -> nat -> Fetched<int>,
                      reload: Fetched<NetseaApi.ItemsBody>): Outcome
    requires ChainEnds(pages, last)
  {
    if !TruthyInt(selected) then Outcome(Some(SelectSupplierMessage), None, [], false)
    else
      var fetched := FetchFrom(s, selected.value, pages, 0, None, last);
      var o := AfterRead(selected.value, s, woo, mappings, fetched.result, post, posts, reload);
      Outcome(o.message, o.reloaded, [Shown(0, 100, FetchingStep, "")] + fetched.trace + o.trace, o.ranTry)
  }

  /** The steps of `handlePublishAllSupplierProducts()` apart from the page
      state it sets. */
  method RunPublishAll(selected: Option<int>, s: AppSettings.Settings, woo: seq<WooCommerceProduct>,
                       mappings: seq<Categories.Mapping>, pages: nat -> Fetched<NetseaApi.ItemsBody>, ghost last: nat,
                       post: nat -> Fetched<int>, posts: nat -> nat -> Fetched<int>, reload: Fetched<NetseaApi.ItemsBody>)
    returns (o: Outcome)
    requires ChainEnds(pages, last)
    ensures o == PublishAll(selected, s, woo, mappings, pages, last, post, posts, reload)
  {
    if !TruthyInt(selected) {
      return Outcome(Some(SelectSupplierMessage), None, [], false);
    }
    var fetched, fetchTrace := FetchAllSupplierProducts(s, selected.value, pages, last);
    var rest := PublishAfterRead(selected.value, s, woo, mappings, fetched, post, posts, reload);
    return Outcome(rest.message, rest.reloaded, [Shown(0, 100, FetchingStep, "")] + fetchTrace + rest.trace, rest.ranTry);
  }

  /** The `try` block of publish-all after the catalog read. */
  method PublishAfterRead(selected: int, s: AppSettings.Settings, woo: seq<WooCommerceProduct>, mappings: seq<Categories.Mapping>,
                          fetched: Result<seq<Product>, Error>, post: nat -> Fetched<int>, posts: nat -> nat -> Fetched<int>,
                          reload: Fetched<NetseaApi.ItemsBody>)
    returns (o: Outcome)
    ensures o == AfterRead(selected, s, woo, mappings, fetched, post, posts, reload)
  {
    if fetched.Err? {
      return Outcome(Some(MessageOr(fetched.error, PublishFailedFallback)), None, [Cleared], true);
    }
    var items := Unpublished(woo, fetched.value);
    if |items| == 0 {
      return Outcome(Some(NothingToPublishMessage), None, [Cleared], true);
    }
    var progress, errors, events := PublishEach(items, s, mappings, post, posts);
    var message := Summary(errors, NatStr(progress) + PublishedCountSuffix);
    var r := NetseaApi.FetchSupplierProducts(Some(s), Some(selected), None, reload);
    var trace := events + r.trace + [Cleared];
    if r.result.Err? {
      return Outcome(Some(MessageOr(r.result.error, PublishFailedFallback)), None, trace, true);
    }
    return Outcome(Some(message), Some(r.result.value), trace, true);
  }

  /** The `for … of unpublishedProducts` loop. */
  method PublishEach(items: seq<Product>, s: AppSettings.Settings, mappings: seq<Categories.Mapping>,
                     post: nat -> Fetched<int>, posts: nat -> nat -> Fetched<int>)
    returns (progress: nat, errors: seq<string>, events: seq<Event>)
    ensures Tally(progress, errors, events) == AllFrom(items, AllAttempts(items, s, mappings, post, posts), 0, 0)
  {
    ghost var attempts := AllAttempts(items, s, mappings, post, posts);
    progress, errors, events := 0, [], [];
    EachAccountedStart(items, attempts);
    var i := 0;
    while i < |items|
      invariant EachAccounted(items, attempts, i, progress, errors, events)
      decreases |items| - i
    {
      var p := items[i];
      var a := PublishOne(items, s, mappings, post, posts, i);
      var step: Tally;
      if a.result.Ok? {
        step := Tally(progress + 1, [], [Shown(progress, |items|, PublishingStep, p.productName)] + a.trace
                                       + [Shown(progress + 1, |items|, PublishingStep, p.productName)]);
      } else {
        step := Tally(progress, [ErrorLine(p.productName, a.result.error)], [Shown(progress, |items|, PublishingStep, p.productName)] + a.trace);
      }
      EachAccountedStep(items, attempts, i, progress, errors, events, step);
      progress, errors, events := step.progress, errors + step.errors, events + step.events;
      i := i + 1;
    }
    EachAccountedEnd(items, attempts, progress, errors, events);
  }

  /** The publish of the `i`-th unpublished product. */
  method PublishOne(items: seq<Product>, s: AppSettings.Settings, mappings: seq<Categories.Mapping>,
                    post: nat -> Fetched<int>, posts: nat -> nat -> Fetched<int>, i: nat)
    returns (a: Traced<()>)
    requires i < |items|
    ensures a == AllAttempts(items, s, mappings, post, posts)[i]
  {
    a := WooCommerceApi.Publish(items[i], PriceCalculator.CalculatePrice(BasePrice(items[i]), s), s,
                                CategoryFor(mappings, items[i].categoryId), post(i), posts(i));
  }

  /** The loop's invariant: what has been tallied, followed by the loop from
      product `i` on, is the whole loop. */
  ghost predicate EachAccounted(items: seq<Product>, attempts: seq<Traced<()>>, i: nat,
                                progress: nat, errors: seq<string>, events: seq<Event>)
  {
    i <= |items| == |attempts|
    && var rest := AllFrom(items, attempts, i, progress);
       Tally(rest.progress, errors + rest.errors, events + rest.events) == AllFrom(items, attempts, 0, 0)
  }

  lemma EachAccountedStart(items: seq<Product>, attempts: seq<Traced<()>>)
    requires |items| == |attempts|
    ensures EachAccounted(items, attempts, 0, 0, [], [])
  {
    var all := AllFrom(items, attempts, 0, 0);
    assert [] + all.errors == all.errors && [] + all.events == all.events;
  }

  lemma EachAccountedStep(items: seq<Product>, attempts: seq<Traced<()>>, i: nat,
                          progress: nat, errors: seq<string>, events: seq<Event>, step: Tally)
    requires EachAccounted(items, attempts, i, progress, errors, events) && i < |items|
    requires step == AllStep(items, attempts, i, progress)
    ensures EachAccounted(items, attempts, i + 1, step.progress, errors + step.errors, events + step.events)
  {
    var rest := AllFrom(items, attempts, i + 1, step.progress);
    AppendAssoc(errors, step.errors, rest.errors);
    AppendAssoc(events, step.events, rest.events);
  }

  lemma EachAccountedEnd(items: seq<Product>, attempts: seq<Traced<()>>,
                         progress: nat, errors: seq<string>, events: seq<Event>)
    requires EachAccounted(items, attempts, |items|, progress, errors, events)
    ensures Tally(progress, errors, events) == AllFrom(items, attempts, 0, 0)
  {
    assert errors + [] == errors && events + [] == events;
  }

  /** Publish-all without a selected supplier only sets the message. */
  lemma PublishAllNeedsSupplier(selected: Option<int>, s: AppSettings.Settings, woo: seq<WooCommerceProduct>,
                                mappings: seq<Categories.Mapping>, pages: nat -> Fetched<NetseaApi.ItemsBody>, last: nat,
                                post: nat -> Fetched<int>, posts: nat -> nat -> Fetched<int>, reload: Fetched<NetseaApi.ItemsBody>)
    requires ChainEnds(pages, last) && !TruthyInt(selected)
    ensures PublishAll(selected, s, woo, mappings, pages, last, post, posts, reload) == Outcome(Some(SelectSupplierMessage), None, [], false)
  {
  }

  /** When every product of the supplier is already in the store, nothing is
      published and the message says there is nothing to publish. */
  lemma NothingUnpublished(selected: Option<int>, s: AppSettings.Settings, woo: seq<WooCommerceProduct>,
                           mappings: seq<Categories.Mapping>, pages: nat -> Fetched<NetseaApi.ItemsBody>, last: nat,
                           post: nat -> Fetched<int>, posts: nat -> nat -> Fetched<int>, reload: Fetched<NetseaApi.ItemsBody>)
    requires ChainEnds(pages, last) && TruthyInt(selected)
    requires var f := FetchFrom(s, selected.value, pages, 0, None, last);
      f.result.Ok? && forall p :: p in f.result.value ==> IsPublished(woo, p.productId)
    ensures var o := PublishAll(selected, s, woo, mappings, pages, last, post, posts, reload);
      o.message == Some(NothingToPublishMessage) && o.reloaded.None?
  {
  }

  /** The closing message of publish-all names every failure, one per line; it
      reports the count only when nothing failed. */
  lemma PublishAllMessage(items: seq<Product>, attempts: seq<Traced<()>>)
    requires |items| == |attempts|
    ensures var t := AllFrom(items, attempts, 0, 0);
      var m := Summary(t.errors, NatStr(t.progress) + PublishedCountSuffix);
      && t.progress + |t.errors| == |items|
      && (Count(attempts, Failed) > 0 ==> m == PartialFailurePrefix + Join(t.errors, LineBreak))
      && (Count(attempts, Failed) == 0 ==> m == NatStr(|items|) + PublishedCountSuffix)
  {
    AllFromCounts(items, attempts, 0, 0);
    assert attempts[0..] == attempts;
    SplitCount(attempts);
  }

  /** Every attempt either succeeds or fails. */
  lemma {:induction false} SplitCount(attempts: seq<Traced<()>>)
    ensures Count(attempts, Succeeded) + Count(attempts, Failed) == |attempts|
    decreases |attempts|
  {
    if |attempts| > 0 {
      SplitCount(attempts[1..]);
    }
  }

  // ---------------------------------------------------------------- publish the picked products

  /** `products.find(p => p.product_id === productId)`. */
  function FindProduct(products: seq<Product>, id: string): (r: Option<Product>)
    ensures r.Some? ==> r.value in products && r.value.productId == id
    ensures r.None? <==> forall p :: p in products ==> p.productId != id
    ensures r.Some? ==> exists k :: 0 <= k < |products| && products[k] == r.value
                          && forall j :: 0 <= j < k ==> products[j].productId != id
    decreases |products|
  {
    if |products| == 0 then None
    else if products[0].productId == id then Some(products[0])
    else FindProduct(products[1..], id)
  }

  /** One pass of the `handlePublish` loop body. An id not in the loaded list is
      skipped without progress; an already published product only advances the
      counter; otherwise the product is shown, published when WooCommerce is a
      chosen platform, and the counter advances whether or not that failed. */
  function PickStep(ids: seq<string>, products: seq<Product>, woo: seq<WooCommerceProduct>, platforms: seq<string>,
                    attempts: seq<Traced<()>>, i: nat, progress: nat): Tally
    requires i < |ids| == |attempts|
  {
    var found := FindProduct(products, ids[i]);
    var n := |ids|;
    if found.None? then Tally(progress, [], [])
    else if IsPublished(woo, found.value.productId) then Tally(progress + 1, [], [])
    else
      var name := found.value.productName;
      var prep := Shown(progress, n, PreparingStep, name);
      if WooPlatform !in platforms then Tally(progress + 1, [], [prep, Shown(progress + 1, n, PreparingStep, name)])
      else
        var posting := Shown(progress, n, PublishingStep, name);
        var a := attempts[i];
        if a.result.Ok? then
          Tally(progress + 1, [], [prep, posting] + a.trace + [Shown(progress, n, VariationsStep, name), Shown(progress + 1, n, VariationsStep, name)])
        else
          Tally(progress + 1, [ErrorLine(name, a.result.error)], [prep, posting] + a.trace + [Shown(progress + 1, n, PublishingStep, name)])
  }

  function PickFrom(ids: seq<string>, products: seq<Product>, woo: seq<WooCommerceProduct>, platforms: seq<string>,
                    attempts: seq<Traced<()>>, i: nat, progress: nat): Tally
    requires |ids| == |attempts|
    decreases |ids| - i
  {
    if i >= |ids| then Tally(progress, [], [])
    else
      var a := PickStep(ids, products, woo, platforms, attempts, i, progress);
      var b := PickFrom(ids, products, woo, platforms, attempts, i + 1, a.progress);
      Tally(b.progress, a.errors + b.errors, a.events + b.events)
  }

  /** The attempts `handlePublish` may make, one per picked id. */
  function PickAttempts(ids: seq<string>, products: seq<Product>, s: AppSettings.Settings, mappings: seq<Categories.Mapping>,
                        post: nat -> Fetched<int>, posts: nat -> nat -> Fetched<int>): (r: seq<Traced<()>>)
    ensures |r| == |ids|
  {
    seq(|ids|, k requires 0 <= k < |ids| =>
      var found := FindProduct(products, ids[k]);
      if found.None? then Traced(Ok(()), []) else PublishAttempt(found.value, s, mappings, post(k), posts(k)))
  }

  /** An id that is not loaded, or a product already in the store, causes no
      request and no error. */
  lemma PickSkips(ids: seq<string>, products: seq<Product>, woo: seq<WooCommerceProduct>, platforms: seq<string>,
                  attempts: seq<Traced<()>>, i: nat, progress: nat)
    requires i < |ids| == |attempts|
    requires FindProduct(products, ids[i]).None? || IsPublished(woo, ids[i])
    ensures var t := PickStep(ids, products, woo, platforms, attempts, i, progress);
      t.events == [] && t.errors == []
      && t.progress == (if FindProduct(products, ids[i]).None? then progress else progress + 1)
  {
  }

  predicate Loaded(products: seq<Product>, id: string) { FindProduct(products, id).Some? }

  /** The counter ends at the number of picked ids that are loaded, whether
      their publishing failed, succeeded or was not needed. */
  lemma {:induction false} PickProgress(ids: seq<string>, products: seq<Product>, woo: seq<WooCommerceProduct>, platforms: seq<string>,
                                        attempts: seq<Traced<()>>, i: nat, progress: nat)
    requires i <= |ids| == |attempts|
    ensures PickFrom(ids, products, woo, platforms, attempts, i, progress).progress
         == progress + Count(ids[i..], (id: string) => Loaded(products, id))
    decreases |ids| - i
  {
    if i < |ids| {
      var a := PickStep(ids, products, woo, platforms, attempts, i, progress);
      PickStepCounts(ids, products, woo, platforms, attempts, i, progress);
      PickProgress(ids, products, woo, platforms, attempts, i + 1, a.progress);
      assert ids[i..][0] == ids[i] && ids[i..][1..] == ids[i + 1..];
    }
  }

  /** One step advances the counter exactly when the id is loaded, and adds an
      error line only when its attempt failed. */
  lemma PickStepCounts(ids: seq<string>, products: seq<Product>, woo: seq<WooCommerceProduct>, platforms: seq<string>,
                       attempts: seq<Traced<()>>, i: nat, progress: nat)
    requires i < |ids| == |attempts|
    ensures var a := PickStep(ids, products, woo, platforms, attempts, i, progress);
      && a.progress == progress + (if Loaded(products, ids[i]) then 1 else 0)
      && |a.errors| <= (if Failed(attempts[i]) then 1 else 0)
  {
  }

  /** Only a failed publish adds an error line: with no failed attempt the list
      stays empty. */
  lemma {:induction false} PickErrorsOnlyFromFailures(ids: seq<string>, products: seq<Product>, woo: seq<WooCommerceProduct>,
                                                      platforms: seq<string>, attempts: seq<Traced<()>>, i: nat, progress: nat)
    requires i <= |ids| == |attempts|
    ensures |PickFrom(ids, products, woo, platforms, attempts, i, progress).errors| <= Count(attempts[i..], Failed)
    decreases |ids| - i
  {
    if i < |ids| {
      var a := PickStep(ids, products, woo, platforms, attempts, i, progress);
      PickStepCounts(ids, products, woo, platforms, attempts, i, progress);
      PickErrorsOnlyFromFailures(ids, products, woo, platforms, attempts, i + 1, a.progress);
      assert attempts[i..][0] == attempts[i] && attempts[i..][1..] == attempts[i + 1..];
    }
  }

  /** `handlePublish()` over the picked ids, in the order they were picked. */
  function PublishSelected(ids: seq<string>, platforms: seq<string>, products: seq<Product>, s: AppSettings.Settings,
                           woo: seq<WooCommerceProduct>, mappings: seq<Categories.Mapping>,
                           post: nat -> Fetched<int>, posts: nat -> nat -> Fetched<int>): Outcome
  {
    if |ids| == 0 then Outcome(Some(SelectProductsMessage), None, [], false)
    else if |platforms| == 0 then Outcome(Some(SelectPlatformsMessage), None, [], false)
    else
      var tally := PickFrom(ids, products, woo, platforms, PickAttempts(ids, products, s, mappings, post, posts), 0, 0);
      Outcome(Some(Summary(tally.errors, SelectedPublishedMessage)), None, tally.events + [Cleared], true)
  }

  predicate PickAccounted(ids: seq<string>, products: seq<Product>, woo: seq<WooCommerceProduct>, platforms: seq<string>,
                         attempts: seq<Traced<()>>, i: nat, progress: nat, errors: seq<string>, events: seq<Event>)
    requires |ids| == |attempts|
  {
    var rest := PickFrom(ids, products, woo, platforms, attempts, i, progress);
    var all := PickFrom(ids, products, woo, platforms, attempts, 0, 0);
    rest.progress == all.progress && errors + rest.errors == all.errors && events + rest.events == all.events
  }

  lemma PickAccountedStart(ids: seq<string>, products: seq<Product>, woo: seq<WooCommerceProduct>, platforms: seq<string>,
                           attempts: seq<Traced<()>>)
    requires |ids| == |attempts|
    ensures PickAccounted(ids, products, woo, platforms, attempts, 0, 0, [], [])
  {
    var all := PickFrom(ids, products, woo, platforms, attempts, 0, 0);
    assert [] + all.errors == all.errors && [] + all.events == all.events;
  }

  lemma PickAccountedStep(ids: seq<string>, products: seq<Product>, woo: seq<WooCommerceProduct>, platforms: seq<string>,
                          attempts: seq<Traced<()>>, i: nat, progress: nat, errors: seq<string>, events: seq<Event>, step: Tally)
    requires i < |ids| == |attempts| && PickAccounted(ids, products, woo, platforms, attempts, i, progress, errors, events)
    requires step == PickStep(ids, products, woo, platforms, attempts, i, progress)
    ensures PickAccounted(ids, products, woo, platforms, attempts, i + 1, step.progress, errors + step.errors, events + step.events)
  {
    var rest := PickFrom(ids, products, woo, platforms, attempts, i + 1, step.progress);
    AppendAssoc(errors, step.errors, rest.errors);
    AppendAssoc(events, step.events, rest.events);
  }

  /** The `for … of publishedProductsSet` loop. */
  method PublishPicked(ids: seq<string>, platforms: seq<string>, products: seq<Product>, s: AppSettings.Settings,
                       woo: seq<WooCommerceProduct>, mappings: seq<Categories.Mapping>,
                       post: nat -> Fetched<int>, posts: nat -> nat -> Fetched<int>)
    returns (progress: nat, errors: seq<string>, events: seq<Event>)
    ensures Tally(progress, errors, events) == PickFrom(ids, products, woo, platforms, PickAttempts(ids, products, s, mappings, post, posts), 0, 0)
  {
    ghost var attempts := PickAttempts(ids, products, s, mappings, post, posts);
    progress, errors, events := 0, [], [];
    PickAccountedStart(ids, products, woo, platforms, attempts);
    var i := 0;
    var n := |ids|;
    while i < |ids|
      invariant i <= |ids|
      invariant PickAccounted(ids, products, woo, platforms, attempts, i, progress, errors, events)
      decreases |ids| - i
    {
      var found := FindProduct(products, ids[i]);
      var step: Tally;
      if found.None? {
        step := Tally(progress, [], []);
      } else if IsPublished(woo, found.value.productId) {
        step := Tally(progress + 1, [], []);
      } else {
        var p := found.value;
        var prep := Shown(progress, n, PreparingStep, p.productName);
        if WooPlatform in platforms {
          var posting := Shown(progress, n, PublishingStep, p.productName);
          var a := WooCommerceApi.Publish(p, PriceCalculator.CalculatePrice(BasePrice(p), s), s, CategoryFor(mappings, p.categoryId), post(i), posts(i));
          assert a == attempts[i];
          if a.result.Ok? {
            step := Tally(progress + 1, [], [prep, posting] + a.trace
                          + [Shown(progress, n, VariationsStep, p.productName), Shown(progress + 1, n, VariationsStep, p.productName)]);
          } else {
            step := Tally(progress + 1, [ErrorLine(p.productName, a.result.error)],
                          [prep, posting] + a.trace + [Shown(progress + 1, n, PublishingStep, p.productName)]);
          }
        } else {
          step := Tally(progress + 1, [], [prep, Shown(progress + 1, n, PreparingStep, p.productName)]);
        }
      }
      PickAccountedStep(ids, products, woo, platforms, attempts, i, progress, errors, events, step);
      progress, errors, events := step.progress, errors + step.errors, events + step.events;
      i := i + 1;
    }
    assert errors + [] == errors && events + [] == events;
  }

  // ---------------------------------------------------------------- the page

  class ProductsPageState {
    var products: seq<Product>
    var nextDirectItemId: Option<string>
    var hasMore: bool
    var error: Option<string>
    var isLoading: bool
    var isPublishingAll: bool
    var showProgress: bool
    var selectedSupplierId: Option<int>
    /** `publishedProductsSet`: the picked product ids, in insertion order. */
    var publishedProductsSet: seq<string>
    var selectedPlatforms: seq<string>

    /** The picked ids form a set. */
    predicate Valid()
      reads this
    {
      OrderedSet.NoDup(publishedProductsSet)
    }

    constructor ()
      ensures Valid()
      ensures products == [] && nextDirectItemId.None? && !hasMore && error.None?
      ensures !isLoading && !isPublishingAll && !showProgress && selectedSupplierId.None?
      ensures publishedProductsSet == [] && selectedPlatforms == [WooPlatform]
    {
      products := [];
      nextDirectItemId := None;
      hasMore := false;
      error := None;
      isLoading := false;
      isPublishingAll := false;
      showProgress := false;
      selectedSupplierId := None;
      publishedProductsSet := [];
      selectedPlatforms := [WooPlatform];
    }

    /** `handleTogglePublish(product)`: the product's id leaves the set if it was
        in it and joins it otherwise; no other id changes. */
    method TogglePublish(p: Product)
      requires Valid()
      modifies this
      ensures Valid()
      ensures publishedProductsSet == OrderedSet.Toggle(old(publishedProductsSet), p.productId)
      ensures (p.productId in publishedProductsSet) <==> (p.productId !in old(publishedProductsSet))
      ensures unchanged(this`products, this`nextDirectItemId, this`hasMore, this`error, this`isLoading,
                        this`isPublishingAll, this`showProgress, this`selectedSupplierId, this`selectedPlatforms)
    {
      publishedProductsSet := OrderedSet.Toggle(publishedProductsSet, p.productId);
    }

    /** The state publish-all leaves for its outcome: the message, the
        reloaded first page if any, and the flags its `finally` clears. */
    method ShowOutcome(o: Outcome)
      modifies this
      ensures error == o.message
      ensures o.reloaded.Some? ==> products == o.reloaded.value.data && nextDirectItemId == o.reloaded.value.nextDirectItemId
                                   && hasMore == TruthyStr(o.reloaded.value.nextDirectItemId)
      ensures o.reloaded.None? ==> products == old(products) && nextDirectItemId == old(nextDirectItemId) && hasMore == old(hasMore)
      ensures o.ranTry ==> !isPublishingAll && !showProgress
      ensures !o.ranTry ==> isPublishingAll == old(isPublishingAll) && showProgress == old(showProgress)
      ensures unchanged(this`publishedProductsSet, this`selectedSupplierId, this`selectedPlatforms, this`isLoading)
    {
      error := o.message;
      if o.reloaded.Some? {
        products := o.reloaded.value.data;
        nextDirectItemId := o.reloaded.value.nextDirectItemId;
        hasMore := TruthyStr(o.reloaded.value.nextDirectItemId);
      }
      if o.ranTry {
        isPublishingAll := false;
        showProgress := false;
      }
    }

    /** `handlePublishAllSupplierProducts()`. Without a supplier only the message
        changes. Otherwise the message is the outcome's, the first page is
        reloaded when the reload succeeds, and the flags are cleared. */
    method PublishAllSupplierProducts(s: AppSettings.Settings, woo: seq<WooCommerceProduct>, mappings: seq<Categories.Mapping>,
                                      pages: nat -> Fetched<NetseaApi.ItemsBody>, ghost last: nat,
                                      post: nat -> Fetched<int>, posts: nat -> nat -> Fetched<int>,
                                      reload: Fetched<NetseaApi.ItemsBody>)
      returns (trace: seq<Event>)
      requires ChainEnds(pages, last)
      modifies this
      ensures var o := PublishAll(old(selectedSupplierId), s, woo, mappings, pages, last, post, posts, reload);
        && trace == o.trace && error == o.message
        && (o.reloaded.Some? ==> products == o.reloaded.value.data && nextDirectItemId == o.reloaded.value.nextDirectItemId
                                 && hasMore == TruthyStr(o.reloaded.value.nextDirectItemId))
        && (o.reloaded.None? ==> products == old(products) && nextDirectItemId == old(nextDirectItemId) && hasMore == old(hasMore))
        && (o.ranTry ==> !isPublishingAll && !showProgress)
        && (!o.ranTry ==> isPublishingAll == old(isPublishingAll) && showProgress == old(showProgress))
      ensures unchanged(this`publishedProductsSet, this`selectedSupplierId, this`selectedPlatforms, this`isLoading)
    {
      var o := RunPublishAll(selectedSupplierId, s, woo, mappings, pages, last, post, posts, reload);
      ShowOutcome(o);
      trace := o.trace;
    }

    /** `handlePublish()`: publishes the picked products; the guards leave
        everything but the message as it was. */
    method HandlePublish(s: AppSettings.Settings, woo: seq<WooCommerceProduct>, mappings: seq<Categories.Mapping>,
                         post: nat -> Fetched<int>, posts: nat -> nat -> Fetched<int>)
      returns (trace: seq<Event>)
      modifies this
      ensures var o := PublishSelected(old(publishedProductsSet), old(selectedPlatforms), old(products), s, woo, mappings, post, posts);
        && trace == o.trace && error == o.message
        && (o.ranTry ==> !isLoading && !showProgress)
        && (!o.ranTry ==> isLoading == old(isLoading) && showProgress == old(showProgress))
      ensures unchanged(this`products, this`nextDirectItemId, this`hasMore, this`isPublishingAll, this`selectedSupplierId,
                        this`publishedProductsSet, this`selectedPlatforms)
    {
      if |publishedProductsSet| == 0 {
        error := Some(SelectProductsMessage);
        return [];
      }
      if |selectedPlatforms| == 0 {
        error := Some(SelectPlatformsMessage);
        return [];
      }
      isLoading := true;
      showProgress := true;
      var progress, errors, events := PublishPicked(publishedProductsSet, selectedPlatforms, products, s, woo, mappings, post, posts);
      error := Some(Summary(errors, SelectedPublishedMessage));
      isLoading := false;
      showProgress := false;
      trace := events + [Cleared];
    }
  }
}
