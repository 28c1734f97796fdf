/** The inventory page (src/pages/Inventory.tsx): the store products narrowed by
    a search term and a stock filter and sorted by name, stock or modification
    date; a stock edit that only logs and refetches; and the mount effect that
    logs around a forced refetch. `localeCompare` and the date parser are
    parameters. */
module Inventory {
  import opened Prelude
  import opened Text
  import opened Effects
  import opened Errors
  import LogService
  import AppSettings
  import Catalog
  import Sorting
  import UseWooCommerce

  type Product = Catalog.WooCommerceProduct

  datatype StockFilter = All | Low | Out
  datatype SortBy = Name | StockLevel | Updated

  /** The largest quantity that still counts as low stock. */
  const LowStockLimit: int := 5

  /** The search: an empty term matches everything, otherwise the name or the
      SKU must contain it, ignoring case. */
  predicate MatchesSearch(p: Product, term: string) {
    term == "" || ContainsCI(p.name, term) || ContainsCI(p.sku, term)
  }

  predicate MatchesStock(p: Product, f: StockFilter) {
    f == All
    || (f == Low && 0 < p.stockQuantity <= LowStockLimit)
    || (f == Out && p.stockQuantity <= 0)
  }

  predicate Keeps(p: Product, term: string, f: StockFilter) {
    MatchesSearch(p, term) && MatchesStock(p, f)
  }

  function Kept(products: seq<Product>, term: string, f: StockFilter): (r: seq<Product>)
    ensures |r| <= |products|
  {
    Filter(products, (p: Product) => Keeps(p, term, f))
  }

  /** 'stock' sorts by `b.stock_quantity - a.stock_quantity`, which is the
      ascending order of the negated quantity. */
  function StockKey(p: Product): int { -p.stockQuantity }

  /** 'updated' sorts by `time(b) - time(a)` on `date_modified`. */
  function UpdatedKey(time: string -> int): Product -> int {
    (p: Product) => -time(p.dateModified)
  }

  function Compare(sortBy: SortBy, locale: (string, string) -> int, time: string -> int): (Product, Product) -> int {
    match sortBy
    case Name => (a: Product, b: Product) => locale(a.name, b.name)
    case StockLevel => Sorting.ByKey(StockKey)
    case Updated => Sorting.ByKey(UpdatedKey(time))
  }

  /** The list handed to the product table. */
  function Visible(products: seq<Product>, term: string, f: StockFilter, sortBy: SortBy,
                   locale: (string, string) -> int, time: string -> int): seq<Product> {
    Sorting.SortWith(Kept(products, term, f), Compare(sortBy, locale, time))
  }

  /** The visible list is a permutation of the products that pass both
      filters: each shown item is one of the products and satisfies both, and
      each product that satisfies both is shown. */
  lemma VisibleIsFiltered(products: seq<Product>, term: string, f: StockFilter, sortBy: SortBy,
                          locale: (string, string) -> int, time: string -> int)
    ensures var r := Visible(products, term, f, sortBy, locale, time);
      multiset(r) == multiset(Kept(products, term, f))
      && (forall k :: 0 <= k < |r| ==> r[k] in products && MatchesSearch(r[k], term) && MatchesStock(r[k], f))
      && (forall k :: 0 <= k < |products| && Keeps(products[k], term, f) ==> products[k] in r)
  {
    var kept := Kept(products, term, f);
    var r := Visible(products, term, f, sortBy, locale, time);
    forall k | 0 <= k < |r| ensures r[k] in products && Keeps(r[k], term, f) {
      assert r[k] in multiset(r);
      assert r[k] in kept;
    }
    forall k | 0 <= k < |products| && Keeps(products[k], term, f) ensures products[k] in r {
      assert products[k] in kept;
      assert products[k] in multiset(kept);
    }
  }

  /** With an empty term and 'all', every product is shown (only reordered). */
  lemma UnfilteredShowsAll(products: seq<Product>, sortBy: SortBy, locale: (string, string) -> int, time: string -> int)
    ensures multiset(Visible(products, "", All, sortBy, locale, time)) == multiset(products)
  {
    FilterAll(products, (p: Product) => Keeps(p, "", All));
  }

  /** 'low' and 'out' never both accept an item. */
  lemma LowAndOutDisjoint(p: Product)
    ensures !(MatchesStock(p, Low) && MatchesStock(p, Out))
    ensures MatchesStock(p, Low) <==> 0 < p.stockQuantity <= 5
    ensures MatchesStock(p, Out) <==> p.stockQuantity <= 0
  {
  }

  /** 'stock' lists the largest quantities first, between any two positions. */
  lemma StockDescending(products: seq<Product>, term: string, f: StockFilter,
                        locale: (string, string) -> int, time: string -> int)
    ensures var r := Visible(products, term, f, StockLevel, locale, time);
      forall i, j :: 0 <= i <= j < |r| ==> r[i].stockQuantity >= r[j].stockQuantity
  {
    var r := Visible(products, term, f, StockLevel, locale, time);
    assert Compare(StockLevel, locale, time) == Sorting.ByKey(StockKey);
    assert r == Sorting.SortWith(Kept(products, term, f), Sorting.ByKey(StockKey));
    Sorting.SortByKey(Kept(products, term, f), StockKey);
    forall i, j | 0 <= i <= j < |r| ensures r[i].stockQuantity >= r[j].stockQuantity {
      assert StockKey(r[i]) <= StockKey(r[j]);
    }
  }

  /** 'updated' lists the latest modification first. */
  lemma UpdatedDescending(products: seq<Product>, term: string, f: StockFilter,
                          locale: (string, string) -> int, time: string -> int)
    ensures var r := Visible(products, term, f, Updated, locale, time);
      forall i, j :: 0 <= i <= j < |r| ==> time(r[i].dateModified) >= time(r[j].dateModified)
  {
    var r := Visible(products, term, f, Updated, locale, time);
    assert Compare(Updated, locale, time) == Sorting.ByKey(UpdatedKey(time));
    assert r == Sorting.SortWith(Kept(products, term, f), Sorting.ByKey(UpdatedKey(time)));
    Sorting.SortByKey(Kept(products, term, f), UpdatedKey(time));
    forall i, j | 0 <= i <= j < |r| ensures time(r[i].dateModified) >= time(r[j].dateModified) {
      assert UpdatedKey(time)(r[i]) <= UpdatedKey(time)(r[j]);
    }
  }

  /** 'name' lists the names in `localeCompare` order, given that swapping
      its arguments negates it. */
  lemma NameAscending(products: seq<Product>, term: string, f: StockFilter,
                      locale: (string, string) -> int, time: string -> int)
    requires forall a: string, b: string :: locale(b, a) == -locale(a, b)
    ensures var r := Visible(products, term, f, Name, locale, time);
      forall i :: 0 <= i < |r| - 1 ==> locale(r[i].name, r[i + 1].name) <= 0
  {
    var compare := Compare(Name, locale, time);
    forall a: Product, b: Product ensures compare(a, b) <= 0 || compare(b, a) <= 0 {
      assert locale(b.name, a.name) == -locale(a.name, b.name);
    }
    Sorting.SortOrdered(Kept(products, term, f), compare);
  }

  // ---------------------------------------------------------------- stock edit

  function UpdateLog(productId: string, newStock: int): LogService.LogEntry {
    LogService.LogEntry(LogService.Info, LogService.Stock, "在庫数更新: 商品ID " + productId,
      Some("新しい在庫数: " + IntStr(newStock)))
  }

  /** `handleStockUpdate(productId, variantId, newStock)`: the log line, then
      `refetch()`, that is a forced `fetchProducts`. The outer catch is not
      modelled: neither step throws. */
  function HandleStockUpdate(v: UseWooCommerce.View, s: AppSettings.Settings, now: int,
                             productId: string, newStock: int,
                             fetched: Traced<seq<Product>>): UseWooCommerce.Fetch {
    var refetch := UseWooCommerce.FetchStep(v, s, true, now, fetched);
    refetch.(trace := [Log(UpdateLog(productId, newStock))] + refetch.trace)
  }

  /** The edit changes no stock: its only requests are those of the product
      fetch (none without credentials), the new quantity appears only in the
      log line, and the provider ends as the refetch alone would leave it —
      on success holding exactly the fetched products. */
  lemma StockUpdateOnlyRefetches(v: UseWooCommerce.View, s: AppSettings.Settings, now: int,
                                 productId: string, newStock: int, fetched: Traced<seq<Product>>)
    ensures var r := HandleStockUpdate(v, s, now, productId, newStock, fetched);
      r.view == UseWooCommerce.FetchStep(v, s, true, now, fetched).view
      && Requests(r.trace) == (if UseWooCommerce.HasCredentials(s) then Requests(fetched.trace) else [])
      && Logs(r.trace)[0] == UpdateLog(productId, newStock)
      && (UseWooCommerce.HasCredentials(s) && fetched.result.Ok? ==> r.view.products == fetched.result.value)
  {
    var refetch := UseWooCommerce.FetchStep(v, s, true, now, fetched);
    var head := [Log(UpdateLog(productId, newStock))];
    RequestsAppend(head, refetch.trace);
    LogsAppend(head, refetch.trace);
    if UseWooCommerce.HasCredentials(s) {
      var start := [Log(UseWooCommerce.StartLog())];
      var last := if fetched.result.Ok? then [Log(UseWooCommerce.DoneLog(|fetched.result.value|))]
                  else [Log(UseWooCommerce.FailLog(MessageOr(fetched.result.error, UseWooCommerce.FetchFallback)))];
      assert refetch.trace == start + fetched.trace + last;
      RequestsAppend(start + fetched.trace, last);
      RequestsAppend(start, fetched.trace);
    }
  }

  // ---------------------------------------------------------------- mount

  const MountStarted: string := "在庫管理画面: 商品データの同期を開始します"
  const MountDone: string := "在庫管理画面: 商品データの同期が完了しました"

  function MountStartLog(): LogService.LogEntry {
    LogService.LogEntry(LogService.Info, LogService.Sync, MountStarted, None)
  }

  function MountDoneLog(count: nat): LogService.LogEntry {
    LogService.LogEntry(LogService.Success, LogService.Sync, MountDone, Some("取得商品数: " + NatStr(count) + "件"))
  }

  /** The mount effect as written: the count in the closing line is read from
      the product list captured when the effect was created, before the
      refetch; and since `refetch` never throws, the closing line is a success
      line even when the fetch failed. */
  function MountSyncAsWritten(v: UseWooCommerce.View, s: AppSettings.Settings, now: int,
                              fetched: Traced<seq<Product>>): UseWooCommerce.Fetch {
    var refetch := UseWooCommerce.FetchStep(v, s, true, now, fetched);
    refetch.(trace := [Log(MountStartLog())] + refetch.trace + [Log(MountDoneLog(|v.products|))])
  }

  /** The mount effect reporting the number of products the provider holds
      after the refetch. */
  function MountSync(v: UseWooCommerce.View, s: AppSettings.Settings, now: int,
                     fetched: Traced<seq<Product>>): UseWooCommerce.Fetch {
    var refetch := UseWooCommerce.FetchStep(v, s, true, now, fetched);
    refetch.(trace := [Log(MountStartLog())] + refetch.trace + [Log(MountDoneLog(|refetch.view.products|))])
  }

  /** As written, on the first mount (an empty list) a fetch of one product
      is reported as "0件", and a failed fetch is still reported as a success. */
  lemma MountCountIsStale(s: AppSettings.Settings, now: int, p: Product, failure: Traced<seq<Product>>)
    requires UseWooCommerce.HasCredentials(s)
    requires failure.result.Err?
    ensures var v := UseWooCommerce.View([], true, None, 0);
      var r := MountSyncAsWritten(v, s, now, Traced(Ok([p]), []));
      r.view.products == [p]
      && r.trace[|r.trace| - 1] == Log(MountDoneLog(0))
      && Log(MountDoneLog(0)) != Log(MountDoneLog(|r.view.products|))
      && MountSyncAsWritten(v, s, now, failure).trace[|MountSyncAsWritten(v, s, now, failure).trace| - 1].entry.kind
         == LogService.Success
  {
    assert NatStr(0) == "0" && NatStr(1) == "1";
    assert "取得商品数: " + NatStr(0) + "件" != "取得商品数: " + NatStr(1) + "件" by {
      assert ("取得商品数: " + NatStr(0) + "件")[7] == '0';
      assert ("取得商品数: " + NatStr(1) + "件")[7] == '1';
    }
  }

  /** The corrected effect's closing line counts exactly the products the
      provider holds afterwards: the fetched list on success, the previous
      list otherwise; its requests are those of the refetch. */
  lemma MountCountsFetched(v: UseWooCommerce.View, s: AppSettings.Settings, now: int,
                           fetched: Traced<seq<Product>>)
    ensures var r := MountSync(v, s, now, fetched);
      r.trace[|r.trace| - 1] == Log(MountDoneLog(|r.view.products|))
      && (UseWooCommerce.HasCredentials(s) && fetched.result.Ok? ==> r.view.products == fetched.result.value)
      && (!(UseWooCommerce.HasCredentials(s) && fetched.result.Ok?) ==> r.view.products == v.products)
      && Logs(r.trace)[0] == MountStartLog()
  {
    var refetch := UseWooCommerce.FetchStep(v, s, true, now, fetched);
    LogsAppend([Log(MountStartLog())], refetch.trace + [Log(MountDoneLog(|refetch.view.products|))]);
  }
}
