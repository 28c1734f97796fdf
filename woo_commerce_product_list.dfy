/** The paginated store-product table of the inventory page
    (src/components/inventory/WooCommerceProductList.tsx): twenty rows a page
    with a clamped pager and a range caption, a per-row stock sync whose
    status shows 'syncing' and then 'success' or 'error', and a "sync all"
    that syncs the rows of the current page one after another with a pause of
    one second after each. What each `checkAndUpdateStock` call ends with is a
    parameter (see InventorySync.CheckAndUpdateStock). */
module WooCommerceProductList {
  import opened Prelude
  import opened Text
  import opened Errors
  import opened Effects
  import Catalog
  import InventorySync
  import AppSettings
  import NetseaApi
  import LogService

  type Product = Catalog.WooCommerceProduct

  const ProductsPerPage: int := 20
  const SyncPause: int := 1000

  // ---------------------------------------------------------------- pages

  /** `Math.ceil(n / 20)`: the least number of pages of twenty that hold `n`. */
  function TotalPages(n: nat): (t: nat)
    ensures t * ProductsPerPage >= n
    ensures n > 0 ==> (t - 1) * ProductsPerPage < n
    ensures n == 0 ==> t == 0
  {
    (n + ProductsPerPage - 1) / ProductsPerPage
  }

  function StartIndex(page: int): int { (page - 1) * ProductsPerPage }

  function EndIndex(page: int): int { StartIndex(page) + ProductsPerPage }

  /** `products.slice(startIndex, endIndex)`. */
  function PageItems(products: seq<Product>, page: int): seq<Product> {
    Slice(products, StartIndex(page), EndIndex(page))
  }

  /** Page `p` (counted from 1) shows the items from `(p - 1) * 20` up to
      `min(p * 20, n)`, never more than twenty; a page within the page count
      is never empty. */
  lemma PageBounds(products: seq<Product>, page: int)
    requires page >= 1
    ensures var n := |products|;
      var r := PageItems(products, page);
      r == products[Min(StartIndex(page), n)..Min(EndIndex(page), n)]
      && |r| <= ProductsPerPage
      && (page <= TotalPages(n) ==> |r| > 0 && StartIndex(page) < n)
  {
  }

  /** The pages from `page` to the last, put together in order. */
  function PagesFrom(products: seq<Product>, page: nat): seq<Product>
    requires page >= 1
    decreases TotalPages(|products|) + 1 - page
  {
    if page > TotalPages(|products|) then [] else PageItems(products, page) + PagesFrom(products, page + 1)
  }

  lemma {:induction false} PagesFromSuffix(products: seq<Product>, page: nat)
    requires 1 <= page <= TotalPages(|products|) + 1
    ensures PagesFrom(products, page) == products[Min(StartIndex(page), |products|)..]
    decreases TotalPages(|products|) + 1 - page
  {
    var n := |products|;
    if page <= TotalPages(n) {
      PagesFromSuffix(products, page + 1);
      PageBounds(products, page);
      assert StartIndex(page + 1) == EndIndex(page);
      assert products[Min(StartIndex(page), n)..] ==
             products[Min(StartIndex(page), n)..Min(EndIndex(page), n)] + products[Min(EndIndex(page), n)..];
    }
  }

  /** Pages 1 to `totalPages`, one after another, are exactly the list: no
      item is skipped, repeated or moved. */
  lemma PagesPartition(products: seq<Product>)
    ensures PagesFrom(products, 1) == products
  {
    PagesFromSuffix(products, 1);
  }

  /** The previous-page button: `Math.max(prev - 1, 1)`. */
  function PrevPage(page: int): int { Max(page - 1, 1) }

  /** The next-page button: `Math.min(prev + 1, totalPages)`. */
  function NextPage(page: int, totalPages: int): int { Min(page + 1, totalPages) }

  /** Within the pages the buttons stay within the pages, step by one where
      they can, stop at the ends, and undo each other. */
  lemma PagerClamps(page: int, totalPages: int)
    requires 1 <= page <= totalPages
    ensures 1 <= PrevPage(page) <= totalPages && 1 <= NextPage(page, totalPages) <= totalPages
    ensures PrevPage(page) == (if page == 1 then 1 else page - 1)
    ensures NextPage(page, totalPages) == (if page == totalPages then totalPages else page + 1)
    ensures page < totalPages ==> PrevPage(NextPage(page, totalPages)) == page
    ensures page > 1 ==> NextPage(PrevPage(page), totalPages) == page
  {
  }

  /** The pager is rendered only when there is more than one page. */
  predicate ShowsPager(n: nat) { TotalPages(n) > 1 }

  /** "全n件中 a-b件を表示": `startIndex + 1` and `Math.min(endIndex, n)`. */
  datatype Caption = Caption(total: nat, first: int, last: int)

  function CaptionOf(n: nat, page: int): Caption {
    Caption(n, StartIndex(page) + 1, Min(EndIndex(page), n))
  }

  /** On a page within the page count the caption names the positions
      (from 1) of the first and last rows shown, so it spans exactly the
      rows of the page; the pager appears exactly for more than twenty items. */
  lemma CaptionCountsPage(products: seq<Product>, page: int)
    requires 1 <= page <= TotalPages(|products|)
    ensures var c := CaptionOf(|products|, page);
      var r := PageItems(products, page);
      1 <= c.first <= c.last <= c.total
      && c.last - c.first + 1 == |r|
      && r[0] == products[c.first - 1] && r[|r| - 1] == products[c.last - 1]
    ensures ShowsPager(|products|) <==> |products| > ProductsPerPage
  {
    PageBounds(products, page);
  }

  // ---------------------------------------------------------------- sync status

  datatype Status = Pending | Syncing | Succeeded | Failed
  datatype SyncStatus = SyncStatus(productId: string, status: Status, message: Option<string>)

  /** The row's status once `checkAndUpdateStock` has settled. */
  function Outcome(productId: string, result: Result<InventorySync.StockCheck, Error>): SyncStatus {
    if result.Ok? then SyncStatus(productId, Succeeded, Some(InventorySync.StockMessage(result.value.hasStock)))
    else SyncStatus(productId, Status.Failed, Some(MessageOr(result.error, InventorySync.StockSyncFallback)))
  }

  /** The status a row shows agrees with the last log line of its check: a
      success exactly when the check logged a success, with the in-stock
      message exactly when stock was found; on failure the message is the
      details of the error line. */
  lemma OutcomeMatchesLog(productId: string, stored: AppSettings.SettingsPatch,
                          get: Fetched<InventorySync.StoreProduct>, lookup: Traced<NetseaApi.ItemsPage>,
                          put: Fetched<()>)
    ensures var o := InventorySync.CheckAndUpdateStock(productId, stored, get, lookup, put);
      var st := Outcome(productId, o.result);
      var entry := o.trace[|o.trace| - 1].entry;
      st.productId == productId
      && (st.status == Succeeded <==> entry.kind == LogService.Success)
      && (st.status == Status.Failed <==> entry.kind == LogService.Error)
      && (st.status == Succeeded ==>
            (st.message == Some(InventorySync.InStockMessage) <==> o.result.value.hasStock))
      && (st.status == Status.Failed ==> st.message == entry.details)
  {
    var o := InventorySync.CheckAndUpdateStock(productId, stored, get, lookup, put);
    OutcomeMatchesEntry(productId, o.result, o.trace[|o.trace| - 1].entry);
  }

  /** The same, for any result and closing log line of the check's shape. */
  lemma OutcomeMatchesEntry(productId: string, result: Result<InventorySync.StockCheck, Error>, entry: LogService.LogEntry)
    requires result.Ok? <==> entry.kind == LogService.Success
    requires result.Err? ==> entry == InventorySync.FailedLog(result.error)
    ensures var st := Outcome(productId, result);
      st.productId == productId
      && (st.status == Succeeded <==> entry.kind == LogService.Success)
      && (st.status == Status.Failed <==> entry.kind == LogService.Error)
      && (st.status == Succeeded ==> (st.message == Some(InventorySync.InStockMessage) <==> result.value.hasStock))
      && (st.status == Status.Failed ==> st.message == entry.details)
  {
    if result.Ok? {
      assert InventorySync.InStockMessage != InventorySync.OutOfStockMessage by {
        assert InventorySync.InStockMessage[5] != InventorySync.OutOfStockMessage[5];
      }
    }
  }

  /** The statuses after `handleSyncStock` for each of `ids` in turn, with
      `results[k]` what the check of `ids[k]` ended with. */
  function SyncAllStatuses(statuses: map<string, SyncStatus>, ids: seq<string>,
                           results: seq<Result<InventorySync.StockCheck, Error>>): map<string, SyncStatus>
    requires |results| == |ids|
  {
    if |ids| == 0 then statuses
    else
      var n := |ids| - 1;
      SyncAllStatuses(statuses, ids[..n], results[..n])[ids[n] := Outcome(ids[n], results[n])]
  }

  /** What "sync all" does, in order: each check's own events followed by a
      pause of one second. */
  function SyncAllEvents(checks: seq<Traced<InventorySync.StockCheck>>): seq<Event> {
    if |checks| == 0 then []
    else SyncAllEvents(checks[..|checks| - 1]) + checks[|checks| - 1].trace + [Sleep(SyncPause)]
  }

  function Results(checks: seq<Traced<InventorySync.StockCheck>>): (r: seq<Result<InventorySync.StockCheck, Error>>)
    ensures |r| == |checks| && forall k :: 0 <= k < |checks| ==> r[k] == checks[k].result
  {
    seq(|checks|, k requires 0 <= k < |checks| => checks[k].result)
  }

  function Ids(products: seq<Product>): (r: seq<string>)
    ensures |r| == |products| && forall k :: 0 <= k < |products| ==> r[k] == products[k].id
  {
    seq(|products|, k requires 0 <= k < |products| => products[k].id)
  }

  /** `ids[k]` does not occur again after position `k`. */
  predicate LastAt(ids: seq<string>, k: int)
    requires 0 <= k < |ids|
  {
    forall j :: k < j < |ids| ==> ids[j] != ids[k]
  }

  /** After "sync all" every entry for an id that is not on the page is as
      it was, and no such entry appears or disappears. */
  lemma {:induction false} SyncAllKeepsOthers(statuses: map<string, SyncStatus>, ids: seq<string>,
                                             results: seq<Result<InventorySync.StockCheck, Error>>, id: string)
    requires |results| == |ids|
    requires id !in ids
    ensures var r := SyncAllStatuses(statuses, ids, results);
      (id in r <==> id in statuses) && (id in r ==> r[id] == statuses[id])
    decreases |ids|
  {
    if |ids| > 0 {
      var n := |ids| - 1;
      assert id !in ids[..n];
      SyncAllKeepsOthers(statuses, ids[..n], results[..n], id);
    }
  }

  /** After "sync all" each row of the page shows the outcome of its own
      check (of its last check, should an id repeat). */
  lemma {:induction false} SyncAllSettlesRows(statuses: map<string, SyncStatus>, ids: seq<string>,
                                             results: seq<Result<InventorySync.StockCheck, Error>>, k: int)
    requires |results| == |ids|
    requires 0 <= k < |ids| && LastAt(ids, k)
    ensures var r := SyncAllStatuses(statuses, ids, results);
      ids[k] in r && r[ids[k]] == Outcome(ids[k], results[k])
    decreases |ids|
  {
    var n := |ids| - 1;
    if k < n {
      assert ids[..n][k] == ids[k] && results[..n][k] == results[k];
      assert ids[n] != ids[k];
      assert LastAt(ids[..n], k) by {
        forall j | k < j < n ensures ids[..n][j] != ids[..n][k] {
          assert ids[..n][j] == ids[j];
        }
      }
      SyncAllSettlesRows(statuses, ids[..n], results[..n], k);
    }
  }

  /** The total of the waits inside the checks themselves. */
  function CheckWaits(checks: seq<Traced<InventorySync.StockCheck>>): int {
    if |checks| == 0 then 0 else CheckWaits(checks[..|checks| - 1]) + Waited(checks[|checks| - 1].trace)
  }

  /** "Sync all" pauses one second per row on top of what the checks wait,
      and its requests are those of the checks, one check after another. */
  lemma {:induction false} SyncAllWaits(checks: seq<Traced<InventorySync.StockCheck>>)
    ensures Waited(SyncAllEvents(checks)) == SyncPause * |checks| + CheckWaits(checks)
    ensures Calls(SyncAllEvents(checks)) == Calls(SyncAllEventsOfCalls(checks))
    decreases |checks|
  {
    if |checks| > 0 {
      var n := |checks| - 1;
      SyncAllWaits(checks[..n]);
      var prefix := SyncAllEvents(checks[..n]);
      WaitedAppend(prefix + checks[n].trace, [Sleep(SyncPause)]);
      WaitedAppend(prefix, checks[n].trace);
      CallsAppend(prefix + checks[n].trace, [Sleep(SyncPause)]);
      CallsAppend(prefix, checks[n].trace);
      CallsAppend(SyncAllEventsOfCalls(checks[..n]), checks[n].trace);
    }
  }

  /** The checks' traces one after another, without the pauses. */
  function SyncAllEventsOfCalls(checks: seq<Traced<InventorySync.StockCheck>>): seq<Event> {
    if |checks| == 0 then [] else SyncAllEventsOfCalls(checks[..|checks| - 1]) + checks[|checks| - 1].trace
  }

  // ---------------------------------------------------------------- component

  /** The component's own state. */
  class ProductListState {
    var currentPage: int
    var syncStatuses: map<string, SyncStatus>
    var isSyncingAll: bool

    constructor ()
      ensures currentPage == 1 && syncStatuses == map[] && !isSyncingAll
    {
      currentPage := 1;
      syncStatuses := map[];
      isSyncingAll := false;
    }

    method GoPrev()
      modifies this
      ensures currentPage == PrevPage(old(currentPage))
      ensures syncStatuses == old(syncStatuses) && isSyncingAll == old(isSyncingAll)
    {
      currentPage := Max(currentPage - 1, 1);
    }

    method GoNext(totalPages: int)
      modifies this
      ensures currentPage == NextPage(old(currentPage), totalPages)
      ensures syncStatuses == old(syncStatuses) && isSyncingAll == old(isSyncingAll)
    {
      currentPage := Min(currentPage + 1, totalPages);
    }

    /** `handleSyncStock(productId)`: 'syncing' first, then the outcome of
        the check; the events are the check's. */
    method HandleSyncStock(productId: string, check: Traced<InventorySync.StockCheck>) returns (events: seq<Event>)
      modifies this
      ensures syncStatuses == old(syncStatuses)[productId := Outcome(productId, check.result)]
      ensures events == check.trace
      ensures currentPage == old(currentPage) && isSyncingAll == old(isSyncingAll)
    {
      syncStatuses := syncStatuses[productId := SyncStatus(productId, Syncing, None)];
      events := check.trace;
      syncStatuses := syncStatuses[productId := Outcome(productId, check.result)];
    }

    /** `handleSyncAll()` over the rows of `products` on the current page;
        `checks[k]` is what the check of the k-th row ends with. */
    method HandleSyncAll(products: seq<Product>, checks: seq<Traced<InventorySync.StockCheck>>)
      returns (events: seq<Event>)
      requires |checks| == |PageItems(products, currentPage)|
      modifies this
      ensures syncStatuses == SyncAllStatuses(old(syncStatuses), Ids(PageItems(products, old(currentPage))), Results(checks))
      ensures events == SyncAllEvents(checks)
      ensures !isSyncingAll && currentPage == old(currentPage)
    {
      isSyncingAll := true;
      var rows := PageItems(products, currentPage);
      var ids := Ids(rows);
      var results := Results(checks);
      ghost var start := syncStatuses;
      events := [];
      for i := 0 to |rows|
        invariant currentPage == old(currentPage)
        invariant syncStatuses == SyncAllStatuses(start, ids[..i], results[..i])
        invariant events == SyncAllEvents(checks[..i])
      {
        var step := HandleSyncStock(rows[i].id, checks[i]);
        assert ids[..i + 1][..i] == ids[..i] && results[..i + 1][..i] == results[..i];
        assert checks[..i + 1][..i] == checks[..i];
        events := events + step + [Sleep(SyncPause)];
      }
      assert ids[..|rows|] == ids && results[..|rows|] == results && checks[..|rows|] == checks;
      isSyncingAll := false;
    }
  }
}
