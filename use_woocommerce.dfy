/** The store-product provider (src/hooks/useWooCommerce.tsx): `fetchProducts`
    checks the credentials, lets a non-forced call through at most once every
    30 seconds, and on success replaces the product list; the mount effect
    fetches once, forced, and starts the stock auto sync with what it got. The
    outcome of `fetchWooCommerceProducts(settings)` (WooProducts.FetchProducts)
    and the clock reading are parameters. */
module UseWooCommerce {
  import opened Prelude
  import opened Text
  import opened Errors
  import opened Effects
  import LogService
  import AppSettings
  import Catalog

  const MinFetchInterval: int := 30000
  const CredentialsMissing: string := "WooCommerce APIの認証情報が設定されていません。"
  const SkippedMessage: string := "APIレート制限により商品データの取得をスキップしました"
  const SyncStarted: string := "WooCommerce商品データの同期を開始します"
  const SyncDone: string := "WooCommerce商品データの同期が完了しました"
  const SyncFailed: string := "WooCommerce商品データの同期に失敗しました"
  const FetchFallback: string := "WooCommerce商品の取得に失敗しました"

  /** The provider's state. */
  datatype View = View(products: seq<Catalog.WooCommerceProduct>, isLoading: bool, error: Option<string>,
                       lastFetchTime: int)

  /** `settings.woocommerceApiKey && settings.woocommerceApiSecret`. */
  predicate HasCredentials(s: AppSettings.Settings) {
    s.woocommerceApiKey != "" && s.woocommerceApiSecret != ""
  }

  /** The rate gate lets a call at `now` through. */
  predicate Admits(lastFetchTime: int, force: bool, now: int) {
    force || now - lastFetchTime >= MinFetchInterval
  }

  /** The skip line; `Math.floor(elapsed / 1000)` is the floor division. */
  function SkipLog(elapsed: int): LogService.LogEntry {
    LogService.LogEntry(LogService.Info, LogService.Sync, SkippedMessage,
      Some("前回の取得から" + IntStr(elapsed / 1000) + "秒経過"))
  }

  function StartLog(): LogService.LogEntry {
    LogService.LogEntry(LogService.Info, LogService.Sync, SyncStarted, None)
  }

  function DoneLog(n: nat): LogService.LogEntry {
    LogService.LogEntry(LogService.Success, LogService.Sync, SyncDone, Some("取得商品数: " + NatStr(n) + "件"))
  }

  function FailLog(message: string): LogService.LogEntry {
    LogService.LogEntry(LogService.Error, LogService.Sync, SyncFailed, Some(message))
  }

  /** What one `fetchProducts` call leaves: the new state, what it returns
      (the products on success, `undefined` otherwise) and its events. */
  datatype Fetch = Fetch(view: View, data: Option<seq<Catalog.WooCommerceProduct>>, trace: seq<Event>)

  /** `fetchProducts(force)` at clock reading `now` with settings `s`;
      `fetched` is what `fetchWooCommerceProducts(settings)` ends with. */
  function FetchStep(v: View, s: AppSettings.Settings, force: bool, now: int,
                         fetched: Traced<seq<Catalog.WooCommerceProduct>>): (r: Fetch)
    ensures r.data.Some? <==> HasCredentials(s) && Admits(v.lastFetchTime, force, now) && fetched.result.Ok?
    ensures r.data.Some? ==> r.data.value == fetched.result.value
  {
    if !HasCredentials(s) then Fetch(v.(error := Some(CredentialsMissing)), None, [])
    else if !Admits(v.lastFetchTime, force, now) then Fetch(v, None, [Log(SkipLog(now - v.lastFetchTime))])
    else if fetched.result.Ok? then
      var data := fetched.result.value;
      Fetch(View(data, false, None, now), Some(data), [Log(StartLog())] + fetched.trace + [Log(DoneLog(|data|))])
    else
      var message := MessageOr(fetched.result.error, FetchFallback);
      Fetch(View(v.products, false, Some(message), v.lastFetchTime), None,
            [Log(StartLog())] + fetched.trace + [Log(FailLog(message))])
  }

  /** Without credentials the call only sets the error: no request, no log,
      and the products and the time of the last fetch stay as they were. */
  lemma MissingCredentialsNoFetch(v: View, s: AppSettings.Settings, force: bool, now: int,
                                  fetched: Traced<seq<Catalog.WooCommerceProduct>>)
    requires !HasCredentials(s)
    ensures var r := FetchStep(v, s, force, now, fetched);
      r.trace == [] && r.view == v.(error := Some(CredentialsMissing)) && r.data.None?
  {
  }

  /** A call within 30 seconds of the last fetch that is not forced only adds
      an info line: no request, and the state is untouched. */
  lemma GateOnlyLogs(v: View, s: AppSettings.Settings, now: int, fetched: Traced<seq<Catalog.WooCommerceProduct>>)
    requires HasCredentials(s) && now - v.lastFetchTime < MinFetchInterval
    ensures var r := FetchStep(v, s, false, now, fetched);
      r.view == v && r.data.None? && Calls(r.trace) == 0 && Logs(r.trace) == [SkipLog(now - v.lastFetchTime)]
  {
    var r := FetchStep(v, s, false, now, fetched);
    assert r.trace[1..] == [];
  }

  /** A call that gets through does the fetch between a start line and one
      closing line, and leaves `isLoading` false whatever the outcome. */
  lemma AdmittedFetches(v: View, s: AppSettings.Settings, force: bool, now: int,
                        fetched: Traced<seq<Catalog.WooCommerceProduct>>)
    requires HasCredentials(s) && Admits(v.lastFetchTime, force, now)
    ensures var r := FetchStep(v, s, force, now, fetched);
      !r.view.isLoading
      && Calls(r.trace) == Calls(fetched.trace)
      && Logs(r.trace) == [StartLog()] + Logs(fetched.trace)
                          + [if fetched.result.Ok? then DoneLog(|fetched.result.value|)
                             else FailLog(MessageOr(fetched.result.error, FetchFallback))]
  {
    var r := FetchStep(v, s, force, now, fetched);
    var last := [r.trace[|r.trace| - 1]];
    assert r.trace == [Log(StartLog())] + fetched.trace + last;
    CallsAppend([Log(StartLog())] + fetched.trace, last);
    CallsAppend([Log(StartLog())], fetched.trace);
    LogsAppend([Log(StartLog())] + fetched.trace, last);
    LogsAppend([Log(StartLog())], fetched.trace);
  }

  /** A success replaces the products and records the call's start time as
      the last fetch; a failure sets the error message and keeps both. */
  lemma OutcomeUpdates(v: View, s: AppSettings.Settings, force: bool, now: int,
                       fetched: Traced<seq<Catalog.WooCommerceProduct>>)
    requires HasCredentials(s) && Admits(v.lastFetchTime, force, now)
    ensures var r := FetchStep(v, s, force, now, fetched);
      (fetched.result.Ok? ==> r.view.products == fetched.result.value && r.view.lastFetchTime == now && r.view.error.None?)
      && (fetched.result.Err? ==>
            r.view.products == v.products && r.view.lastFetchTime == v.lastFetchTime
            && r.view.error == Some(MessageOr(fetched.result.error, FetchFallback)))
  {
  }

  /** After a successful fetch at `now`, a call that is not forced and comes
      less than 30 seconds later is skipped; a forced one (`refetch`) is not. */
  lemma SuccessClosesGate(v: View, s: AppSettings.Settings, force: bool, now: int,
                          fetched: Traced<seq<Catalog.WooCommerceProduct>>, later: int,
                          again: Traced<seq<Catalog.WooCommerceProduct>>)
    requires HasCredentials(s) && Admits(v.lastFetchTime, force, now) && fetched.result.Ok?
    requires now <= later < now + MinFetchInterval
    ensures var r := FetchStep(v, s, force, now, fetched);
      FetchStep(r.view, s, false, later, again).view == r.view
      && Calls(FetchStep(r.view, s, false, later, again).trace) == 0
      && (again.result.Ok? ==> FetchStep(r.view, s, true, later, again).data == Some(again.result.value))
  {
    var r := FetchStep(v, s, force, now, fetched);
    GateOnlyLogs(r.view, s, later, again);
  }

  /** The mount effect: with credentials, a forced fetch, and the auto sync is
      started with the fetched list when that fetch returned one and auto sync
      is on. An empty list is still a list, so it starts the auto sync too. */
  function Mount(v: View, s: AppSettings.Settings, now: int, fetched: Traced<seq<Catalog.WooCommerceProduct>>)
    : (r: (Fetch, Option<seq<Catalog.WooCommerceProduct>>))
    ensures !HasCredentials(s) ==> r.0.trace == [] && r.0.view == v && r.1.None?
  {
    if !HasCredentials(s) then (Fetch(v, None, []), None)
    else
      var f := FetchStep(v, s, true, now, fetched);
      (f, if f.data.Some? && s.autoSync then f.data else None)
  }

  /** The auto sync starts exactly when the credentials are set, the initial
      fetch succeeded and auto sync is on, and it is given the fetched list. */
  lemma AutoSyncStartsAfterFetch(v: View, s: AppSettings.Settings, now: int,
                                 fetched: Traced<seq<Catalog.WooCommerceProduct>>)
    ensures var r := Mount(v, s, now, fetched);
      (r.1.Some? <==> HasCredentials(s) && fetched.result.Ok? && s.autoSync)
      && (r.1.Some? ==> r.1.value == fetched.result.value)
  {
  }

  /** The provider as a stateful object. */
  class WooCommerceProvider {
    var products: seq<Catalog.WooCommerceProduct>
    var isLoading: bool
    var error: Option<string>
    var lastFetchTime: int

    function Current(): View
      reads this
    {
      View(products, isLoading, error, lastFetchTime)
    }

    constructor()
      ensures products == [] && !isLoading && error.None? && lastFetchTime == 0
    {
      products := [];
      isLoading := false;
      error := None;
      lastFetchTime := 0;
    }

    /** The part of `fetchProducts` before the request: the credential check,
        the rate gate, and, for a call that gets through, `isLoading` set and
        the error cleared while the request is in flight. */
    method BeginFetch(s: AppSettings.Settings, force: bool, now: int) returns (go: bool, events: seq<Event>)
      modifies this
      ensures go <==> HasCredentials(s) && Admits(old(lastFetchTime), force, now)
      ensures go ==> isLoading && error.None? && products == old(products) && lastFetchTime == old(lastFetchTime)
                     && events == [Log(StartLog())]
      ensures !go ==> Fetch(Current(), None, events) == FetchStep(old(Current()), s, force, now, Traced(Err(NonError), []))
    {
      if !HasCredentials(s) {
        error := Some(CredentialsMissing);
        return false, [];
      }
      if !Admits(lastFetchTime, force, now) {
        return false, [Log(SkipLog(now - lastFetchTime))];
      }
      isLoading := true;
      error := None;
      return true, [Log(StartLog())];
    }

    /** The part after the request: the outcome is stored, logged, and
        `isLoading` is reset (the `finally`). */
    method FinishFetch(now: int, fetched: Traced<seq<Catalog.WooCommerceProduct>>)
      returns (data: Option<seq<Catalog.WooCommerceProduct>>, events: seq<Event>)
      modifies this
      ensures !isLoading
      ensures fetched.result.Ok? ==>
        products == fetched.result.value && lastFetchTime == now && error == old(error) && data == Some(products)
        && events == fetched.trace + [Log(DoneLog(|products|))]
      ensures fetched.result.Err? ==>
        products == old(products) && lastFetchTime == old(lastFetchTime) && data.None?
        && error == Some(MessageOr(fetched.result.error, FetchFallback))
        && events == fetched.trace + [Log(FailLog(error.value))]
    {
      if fetched.result.Ok? {
        products := fetched.result.value;
        lastFetchTime := now;
        data := Some(products);
        events := fetched.trace + [Log(DoneLog(|products|))];
      } else {
        var message := MessageOr(fetched.result.error, FetchFallback);
        error := Some(message);
        data := None;
        events := fetched.trace + [Log(FailLog(message))];
      }
      isLoading := false;
    }

    /** `fetchProducts(force)`. */
    method FetchProducts(s: AppSettings.Settings, force: bool, now: int, fetched: Traced<seq<Catalog.WooCommerceProduct>>)
      returns (data: Option<seq<Catalog.WooCommerceProduct>>, events: seq<Event>)
      modifies this
      ensures Fetch(Current(), data, events) == FetchStep(old(Current()), s, force, now, fetched)
    {
      var go, begun := BeginFetch(s, force, now);
      if !go {
        return None, begun;
      }
      var finished;
      data, finished := FinishFetch(now, fetched);
      events := begun + finished;
      assert begun + (fetched.trace + [events[|events| - 1]]) == [Log(StartLog())] + fetched.trace + [events[|events| - 1]];
    }

    /** `refetch`: always forced, so the rate gate never stops it. */
    method Refetch(s: AppSettings.Settings, now: int, fetched: Traced<seq<Catalog.WooCommerceProduct>>)
      returns (data: Option<seq<Catalog.WooCommerceProduct>>, events: seq<Event>)
      modifies this
      ensures Fetch(Current(), data, events) == FetchStep(old(Current()), s, true, now, fetched)
      ensures HasCredentials(s) ==> !isLoading && (fetched.result.Ok? <==> data.Some?)
    {
      data, events := FetchProducts(s, true, now, fetched);
    }

    /** The mount effect; returns the list the auto sync is started with, if any. */
    method MountEffect(s: AppSettings.Settings, now: int, fetched: Traced<seq<Catalog.WooCommerceProduct>>)
      returns (autoSync: Option<seq<Catalog.WooCommerceProduct>>, events: seq<Event>)
      modifies this
      ensures var r := Mount(old(Current()), s, now, fetched);
        Current() == r.0.view && events == r.0.trace && autoSync == r.1
    {
      if !HasCredentials(s) {
        return None, [];
      }
      var data;
      data, events := FetchProducts(s, true, now, fetched);
      autoSync := if data.Some? && s.autoSync then data else None;
    }
  }
}
