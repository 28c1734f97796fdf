/** Reading and creating the variations of a store product
    (src/services/api/woocommerce/variations.ts). The read retries by recursion
    on `retryCount`, each level waiting `retryCount * 3000` ms and then running
    `fetchWithRetry` (two attempts, 1000 ms backoff); it never rejects. The
    create loop posts one variation at a time and stops at the first failure.
    `outcomes(r)` is the oracle of the `fetchWithRetry` run made at level `r`
    (or for variation `r`). */
module Variations {
  import opened Prelude
  import opened Errors
  import opened Effects
  import Catalog
  import WooPayload
  import LogService
  import WooClient
  import Text

  const VariationBatchSize: nat := 1
  const VariationRetryDelay: int := 3000
  const MaxRetries: nat := 5

  const ProductsPath: string := "/products/"
  const VariationsPath: string := "/variations"
  const VariationsQuery: string := "/variations?per_page=100"
  const FetchContextPrefix: string := "商品ID: "
  const FetchContextSuffix: string := " のバリエーション取得"
  const UnknownErrorMessage: string := "Unknown error"
  const FetchErrorPrefix: string := "バリエーション取得エラー (商品ID: "
  const AttemptLabel: string := ", 試行: "
  const ErrorLabel: string := "エラー: "
  const RetryLabel: string := "\n再試行"
  const RetryPlanned: string := "予定"
  const RetryLimit: string := "上限到達"
  const FetchedPrefix: string := "バリエーション取得成功 (商品ID: "
  const FetchedSuffix: string := "個のバリエーションを取得しました"
  const InvalidFormatMessage: string := "Invalid variations response format"
  const CreateContextPrefix: string := "バリエーションの作成 (商品ID: "
  const CreatedPrefix: string := "バリエーション作成成功 (商品ID: "
  const SkuLabel: string := "SKU: "
  const CreateFailedPrefix: string := "バリエーション作成エラー (商品ID: "
  const UnknownErrorText: string := "不明なエラー"

  // ---------------------------------------------------------------- fetchProductVariations

  function VariationsRequest(apiUrl: string, authHeader: string, productId: string): Request {
    Request(Get, apiUrl + ProductsPath + productId + VariationsQuery, authHeader, NoBody)
  }

  function FetchContext(productId: string): string {
    FetchContextPrefix + productId + FetchContextSuffix
  }

  function FetchOptions(): WooClient.RetryOptions {
    WooClient.RetryOptions(2, 1000)
  }

  /** `isRetryable`: an APIError of the client whose status is not 404 (a missing
      status counts as "not 404"). */
  predicate Retryable(e: Error) {
    e.WooApiError? && e.status != Some(404)
  }

  /** `error instanceof Error ? error : new Error('Unknown error')`. */
  function AsError(e: Error): (r: Error)
    ensures r.IsError()
    ensures e.IsError() ==> r == e
  {
    if e.IsError() then e else PlainError(UnknownErrorMessage)
  }

  /** The log line of `handleVariationError`. */
  function VariationErrorLog(e: Error, productId: string, retryCount: int): (r: LogService.LogEntry)
    requires e.IsError()
    ensures r.kind == LogService.Error && r.category == LogService.Sync
  {
    LogService.LogEntry(LogService.Error, LogService.Sync,
      FetchErrorPrefix + productId + AttemptLabel + Text.IntStr(retryCount + 1) + "/" + Text.IntStr(MaxRetries) + ")",
      Some(ErrorLabel + e.Message() + RetryLabel + (if retryCount < MaxRetries then RetryPlanned else RetryLimit)))
  }

  /** `handleVariationError`: its log line, and whether it rethrows (which ends
      the read with []), that is, unless the error is retryable and fewer than
      five retries have been made. */
  function HandleVariationError(e: Error, productId: string, retryCount: int): (r: (LogService.LogEntry, bool))
    requires e.IsError()
    ensures r.0 == VariationErrorLog(e, productId, retryCount)
    ensures r.1 <==> !Retryable(e) || retryCount >= MaxRetries
  {
    (VariationErrorLog(e, productId, retryCount), !(Retryable(e) && retryCount < MaxRetries))
  }

  function FetchedLog(productId: string, count: nat): LogService.LogEntry {
    LogService.LogEntry(LogService.Success, LogService.Sync,
      FetchedPrefix + productId + ")", Some(Text.NatStr(count) + FetchedSuffix))
  }

  /** The body of the `try` at one level, after the wait: `fetchWithRetry`, then
      `response.json()`, which must be an array. */
  function ReadOnce(apiUrl: string, authHeader: string, productId: string,
                    inner: nat -> Fetched<seq<Catalog.RawVariation>>): (r: Traced<seq<Catalog.RawVariation>>)
    ensures r.result.Err? ==> r.result.error.IsError()
  {
    var run := WooClient.Run(VariationsRequest(apiUrl, authHeader, productId), FetchOptions(), FetchContext(productId), inner, 1, None);
    WooClient.RunErrorsAreErrors(VariationsRequest(apiUrl, authHeader, productId), FetchOptions(), FetchContext(productId), inner, 1, None);
    match run.result
    case Err(e) => Traced(Err(e), run.trace)
    case Ok(reply) =>
      match reply.content
      case Payload(vs) => Traced(Ok(vs), run.trace + [Log(FetchedLog(productId, |vs|))])
      case OtherJson(_) => Traced(Err(InvalidFormat(reply.status)), run.trace)
      case NotJson(message) => Traced(Err(JsError("SyntaxError", message)), run.trace)
  }

  /** `new APIError('Invalid variations response format', response.status)`. */
  function InvalidFormat(status: int): Error {
    WooApiError(InvalidFormatMessage, Some(status), NoData)
  }

  /** `variation.sku || ''` and `variation.stock_quantity || 0`, element by element. */
  function Summaries(vs: seq<Catalog.RawVariation>): (r: seq<Catalog.VariationSummary>)
    ensures |r| == |vs|
    ensures forall k :: 0 <= k < |vs| ==>
      r[k].id == vs[k].id && r[k].sku == vs[k].sku.GetOr("") && r[k].stockQuantity == vs[k].stockQuantity.GetOr(0)
  {
    seq(|vs|, k requires 0 <= k < |vs| =>
      Catalog.VariationSummary(vs[k].id, vs[k].sku.GetOr(""), vs[k].stockQuantity.GetOr(0)))
  }

  /** `fetchProductVariations(apiUrl, authHeader, productId, retryCount)`. */
  function FetchVariations(apiUrl: string, authHeader: string, productId: string,
                           outcomes: nat -> nat -> Fetched<seq<Catalog.RawVariation>>, retryCount: nat): Traced<seq<Catalog.VariationSummary>>
    decreases MaxRetries - retryCount
  {
    var a := ReadOnce(apiUrl, authHeader, productId, outcomes(retryCount));
    var wait := [Sleep(retryCount * VariationRetryDelay)];
    if a.result.Ok? then Traced(Ok(Summaries(a.result.value)), wait + a.trace)
    else
      var e := AsError(a.result.error);
      var (entry, rethrow) := HandleVariationError(e, productId, retryCount);
      if rethrow then Traced(Ok([]), wait + a.trace + [Log(entry)])
      else After(wait + a.trace + [Log(entry)], FetchVariations(apiUrl, authHeader, productId, outcomes, retryCount + 1))
  }

  /** The read never rejects: every failure ends in a value. */
  lemma {:induction false} FetchNeverRejects(apiUrl: string, authHeader: string, productId: string,
                                             outcomes: nat -> nat -> Fetched<seq<Catalog.RawVariation>>, retryCount: nat)
    ensures FetchVariations(apiUrl, authHeader, productId, outcomes, retryCount).result.Ok?
    decreases MaxRetries - retryCount
  {
    var a := ReadOnce(apiUrl, authHeader, productId, outcomes(retryCount));
    if a.result.Err? && Retryable(a.result.error) && retryCount < MaxRetries {
      FetchNeverRejects(apiUrl, authHeader, productId, outcomes, retryCount + 1);
    }
  }

  /** One level's read makes at most two requests. */
  lemma ReadOnceCalls(apiUrl: string, authHeader: string, productId: string, inner: nat -> Fetched<seq<Catalog.RawVariation>>)
    ensures Calls(ReadOnce(apiUrl, authHeader, productId, inner).trace) <= 2
  {
    var req := VariationsRequest(apiUrl, authHeader, productId);
    var run := WooClient.Run(req, FetchOptions(), FetchContext(productId), inner, 1, None);
    WooClient.RunCallsBound(req, FetchOptions(), FetchContext(productId), inner, 1, None);
    var a := ReadOnce(apiUrl, authHeader, productId, inner);
    var extra := a.trace[|run.trace|..];
    assert a.trace == run.trace + extra;
    assert Calls(extra) == 0 by {
      if |extra| > 0 {
        assert extra[1..] == [];
      }
    }
    CallsAppend(run.trace, extra);
  }

  /** The events of one level: the wait, the read, and on a failure the log
      line and, when it retries, the next level. */
  lemma FetchLevel(apiUrl: string, authHeader: string, productId: string,
                   outcomes: nat -> nat -> Fetched<seq<Catalog.RawVariation>>, retryCount: nat)
    ensures var a := ReadOnce(apiUrl, authHeader, productId, outcomes(retryCount));
      var head := [Sleep(retryCount * VariationRetryDelay)] + a.trace;
      var t := FetchVariations(apiUrl, authHeader, productId, outcomes, retryCount).trace;
      && (a.result.Ok? ==> t == head)
      && (a.result.Err? ==>
            var line := [Log(VariationErrorLog(AsError(a.result.error), productId, retryCount))];
            if Retryable(a.result.error) && retryCount < MaxRetries
            then t == head + line + FetchVariations(apiUrl, authHeader, productId, outcomes, retryCount + 1).trace
            else t == head + line)
  {
  }

  /** At most six levels (retry counts 0 to 5), each making at most two requests. */
  lemma {:induction false} FetchCallsBound(apiUrl: string, authHeader: string, productId: string,
                                           outcomes: nat -> nat -> Fetched<seq<Catalog.RawVariation>>, retryCount: nat)
    requires retryCount <= MaxRetries
    ensures Calls(FetchVariations(apiUrl, authHeader, productId, outcomes, retryCount).trace) <= 2 * (MaxRetries + 1 - retryCount)
    decreases MaxRetries - retryCount
  {
    var a := ReadOnce(apiUrl, authHeader, productId, outcomes(retryCount));
    var wait := [Sleep(retryCount * VariationRetryDelay)];
    var head := wait + a.trace;
    ReadOnceCalls(apiUrl, authHeader, productId, outcomes(retryCount));
    FetchLevel(apiUrl, authHeader, productId, outcomes, retryCount);
    assert Calls(wait) == 0 by { assert wait[1..] == []; }
    CallsAppend(wait, a.trace);
    if a.result.Err? {
      var line := [Log(VariationErrorLog(AsError(a.result.error), productId, retryCount))];
      assert Calls(line) == 0 by { assert line[1..] == []; }
      CallsAppend(head, line);
      if Retryable(a.result.error) && retryCount < MaxRetries {
        var next := FetchVariations(apiUrl, authHeader, productId, outcomes, retryCount + 1).trace;
        FetchCallsBound(apiUrl, authHeader, productId, outcomes, retryCount + 1);
        CallsAppend(head + line, next);
      }
    }
  }

  /** Level `r` starts by waiting `r * 3000` ms: the delay grows linearly. */
  lemma FetchWaitsFirst(apiUrl: string, authHeader: string, productId: string,
                        outcomes: nat -> nat -> Fetched<seq<Catalog.RawVariation>>, retryCount: nat)
    ensures var t := FetchVariations(apiUrl, authHeader, productId, outcomes, retryCount).trace;
      |t| > 0 && t[0] == Sleep(3000 * retryCount)
  {
  }

  /** A level that reads an array returns it mapped, element by element, in order. */
  lemma FetchMapsOnSuccess(apiUrl: string, authHeader: string, productId: string,
                           outcomes: nat -> nat -> Fetched<seq<Catalog.RawVariation>>, retryCount: nat)
    requires ReadOnce(apiUrl, authHeader, productId, outcomes(retryCount)).result.Ok?
    ensures var vs := ReadOnce(apiUrl, authHeader, productId, outcomes(retryCount)).result.value;
      FetchVariations(apiUrl, authHeader, productId, outcomes, retryCount).result == Ok(Summaries(vs))
  {
  }

  /** An error that is not retryable (a 404, a transport error, a body that is not
      JSON) ends the read with [] after that level; no further level runs. */
  lemma FetchStopsOnFinalError(apiUrl: string, authHeader: string, productId: string,
                               outcomes: nat -> nat -> Fetched<seq<Catalog.RawVariation>>, retryCount: nat)
    requires var a := ReadOnce(apiUrl, authHeader, productId, outcomes(retryCount));
      a.result.Err? && (!Retryable(a.result.error) || retryCount >= MaxRetries)
    ensures var a := ReadOnce(apiUrl, authHeader, productId, outcomes(retryCount));
      FetchVariations(apiUrl, authHeader, productId, outcomes, retryCount)
      == Traced(Ok([]), [Sleep(retryCount * VariationRetryDelay)] + a.trace
                        + [Log(VariationErrorLog(a.result.error, productId, retryCount))])
  {
  }

  /** A retryable error below the limit hands over to the next level. */
  lemma FetchRetries(apiUrl: string, authHeader: string, productId: string,
                     outcomes: nat -> nat -> Fetched<seq<Catalog.RawVariation>>, retryCount: nat)
    requires var a := ReadOnce(apiUrl, authHeader, productId, outcomes(retryCount));
      a.result.Err? && Retryable(a.result.error) && retryCount < MaxRetries
    ensures var a := ReadOnce(apiUrl, authHeader, productId, outcomes(retryCount));
      FetchVariations(apiUrl, authHeader, productId, outcomes, retryCount)
      == After([Sleep(retryCount * VariationRetryDelay)] + a.trace
                 + [Log(VariationErrorLog(a.result.error, productId, retryCount))],
               FetchVariations(apiUrl, authHeader, productId, outcomes, retryCount + 1))
  {
  }

  /** A 2xx body that is JSON but not an array becomes an APIError with the
      response status, so (the status not being 404) it is retried. */
  lemma NonArrayIsRetried(apiUrl: string, authHeader: string, productId: string,
                          inner: nat -> Fetched<seq<Catalog.RawVariation>>)
    requires var run := WooClient.Run(VariationsRequest(apiUrl, authHeader, productId), FetchOptions(), FetchContext(productId), inner, 1, None);
      run.result.Ok? && run.result.value.content.OtherJson?
    ensures var run := WooClient.Run(VariationsRequest(apiUrl, authHeader, productId), FetchOptions(), FetchContext(productId), inner, 1, None);
      var a := ReadOnce(apiUrl, authHeader, productId, inner);
      a.result == Err(InvalidFormat(run.result.value.status)) && Retryable(a.result.error)
  {
    var run := WooClient.Run(VariationsRequest(apiUrl, authHeader, productId), FetchOptions(), FetchContext(productId), inner, 1, None);
    WooClient.RunErrorsAreErrors(VariationsRequest(apiUrl, authHeader, productId), FetchOptions(), FetchContext(productId), inner, 1, None);
  }

  /** Two 404 replies at a level: the read is over, with []. */
  lemma NotFoundGivesEmpty(apiUrl: string, authHeader: string, productId: string,
                           outcomes: nat -> nat -> Fetched<seq<Catalog.RawVariation>>, retryCount: nat)
    requires outcomes(retryCount)(1).Replied? && outcomes(retryCount)(1).reply.status == 404
    requires outcomes(retryCount)(2).Replied? && outcomes(retryCount)(2).reply.status == 404
    ensures FetchVariations(apiUrl, authHeader, productId, outcomes, retryCount).result == Ok([])
    ensures Calls(FetchVariations(apiUrl, authHeader, productId, outcomes, retryCount).trace) == 2
  {
    var req := VariationsRequest(apiUrl, authHeader, productId);
    var inner := outcomes(retryCount);
    WooClient.AllFail(req, FetchOptions(), FetchContext(productId), inner);
    var run := WooClient.Run(req, FetchOptions(), FetchContext(productId), inner, 1, None);
    var a := ReadOnce(apiUrl, authHeader, productId, inner);
    assert a.trace == run.trace && a.result == Err(run.result.error);
    var wait := [Sleep(retryCount * VariationRetryDelay)];
    var entry := VariationErrorLog(a.result.error, productId, retryCount);
    assert FetchVariations(apiUrl, authHeader, productId, outcomes, retryCount).trace == wait + run.trace + [Log(entry)];
    CallsAppend(wait, run.trace);
    CallsAppend(wait + run.trace, [Log(entry)]);
    assert Calls(wait) == 0 by { assert wait[1..] == []; }
    assert Calls([Log(entry)]) == 0 by { assert [Log(entry)][1..] == []; }
  }

  // ---------------------------------------------------------------- createProductVariations

  function CreateRequest(apiUrl: string, authHeader: string, productId: string, v: WooPayload.VariationData): Request {
    Request(Post, apiUrl + ProductsPath + productId + VariationsPath, authHeader, VariationJson(v))
  }

  function CreateContext(productId: string): string {
    CreateContextPrefix + productId + ")"
  }

  function CreateOptions(): WooClient.RetryOptions {
    WooClient.RetryOptions(3, 2000)
  }

  function CreatedLog(productId: string, sku: string): LogService.LogEntry {
    LogService.LogEntry(LogService.Success, LogService.Sync, CreatedPrefix + productId + ")", Some(SkuLabel + sku))
  }

  function CreateFailedLog(productId: string, e: Error): (r: LogService.LogEntry)
    ensures r.kind == LogService.Error && r.details == Some(MessageOr(e, UnknownErrorText))
  {
    LogService.LogEntry(LogService.Error, LogService.Sync, CreateFailedPrefix + productId + ")", Some(MessageOr(e, UnknownErrorText)))
  }

  /** The `fetchWithRetry` runs that post the variations: entry `i` for `vs[i]`
      (and a placeholder beyond the end, where nothing is posted). */
  function PostRuns<P>(apiUrl: string, authHeader: string, productId: string, vs: seq<WooPayload.VariationData>,
                       outcomes: nat -> nat -> Fetched<P>): nat -> Traced<Reply<P>>
  {
    (i: nat) =>
      if i < |vs| then WooClient.Run(CreateRequest(apiUrl, authHeader, productId, vs[i]), CreateOptions(), CreateContext(productId), outcomes(i), 1, None)
      else Traced(Err(NonError), [])
  }

  /** The loop of `createProductVariations` from variation `i` on, given the run
      of each post. */
  function Create<P>(productId: string, vs: seq<WooPayload.VariationData>, runs: nat -> Traced<Reply<P>>, i: nat): Traced<()>
    requires i <= |vs|
    decreases |vs| - i
  {
    if i == |vs| then Traced(Ok(()), [])
    else
      var o := runs(i);
      if o.result.Ok? then
        After(o.trace + [Log(CreatedLog(productId, vs[i].sku)), Sleep(VariationRetryDelay)], Create(productId, vs, runs, i + 1))
      else Traced(Err(o.result.error), o.trace + [Log(CreateFailedLog(productId, o.result.error))])
  }

  /** Variation `k` is posted to the product's variations endpoint through the
      retry loop with three attempts and a 2000 ms base delay, from attempt 1. */
  lemma PostRunsAt<P>(apiUrl: string, authHeader: string, productId: string, vs: seq<WooPayload.VariationData>,
                      outcomes: nat -> nat -> Fetched<P>, k: nat)
    requires k < |vs|
    ensures PostRuns(apiUrl, authHeader, productId, vs, outcomes)(k)
         == WooClient.Run(Request(Post, apiUrl + "/products/" + productId + "/variations", authHeader, VariationJson(vs[k])),
                          WooClient.RetryOptions(3, 2000), CreateContext(productId), outcomes(k), 1, None)
  {
  }

  /** `createProductVariations(apiUrl, authHeader, productId, variations)`. */
  method CreateProductVariations<P>(apiUrl: string, authHeader: string, productId: string, vs: seq<WooPayload.VariationData>,
                                    outcomes: nat -> nat -> Fetched<P>)
    returns (result: Result<(), Error>, trace: seq<Event>)
    ensures Traced(result, trace) == Create(productId, vs, PostRuns(apiUrl, authHeader, productId, vs, outcomes), 0)
  {
    ghost var runs := PostRuns(apiUrl, authHeader, productId, vs, outcomes);
    trace := [];
    CreateAccountedStart(productId, vs, runs);
    var i := 0;
    while i < |vs|
      invariant CreateAccounted(productId, vs, runs, i, trace)
      decreases |vs| - i
    {
      var batch := vs[i..Min(i + VariationBatchSize, |vs|)];
      var j := 0;
      while j < |batch|
        invariant j <= |batch| && batch == vs[i..i + |batch|]
        invariant CreateAccounted(productId, vs, runs, i + j, trace)
        decreases |batch| - j
      {
        var v := batch[j];
        assert v == vs[i + j];
        var r, t := PostVariation(apiUrl, authHeader, productId, vs, outcomes, i + j);
        if r.Err? {
          CreateAccountedFailed(productId, vs, runs, i + j, trace);
          trace := trace + (t + [Log(CreateFailedLog(productId, r.error))]);
          result := Err(r.error);
          return;
        }
        var step := t + [Log(CreatedLog(productId, v.sku)), Sleep(VariationRetryDelay)];
        CreateAccountedStep(productId, vs, runs, i + j, trace, step);
        trace := trace + step;
        j := j + 1;
      }
      i := i + |batch|;
    }
    CreateAccountedEnd(productId, vs, runs, trace);
    result := Ok(());
  }

  /** The `fetchWithRetry` run that posts variation `k`. */
  method PostVariation<P>(apiUrl: string, authHeader: string, productId: string, vs: seq<WooPayload.VariationData>,
                          outcomes: nat -> nat -> Fetched<P>, k: nat)
    returns (result: Result<Reply<P>, Error>, trace: seq<Event>)
    requires k < |vs|
    ensures Traced(result, trace) == PostRuns(apiUrl, authHeader, productId, vs, outcomes)(k)
  {
    result, trace := WooClient.FetchWithRetry(CreateRequest(apiUrl, authHeader, productId, vs[k]), CreateOptions(),
                                              CreateContext(productId), outcomes(k));
  }

  /** The loop's invariant: `trace` followed by the creation from variation `k`
      on is the creation from the start. */
  ghost predicate CreateAccounted<P>(productId: string, vs: seq<WooPayload.VariationData>, runs: nat -> Traced<Reply<P>>,
                                     k: nat, trace: seq<Event>)
  {
    k <= |vs| && After(trace, Create(productId, vs, runs, k)) == Create(productId, vs, runs, 0)
  }

  lemma CreateAccountedStart<P>(productId: string, vs: seq<WooPayload.VariationData>, runs: nat -> Traced<Reply<P>>)
    ensures CreateAccounted(productId, vs, runs, 0, [])
  {
    assert [] + Create(productId, vs, runs, 0).trace == Create(productId, vs, runs, 0).trace;
  }

  lemma CreateAccountedFailed<P>(productId: string, vs: seq<WooPayload.VariationData>, runs: nat -> Traced<Reply<P>>,
                                 k: nat, trace: seq<Event>)
    requires CreateAccounted(productId, vs, runs, k, trace) && k < |vs| && runs(k).result.Err?
    ensures Traced(Err(runs(k).result.error), trace + (runs(k).trace + [Log(CreateFailedLog(productId, runs(k).result.error))]))
         == Create(productId, vs, runs, 0)
  {
  }

  lemma CreateAccountedStep<P>(productId: string, vs: seq<WooPayload.VariationData>, runs: nat -> Traced<Reply<P>>,
                               k: nat, trace: seq<Event>, step: seq<Event>)
    requires CreateAccounted(productId, vs, runs, k, trace) && k < |vs| && runs(k).result.Ok?
    requires step == runs(k).trace + [Log(CreatedLog(productId, vs[k].sku)), Sleep(VariationRetryDelay)]
    ensures CreateAccounted(productId, vs, runs, k + 1, trace + step)
  {
    AfterTwice(trace, step, Create(productId, vs, runs, k + 1));
  }

  lemma CreateAccountedEnd<P>(productId: string, vs: seq<WooPayload.VariationData>, runs: nat -> Traced<Reply<P>>,
                              trace: seq<Event>)
    requires CreateAccounted(productId, vs, runs, |vs|, trace)
    ensures Traced(Ok(()), trace) == Create(productId, vs, runs, 0)
  {
    assert trace + [] == trace;
  }

  /** Creation succeeds exactly when every post succeeds. */
  lemma {:induction false} CreateOkIff<P>(productId: string, vs: seq<WooPayload.VariationData>, runs: nat -> Traced<Reply<P>>, i: nat)
    requires i <= |vs|
    ensures Create(productId, vs, runs, i).result.Ok? <==> forall j :: i <= j < |vs| ==> runs(j).result.Ok?
    decreases |vs| - i
  {
    if i < |vs| {
      CreateOkIff(productId, vs, runs, i + 1);
    }
  }

  /** The first failing post ends the loop: the runs of later variations make no
      difference, because they are never made. */
  lemma {:induction false} CreateStopsAtFailure<P>(productId: string, vs: seq<WooPayload.VariationData>,
                                                   runs: nat -> Traced<Reply<P>>, others: nat -> Traced<Reply<P>>, i: nat, k: nat)
    requires i <= k < |vs|
    requires forall j :: i <= j <= k ==> runs(j) == others(j)
    requires runs(k).result.Err?
    ensures Create(productId, vs, runs, i) == Create(productId, vs, others, i)
    decreases k - i
  {
    if i < k {
      CreateStopsAtFailure(productId, vs, runs, others, i + 1, k);
    }
  }

  /** The error thrown is the one of the first failing post, after its error log. */
  lemma {:induction false} CreateRethrows<P>(productId: string, vs: seq<WooPayload.VariationData>, runs: nat -> Traced<Reply<P>>, i: nat, k: nat)
    requires i <= k < |vs|
    requires forall j :: i <= j < k ==> runs(j).result.Ok?
    requires runs(k).result.Err?
    ensures var t := Create(productId, vs, runs, i);
      t.result == Err(runs(k).result.error)
      && |t.trace| > 0 && t.trace[|t.trace| - 1] == Log(CreateFailedLog(productId, runs(k).result.error))
    decreases k - i
  {
    if i < k {
      CreateRethrows(productId, vs, runs, i + 1, k);
    }
  }

  /** Each created variation is followed by its success log and a 3000 ms wait
      before the next one is posted. */
  lemma CreateWaitsAfterSuccess<P>(productId: string, vs: seq<WooPayload.VariationData>, runs: nat -> Traced<Reply<P>>, i: nat)
    requires i < |vs| && runs(i).result.Ok?
    ensures var o := runs(i);
      var t := Create(productId, vs, runs, i).trace;
      |t| >= |o.trace| + 2 && t[..|o.trace|] == o.trace
      && t[|o.trace|] == Log(CreatedLog(productId, vs[i].sku)) && t[|o.trace| + 1] == Sleep(3000)
  {
  }
}
