/** The WooCommerce REST client (src/services/api/woocommerce/client.ts): the API
    base URL, the Basic authorization header, and `fetchWithRetry`, a bounded
    retry loop with exponential backoff in which a response outside the 2xx range
    counts as a failure. The outcome of attempt k is `outcome(k)`. */
module WooClient {
  import opened Prelude
  import opened Text
  import opened Errors
  import opened Effects
  import LogService
  import AppSettings
  import Base64

  // ---------------------------------------------------------------- URL and header

  const ApiPath: string := "/wp-json/wc/v3"

  /** `woocommerceSiteUrl?.replace(/\/+$/, '') || 'https://test1211.com/luxe'`. */
  function SiteBase(url: string): (r: string)
    ensures r != "" && r[|r| - 1] != '/'
    ensures r != AppSettings.DefaultSiteUrl ==>
      |r| <= |url| && url[..|r|] == r && forall k :: |r| <= k < |url| ==> url[k] == '/'
  {
    StripTrailingSpec(url, '/');
    var stripped := StripTrailing(url, '/');
    if stripped != "" then stripped else AppSettings.DefaultSiteUrl
  }

  /** `getWooCommerceApiUrl(settings)`: the REST path follows the site URL,
      which ends in no slash, so exactly one slash separates the two. */
  function ApiUrl(s: AppSettings.Settings): (r: string)
    ensures |r| > |ApiPath| && r[|r| - |ApiPath|..] == ApiPath && r[|r| - |ApiPath| - 1] != '/'
    ensures r[..|r| - |ApiPath|] == SiteBase(s.woocommerceSiteUrl)
  {
    SiteBase(s.woocommerceSiteUrl) + ApiPath
  }

  /** Trailing slashes do not matter: a base URL with any number of them appended
      gives the same API URL. */
  lemma {:induction false} TrailingSlashesIgnored(base: string, n: nat)
    ensures SiteBase(base + seq(n, _ => '/')) == SiteBase(base)
    decreases n
  {
    if n > 0 {
      var s := base + seq(n, _ => '/');
      assert s[|s| - 1] == '/';
      assert s[..|s| - 1] == base + seq(n - 1, _ => '/');
      assert StripTrailing(s, '/') == StripTrailing(s[..|s| - 1], '/');
      TrailingSlashesIgnored(base, n - 1);
    } else {
      assert base + seq(n, _ => '/') == base;
    }
  }

  /** A URL without a trailing slash is used as it is. */
  lemma CleanUrlKept(url: string)
    requires url != "" && url[|url| - 1] != '/'
    ensures SiteBase(url) == url
  {
  }

  /** A missing URL, or one made only of slashes, falls back to the default site. */
  lemma {:induction false} SlashesFallBack(n: nat)
    ensures SiteBase(seq(n, _ => '/')) == AppSettings.DefaultSiteUrl
  {
    TrailingSlashesIgnored([], n);
    assert [] + seq(n, _ => '/') == seq(n, _ => '/');
  }

  /** The error `btoa` throws for a character above U+00FF. */
  const InvalidCharacterMessage: string :=
    "Failed to execute 'btoa' on 'Window': The string to be encoded contains characters outside of the Latin1 range."

  function InvalidCharacter(): Error {
    JsError("InvalidCharacterError", InvalidCharacterMessage)
  }

  function Credentials(s: AppSettings.Settings): string {
    s.woocommerceApiKey + ":" + s.woocommerceApiSecret
  }

  /** `getAuthHeader(settings)`: the Basic scheme of section 2 of RFC 7617 over
      "key:secret", base64-encoded as in section 4 of RFC 4648; `btoa` throws for
      credentials with a character above U+00FF. */
  function AuthHeader(s: AppSettings.Settings): (r: Result<string, Error>)
    ensures r.Ok? <==> forall k :: 0 <= k < |Credentials(s)| ==> Credentials(s)[k] as int < 256
    ensures r.Ok? ==> StartsWith(r.value, "Basic ")
    ensures r.Err? ==> r.error == InvalidCharacter()
  {
    var bytes := Base64.Latin1(Credentials(s));
    if bytes.None? then Err(InvalidCharacter())
    else
      var header := "Basic " + Base64.Encode(bytes.value);
      assert header[..6] == "Basic ";
      Ok(header)
  }

  /** The header carries the credentials: decoding what follows "Basic " gives
      back the bytes of "key:secret". */
  lemma AuthHeaderDecodes(s: AppSettings.Settings)
    requires AuthHeader(s).Ok?
    ensures var bytes := Base64.Decode(AuthHeader(s).value[6..]);
      bytes.Some? && |bytes.value| == |Credentials(s)|
      && forall k :: 0 <= k < |Credentials(s)| ==> bytes.value[k] == Credentials(s)[k] as int
  {
    var creds := Credentials(s);
    Base64.BtoaRoundTrip(creds);
    assert AuthHeader(s).value[6..] == Base64.Encode(Base64.Latin1(creds).value);
  }

  // ---------------------------------------------------------------- one attempt

  /** The wait after failed attempt `attempt`: `retryDelay * 2^(attempt-1)`. */
  function Backoff(retryDelay: int, attempt: nat): int
    requires attempt >= 1
  {
    retryDelay * Pow2(attempt - 1)
  }

  const HttpErrorPrefix: string := "HTTP error! status: "
  const TimeoutNote: string := " (タイムアウト)"
  const NetworkNote: string := " (ネットワークエラー)"
  const FailurePrefix: string := "API呼び出しエラー ("
  const AttemptInfix: string := ") - 試行 "
  const RecoveryPrefix: string := "API呼び出し成功 ("
  const RecoverySuffix: string := "回目の試行で成功"
  const UnexpectedMessage: string := "Unexpected error in fetchWithRetry"

  /** What the `catch` of one attempt holds, if the attempt failed: a rejected
      `fetch` (non-`Error` values become `Error('Unknown error')`), or a response
      outside 2xx turned into an APIError with its status and parsed body. */
  function Caught<P>(f: Fetched<P>): (r: Option<Error>)
    ensures r.None? <==> f.Replied? && f.reply.Ok()
    ensures r.Some? ==> r.value.IsError()
    ensures f.Replied? && !f.reply.Ok() ==>
      r == Some(WooApiError(HttpErrorPrefix + IntStr(f.reply.status), Some(f.reply.status), ErrorDataOf(f.reply.content)))
    ensures f.Failed? ==> r == Some(if f.error.IsError() then f.error else PlainError("Unknown error"))
  {
    match f
    case Replied(reply) =>
      if reply.Ok() then None
      else Some(WooApiError(HttpErrorPrefix + IntStr(reply.status), Some(reply.status), ErrorDataOf(reply.content)))
    case Failed(e) => Some(if e.IsError() then e else PlainError("Unknown error"))
  }

  /** The details of the log line of `handleRequestError`: the message, then a
      note for a timeout (an `AbortError`) and one for a network failure. */
  function FailureDetails(e: Error): string
    requires e.IsError()
  {
    var aborted := e.Name() == "AbortError";
    var network := Contains(e.Message(), "NetworkError") || Contains(e.Message(), "Failed to fetch");
    e.Message() + (if aborted then TimeoutNote else "") + (if network then NetworkNote else "")
  }

  /** The details start with the error's message, and the timeout note follows it
      exactly when the error is an abort. */
  lemma FailureDetailsSpec(e: Error)
    requires e.IsError()
    ensures StartsWith(FailureDetails(e), e.Message())
    ensures e.Name() == "AbortError" <==> Contains(FailureDetails(e)[|e.Message()|..], TimeoutNote)
  {
    var aborted := e.Name() == "AbortError";
    var network := Contains(e.Message(), "NetworkError") || Contains(e.Message(), "Failed to fetch");
    var suffix := (if aborted then TimeoutNote else "") + (if network then NetworkNote else "");
    var details := FailureDetails(e);
    assert details == e.Message() + suffix;
    assert details[|e.Message()|..] == suffix;
    assert details[..|e.Message()|] == e.Message();
    SuffixTimeout(aborted, network);
  }

  /** The log line of `handleRequestError` for a failed attempt. */
  function FailureLog(e: Error, attempt: int, maxRetries: int, context: string): (r: LogService.LogEntry)
    requires e.IsError()
    ensures r.kind == LogService.Error && r.category == LogService.Sync && r.details == Some(FailureDetails(e))
  {
    LogService.LogEntry(LogService.Error, LogService.Sync,
      FailurePrefix + context + AttemptInfix + IntStr(attempt) + "/" + IntStr(maxRetries),
      Some(FailureDetails(e)))
  }

  /** The suffixes of a failure log: the timeout note appears exactly for an abort. */
  lemma SuffixTimeout(aborted: bool, network: bool)
    ensures Contains((if aborted then TimeoutNote else "") + (if network then NetworkNote else ""), TimeoutNote) <==> aborted
  {
    var t := TimeoutNote;
    var n := NetworkNote;
    var s := (if aborted then t else "") + (if network then n else "");
    if aborted {
      assert s[..|t|] == t;
    } else if network {
      assert s == n;
      assert forall j :: 0 <= j < |n| ==> n[j] != 'タ';
      forall i ensures !OccursAt(s, t, i) {
        if 0 <= i && i + |t| <= |s| {
          assert s[i..i + |t|][2] == s[i + 2] != t[2];
        }
      }
      ContainsAt(s, t);
    } else {
      assert s == "";
    }
  }

  /** `handleRequestError`: the log entry, and whether the error is rethrown
      (on the last attempt only). */
  function HandleRequestError(e: Error, attempt: int, maxRetries: int, context: string): (r: (LogService.LogEntry, bool))
    requires e.IsError()
    ensures r.0 == FailureLog(e, attempt, maxRetries, context)
    ensures r.1 <==> attempt == maxRetries
  {
    (FailureLog(e, attempt, maxRetries, context), attempt == maxRetries)
  }

  /** The success log written when an attempt after the first succeeds. */
  function RecoveryLog(attempt: int, context: string): (r: LogService.LogEntry)
    ensures r.kind == LogService.Success && r.category == LogService.Sync
  {
    LogService.LogEntry(LogService.Success, LogService.Sync, RecoveryPrefix + context + ")",
      Some(IntStr(attempt) + RecoverySuffix))
  }

  // ---------------------------------------------------------------- the retry loop

  /** `RequestOptions` as far as the loop uses them; the defaults are 3 and 1000. */
  datatype RetryOptions = RetryOptions(maxRetries: int, retryDelay: int)

  function DefaultOptions(): RetryOptions {
    RetryOptions(3, 1000)
  }

  /** The log line of failed attempt `a` (with error `e`), as a function value.
      The loop is stated over such values so that its shape can be reasoned
      about without the wording of the lines. */
  function FailMark(maxRetries: int, context: string): (mark: (Error, nat) -> LogService.LogEntry)
    ensures forall e: Error, a: nat :: e.IsError() ==> mark(e, a) == FailureLog(e, a, maxRetries, context)
    ensures forall e: Error, a: nat :: mark(e, a).kind == LogService.Error
  {
    (e: Error, a: nat) =>
      if e.IsError() then FailureLog(e, a, maxRetries, context)
      else LogService.LogEntry(LogService.Error, LogService.Sync, "", None)
  }

  /** The success line of attempt `a`, as a function value. */
  function RecoverMark(context: string): (mark: nat -> LogService.LogEntry)
    ensures forall a: nat :: mark(a) == RecoveryLog(a, context)
    ensures forall a: nat :: mark(a).kind == LogService.Success
  {
    (a: nat) => RecoveryLog(a, context)
  }

  /** The loop of `fetchWithRetry` from attempt `attempt` on, with the error of the
      previous attempt (if any) in `lastError`, the failure line `fail` and the
      success line `recover`. */
  function RunWith<P>(req: Request, maxRetries: int, retryDelay: int, outcome: nat -> Fetched<P>,
                      fail: (Error, nat) -> LogService.LogEntry, recover: nat -> LogService.LogEntry,
                      attempt: nat, lastError: Option<Error>): Traced<Reply<P>>
    requires attempt >= 1
    decreases maxRetries - attempt + 1
  {
    if attempt > maxRetries then
      Traced(Err(if lastError.Some? then lastError.value else PlainError(UnexpectedMessage)), [])
    else
      var f := outcome(attempt);
      var caught := Caught(f);
      if caught.None? then
        Traced(Ok(f.reply), [Call(req)] + (if attempt > 1 then [Log(recover(attempt))] else []))
      else
        var e := caught.value;
        var failed := [Call(req), Log(fail(e, attempt))];
        if attempt == maxRetries then Traced(Err(e), failed)
        else After(failed + [Sleep(Backoff(retryDelay, attempt))],
                   RunWith(req, maxRetries, retryDelay, outcome, fail, recover, attempt + 1, Some(e)))
  }

  /** The loop of `fetchWithRetry` with the source's log lines. */
  function Run<P>(req: Request, opts: RetryOptions, context: string, outcome: nat -> Fetched<P>,
                  attempt: nat, lastError: Option<Error>): Traced<Reply<P>>
    requires attempt >= 1
  {
    RunWith(req, opts.maxRetries, opts.retryDelay, outcome, FailMark(opts.maxRetries, context), RecoverMark(context), attempt, lastError)
  }

  /** The loop invariant of `FetchWithRetry`: the events so far followed by the
      rest of the loop are the whole run. */
  ghost predicate RunAccounted<P>(req: Request, opts: RetryOptions, context: string, outcome: nat -> Fetched<P>,
                                 attempt: nat, lastError: Option<Error>, trace: seq<Event>)
    requires attempt >= 1
  {
    After(trace, Run(req, opts, context, outcome, attempt, lastError)) == Run(req, opts, context, outcome, 1, None)
  }

  /** A successful attempt ends the loop with its reply. */
  lemma RunOkStep<P>(req: Request, opts: RetryOptions, context: string, outcome: nat -> Fetched<P>,
                     attempt: nat, lastError: Option<Error>, trace: seq<Event>, step: seq<Event>)
    requires 1 <= attempt <= opts.maxRetries && Caught(outcome(attempt)).None?
    requires step == [Call(req)] + (if attempt > 1 then [Log(RecoveryLog(attempt, context))] else [])
    requires RunAccounted(req, opts, context, outcome, attempt, lastError, trace)
    ensures Traced(Ok(outcome(attempt).reply), trace + step) == Run(req, opts, context, outcome, 1, None)
  {
    var recover := RecoverMark(context);
    assert Run(req, opts, context, outcome, attempt, lastError) == Traced(Ok(outcome(attempt).reply), step) by {
      if attempt > 1 {
        assert recover(attempt) == RecoveryLog(attempt, context);
      }
    }
  }

  /** A failure on the last attempt ends the loop with that error. */
  lemma RunLastStep<P>(req: Request, opts: RetryOptions, context: string, outcome: nat -> Fetched<P>,
                       attempt: nat, lastError: Option<Error>, trace: seq<Event>, e: Error)
    requires 1 <= attempt == opts.maxRetries && Caught(outcome(attempt)) == Some(e)
    requires RunAccounted(req, opts, context, outcome, attempt, lastError, trace)
    ensures Traced(Err(e), trace + [Call(req), Log(FailureLog(e, attempt, opts.maxRetries, context))])
            == Run(req, opts, context, outcome, 1, None)
  {
    var fail := FailMark(opts.maxRetries, context);
    assert fail(e, attempt) == FailureLog(e, attempt, opts.maxRetries, context);
  }

  /** A failure before the last attempt: its call, its log and its backoff, then
      the loop from the next attempt. */
  lemma RunFailStep<P>(req: Request, opts: RetryOptions, context: string, outcome: nat -> Fetched<P>,
                       attempt: nat, lastError: Option<Error>, trace: seq<Event>, e: Error, step: seq<Event>)
    requires 1 <= attempt < opts.maxRetries && Caught(outcome(attempt)) == Some(e)
    requires step == [Call(req), Log(FailureLog(e, attempt, opts.maxRetries, context)), Sleep(Backoff(opts.retryDelay, attempt))]
    requires RunAccounted(req, opts, context, outcome, attempt, lastError, trace)
    ensures RunAccounted(req, opts, context, outcome, attempt + 1, Some(e), trace + step)
  {
    var fail := FailMark(opts.maxRetries, context);
    assert fail(e, attempt) == FailureLog(e, attempt, opts.maxRetries, context);
    var next := Run(req, opts, context, outcome, attempt + 1, Some(e));
    assert Run(req, opts, context, outcome, attempt, lastError) == After(step, next);
    AfterTwice(trace, step, next);
  }

  /** Past the last attempt the loop throws the last error, or the fallback error
      when no attempt was made. */
  lemma RunEndStep<P>(req: Request, opts: RetryOptions, context: string, outcome: nat -> Fetched<P>,
                      attempt: nat, lastError: Option<Error>, trace: seq<Event>)
    requires 1 <= attempt && attempt > opts.maxRetries
    requires RunAccounted(req, opts, context, outcome, attempt, lastError, trace)
    ensures Traced(Err(if lastError.Some? then lastError.value else PlainError(UnexpectedMessage)), trace)
            == Run(req, opts, context, outcome, 1, None)
  {
    assert trace + [] == trace;
  }

  /** `fetchWithRetry(url, options, context)`. */
  method FetchWithRetry<P>(req: Request, opts: RetryOptions, context: string, outcome: nat -> Fetched<P>)
    returns (result: Result<Reply<P>, Error>, trace: seq<Event>)
    ensures Traced(result, trace) == Run(req, opts, context, outcome, 1, None)
  {
    var lastError: Option<Error> := None;
    trace := [];
    var attempt: nat := 1;
    while attempt <= opts.maxRetries
      invariant attempt >= 1
      invariant attempt > 1 ==> attempt <= opts.maxRetries && lastError.Some?
      invariant RunAccounted(req, opts, context, outcome, attempt, lastError, trace)
      decreases opts.maxRetries - attempt + 1
    {
      var f := outcome(attempt);
      var caught := Caught(f);
      if caught.None? {
        var step := [Call(req)] + (if attempt > 1 then [Log(RecoveryLog(attempt, context))] else []);
        RunOkStep(req, opts, context, outcome, attempt, lastError, trace, step);
        trace := trace + step;
        result := Ok(f.reply);
        return;
      }
      var (entry, rethrow) := HandleRequestError(caught.value, attempt, opts.maxRetries, context);
      if rethrow {
        RunLastStep(req, opts, context, outcome, attempt, lastError, trace, caught.value);
        trace := trace + [Call(req), Log(entry)];
        result := Err(caught.value);
        return;
      }
      var step := [Call(req), Log(entry), Sleep(Backoff(opts.retryDelay, attempt))];
      RunFailStep(req, opts, context, outcome, attempt, lastError, trace, caught.value, step);
      lastError := caught;
      trace := trace + step;
      attempt := attempt + 1;
    }
    RunEndStep(req, opts, context, outcome, attempt, lastError, trace);
    result := Err(if lastError.Some? then lastError.value else PlainError(UnexpectedMessage));
  }

  // ---------------------------------------------------------------- what the loop does

  /** What the `catch` of each attempt holds, as a function value. */
  function CaughtOf<P>(outcome: nat -> Fetched<P>): (c: nat -> Option<Error>)
    ensures forall j: nat :: c(j) == Caught(outcome(j))
  {
    (j: nat) => Caught(outcome(j))
  }

  /** The events of failed attempts `lo` .. `hi - 1`, each followed by its backoff;
      `caught(j)` is what attempt `j` caught. */
  function FailedAttempts(req: Request, retryDelay: int, caught: nat -> Option<Error>,
                          fail: (Error, nat) -> LogService.LogEntry, lo: int, hi: int): seq<Event>
    requires 1 <= lo <= hi
    decreases hi - lo
  {
    if lo == hi then []
    else
      var e := caught(lo);
      (if e.Some? then [Call(req), Log(fail(e.value, lo)), Sleep(Backoff(retryDelay, lo))] else [])
        + FailedAttempts(req, retryDelay, caught, fail, lo + 1, hi)
  }

  /** The loop stops at the first successful attempt `k`: every earlier attempt
      failed and waited, only `k` is called after them, and the reply is `k`'s. */
  lemma {:induction false} RunSucceeds<P>(req: Request, maxRetries: int, retryDelay: int, outcome: nat -> Fetched<P>,
                                          fail: (Error, nat) -> LogService.LogEntry, recover: nat -> LogService.LogEntry,
                                          a: nat, k: nat, last: Option<Error>)
    requires 1 <= a <= k <= maxRetries
    requires Caught(outcome(k)).None? && forall j :: a <= j < k ==> Caught(outcome(j)).Some?
    ensures var o := RunWith(req, maxRetries, retryDelay, outcome, fail, recover, a, last);
      o.result == Ok(outcome(k).reply)
      && o.trace == FailedAttempts(req, retryDelay, CaughtOf(outcome), fail, a, k) + ([Call(req)] + (if k > 1 then [Log(recover(k))] else []))
    decreases k - a
  {
    if a < k {
      var e := Caught(outcome(a)).value;
      var head := [Call(req), Log(fail(e, a)), Sleep(Backoff(retryDelay, a))];
      RunSucceeds(req, maxRetries, retryDelay, outcome, fail, recover, a + 1, k, Some(e));
      var rest := FailedAttempts(req, retryDelay, CaughtOf(outcome), fail, a + 1, k);
      assert FailedAttempts(req, retryDelay, CaughtOf(outcome), fail, a, k) == head + rest;
      AppendAssoc(head, rest, [Call(req)] + (if k > 1 then [Log(recover(k))] else []));
    } else {
      assert FailedAttempts(req, retryDelay, CaughtOf(outcome), fail, a, k) == [];
    }
  }

  /** When every attempt fails, all of them are made, each but the last waits, and
      the error of the last attempt is thrown. */
  lemma {:induction false} RunFails<P>(req: Request, maxRetries: int, retryDelay: int, outcome: nat -> Fetched<P>,
                                       fail: (Error, nat) -> LogService.LogEntry, recover: nat -> LogService.LogEntry,
                                       a: nat, last: Option<Error>)
    requires 1 <= a <= maxRetries
    requires forall j :: a <= j <= maxRetries ==> Caught(outcome(j)).Some?
    ensures var o := RunWith(req, maxRetries, retryDelay, outcome, fail, recover, a, last);
      var e := Caught(outcome(maxRetries)).value;
      o.result == Err(e)
      && o.trace == FailedAttempts(req, retryDelay, CaughtOf(outcome), fail, a, maxRetries) + [Call(req), Log(fail(e, maxRetries))]
    decreases maxRetries - a
  {
    if a < maxRetries {
      var e := Caught(outcome(a)).value;
      var head := [Call(req), Log(fail(e, a)), Sleep(Backoff(retryDelay, a))];
      RunFails(req, maxRetries, retryDelay, outcome, fail, recover, a + 1, Some(e));
      var rest := FailedAttempts(req, retryDelay, CaughtOf(outcome), fail, a + 1, maxRetries);
      assert FailedAttempts(req, retryDelay, CaughtOf(outcome), fail, a, maxRetries) == head + rest;
      AppendAssoc(head, rest, [Call(req), Log(fail(Caught(outcome(maxRetries)).value, maxRetries))]);
    } else {
      assert FailedAttempts(req, retryDelay, CaughtOf(outcome), fail, a, maxRetries) == [];
    }
  }

  lemma {:induction false} RunWithCallsBound<P>(req: Request, maxRetries: int, retryDelay: int, outcome: nat -> Fetched<P>,
                                                fail: (Error, nat) -> LogService.LogEntry, recover: nat -> LogService.LogEntry,
                                                a: nat, last: Option<Error>)
    requires a >= 1
    ensures Calls(RunWith(req, maxRetries, retryDelay, outcome, fail, recover, a, last).trace) <= Max(0, maxRetries - a + 1)
    decreases maxRetries - a + 1
  {
    var o := RunWith(req, maxRetries, retryDelay, outcome, fail, recover, a, last);
    if a <= maxRetries {
      var caught := Caught(outcome(a));
      if caught.None? {
        var tail := if a > 1 then [Log(recover(a))] else [];
        assert o.trace == [Call(req)] + tail;
        CallsAppend([Call(req)], tail);
        assert Calls(tail) == 0 by { if a > 1 { assert tail[1..] == []; } }
      } else {
        var e := caught.value;
        CallThenLog(req, fail(e, a));
        if a < maxRetries {
          var step := [Call(req), Log(fail(e, a)), Sleep(Backoff(retryDelay, a))];
          FailedHead(req, fail(e, a), Backoff(retryDelay, a));
          var next := RunWith(req, maxRetries, retryDelay, outcome, fail, recover, a + 1, Some(e));
          assert o.trace == step + next.trace;
          RunWithCallsBound(req, maxRetries, retryDelay, outcome, fail, recover, a + 1, Some(e));
          CallsAppend(step, next.trace);
        }
      }
    }
  }

  /** Whatever the replies, the loop makes at most one request per remaining attempt. */
  lemma RunCallsBound<P>(req: Request, opts: RetryOptions, context: string, outcome: nat -> Fetched<P>, a: nat, last: Option<Error>)
    requires a >= 1
    ensures Calls(Run(req, opts, context, outcome, a, last).trace) <= Max(0, opts.maxRetries - a + 1)
  {
    RunWithCallsBound(req, opts.maxRetries, opts.retryDelay, outcome, FailMark(opts.maxRetries, context), RecoverMark(context), a, last);
  }

  lemma {:induction false} RunWithErrors<P>(req: Request, maxRetries: int, retryDelay: int, outcome: nat -> Fetched<P>,
                                            fail: (Error, nat) -> LogService.LogEntry, recover: nat -> LogService.LogEntry,
                                            a: nat, last: Option<Error>)
    requires a >= 1 && (last.Some? ==> last.value.IsError())
    ensures var o := RunWith(req, maxRetries, retryDelay, outcome, fail, recover, a, last);
      (o.result.Err? ==> o.result.error.IsError()) && (o.result.Ok? ==> o.result.value.Ok())
    decreases maxRetries - a + 1
  {
    if a < maxRetries && Caught(outcome(a)).Some? {
      RunWithErrors(req, maxRetries, retryDelay, outcome, fail, recover, a + 1, Caught(outcome(a)));
    }
  }

  /** What the loop throws is always an `Error`, and what it returns is always a
      2xx response. */
  lemma RunErrorsAreErrors<P>(req: Request, opts: RetryOptions, context: string, outcome: nat -> Fetched<P>, a: nat, last: Option<Error>)
    requires a >= 1 && (last.Some? ==> last.value.IsError())
    ensures var o := Run(req, opts, context, outcome, a, last);
      (o.result.Err? ==> o.result.error.IsError()) && (o.result.Ok? ==> o.result.value.Ok())
  {
    RunWithErrors(req, opts.maxRetries, opts.retryDelay, outcome, FailMark(opts.maxRetries, context), RecoverMark(context), a, last);
  }

  /** With at least one attempt allowed, the loop starts with the request. */
  lemma RunStartsWithCall<P>(req: Request, opts: RetryOptions, context: string, outcome: nat -> Fetched<P>)
    requires opts.maxRetries >= 1
    ensures var t := Run(req, opts, context, outcome, 1, None).trace;
      |t| > 0 && t[0] == Call(req)
  {
  }

  /** With no attempt allowed, nothing is requested and the fallback error is thrown. */
  lemma NoAttempts<P>(req: Request, opts: RetryOptions, context: string, outcome: nat -> Fetched<P>)
    requires opts.maxRetries <= 0
    ensures Run(req, opts, context, outcome, 1, None) == Traced(Err(PlainError(UnexpectedMessage)), [])
  {
  }

  /** The three events of one failed attempt. */
  lemma FailedHead(req: Request, entry: LogService.LogEntry, ms: int)
    ensures var head := [Call(req), Log(entry), Sleep(ms)];
      Calls(head) == 1 && Logs(head) == [entry] && Waited(head) == ms
  {
    var head := [Call(req), Log(entry), Sleep(ms)];
    assert head[1..][1..][1..] == [];
    assert Calls(head[1..][1..]) == 0 && Logs(head[1..][1..]) == [] && Waited(head[1..][1..]) == ms;
  }

  /** The two events of an attempt that ends the loop with a log line. */
  lemma CallThenLog(req: Request, entry: LogService.LogEntry)
    ensures var tail := [Call(req), Log(entry)];
      Calls(tail) == 1 && Logs(tail) == [entry] && Waited(tail) == 0
  {
    var tail := [Call(req), Log(entry)];
    assert tail[1..][1..] == [];
    assert Calls(tail[1..]) == 0 && Logs(tail[1..]) == [entry] && Waited(tail[1..]) == 0;
  }

  /** Backoffs double, so their sum telescopes. */
  lemma BackoffStep(rd: int, lo: int, hi: int)
    requires 1 <= lo < hi
    ensures Backoff(rd, lo) + rd * (Pow2(hi - 1) - Pow2(lo)) == rd * (Pow2(hi - 1) - Pow2(lo - 1))
  {
    assert Pow2(lo) == 2 * Pow2(lo - 1);
    var x: int := Pow2(lo - 1);
    var y: int := Pow2(hi - 1);
    assert rd * (y - 2 * x) == rd * y - 2 * (rd * x);
    assert rd * (y - x) == rd * y - rd * x;
  }

  /** Failed attempts make one call and write one failure line each. */
  lemma {:induction false} FailedAttemptsCount(req: Request, retryDelay: int, caught: nat -> Option<Error>,
                                               fail: (Error, nat) -> LogService.LogEntry, lo: int, hi: int)
    requires 1 <= lo <= hi
    requires forall j :: lo <= j < hi ==> caught(j).Some?
    ensures var t := FailedAttempts(req, retryDelay, caught, fail, lo, hi);
      Calls(t) == hi - lo && |Logs(t)| == hi - lo
      && (forall i :: 0 <= i < |Logs(t)| ==> Logs(t)[i] == fail(caught(lo + i).value, lo + i))
    decreases hi - lo
  {
    if lo < hi {
      var entry := fail(caught(lo).value, lo);
      var head := [Call(req), Log(entry), Sleep(Backoff(retryDelay, lo))];
      var rest := FailedAttempts(req, retryDelay, caught, fail, lo + 1, hi);
      assert FailedAttempts(req, retryDelay, caught, fail, lo, hi) == head + rest;
      FailedAttemptsCount(req, retryDelay, caught, fail, lo + 1, hi);
      FailedHead(req, entry, Backoff(retryDelay, lo));
      CallsAppend(head, rest);
      LogsAppend(head, rest);
      FailureLinesCons(Logs(head + rest), Logs(rest), caught, fail, lo);
    }
  }

  /** The failure line of attempt `lo` followed by those of the attempts from
      `lo + 1` on. */
  lemma FailureLinesCons(logs: seq<LogService.LogEntry>, rest: seq<LogService.LogEntry>, caught: nat -> Option<Error>,
                         fail: (Error, nat) -> LogService.LogEntry, lo: nat)
    requires forall j :: lo <= j <= lo + |rest| ==> caught(j).Some?
    requires logs == [fail(caught(lo).value, lo)] + rest
    requires forall i :: 0 <= i < |rest| ==> rest[i] == fail(caught(lo + 1 + i).value, lo + 1 + i)
    ensures forall i :: 0 <= i < |logs| ==> logs[i] == fail(caught(lo + i).value, lo + i)
  {
    forall i | 1 <= i < |logs|
      ensures logs[i] == fail(caught(lo + i).value, lo + i)
    {
      assert logs[i] == rest[i - 1];
      assert lo + 1 + (i - 1) == lo + i;
    }
  }

  /** The backoffs of failed attempts `lo` .. `hi - 1` double, so they sum to
      `retryDelay * (2^(hi-1) - 2^(lo-1))`. */
  lemma {:induction false} FailedAttemptsWait(req: Request, retryDelay: int, caught: nat -> Option<Error>,
                                              fail: (Error, nat) -> LogService.LogEntry, lo: int, hi: int)
    requires 1 <= lo <= hi
    requires forall j :: lo <= j < hi ==> caught(j).Some?
    ensures Waited(FailedAttempts(req, retryDelay, caught, fail, lo, hi)) == retryDelay * (Pow2(hi - 1) - Pow2(lo - 1))
    decreases hi - lo
  {
    if lo < hi {
      var entry := fail(caught(lo).value, lo);
      var head := [Call(req), Log(entry), Sleep(Backoff(retryDelay, lo))];
      var rest := FailedAttempts(req, retryDelay, caught, fail, lo + 1, hi);
      assert FailedAttempts(req, retryDelay, caught, fail, lo, hi) == head + rest;
      FailedAttemptsWait(req, retryDelay, caught, fail, lo + 1, hi);
      FailedHead(req, entry, Backoff(retryDelay, lo));
      WaitedAppend(head, rest);
      var later: int := Waited(rest);
      assert later == retryDelay * (Pow2(hi - 1) - Pow2(lo));
      BackoffStep(retryDelay, lo, hi);
      assert Waited(head + rest) == Backoff(retryDelay, lo) + later;
    }
  }

  /** The first success after failures, over any log lines: `k` calls in all,
      waits summing to `retryDelay * (2^(k-1) - 1)`, the failure line of each
      failed attempt and then, exactly when `k > 1`, the success line. */
  lemma SucceedsWith<P>(req: Request, maxRetries: int, retryDelay: int, outcome: nat -> Fetched<P>,
                        fail: (Error, nat) -> LogService.LogEntry, recover: nat -> LogService.LogEntry, k: nat)
    requires 1 <= k <= maxRetries
    requires Caught(outcome(k)).None? && forall j :: 1 <= j < k ==> Caught(outcome(j)).Some?
    ensures var o := RunWith(req, maxRetries, retryDelay, outcome, fail, recover, 1, None);
      o.result == Ok(outcome(k).reply)
      && Calls(o.trace) == k
      && Waited(o.trace) == retryDelay * (Pow2(k - 1) - 1)
      && |Logs(o.trace)| == (if k > 1 then k else 0)
      && (forall i :: 0 <= i < k - 1 ==> Logs(o.trace)[i] == fail(Caught(outcome(i + 1)).value, i + 1))
      && (k > 1 ==> Logs(o.trace)[k - 1] == recover(k))
  {
    RunSucceeds(req, maxRetries, retryDelay, outcome, fail, recover, 1, k, None);
    FailedAttemptsCount(req, retryDelay, CaughtOf(outcome), fail, 1, k);
    FailedAttemptsWait(req, retryDelay, CaughtOf(outcome), fail, 1, k);
    var pre := FailedAttempts(req, retryDelay, CaughtOf(outcome), fail, 1, k);
    var tail := [Call(req)] + (if k > 1 then [Log(recover(k))] else []);
    assert Pow2(0) == 1;
    CallsAppend(pre, tail);
    LogsAppend(pre, tail);
    WaitedAppend(pre, tail);
    if k > 1 {
      CallThenLog(req, recover(k));
      assert tail == [Call(req), Log(recover(k))];
    } else {
      assert Calls(tail) == 1 && Logs(tail) == [] && Waited(tail) == 0 by { assert tail[1..] == []; }
    }
  }

  /** The first success after failures: `k` calls in all, waits summing to
      `retryDelay * (2^(k-1) - 1)`, one error log per failure, and a success log
      exactly when `k > 1`. */
  lemma SucceedsAt<P>(req: Request, opts: RetryOptions, context: string, outcome: nat -> Fetched<P>, k: nat)
    requires 1 <= k <= opts.maxRetries
    requires Caught(outcome(k)).None? && forall j :: 1 <= j < k ==> Caught(outcome(j)).Some?
    ensures var o := Run(req, opts, context, outcome, 1, None);
      o.result == Ok(outcome(k).reply)
      && Calls(o.trace) == k
      && Waited(o.trace) == opts.retryDelay * (Pow2(k - 1) - 1)
      && |Logs(o.trace)| == (if k > 1 then k else 0)
      && (forall i :: 0 <= i < k - 1 ==> Logs(o.trace)[i].kind == LogService.Error)
      && ((exists i :: 0 <= i < |Logs(o.trace)| && Logs(o.trace)[i].kind == LogService.Success) <==> k > 1)
  {
    var fail := FailMark(opts.maxRetries, context);
    var recover := RecoverMark(context);
    SucceedsWith(req, opts.maxRetries, opts.retryDelay, outcome, fail, recover, k);
    var logs := Logs(Run(req, opts, context, outcome, 1, None).trace);
    assert forall i :: 0 <= i < k - 1 ==> logs[i].kind == LogService.Error by {
      forall i | 0 <= i < k - 1 ensures logs[i].kind == LogService.Error {
        assert logs[i] == fail(Caught(outcome(i + 1)).value, i + 1);
      }
    }
    if k > 1 {
      assert logs[k - 1].kind == LogService.Success;
    }
  }

  /** When all attempts fail, over any log lines: `maxRetries` calls, the failure
      line of each attempt, waits summing to `retryDelay * (2^(maxRetries-1) - 1)`
      (none after the last attempt), and the last attempt's error is thrown. */
  lemma AllFailWith<P>(req: Request, maxRetries: int, retryDelay: int, outcome: nat -> Fetched<P>,
                       fail: (Error, nat) -> LogService.LogEntry, recover: nat -> LogService.LogEntry)
    requires maxRetries >= 1
    requires forall j :: 1 <= j <= maxRetries ==> Caught(outcome(j)).Some?
    ensures var o := RunWith(req, maxRetries, retryDelay, outcome, fail, recover, 1, None);
      o.result == Err(Caught(outcome(maxRetries)).value)
      && Calls(o.trace) == maxRetries
      && |Logs(o.trace)| == maxRetries
      && (forall i :: 0 <= i < maxRetries ==> Logs(o.trace)[i] == fail(Caught(outcome(i + 1)).value, i + 1))
      && Waited(o.trace) == retryDelay * (Pow2(maxRetries - 1) - 1)
  {
    var n := maxRetries;
    RunFails(req, maxRetries, retryDelay, outcome, fail, recover, 1, None);
    FailedAttemptsCount(req, retryDelay, CaughtOf(outcome), fail, 1, n);
    FailedAttemptsWait(req, retryDelay, CaughtOf(outcome), fail, 1, n);
    var e := Caught(outcome(n)).value;
    var pre := FailedAttempts(req, retryDelay, CaughtOf(outcome), fail, 1, n);
    var tail := [Call(req), Log(fail(e, n))];
    var o := RunWith(req, maxRetries, retryDelay, outcome, fail, recover, 1, None);
    assert o.trace == pre + tail;
    ClosingAttempt(pre, req, fail(e, n));
    var logs := Logs(pre) + [fail(e, n)];
    forall i | 0 <= i < n
      ensures logs[i] == fail(Caught(outcome(i + 1)).value, i + 1)
    {
      if i < n - 1 {
        assert logs[i] == Logs(pre)[i];
      }
    }
  }

  /** A last attempt that fails adds one call and its log line, and no wait. */
  lemma ClosingAttempt(pre: seq<Event>, req: Request, entry: LogService.LogEntry)
    ensures var t := pre + [Call(req), Log(entry)];
      Calls(t) == Calls(pre) + 1 && Logs(t) == Logs(pre) + [entry] && Waited(t) == Waited(pre)
  {
    var tail := [Call(req), Log(entry)];
    CallsAppend(pre, tail);
    LogsAppend(pre, tail);
    WaitedAppend(pre, tail);
    CallThenLog(req, entry);
  }

  /** When all attempts fail: `maxRetries` calls, `maxRetries` error logs and no
      success log, waits summing to `retryDelay * (2^(maxRetries-1) - 1)` (none
      after the last attempt), and the last attempt's error is thrown. */
  lemma AllFail<P>(req: Request, opts: RetryOptions, context: string, outcome: nat -> Fetched<P>)
    requires opts.maxRetries >= 1
    requires forall j :: 1 <= j <= opts.maxRetries ==> Caught(outcome(j)).Some?
    ensures var o := Run(req, opts, context, outcome, 1, None);
      o.result == Err(Caught(outcome(opts.maxRetries)).value)
      && Calls(o.trace) == opts.maxRetries
      && |Logs(o.trace)| == opts.maxRetries
      && (forall i :: 0 <= i < |Logs(o.trace)| ==> Logs(o.trace)[i].kind == LogService.Error)
      && Waited(o.trace) == opts.retryDelay * (Pow2(opts.maxRetries - 1) - 1)
  {
    var fail := FailMark(opts.maxRetries, context);
    AllFailWith(req, opts.maxRetries, opts.retryDelay, outcome, fail, RecoverMark(context));
    var logs := Logs(Run(req, opts, context, outcome, 1, None).trace);
    forall i | 0 <= i < |logs| ensures logs[i].kind == LogService.Error {
      assert logs[i] == fail(Caught(outcome(i + 1)).value, i + 1);
    }
  }
}
