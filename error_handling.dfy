/** The generic error helpers of src/utils/errorHandling.ts: `handleAPIError`
    (log once, then throw a bare APIError), `retryOperation` (at most
    `maxRetries` calls of a caller-supplied operation with doubling delays) and
    `validateResponse`. The operation's outcome for each 0-based attempt comes
    from an oracle; its own effects are not modelled, only that it was run. */
module ErrorHandling {
  import opened Prelude
  import opened Text
  import opened Errors
  import opened Effects
  import LogService

  const UnknownErrorMessage: string := "An unknown error occurred"

  /** `handleAPIError(error, context)`: the one log entry it writes and the
      error it throws; it has no normal return. `stackOf(e)` is `e.stack || ''`,
      which depends on the JavaScript engine. */
  datatype Handled = Handled(entry: LogService.LogEntry, thrown: Error)

  function HandleApiError(error: Error, context: string, stackOf: Error -> string): (r: Handled)
    ensures r.thrown == AppApiError(MessageOr(error, UnknownErrorMessage), None, None)
    ensures r.entry.kind == LogService.Error && r.entry.category == LogService.Sync
    ensures r.entry.message == context + ": " + MessageOr(error, UnknownErrorMessage)
    ensures error.AppApiError? ==> r.entry.details == error.details
    ensures error.IsError() && !error.AppApiError? ==> r.entry.details == Some(stackOf(error))
    ensures !error.IsError() ==> r.entry.details == Some("")
  {
    var message := if error.IsError() then error.Message() else UnknownErrorMessage;
    var details := if error.AppApiError? then error.details
                   else if error.IsError() then Some(stackOf(error))
                   else Some("");
    Handled(LogService.LogEntry(LogService.Error, LogService.Sync, context + ": " + message, details),
            AppApiError(message, None, None))
  }

  /** The status code and the `details` of the thrown error are always dropped:
      only the message survives `handleAPIError`. */
  lemma HandleDropsStatus(message: string, status: int, details: string, context: string, stackOf: Error -> string)
    ensures var h := HandleApiError(AppApiError(message, Some(status), Some(details)), context, stackOf);
      h.thrown.statusCode.None? && h.thrown.details.None? && h.thrown.message == message
      && h.entry.details == Some(details)
  {
  }

  /** The info line written before each retry. */
  function RetryLog(attempt: int, maxRetries: int, context: string, e: Error): (r: LogService.LogEntry)
    ensures r.kind == LogService.Info && r.category == LogService.Sync
    ensures r.details == Some(MessageOr(e, "Unknown error"))
  {
    LogService.LogEntry(LogService.Info, LogService.Sync,
      "Retrying " + context + " (attempt " + IntStr(attempt + 1) + "/" + IntStr(maxRetries) + ")",
      Some(MessageOr(e, "Unknown error")))
  }

  /** The context `handleAPIError` is given once the attempts are used up. */
  function ExhaustedContext(context: string, maxRetries: int): string {
    context + " failed after " + IntStr(maxRetries) + " attempts"
  }

  /** How often a trace runs the operation. */
  function Invocations(trace: seq<Event>): (n: nat)
    ensures n <= |trace|
    decreases |trace|
  {
    if |trace| == 0 then 0 else (if trace[0].Invoke? then 1 else 0) + Invocations(trace[1..])
  }

  lemma {:induction false} InvocationsAppend(a: seq<Event>, b: seq<Event>)
    ensures Invocations(a + b) == Invocations(a) + Invocations(b)
    decreases |a|
  {
    if |a| == 0 {
      assert a + b == b;
    } else {
      assert (a + b)[0] == a[0] && (a + b)[1..] == a[1..] + b;
      InvocationsAppend(a[1..], b);
    }
  }

  /** The loop of `retryOperation` from 0-based attempt `attempt` on;
      `lastError` is `undefined` (`NonError`) before the first failure. */
  function Retry<T>(op: nat -> Result<T, Error>, context: string, maxRetries: int, initialDelay: int,
                    stackOf: Error -> string, attempt: nat, lastError: Error): Traced<T>
    decreases maxRetries - attempt
  {
    if attempt >= maxRetries then
      var h := HandleApiError(lastError, ExhaustedContext(context, maxRetries), stackOf);
      Traced(Err(h.thrown), [Log(h.entry)])
    else
      match op(attempt)
      case Ok(v) => Traced(Ok(v), [Invoke])
      case Err(e) =>
        var step := if attempt < maxRetries - 1
                    then [Invoke, Log(RetryLog(attempt, maxRetries, context, e)), Sleep(initialDelay * Pow2(attempt))]
                    else [Invoke];
        After(step, Retry(op, context, maxRetries, initialDelay, stackOf, attempt + 1, e))
  }

  /** The loop invariant of `RetryOperation`: the events so far followed by the
      rest of the loop, from `attempt` with `lastError`, are the whole run. */
  ghost predicate RetryAccounted<T>(op: nat -> Result<T, Error>, context: string, maxRetries: int, initialDelay: int,
                              stackOf: Error -> string, attempt: nat, lastError: Error, trace: seq<Event>) {
    After(trace, Retry(op, context, maxRetries, initialDelay, stackOf, attempt, lastError))
      == Retry(op, context, maxRetries, initialDelay, stackOf, 0, NonError)
  }

  /** A failed attempt before the end: its events, then the loop from the next attempt. */
  lemma RetryFailStep<T>(op: nat -> Result<T, Error>, context: string, maxRetries: int, initialDelay: int,
                         stackOf: Error -> string, attempt: nat, lastError: Error, trace: seq<Event>,
                         e: Error, step: seq<Event>)
    requires attempt < maxRetries && op(attempt) == Err(e)
    requires step == if attempt < maxRetries - 1
                     then [Invoke, Log(RetryLog(attempt, maxRetries, context, e)), Sleep(initialDelay * Pow2(attempt))]
                     else [Invoke]
    requires RetryAccounted(op, context, maxRetries, initialDelay, stackOf, attempt, lastError, trace)
    ensures RetryAccounted(op, context, maxRetries, initialDelay, stackOf, attempt + 1, e, trace + step)
  {
    var next := Retry(op, context, maxRetries, initialDelay, stackOf, attempt + 1, e);
    assert Retry(op, context, maxRetries, initialDelay, stackOf, attempt, lastError) == After(step, next);
    AfterTwice(trace, step, next);
  }

  /** A successful attempt ends the run. */
  lemma RetryOkStep<T>(op: nat -> Result<T, Error>, context: string, maxRetries: int, initialDelay: int,
                       stackOf: Error -> string, attempt: nat, lastError: Error, trace: seq<Event>, v: T)
    requires attempt < maxRetries && op(attempt) == Ok(v)
    requires RetryAccounted(op, context, maxRetries, initialDelay, stackOf, attempt, lastError, trace)
    ensures Traced(Ok(v), trace + [Invoke]) == Retry(op, context, maxRetries, initialDelay, stackOf, 0, NonError)
  {
    assert Retry(op, context, maxRetries, initialDelay, stackOf, attempt, lastError) == Traced(Ok(v), [Invoke]);
  }

  /** Past the last attempt, `handleAPIError` ends the run. */
  lemma RetryEndStep<T>(op: nat -> Result<T, Error>, context: string, maxRetries: int, initialDelay: int,
                        stackOf: Error -> string, attempt: nat, lastError: Error, trace: seq<Event>, h: Handled)
    requires attempt >= maxRetries
    requires h == HandleApiError(lastError, ExhaustedContext(context, maxRetries), stackOf)
    requires RetryAccounted(op, context, maxRetries, initialDelay, stackOf, attempt, lastError, trace)
    ensures Traced(Err(h.thrown), trace + [Log(h.entry)]) == Retry(op, context, maxRetries, initialDelay, stackOf, 0, NonError)
  {
    assert Retry(op, context, maxRetries, initialDelay, stackOf, attempt, lastError) == Traced(Err(h.thrown), [Log(h.entry)]);
  }

  /** `retryOperation(operation, context, maxRetries, initialDelay)`; the
      defaults of the source are 3 and 1000. */
  method RetryOperation<T>(op: nat -> Result<T, Error>, context: string, maxRetries: int, initialDelay: int,
                           stackOf: Error -> string)
    returns (result: Result<T, Error>, trace: seq<Event>)
    ensures Traced(result, trace) == Retry(op, context, maxRetries, initialDelay, stackOf, 0, NonError)
  {
    var lastError := NonError;
    trace := [];
    var attempt: nat := 0;
    while attempt < maxRetries
      invariant RetryAccounted(op, context, maxRetries, initialDelay, stackOf, attempt, lastError, trace)
      decreases maxRetries - attempt
    {
      var r := op(attempt);
      if r.Ok? {
        RetryOkStep(op, context, maxRetries, initialDelay, stackOf, attempt, lastError, trace, r.value);
        trace := trace + [Invoke];
        result := Ok(r.value);
        return;
      }
      var step := [Invoke];
      if attempt < maxRetries - 1 {
        var delay := initialDelay * Pow2(attempt);
        step := step + [Log(RetryLog(attempt, maxRetries, context, r.error)), Sleep(delay)];
      }
      RetryFailStep(op, context, maxRetries, initialDelay, stackOf, attempt, lastError, trace, r.error, step);
      lastError := r.error;
      trace := trace + step;
      attempt := attempt + 1;
    }
    var h := HandleApiError(lastError, ExhaustedContext(context, maxRetries), stackOf);
    RetryEndStep(op, context, maxRetries, initialDelay, stackOf, attempt, lastError, trace, h);
    trace := trace + [Log(h.entry)];
    result := Err(h.thrown);
  }

  // ---------------------------------------------------------------- what the loop does

  /** The events of failed attempts `lo` .. `hi - 1`, none of them the last. */
  function Retries<T>(op: nat -> Result<T, Error>, context: string, maxRetries: int, initialDelay: int, lo: int, hi: int): seq<Event>
    requires 0 <= lo <= hi
    decreases hi - lo
  {
    if lo == hi then []
    else
      var r := op(lo);
      (if r.Err? then [Invoke, Log(RetryLog(lo, maxRetries, context, r.error)), Sleep(initialDelay * Pow2(lo))] else [])
        + Retries(op, context, maxRetries, initialDelay, lo + 1, hi)
  }

  /** Failed attempts before the last one each run the operation, log once and
      wait; the loop then carries on at `k` with the error of attempt `k - 1`. */
  lemma {:induction false} RetryUnroll<T>(op: nat -> Result<T, Error>, context: string, maxRetries: int, initialDelay: int,
                                          stackOf: Error -> string, a: nat, k: nat, last: Error)
    requires a <= k < maxRetries
    requires forall j :: a <= j < k ==> op(j).Err?
    ensures Retry(op, context, maxRetries, initialDelay, stackOf, a, last)
            == After(Retries(op, context, maxRetries, initialDelay, a, k),
                     Retry(op, context, maxRetries, initialDelay, stackOf, k, if a < k then op(k - 1).error else last))
    decreases k - a
  {
    if a < k {
      var e := op(a).error;
      var step := [Invoke, Log(RetryLog(a, maxRetries, context, e)), Sleep(initialDelay * Pow2(a))];
      assert Retry(op, context, maxRetries, initialDelay, stackOf, a, last)
             == After(step, Retry(op, context, maxRetries, initialDelay, stackOf, a + 1, e));
      RetryUnroll(op, context, maxRetries, initialDelay, stackOf, a + 1, k, e);
      var rest := Retries(op, context, maxRetries, initialDelay, a + 1, k);
      assert Retries(op, context, maxRetries, initialDelay, a, k) == step + rest;
      AfterTwice(step, rest, Retry(op, context, maxRetries, initialDelay, stackOf, k, op(k - 1).error));
    } else {
      assert Retries(op, context, maxRetries, initialDelay, a, k) == [];
    }
  }

  /** The three events of one retried attempt. */
  lemma RetriedHead(entry: LogService.LogEntry, ms: int)
    ensures var head := [Invoke, Log(entry), Sleep(ms)];
      Invocations(head) == 1 && Logs(head) == [entry] && Waited(head) == ms
  {
    var head := [Invoke, Log(entry), Sleep(ms)];
    assert head[1..][1..][1..] == [];
    assert Invocations(head[1..][1..]) == 0 && Logs(head[1..][1..]) == [] && Waited(head[1..][1..]) == ms;
  }

  /** Attempts `lo` .. `hi - 1` run the operation once each and write one info log each. */
  lemma {:induction false} RetriesCount<T>(op: nat -> Result<T, Error>, context: string, maxRetries: int, initialDelay: int, lo: int, hi: int)
    requires 0 <= lo <= hi
    requires forall j :: lo <= j < hi ==> op(j).Err?
    ensures var t := Retries(op, context, maxRetries, initialDelay, lo, hi);
      Invocations(t) == hi - lo && |Logs(t)| == hi - lo
      && (forall i :: 0 <= i < |Logs(t)| ==> Logs(t)[i].kind == LogService.Info)
    decreases hi - lo
  {
    if lo < hi {
      var entry := RetryLog(lo, maxRetries, context, op(lo).error);
      var head := [Invoke, Log(entry), Sleep(initialDelay * Pow2(lo))];
      var rest := Retries(op, context, maxRetries, initialDelay, lo + 1, hi);
      assert Retries(op, context, maxRetries, initialDelay, lo, hi) == head + rest;
      RetriesCount(op, context, maxRetries, initialDelay, lo + 1, hi);
      RetriedHead(entry, initialDelay * Pow2(lo));
      InvocationsAppend(head, rest);
      LogsAppend(head, rest);
    }
  }

  /** Doubling delays telescope. */
  lemma DelayStep(d: int, lo: nat, hi: nat)
    requires lo < hi
    ensures d * Pow2(lo) + d * (Pow2(hi) - Pow2(lo + 1)) == d * (Pow2(hi) - Pow2(lo))
  {
    assert Pow2(lo + 1) == 2 * Pow2(lo);
    var x: int := Pow2(lo);
    var y: int := Pow2(hi);
    assert d * (y - 2 * x) == d * y - 2 * (d * x);
    assert d * (y - x) == d * y - d * x;
  }

  /** Retried attempts `lo` .. `hi - 1` wait `initialDelay * (2^hi - 2^lo)` in all. */
  lemma {:induction false} RetriesWait<T>(op: nat -> Result<T, Error>, context: string, maxRetries: int, initialDelay: int, lo: int, hi: int)
    requires 0 <= lo <= hi
    requires forall j :: lo <= j < hi ==> op(j).Err?
    ensures Waited(Retries(op, context, maxRetries, initialDelay, lo, hi)) == initialDelay * (Pow2(hi) - Pow2(lo))
    decreases hi - lo
  {
    if lo < hi {
      var entry := RetryLog(lo, maxRetries, context, op(lo).error);
      var head := [Invoke, Log(entry), Sleep(initialDelay * Pow2(lo))];
      var rest := Retries(op, context, maxRetries, initialDelay, lo + 1, hi);
      assert Retries(op, context, maxRetries, initialDelay, lo, hi) == head + rest;
      RetriesWait(op, context, maxRetries, initialDelay, lo + 1, hi);
      RetriedHead(entry, initialDelay * Pow2(lo));
      WaitedAppend(head, rest);
      var later: int := Waited(rest);
      assert later == initialDelay * (Pow2(hi) - Pow2(lo + 1));
      DelayStep(initialDelay, lo, hi);
      assert Waited(head + rest) == initialDelay * Pow2(lo) + later;
    }
  }

  /** The first successful attempt `k` ends the run right after the retried attempts before it. */
  lemma SucceedsTrace<T>(op: nat -> Result<T, Error>, context: string, maxRetries: int, initialDelay: int,
                         stackOf: Error -> string, k: nat)
    requires k < maxRetries && op(k).Ok?
    requires forall j :: 0 <= j < k ==> op(j).Err?
    ensures Retry(op, context, maxRetries, initialDelay, stackOf, 0, NonError)
            == Traced(Ok(op(k).value), Retries(op, context, maxRetries, initialDelay, 0, k) + [Invoke])
  {
    RetryUnroll(op, context, maxRetries, initialDelay, stackOf, 0, k, NonError);
  }

  /** The first successful attempt `k` ends the loop with its value: `k + 1`
      runs of the operation, one info log and one doubling wait per failure,
      and no error log. */
  lemma RetrySucceedsAt<T>(op: nat -> Result<T, Error>, context: string, maxRetries: int, initialDelay: int,
                           stackOf: Error -> string, k: nat)
    requires k < maxRetries && op(k).Ok?
    requires forall j :: 0 <= j < k ==> op(j).Err?
    ensures var o := Retry(op, context, maxRetries, initialDelay, stackOf, 0, NonError);
      o.result == Ok(op(k).value)
      && Invocations(o.trace) == k + 1
      && |Logs(o.trace)| == k
      && (forall i :: 0 <= i < |Logs(o.trace)| ==> Logs(o.trace)[i].kind == LogService.Info)
      && Waited(o.trace) == initialDelay * (Pow2(k) - 1)
  {
    SucceedsTrace(op, context, maxRetries, initialDelay, stackOf, k);
    RetriesCount(op, context, maxRetries, initialDelay, 0, k);
    RetriesWait(op, context, maxRetries, initialDelay, 0, k);
    var pre := Retries(op, context, maxRetries, initialDelay, 0, k);
    var tail := [Invoke];
    InvocationsAppend(pre, tail);
    LogsAppend(pre, tail);
    WaitedAppend(pre, tail);
    assert tail[1..] == [];
  }

  /** The last attempt fails: it runs the operation and `handleAPIError` logs once and throws. */
  lemma LastAttemptFails<T>(op: nat -> Result<T, Error>, context: string, maxRetries: int, initialDelay: int,
                            stackOf: Error -> string, last: Error)
    requires maxRetries >= 1 && op(maxRetries - 1).Err?
    ensures var h := HandleApiError(op(maxRetries - 1).error, ExhaustedContext(context, maxRetries), stackOf);
      Retry(op, context, maxRetries, initialDelay, stackOf, maxRetries - 1, last) == Traced(Err(h.thrown), [Invoke, Log(h.entry)])
  {
  }

  lemma InvokeThenLog(entry: LogService.LogEntry)
    ensures var t := [Invoke, Log(entry)];
      Invocations(t) == 1 && Logs(t) == [entry] && Waited(t) == 0
  {
    var t := [Invoke, Log(entry)];
    assert t[1..][1..] == [];
    assert Invocations(t[1..]) == 0 && Logs(t[1..]) == [entry] && Waited(t[1..]) == 0;
  }

  /** When every attempt fails, the run is the retried attempts followed by the
      last attempt and the error log of `handleAPIError`. */
  lemma ExhaustedTrace<T>(op: nat -> Result<T, Error>, context: string, maxRetries: int, initialDelay: int,
                          stackOf: Error -> string)
    requires maxRetries >= 1
    requires forall j :: 0 <= j < maxRetries ==> op(j).Err?
    ensures var h := HandleApiError(op(maxRetries - 1).error, ExhaustedContext(context, maxRetries), stackOf);
      Retry(op, context, maxRetries, initialDelay, stackOf, 0, NonError)
        == Traced(Err(h.thrown), Retries(op, context, maxRetries, initialDelay, 0, maxRetries - 1) + [Invoke, Log(h.entry)])
  {
    var n := maxRetries - 1;
    RetryUnroll(op, context, maxRetries, initialDelay, stackOf, 0, n, NonError);
    LastAttemptFails(op, context, maxRetries, initialDelay, stackOf, if 0 < n then op(n - 1).error else NonError);
  }

  /** When every attempt fails: `maxRetries` runs, an info log after each but
      the last, then one error log, and an APIError carrying only the
      last error's message is thrown. */
  lemma RetryExhausted<T>(op: nat -> Result<T, Error>, context: string, maxRetries: int, initialDelay: int,
                          stackOf: Error -> string)
    requires maxRetries >= 1
    requires forall j :: 0 <= j < maxRetries ==> op(j).Err?
    ensures var o := Retry(op, context, maxRetries, initialDelay, stackOf, 0, NonError);
      var last := op(maxRetries - 1).error;
      o.result == Err(AppApiError(MessageOr(last, UnknownErrorMessage), None, None))
      && Invocations(o.trace) == maxRetries
      && |Logs(o.trace)| == maxRetries
      && Logs(o.trace)[maxRetries - 1] == HandleApiError(last, ExhaustedContext(context, maxRetries), stackOf).entry
      && (forall i :: 0 <= i < maxRetries - 1 ==> Logs(o.trace)[i].kind == LogService.Info)
  {
    var n := maxRetries - 1;
    ExhaustedTrace(op, context, maxRetries, initialDelay, stackOf);
    RetriesCount(op, context, maxRetries, initialDelay, 0, n);
    var h := HandleApiError(op(n).error, ExhaustedContext(context, maxRetries), stackOf);
    var pre := Retries(op, context, maxRetries, initialDelay, 0, n);
    var tail := [Invoke, Log(h.entry)];
    InvocationsAppend(pre, tail);
    LogsAppend(pre, tail);
    InvokeThenLog(h.entry);
  }

  /** ... and they wait `initialDelay * (2^(maxRetries-1) - 1)` in all, none after the last attempt. */
  lemma RetryExhaustedWaits<T>(op: nat -> Result<T, Error>, context: string, maxRetries: int, initialDelay: int,
                               stackOf: Error -> string)
    requires maxRetries >= 1
    requires forall j :: 0 <= j < maxRetries ==> op(j).Err?
    ensures Waited(Retry(op, context, maxRetries, initialDelay, stackOf, 0, NonError).trace)
            == initialDelay * (Pow2(maxRetries - 1) - 1)
  {
    var n := maxRetries - 1;
    ExhaustedTrace(op, context, maxRetries, initialDelay, stackOf);
    RetriesWait(op, context, maxRetries, initialDelay, 0, n);
    var h := HandleApiError(op(n).error, ExhaustedContext(context, maxRetries), stackOf);
    var pre := Retries(op, context, maxRetries, initialDelay, 0, n);
    var tail := [Invoke, Log(h.entry)];
    WaitedAppend(pre, tail);
    InvokeThenLog(h.entry);
  }

  /** With `maxRetries <= 0` the operation never runs and the generic message is thrown. */
  lemma RetryNoAttempts<T>(op: nat -> Result<T, Error>, context: string, maxRetries: int, initialDelay: int,
                           stackOf: Error -> string)
    requires maxRetries <= 0
    ensures var o := Retry(op, context, maxRetries, initialDelay, stackOf, 0, NonError);
      o.result == Err(AppApiError(UnknownErrorMessage, None, None))
      && Invocations(o.trace) == 0 && |Logs(o.trace)| == 1
  {
    var o := Retry(op, context, maxRetries, initialDelay, stackOf, 0, NonError);
    assert o.trace[1..] == [];
  }

  /** Whatever the outcomes, the operation runs at most `maxRetries` times. */
  lemma RetryBounded<T>(op: nat -> Result<T, Error>, context: string, maxRetries: int, initialDelay: int,
                        stackOf: Error -> string)
    ensures Invocations(Retry(op, context, maxRetries, initialDelay, stackOf, 0, NonError).trace) <= Max(maxRetries, 0)
  {
    if maxRetries <= 0 {
      RetryNoAttempts(op, context, maxRetries, initialDelay, stackOf);
    } else if exists k :: 0 <= k < maxRetries && op(k).Ok? {
      var k := FirstOk(op, maxRetries);
      RetrySucceedsAt(op, context, maxRetries, initialDelay, stackOf, k);
    } else {
      RetryExhausted(op, context, maxRetries, initialDelay, stackOf);
    }
  }

  /** The first successful attempt below `bound`, when there is one. */
  lemma FirstOk<T>(op: nat -> Result<T, Error>, bound: int) returns (k: nat)
    requires exists k :: 0 <= k < bound && op(k).Ok?
    ensures k < bound && op(k).Ok? && forall j :: 0 <= j < k ==> op(j).Err?
  {
    var m :| 0 <= m < bound && op(m).Ok?;
    k := 0;
    while !op(k).Ok?
      invariant k <= m && forall j :: 0 <= j < k ==> op(j).Err?
      decreases m - k
    {
      k := k + 1;
    }
  }

  // ---------------------------------------------------------------- validateResponse

  /** `validateResponse(response, context)`: the error it throws, if any. */
  function ValidateResponse<P>(reply: Reply<P>, context: string): (r: Option<Error>)
    ensures r.None? <==> reply.Ok()
    ensures r.Some? ==> r.value.AppApiError? && r.value.statusCode == Some(reply.status) && r.value.details.None?
    ensures r.Some? ==> r.value.message == context + " failed with status " + IntStr(reply.status)
  {
    if reply.Ok() then None
    else Some(AppApiError(context + " failed with status " + IntStr(reply.status), Some(reply.status), None))
  }
}
