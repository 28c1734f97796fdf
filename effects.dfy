/** The boundary to the outside world. A network call is an `Event` in a trace
    and its outcome comes from an oracle; `fetch` either rejects (`Failed`) or
    yields a `Reply`. Waits, progress callbacks and `addLogEntry` calls are
    events too, so each pipeline returns its result together with what it did,
    in order. */
module Effects {
  import opened Prelude
  import opened Errors
  import LogService
  import WooPayload

  datatype HttpMethod = Get | Post | Put

  datatype RequestBody =
    | NoBody
    | ProductJson(product: WooPayload.ProductData)
    | VariationJson(variation: WooPayload.VariationData)
    | CategoryJson(category: WooPayload.CategoryData)
    | StockJson(update: WooPayload.StockUpdate)
    /** An `application/x-www-form-urlencoded` body as its ordered name/value pairs. */
    | Form(fields: seq<(string, string)>)

  /** A request; `auth` is the value of the Authorization header. */
  datatype Request = Request(verb: HttpMethod, url: string, auth: string, body: RequestBody)

  datatype Event =
    | Call(request: Request)
    | Log(entry: LogService.LogEntry)
    | Sleep(ms: int)
    /** `onProgress(current, total, message, detail)`. */
    | Progress(current: int, total: int, message: string, detail: Option<string>)
    /** A caller-supplied operation is run (its own effects are not modelled). */
    | Invoke

  /** What `response.json()` gives: the expected payload, some other JSON value
      (an error object, with its `message` if any), or a parse failure with the
      SyntaxError message. */
  datatype Content<P> = Payload(value: P) | OtherJson(message: Option<string>) | NotJson(parseError: string)

  /** A response: status, status text, the raw text and the parsed content. */
  datatype Reply<P> = Reply(status: int, statusText: string, text: string, content: Content<P>) {
    /** `response.ok`: the status is in the 2xx range (section 15.3 of RFC 9110). */
    predicate Ok() {
      200 <= status <= 299
    }
  }

  datatype Fetched<P> = Replied(reply: Reply<P>) | Failed(error: Error)

  /** `response.json().catch(() => ({}))` kept as the `response` of an APIError. */
  function ErrorDataOf<P>(c: Content<P>): (d: ErrorData)
    ensures c.NotJson? <==> d == EmptyObject
  {
    match c
    case Payload(_) => OtherBody
    case OtherJson(m) => ErrorObject(m)
    case NotJson(_) => EmptyObject
  }

  /** `errorData.message` of a parsed error body, if it is a non-empty string. */
  function BodyMessage<P>(c: Content<P>): Option<string> {
    if c.OtherJson? && TruthyStr(c.message) then c.message else None
  }

  /** What an async pipeline ends with (its value, or what it throws) and the
      events it caused, in order. */
  datatype Traced<T> = Traced(result: Result<T, Error>, trace: seq<Event>)

  /** The events `events` happen first, then those of `o`. */
  function After<T>(events: seq<Event>, o: Traced<T>): Traced<T> {
    Traced(o.result, events + o.trace)
  }

  lemma AfterTwice<T>(a: seq<Event>, b: seq<Event>, o: Traced<T>)
    ensures After(a, After(b, o)) == After(a + b, o)
  {
    assert a + (b + o.trace) == (a + b) + o.trace;
  }

  /** How many calls a trace makes. */
  function Calls(trace: seq<Event>): (n: nat)
    ensures n <= |trace|
    decreases |trace|
  {
    if |trace| == 0 then 0 else (if trace[0].Call? then 1 else 0) + Calls(trace[1..])
  }

  /** The requests of a trace, in order. */
  function Requests(trace: seq<Event>): (r: seq<Request>)
    ensures |r| == Calls(trace)
    decreases |trace|
  {
    if |trace| == 0 then [] else (if trace[0].Call? then [trace[0].request] else []) + Requests(trace[1..])
  }

  lemma {:induction false} RequestsAppend(a: seq<Event>, b: seq<Event>)
    ensures Requests(a + b) == Requests(a) + Requests(b)
    decreases |a|
  {
    if |a| == 0 {
      assert a + b == b;
    } else {
      assert (a + b)[0] == a[0] && (a + b)[1..] == a[1..] + b;
      RequestsAppend(a[1..], b);
    }
  }

  /** The `current` value of each progress report of a trace, in order. */
  function Progresses(trace: seq<Event>): (r: seq<int>)
    ensures |r| <= |trace|
    decreases |trace|
  {
    if |trace| == 0 then [] else (if trace[0].Progress? then [trace[0].current] else []) + Progresses(trace[1..])
  }

  lemma {:induction false} ProgressesAppend(a: seq<Event>, b: seq<Event>)
    ensures Progresses(a + b) == Progresses(a) + Progresses(b)
    decreases |a|
  {
    if |a| == 0 {
      assert a + b == b;
    } else {
      assert (a + b)[0] == a[0] && (a + b)[1..] == a[1..] + b;
      ProgressesAppend(a[1..], b);
    }
  }

  /** The total time a trace waits. */
  function Waited(trace: seq<Event>): int
    decreases |trace|
  {
    if |trace| == 0 then 0 else (if trace[0].Sleep? then trace[0].ms else 0) + Waited(trace[1..])
  }

  function Logs(trace: seq<Event>): (r: seq<LogService.LogEntry>)
    ensures |r| <= |trace|
    decreases |trace|
  {
    if |trace| == 0 then [] else (if trace[0].Log? then [trace[0].entry] else []) + Logs(trace[1..])
  }

  lemma {:induction false} CallsAppend(a: seq<Event>, b: seq<Event>)
    ensures Calls(a + b) == Calls(a) + Calls(b)
    decreases |a|
  {
    if |a| == 0 {
      assert a + b == b;
    } else {
      assert (a + b)[0] == a[0] && (a + b)[1..] == a[1..] + b;
      CallsAppend(a[1..], b);
    }
  }

  lemma {:induction false} LogsAppend(a: seq<Event>, b: seq<Event>)
    ensures Logs(a + b) == Logs(a) + Logs(b)
    decreases |a|
  {
    if |a| == 0 {
      assert a + b == b;
    } else {
      assert (a + b)[0] == a[0] && (a + b)[1..] == a[1..] + b;
      LogsAppend(a[1..], b);
    }
  }

  lemma {:induction false} WaitedAppend(a: seq<Event>, b: seq<Event>)
    ensures Waited(a + b) == Waited(a) + Waited(b)
    decreases |a|
  {
    if |a| == 0 {
      assert a + b == b;
    } else {
      assert (a + b)[0] == a[0] && (a + b)[1..] == a[1..] + b;
      WaitedAppend(a[1..], b);
    }
  }
}
