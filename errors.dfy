/** The values the application throws. JavaScript code catches them and asks
    `instanceof Error` / `instanceof APIError` and reads `message`, `name` and
    `status`; those are the only parts modelled. The project has two unrelated
    `APIError` classes: one in src/services/api/woocommerce/types.ts:36-45 (with
    `status` and `response`) and one in src/utils/errorHandling.ts:3-12 (with
    `statusCode` and `details`). */
module Errors {
  import opened Prelude

  /** A parsed error body as `fetchWithRetry` stores it: `{}` when the body is
      not JSON, otherwise the error object's `message` if it has one. */
  datatype ErrorData = NoData | EmptyObject | ErrorObject(message: Option<string>) | OtherBody

  datatype Error =
    /** `Error`, `TypeError`, `SyntaxError`, an `AbortError` DOMException, ... */
    | JsError(name: string, message: string)
    /** src/services/api/woocommerce/types.ts `APIError(message, status?, response?)`. */
    | WooApiError(message: string, status: Option<int>, response: ErrorData)
    /** src/utils/errorHandling.ts `APIError(message, statusCode?, details?)`;
        `details` is kept as its `JSON.stringify` rendering. */
    | AppApiError(message: string, statusCode: Option<int>, details: Option<string>)
    /** A thrown value that is not an `Error` (a string, `undefined`, ...). */
    | NonError
  {
    /** `value instanceof Error`. */
    predicate IsError() {
      !NonError?
    }

    function Name(): string
      requires IsError()
    {
      match this
      case JsError(n, _) => n
      case WooApiError(_, _, _) => "APIError"
      case AppApiError(_, _, _) => "APIError"
    }

    function Message(): string
      requires IsError()
    {
      match this
      case JsError(_, m) => m
      case WooApiError(m, _, _) => m
      case AppApiError(m, _, _) => m
    }
  }

  /** `new Error(message)`. */
  function PlainError(message: string): (e: Error)
    ensures e.IsError() && e.Name() == "Error" && e.Message() == message
  {
    JsError("Error", message)
  }

  /** The common `error instanceof Error ? error.message : fallback`. */
  function MessageOr(e: Error, fallback: string): (m: string)
    ensures e.IsError() ==> m == e.Message()
    ensures !e.IsError() ==> m == fallback
  {
    if e.IsError() then e.Message() else fallback
  }

  /** The TypeError a property read on `undefined` raises, with the wording of
      V8 ("Cannot read properties of undefined (reading 'x')"). */
  function UndefinedRead(property: string): (e: Error)
    ensures e.IsError() && e.Name() == "TypeError"
  {
    JsError("TypeError", "Cannot read properties of undefined (reading '" + property + "')")
  }
}
