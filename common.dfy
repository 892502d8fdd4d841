/** Small value types shared by every page model. */
module Common {

  /** A value that may be missing (`undefined`/`null` in the client). */
  datatype Option<+T> = None | Some(value: T) {
    function GetOr(default: T): T {
      match this
      case Some(v) => v
      case None => default
    }
  }

  /** The outcome of a check: a value, or the message shown instead. */
  datatype Result<+R> = Ok(value: R) | Err(message: string)

  /**
   * What a handler's guards decide before any request: return silently
   * (`Skip`), show a message and stop (`Refuse`), or send `request`.
   */
  datatype Guarded<+R> = Skip | Refuse(message: string) | Send(request: R)

  /**
   * What a `fetch` + `JSON.parse` round trip gave back, as seen by a handler:
   * the request threw (`NetworkError`), a body that is not JSON arrived
   * (`NotJson`), or a JSON envelope `{ success, message?, <payload>? }`
   * arrived. Both answers carry the HTTP status `status` and `ok` (that is,
   * `response.ok`). A missing or empty `message` is "".
   */
  datatype Reply<+T> =
    | NetworkError(error: string)
    | NotJson(ok: bool, status: int, text: string)
    | Json(ok: bool, status: int, success: bool, message: string, payload: Option<T>)
  {
    /** `response.ok && data?.success`: the check every mutating handler makes. */
    predicate Succeeded() {
      Json? && ok && success
    }

    /** `data?.success && data?.<payload>`: the check the dashboards make (`response.ok` is not consulted). */
    predicate Carries() {
      Json? && success && payload.Some?
    }

    /** `data?.message || fallback` */
    function MessageOr(fallback: string): string {
      if Json? && message != "" then message else fallback
    }
  }

  /** JavaScript truthiness of an optional number: `undefined`, `null` and 0 are falsy. */
  predicate Truthy(n: Option<int>) {
    n.Some? && n.value != 0
  }

  /** `x || 0` for an optional count. */
  function OrZero(n: Option<int>): int {
    if n.Some? then n.value else 0
  }

  /** `s || null` (or `s || undefined`) on a form string: the empty string, the only falsy one, is absent. */
  function NonEmpty(s: string): (r: Option<string>)
    ensures r.None? <==> s == ""
    ensures r.Some? ==> r.value == s
  {
    if s == "" then None else Some(s)
  }
}
