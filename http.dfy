/** How the handlers turn a failed reply into the message they show. */
module Http {
  import opened Common
  import opened Text

  /**
   * The message of the error a handler throws and then shows for a reply
   * that did not succeed: a body that is not JSON gives "API did not return
   * JSON"; a JSON failure gives the server's message, or "`action` failed
   * (HTTP n)" without one; a request that threw gives its own message, or
   * `fallback` without one.
   */
  function FailureText<T>(reply: Reply<T>, action: string, fallback: string): string
    requires !reply.Succeeded()
  {
    match reply
    case NotJson(_, _, _) => "API did not return JSON"
    case Json(_, status, _, message, _) =>
      if message != "" then message else action + " failed (HTTP " + IntToString(status) + ")"
    case NetworkError(e) => if e != "" then e else fallback
  }
}
