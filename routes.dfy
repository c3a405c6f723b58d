/**
 * What the API route handlers under app/api/tools/ share: the response a handler returns, how
 * its call to the Flask backend went, and the `catch` clause's view of a thrown value.
 *
 * Request fields are modelled as `Option`s: `None` for a field that is absent (`null` from
 * `formData.get`, `undefined` from a JSON body), `Some` otherwise; JavaScript's truthiness of a
 * string field is "present and not empty".
 */
module Routes {
  import opened Wrappers

  /** What a route sends back: a plain-text body, the backend's stream passed through with its
      `X-Session-ID` header, a JSON `{ error }` object, or a route-specific JSON value. */
  datatype Body<J> = Text(text: string) | Streamed(sessionId: string) | ErrorJson(error: string) | Json(value: J)

  datatype Response<J> = Response(status: nat, body: Body<J>)

  /** A value a handler's `catch` receives: an `Error` with its `name` and `message`, or a value
      that is not an `Error`. */
  datatype Thrown = ErrorObject(name: string, message: string) | NotAnError

  /** How the call to the backend went: a response that is not ok (its status and body text), an
      ok response carrying `T`, or a throw (a network failure, a client abort). */
  datatype Upstream<T> = Failed(status: nat, text: string) | Ok(value: T) | Threw(error: Thrown)

  /** `s || fallback` for a string `s`. */
  function OrElse(s: string, fallback: string): (r: string)
    ensures r == (if s == "" then fallback else s)
    ensures fallback != "" ==> r != ""
  {
    if s == "" then fallback else s
  }

  /** A field's truthiness: present and, for a string, not empty. */
  predicate Truthy(field: Option<string>) {
    field.Some? && field.value != ""
  }

  /** `error instanceof Error ? error.message : fallback` */
  function ThrownMessage(e: Thrown, fallback: string): (r: string)
    ensures e.ErrorObject? ==> r == e.message
    ensures e.NotAnError? ==> r == fallback
  {
    match e
    case ErrorObject(_, message) => message
    case NotAnError => fallback
  }

  /** `error instanceof Error && error.name === 'AbortError'` */
  predicate IsAbort(e: Thrown) {
    e.ErrorObject? && e.name == "AbortError"
  }
}
