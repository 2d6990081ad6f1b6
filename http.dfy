/** What the route handlers have in common: a JSON response with a status,
    and the one upstream call a handler may make, whose outcome is an input
    of the model rather than an effect. */
module Http {
  import opened Common

  /** `{ error: message }` or the handler's own JSON value. */
  datatype Body<D> = Error(message: string) | Json(value: D)

  datatype Response<D> = Response(status: int, body: Body<D>)

  /** How the upstream `fetch` ended: a response with a status and a body
      that `response.json()` may or may not parse (`None`), or a thrown
      network error. */
  datatype Upstream<D> = Responded(status: int, json: Option<D>) | NetworkError

  /** `response.ok`. */
  predicate Ok(status: int) {
    200 <= status <= 299
  }

  /** A handler run: the URL it fetched, if it got that far, and its answer. */
  datatype Exchange<R> = Exchange(sent: Option<string>, response: Response<R>)

  /** `/^[a-zA-Z0-9]+$/` on one character. */
  predicate IsAlnum(c: char) {
    ('a' <= c <= 'z') || ('A' <= c <= 'Z') || ('0' <= c <= '9')
  }

  /** `/^[a-zA-Z0-9]+$/.test(s)`. */
  predicate AlnumOnly(s: string) {
    |s| > 0 && forall i :: 0 <= i < |s| ==> IsAlnum(s[i])
  }
}
