/**
 * `fetch` as the composables and the relay see it: either the promise
 * rejects (a network failure) or a response arrives with a status, a status
 * text and a body that `response.json()` either parses or rejects.
 */
module Http {
  import opened Js

  datatype Response<B> = Response(status: int, statusText: string, json: Result<B, Exn>)

  /** `response.ok`: a status in the range 200-299. */
  predicate Ok(status: int) {
    200 <= status <= 299
  }

  /** What `await fetch(...)` yields. */
  datatype Fetch<B> = NetworkFailure(reason: Exn) | Responded(response: Response<B>)

  /** The response arrived with an ok status. */
  predicate Succeeded<B>(f: Fetch<B>) {
    f.Responded? && Ok(f.response.status)
  }
}
