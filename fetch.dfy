/**
 * What an awaited `fetch` call can come back with, seen from the caller.
 * A request either resolves to an HTTP response (whose `ok` flag the caller
 * may or may not consult) or rejects with an exception.
 */
module Fetch {
  import opened Wrappers

  datatype Outcome = Responded(ok: bool) | Threw

  /** `fetch` resolved and the status was 2xx. */
  predicate Succeeded(o: Outcome) {
    o.Responded? && o.ok
  }

  /** A resolved response whose JSON body carries an optional `data` member. */
  datatype Reply<T> = Reply(ok: bool, data: Option<T>)
}
