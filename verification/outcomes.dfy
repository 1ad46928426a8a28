/** Failure-carrying wrappers shared by the accessor model.

    A remote call either delivers its parsed body (`Ok`) or fails (`Err`);
    the failure is opaque to the accessor layer, which only relays it or
    swallows it.  `Option` stands for TypeScript's `T | null`.
 */
module Outcomes {

  /** Stands for `T | null`. */
  datatype Option<+T> = None | Some(value: T)

  /** The opaque reason a request did not complete (network error, non-2xx
      status, ...).  The accessors never inspect it. */
  datatype Failure = Failure(reason: string)

  /** The settled state of one awaited request: fulfilled with a body, or
      rejected with a failure. */
  datatype Outcome<+T> = Ok(value: T) | Err(error: Failure)

  /** `result` relays `response`: the same body when it succeeded, the very
      same failure when it did not. */
  predicate Relays<T(==)>(response: Outcome<T>, result: Outcome<T>) {
    match response
    case Ok(v) => result == Ok(v)
    case Err(e) => result == Err(e)
  }
}
