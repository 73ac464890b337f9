/** Values shared by the three state machines: a nullable value and the
    outcome of one awaited request to the game service. */
module Fetch {

  /** A value that may be absent (`null` or `undefined` in the client). */
  datatype Option<+T> = None | Some(value: T)

  /** How one awaited service call settled: the promise resolved with a
      value, or it rejected. The rejection reason is only logged by the
      client, so it is not carried. */
  datatype Outcome<+T> = Success(value: T) | Failure
}
