/** Optional values, the error kinds the services raise, and the result of a
    service call. */
module Outcomes {

  datatype Option<T> = None | Some(value: T) {
    /** The value, or `default` when there is none. */
    function GetOr(default: T): T {
      if Some? then value else default
    }
  }

  /** The exceptions the services throw, by HTTP status: NotFound 404,
      Forbidden 403, Conflict 409, BadRequest 400, and Internal 500 for a
      database write that finds no row to update or a missing pet. */
  datatype Error = NotFound | Forbidden | Conflict | BadRequest | Internal

  /** What a service call returns, or the error it throws. A thrown error
      rolls the surrounding transaction back. */
  datatype Result<T> = Success(value: T) | Failure(error: Error)

  function Max(a: int, b: int): int {
    if a >= b then a else b
  }

  function Min(a: int, b: int): int {
    if a <= b then a else b
  }
}
