/** Optional values and settled promises, shared by every module of the model. */
module Wrappers {
  /** A value that may be absent: JavaScript's `null`/`undefined` for a single slot. */
  datatype Option<T> = None | Some(value: T)

  /**
   * How an awaited service call settled: the value it resolved with, or a
   * rejection. The stores only branch on success or failure, so the rejection
   * carries no payload here (the error-body shapes live in ErrorUtils).
   */
  datatype Outcome<T> = Ok(value: T) | Failed

  /** `a ?? b` for an option. */
  function OrElse<T>(o: Option<T>, d: T): T
  {
    if o.Some? then o.value else d
  }
}
