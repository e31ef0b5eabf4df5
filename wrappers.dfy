/** The optional value used for JavaScript's `null`/`undefined`. */
module Wrappers {

  datatype Option<+T> = None | Some(value: T)

  /** The value held, or `default` when there is none (JavaScript's `??`). */
  function Or<T>(o: Option<T>, default: T): T
  {
    if o.Some? then o.value else default
  }
}
