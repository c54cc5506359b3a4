/** Optional values and results with an error message: JavaScript's `undefined`
    and thrown errors, as values. */
module Wrappers {

  /** A value that may be absent (`undefined` in the handler). */
  datatype Option<+T> = None | Some(value: T)
  {
    /** JavaScript's nullish coalescing `this ?? default`: the default replaces
        only an absent value. */
    function OrElse(default: T): (r: T)
      ensures Some? ==> r == value
      ensures None? ==> r == default
    {
      match this
      case Some(v) => v
      case None => default
    }
  }

  /** The outcome of a step that can fail with an error message. */
  datatype Result<+T> = Ok(value: T) | Err(message: string)
}
