/** Option and Result, the two failure-carrying wrappers the model uses, and the field of a partial update. */
module Wrappers {

  datatype Option<+T> = None | Some(value: T) {
    function GetOr(default: T): T {
      match this
      case Some(v) => v
      case None => default
    }
  }

  datatype Result<+T, +E> = Ok(value: T) | Err(error: E)

  /** A nullable field of a partial update: left out of the request, or sent (possibly as null). */
  datatype Patch<+T> = Keep | Put(value: T) {
    function Patched(current: T): T {
      if Put? then value else current
    }
  }
}
