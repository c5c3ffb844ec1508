/** The usual optional-value datatype, used for rules that may be absent,
    callbacks a visitor may leave out and resolvers that may yield nothing. */
module Wrappers {

  datatype Option<+T> = None | Some(value: T) {

    /** The wrapped value, or `default` when there is none (JavaScript's `??`). */
    function GetOr(default: T): T {
      match this
      case Some(v) => v
      case None => default
    }
  }
}
