/**
 * An optional value.  Where a default is applied with `GetOr`, `None` means a
 * JavaScript value that was not supplied (`undefined`); elsewhere it is an
 * absent value, as each use documents.
 */
module Wrappers {

  datatype Option<+T> = None | Some(value: T) {

    /** The value, or `default` when not supplied, as a destructuring default or `defaultProps` gives for `undefined`. */
    function GetOr(default: T): T {
      match this
      case Some(v) => v
      case None => default
    }
  }
}
