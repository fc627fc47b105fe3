/** Optional values: JavaScript's `undefined`/`null` results (a failed `find`,
    a missing request field, `getNextStatus` returning null). */
module Wrappers {

  datatype Option<+T> = None | Some(value: T) {

    /** The value, or `default` when there is none. */
    function GetOr(default: T): T {
      match this
      case Some(v) => v
      case None => default
    }
  }
}
