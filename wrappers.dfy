/** The optional value used for JSON fields that may be absent and for the
    input queue, whose `None` entry is the feeder's stop signal. */
module Wrappers {

  datatype Option<+T> = None | Some(value: T) {

    /** Python's `d.get(key, default)` once the lookup has produced an Option. */
    function GetOr(default: T): T {
      match this
      case Some(v) => v
      case None => default
    }
  }
}
