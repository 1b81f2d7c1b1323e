/** Small failure-carrying datatypes shared by every module of the model. */
module Wrappers {

  /** A Python value that may be `None` (or a dictionary key that is absent). */
  datatype Option<+T> = None | Some(value: T) {
    /** `d.get(key, default)`: the value when present, the default otherwise. */
    function GetOr(default: T): T {
      match this
      case Some(v) => v
      case None => default
    }
  }

  /** What a Python call did: it returned a value, or it raised an exception
      whose `str(e)` is `message`. Collaborators that may raise return this. */
  datatype Outcome<+T> = Returned(value: T) | Raised(message: string)
}
