/** Small vocabulary shared by every module of the lifecycle model. */
module Common {

  /** A field that a request body or a stored document may leave out. */
  datatype Option<+T> = None | Some(value: T) {

    /** The value when present, otherwise the given default (a schema `default`). */
    function GetOr(default: T): T {
      match this
      case Some(v) => v
      case None => default
    }
  }

  /** Identity of a stored document: an opaque token the store assigns on insertion. */
  type Id = string

  /** A point in time. The clock is never read by the model: callers pass `now`. */
  type Time = int
}
