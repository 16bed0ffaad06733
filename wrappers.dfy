/** The optional value used for inputs that may be absent: a request-body field that was
    not sent, a comments file that is missing or cannot be parsed, an id that parses to NaN. */
module Wrappers {

  datatype Option<+T> = None | Some(value: T) {

    /** The wrapped value, or `default` when there is none. */
    function GetOr(default: T): T {
      match this
      case Some(v) => v
      case None => default
    }
  }
}
