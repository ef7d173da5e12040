/** Small value wrappers shared by the store, the gateway and the handlers. */
module Wrappers {

  /** An optional value: the source's `T | undefined`. */
  datatype Option<+T> = None | Some(value: T) {

    /** The wrapped value, or `default` when absent (`x ?? default`). */
    function GetOr(default: T): T {
      match this
      case Some(v) => v
      case None => default
    }
  }

  /** One field of a parsed JSON request body, as a schema validator sees it:
      absent, present with the expected type, or present with some other type. */
  datatype Field<+T> = Missing | Given(value: T) | Malformed {

    /** Accepted by a schema that marks the field optional. */
    predicate OptionalOk() {
      !Malformed?
    }

    /** The field as an optional value, once it has been validated. */
    function ToOption(): Option<T> {
      match this
      case Given(v) => Some(v)
      case _ => None
    }
  }
}
