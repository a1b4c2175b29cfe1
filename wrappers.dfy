/** Optional values and the outcome of one call to the remote API. */
module Wrappers {

  /** A value that may be absent (`undefined` or `null` in the original program). */
  datatype Option<T> = None | Some(value: T) {

    /** `x ?? fallback`: the value when present, the fallback otherwise. */
    function GetOr(fallback: T): T {
      match this
      case Some(v) => v
      case None => fallback
    }
  }

  /** What a failed asynchronous call threw: an `Error` object carries a message, any other value does not. */
  datatype Thrown = ErrorObject(message: string) | OtherValue

  /** The result of one awaited API call: the decoded response, or what it threw. */
  datatype Outcome<T> = Ok(value: T) | Err(thrown: Thrown)

  /** `error instanceof Error ? error.message : fallback`, the text every store keeps in `error`. */
  function ErrorMessage(thrown: Thrown, fallback: string): (r: string)
    ensures thrown.ErrorObject? ==> r == thrown.message
    ensures thrown.OtherValue? ==> r == fallback
  {
    match thrown
    case ErrorObject(message) => message
    case OtherValue => fallback
  }
}
