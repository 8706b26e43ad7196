/** Small value wrappers shared by every component. */
module Base {

  /** JavaScript's `undefined`/`null` for a value that may be missing. */
  datatype Option<T> = None | Some(value: T) {
    function GetOr(default: T): T {
      match this
      case Some(v) => v
      case None => default
    }
  }

  /** `!!userId` for the session's user id: a missing id and the empty id are both falsy,
      so the handlers that start with `if (!userId) return;` go on only for a non-empty id. */
  predicate SignedIn(userId: Option<string>) {
    userId.Some? && userId.value != ""
  }

  /** The result of one call to the hosted data store, as seen by the caller:
      either it succeeded or it returned an error object carrying a message. */
  datatype Outcome = Ok | Failed(message: string)

  /** The result of a query: the rows it returned, or its error message. */
  datatype Fetch<T> = Rows(rows: seq<T>) | FetchError(message: string)

  /** The result of an insert that returns the stored row: the row, or the error message. */
  datatype Written<T> = Written(value: T) | WriteFailed(message: string)
}
