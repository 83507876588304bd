/** Failure-compatible values shared by every module of the model. */
module Wrappers {

  datatype Option<+T> = None | Some(value: T)

  /** The outcome of a synchronous call that may throw. */
  datatype Result<+T, +E> = Ok(value: T) | Err(error: E)
  {
    predicate IsFailure() { Err? }

    function PropagateFailure<U>(): Result<U, E>
      requires Err?
    {
      Err(error)
    }

    function Extract(): T
      requires Ok?
    {
      value
    }
  }

  /** An exception thrown by JavaScript code: the constructor name and the message. */
  datatype Exception = Exception(name: string, message: string)

  function Error(message: string): Exception { Exception("Error", message) }
  function TypeError(message: string): Exception { Exception("TypeError", message) }
  function DataError(message: string): Exception { Exception("DataError", message) }
  function NotFoundError(message: string): Exception { Exception("NotFoundError", message) }

  /**
   * The state of a deferred promise: it settles at most once, and every later
   * resolve or reject is ignored.
   */
  datatype Settlement<+T, +E> = Pending | Resolved(value: T) | Rejected(reason: E)
  {
    /** `deferred.resolve(v)`: only a pending promise changes. */
    function Resolve(v: T): (s: Settlement<T, E>)
      ensures Pending? ==> s == Resolved(v)
      ensures !Pending? ==> s == this
    {
      if Pending? then Resolved(v) else this
    }

    /** `deferred.reject(e)`: only a pending promise changes. */
    function Reject(e: E): (s: Settlement<T, E>)
      ensures Pending? ==> s == Rejected(e)
      ensures !Pending? ==> s == this
    {
      if Pending? then Rejected(e) else this
    }
  }

  /** The single-shot outcome of one request issued to the storage engine. */
  datatype Outcome<+T> = Success(result: T) | Failure(message: string)
}
