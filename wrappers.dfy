/** Failure-carrying results shared by the whole model: Python's `None` and
    the exceptions the API raises (FastAPI `HTTPException`s with a status
    code, and plain `ValueError`s). */
module Wrappers {

  datatype Option<+T> = None | Some(value: T) {
    /** `x or default` for an optional value that is falsy only when absent. */
    function GetOr(default: T): T {
      match this
      case Some(v) => v
      case None => default
    }
  }

  /** The exceptions the core raises. */
  datatype Error =
    | Http(status: int)   // fastapi.HTTPException(status_code=status)
    | ValueError          // a Python ValueError

  datatype Result<+T> = Ok(value: T) | Err(error: Error) {
    predicate IsFailure() { Err? }

    function PropagateFailure<U>(): Result<U>
      requires Err?
    {
      Err(error)
    }

    function Extract(): T
      requires Ok?
    {
      value
    }
  }

  /** Python truthiness of an optional float: `None` and `0.0` are falsy. */
  predicate Truthy(x: Option<real>) {
    x.Some? && x.value != 0.0
  }

  /** Python truthiness of an optional string: `None` and `""` are falsy. */
  predicate NonEmpty(s: Option<string>) {
    s.Some? && s.value != ""
  }
}
