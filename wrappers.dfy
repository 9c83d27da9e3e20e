/** Optional values and results shared by every module of the model. */
module Wrappers {

  /** Python's `None` versus a present value. */
  datatype Option<+T> = None | Some(value: T) {
    function GetOr(default: T): T {
      match this
      case Some(v) => v
      case None => default
    }
  }

  /** An exception raised by the source, by the name of its Python class. */
  datatype Exception =
    | KeyError(key: string)
    | AttributeError(name: string)
    | IndexError
    | ValueError(message: string)
    | UnboundLocalError(name: string)
    | TypeError(message: string)
    | HTTPError

  /** The value of a Python call that either returns or raises. */
  datatype Result<+T> = Ok(value: T) | Raised(exception: Exception) {
    /** Lets `var x :- call; ...` re-raise what `call` raised. */
    predicate IsFailure() {
      Raised?
    }

    function PropagateFailure<U>(): Result<U>
      requires Raised?
    {
      Raised(exception)
    }

    function Extract(): T
      requires Ok?
    {
      value
    }
  }
}
