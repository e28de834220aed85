/** Failure-carrying wrappers shared by every module of the model. */
module Wrappers {

  /** A value that may be absent: an unset key of a Python dict, a missing field. */
  datatype Option<+T> = None | Some(value: T) {

    /** `d.get(key, default)`: the value when present, otherwise the default. */
    function GetOr(default: T): T {
      match this
      case Some(v) => v
      case None => default
    }
  }

  /** The outcome of a Python call that either returns a value or raises. */
  datatype Result<+T, +E> = Success(value: T) | Failure(error: E) {

    predicate IsFailure() {
      Failure?
    }

    function PropagateFailure<U>(): Result<U, E>
      requires Failure?
    {
      Failure(error)
    }

    function Extract(): T
      requires Success?
    {
      value
    }
  }
}

/** The exceptions the modelled Python code can raise, by kind. */
module Errors {

  datatype Error =
    | KeyError(key: string)        // `d[key]` on a dict without that key
    | IndexError                   // `xs[0]` on an empty list
    | AttributeError(name: string) // `.get` called on a value that is not a dict
    | TypeError                    // an ordering comparison between incomparable values
    | Raised(message: string)      // whatever an opaque collaborator (LLM, network, file) raised
    | GraphError(message: string)  // the executor's own failures: an unknown route, the step budget
}
