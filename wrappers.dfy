/** Optional values and the exceptions the modelled code raises. */
module Wrappers {

  datatype Option<+T> = None | Some(value: T) {
    function GetOr(default: T): T {
      match this
      case Some(v) => v
      case None => default
    }
  }

  /** The Python exceptions that the modelled operations can raise. */
  datatype Error =
    | KeyError(key: string)        // `del d[key]` or `d[key]` on a missing key
    | IndexError                   // `xs[-1]` or `xs[i]` outside the list
    | AttributeError(what: string) // a method called on None or on a value of the wrong type
    | ValueError(message: string)  // an explicit `raise ValueError`
    | TypeError(what: string)      // a library call given None

  datatype Result<+T> = Ok(value: T) | Err(error: Error)
}
