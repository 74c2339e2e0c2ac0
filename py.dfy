/** Python runtime notions shared by the asset-sync script and the detector labelling. */
module Py {

  datatype Option<+T> = None | Some(value: T)

  /** The exceptions the modelled code can raise. */
  datatype PyError =
    | AttributeError                 // a method looked up on a value of the wrong type (`5 .lower()`, `"x".get(k)`)
    | TypeError                      // iterating a non-iterable, or ordering keys Python cannot compare
    | RuntimeError                   // `bool()` of a tensor that does not hold exactly one value
    | SystemExit(message: string)    // `raise SystemExit(...)`
    | UnboundLocalError(name: string)  // a local read before its first assignment

  /** The outcome of a Python call: a returned value or a raised exception. */
  datatype Result<+T> = Ok(value: T) | Err(error: PyError) {
    predicate IsFailure() { Err? }
    function PropagateFailure<U>(): Result<U> requires Err? { Err(error) }
    function Extract(): T requires Ok? { value }
  }
}
