/** Option and the outcome of a Python call that may raise. */
module Wrappers {

  datatype Option<+T> = None | Some(value: T)

  /** The Python exceptions the modelled code can let escape. */
  datatype Exception = TypeError | AttributeError | IndexError

  /** What a Python call does: it returns a value or raises an exception. */
  datatype Outcome<+T> = Ok(value: T) | Raised(exception: Exception)

  /** Python truthiness of an optional string: None and "" are false. */
  predicate Truthy(s: Option<string>) {
    s.Some? && s.value != ""
  }
}
