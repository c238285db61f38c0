/// Option and Result types for the Python and C++ code's "no value" and
/// exception paths.
module Wrappers {

  datatype Option<+T> = None | Some(value: T)

  /// The exceptions the modelled Python code can raise.
  datatype PyError =
    | ZeroDivisionError   // float division by zero
    | KeyError            // dictionary lookup of a missing key
    | ValueError          // int() of a malformed string, unpacking an empty zip
    | AttributeError      // reading an attribute that was never set

  datatype Result<+T> = Ok(value: T) | Err(error: PyError)
}
