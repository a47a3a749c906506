/** Option and Result values, and the Python exceptions the core can raise. */
module Outcomes {

  datatype Option<+T> = None | Some(value: T)

  /** The exceptions that escape the modelled code, by Python class. */
  datatype Fault =
    | KeyError       // a dictionary lookup of a missing language or gender
    | IndexError     // a negative list index past the front of a split token
    | ValueError     // a keyboard row that does not unpack as a 1-tuple
    | ProviderError  // the voice-listing provider call raised

  datatype Result<+T> = Ok(value: T) | Err(fault: Fault)
}
