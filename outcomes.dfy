/** Outcomes of the operations that call the remote service.
    The source raises Python exceptions; the model returns them as values. */
module Outcomes {

  datatype Option<+T> = None | Some(value: T)

  /** The exception the source would raise, by kind. */
  datatype Failure =
    | MissingResponse    // the client logged an HTTP error and returned None, which the caller then subscripts
    | IndexError         // a list index past the end, or pop from an empty list
    | UnboundResult      // `return res` with no branch having assigned `res`
    | RecursionLimit     // the interpreter's recursion budget ran out

  datatype Result<+T> = Ok(value: T) | Err(error: Failure)
}
