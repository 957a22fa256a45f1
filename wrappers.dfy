/** Failure-compatible wrappers and the errors a frame operation can raise. */
module Wrappers {

  datatype Option<+T> = None | Some(value: T)

  datatype Result<+T, +E> = Ok(value: T) | Err(error: E) {
    predicate IsFailure() { Err? }

    function PropagateFailure<U>(): Result<U, E>
      requires Err?
    {
      Err(error)
    }

    function Extract(): T
      requires Ok?
    {
      value
    }
  }

  /** The exceptions the modelled code raises, one constructor per raise site. */
  datatype FrameError =
    | MissingDimensions   // ValueError: neither full geometry nor a filterbank file
    | UnsetTimeAxis       // AttributeError: the filterbank branch reads `ts` before it exists
    | NegativeDimensions  // ValueError from allocating a grid with a negative side
    | ZeroStep            // ZeroDivisionError from an axis range with step 0
    | EmptyTimeAxis       // IndexError: time integration reads the last time sample
    | ZeroSamples         // ZeroDivisionError: time integration with zero sub-samples
}
