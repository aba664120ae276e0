/** Failure-carrying wrappers shared by every module of the model. The Python
    code reports errors by raising; here each raise becomes an `Err` value that
    names the exception the code raises. */
module Common {

  datatype Option<T> = None | Some(value: T)

  /** The exceptions the modelled code raises, plus `OutOfDraws` for a finite
      random stream that ends before a sampling loop that would run forever in
      the original (which draws from an unbounded generator) has finished. */
  datatype Error =
    | RuntimeError             // invalid TimeInterval (stop < start)
    | IntervalsDoNotOverlap
    | IntervalsNotContiguous
    | AssertionError
    | IndexError
    | KeyError
    | ValueError
    | NameError
    | AttributeError
    | NotImplementedError
    | ZeroDivisionError
    | TypeError
    | OutOfDraws

  datatype Result<T> = Ok(value: T) | Err(error: Error)
}
