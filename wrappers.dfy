/** Option and Result, and the exceptions the bench software raises, as values. */
module Wrappers {

  datatype Option<+T> = None | Some(value: T)

  /** The Python exception classes the modelled code raises or lets escape. */
  datatype Error =
    | NotImplemented            // NotImplementedError for an unsupported density or shape
    | ValueError(msg: string)   // driver-level argument and error-queue failures
    | RuntimeError(msg: string) // a test script that exited with a non-zero code, or a bad HVTerminal in a driver's constructor
    | KeyError(key: string)     // a missing dictionary key
    | IndexError                // indexing an empty list or a too-short string
    | TypeError                 // indexing a string as if it were a record
    | AttributeError            // reading an attribute that was never assigned
    | NameError(name: string)   // an undefined identifier
    | ZeroDivision              // division or modulo by zero
    | FileNotFound(path: string)
    | UnboundLocal(name: string)
    | AssertionError            // a failed `assert`

  datatype Result<+T> = Ok(value: T) | Err(error: Error) {
    predicate IsFailure() { Err? }
    function PropagateFailure<U>(): Result<U>
      requires Err?
    {
      Err(error)
    }
    function Extract(): T
      requires Ok?
    {
      value
    }
  }
}
