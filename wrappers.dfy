/** Failure values of the task generator.
    The Python source signals failure by raising; each exception class it
    raises or lets through becomes one constructor of `Error`, and an
    operation that can raise returns a `Result`. */
module Wrappers {

  /** The exception classes that reach the generator's callers. */
  datatype Error =
    | IndexError      // a pool or strategy ran out of material, or an empty list was indexed
    | ValueError      // an invalid argument: unknown similarity axis, too many attributes
    | AssertionError  // a violated `assert` in the source
    | TypeError       // a missing (None) provenance field was used
    | RuntimeError    // `torch.stack` was given an empty list

  datatype Option<+T> = None | Some(value: T)

  datatype Result<+T> = Ok(value: T) | Err(error: Error)
}
