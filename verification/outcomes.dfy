/**
 * Error plumbing shared by the whole model. The simulator reports failures
 * by throwing standard C++ exceptions (and the Python driver by raising);
 * the model returns them as values instead.
 */
module Outcomes {

  /** The exception classes the simulator throws, plus the driver's errors. */
  datatype Error =
    | InvalidArgument   // std::invalid_argument
    | OutOfRange        // std::out_of_range, from at() on a container
    | RuntimeError      // std::runtime_error
    | LogicError        // std::logic_error
    | ValueError        // Python ValueError (numpy shape checks)
    | AttributeError    // Python AttributeError: a numpy call on a plain float

  datatype Option<+T> = None | Some(value: T)

  /** The result of an operation that either yields a value or throws. */
  datatype Result<+T> = Ok(value: T) | Err(error: Error)

  /** The result of an operation that yields nothing or throws. */
  datatype Outcome = Pass | Fail(error: Error)

  /** Size of the C++ `std::size_t` value space (64-bit platform). */
  const SIZE_T_RANGE: int := 0x1_0000_0000_0000_0000
}
