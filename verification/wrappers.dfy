/** Failure-compatible result types and the error taxonomy of the pricer.
    Every Python exception the modelled constructors can raise becomes an
    `Err` carrying the exception class and, for `ValueError`, which check
    raised it, so that "the first failing check decides the error" can be
    stated exactly. */
module Wrappers {

  /** An optional value: Python's `None` versus a supplied argument. */
  datatype Option<+T> = None | Some(value: T)

  /** Which validation raised a `ValueError`. */
  datatype Cause =
    | BothStepSpecs          // Calendar: both dt and n_steps supplied
    | MissingStepSpec        // Calendar: neither supplied
    | NonPositivePaths       // SimulationConfig: n_paths <= 0
    | SeedNotInteger         // SimulationConfig: seed neither None nor int
    | NegativeDimensions     // numpy: a negative size passed to the normal sampler
    | SeedOutOfRange         // numpy: a seed value outside [0, 2**32 - 1]
    | EmptySeed              // numpy: an empty seed sequence
    | NonPositiveSpot        // UnderlyingParams
    | NegativeVol            // UnderlyingParams
    | RateOutOfRange         // UnderlyingParams
    | DivOutOfRange          // UnderlyingParams
    | EmptyPortfolio         // PortfolioParams
    | StartNotBeforeEnd      // Option
    | NonPositiveStrike      // Option
    | UnknownOptionType      // Option (Vanilla_V1)
    | UnknownStrikeMethod    // Option (Vanilla_V1)
    | SymbolTooLong          // Underlying
    | WrongIsinLength        // Underlying
    | UnknownInstrumentType  // Underlying
    | UnknownExchange        // Underlying
    | MissingCalendarOrDates // Barrier_Feature
    | EmptyArgument          // builtin min() of an empty sequence
    | NotInList              // builtin list.index of an absent element
    | BroadcastMismatch      // numpy: operands with incompatible shapes

  /** The Python exception classes the modelled code can raise. */
  datatype Error =
    | ValueError(cause: Cause)
    | ZeroDivisionError
    | IndexError
    | TypeError

  /** Either a constructed value or the exception raised while building it. */
  datatype Result<+T> = Ok(value: T) | Err(error: Error) {

    predicate IsFailure() {
      Err?
    }

    function PropagateFailure<U>(): Result<U>
      requires Err?
    {
      Err(error)
    }

    function Extract(): T
      requires Ok?
    {
      value
    }
  }
}
