/** Optional values, the protocol's error codes, and results that propagate with `:-`. */
module Outcomes {

  datatype Option<+T> = None | Some(value: T) {
    function GetOr(default: T): T {
      if Some? then value else default
    }
  }

  /** The codes of `CoreError` that the modelled operations can return. */
  datatype CoreError =
    | MathOverflow
    | DivisionByZero
    | InvalidAmount
    | InvalidPrice
    | InvalidConfig
    | InsufficientCollateral
    | Unauthorized
    | PositionNotFound
    | PriceOutsideBand
    | OpenInterestExceeded
    | TooManyPositions
    | SelfTrade
    | DirectionMismatch
    | OrderExpired
    | OrderCancelled
    | OrderOverfilled
    | External(code: nat)  // anything another contract reports

  datatype Result<+T> = Ok(value: T) | Err(error: CoreError) {
    predicate IsFailure() {
      Err?
    }

    function PropagateFailure<U>(): Result<U>
      requires Err?
    {
      Err(error)
    }

    function Extract(): T
      requires Ok?
    {
      value
    }
  }
}
