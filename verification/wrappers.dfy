/** Failure-compatible wrappers used throughout the engine model. */
module Wrappers {

  /** An optional value: `None` stands for a JavaScript `undefined` or `NaN`. */
  datatype Option<+T> = None | Some(value: T)

  /** A computation that either succeeds with a value or fails with an error. */
  datatype Result<+R, +E> = Success(value: R) | Failure(error: E) {

    predicate IsFailure() {
      Failure?
    }

    function PropagateFailure<U>(): Result<U, E>
      requires Failure?
    {
      Failure(error)
    }

    function Extract(): R
      requires Success?
    {
      value
    }
  }
}

/** The ways the engine can fail. Each one is a run-time failure of the source. */
module Errors {

  datatype EngineError =
      /** A recognised item type has no entry in the schedule (a TypeError in the source). */
    | MissingScheduleEntry(itemType: string)
      /** A fee the pricing rule needs is absent from the type's fee table (a NaN price in the source). */
    | MissingFee(itemType: string, feeName: string)
      /** `reduce` without a seed applied to an empty list (a TypeError in the source). */
    | EmptyReduce
}
