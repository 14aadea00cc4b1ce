/** The errors compilation and retrieval report, and the exception class the
    source throws for each. */
module Errors {
  import opened TimePeriod
  import opened Expressions

  datatype Error =
      /** No `per` clause. */
    | MissingPer
      /** The `per` expression does not yield a string. */
    | PerNotString(found: AttrType)
      /** A constant `per` that names no duration. */
    | InvalidPerConstant(value: string)
      /** No `within` clause. */
    | MissingWithin
      /** A lower-granularity table absent from the query's table map. */
    | TableNotFound(name: string)
      /** The within evaluator yielded `null`. */
    | WithinUnresolved
      /** The `per` evaluator yielded `null`. */
    | NullPer
      /** The plan has no complex-event populater (it was never set). */
    | PopulaterUnset
      /** A `per` value that names no duration. */
    | InvalidPer(value: string)
      /** A duration the aggregation is not configured with. */
    | GranularityNotConfigured(duration: Duration, aggregation: string)

  datatype ErrorKind = CreationError | ValidationError | RuntimeError | NullPointer

  /** `SiddhiAppCreationException`, `SiddhiAppValidationException`,
      `SiddhiAppRuntimeException`, or the `NullPointerException` the source
      runs into when it dereferences a missing value. */
  function Kind(e: Error): ErrorKind {
    match e
    case MissingPer => CreationError
    case PerNotString(_) => CreationError
    case InvalidPerConstant(_) => ValidationError
    case MissingWithin => CreationError
    case TableNotFound(_) => NullPointer
    case WithinUnresolved => RuntimeError
    case NullPer => NullPointer
    case PopulaterUnset => NullPointer
    case InvalidPer(_) => RuntimeError
    case GranularityNotConfigured(_, _) => RuntimeError
  }
}
