/** The code the aggregation core calls but does not contain, as functions:
    the expression parser's evaluators, table storage, the operators over
    event chunks, the two data aggregators and duration normalisation. */
module Environment {
  import opened Wrappers
  import opened TimePeriod
  import opened Expressions
  import opened Events
  import opened Executors
  import opened Conditions

  datatype Collaborators = Collaborators(
    /** The schema type of an attribute a query expression refers to. */
    attributeType: string -> AttrType,
    /** `AggregationExpressionVisitor.getReducedExpression()`: the part of the
        `on` condition that the persisted tables can evaluate. */
    reduce: Expr -> Expr,
    /** `Expression.Time.normalizeDuration`; `None` where it throws. */
    normalize: string -> Option<Duration>,
    /** The within evaluator's `Long[]{start, end}`; `None` for `null`. */
    startTimeEndTime: (Evaluator, Probe) -> Option<(int, int)>,
    /** A long-valued evaluator (the timestamp filters); `None` for `null`. */
    evalLong: (Evaluator, Probe) -> Option<int>,
    /** The `per` evaluator's value as a string; `None` for `null`. */
    evalString: (Evaluator, Probe) -> Option<string>,
    /** `Table.find`; `None` for `null`. */
    tableFind: (Table, CompiledCondition, Probe) -> Option<seq<StreamEvent>>,
    /** Whether an operator's condition accepts one candidate row. */
    matches: (CompiledCondition, Probe, StreamEvent) -> bool,
    /** `IncrementalDataAggregator.aggregateInMemoryData`, given the durations,
        the `per` duration, the oldest open-bucket start and the executors. */
    aggregateInMemory: (seq<Duration>, Duration, int, map<Duration, IncrementalExecutor>) -> seq<StreamEvent>,
    /** `IncrementalExternalTimestampDataAggregator.aggregateData`, built with
        the processing executors and group-by key generator of a duration. */
    aggregateByTimestamp: (Duration, seq<StreamEvent>) -> seq<StreamEvent>,
    /** `IncrementalExecutor.execute(chunk)` on the executor of a duration:
        the new state of every executor it reaches, its own and, through
        rollover, the coarser executors it forwards closed buckets to. */
    execute: (Duration, map<Duration, IncrementalExecutor>, seq<StreamEvent>) -> map<Duration, IncrementalExecutor>,
    /** `RecreateInMemoryData.recreateInMemoryData()`: what restoring the open
        buckets from the persisted tables makes of the executor of a duration. */
    recreate: (Duration, IncrementalExecutor) -> IncrementalExecutor
  )
}
