/** The executors the planner creates or is handed: expression evaluators
    built by the expression parser, the incremental executors that hold the
    open buckets, and the stateful output executors of the aggregation's
    `select` clause. */
module Executors {
  import opened TimePeriod
  import opened Expressions
  import opened Events

  /** An expression executor, described by what it was parsed from. */
  datatype Evaluator =
    | ExpressionEvaluator(expr: Expr)
      /** `incrementalAggregator:startTimeEndTime(...)` over the `within` range. */
    | StartTimeEndTime(range: seq<Expr>)
      /** `incrementalAggregator:getAggregationStartTime(currentTimeMillis(), duration)`. */
    | AggregationStartTime(duration: Duration)

  /** What the retrieval path reads of an `IncrementalExecutor`: the start of
      its oldest open bucket (-1 when no bucket is open) and whether it has
      been switched to processing incoming events. */
  datatype IncrementalExecutor = IncrementalExecutor(aggregationStartTimestamp: int, processingExecutor: bool)

  /** An output expression executor. What it yields for an event may depend
      on every event it executed before (running computations), so it keeps
      that history; a RESET event clears such state. */
  class OutputExecutor {
    const evaluate: (seq<StreamEvent>, StreamEvent) -> Value
    var history: seq<StreamEvent>

    constructor (evaluate: (seq<StreamEvent>, StreamEvent) -> Value)
      ensures this.evaluate == evaluate && history == []
    {
      this.evaluate := evaluate;
      history := [];
    }

    /** `ExpressionExecutor.execute(event)`. */
    method Execute(e: StreamEvent) returns (v: Value)
      modifies this
      ensures v == evaluate(old(history), e)
      ensures history == old(history) + [e]
    {
      v := evaluate(history, e);
      history := history + [e];
    }
  }
}
