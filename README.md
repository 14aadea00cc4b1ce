# Incremental aggregation retrieval, modelled in Dafny

This project models the retrieval side of Siddhi's incremental (multi-granularity)
aggregation. An aggregation keeps one open bucket per configured duration
(SECONDS … YEARS) in its incremental executors. Each duration also has a
persisted table of closed buckets. A join or store query against the
aggregation uses two pieces of code, both modelled here:

- **Plan construction** (`AggregationRuntime.compileExpression`). It adds the
  attributes `_START`, `_END` and, for a distributed deployment, one
  `_AGG_TIMESTAMP_FILTER_i` per finer duration. It checks the `per` and `within`
  clauses and builds the half-open window condition `_START <= ts < _END`. It
  compiles one condition per persisted table and, when distributed, one
  condition per lower-granularity shard table plus its timestamp-filter
  evaluator. The result is an `IncrementalAggregateCompileCondition`.
- **Retrieval** (`IncrementalAggregateCompileCondition.find` and
  `cloneCompilation`). It fills the timestamp-filter slots of the matching event
  and resolves `per`. It reads the persisted rows of that granularity. It finds
  the oldest open bucket by walking down the ladder, and augments the rows with
  in-memory data (or, when distributed, with the finer shard tables) when the
  window reaches into unflushed data. It re-aggregates by event timestamp where
  that applies, projects each row through the output executors, resets them,
  and applies the `on` condition.

`AggregationRuntime` is a class. Its mutable state is the executor map, the
first-event flag and the skip-snapshot thread-local, with a ghost log of every
write to the thread-local. The matching state event is a class whose slot
array `find` updates in place. The output executors are objects whose value
may depend on every event they executed before. The compiled plan is an
immutable datatype.

Everything the core calls but does not contain is a function-typed field of
`Environment.Collaborators`: the expression parser's evaluators, `Table.find`,
the per-row test of an operator, the two data aggregators, `normalizeDuration`,
the reduced-expression visitor, `RecreateInMemoryData` and
`IncrementalExecutor.execute`. The last takes the receiving duration and the
executor map, and gives the new state of every executor the batch reaches,
rollover into coarser executors included. The plan holds its complex-event
populater as an optional function: it is set after compilation and absent
until then.
Compiled conditions are values that record their table, their condition and
the keys they were cloned under.

Modules: `Wrappers`, `TimePeriod`, `Expressions`, `Events`, `Executors`,
`Conditions`, `Environment`, `Errors`, `AggregateCompileCondition` (the plan
and retrieval) and `Aggregation` (the runtime).

Two behaviours of the code are easy to misread as one-time or as no-ops:

- The rebuild in `find` is not one-time. `AggregationRuntime.java:207-209`
  calls `recreateInMemoryData(false)` on every `find` of a non-distributed
  aggregation until the first event arrives, and
  `Aggregation.AggregationRuntime.Find` states exactly that.
- `recreateInMemoryData(false)` leaves the flag and the processing mark alone,
  but it still always runs the collaborator that restores the open buckets
  (`AggregationRuntime.java:442-444`). The executor map after it is
  `Recreated(old map, env.recreate)`, not the old map.

## Model

| member | source | states |
|---|---|---|
| TimePeriod.Ordinal | modules/siddhi-core/src/main/java/org/wso2/siddhi/core/util/collection/operator/IncrementalAggregateCompileCondition.java:302-303 | the ordinal is below 6 and `Duration.values()[ordinal]` gives the duration back |
| TimePeriod.IndexOf | modules/siddhi-core/src/main/java/org/wso2/siddhi/core/util/collection/operator/IncrementalAggregateCompileCondition.java:198 | `indexOf` is -1 exactly when the duration is absent; otherwise it is the first index holding the duration |
| TimePeriod.FinerAreListedBefore | modules/siddhi-core/src/main/java/org/wso2/siddhi/core/util/collection/operator/IncrementalAggregateCompileCondition.java:198-204 | in a ladder ordered fine to coarse, the indices below `indexOf(per)` are exactly the strictly finer configured durations |
| Expressions.NatToStringInjective | modules/siddhi-core/src/main/java/org/wso2/siddhi/core/aggregation/AggregationRuntime.java:243 | different indices print as different decimal strings |
| Aggregation.FilterAttributeNameInjective | modules/siddhi-core/src/main/java/org/wso2/siddhi/core/aggregation/AggregationRuntime.java:243 | `"_AGG_TIMESTAMP_FILTER_" + i` names a different attribute for every `i` |
| Aggregation.AdditionalAttributes | modules/siddhi-core/src/main/java/org/wso2/siddhi/core/aggregation/AggregationRuntime.java:231-247 | `_START` then `_END`, both LONG, then, only when distributed, exactly n-1 LONG filter attributes numbered 0..n-2 in order; otherwise length 2 |
| Aggregation.AdditionalAttributeNamesDistinct | modules/siddhi-core/src/main/java/org/wso2/siddhi/core/aggregation/AggregationRuntime.java:231-247 | no two added attributes share a name |
| Expressions.ReturnType | modules/siddhi-core/src/main/java/org/wso2/siddhi/core/aggregation/AggregationRuntime.java:278 | a string constant is STRING, a long constant LONG, and a comparison or conjunction BOOL; an attribute has its schema type, which is what the `per` check tests |
| Aggregation.TimeRange | modules/siddhi-core/src/main/java/org/wso2/siddhi/core/aggregation/AggregationRuntime.java:321-327 | a one-bound `within` passes its single pattern to `startTimeEndTime`, a two-bound one its start and end, in that order |
| Aggregation.WithinExpression | modules/siddhi-core/src/main/java/org/wso2/siddhi/core/aggregation/AggregationRuntime.java:309-315 | no contract of its own: `WithinExpressionHolds` states the half-open window it accepts |
| Aggregation.WithinTableExpression | modules/siddhi-core/src/main/java/org/wso2/siddhi/core/aggregation/AggregationRuntime.java:361 | no contract of its own: `WithinTableExpressionHolds` states that it is the window and the reduced condition |
| Aggregation.LowerGranularityExpression | modules/siddhi-core/src/main/java/org/wso2/siddhi/core/aggregation/AggregationRuntime.java:384-400 | no contract of its own: `LowerGranularityExpressionHolds` states the shard filter, window and reduced condition it accepts |
| Aggregation.TableName | modules/siddhi-core/src/main/java/org/wso2/siddhi/core/aggregation/AggregationRuntime.java:403 | the table of a duration is named by the aggregation id, then `_`, then the duration's name |
| Aggregation.TableNameInjective | modules/siddhi-core/src/main/java/org/wso2/siddhi/core/aggregation/AggregationRuntime.java:403 | two durations of one aggregation never share a table name |
| Aggregation.WithinExpressionHolds | modules/siddhi-core/src/main/java/org/wso2/siddhi/core/aggregation/AggregationRuntime.java:302-315 | the within condition holds iff `_START <= ts < _END`, with `ts` being `AGG_EVENT_TIMESTAMP` on external time and `AGG_TIMESTAMP` otherwise |
| Aggregation.WithinTableExpressionHolds | modules/siddhi-core/src/main/java/org/wso2/siddhi/core/aggregation/AggregationRuntime.java:360-361 | the table condition holds iff the row is in the window and the reduced `on` condition holds |
| Aggregation.LowerGranularityExpressionHolds | modules/siddhi-core/src/main/java/org/wso2/siddhi/core/aggregation/AggregationRuntime.java:383-400 | a shard condition holds iff `AGG_TIMESTAMP >= _AGG_TIMESTAMP_FILTER_i`, the window holds (external time only) and the reduced condition holds |
| Aggregation.TimestampFilterEvaluators | modules/siddhi-core/src/main/java/org/wso2/siddhi/core/aggregation/AggregationRuntime.java:336-348 | n-1 evaluators when distributed, none otherwise; evaluator `i` is `getAggregationStartTime` for duration `i+1` |
| Aggregation.WithinTableConditions | modules/siddhi-core/src/main/java/org/wso2/siddhi/core/aggregation/AggregationRuntime.java:363-368 | one condition per aggregate table, with exactly the table map's keys, each compiled by its own table from the within-table condition |
| Aggregation.LowerGranularityConditionsAt | modules/siddhi-core/src/main/java/org/wso2/siddhi/core/aggregation/AggregationRuntime.java:379-409 | with distinct durations, duration `i < n-1` maps to the condition its own table `<id>_<DURATION>` compiled for position `i`, and no later put overwrites it |
| Aggregation.LowerGranularityConditionsStep | modules/siddhi-core/src/main/java/org/wso2/siddhi/core/aggregation/AggregationRuntime.java:402-407 | one more `put` of duration `k`'s condition extends the map of the first `k` durations to the map of the first `k+1` |
| Aggregation.FirstMissingTableStops | modules/siddhi-core/src/main/java/org/wso2/siddhi/core/aggregation/AggregationRuntime.java:403-404 | the first duration whose table is missing names the failure, and then no complete plan exists |
| Aggregation.LowerGranularityConditionFiltersAt | modules/siddhi-core/src/main/java/org/wso2/siddhi/core/aggregation/AggregationRuntime.java:383-407 | the shard condition of duration `i` is compiled by table `<id>_<DURATION>` from `AGG_TIMESTAMP >= filter_i` and the within-table or reduced condition |
| Aggregation.TimestampFiltersAligned | modules/siddhi-core/src/main/java/org/wso2/siddhi/core/aggregation/AggregationRuntime.java:336-407 | in a distributed plan, timestamp filter `i` is the bucket start of duration `i+1`; it fills attribute `i+2`, which is the one shard `i`'s condition compares `AGG_TIMESTAMP` with |
| Aggregation.ExpectedPlan | modules/siddhi-core/src/main/java/org/wso2/siddhi/core/aggregation/AggregationRuntime.java:422-426 | the plan has one table condition per aggregate table, shard conditions for every duration but the coarsest exactly when distributed, two more added attributes than timestamp filters, operator conditions for in-memory data and `on`, and no populater yet |
| Aggregation.ExpectedPlanFits | modules/siddhi-core/src/main/java/org/wso2/siddhi/core/aggregation/AggregationRuntime.java:422-426 | a compiled plan fits the executor and table maps of its own aggregation: every per-table condition and, when distributed, every shard condition retrieval looks up is present |
| Aggregation.Recreated | modules/siddhi-core/src/main/java/org/wso2/siddhi/core/aggregation/AggregationRuntime.java:442-444 | restoring from the tables keeps the executor map's keys and restores each executor |
| Aggregation.MarkedProcessing | modules/siddhi-core/src/main/java/org/wso2/siddhi/core/aggregation/AggregationRuntime.java:437-440 | every executor is marked processing, keeping its keys and open-bucket starts |
| Aggregation.AggregationRuntime.DefineAdditionalAttributes | modules/siddhi-core/src/main/java/org/wso2/siddhi/core/aggregation/AggregationRuntime.java:231-247 | the appending loop builds `AdditionalAttributes`; the name list holds filter names 0..n-2 when distributed |
| Aggregation.AggregationRuntime.CreateTimestampFilterExecutors | modules/siddhi-core/src/main/java/org/wso2/siddhi/core/aggregation/AggregationRuntime.java:336-348 | the loop builds `TimestampFilterEvaluators` |
| Aggregation.AggregationRuntime.CompileWithinTableConditions | modules/siddhi-core/src/main/java/org/wso2/siddhi/core/aggregation/AggregationRuntime.java:363-368 | the loop over the table map, in any order, builds `WithinTableConditions` |
| Aggregation.AggregationRuntime.CompileLowerGranularityCondition | modules/siddhi-core/src/main/java/org/wso2/siddhi/core/aggregation/AggregationRuntime.java:384-406 | succeeds iff table `<id>_<DURATION>` exists and then yields its condition; otherwise fails naming that table |
| Aggregation.AggregationRuntime.CompileLowerGranularityConditions | modules/siddhi-core/src/main/java/org/wso2/siddhi/core/aggregation/AggregationRuntime.java:379-409 | succeeds iff every shard table exists, and then yields the full shard map; otherwise fails with the first missing table |
| Aggregation.AggregationRuntime.BuildPlan | modules/siddhi-core/src/main/java/org/wso2/siddhi/core/aggregation/AggregationRuntime.java:302-426 | succeeds iff the shard tables exist (distributed only) and then yields the expected plan; otherwise fails with the first missing table |
| Aggregation.AggregationRuntime.CompileExpression | modules/siddhi-core/src/main/java/org/wso2/siddhi/core/aggregation/AggregationRuntime.java:222-427 | fails for a missing `per`, a non-STRING `per`, an invalid constant `per` and a missing `within`, in that order, and never with a runtime error; succeeds iff all pass and the shard tables exist; on success the plan is the expected plan |
| Aggregation.AggregationRuntime.RecreateInMemoryData | modules/siddhi-core/src/main/java/org/wso2/siddhi/core/aggregation/AggregationRuntime.java:433-445 | `true` sets the flag and marks every executor processing, and `false` leaves both alone; in both cases the buckets are then restored and the thread-local is untouched |
| Aggregation.Executed | modules/siddhi-core/src/main/java/org/wso2/siddhi/core/aggregation/AggregationRuntime.java:448 | the executors a batch reaches take their new state, all others keep theirs, and the map keeps its keys |
| Aggregation.AggregationRuntime.ProcessEvents | modules/siddhi-core/src/main/java/org/wso2/siddhi/core/aggregation/AggregationRuntime.java:447-449 | the batch is handed to the executor of the finest duration; every executor it reaches, coarser ones by rollover included, takes its new state; the map keeps its durations; the flag and the thread-local do not change |
| Aggregation.AggregationRuntime.constructor | modules/siddhi-core/src/main/java/org/wso2/siddhi/core/aggregation/AggregationRuntime.java:90-125 | a runtime over a well-formed ladder, with one table and one executor per duration and distinct output executors, holds the given state, keeps its invariant, and starts with no event arrived and the thread-local unset |
| Aggregation.AggregationRuntime.BeginFind | modules/siddhi-core/src/main/java/org/wso2/siddhi/core/aggregation/AggregationRuntime.java:201-209 | sets the thread-local to true and rebuilds exactly when not distributed and no event has arrived, leaving the flag unchanged |
| Aggregation.AggregationRuntime.EndFind | modules/siddhi-core/src/main/java/org/wso2/siddhi/core/aggregation/AggregationRuntime.java:214-219 | clears the thread-local to null |
| Aggregation.AggregationRuntime.Find | modules/siddhi-core/src/main/java/org/wso2/siddhi/core/aggregation/AggregationRuntime.java:199-220 | on every outcome, error results included, the thread-local is written true, then null; the rebuild happens only when not distributed and no event has arrived; the retrieval is the plan's `Retrieved` |
| Conditions.Clone | modules/siddhi-core/src/main/java/org/wso2/siddhi/core/util/collection/operator/IncrementalAggregateCompileCondition.java:111 | a clone is a different value over the same table and condition |
| Conditions.OperatorFind | modules/siddhi-core/src/main/java/org/wso2/siddhi/core/util/collection/operator/IncrementalAggregateCompileCondition.java:226-227 | the result is never longer than the chunk; a one-row chunk gives that row when the condition accepts it and nothing otherwise |
| Conditions.OperatorFindAppend | modules/siddhi-core/src/main/java/org/wso2/siddhi/core/util/collection/operator/IncrementalAggregateCompileCondition.java:226-227 | finding over two chunks joined is finding over each, joined in the same order |
| Conditions.OperatorFindCounts | modules/siddhi-core/src/main/java/org/wso2/siddhi/core/util/collection/operator/IncrementalAggregateCompileCondition.java:226-227 | each accepted row occurs as often as in the chunk, and a rejected row not at all |
| Conditions.OperatorFindMembers | modules/siddhi-core/src/main/java/org/wso2/siddhi/core/util/collection/operator/IncrementalAggregateCompileCondition.java:259-260 | a row is in the result exactly when it is in the chunk and the condition accepts it |
| Events.FreshEvent | modules/siddhi-core/src/main/java/org/wso2/siddhi/core/util/collection/operator/IncrementalAggregateCompileCondition.java:142 | a new event with `size` empty attributes |
| Events.OrEmpty | modules/siddhi-core/src/main/java/org/wso2/siddhi/core/util/collection/operator/IncrementalAggregateCompileCondition.java:183-185 | a `null` lookup result adds no rows to the chunk |
| Executors.OutputExecutor.Execute | modules/siddhi-core/src/main/java/org/wso2/siddhi/core/util/collection/operator/IncrementalAggregateCompileCondition.java:275 | yields the executor's value after its earlier events, and records the event |
| AggregateCompileCondition.CloneConditions | modules/siddhi-core/src/main/java/org/wso2/siddhi/core/util/collection/operator/IncrementalAggregateCompileCondition.java:109-118 | the copied map has the same keys, each value replaced by its clone |
| AggregateCompileCondition.CloneCompilation | modules/siddhi-core/src/main/java/org/wso2/siddhi/core/util/collection/operator/IncrementalAggregateCompileCondition.java:108-125 | both condition maps are cloned key for key; the in-memory and `on` conditions are cloned; the clone has no populater, as the constructor never sets one; every other field is shared unchanged |
| AggregateCompileCondition.CloneFits | modules/siddhi-core/src/main/java/org/wso2/siddhi/core/util/collection/operator/IncrementalAggregateCompileCondition.java:108-125 | a clone fits every executor and table map its original fits, and each of its table, in-memory and `on` conditions is a distinct copy over the same condition |
| AggregateCompileCondition.TimestampFilters | modules/siddhi-core/src/main/java/org/wso2/siddhi/core/util/collection/operator/IncrementalAggregateCompileCondition.java:139-157 | length `filters + 2`; slot 0 the start, slot 1 the end; slots 2.. the filter values in order when distributed, `null` otherwise |
| AggregateCompileCondition.FillTimestampFilters | modules/siddhi-core/src/main/java/org/wso2/siddhi/core/util/collection/operator/IncrementalAggregateCompileCondition.java:139-157 | filling the `Long[]` in place yields `TimestampFilters` |
| AggregateCompileCondition.WithMatchingSlot | modules/siddhi-core/src/main/java/org/wso2/siddhi/core/util/collection/operator/IncrementalAggregateCompileCondition.java:141-144 | an absent slot 0 becomes a fresh event of the filter size; a present one is kept |
| AggregateCompileCondition.ResolvePer | modules/siddhi-core/src/main/java/org/wso2/siddhi/core/util/collection/operator/IncrementalAggregateCompileCondition.java:163-179 | succeeds iff the value normalises to a configured duration; a non-duration and an unconfigured duration each give their runtime error, and the latter names the duration and the aggregation |
| AggregateCompileCondition.OldestInMemoryEventTimestamp | modules/siddhi-core/src/main/java/org/wso2/siddhi/core/util/collection/operator/IncrementalAggregateCompileCondition.java:297-313 | -1 iff no scanned configured executor has an open bucket; otherwise the start of the first open bucket scanning downward |
| AggregateCompileCondition.GetOldestInMemoryEventTimestamp | modules/siddhi-core/src/main/java/org/wso2/siddhi/core/util/collection/operator/IncrementalAggregateCompileCondition.java:297-313 | the descending loop with early return computes `OldestInMemoryEventTimestamp` from `per` down to the finest duration |
| AggregateCompileCondition.RequiresAggregatingInMemoryData | modules/siddhi-core/src/main/java/org/wso2/siddhi/core/util/collection/operator/IncrementalAggregateCompileCondition.java:289-295 | false when there is no open bucket; otherwise exactly `end > oldest` |
| AggregateCompileCondition.AugmentationMeansOpenBucketInWindow | modules/siddhi-core/src/main/java/org/wso2/siddhi/core/util/collection/operator/IncrementalAggregateCompileCondition.java:188-196 | when in-memory data is required, some scanned executor has an open bucket starting before the window's end |
| AggregateCompileCondition.LowerGranularityKeys | modules/siddhi-core/src/main/java/org/wso2/siddhi/core/util/collection/operator/IncrementalAggregateCompileCondition.java:200-204 | the lookups cover exactly the durations at indices below `indexOf(per)` |
| AggregateCompileCondition.LowerGranularityRows | modules/siddhi-core/src/main/java/org/wso2/siddhi/core/util/collection/operator/IncrementalAggregateCompileCondition.java:205-212 | no contract of its own: `LowerGranularityRowsMembers` and `LowerGranularityRowsOrderIndependent` state what it collects |
| AggregateCompileCondition.LowerGranularityRowsMembers | modules/siddhi-core/src/main/java/org/wso2/siddhi/core/util/collection/operator/IncrementalAggregateCompileCondition.java:205-212 | a row is collected exactly when some walked duration's shard lookup returns it |
| AggregateCompileCondition.LowerGranularityRowsOrderIndependent | modules/siddhi-core/src/main/java/org/wso2/siddhi/core/util/collection/operator/IncrementalAggregateCompileCondition.java:205-212 | every walk order of the lookup hash map finds the same multiset of rows |
| AggregateCompileCondition.QueryLowerGranularities | modules/siddhi-core/src/main/java/org/wso2/siddhi/core/util/collection/operator/IncrementalAggregateCompileCondition.java:198-213 | the rows are the non-null results of one lookup per strictly finer duration, in some order of those durations |
| AggregateCompileCondition.Processed | modules/siddhi-core/src/main/java/org/wso2/siddhi/core/util/collection/operator/IncrementalAggregateCompileCondition.java:232-251 | re-aggregation by timestamp iff distributed or on external time; otherwise the merged rows pass unchanged |
| AggregateCompileCondition.SelectionRows | modules/siddhi-core/src/main/java/org/wso2/siddhi/core/util/collection/operator/IncrementalAggregateCompileCondition.java:270-280 | one CURRENT row per input row, in order, with the input's timestamp and each output executor's value |
| AggregateCompileCondition.AfterSelection | modules/siddhi-core/src/main/java/org/wso2/siddhi/core/util/collection/operator/IncrementalAggregateCompileCondition.java:282-284 | each output executor has run on every row and then on one RESET event |
| AggregateCompileCondition.ExecuteAll | modules/siddhi-core/src/main/java/org/wso2/siddhi/core/util/collection/operator/IncrementalAggregateCompileCondition.java:274-276 | each executor runs once on the row, in list order, yielding its value |
| AggregateCompileCondition.CreateAggregateSelectionEventChunk | modules/siddhi-core/src/main/java/org/wso2/siddhi/core/util/collection/operator/IncrementalAggregateCompileCondition.java:263-287 | the output is `SelectionRows` and the executors end in `AfterSelection` |
| AggregateCompileCondition.SetComplexEventPopulater | modules/siddhi-core/src/main/java/org/wso2/siddhi/core/util/collection/operator/IncrementalAggregateCompileCondition.java:315-317 | the plan then holds the given populater, and nothing else about it changes |
| AggregateCompileCondition.Populated | modules/siddhi-core/src/main/java/org/wso2/siddhi/core/util/collection/operator/IncrementalAggregateCompileCondition.java:159 | only slot 0 changes, populated with the timestamp filters by the plan's populater |
| AggregateCompileCondition.PopulateMatchingEvent | modules/siddhi-core/src/main/java/org/wso2/siddhi/core/util/collection/operator/IncrementalAggregateCompileCondition.java:139-159 | creates slot 0 when absent and evaluates the window; it populates slot 0 only when the window resolved and the plan has a populater |
| AggregateCompileCondition.RetrieveAt | modules/siddhi-core/src/main/java/org/wso2/siddhi/core/util/collection/operator/IncrementalAggregateCompileCondition.java:181-260 | persisted rows first, then the augmentation exactly when on external time or in-memory data is required (shards when distributed, the in-memory operator otherwise), then re-aggregation, projection and the `on` condition |
| AggregateCompileCondition.RetrievePopulated | modules/siddhi-core/src/main/java/org/wso2/siddhi/core/util/collection/operator/IncrementalAggregateCompileCondition.java:163-260 | an invalid `per` fails before any table is read and leaves the output executors untouched |
| AggregateCompileCondition.Find | modules/siddhi-core/src/main/java/org/wso2/siddhi/core/util/collection/operator/IncrementalAggregateCompileCondition.java:127-261 | a null window fails before any lookup, with slot 0 created but not populated; so does a plan without a populater, with a `NullPointer` error; otherwise the outcome is `Retrieved` |
| AggregateCompileCondition.RetrievalNeedsPopulater | modules/siddhi-core/src/main/java/org/wso2/siddhi/core/util/collection/operator/IncrementalAggregateCompileCondition.java:119-124 | a fitting plan without a populater, such as a fresh clone, fails every retrieval: with the null-window error when the window is null, otherwise with a null-pointer error; slot 0 is created but not populated and the output executors are untouched |

## Left out

- Latency and throughput trackers in `find` are left out: they are instrumentation.
- The `SnapshotService` thread-local is a field of the runtime (`skipSnapshotable`, plus a ghost log of its writes), not a per-thread value.
- Both the `synchronized` block in `recreateInMemoryData` and the concurrency between retrieval, ingestion and rehydration are left out; the model is sequential.
- The internals of `RecreateInMemoryData` are a collaborator (`env.recreate`), applied to every executor.
- Aggregation.AggregationRuntime.ProcessEvents: how far rollover propagates, and what an executor does with a batch, are the collaborator `env.execute`; the model does not constrain which coarser executors a batch reaches.
- AggregateCompileCondition.ExecuteAll, AggregateCompileCondition.CreateAggregateSelectionEventChunk, AggregateCompileCondition.Find and Aggregation.AggregationRuntime.Find require each output executor to be a distinct object: a list that repeats one executor object, which the source accepts, is not modelled.
- Setting the populater is the query parser's job after compilation, which is not part of this model; `SetComplexEventPopulater` models the setter itself.
- `startPurging` and `IncrementalDataPurging` are left out (their implementation is not part of this model).
- `ExpressionParser`, `OperatorParser`, `Table.compileCondition`, `Table.find` and `normalizeDuration` are uninterpreted collaborators. A compiled condition is the value it was compiled from, and the variable-position bookkeeping (`startEndExpressionExecutorList`) is left out.
- The meta-event and schema plumbing is left out: `createNewMetaStreamEventWithStartEnd`, `alterMetaInfoHolderForStoreQuery`, `createNewStreamTableMetaInfoHolder`, the table definition taken from the first table, `QueryParserHelper` and `alteredMatchingMetaInfoHolder`.
- Both `StreamEventPool` and `StreamEventCloner` are left out: object reuse has no observable effect on the rows produced.
- The internals of `IncrementalDataAggregator`, `IncrementalExternalTimestampDataAggregator` and `IncrementalExecutor` are collaborators. This covers the cloned base and processing executors, the group-by key generators and the `shouldUpdate` executor clones they receive.
- Bucket-start and calendar arithmetic (`getAggregationStartTime`, `startTimeEndTime`) is left out. The model keeps the evaluators as descriptions and their values as collaborator results.
- Evaluators and compiled conditions are values, so aliasing between a plan and its clone is not modelled. A clone shares the evaluators, as the source does.
- A `NullPointerException` the source runs into is an error value of kind `NullPointer`: a shard table missing from the query's table map (`TableNotFound`) and a `per` value that evaluates to `null` (`NullPer`).
- The order in which a `HashMap` is walked is an unspecified choice (`:|`). The properties hold for every order.
- A `within` clause is assumed to have one or two bounds (the `Within` datatype), as the source's comment at line 324 presumes.
- The RESET event's attribute payload is left out; only its type matters to the output executors.
- `Expr` values, including the reduced `on` expression, are kept as syntax. `Holds` interprets only comparisons of long-valued variables and conjunctions; everything else goes to a caller-supplied predicate.
