/** `AggregationRuntime`: compiles a join or store query against an
    incremental aggregation into a retrieval plan, runs retrievals with it,
    and owns the executor map that incoming events and recovery update. */
module Aggregation {
  import opened Wrappers
  import opened TimePeriod
  import opened Expressions
  import opened Events
  import opened Executors
  import opened Conditions
  import opened Environment
  import opened Errors
  import opened AggregateCompileCondition

  /** A `within` clause: one time pattern or a start and an end. */
  datatype Within = WithinPattern(pattern: Expr) | WithinRange(start: Expr, end: Expr)

  /** `Within.getTimeRange()`. */
  function TimeRange(w: Within): (r: seq<Expr>)
    ensures w.WithinPattern? ==> r == [w.pattern]
    ensures w.WithinRange? ==> r == [w.start, w.end]
  {
    match w
    case WithinPattern(p) => [p]
    case WithinRange(s, e) => [s, e]
  }

  const StartAttribute: string := "_START"
  const EndAttribute: string := "_END"
  const FilterAttributePrefix: string := "_AGG_TIMESTAMP_FILTER_"
  const AggTimestamp: string := "AGG_TIMESTAMP"
  const AggEventTimestamp: string := "AGG_EVENT_TIMESTAMP"

  /** The name of the `i`th timestamp-filter attribute. */
  function FilterAttributeName(i: nat): string {
    FilterAttributePrefix + NatToString(i)
  }

  /** The timestamp the window is applied to: the event time of each
      aggregate when processing on external time, else its bucket start. */
  function TimestampAttribute(processingOnExternalTime: bool): string {
    if processingOnExternalTime then AggEventTimestamp else AggTimestamp
  }

  /** The attributes appended to the matching event: `_START`, `_END` and, in
      distributed mode, one timestamp filter per granularity below the coarsest. */
  function AdditionalAttributes(isDistributed: bool, lowerGranularitySize: nat): (attrs: seq<Attribute>)
    ensures |attrs| == 2 + (if isDistributed then lowerGranularitySize else 0)
    ensures attrs[0] == Attribute(StartAttribute, LONG) && attrs[1] == Attribute(EndAttribute, LONG)
    ensures forall i :: 2 <= i < |attrs| ==> attrs[i] == Attribute(FilterAttributeName(i - 2), LONG)
  {
    [Attribute(StartAttribute, LONG), Attribute(EndAttribute, LONG)]
      + if isDistributed then seq(lowerGranularitySize, i requires 0 <= i => Attribute(FilterAttributeName(i), LONG)) else []
  }

  lemma FilterAttributeNameInjective(i: nat, j: nat)
    requires FilterAttributeName(i) == FilterAttributeName(j)
    ensures i == j
  {
    var n := |FilterAttributePrefix|;
    assert FilterAttributeName(i)[n..] == NatToString(i);
    assert FilterAttributeName(j)[n..] == NatToString(j);
    NatToStringInjective(i, j);
  }

  /** No two appended attributes share a name, so each can be addressed by
      name in the conditions that refer to it. */
  lemma AdditionalAttributeNamesDistinct(isDistributed: bool, lowerGranularitySize: nat)
    ensures var attrs := AdditionalAttributes(isDistributed, lowerGranularitySize);
      forall i, j :: 0 <= i < j < |attrs| ==> attrs[i].name != attrs[j].name
  {
    var attrs := AdditionalAttributes(isDistributed, lowerGranularitySize);
    forall i, j | 0 <= i < j < |attrs| ensures attrs[i].name != attrs[j].name {
      if j >= 2 {
        var fj := FilterAttributeName(j - 2);
        assert fj[1] == 'A';
        if i >= 2 {
          if attrs[i].name == attrs[j].name { FilterAttributeNameInjective(i - 2, j - 2); }
        } else {
          assert attrs[i].name[1] != 'A';
        }
      }
    }
  }

  /** The within condition `_START <= ts AND ts < _END`. */
  function WithinExpression(processingOnExternalTime: bool): Expr {
    var ts := Variable(TimestampAttribute(processingOnExternalTime));
    And(Compare(Variable(StartAttribute), LessThanEqual, ts), Compare(ts, LessThan, Variable(EndAttribute)))
  }

  /** The within condition accepts exactly the rows whose timestamp lies in
      the half-open window `[_START, _END)`. */
  lemma WithinExpressionHolds(processingOnExternalTime: bool, env: map<string, int>, other: Expr -> bool)
    requires StartAttribute in env && EndAttribute in env && TimestampAttribute(processingOnExternalTime) in env
    ensures var ts := TimestampAttribute(processingOnExternalTime);
      Holds(WithinExpression(processingOnExternalTime), env, other) <==> env[StartAttribute] <= env[ts] < env[EndAttribute]
  {
  }

  /** The condition the persisted tables are queried with: the window and the
      part of the `on` condition the tables can evaluate. */
  function WithinTableExpression(processingOnExternalTime: bool, reduced: Expr): Expr {
    And(WithinExpression(processingOnExternalTime), reduced)
  }

  lemma WithinTableExpressionHolds(processingOnExternalTime: bool, reduced: Expr, env: map<string, int>, other: Expr -> bool)
    requires StartAttribute in env && EndAttribute in env && TimestampAttribute(processingOnExternalTime) in env
    ensures var ts := TimestampAttribute(processingOnExternalTime);
      (Holds(WithinTableExpression(processingOnExternalTime, reduced), env, other) <==>
         env[StartAttribute] <= env[ts] < env[EndAttribute] && Holds(reduced, env, other))
  {
    WithinExpressionHolds(processingOnExternalTime, env, other);
  }

  /** The condition on the table of the `i`th (finer) granularity in a
      distributed deployment: only buckets at or after the `i`th timestamp
      filter, further restricted by the window when processing on external
      time and by the reduced `on` condition otherwise. */
  function LowerGranularityExpression(i: nat, processingOnExternalTime: bool, reduced: Expr): Expr {
    And(Compare(Variable(AggTimestamp), GreaterThanEqual, Variable(FilterAttributeName(i))),
        if processingOnExternalTime then WithinTableExpression(processingOnExternalTime, reduced) else reduced)
  }

  lemma LowerGranularityExpressionHolds(i: nat, processingOnExternalTime: bool, reduced: Expr,
                                        env: map<string, int>, other: Expr -> bool)
    requires AggTimestamp in env && FilterAttributeName(i) in env
    requires StartAttribute in env && EndAttribute in env && TimestampAttribute(processingOnExternalTime) in env
    ensures var ts := TimestampAttribute(processingOnExternalTime);
      (Holds(LowerGranularityExpression(i, processingOnExternalTime, reduced), env, other) <==>
         && env[AggTimestamp] >= env[FilterAttributeName(i)]
         && (processingOnExternalTime ==> env[StartAttribute] <= env[ts] < env[EndAttribute])
         && Holds(reduced, env, other))
  {
    WithinTableExpressionHolds(processingOnExternalTime, reduced, env, other);
  }

  /** The table holding the aggregates of `d`: `<aggregation id>_<DURATION>`. */
  function TableName(aggregationId: string, d: Duration): (r: string)
    ensures |r| == |aggregationId| + 1 + |Name(d)|
    ensures r[..|aggregationId|] == aggregationId && r[|aggregationId|] == '_'
    ensures r[|aggregationId| + 1..] == Name(d)
  {
    aggregationId + ("_" + Name(d))
  }

  /** Each duration of an aggregation is persisted in a table of its own. */
  lemma TableNameInjective(aggregationId: string, d: Duration, e: Duration)
    requires TableName(aggregationId, d) == TableName(aggregationId, e)
    ensures d == e
  {
    var n := |aggregationId| + 1;
    assert TableName(aggregationId, d)[n..] == Name(d);
    assert TableName(aggregationId, e)[n..] == Name(e);
  }

  /** The name of the table of the `i`th duration. */
  function LowerTableName(aggregationId: string, ds: seq<Duration>, i: nat): string
    requires i < |ds|
  {
    TableName(aggregationId, ds[i])
  }

  ghost predicate LowerTablesPresent(aggregationId: string, ds: seq<Duration>, tableMap: map<string, Table>, k: nat) {
    forall i :: 0 <= i < k && i < |ds| ==> LowerTableName(aggregationId, ds, i) in tableMap
  }

  /** `name` is the table of the first duration but the coarsest whose
      table is missing. */
  ghost predicate FirstMissingTable(aggregationId: string, ds: seq<Duration>, tableMap: map<string, Table>, name: string) {
    exists i :: 0 <= i < |ds| - 1 && name == LowerTableName(aggregationId, ds, i) && name !in tableMap
      && LowerTablesPresent(aggregationId, ds, tableMap, i)
  }

  /** What compiling the lower-granularity conditions yields: the conditions
      of all durations but the coarsest when every one of their tables
      exists, else the first missing table. */
  ghost predicate LowerGranularityOutcome(aggregationId: string, ds: seq<Duration>, tableMap: map<string, Table>,
                                          processingOnExternalTime: bool, reduced: Expr,
                                          r: Result<map<Duration, CompiledCondition>, Error>)
    requires |ds| >= 1
  {
    && (r.Success? <==> LowerTablesPresent(aggregationId, ds, tableMap, |ds| - 1))
    && (r.Success? ==> r.value == LowerGranularityConditions(aggregationId, ds, |ds| - 1, tableMap,
                                                             processingOnExternalTime, reduced))
    && (r.Failure? ==> r.error.TableNotFound? && FirstMissingTable(aggregationId, ds, tableMap, r.error.name))
  }

  /** The first missing table names the failure, and no plan is possible. */
  lemma FirstMissingTableStops(aggregationId: string, ds: seq<Duration>, tableMap: map<string, Table>, i: nat)
    requires i < |ds| - 1 && LowerTablesPresent(aggregationId, ds, tableMap, i)
    requires LowerTableName(aggregationId, ds, i) !in tableMap
    ensures FirstMissingTable(aggregationId, ds, tableMap, LowerTableName(aggregationId, ds, i))
    ensures !LowerTablesPresent(aggregationId, ds, tableMap, |ds| - 1)
  {
  }

  /** One condition per aggregate table, compiled by that table. */
  function WithinTableConditions(tables: map<Duration, Table>, condition: Expr): (m: map<Duration, CompiledCondition>)
    ensures m.Keys == tables.Keys
    ensures forall d :: d in m ==> m[d] == TableLookup(tables[d], condition, [])
  {
    map d | d in tables :: TableLookup(tables[d], condition, [])
  }

  ghost predicate DistinctPrefix(ds: seq<Duration>, k: nat) {
    forall a, b :: 0 <= a < b < k && b < |ds| ==> ds[a] != ds[b]
  }

  /** The condition the table of the `i`th duration compiles for it. */
  function LowerGranularityCondition(aggregationId: string, ds: seq<Duration>, i: nat, tableMap: map<string, Table>,
                                     processingOnExternalTime: bool, reduced: Expr): CompiledCondition
    requires i < |ds| && LowerTableName(aggregationId, ds, i) in tableMap
  {
    TableLookup(tableMap[LowerTableName(aggregationId, ds, i)], LowerGranularityExpression(i, processingOnExternalTime, reduced), [])
  }

  /** The map a loop builds by putting `values[i]` under `keys[i]`, in order;
      a later put under the same key replaces an earlier one. */
  function PutAll(keys: seq<Duration>, values: seq<CompiledCondition>): (m: map<Duration, CompiledCondition>)
    requires |keys| == |values|
    ensures m.Keys == Members(keys)
  {
    if keys == [] then map[]
    else PutAll(keys[..|keys| - 1], values[..|values| - 1])[keys[|keys| - 1] := values[|values| - 1]]
  }

  /** With distinct keys, every key maps to the value put under it. */
  lemma {:induction false} PutAllAt(keys: seq<Duration>, values: seq<CompiledCondition>, i: nat)
    requires |keys| == |values| && i < |keys|
    requires forall a, b :: 0 <= a < b < |keys| ==> keys[a] != keys[b]
    ensures keys[i] in PutAll(keys, values) && PutAll(keys, values)[keys[i]] == values[i]
  {
    var n := |keys| - 1;
    if i < n {
      PutAllAt(keys[..n], values[..n], i);
    }
  }

  /** The conditions compiled for the first `k` durations, in order. */
  function LowerGranularityConditionList(aggregationId: string, ds: seq<Duration>, k: nat, tableMap: map<string, Table>,
                                         processingOnExternalTime: bool, reduced: Expr): (cs: seq<CompiledCondition>)
    requires k <= |ds|
    requires LowerTablesPresent(aggregationId, ds, tableMap, k)
    ensures |cs| == k
    ensures forall i :: 0 <= i < k ==>
      cs[i] == LowerGranularityCondition(aggregationId, ds, i, tableMap, processingOnExternalTime, reduced)
  {
    seq(k, i requires 0 <= i < k => LowerGranularityCondition(aggregationId, ds, i, tableMap, processingOnExternalTime, reduced))
  }

  /** The lower-granularity conditions of the first `k` durations, each
      compiled by the table named after its duration. */
  function LowerGranularityConditions(aggregationId: string, ds: seq<Duration>, k: nat, tableMap: map<string, Table>,
                                      processingOnExternalTime: bool, reduced: Expr): (m: map<Duration, CompiledCondition>)
    requires k <= |ds|
    requires LowerTablesPresent(aggregationId, ds, tableMap, k)
    ensures m.Keys == Members(ds[..k])
  {
    PutAll(ds[..k], LowerGranularityConditionList(aggregationId, ds, k, tableMap, processingOnExternalTime, reduced))
  }

  /** With distinct durations, every one of the first `k` gets the condition
      compiled for its own position (no later entry overwrites it). */
  lemma LowerGranularityConditionsAt(aggregationId: string, ds: seq<Duration>, k: nat,
                                     tableMap: map<string, Table>, processingOnExternalTime: bool,
                                     reduced: Expr, i: nat)
    requires k <= |ds| && LowerTablesPresent(aggregationId, ds, tableMap, k)
    requires DistinctPrefix(ds, k) && i < k
    ensures ds[i] in LowerGranularityConditions(aggregationId, ds, k, tableMap, processingOnExternalTime, reduced)
    ensures LowerGranularityConditions(aggregationId, ds, k, tableMap, processingOnExternalTime, reduced)[ds[i]]
         == LowerGranularityCondition(aggregationId, ds, i, tableMap, processingOnExternalTime, reduced)
  {
    var cs := LowerGranularityConditionList(aggregationId, ds, k, tableMap, processingOnExternalTime, reduced);
    assert ds[..k][i] == ds[i];
    PutAllAt(ds[..k], cs, i);
  }

  /** One more put extends the built map by the next duration's condition. */
  lemma LowerGranularityConditionsStep(aggregationId: string, ds: seq<Duration>, k: nat,
                                       tableMap: map<string, Table>, processingOnExternalTime: bool, reduced: Expr,
                                       built: map<Duration, CompiledCondition>, condition: CompiledCondition)
    requires k < |ds| && LowerTablesPresent(aggregationId, ds, tableMap, k)
    requires LowerTableName(aggregationId, ds, k) in tableMap
    requires built == LowerGranularityConditions(aggregationId, ds, k, tableMap, processingOnExternalTime, reduced)
    requires condition == LowerGranularityCondition(aggregationId, ds, k, tableMap, processingOnExternalTime, reduced)
    ensures LowerTablesPresent(aggregationId, ds, tableMap, k + 1)
    ensures built[ds[k] := condition]
         == LowerGranularityConditions(aggregationId, ds, k + 1, tableMap, processingOnExternalTime, reduced)
  {
    assert LowerTablesPresent(aggregationId, ds, tableMap, k + 1);
    var next := LowerGranularityConditionList(aggregationId, ds, k + 1, tableMap, processingOnExternalTime, reduced);
    var cs := LowerGranularityConditionList(aggregationId, ds, k, tableMap, processingOnExternalTime, reduced);
    forall j | 0 <= j < k
      ensures next[j] == cs[j]
    {
    }
    assert next[..k] == cs;
    var keys := ds[..k + 1];
    assert keys[..k] == ds[..k] && keys[k] == ds[k];
    assert next[k] == condition;
    assert PutAll(keys, next) == PutAll(keys[..k], next[..k])[keys[k] := next[k]];
  }

  /** `getAggregationStartTime(currentTimeMillis(), d)` for each duration but
      the finest, in distributed mode only. */
  function TimestampFilterEvaluators(ds: seq<Duration>, isDistributed: bool): (es: seq<Evaluator>)
    requires |ds| >= 1
    ensures |es| == (if isDistributed then |ds| - 1 else 0)
    ensures forall i :: 0 <= i < |es| ==> es[i] == AggregationStartTime(ds[i + 1])
  {
    if isDistributed then seq(|ds| - 1, i requires 0 <= i < |ds| - 1 => AggregationStartTime(ds[i + 1])) else []
  }

  /** Whether `compileExpression` accepts the `per` clause. */
  ghost predicate PerAccepted(per: Option<Expr>, env: Collaborators) {
    && per.Some?
    && ReturnType(per.value, env.attributeType) == STRING
    && (per.value.StringConstant? ==> env.normalize(per.value.s).Some?)
  }

  /** The retrieval plan `compileExpression` builds. */
  function ExpectedPlan(aggregationId: string, ds: seq<Duration>, tables: map<Duration, Table>,
                        processingOnExternalTime: bool, isDistributed: bool,
                        expression: Expr, within: Within, per: Expr, tableMap: map<string, Table>, reduced: Expr)
    : (c: IncrementalAggregateCompileCondition)
    requires |ds| >= 1
    requires isDistributed ==> LowerTablesPresent(aggregationId, ds, tableMap, |ds| - 1)
    ensures c.withinTableCompiledConditions.Keys == tables.Keys
    ensures c.withinTableLowerGranularityCompileCondition.Keys == if isDistributed then Members(ds[..|ds| - 1]) else {}
    ensures |c.additionalAttributes| == |c.timestampFilterExecutors| + 2
    ensures c.inMemoryStoreCompileCondition.OperatorLookup? && c.onCompiledCondition.OperatorLookup?
    ensures c.complexEventPopulater.None?
  {
    IncrementalAggregateCompileCondition(
      WithinTableConditions(tables, WithinTableExpression(processingOnExternalTime, reduced)),
      OperatorLookup(WithinExpression(processingOnExternalTime), []),
      if isDistributed
        then LowerGranularityConditions(aggregationId, ds, |ds| - 1, tableMap, processingOnExternalTime, reduced)
        else map[],
      OperatorLookup(expression, []),
      AdditionalAttributes(isDistributed, |ds| - 1),
      ExpressionEvaluator(per),
      StartTimeEndTime(TimeRange(within)),
      TimestampFilterEvaluators(ds, isDistributed),
      processingOnExternalTime, ds, isDistributed, None)
  }

  /** A compiled plan fits the executor and table maps of the aggregation
      that compiled it. */
  lemma ExpectedPlanFits(aggregationId: string, ds: seq<Duration>, tables: map<Duration, Table>,
                         processingOnExternalTime: bool, isDistributed: bool,
                         expression: Expr, within: Within, per: Expr, tableMap: map<string, Table>, reduced: Expr,
                         executors: map<Duration, IncrementalExecutor>)
    requires WellFormedLadder(ds) && tables.Keys == Members(ds) && executors.Keys == Members(ds)
    requires isDistributed ==> LowerTablesPresent(aggregationId, ds, tableMap, |ds| - 1)
    ensures Fits(ExpectedPlan(aggregationId, ds, tables, processingOnExternalTime, isDistributed,
                              expression, within, per, tableMap, reduced), executors, tables)
  {
    if isDistributed {
      forall i | 0 <= i < |ds| - 1
        ensures ds[i] in Members(ds[..|ds| - 1])
      {
        assert ds[..|ds| - 1][i] == ds[i];
      }
    }
  }

  /** The condition on the `i`th granularity's table compares `AGG_TIMESTAMP`
      with the `i`th timestamp-filter attribute. */
  lemma LowerGranularityConditionFiltersAt(aggregationId: string, ds: seq<Duration>, tableMap: map<string, Table>,
                                           processingOnExternalTime: bool, reduced: Expr, i: nat)
    requires i < |ds| - 1 && DistinctPrefix(ds, |ds| - 1)
    requires LowerTablesPresent(aggregationId, ds, tableMap, |ds| - 1)
    ensures var lower := LowerGranularityConditions(aggregationId, ds, |ds| - 1, tableMap, processingOnExternalTime, reduced);
      && ds[i] in lower
      && lower[ds[i]]
           == TableLookup(tableMap[LowerTableName(aggregationId, ds, i)],
                          And(Compare(Variable(AggTimestamp), GreaterThanEqual, Variable(FilterAttributeName(i))),
                              if processingOnExternalTime then WithinTableExpression(true, reduced) else reduced),
                          [])
  {
    LowerGranularityConditionsAt(aggregationId, ds, |ds| - 1, tableMap, processingOnExternalTime, reduced, i);
    var lower := LowerGranularityConditions(aggregationId, ds, |ds| - 1, tableMap, processingOnExternalTime, reduced);
    var condition := LowerGranularityCondition(aggregationId, ds, i, tableMap, processingOnExternalTime, reduced);
    assert lower[ds[i]] == condition;
    assert condition.condition == LowerGranularityExpression(i, processingOnExternalTime, reduced);
  }

  /** In a distributed plan the `i`th timestamp filter is filled into the
      attribute that the condition on the `i`th granularity's table compares
      `AGG_TIMESTAMP` with, and it is computed for the next coarser duration:
      a finer table contributes only the buckets the coarser table has not
      absorbed yet. */
  lemma TimestampFiltersAligned(aggregationId: string, ds: seq<Duration>, tables: map<Duration, Table>,
                                processingOnExternalTime: bool,
                                expression: Expr, within: Within, per: Expr, tableMap: map<string, Table>, reduced: Expr,
                                i: nat)
    requires WellFormedLadder(ds) && i < |ds| - 1
    requires LowerTablesPresent(aggregationId, ds, tableMap, |ds| - 1)
    ensures var c := ExpectedPlan(aggregationId, ds, tables, processingOnExternalTime, true,
                                  expression, within, per, tableMap, reduced);
      && c.timestampFilterExecutors[i] == AggregationStartTime(ds[i + 1])
      && c.additionalAttributes[i + 2] == Attribute(FilterAttributeName(i), LONG)
      && ds[i] in c.withinTableLowerGranularityCompileCondition
      && c.withinTableLowerGranularityCompileCondition[ds[i]]
           == TableLookup(tableMap[LowerTableName(aggregationId, ds, i)],
                          And(Compare(Variable(AggTimestamp), GreaterThanEqual, Variable(c.additionalAttributes[i + 2].name)),
                              if processingOnExternalTime then WithinTableExpression(true, reduced) else reduced),
                          [])
  {
    assert DistinctPrefix(ds, |ds| - 1);
    LowerGranularityConditionFiltersAt(aggregationId, ds, tableMap, processingOnExternalTime, reduced, i);
  }


  /** The executor map after recovery restored each executor's buckets. */
  function Recreated(m: map<Duration, IncrementalExecutor>, recreate: (Duration, IncrementalExecutor) -> IncrementalExecutor)
    : (r: map<Duration, IncrementalExecutor>)
    ensures r.Keys == m.Keys
    ensures forall d :: d in m ==> r[d] == recreate(d, m[d])
  {
    map d | d in m :: recreate(d, m[d])
  }

  /** Every executor switched to processing incoming events. */
  function MarkedProcessing(m: map<Duration, IncrementalExecutor>): (r: map<Duration, IncrementalExecutor>)
    ensures r.Keys == m.Keys
    ensures forall d :: d in m ==> r[d].processingExecutor && r[d].aggregationStartTimestamp == m[d].aggregationStartTimestamp
  {
    map d | d in m :: m[d].(processingExecutor := true)
  }

  /** The executor map after the executors in `reached` took their new
      state; durations the map does not hold are ignored. */
  function Executed(m: map<Duration, IncrementalExecutor>, reached: map<Duration, IncrementalExecutor>)
    : (r: map<Duration, IncrementalExecutor>)
    ensures r.Keys == m.Keys
    ensures forall d :: d in m && d in reached ==> r[d] == reached[d]
    ensures forall d :: d in m && d !in reached ==> r[d] == m[d]
  {
    map d | d in m :: if d in reached then reached[d] else m[d]
  }

  class AggregationRuntime {
    const aggregationId: string
    const incrementalDurations: seq<Duration>
    const aggregationTables: map<Duration, Table>
    const processingOnExternalTime: bool
    const isDistributed: bool
    const outputExpressionExecutors: seq<OutputExecutor>
    /** The executors of the open buckets, one per duration. */
    var incrementalExecutorMap: map<Duration, IncrementalExecutor>
    var isFirstEventArrived: bool
    /** `SnapshotService`'s skip-snapshotable thread-local as seen by this
        runtime's thread: `None` is `null`. */
    var skipSnapshotable: Option<bool>
    /** Every value written to the thread-local, in order. */
    ghost var skipSnapshotableWrites: seq<Option<bool>>

    /** The aggregation's configuration: a ladder of durations with one
        table per duration. */
    ghost predicate Configured() {
      && WellFormedLadder(incrementalDurations)
      && aggregationTables.Keys == Members(incrementalDurations)
    }

    ghost predicate Valid()
      reads this
    {
      && Configured()
      && incrementalExecutorMap.Keys == Members(incrementalDurations)
      && Distinct(outputExpressionExecutors)
    }

    constructor (aggregationId: string, incrementalExecutorMap: map<Duration, IncrementalExecutor>,
                 aggregationTables: map<Duration, Table>, incrementalDurations: seq<Duration>,
                 outputExpressionExecutors: seq<OutputExecutor>, processingOnExternalTime: bool, isDistributed: bool)
      requires WellFormedLadder(incrementalDurations) && aggregationTables.Keys == Members(incrementalDurations)
      requires incrementalExecutorMap.Keys == Members(incrementalDurations)
      requires Distinct(outputExpressionExecutors)
      ensures this.aggregationId == aggregationId && this.incrementalExecutorMap == incrementalExecutorMap
      ensures this.aggregationTables == aggregationTables && this.incrementalDurations == incrementalDurations
      ensures this.outputExpressionExecutors == outputExpressionExecutors
      ensures this.processingOnExternalTime == processingOnExternalTime && this.isDistributed == isDistributed
      ensures !isFirstEventArrived && skipSnapshotable.None? && skipSnapshotableWrites == []
      ensures Valid()
    {
      this.aggregationId := aggregationId;
      this.incrementalExecutorMap := incrementalExecutorMap;
      this.aggregationTables := aggregationTables;
      this.incrementalDurations := incrementalDurations;
      this.outputExpressionExecutors := outputExpressionExecutors;
      this.processingOnExternalTime := processingOnExternalTime;
      this.isDistributed := isDistributed;
      isFirstEventArrived := false;
      skipSnapshotable := None;
      skipSnapshotableWrites := [];
    }

    /** The attribute lists `compileExpression` starts with: `_START`, `_END`
        and the timestamp-filter attributes, and the names of the latter. */
    method DefineAdditionalAttributes() returns (additionalAttributes: seq<Attribute>, lowerGranularityAttributes: seq<string>)
      requires |incrementalDurations| >= 1
      ensures additionalAttributes == AdditionalAttributes(isDistributed, |incrementalDurations| - 1)
      ensures |lowerGranularityAttributes| == |additionalAttributes| - 2
      ensures forall j :: 0 <= j < |lowerGranularityAttributes| ==> lowerGranularityAttributes[j] == FilterAttributeName(j)
    {
      additionalAttributes := [Attribute(StartAttribute, LONG), Attribute(EndAttribute, LONG)];
      lowerGranularityAttributes := [];
      var lowerGranularitySize := |incrementalDurations| - 1;
      if isDistributed {
        var i := 0;
        while i < lowerGranularitySize
          invariant 0 <= i <= lowerGranularitySize
          invariant |additionalAttributes| == i + 2 && |lowerGranularityAttributes| == i
          invariant additionalAttributes[0] == Attribute(StartAttribute, LONG)
          invariant additionalAttributes[1] == Attribute(EndAttribute, LONG)
          invariant forall j :: 0 <= j < i ==>
            additionalAttributes[j + 2] == Attribute(FilterAttributeName(j), LONG)
            && lowerGranularityAttributes[j] == FilterAttributeName(j)
        {
          var attributeName := FilterAttributePrefix + NatToString(i);
          additionalAttributes := additionalAttributes + [Attribute(attributeName, LONG)];
          lowerGranularityAttributes := lowerGranularityAttributes + [attributeName];
          i := i + 1;
        }
      }
      assert additionalAttributes == AdditionalAttributes(isDistributed, lowerGranularitySize);
    }

    /** The `getAggregationStartTime` evaluators of a distributed deployment. */
    method CreateTimestampFilterExecutors() returns (timestampFilterExecutors: seq<Evaluator>)
      requires |incrementalDurations| >= 1
      ensures timestampFilterExecutors == TimestampFilterEvaluators(incrementalDurations, isDistributed)
    {
      timestampFilterExecutors := [];
      if isDistributed {
        var i := 0;
        while i < |incrementalDurations| - 1
          invariant 0 <= i <= |incrementalDurations| - 1
          invariant |timestampFilterExecutors| == i
          invariant forall j :: 0 <= j < i ==> timestampFilterExecutors[j] == AggregationStartTime(incrementalDurations[j + 1])
        {
          timestampFilterExecutors := timestampFilterExecutors + [AggregationStartTime(incrementalDurations[i + 1])];
          i := i + 1;
        }
      }
    }

    /** One condition per aggregate table, walking the table map in an
        unspecified order. */
    method CompileWithinTableConditions(withinExpressionTable: Expr) returns (conditions: map<Duration, CompiledCondition>)
      ensures conditions == WithinTableConditions(aggregationTables, withinExpressionTable)
    {
      conditions := map[];
      var entries := aggregationTables.Keys;
      while entries != {}
        invariant entries <= aggregationTables.Keys
        invariant conditions.Keys == aggregationTables.Keys - entries
        invariant forall d :: d in conditions ==> conditions[d] == TableLookup(aggregationTables[d], withinExpressionTable, [])
        decreases entries
      {
        var d :| d in entries;
        conditions := conditions[d := TableLookup(aggregationTables[d], withinExpressionTable, [])];
        entries := entries - {d};
      }
    }

    /** The condition on the table of the `i`th duration that the loop of
        `compileExpression` puts into the lower-granularity map, or the
        missing table. */
    method CompileLowerGranularityCondition(i: nat, lowerGranularityAttribute: string, withinExpressionTable: Expr,
                                            reducedExpression: Expr, tableMap: map<string, Table>)
      returns (r: Result<CompiledCondition, Error>)
      requires i < |incrementalDurations|
      requires lowerGranularityAttribute == FilterAttributeName(i)
      requires withinExpressionTable == WithinTableExpression(processingOnExternalTime, reducedExpression)
      ensures r.Success? <==> LowerTableName(aggregationId, incrementalDurations, i) in tableMap
      ensures r.Success? ==> r.value == LowerGranularityCondition(aggregationId, incrementalDurations, i, tableMap,
                                                                 processingOnExternalTime, reducedExpression)
      ensures r.Failure? ==> r.error == TableNotFound(LowerTableName(aggregationId, incrementalDurations, i))
    {
      var lowerGranularity := And(
        Compare(Variable(AggTimestamp), GreaterThanEqual, Variable(lowerGranularityAttribute)),
        if processingOnExternalTime then withinExpressionTable else reducedExpression);
      var duration := incrementalDurations[i];
      var tableName := aggregationId + ("_" + Name(duration));
      if tableName !in tableMap {
        return Failure(TableNotFound(tableName));
      }
      return Success(TableLookup(tableMap[tableName], lowerGranularity, []));
    }

    /** The lower-granularity conditions of a distributed deployment; the
        first duration whose table is missing from `tableMap` aborts with
        that table's name. */
    method CompileLowerGranularityConditions(lowerGranularityAttributes: seq<string>, withinExpressionTable: Expr,
                                             reducedExpression: Expr, tableMap: map<string, Table>)
      returns (r: Result<map<Duration, CompiledCondition>, Error>)
      requires |incrementalDurations| >= 1
      requires |lowerGranularityAttributes| == |incrementalDurations| - 1
      requires forall j :: 0 <= j < |lowerGranularityAttributes| ==> lowerGranularityAttributes[j] == FilterAttributeName(j)
      requires withinExpressionTable == WithinTableExpression(processingOnExternalTime, reducedExpression)
      ensures LowerGranularityOutcome(aggregationId, incrementalDurations, tableMap, processingOnExternalTime,
                                      reducedExpression, r)
    {
      var conditions: map<Duration, CompiledCondition> := map[];
      var i := 0;
      while i < |incrementalDurations| - 1
        invariant 0 <= i <= |incrementalDurations| - 1
        invariant LowerTablesPresent(aggregationId, incrementalDurations, tableMap, i)
        invariant conditions
          == LowerGranularityConditions(aggregationId, incrementalDurations, i, tableMap, processingOnExternalTime, reducedExpression)
      {
        var condition := CompileLowerGranularityCondition(i, lowerGranularityAttributes[i], withinExpressionTable,
                                                          reducedExpression, tableMap);
        if condition.Failure? {
          FirstMissingTableStops(aggregationId, incrementalDurations, tableMap, i);
          r := Failure(condition.error);
          assert LowerGranularityOutcome(aggregationId, incrementalDurations, tableMap, processingOnExternalTime,
                                         reducedExpression, r);
          return;
        }
        LowerGranularityConditionsStep(aggregationId, incrementalDurations, i, tableMap, processingOnExternalTime,
                                       reducedExpression, conditions, condition.value);
        conditions := conditions[incrementalDurations[i] := condition.value];
        i := i + 1;
      }
      return Success(conditions);
    }

    /** The part of `compileExpression` after `per` and `within` are
        validated: the evaluators and the compiled conditions of the plan. */
    method BuildPlan(expression: Expr, within: Within, per: Expr, tableMap: map<string, Table>, env: Collaborators,
                     additionalAttributes: seq<Attribute>, lowerGranularityAttributes: seq<string>)
      returns (r: Result<IncrementalAggregateCompileCondition, Error>)
      requires Configured()
      requires additionalAttributes == AdditionalAttributes(isDistributed, |incrementalDurations| - 1)
      requires |lowerGranularityAttributes| == |additionalAttributes| - 2
      requires forall j :: 0 <= j < |lowerGranularityAttributes| ==> lowerGranularityAttributes[j] == FilterAttributeName(j)
      ensures r.Success? <==>
        isDistributed ==> LowerTablesPresent(aggregationId, incrementalDurations, tableMap, |incrementalDurations| - 1)
      ensures r.Failure? ==>
        r.error.TableNotFound? && FirstMissingTable(aggregationId, incrementalDurations, tableMap, r.error.name)
      ensures r.Success? ==>
        r.value == ExpectedPlan(aggregationId, incrementalDurations, aggregationTables, processingOnExternalTime,
                                isDistributed, expression, within, per, tableMap, env.reduce(expression))
    {
      var perExpressionExecutor := ExpressionEvaluator(per);
      var timeFilterExpression := Variable(if processingOnExternalTime then AggEventTimestamp else AggTimestamp);
      var start := Variable(additionalAttributes[0].name);
      var end := Variable(additionalAttributes[1].name);
      var withinExpression := And(Compare(start, LessThanEqual, timeFilterExpression),
                                  Compare(timeFilterExpression, LessThan, end));
      assert withinExpression == WithinExpression(processingOnExternalTime);
      var startTimeEndTimeExpressionExecutor := StartTimeEndTime(
        if within.WithinPattern? then [within.pattern] else [within.start, within.end]);
      assert startTimeEndTimeExpressionExecutor == StartTimeEndTime(TimeRange(within));

      var timestampFilterExecutors := CreateTimestampFilterExecutors();

      var reducedExpression := env.reduce(expression);
      var withinExpressionTable := And(withinExpression, reducedExpression);
      var withinTableCompiledConditions := CompileWithinTableConditions(withinExpressionTable);

      var withinInMemoryCompileCondition := OperatorLookup(withinExpression, []);

      var withinTableLowerGranularityCompileCondition: map<Duration, CompiledCondition> := map[];
      if isDistributed {
        var lower := CompileLowerGranularityConditions(lowerGranularityAttributes, withinExpressionTable,
                                                       reducedExpression, tableMap);
        if lower.Failure? {
          return Failure(lower.error);
        }
        withinTableLowerGranularityCompileCondition := lower.value;
      }

      var onCompiledCondition := OperatorLookup(expression, []);
      r := Success(IncrementalAggregateCompileCondition(
        withinTableCompiledConditions, withinInMemoryCompileCondition, withinTableLowerGranularityCompileCondition,
        onCompiledCondition, additionalAttributes, perExpressionExecutor, startTimeEndTimeExpressionExecutor,
        timestampFilterExecutors, processingOnExternalTime, incrementalDurations, isDistributed, None));
    }

    /** `compileExpression`: validates `per` and `within` and builds the plan. */
    method CompileExpression(expression: Expr, within: Option<Within>, per: Option<Expr>,
                             tableMap: map<string, Table>, env: Collaborators)
      returns (r: Result<IncrementalAggregateCompileCondition, Error>)
      requires Configured()
      ensures per.None? ==> r == Failure(MissingPer)
      ensures per.Some? && ReturnType(per.value, env.attributeType) != STRING ==>
        r == Failure(PerNotString(ReturnType(per.value, env.attributeType)))
      ensures (per.Some? && ReturnType(per.value, env.attributeType) == STRING && per.value.StringConstant?
               && env.normalize(per.value.s).None?) ==> r == Failure(InvalidPerConstant(per.value.s))
      ensures PerAccepted(per, env) && within.None? ==> r == Failure(MissingWithin)
      ensures r.Success? <==>
        PerAccepted(per, env) && within.Some?
        && (isDistributed ==> LowerTablesPresent(aggregationId, incrementalDurations, tableMap, |incrementalDurations| - 1))
      ensures r.Failure? && r.error.TableNotFound? ==>
        FirstMissingTable(aggregationId, incrementalDurations, tableMap, r.error.name)
      ensures r.Failure? ==> Kind(r.error) != RuntimeError
      ensures r.Success? ==>
        r.value == ExpectedPlan(aggregationId, incrementalDurations, aggregationTables, processingOnExternalTime,
                                isDistributed, expression, within.value, per.value, tableMap, env.reduce(expression))
    {
      var additionalAttributes, lowerGranularityAttributes := DefineAdditionalAttributes();

      if per.None? {
        return Failure(MissingPer);
      }
      var perType := ReturnType(per.value, env.attributeType);
      if perType != STRING {
        return Failure(PerNotString(perType));
      }
      if per.value.StringConstant? && env.normalize(per.value.s).None? {
        return Failure(InvalidPerConstant(per.value.s));
      }
      if within.None? {
        return Failure(MissingWithin);
      }
      r := BuildPlan(expression, within.value, per.value, tableMap, env, additionalAttributes, lowerGranularityAttributes);
    }

    /** `recreateInMemoryData(isFirstEventArrived)`: on the first event every
        executor is switched to processing; in every case the open buckets
        are then restored from the tables. */
    method RecreateInMemoryData(isFirstEventArrived: bool, env: Collaborators)
      requires Valid()
      modifies this
      ensures Valid()
      ensures this.isFirstEventArrived == (old(this.isFirstEventArrived) || isFirstEventArrived)
      ensures incrementalExecutorMap == Recreated(
        if isFirstEventArrived then MarkedProcessing(old(incrementalExecutorMap)) else old(incrementalExecutorMap),
        env.recreate)
      ensures skipSnapshotable == old(skipSnapshotable) && skipSnapshotableWrites == old(skipSnapshotableWrites)
    {
      if isFirstEventArrived {
        this.isFirstEventArrived := true;
        ghost var m0 := incrementalExecutorMap;
        var entries := incrementalExecutorMap.Keys;
        while entries != {}
          invariant entries <= m0.Keys
          invariant incrementalExecutorMap.Keys == m0.Keys
          invariant forall d :: d in m0 ==>
            incrementalExecutorMap[d] == if d in entries then m0[d] else m0[d].(processingExecutor := true)
          invariant Valid() && this.isFirstEventArrived
          invariant skipSnapshotable == old(skipSnapshotable) && skipSnapshotableWrites == old(skipSnapshotableWrites)
          decreases entries
        {
          var d :| d in entries;
          incrementalExecutorMap := incrementalExecutorMap[d := incrementalExecutorMap[d].(processingExecutor := true)];
          entries := entries - {d};
        }
        assert incrementalExecutorMap == MarkedProcessing(m0);
      }
      incrementalExecutorMap := Recreated(incrementalExecutorMap, env.recreate);
    }

    /** `processEvents`: incoming events are handed to the executor of the
        finest duration, which may roll closed buckets over into the coarser
        executors. */
    method ProcessEvents(streamEvents: seq<StreamEvent>, env: Collaborators)
      requires Valid()
      modifies this
      ensures Valid()
      ensures incrementalExecutorMap ==
        Executed(old(incrementalExecutorMap), env.execute(incrementalDurations[0], old(incrementalExecutorMap), streamEvents))
      ensures isFirstEventArrived == old(isFirstEventArrived)
      ensures skipSnapshotable == old(skipSnapshotable) && skipSnapshotableWrites == old(skipSnapshotableWrites)
    {
      var root := incrementalDurations[0];
      incrementalExecutorMap := Executed(incrementalExecutorMap, env.execute(root, incrementalExecutorMap, streamEvents));
    }

    /** The start of `find`: snapshotting is suppressed and, outside
        distributed mode, the in-memory data is restored for as long as no
        event has arrived. */
    method BeginFind(env: Collaborators)
      requires Valid()
      modifies this
      ensures Valid()
      ensures isFirstEventArrived == old(isFirstEventArrived)
      ensures incrementalExecutorMap ==
        if !isDistributed && !isFirstEventArrived then Recreated(old(incrementalExecutorMap), env.recreate)
        else old(incrementalExecutorMap)
      ensures skipSnapshotable == Some(true)
      ensures skipSnapshotableWrites == old(skipSnapshotableWrites) + [Some(true)]
    {
      skipSnapshotable := Some(true);
      skipSnapshotableWrites := skipSnapshotableWrites + [Some(true)];
      if !isDistributed && !isFirstEventArrived {
        RecreateInMemoryData(false, env);
      }
    }

    /** The `finally` of `find`: the thread-local is cleared, whatever the outcome. */
    method EndFind()
      modifies this`skipSnapshotable, this`skipSnapshotableWrites
      ensures skipSnapshotable == None
      ensures skipSnapshotableWrites == old(skipSnapshotableWrites) + [None]
    {
      skipSnapshotable := None;
      skipSnapshotableWrites := skipSnapshotableWrites + [None];
    }

    /** `find`: with snapshotting suppressed, restores the in-memory data
        while no event has arrived yet (outside distributed mode), then
        retrieves with the plan. */
    method Find(matchingEvent: StateEvent, c: IncrementalAggregateCompileCondition, env: Collaborators)
      returns (r: Result<seq<StreamEvent>, Error>)
      requires Valid()
      requires matchingEvent.streamEvents.Length >= 1
      requires Fits(c, incrementalExecutorMap, aggregationTables)
      modifies this, matchingEvent.streamEvents, outputExpressionExecutors
      ensures Valid()
      ensures isFirstEventArrived == old(isFirstEventArrived)
      ensures incrementalExecutorMap ==
        if !isDistributed && !isFirstEventArrived then Recreated(old(incrementalExecutorMap), env.recreate)
        else old(incrementalExecutorMap)
      ensures skipSnapshotable == None
      ensures skipSnapshotableWrites == old(skipSnapshotableWrites) + [Some(true), None]
      ensures Fits(c, incrementalExecutorMap, aggregationTables)
      ensures Retrieved(c, env, aggregationId, incrementalExecutorMap, aggregationTables,
                        Evaluations(outputExpressionExecutors),
                        old(matchingEvent.streamEvents[..]), matchingEvent.streamEvents[..],
                        old(Histories(outputExpressionExecutors)), Histories(outputExpressionExecutors), r)
    {
      BeginFind(env);
      ghost var slotsBefore := matchingEvent.streamEvents[..];
      ghost var historiesBefore := Histories(outputExpressionExecutors);
      assert slotsBefore == old(matchingEvent.streamEvents[..]);
      assert historiesBefore == old(Histories(outputExpressionExecutors));
      var executors, outputs := incrementalExecutorMap, outputExpressionExecutors;
      r := AggregateCompileCondition.Find(c, matchingEvent, aggregationId, executors, aggregationTables, outputs, env);
      ghost var slotsAfter := matchingEvent.streamEvents[..];
      ghost var historiesAfter := Histories(outputs);
      assert Retrieved(c, env, aggregationId, executors, aggregationTables,
                       Evaluations(outputs), slotsBefore, slotsAfter, historiesBefore, historiesAfter, r);
      EndFind();
    }
  }
}
