/** The compiled retrieval plan of an incremental aggregation
    (`IncrementalAggregateCompileCondition`) and its retrieval protocol:
    persisted rows of the `per` granularity, augmented with lower-granularity
    shards or with the open in-memory buckets when the window reaches into
    data not yet flushed, normalised, projected and joined. */
module AggregateCompileCondition {
  import opened Wrappers
  import opened TimePeriod
  import opened Expressions
  import opened Events
  import opened Executors
  import opened Conditions
  import opened Environment
  import opened Errors

  /** `ComplexEventPopulater.populateComplexEvent`: writes the timestamp
      filter values into the matching stream event. */
  type Populater = (StreamEvent, seq<Option<int>>) -> StreamEvent

  /** The plan. Its fields are never reassigned once built, except the
      populater, which the query parser sets after compilation (`None` is
      `null`: neither the constructor nor `cloneCompilation` sets it). */
  datatype IncrementalAggregateCompileCondition = IncrementalAggregateCompileCondition(
    withinTableCompiledConditions: map<Duration, CompiledCondition>,
    inMemoryStoreCompileCondition: CompiledCondition,
    withinTableLowerGranularityCompileCondition: map<Duration, CompiledCondition>,
    onCompiledCondition: CompiledCondition,
    additionalAttributes: seq<Attribute>,
    perExpressionExecutor: Evaluator,
    startTimeEndTimeExpressionExecutor: Evaluator,
    timestampFilterExecutors: seq<Evaluator>,
    isProcessingOnExternalTime: bool,
    incrementalDurations: seq<Duration>,
    isDistributed: bool,
    complexEventPopulater: Option<Populater>)

  /** What retrieval relies on of the plan and of the executor and table maps
      it is run against (all three are built from the same durations). */
  ghost predicate Fits(c: IncrementalAggregateCompileCondition,
                       executors: map<Duration, IncrementalExecutor>, tables: map<Duration, Table>)
  {
    var ds := c.incrementalDurations;
    && |ds| >= 1
    && c.inMemoryStoreCompileCondition.OperatorLookup?
    && c.onCompiledCondition.OperatorLookup?
    && executors.Keys <= Members(ds)
    && executors.Keys <= tables.Keys
    && c.withinTableCompiledConditions.Keys == tables.Keys
    && (c.isDistributed ==>
          forall i :: 0 <= i < |ds| - 1 ==> ds[i] in c.withinTableLowerGranularityCompileCondition && ds[i] in tables)
  }

  // ---------------------------------------------------------------------
  // Cloning

  /** Clones every condition of a map under `key`. */
  method CloneConditions(m: map<Duration, CompiledCondition>, key: string) returns (copy: map<Duration, CompiledCondition>)
    ensures copy.Keys == m.Keys
    ensures forall d :: d in m ==> copy[d] == Clone(m[d], key)
  {
    copy := map[];
    var remaining := m.Keys;
    while remaining != {}
      invariant remaining <= m.Keys
      invariant copy.Keys == m.Keys - remaining
      invariant forall d :: d in copy ==> copy[d] == Clone(m[d], key)
      decreases remaining
    {
      var d :| d in remaining;
      copy := copy[d := Clone(m[d], key)];
      remaining := remaining - {d};
    }
  }

  /** `cloneCompilation(key)`: the maps of table conditions and the in-memory
      and `on` conditions are cloned; evaluators, attributes, durations and
      flags are shared with the original. The clone is built through the
      constructor, so it has no populater. */
  method CloneCompilation(c: IncrementalAggregateCompileCondition, key: string) returns (r: IncrementalAggregateCompileCondition)
    ensures r.withinTableCompiledConditions.Keys == c.withinTableCompiledConditions.Keys
    ensures forall d :: d in c.withinTableCompiledConditions ==>
      r.withinTableCompiledConditions[d] == Clone(c.withinTableCompiledConditions[d], key)
    ensures r.withinTableLowerGranularityCompileCondition.Keys == c.withinTableLowerGranularityCompileCondition.Keys
    ensures forall d :: d in c.withinTableLowerGranularityCompileCondition ==>
      r.withinTableLowerGranularityCompileCondition[d] == Clone(c.withinTableLowerGranularityCompileCondition[d], key)
    ensures r.inMemoryStoreCompileCondition == Clone(c.inMemoryStoreCompileCondition, key)
    ensures r.onCompiledCondition == Clone(c.onCompiledCondition, key)
    ensures r.additionalAttributes == c.additionalAttributes
    ensures r.perExpressionExecutor == c.perExpressionExecutor
    ensures r.startTimeEndTimeExpressionExecutor == c.startTimeEndTimeExpressionExecutor
    ensures r.timestampFilterExecutors == c.timestampFilterExecutors
    ensures r.isProcessingOnExternalTime == c.isProcessingOnExternalTime
    ensures r.incrementalDurations == c.incrementalDurations
    ensures r.isDistributed == c.isDistributed
    ensures r.complexEventPopulater.None?
  {
    var within := CloneConditions(c.withinTableCompiledConditions, key);
    var lower := CloneConditions(c.withinTableLowerGranularityCompileCondition, key);
    r := c.(withinTableCompiledConditions := within,
            inMemoryStoreCompileCondition := Clone(c.inMemoryStoreCompileCondition, key),
            withinTableLowerGranularityCompileCondition := lower,
            onCompiledCondition := Clone(c.onCompiledCondition, key),
            complexEventPopulater := None);
  }

  /** `setComplexEventPopulater`: the plan with its populater set and every
      other field kept. */
  function SetComplexEventPopulater(c: IncrementalAggregateCompileCondition, populater: Populater)
    : (r: IncrementalAggregateCompileCondition)
    ensures r.complexEventPopulater == Some(populater)
    ensures r.(complexEventPopulater := c.complexEventPopulater) == c
  {
    c.(complexEventPopulater := Some(populater))
  }

  /** A clone can stand in for its original: it fits every executor and table
      map the original fits, and each of its conditions is a distinct copy of
      the original's condition over the same table. */
  lemma CloneFits(c: IncrementalAggregateCompileCondition, r: IncrementalAggregateCompileCondition, key: string,
                  executors: map<Duration, IncrementalExecutor>, tables: map<Duration, Table>)
    requires Fits(c, executors, tables)
    requires r.withinTableCompiledConditions.Keys == c.withinTableCompiledConditions.Keys
    requires r.withinTableLowerGranularityCompileCondition.Keys == c.withinTableLowerGranularityCompileCondition.Keys
    requires r.incrementalDurations == c.incrementalDurations && r.isDistributed == c.isDistributed
    requires r.inMemoryStoreCompileCondition == Clone(c.inMemoryStoreCompileCondition, key)
    requires r.onCompiledCondition == Clone(c.onCompiledCondition, key)
    requires forall d :: d in c.withinTableCompiledConditions ==>
      r.withinTableCompiledConditions[d] == Clone(c.withinTableCompiledConditions[d], key)
    ensures Fits(r, executors, tables)
    ensures forall d :: d in tables ==>
      && r.withinTableCompiledConditions[d] != c.withinTableCompiledConditions[d]
      && r.withinTableCompiledConditions[d].condition == c.withinTableCompiledConditions[d].condition
  {
  }

  // ---------------------------------------------------------------------
  // The timestamp-filter array

  /** The values written into the matching event: slot 0 the within start,
      slot 1 the within end, then (distributed only) one value per timestamp
      filter evaluator, in order; unfilled slots stay `null`. */
  function TimestampFilters(c: IncrementalAggregateCompileCondition, startEnd: (int, int), probe: Probe,
                            env: Collaborators): (f: seq<Option<int>>)
    ensures |f| == |c.timestampFilterExecutors| + 2
    ensures f[0] == Some(startEnd.0) && f[1] == Some(startEnd.1)
    ensures forall i :: 0 <= i < |c.timestampFilterExecutors| ==>
      f[i + 2] == (if c.isDistributed then env.evalLong(c.timestampFilterExecutors[i], probe) else None)
  {
    [Some(startEnd.0), Some(startEnd.1)]
      + seq(|c.timestampFilterExecutors|,
            i requires 0 <= i < |c.timestampFilterExecutors| =>
              if c.isDistributed then env.evalLong(c.timestampFilterExecutors[i], probe) else None)
  }

  /** Fills the `Long[]` of timestamp filters in place. */
  method FillTimestampFilters(c: IncrementalAggregateCompileCondition, startEnd: (int, int), probe: Probe,
                              env: Collaborators) returns (filters: seq<Option<int>>)
    ensures filters == TimestampFilters(c, startEnd, probe, env)
  {
    var size := |c.timestampFilterExecutors| + 2;
    var a := new Option<int>[size](_ => None);
    a[0] := Some(startEnd.0);
    a[1] := Some(startEnd.1);
    if c.isDistributed {
      var i := 0;
      while i < size - 2
        invariant 0 <= i <= size - 2
        invariant a[0] == Some(startEnd.0) && a[1] == Some(startEnd.1)
        invariant forall k :: 0 <= k < i ==> a[k + 2] == env.evalLong(c.timestampFilterExecutors[k], probe)
        invariant forall k :: i + 2 <= k < size ==> a[k] == None
      {
        a[i + 2] := env.evalLong(c.timestampFilterExecutors[i], probe);
        i := i + 1;
      }
    }
    filters := a[..];
  }

  /** The matching event with its slot 0 present: an absent stream event is
      replaced by a fresh one with room for the timestamp filters. */
  function WithMatchingSlot(probe: Probe, width: nat): (p: Probe)
    requires |probe| >= 1
    ensures |p| == |probe| && p[0].Some?
    ensures probe[0].Some? ==> p == probe
    ensures probe[0].None? ==> p == probe[0 := Some(FreshEvent(width))]
  {
    if probe[0].None? then probe[0 := Some(FreshEvent(width))] else probe
  }

  // ---------------------------------------------------------------------
  // The per granularity

  /** Resolves the `per` value: a value that names no duration, or names one
      the aggregation is not configured with, is a runtime error. */
  function ResolvePer(text: Option<string>, normalize: string -> Option<Duration>,
                      executors: map<Duration, IncrementalExecutor>, aggregationId: string): (r: Result<Duration, Error>)
    ensures r.Success? <==> text.Some? && normalize(text.value).Some? && normalize(text.value).value in executors
    ensures r.Success? ==> normalize(text.value) == Some(r.value) && r.value in executors
    ensures text.Some? && normalize(text.value).None? ==> r == Failure(InvalidPer(text.value))
    ensures text.Some? && normalize(text.value).Some? && normalize(text.value).value !in executors ==>
      r == Failure(GranularityNotConfigured(normalize(text.value).value, aggregationId))
    ensures r.Failure? ==> Kind(r.error) in {RuntimeError, NullPointer}
  {
    if text.None? then Failure(NullPer)
    else match normalize(text.value)
      case None => Failure(InvalidPer(text.value))
      case Some(d) => if d in executors then Success(d) else Failure(GranularityNotConfigured(d, aggregationId))
  }

  // ---------------------------------------------------------------------
  // The oldest open bucket

  /** The start of the first open bucket found scanning the duration ordinals
      from `i` down to `lowest`, skipping durations without an executor; -1
      when every scanned executor has no open bucket. */
  function OldestInMemoryEventTimestamp(executors: map<Duration, IncrementalExecutor>, lowest: nat, i: int): (r: int)
    requires i < 6
    decreases if i < lowest then 0 else i - lowest + 1
    ensures r == -1 <==>
      forall k :: lowest <= k <= i && FromOrdinal(k) in executors ==>
        executors[FromOrdinal(k)].aggregationStartTimestamp == -1
    ensures r != -1 ==>
      exists k :: (lowest <= k <= i && FromOrdinal(k) in executors
        && executors[FromOrdinal(k)].aggregationStartTimestamp == r
        && forall k' :: k < k' <= i && FromOrdinal(k') in executors ==>
             executors[FromOrdinal(k')].aggregationStartTimestamp == -1)
  {
    if i < lowest then -1
    else
      var d := FromOrdinal(i);
      if d in executors && executors[d].aggregationStartTimestamp != -1 then executors[d].aggregationStartTimestamp
      else OldestInMemoryEventTimestamp(executors, lowest, i - 1)
  }

  /** `getOldestInMemoryEventTimestamp`: the descending scan with early return. */
  method GetOldestInMemoryEventTimestamp(executors: map<Duration, IncrementalExecutor>, durations: seq<Duration>,
                                         perValue: Duration) returns (oldest: int)
    requires |durations| >= 1
    ensures oldest == OldestInMemoryEventTimestamp(executors, Ordinal(durations[0]), Ordinal(perValue))
  {
    var lowest := Ordinal(durations[0]);
    var i := Ordinal(perValue);
    while i >= lowest
      invariant i <= Ordinal(perValue)
      decreases i
      invariant OldestInMemoryEventTimestamp(executors, lowest, i)
             == OldestInMemoryEventTimestamp(executors, lowest, Ordinal(perValue))
    {
      var incrementalDuration := FromOrdinal(i);
      if incrementalDuration in executors {
        var oldestEvent := executors[incrementalDuration].aggregationStartTimestamp;
        if oldestEvent != -1 {
          return oldestEvent;
        }
      }
      i := i - 1;
    }
    return -1;
  }

  /** `requiresAggregatingInMemoryData`: only when some bucket is open, and
      then exactly when the window ends after the oldest open bucket starts. */
  function RequiresAggregatingInMemoryData(oldest: int, startEnd: (int, int)): (r: bool)
    ensures oldest == -1 ==> !r
    ensures oldest != -1 ==> (r <==> startEnd.1 > oldest)
  {
    if oldest == -1 then false else startEnd.1 > oldest
  }

  /** When in-memory data is needed, some scanned executor has a bucket that
      is open and starts before the end of the window. */
  lemma AugmentationMeansOpenBucketInWindow(executors: map<Duration, IncrementalExecutor>, lowest: nat, i: int,
                                            startEnd: (int, int))
    requires i < 6
    requires RequiresAggregatingInMemoryData(OldestInMemoryEventTimestamp(executors, lowest, i), startEnd)
    ensures exists k :: (lowest <= k <= i && FromOrdinal(k) in executors
      && executors[FromOrdinal(k)].aggregationStartTimestamp != -1
      && executors[FromOrdinal(k)].aggregationStartTimestamp < startEnd.1)
  {
    var r := OldestInMemoryEventTimestamp(executors, lowest, i);
    var k :| lowest <= k <= i && FromOrdinal(k) in executors
      && executors[FromOrdinal(k)].aggregationStartTimestamp == r;
  }

  // ---------------------------------------------------------------------
  // Lower-granularity shards (distributed mode)

  /** The durations listed before index `perIndex`: the strictly finer
      granularities whose tables are consulted. */
  function LowerGranularityKeys(ds: seq<Duration>, perIndex: int): (keys: set<Duration>)
    ensures forall d :: d in keys <==> exists i :: 0 <= i < perIndex && i < |ds| && ds[i] == d
  {
    set i | 0 <= i < perIndex && i < |ds| :: ds[i]
  }

  ghost predicate NoDuplicates(s: seq<Duration>) {
    forall i, j :: 0 <= i < j < |s| ==> s[i] != s[j]
  }

  /** `order` lists each key exactly once: one iteration order of a hash map
      with those keys. */
  ghost predicate IsOrderOf(order: seq<Duration>, keys: set<Duration>) {
    NoDuplicates(order) && Members(order) == keys
  }

  /** The rows the lower-granularity lookups contribute, in order `order`;
      a lookup that finds nothing (`null`) contributes nothing. */
  function LowerGranularityRows(c: IncrementalAggregateCompileCondition, env: Collaborators,
                                tables: map<Duration, Table>, probe: Probe, order: seq<Duration>): seq<StreamEvent>
    requires forall d :: d in order ==> d in c.withinTableLowerGranularityCompileCondition && d in tables
  {
    if order == [] then []
    else
      OrEmpty(env.tableFind(tables[order[0]], c.withinTableLowerGranularityCompileCondition[order[0]], probe))
        + LowerGranularityRows(c, env, tables, probe, order[1..])
  }

  /** The rows found are exactly the rows of the non-null lookups. */
  lemma {:induction false} LowerGranularityRowsMembers(c: IncrementalAggregateCompileCondition, env: Collaborators,
                                                        tables: map<Duration, Table>, probe: Probe, order: seq<Duration>,
                                                        x: StreamEvent)
    requires forall d :: d in order ==> d in c.withinTableLowerGranularityCompileCondition && d in tables
    ensures x in LowerGranularityRows(c, env, tables, probe, order) <==>
      exists k :: 0 <= k < |order|
        && x in OrEmpty(env.tableFind(tables[order[k]], c.withinTableLowerGranularityCompileCondition[order[k]], probe))
  {
    if order != [] {
      LowerGranularityRowsMembers(c, env, tables, probe, order[1..], x);
      var head := OrEmpty(env.tableFind(tables[order[0]], c.withinTableLowerGranularityCompileCondition[order[0]], probe));
      if x in LowerGranularityRows(c, env, tables, probe, order[1..]) {
        var k :| 0 <= k < |order[1..]|
          && x in OrEmpty(env.tableFind(tables[order[1..][k]], c.withinTableLowerGranularityCompileCondition[order[1..][k]], probe));
        assert order[1..][k] == order[k + 1];
      }
      if (exists k :: 0 <= k < |order|
            && x in OrEmpty(env.tableFind(tables[order[k]], c.withinTableLowerGranularityCompileCondition[order[k]], probe))) {
        var k :| 0 <= k < |order|
          && x in OrEmpty(env.tableFind(tables[order[k]], c.withinTableLowerGranularityCompileCondition[order[k]], probe));
        if k > 0 { assert order[1..][k - 1] == order[k]; }
      }
    }
  }

  lemma {:induction false} LowerGranularityRowsAppend(c: IncrementalAggregateCompileCondition, env: Collaborators,
                                                       tables: map<Duration, Table>, probe: Probe, a: seq<Duration>, b: seq<Duration>)
    requires forall d :: d in a + b ==> d in c.withinTableLowerGranularityCompileCondition && d in tables
    ensures LowerGranularityRows(c, env, tables, probe, a + b)
         == LowerGranularityRows(c, env, tables, probe, a) + LowerGranularityRows(c, env, tables, probe, b)
  {
    if a != [] {
      assert (a + b)[1..] == a[1..] + b;
      LowerGranularityRowsAppend(c, env, tables, probe, a[1..], b);
    } else {
      assert a + b == b;
    }
  }

  lemma {:induction false} NoDuplicatesCardinality(o: seq<Duration>)
    requires NoDuplicates(o)
    ensures |Members(o)| == |o|
  {
    if o != [] {
      NoDuplicatesCardinality(o[1..]);
      assert Members(o) == Members(o[1..]) + {o[0]};
      forall j | 0 <= j < |o[1..]| ensures o[1..][j] != o[0] {
        assert o[1..][j] == o[j + 1];
      }
    }
  }

  /** Dropping the head of an order leaves an order of the other keys. */
  lemma TailIsOrder(o: seq<Duration>, keys: set<Duration>)
    requires IsOrderOf(o, keys) && o != []
    ensures IsOrderOf(o[1..], keys - {o[0]})
  {
    forall d | d in o[1..] ensures d != o[0] {
      var j :| 0 <= j < |o[1..]| && o[1..][j] == d;
      assert o[j + 1] == d;
    }
  }

  /** Dropping position `p` of an order leaves an order of the other keys. */
  lemma WithoutIsOrder(o: seq<Duration>, p: nat, keys: set<Duration>)
    requires IsOrderOf(o, keys) && p < |o|
    ensures IsOrderOf(o[..p] + o[p + 1..], keys - {o[p]})
  {
    var rest := o[..p] + o[p + 1..];
    forall i, j | 0 <= i < j < |rest| ensures rest[i] != rest[j] {
      var i' := if i < p then i else i + 1;
      var j' := if j < p then j else j + 1;
      assert rest[i] == o[i'] && rest[j] == o[j'];
    }
    forall d | d in rest ensures d != o[p] && d in keys {
      var j :| 0 <= j < |rest| && rest[j] == d;
      var j' := if j < p then j else j + 1;
      assert o[j'] == d;
    }
    forall d | d in keys - {o[p]} ensures d in rest {
      var j :| 0 <= j < |o| && o[j] == d;
      assert j != p;
      if j < p { assert rest[j] == d; } else { assert rest[j - 1] == d; }
    }
  }

  /** The rows of one granularity can be moved to the front of the result
      without changing which rows are found. */
  lemma RowsMoveToFront(c: IncrementalAggregateCompileCondition, env: Collaborators,
                        tables: map<Duration, Table>, probe: Probe, a: seq<Duration>, x: Duration, b: seq<Duration>)
    requires forall d :: d in a + [x] + b ==> d in c.withinTableLowerGranularityCompileCondition && d in tables
    ensures multiset(LowerGranularityRows(c, env, tables, probe, a + [x] + b))
         == multiset(LowerGranularityRows(c, env, tables, probe, [x] + (a + b)))
  {
    LowerGranularityRowsAppend(c, env, tables, probe, a + [x], b);
    LowerGranularityRowsAppend(c, env, tables, probe, a, [x]);
    LowerGranularityRowsAppend(c, env, tables, probe, a, b);
    LowerGranularityRowsAppend(c, env, tables, probe, [x], a + b);
  }

  /** The order in which the hash map of lookups is walked changes at most the
      order of the rows found, never which rows are found. */
  lemma {:induction false} LowerGranularityRowsOrderIndependent(c: IncrementalAggregateCompileCondition, env: Collaborators,
                                                                 tables: map<Duration, Table>, probe: Probe,
                                                                 o1: seq<Duration>, o2: seq<Duration>, keys: set<Duration>)
    requires IsOrderOf(o1, keys) && IsOrderOf(o2, keys)
    requires forall d :: d in keys ==> d in c.withinTableLowerGranularityCompileCondition && d in tables
    ensures multiset(LowerGranularityRows(c, env, tables, probe, o1))
         == multiset(LowerGranularityRows(c, env, tables, probe, o2))
    decreases |o1|
  {
    if o1 == [] {
      assert |o2| == |Members(o2)| by { NoDuplicatesCardinality(o2); }
    } else {
      var x := o1[0];
      assert x in Members(o2);
      var p :| 0 <= p < |o2| && o2[p] == x;
      var a, b := o2[..p], o2[p + 1..];
      assert o2 == a + [x] + b;
      TailIsOrder(o1, keys);
      WithoutIsOrder(o2, p, keys);
      LowerGranularityRowsOrderIndependent(c, env, tables, probe, o1[1..], a + b, keys - {x});
      RowsMoveToFront(c, env, tables, probe, a, x, b);
      LowerGranularityRowsAppend(c, env, tables, probe, [x], o1[1..]);
      LowerGranularityRowsAppend(c, env, tables, probe, [x], a + b);
      assert o1 == [x] + o1[1..];
    }
  }

  /** Queries the table of every granularity listed before `perIndex`, with
      its lower-granularity condition, walking the lookups in an unspecified
      order and skipping `null` results. */
  method QueryLowerGranularities(c: IncrementalAggregateCompileCondition, env: Collaborators,
                                 tables: map<Duration, Table>, probe: Probe, perIndex: int) returns (rows: seq<StreamEvent>)
    requires perIndex < |c.incrementalDurations|
    requires forall i :: 0 <= i < perIndex ==>
      c.incrementalDurations[i] in c.withinTableLowerGranularityCompileCondition && c.incrementalDurations[i] in tables
    ensures exists order ::
      && IsOrderOf(order, LowerGranularityKeys(c.incrementalDurations, perIndex))
      && (forall d :: d in order ==> d in c.withinTableLowerGranularityCompileCondition && d in tables)
      && rows == LowerGranularityRows(c, env, tables, probe, order)
  {
    var keys := LowerGranularityKeys(c.incrementalDurations, perIndex);
    var remaining := keys;
    ghost var order: seq<Duration> := [];
    rows := [];
    while remaining != {}
      invariant remaining <= keys
      invariant IsOrderOf(order, keys - remaining)
      invariant forall d :: d in keys ==> d in c.withinTableLowerGranularityCompileCondition && d in tables
      invariant rows == LowerGranularityRows(c, env, tables, probe, order)
      decreases remaining
    {
      var d :| d in remaining;
      var found := env.tableFind(tables[d], c.withinTableLowerGranularityCompileCondition[d], probe);
      if found.Some? {
        rows := rows + found.value;
      }
      LowerGranularityRowsAppend(c, env, tables, probe, order, [d]);
      order := order + [d];
      remaining := remaining - {d};
    }
  }

  // ---------------------------------------------------------------------
  // Merging, normalising and projecting

  /** The rows that augment the persisted rows of the `per` table. */
  ghost predicate Augmentation(c: IncrementalAggregateCompileCondition, env: Collaborators,
                               executors: map<Duration, IncrementalExecutor>, tables: map<Duration, Table>,
                               probe: Probe, perValue: Duration, oldest: int, startEnd: (int, int), rows: seq<StreamEvent>)
  {
    if !(c.isProcessingOnExternalTime || RequiresAggregatingInMemoryData(oldest, startEnd)) then
      rows == []
    else if c.isDistributed then
      exists order ::
        && IsOrderOf(order, LowerGranularityKeys(c.incrementalDurations, IndexOf(c.incrementalDurations, perValue)))
        && (forall d :: d in order ==> d in c.withinTableLowerGranularityCompileCondition && d in tables)
        && rows == LowerGranularityRows(c, env, tables, probe, order)
    else
      rows == OperatorFind(env.matches, c.inMemoryStoreCompileCondition, probe,
                           env.aggregateInMemory(c.incrementalDurations, perValue, oldest, executors))
  }

  /** Re-aggregation by event timestamp, applied exactly in distributed mode or
      when processing on external time. */
  function Processed(c: IncrementalAggregateCompileCondition, env: Collaborators, perValue: Duration,
                     merged: seq<StreamEvent>): (r: seq<StreamEvent>)
    ensures !(c.isDistributed || c.isProcessingOnExternalTime) ==> r == merged
    ensures c.isDistributed || c.isProcessingOnExternalTime ==> r == env.aggregateByTimestamp(perValue, merged)
  {
    if c.isDistributed || c.isProcessingOnExternalTime then env.aggregateByTimestamp(perValue, merged) else merged
  }

  /** The output data of row `j`: executor `i` runs on the row after every
      event it ran on before and after the rows preceding `j`. */
  function OutputData(rows: seq<StreamEvent>, j: nat, evals: seq<(seq<StreamEvent>, StreamEvent) -> Value>,
                      histories: seq<seq<StreamEvent>>): (data: seq<Value>)
    requires j < |rows| && |histories| == |evals|
    ensures |data| == |evals|
    ensures forall i :: 0 <= i < |evals| ==> data[i] == evals[i](histories[i] + rows[..j], rows[j])
  {
    seq(|evals|, i requires 0 <= i < |evals| => evals[i](histories[i] + rows[..j], rows[j]))
  }

  /** The aggregate selection: one CURRENT output row per input row, in input
      order, carrying the input row's timestamp and the output executors' values. */
  function SelectionRows(rows: seq<StreamEvent>, evals: seq<(seq<StreamEvent>, StreamEvent) -> Value>,
                         histories: seq<seq<StreamEvent>>): (out: seq<StreamEvent>)
    requires |histories| == |evals|
    ensures |out| == |rows|
    ensures forall j :: 0 <= j < |rows| ==>
      && out[j].eventType == Current
      && out[j].timestamp == rows[j].timestamp
      && out[j].data == OutputData(rows, j, evals, histories)
  {
    seq(|rows|, j requires 0 <= j < |rows| => StreamEvent(Current, rows[j].timestamp, OutputData(rows, j, evals, histories)))
  }

  /** Every output executor has run on each row, in order, then on one RESET event. */
  function AfterSelection(histories: seq<seq<StreamEvent>>, rows: seq<StreamEvent>): (h: seq<seq<StreamEvent>>)
    ensures |h| == |histories|
    ensures forall i :: 0 <= i < |h| ==> h[i] == histories[i] + rows + [ResetEvent]
  {
    seq(|histories|, i requires 0 <= i < |histories| => histories[i] + rows + [ResetEvent])
  }

  ghost predicate Distinct(outputs: seq<OutputExecutor>) {
    forall i, j :: 0 <= i < j < |outputs| ==> outputs[i] != outputs[j]
  }

  ghost function Histories(outputs: seq<OutputExecutor>): (h: seq<seq<StreamEvent>>)
    reads outputs
    ensures |h| == |outputs| && forall i :: 0 <= i < |outputs| ==> h[i] == outputs[i].history
  {
    seq(|outputs|, i reads outputs requires 0 <= i < |outputs| => outputs[i].history)
  }

  function Evaluations(outputs: seq<OutputExecutor>): (e: seq<(seq<StreamEvent>, StreamEvent) -> Value>)
    ensures |e| == |outputs| && forall i :: 0 <= i < |outputs| ==> e[i] == outputs[i].evaluate
  {
    seq(|outputs|, i requires 0 <= i < |outputs| => outputs[i].evaluate)
  }

  /** Runs every output executor once on `e`, in list order, and collects
      their values (the output data of one row). */
  method ExecuteAll(outputs: seq<OutputExecutor>, e: StreamEvent) returns (data: seq<Value>)
    requires Distinct(outputs)
    modifies outputs
    ensures |data| == |outputs|
    ensures forall k :: 0 <= k < |outputs| ==> data[k] == outputs[k].evaluate(old(outputs[k].history), e)
    ensures forall k :: 0 <= k < |outputs| ==> outputs[k].history == old(outputs[k].history) + [e]
  {
    data := [];
    var i := 0;
    while i < |outputs|
      invariant 0 <= i <= |outputs|
      invariant |data| == i
      invariant forall k :: 0 <= k < i ==> outputs[k].history == old(outputs[k].history) + [e]
      invariant forall k :: i <= k < |outputs| ==> outputs[k].history == old(outputs[k].history)
      invariant forall k :: 0 <= k < i ==> data[k] == outputs[k].evaluate(old(outputs[k].history), e)
    {
      var v := outputs[i].Execute(e);
      data := data + [v];
      i := i + 1;
    }
  }

  /** `createAggregateSelectionEventChunk`: projects every row through the
      output executors, then runs each of them once on a RESET event. */
  method CreateAggregateSelectionEventChunk(rows: seq<StreamEvent>, outputs: seq<OutputExecutor>)
    returns (selection: seq<StreamEvent>)
    requires Distinct(outputs)
    modifies outputs
    ensures selection == SelectionRows(rows, Evaluations(outputs), old(Histories(outputs)))
    ensures Histories(outputs) == AfterSelection(old(Histories(outputs)), rows)
  {
    ghost var h0 := Histories(outputs);
    ghost var evals := Evaluations(outputs);
    selection := [];
    var j := 0;
    while j < |rows|
      invariant 0 <= j <= |rows|
      invariant |selection| == j
      invariant forall k :: 0 <= k < |outputs| ==> outputs[k].history == h0[k] + rows[..j]
      invariant forall jj :: 0 <= jj < j ==>
        selection[jj] == StreamEvent(Current, rows[jj].timestamp, OutputData(rows, jj, evals, h0))
    {
      var streamEvent := rows[j];
      assert rows[..j + 1] == rows[..j] + [streamEvent];
      var outputData := ExecuteAll(outputs, streamEvent);
      assert outputData == OutputData(rows, j, evals, h0);
      selection := selection + [StreamEvent(Current, streamEvent.timestamp, outputData)];
      j := j + 1;
    }
    assert rows[..j] == rows;
    var _ := ExecuteAll(outputs, ResetEvent);
  }

  // ---------------------------------------------------------------------
  // Retrieval

  /** What retrieval does once the `per` granularity `d` is resolved: the
      persisted rows of `d`, their augmentation, re-aggregation, projection
      through the output executors and the `on` condition. */
  ghost predicate RetrievedAt(c: IncrementalAggregateCompileCondition, env: Collaborators,
                              executors: map<Duration, IncrementalExecutor>, tables: map<Duration, Table>,
                              evals: seq<(seq<StreamEvent>, StreamEvent) -> Value>,
                              probe: Probe, d: Duration, startEnd: (int, int),
                              histBefore: seq<seq<StreamEvent>>, histAfter: seq<seq<StreamEvent>>, rows: seq<StreamEvent>)
    requires |evals| == |histBefore|
    requires Fits(c, executors, tables) && d in executors
  {
    var persisted := OrEmpty(env.tableFind(tables[d], c.withinTableCompiledConditions[d], probe));
    var oldest := OldestInMemoryEventTimestamp(executors, Ordinal(c.incrementalDurations[0]), Ordinal(d));
    exists augmentation ::
      && Augmentation(c, env, executors, tables, probe, d, oldest, startEnd, augmentation)
      && var processed := Processed(c, env, d, persisted + augmentation);
         && histAfter == AfterSelection(histBefore, processed)
         && rows == OperatorFind(env.matches, c.onCompiledCondition, probe, SelectionRows(processed, evals, histBefore))
  }

  /** The matching event once its slot 0 holds the timestamp filters. */
  function Populated(c: IncrementalAggregateCompileCondition, env: Collaborators, p0: Probe, startEnd: (int, int)): (p: Probe)
    requires |p0| >= 1 && p0[0].Some? && c.complexEventPopulater.Some?
    ensures |p| == |p0| && p[0].Some?
    ensures p[0].value == c.complexEventPopulater.value(p0[0].value, TimestampFilters(c, startEnd, p0, env))
    ensures p[1..] == p0[1..]
  {
    p0[0 := Some(c.complexEventPopulater.value(p0[0].value, TimestampFilters(c, startEnd, p0, env)))]
  }

  /** What a retrieval does once the matching event is populated: resolve
      `per`, then retrieve at that granularity. */
  ghost predicate RetrievedPopulated(c: IncrementalAggregateCompileCondition, env: Collaborators, aggregationId: string,
                                     executors: map<Duration, IncrementalExecutor>, tables: map<Duration, Table>,
                                     evals: seq<(seq<StreamEvent>, StreamEvent) -> Value>,
                                     probe: Probe, startEnd: (int, int),
                                     histBefore: seq<seq<StreamEvent>>, histAfter: seq<seq<StreamEvent>>,
                                     r: Result<seq<StreamEvent>, Error>)
    requires |evals| == |histBefore|
    requires Fits(c, executors, tables)
  {
    var per := ResolvePer(env.evalString(c.perExpressionExecutor, probe), env.normalize, executors, aggregationId);
    if per.Failure? then
      r == Failure(per.error) && histAfter == histBefore
    else
      r.Success? && RetrievedAt(c, env, executors, tables, evals, probe, per.value, startEnd, histBefore, histAfter, r.value)
  }

  /** What one retrieval does, from the matching event's slots `before` and
      the output executors' histories `histBefore` to the slots `after`, the
      histories `histAfter` and the outcome `r`. */
  ghost predicate Retrieved(c: IncrementalAggregateCompileCondition, env: Collaborators, aggregationId: string,
                            executors: map<Duration, IncrementalExecutor>, tables: map<Duration, Table>,
                            evals: seq<(seq<StreamEvent>, StreamEvent) -> Value>,
                            before: Probe, after: Probe, histBefore: seq<seq<StreamEvent>>, histAfter: seq<seq<StreamEvent>>,
                            r: Result<seq<StreamEvent>, Error>)
    requires |before| >= 1 && |evals| == |histBefore|
    requires Fits(c, executors, tables)
  {
    var p0 := WithMatchingSlot(before, |c.timestampFilterExecutors| + 2);
    var startEnd := env.startTimeEndTime(c.startTimeEndTimeExpressionExecutor, p0);
    if startEnd.None? then
      r == Failure(WithinUnresolved) && after == p0 && histAfter == histBefore
    else if c.complexEventPopulater.None? then
      r == Failure(PopulaterUnset) && after == p0 && histAfter == histBefore
    else
      && after == Populated(c, env, p0, startEnd.value)
      && RetrievedPopulated(c, env, aggregationId, executors, tables, evals, after, startEnd.value, histBefore, histAfter, r)
  }

  /** A plan without a populater (a fresh compilation or a clone whose
      populater was not set again) yields no rows once its window resolves:
      the retrieval stops at the `null` populater, before any table is read
      and with the output executors untouched. */
  lemma RetrievalNeedsPopulater(c: IncrementalAggregateCompileCondition, env: Collaborators, aggregationId: string,
                                executors: map<Duration, IncrementalExecutor>, tables: map<Duration, Table>,
                                evals: seq<(seq<StreamEvent>, StreamEvent) -> Value>,
                                before: Probe, after: Probe, histBefore: seq<seq<StreamEvent>>, histAfter: seq<seq<StreamEvent>>,
                                r: Result<seq<StreamEvent>, Error>)
    requires |before| >= 1 && |evals| == |histBefore|
    requires Fits(c, executors, tables) && c.complexEventPopulater.None?
    requires Retrieved(c, env, aggregationId, executors, tables, evals, before, after, histBefore, histAfter, r)
    ensures r.Failure? && Kind(r.error) in {RuntimeError, NullPointer}
    ensures histAfter == histBefore
    ensures after == WithMatchingSlot(before, |c.timestampFilterExecutors| + 2)
  {
  }

  /** The part of `find` after the `per` granularity is resolved. */
  method RetrieveAt(c: IncrementalAggregateCompileCondition, env: Collaborators,
                    executors: map<Duration, IncrementalExecutor>, tables: map<Duration, Table>,
                    outputs: seq<OutputExecutor>, probe: Probe, perValue: Duration, startEnd: (int, int))
    returns (rows: seq<StreamEvent>)
    requires Fits(c, executors, tables) && perValue in executors
    requires Distinct(outputs)
    modifies outputs
    ensures RetrievedAt(c, env, executors, tables, Evaluations(outputs), probe, perValue, startEnd,
                        old(Histories(outputs)), Histories(outputs), rows)
  {
    var persisted := OrEmpty(env.tableFind(tables[perValue], c.withinTableCompiledConditions[perValue], probe));
    var matches := persisted;

    var oldest := GetOldestInMemoryEventTimestamp(executors, c.incrementalDurations, perValue);
    ghost var augmentation: seq<StreamEvent> := [];
    if c.isProcessingOnExternalTime || RequiresAggregatingInMemoryData(oldest, startEnd) {
      if c.isDistributed {
        var perValueIndex := IndexOf(c.incrementalDurations, perValue);
        if perValueIndex != 0 {
          var lower := QueryLowerGranularities(c, env, tables, probe, perValueIndex);
          matches := matches + lower;
          augmentation := lower;
        } else {
          assert IsOrderOf([], LowerGranularityKeys(c.incrementalDurations, 0));
        }
      } else {
        var inMemory := env.aggregateInMemory(c.incrementalDurations, perValue, oldest, executors);
        var withinMatchFromInMemory := OperatorFind(env.matches, c.inMemoryStoreCompileCondition, probe, inMemory);
        matches := matches + withinMatchFromInMemory;
        augmentation := withinMatchFromInMemory;
      }
    }
    assert Augmentation(c, env, executors, tables, probe, perValue, oldest, startEnd, augmentation);
    assert matches == persisted + augmentation;

    var processedEvents := Processed(c, env, perValue, matches);
    var selection := CreateAggregateSelectionEventChunk(processedEvents, outputs);
    rows := OperatorFind(env.matches, c.onCompiledCondition, probe, selection);
  }

  /** The part of `find` on the populated matching event. */
  method RetrievePopulated(c: IncrementalAggregateCompileCondition, env: Collaborators, aggregationId: string,
                           executors: map<Duration, IncrementalExecutor>, tables: map<Duration, Table>,
                           outputs: seq<OutputExecutor>, probe: Probe, startEnd: (int, int))
    returns (r: Result<seq<StreamEvent>, Error>)
    requires Fits(c, executors, tables)
    requires Distinct(outputs)
    modifies outputs
    ensures RetrievedPopulated(c, env, aggregationId, executors, tables, Evaluations(outputs), probe, startEnd,
                               old(Histories(outputs)), Histories(outputs), r)
  {
    var per := ResolvePer(env.evalString(c.perExpressionExecutor, probe), env.normalize, executors, aggregationId);
    if per.Failure? {
      return Failure(per.error);
    }
    var rows := RetrieveAt(c, env, executors, tables, outputs, probe, per.value, startEnd);
    r := Success(rows);
  }

  /** Creates the matching stream event when absent, evaluates the window and
      writes the timestamp filters into slot 0 (when there is a populater). */
  method PopulateMatchingEvent(c: IncrementalAggregateCompileCondition, matchingEvent: StateEvent, env: Collaborators)
    returns (startEnd: Option<(int, int)>)
    requires matchingEvent.streamEvents.Length >= 1
    modifies matchingEvent.streamEvents
    ensures var p0 := WithMatchingSlot(old(matchingEvent.streamEvents[..]), |c.timestampFilterExecutors| + 2);
      && startEnd == env.startTimeEndTime(c.startTimeEndTimeExpressionExecutor, p0)
      && matchingEvent.streamEvents[..] ==
           if startEnd.None? || c.complexEventPopulater.None? then p0 else Populated(c, env, p0, startEnd.value)
  {
    var slots := matchingEvent.streamEvents;
    var additionTimestampAttributesSize := |c.timestampFilterExecutors| + 2;
    if slots[0].None? {
      slots[0] := Some(FreshEvent(additionTimestampAttributesSize));
    }
    var p0 := slots[..];
    assert p0 == WithMatchingSlot(old(slots[..]), additionTimestampAttributesSize);
    startEnd := env.startTimeEndTime(c.startTimeEndTimeExpressionExecutor, p0);
    if startEnd.None? {
      return;
    }
    var timestampFilters := FillTimestampFilters(c, startEnd.value, p0, env);
    if c.complexEventPopulater.None? {
      return;
    }
    slots[0] := Some(c.complexEventPopulater.value(slots[0].value, timestampFilters));
    assert slots[..] == Populated(c, env, p0, startEnd.value);
  }

  /** `find`: one retrieval against the executor and table maps. */
  method Find(c: IncrementalAggregateCompileCondition, matchingEvent: StateEvent, aggregationId: string,
              executors: map<Duration, IncrementalExecutor>, tables: map<Duration, Table>,
              outputs: seq<OutputExecutor>, env: Collaborators) returns (r: Result<seq<StreamEvent>, Error>)
    requires matchingEvent.streamEvents.Length >= 1
    requires Fits(c, executors, tables)
    requires Distinct(outputs)
    modifies matchingEvent.streamEvents, outputs
    ensures Retrieved(c, env, aggregationId, executors, tables, Evaluations(outputs),
                      old(matchingEvent.streamEvents[..]), matchingEvent.streamEvents[..],
                      old(Histories(outputs)), Histories(outputs), r)
  {
    var startTimeEndTime := PopulateMatchingEvent(c, matchingEvent, env);
    if startTimeEndTime.None? {
      return Failure(WithinUnresolved);
    }
    if c.complexEventPopulater.None? {
      return Failure(PopulaterUnset);
    }
    var probe := matchingEvent.streamEvents[..];
    r := RetrievePopulated(c, env, aggregationId, executors, tables, outputs, probe, startTimeEndTime.value);
  }
}
