/** Compiled conditions, a closed variant instead of the source's
    `CompiledCondition` interface and its downcasts: a lookup compiled by a
    table, or an operator that filters an event chunk held in memory. */
module Conditions {
  import opened Expressions
  import opened Events

  /** A persisted aggregate table, known by its definition id. */
  datatype Table = Table(id: string)

  /** A compiled condition denotes the condition it was compiled from; `copies`
      records the keys it was cloned under, so that a clone is a value of its
      own and never the original. */
  datatype CompiledCondition =
    | TableLookup(table: Table, condition: Expr, copies: seq<string>)
    | OperatorLookup(condition: Expr, copies: seq<string>)

  /** `CompiledCondition.cloneCompilation(key)`: an independent copy of the
      same lookup. */
  function Clone(c: CompiledCondition, key: string): (r: CompiledCondition)
    ensures r.condition == c.condition
    ensures r.TableLookup? <==> c.TableLookup?
    ensures c.TableLookup? ==> r.table == c.table
    ensures r != c
  {
    var r := c.(copies := c.copies + [key]);
    assert |r.copies| != |c.copies|;
    r
  }

  /** `Operator.find(matchingEvent, chunk, cloner)`: the rows of the chunk
      that the operator's condition accepts for this matching event, in
      chunk order. */
  function OperatorFind(matches: (CompiledCondition, Probe, StreamEvent) -> bool,
                        cond: CompiledCondition, probe: Probe, rows: seq<StreamEvent>): (r: seq<StreamEvent>)
    ensures |r| <= |rows|
    ensures |rows| == 1 ==> r == if matches(cond, probe, rows[0]) then rows else []
  {
    if rows == [] then []
    else
      var rest := OperatorFind(matches, cond, probe, rows[1..]);
      if matches(cond, probe, rows[0]) then [rows[0]] + rest else rest
  }

  /** Filtering a chunk filters each part of it in place: the accepted rows
      keep their chunk order. */
  lemma {:induction false} OperatorFindAppend(matches: (CompiledCondition, Probe, StreamEvent) -> bool,
                                              cond: CompiledCondition, probe: Probe, a: seq<StreamEvent>, b: seq<StreamEvent>)
    ensures OperatorFind(matches, cond, probe, a + b)
         == OperatorFind(matches, cond, probe, a) + OperatorFind(matches, cond, probe, b)
  {
    if a != [] {
      var ab := a + b;
      assert ab[0] == a[0] && ab[1..] == a[1..] + b;
      OperatorFindAppend(matches, cond, probe, a[1..], b);
    } else {
      assert a + b == b;
    }
  }

  /** An operator keeps every accepted row as often as the chunk holds it,
      and no other row. */
  lemma {:induction false} OperatorFindCounts(matches: (CompiledCondition, Probe, StreamEvent) -> bool,
                                              cond: CompiledCondition, probe: Probe, rows: seq<StreamEvent>)
    ensures var r := OperatorFind(matches, cond, probe, rows);
      forall x :: multiset(r)[x] == if matches(cond, probe, x) then multiset(rows)[x] else 0
  {
    if rows != [] {
      OperatorFindCounts(matches, cond, probe, rows[1..]);
      assert rows == [rows[0]] + rows[1..];
      assert multiset(rows) == multiset([rows[0]]) + multiset(rows[1..]);
    }
  }

  /** An operator keeps exactly the rows of the chunk its condition accepts. */
  lemma OperatorFindMembers(matches: (CompiledCondition, Probe, StreamEvent) -> bool,
                            cond: CompiledCondition, probe: Probe, rows: seq<StreamEvent>)
    ensures var r := OperatorFind(matches, cond, probe, rows);
      forall x :: x in r <==> x in rows && matches(cond, probe, x)
  {
    var r := OperatorFind(matches, cond, probe, rows);
    OperatorFindCounts(matches, cond, probe, rows);
    forall x ensures x in r <==> x in rows && matches(cond, probe, x) {
      assert x in r <==> multiset(r)[x] > 0;
      assert x in rows <==> multiset(rows)[x] > 0;
    }
  }
}
