/** Query expressions, as far as the aggregation planner builds or passes
    them on: constants, attribute references, comparisons and conjunctions
    (`Expression.variable`, `Compare.compare`, `Expression.and`). */
module Expressions {
  import opened Wrappers

  /** `Attribute.Type`. */
  datatype AttrType = STRING | INT | LONG | FLOAT | DOUBLE | BOOL | OBJECT

  /** A schema attribute: a name and a type. */
  datatype Attribute = Attribute(name: string, attrType: AttrType)

  /** `Compare.Operator`. */
  datatype CompareOp = LessThan | LessThanEqual | GreaterThan | GreaterThanEqual | Equal | NotEqual

  datatype Expr =
    | StringConstant(s: string)
    | LongConstant(n: int)
    | Variable(name: string)
    | Compare(left: Expr, op: CompareOp, right: Expr)
    | And(left: Expr, right: Expr)

  /** The type an expression executor parsed from `e` reports; the types
      of attributes come from the query's schema. */
  function ReturnType(e: Expr, attributeType: string -> AttrType): (t: AttrType)
    ensures e.StringConstant? ==> t == STRING
    ensures e.LongConstant? ==> t == LONG
    ensures e.Compare? || e.And? ==> t == BOOL
  {
    match e
    case StringConstant(_) => STRING
    case LongConstant(_) => LONG
    case Variable(x) => attributeType(x)
    case Compare(_, _, _) => BOOL
    case And(_, _) => BOOL
  }

  /** The long value of an operand under an assignment of long values to
      attribute names; `None` when it has none (a missing attribute). */
  function LongValue(e: Expr, env: map<string, int>): Option<int> {
    match e
    case LongConstant(n) => Some(n)
    case Variable(x) => if x in env then Some(env[x]) else None
    case _ => None
  }

  function Apply(op: CompareOp, a: int, b: int): bool {
    match op
    case LessThan => a < b
    case LessThanEqual => a <= b
    case GreaterThan => a > b
    case GreaterThanEqual => a >= b
    case Equal => a == b
    case NotEqual => a != b
  }

  /** Whether a condition accepts a row whose long attributes are `env`;
      `other` decides the parts of a condition that are not comparisons of
      longs (a user's `on` condition over strings, say). */
  function Holds(e: Expr, env: map<string, int>, other: Expr -> bool): bool {
    match e
    case Compare(a, op, b) =>
      var x, y := LongValue(a, env), LongValue(b, env);
      if x.Some? && y.Some? then Apply(op, x.value, y.value) else other(e)
    case And(a, b) => Holds(a, env, other) && Holds(b, env, other)
    case _ => other(e)
  }

  function Digit(n: nat): (c: char)
    requires n < 10
  {
    "0123456789"[n]
  }

  /** The decimal digits of `n`, as Java's string concatenation prints an int. */
  function NatToString(n: nat): (s: string)
    ensures |s| >= 1
    ensures n < 10 <==> |s| == 1
    ensures forall i :: 0 <= i < |s| ==> '0' <= s[i] <= '9'
  {
    if n < 10 then [Digit(n)] else NatToString(n / 10) + [Digit(n % 10)]
  }

  /** Different numbers print differently. */
  lemma {:induction false} NatToStringInjective(a: nat, b: nat)
    requires NatToString(a) == NatToString(b)
    ensures a == b
  {
    if a >= 10 && b >= 10 {
      var sa, sb := NatToString(a), NatToString(b);
      assert sa[..|sa| - 1] == NatToString(a / 10);
      assert sb[..|sb| - 1] == NatToString(b / 10);
      NatToStringInjective(a / 10, b / 10);
      assert Digit(a % 10) == sa[|sa| - 1] == sb[|sb| - 1] == Digit(b % 10);
      DigitInjective(a % 10, b % 10);
    } else if a < 10 && b < 10 {
      DigitInjective(a, b);
    }
  }

  lemma DigitInjective(a: nat, b: nat)
    requires a < 10 && b < 10 && Digit(a) == Digit(b)
    ensures a == b
  {
  }
}
