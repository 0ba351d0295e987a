/**
 * The RQL query expression tree both Corax compilers consume, the values it
 * carries, and the query parameters.
 */
module QueryAst {
  import opened Common

  /** OperatorType of a BinaryExpression. */
  datatype Operator = Equal | NotEqual | LessThan | GreaterThan | LessThanEqual | GreaterThanEqual | And | Or

  predicate IsRangeOperation(op: Operator)
  {
    op == LessThan || op == GreaterThan || op == LessThanEqual || op == GreaterThanEqual
  }

  predicate IsGreaterThan(op: Operator) { op == GreaterThan || op == GreaterThanEqual }

  predicate IsLessThan(op: Operator) { op == LessThan || op == LessThanEqual }

  /** The operators that compare a field with a value (everything but And and Or). */
  predicate IsComparison(op: Operator) { op != And && op != Or }

  /** ValueTokenType of a ValueExpression. */
  datatype ValueTokenType = Parameter | Long | Double | String | True | False | Null

  /**
   * The runtime type of a boxed value: a literal of the query or a query
   * parameter. Floating-point numbers are represented by integer keys.
   */
  datatype ObjectValue =
    | LongValue(n: int)
    | DoubleValue(n: int)
    | DecimalValue(n: int)
    | LazyNumber(n: int)
    | StringValue(s: string)
    | BoolValue(b: bool)
    | NullValue

  /** The query parameters, by name. */
  type Parameters = map<string, ObjectValue>

  /** QueryMethod.GetMethodType's classification of a method name. */
  datatype MethodType =
    | Search | Boost | StartsWith | EndsWith | Exists | Exact | Id
    | SpatialWithin | SpatialContains | SpatialDisjoint | SpatialIntersects
    | SpatialCircle | SpatialWkt | SpatialPoint
    | OtherMethod

  /** A QueryExpression. */
  datatype Expr =
    | TrueExpr
    | ValueExpr(tokenType: ValueTokenType, token: string, literal: ObjectValue)
    | FieldExpr(compound: seq<string>)
    | BinaryExpr(left: Expr, right: Expr, op: Operator, parenthesis: bool)
    | NegatedExpr(inner: Expr)
    | BetweenExpr(source: Expr, min: Expr, max: Expr, minInclusive: bool, maxInclusive: bool)
    | InExpr(source: Expr, values: seq<Expr>, all: bool)
    | MethodExpr(name: string, args: seq<Expr>)

  const DocumentIdFieldName: string := "id()"
  const DocumentIdMethodName: string := "id"

  /** FieldExpression.FieldValue: the compound parts joined by dots. */
  function FieldValue(compound: seq<string>): string
  {
    if |compound| == 0 then ""
    else if |compound| == 1 then compound[0]
    else compound[0] + "." + FieldValue(compound[1..])
  }

  /** Number of nodes of an expression; the compilers recurse on smaller trees. */
  function Size(e: Expr): (n: nat)
    ensures e.MethodExpr? && |e.args| > 0 ==> Size(e.args[0]) < n
  {
    match e
    case BinaryExpr(l, r, _, _) => 1 + Size(l) + Size(r)
    case NegatedExpr(x) => 1 + Size(x)
    case BetweenExpr(s, a, b, _, _) => 1 + Size(s) + Size(a) + Size(b)
    case InExpr(s, vs, _) => 1 + Size(s) + SizeOf(vs)
    case MethodExpr(_, args) => 1 + SizeOf(args)
    case _ => 1
  }

  function SizeOf(es: seq<Expr>): nat
  {
    if es == [] then 0 else Size(es[0]) + SizeOf(es[1..])
  }

  lemma FirstArgumentSmaller(name: string, args: seq<Expr>)
    requires |args| > 0
    ensures Size(args[0]) < Size(MethodExpr(name, args))
  {
  }

  /**
   * 1 exactly for the shape the builder rewrites without shrinking it:
   * NOT applied to an unparenthesised AND or OR.
   */
  function PrecedenceRank(e: Expr): nat
  {
    if e.NegatedExpr? && e.inner.BinaryExpr? && !e.inner.parenthesis && (e.inner.op == And || e.inner.op == Or)
    then 1 else 0
  }

  /** ASCII lower-casing, the part of invariant-culture case folding the operator names need. */
  function ToLowerAscii(s: string): (r: string)
    ensures |r| == |s|
    ensures forall i :: 0 <= i < |s| ==> r[i] == LowerChar(s[i])
  {
    if s == [] then [] else [LowerChar(s[0])] + ToLowerAscii(s[1..])
  }

  function LowerChar(c: char): char
  {
    if 'A' <= c <= 'Z' then (c as int - 'A' as int + 'a' as int) as char else c
  }
}
