/**
 * CoraxQueryEvaluator: the lean second compiler from a WHERE / ORDER BY
 * tree to a Corax match. Negation travels down as an `isNegated` flag; a
 * negated binary node has its operator overwritten by its negation, so the
 * evaluator returns the rewritten tree next to the match.
 */
module CoraxQueryEvaluator {
  import opened Common
  import opened QueryAst
  import opened MatchAlgebra
  import S = CoraxSortBuilder

  /** The field id the evaluator reserves for the relevance score. */
  const ScoreId: int := -1

  /**
   * What the evaluator consults but does not own: the query metadata's
   * index field names, QueryMethod.GetMethodType, ValueExpression.GetValue
   * with the query parameters, the string form of a value, and float.TryParse.
   */
  datatype Collaborators = Collaborators(
    indexFieldName: seq<string> -> string,
    methodType: string -> MethodType,
    valueOf: (Expr, Parameters) -> Result<ObjectValue>,
    valueText: ObjectValue -> string,
    parseFloat: string -> Option<real>)

  /** The evaluator's view of one query: collaborators, parameters and the index field ids. */
  datatype Env = Env(helpers: Collaborators, parameters: Parameters, fieldsToFetch: Option<map<string, int>>)

  /** The match an expression evaluates to, and the expression tree as left by the evaluation. */
  datatype Evaluation = Evaluation(result: Result<Match>, tree: Expr)

  /** A value with the token type it is treated as. */
  datatype TypedValue = TypedValue(valueType: ValueTokenType, fieldValue: ObjectValue)

  /** An ORDER BY key: the ordered expression, its ordering type and direction. */
  datatype OrderKey = OrderKey(expression: Expr, fieldType: S.OrderByFieldType, ascending: bool)

  /** The part of IndexQueryServerSide the evaluator reads. */
  datatype EvalQuery = EvalQuery(where: Option<Expr>, orderBy: Option<seq<OrderKey>>, parameters: Parameters)

  /** The three comparer kinds of the ORDER BY tables. */
  datatype ComparerType = Ascending | Descending | Boosting

  // ---------------------------------------------------------------------
  // Small total functions
  // ---------------------------------------------------------------------

  /** GetNegated: the operator of the negated comparison, and And/Or swapped. */
  function GetNegated(op: Operator): (r: Operator)
    ensures IsRangeOperation(r) <==> IsRangeOperation(op)
    ensures IsGreaterThan(r) <==> IsLessThan(op)
    ensures (r == And || r == Or) <==> (op == And || op == Or)
  {
    match op
    case LessThan => GreaterThanEqual
    case LessThanEqual => Operator.GreaterThan
    case GreaterThan => LessThanEqual
    case GreaterThanEqual => Operator.LessThan
    case Equal => NotEqual
    case NotEqual => Equal
    case And => Or
    case Or => And
  }

  /** Negating twice gives back the operator. */
  lemma GetNegatedInvolution(op: Operator)
    ensures GetNegated(GetNegated(op)) == op
  {
  }

  /** The match operation of a range operator. */
  function RangeOperation(op: Operator): (r: UnaryMatchOperation)
    requires IsRangeOperation(op)
    ensures r != NotEquals && r != Equals && r != Between
  {
    match op
    case LessThan => UnaryMatchOperation.LessThan
    case LessThanEqual => LessThanOrEqual
    case GreaterThan => UnaryMatchOperation.GreaterThan
    case GreaterThanEqual => GreaterThanOrEqual
  }

  /** On numbers, the negated range operation holds exactly when the original does not. */
  lemma NegatedRangeIsComplement(t: Term, op: Operator, v: Term)
    requires IsRangeOperation(op) && t.Num? && v.Num?
    ensures Satisfies(t, RangeOperation(GetNegated(op)), v) <==> !Satisfies(t, RangeOperation(op), v)
  {
  }

  /** OrderTypeFieldConverter: the compare type of an ordering type. */
  function OrderTypeFieldConverter(t: S.OrderByFieldType): (r: MatchCompareFieldType)
    ensures r == Floating <==> t == S.DoubleOrdering
    ensures r == Integer <==> t == S.LongOrdering || t == S.AlphaNumericOrdering
    ensures r == Floating || r == Integer || r == Sequence
  {
    match t
    case DoubleOrdering => Floating
    case LongOrdering => Integer
    case AlphaNumericOrdering => Integer
    case _ => Sequence
  }

  /** GetComparerType: the score id sorts by relevance whatever the direction. */
  function GetComparerType(ascending: bool, fieldId: int): (r: ComparerType)
    ensures r == Boosting <==> fieldId == ScoreId
    ensures r == Ascending <==> fieldId != ScoreId && ascending
    ensures r == Descending <==> fieldId != ScoreId && !ascending
  {
    if fieldId == ScoreId then Boosting
    else if ascending then Ascending
    else Descending
  }

  /**
   * GetFieldIdInIndex: an index field's id when `isFieldType` allows the
   * lookup, else the reserved ids of the document id and the score.
   */
  function GetFieldIdInIndex(fields: Option<map<string, int>>, fieldName: string, isFieldType: bool): (r: Result<int>)
    ensures fields.None? ==> r == Err(InvalidQuery)
    ensures fields.Some? && isFieldType && fieldName in fields.value ==> r == Ok(fields.value[fieldName])
    ensures fields.Some? && !(isFieldType && fieldName in fields.value) ==>
      r == if fieldName == DocumentIdFieldName then Ok(0)
           else if fieldName == "score" then Ok(ScoreId)
           else Err(InvalidData)
  {
    if fields.None? then Err(InvalidQuery)
    else if isFieldType && fieldName in fields.value then Ok(fields.value[fieldName])
    else if fieldName == DocumentIdFieldName then Ok(0)
    else if fieldName == "score" then Ok(ScoreId)
    else Err(InvalidData)
  }

  /** An index field named like a reserved name hides the reserved id. */
  lemma IndexFieldShadowsReservedNames(fields: map<string, int>)
    requires "score" in fields && fields["score"] != ScoreId
    ensures GetFieldIdInIndex(Some(fields), "score", true) != Ok(ScoreId)
    ensures GetFieldIdInIndex(Some(fields), "score", false) == Ok(ScoreId)
  {
  }

  /** GetField: the index field name an expression designates. */
  function GetField(env: Env, e: Expr): (r: Result<string>)
    ensures r.Err? <==> !(e.FieldExpr? || e.ValueExpr? || e.MethodExpr?)
    ensures e.MethodExpr? && e.name == DocumentIdMethodName ==> r == Ok(DocumentIdFieldName)
    ensures e.ValueExpr? ==> r == Ok(e.token)
  {
    match e
    case FieldExpr(compound) => Ok(env.helpers.indexFieldName(compound))
    case ValueExpr(_, token, _) => Ok(token)
    case MethodExpr(name, _) => Ok(if name == DocumentIdMethodName then DocumentIdFieldName else name)
    case _ => Err(InvalidData)
  }

  /** A cast to ValueExpression. */
  function AsValue(e: Expr): (r: Result<Expr>)
    ensures r.Ok? <==> e.ValueExpr?
    ensures r.Ok? ==> r.value == e
    ensures r.Err? ==> r.error == InvalidCast
  {
    if e.ValueExpr? then Ok(e) else Err(InvalidCast)
  }

  /** The field id of a comparison's left operand, which must be a FieldExpression. */
  function FieldIdFor(env: Env, e: Expr): (r: Result<int>)
    ensures r.Ok? ==> e.FieldExpr?
    ensures e.FieldExpr? ==> r == GetFieldIdInIndex(env.fieldsToFetch, env.helpers.indexFieldName(e.compound), true)
  {
    if !e.FieldExpr? then Err(InvalidCast)
    else GetFieldIdInIndex(env.fieldsToFetch, env.helpers.indexFieldName(e.compound), true)
  }

  predicate IsNumberValue(v: ObjectValue)
  {
    v.LazyNumber? || v.LongValue? || v.DecimalValue? || v.DoubleValue?
  }

  /**
   * GetValue: a literal keeps its token type; a parameter must hold a
   * number, typed Long for a long and Double for anything else numeric.
   */
  function GetValue(env: Env, e: Expr): (r: Result<TypedValue>)
    requires e.ValueExpr?
    ensures e.tokenType != Parameter && r.Ok? ==> r.value.valueType == e.tokenType
    ensures e.tokenType == Parameter && r.Ok? ==> r.value.valueType == Long || r.value.valueType == Double
    ensures e.tokenType == Parameter && env.helpers.valueOf(e, env.parameters).Ok? ==>
      (r.Ok? <==> IsNumberValue(env.helpers.valueOf(e, env.parameters).value))
    ensures r.Ok? && r.value.valueType == Long ==> r.value.fieldValue.LongValue? || e.tokenType != Parameter
    ensures r.Ok? && r.value.valueType == Double ==> r.value.fieldValue.DoubleValue? || e.tokenType != Parameter
  {
    var fieldValue :- env.helpers.valueOf(e, env.parameters);
    if e.tokenType != Parameter then Ok(TypedValue(e.tokenType, fieldValue))
    else
      match fieldValue
      case LazyNumber(n) => Ok(TypedValue(Double, DoubleValue(n)))
      case LongValue(_) => Ok(TypedValue(Long, fieldValue))
      case DecimalValue(n) => Ok(TypedValue(Double, DoubleValue(n)))
      case DoubleValue(_) => Ok(TypedValue(Double, fieldValue))
      case _ => Err(NotSupported)
  }

  /** The unboxing cast `(long)` or `(double)` of a value typed Long or Double. */
  function NumericTerm(valueType: ValueTokenType, v: ObjectValue): (r: Result<Term>)
    ensures r.Ok? <==> (valueType == Long && v.LongValue?) || (valueType == Double && v.DoubleValue?)
    ensures r.Ok? ==> r.value == Num(v.n)
  {
    if valueType == Long && v.LongValue? then Ok(Num(v.n))
    else if valueType == Double && v.DoubleValue? then Ok(Num(v.n))
    else Err(InvalidCast)
  }

  /** A numeric query parameter always survives the unboxing cast. */
  lemma ParameterNumbersUnbox(env: Env, e: Expr)
    requires e.ValueExpr? && e.tokenType == Parameter && GetValue(env, e).Ok?
    ensures NumericTerm(GetValue(env, e).value.valueType, GetValue(env, e).value.fieldValue).Ok?
  {
  }

  /** A non-null score function wraps the match in a Boost. */
  function WithScore(m: Match, score: ScoreFunction): (r: Match)
    ensures forall c :: Docs(c, r) == Docs(c, m)
    ensures score.NullScore? ==> r == m
  {
    if score.NullScore? then m else BoostMatch(m, score)
  }

  predicate IsUnary(e: Expr)
  {
    e.BinaryExpr? && IsRangeOperation(e.op)
  }

  // ---------------------------------------------------------------------
  // The shape of the rewritten tree
  // ---------------------------------------------------------------------

  /** Two trees that differ at most in the operators of their binary nodes. */
  predicate SameShape(a: Expr, b: Expr)
  {
    match a
    case BinaryExpr(l, r, _, p) => b.BinaryExpr? && b.parenthesis == p && SameShape(l, b.left) && SameShape(r, b.right)
    case NegatedExpr(x) => b.NegatedExpr? && SameShape(x, b.inner)
    case MethodExpr(n, args) =>
      && b.MethodExpr? && b.name == n && |b.args| == |args|
      && (|args| > 0 ==> SameShape(args[0], b.args[0]) && b.args[1..] == args[1..])
    case _ => a == b
  }

  lemma {:induction false} SameShapeReflexive(e: Expr)
    ensures SameShape(e, e)
  {
    match e
    case BinaryExpr(l, r, _, _) =>
      SameShapeReflexive(l);
      SameShapeReflexive(r);
    case NegatedExpr(x) => SameShapeReflexive(x);
    case MethodExpr(_, args) =>
      if |args| > 0 {
        SameShapeReflexive(args[0]);
      }
    case _ =>
  }

  /** A tree without NOT, where the evaluator never negates anything. */
  predicate NegationFree(e: Expr)
  {
    match e
    case BinaryExpr(l, r, _, _) => NegationFree(l) && NegationFree(r)
    case NegatedExpr(_) => false
    case MethodExpr(_, args) => |args| > 0 ==> NegationFree(args[0])
    case _ => true
  }

  // ---------------------------------------------------------------------
  // Evaluate
  // ---------------------------------------------------------------------

  /** Evaluate: the match of `e` under the negation flag, and `e` as the evaluation leaves it. */
  function Evaluate(env: Env, e: Expr, isNegated: bool, score: ScoreFunction): (r: Evaluation)
    ensures SameShape(e, r.tree)
    ensures !isNegated && NegationFree(e) ==> r.tree == e
    ensures e.TrueExpr? ==> r.result == Ok(AllEntries)
    decreases Size(e), 2
  {
    SameShapeReflexive(e);
    match e
    case NegatedExpr(inner) =>
      var ev := Evaluate(env, inner, !isNegated, score);
      Evaluation(ev.result, NegatedExpr(ev.tree))
    case TrueExpr => Evaluation(Ok(AllEntries), e)
    case BetweenExpr(_, _, _, _, _) => Evaluation(EvaluateBetween(env, e, isNegated, score), e)
    case MethodExpr(name, args) =>
      var methodType := env.helpers.methodType(name);
      if methodType == StartsWith || methodType == EndsWith then
        Evaluation(EvaluateAffix(env, e, methodType == StartsWith, isNegated, score), e)
      else if methodType == Exact then
        if |args| == 0 then Evaluation(Err(ArgumentOutOfRange), e)
        else if !args[0].BinaryExpr? then Evaluation(Err(InvalidCast), e)
        else
          FirstArgumentSmaller(name, args);
          var ev := BinaryEvaluator(env, args[0], isNegated, score);
          assert ([ev.tree] + args[1..])[1..] == args[1..];
          Evaluation(ev.result, MethodExpr(name, [ev.tree] + args[1..]))
      else if methodType == Boost then
        if |args| < 2 then Evaluation(Err(ArgumentOutOfRange), e)
        else
          var boost := if args[1].ValueExpr? then env.helpers.parseFloat(args[1].token) else None;
          if boost.None? then Evaluation(Err(InvalidQuery), e)
          else
            FirstArgumentSmaller(name, args);
            var ev := Evaluate(env, args[0], isNegated, ConstantScore(boost.value));
            assert ([ev.tree] + args[1..])[1..] == args[1..];
            Evaluation(ev.result, MethodExpr(name, [ev.tree] + args[1..]))
      else if methodType == MethodType.Search then Evaluation(SearchMethod(env, e, isNegated, score), e)
      else if methodType == Exists then
        if |args| == 0 then Evaluation(Err(ArgumentOutOfRange), e)
        else
          var fieldName := GetField(env, args[0]);
          Evaluation(if fieldName.Err? then Err(fieldName.error) else Ok(ExistsMatch(fieldName.value, NullScore)), e)
      else Evaluation(Err(NotImplemented), e)
    case InExpr(source, values, _) =>
      if !source.FieldExpr? then Evaluation(Err(NotSupported), e)
      else Evaluation(EvaluateIn(source, values, score), e)
    case BinaryExpr(_, _, _, _) => BinaryEvaluator(env, e, isNegated, score)
    case _ => Evaluation(Err(EvaluationFailed), e)
  }

  /**
   * BinaryEvaluator: under negation the node's operator is first replaced
   * by its negation, then the (new) operator decides.
   */
  function BinaryEvaluator(env: Env, e: Expr, isNegated: bool, score: ScoreFunction): (r: Evaluation)
    requires e.BinaryExpr?
    ensures r.tree.BinaryExpr? && r.tree.op == (if isNegated then GetNegated(e.op) else e.op)
    ensures SameShape(e, r.tree)
    ensures !isNegated && NegationFree(e) ==> r.tree == e
    decreases Size(e), 1
  {
    SameShapeReflexive(e.left);
    SameShapeReflexive(e.right);
    var op := if isNegated then GetNegated(e.op) else e.op;
    var node := e.(op := op);
    if op == Or then
      var left := Evaluate(env, e.left, isNegated, score);
      if left.result.Err? then Evaluation(left.result, node.(left := left.tree))
      else
        var right := Evaluate(env, e.right, isNegated, score);
        var tree := node.(left := left.tree, right := right.tree);
        if right.result.Err? then Evaluation(right.result, tree)
        else Evaluation(Ok(OrMatch(left.result.value, right.result.value)), tree)
    else if op == Equal then
      Evaluation(EvaluateEqual(env, node, score), node)
    else if op == NotEqual then
      Evaluation(EvaluateNotEqual(env, node, isNegated), node)
    else if IsRangeOperation(op) then
      Evaluation(EvaluateUnary(env, op, AllEntries, node, score), node)
    else AndEvaluator(env, node, isNegated, score)
  }

  /**
   * The AND node (after any rewrite): how its operands combine depends on
   * which of them are range comparisons. Two ranges chain on all entries,
   * one range narrows the other operand's match, and two other operands
   * are intersected.
   */
  function AndEvaluator(env: Env, node: Expr, isNegated: bool, score: ScoreFunction): (r: Evaluation)
    requires node.BinaryExpr? && node.op == And
    ensures r.tree.BinaryExpr? && r.tree.op == And
    ensures SameShape(node, r.tree)
    ensures !isNegated && NegationFree(node) ==> r.tree == node
    decreases Size(node), 0
  {
    SameShapeReflexive(node.left);
    SameShapeReflexive(node.right);
    if !IsUnary(node.left) && !IsUnary(node.right) then
      var left := Evaluate(env, node.left, isNegated, score);
      if left.result.Err? then Evaluation(left.result, node.(left := left.tree))
      else
        var right := Evaluate(env, node.right, isNegated, score);
        var tree := node.(left := left.tree, right := right.tree);
        if right.result.Err? then Evaluation(right.result, tree)
        else Evaluation(Ok(AndMatch(left.result.value, right.result.value)), tree)
    else if IsUnary(node.left) && IsUnary(node.right) then
      var first := EvaluateUnary(env, node.left.op, AllEntries, node.left, score);
      if first.Err? then Evaluation(first, node)
      else Evaluation(EvaluateUnary(env, node.right.op, first.value, node.right, score), node)
    else if IsUnary(node.left) then
      var right := Evaluate(env, node.right, isNegated, score);
      var tree := node.(right := right.tree);
      if right.result.Err? then Evaluation(right.result, tree)
      else Evaluation(EvaluateUnary(env, node.left.op, right.result.value, node.left, score), tree)
    else
      var left := Evaluate(env, node.left, isNegated, score);
      var tree := node.(left := left.tree);
      if left.result.Err? then Evaluation(left.result, tree)
      else Evaluation(EvaluateUnary(env, node.right.op, left.result.value, node.right, score), tree)
  }

  /** The Equal case: a term query on the field, boosted under a score function. */
  function EvaluateEqual(env: Env, e: Expr, score: ScoreFunction): (r: Result<Match>)
    requires e.BinaryExpr?
    ensures r.Ok? ==>
      && e.left.FieldExpr? && e.right.ValueExpr?
      && env.helpers.valueOf(e.right, env.parameters).Ok? && FieldIdFor(env, e.left).Ok?
      && r.value == WithScore(TermMatch(env.helpers.indexFieldName(e.left.compound), FieldIdFor(env, e.left).value,
                                        env.helpers.valueText(env.helpers.valueOf(e.right, env.parameters).value)), score)
  {
    var value :- AsValue(e.right);
    if !e.left.FieldExpr? then Err(InvalidCast)
    else
    var fieldName := env.helpers.indexFieldName(e.left.compound);
    var v :- env.helpers.valueOf(value, env.parameters);
    var fieldId :- GetFieldIdInIndex(env.fieldsToFetch, fieldName, true);
    Ok(WithScore(TermMatch(fieldName, fieldId, env.helpers.valueText(v)), score))
  }

  /**
   * The NotEqual case: a term query when negated, otherwise every document
   * except those holding the value.
   */
  function EvaluateNotEqual(env: Env, e: Expr, isNegated: bool): (r: Result<Match>)
    requires e.BinaryExpr?
    ensures r.Ok? ==>
      && e.left.FieldExpr? && e.right.ValueExpr?
      && env.helpers.valueOf(e.right, env.parameters).Ok? && FieldIdFor(env, e.left).Ok?
      && var id := FieldIdFor(env, e.left).value;
         var text := env.helpers.valueText(env.helpers.valueOf(e.right, env.parameters).value);
         r.value == if isNegated then TermMatch(env.helpers.indexFieldName(e.left.compound), id, text)
                    else NotEqualsMatch(AllEntries, id, text)
  {
    var value :- AsValue(e.right);
    if !e.left.FieldExpr? then Err(InvalidCast)
    else
    var fieldName := env.helpers.indexFieldName(e.left.compound);
    if isNegated then
      var v :- env.helpers.valueOf(value, env.parameters);
      var fieldId :- GetFieldIdInIndex(env.fieldsToFetch, fieldName, true);
      Ok(TermMatch(fieldName, fieldId, env.helpers.valueText(v)))
    else
      var fieldId :- GetFieldIdInIndex(env.fieldsToFetch, fieldName, true);
      var v :- env.helpers.valueOf(value, env.parameters);
      Ok(NotEqualsMatch(AllEntries, fieldId, env.helpers.valueText(v)))
  }

  /**
   * EvaluateUnary: the range `op` on the comparison's field, applied to the
   * documents of `previous`. A string bound is never copied into the slice
   * the range compares with, so a string range compares with the empty string.
   */
  function EvaluateUnary(env: Env, op: Operator, previous: Match, value: Expr, score: ScoreFunction): (r: Result<Match>)
    requires IsRangeOperation(op) && value.BinaryExpr?
    ensures r.Ok? ==>
      && FieldIdFor(env, value.left).Ok? && value.right.ValueExpr? && GetValue(env, value.right).Ok?
      && var v := GetValue(env, value.right).value;
         (v.valueType == String || NumericTerm(v.valueType, v.fieldValue).Ok?)
         && r.value == WithScore(RangeMatch(previous, FieldIdFor(env, value.left).value, RangeOperation(op),
                                            if v.valueType == String then Str("") else NumericTerm(v.valueType, v.fieldValue).value), score)
  {
    var fieldId :- FieldIdFor(env, value.left);
    var right :- AsValue(value.right);
    var field :- GetValue(env, right);
    if field.valueType == String then
      Ok(WithScore(RangeMatch(previous, fieldId, RangeOperation(op), Str("")), score))
    else if field.valueType == Long || field.valueType == Double then
      var term :- NumericTerm(field.valueType, field.fieldValue);
      Ok(WithScore(RangeMatch(previous, fieldId, RangeOperation(op), term), score))
    else Err(EvaluationFailed)
  }

  /**
   * EvaluateBetween: Long or Double bounds of the same type give Between,
   * or NotBetween when negated; string bounds fail on the `(long)` cast;
   * any other pair is rejected. Inclusivity is not consulted.
   */
  function EvaluateBetween(env: Env, e: Expr, negated: bool, score: ScoreFunction): (r: Result<Match>)
    requires e.BetweenExpr?
    ensures r.Ok? ==>
      && e.min.ValueExpr? && e.max.ValueExpr?
      && GetValue(env, e.min).Ok? && GetValue(env, e.max).Ok?
      && var lo := GetValue(env, e.min).value;
         var hi := GetValue(env, e.max).value;
         && lo.valueType == hi.valueType && (lo.valueType == Long || lo.valueType == Double)
         && NumericTerm(lo.valueType, lo.fieldValue).Ok? && NumericTerm(hi.valueType, hi.fieldValue).Ok?
         && FieldIdFor(env, e.source).Ok?
         && var id := FieldIdFor(env, e.source).value;
            var low := NumericTerm(lo.valueType, lo.fieldValue).value;
            var high := NumericTerm(hi.valueType, hi.fieldValue).value;
            r.value == WithScore(if negated then NotBetweenMatch(AllEntries, id, low, high)
                                 else BetweenMatch(AllEntries, id, low, high), score)
  {
    var minExpr :- AsValue(e.min);
    var maxExpr :- AsValue(e.max);
    var min :- GetValue(env, minExpr);
    var max :- GetValue(env, maxExpr);
    var fieldId :- FieldIdFor(env, e.source);
    if min.valueType == max.valueType && (min.valueType == Long || min.valueType == Double) then
      var low :- NumericTerm(min.valueType, min.fieldValue);
      var high :- NumericTerm(max.valueType, max.fieldValue);
      Ok(WithScore(if negated then NotBetweenMatch(AllEntries, fieldId, low, high)
                   else BetweenMatch(AllEntries, fieldId, low, high), score))
    else if min.valueType == String && max.valueType == String then Err(InvalidCast)
    else Err(EvaluationFailed)
  }

  /** The tokens of an IN list, every element of which must be a ValueExpression. */
  function InTokens(values: seq<Expr>): (r: Result<seq<string>>)
    ensures r.Ok? <==> forall i :: 0 <= i < |values| ==> values[i].ValueExpr?
    ensures r.Ok? ==> |r.value| == |values| && forall i :: 0 <= i < |values| ==> r.value[i] == values[i].token
    ensures r.Err? ==> r.error == InvalidCast
  {
    if values == [] then Ok([])
    else
      var first :- AsValue(values[0]);
      var rest :- InTokens(values[1..]);
      Ok([first.token] + rest)
  }

  /** The loop of EvaluateInExpression collecting the tokens. */
  method CollectInTokens(values: seq<Expr>) returns (r: Result<seq<string>>)
    ensures r == InTokens(values)
  {
    var tokens: seq<string> := [];
    for i := 0 to |values|
      invariant |tokens| == i
      invariant forall k :: 0 <= k < i ==> values[k].ValueExpr? && tokens[k] == values[k].token
    {
      if !values[i].ValueExpr? {
        return Err(InvalidCast);
      }
      tokens := tokens + [values[i].token];
    }
    assert InTokens(values).Ok?;
    assert InTokens(values).value == tokens;
    return Ok(tokens);
  }

  /** EvaluateInExpression: an IN query on the raw field path; ALL IN is not distinguished. */
  function EvaluateIn(source: Expr, values: seq<Expr>, score: ScoreFunction): (r: Result<Match>)
    requires source.FieldExpr?
    ensures r.Ok? <==> InTokens(values).Ok?
    ensures r.Ok? ==> r.value == InMatch(FieldValue(source.compound), None, InTokens(values).value, score)
  {
    var tokens :- InTokens(values);
    Ok(InMatch(FieldValue(source.compound), None, tokens, score))
  }

  /** StartsWith and EndsWith: the prefix or suffix query, carrying the negation flag. */
  function EvaluateAffix(env: Env, e: Expr, prefix: bool, isNegated: bool, score: ScoreFunction): (r: Result<Match>)
    requires e.MethodExpr?
    ensures |e.args| < 2 ==> r.Err?
    ensures r.Ok? ==>
      && e.args[1].ValueExpr? && GetField(env, e.args[0]).Ok?
      && var fieldName := GetField(env, e.args[0]).value;
         GetFieldIdInIndex(env.fieldsToFetch, fieldName, true).Ok?
         && var id := GetFieldIdInIndex(env.fieldsToFetch, fieldName, true).value;
            r.value == if prefix then StartsWithMatch(fieldName, id, e.args[1].token, score, isNegated)
                       else EndsWithMatch(fieldName, id, e.args[1].token, score, isNegated)
  {
    if |e.args| == 0 then Err(ArgumentOutOfRange)
    else
      var fieldName :- GetField(env, e.args[0]);
      var fieldId :- GetFieldIdInIndex(env.fieldsToFetch, fieldName, true);
      if |e.args| < 2 then Err(ArgumentOutOfRange)
      else
        var text :- AsValue(e.args[1]);
        Ok(if prefix then StartsWithMatch(fieldName, fieldId, text.token, score, isNegated)
           else EndsWithMatch(fieldName, fieldId, text.token, score, isNegated))
  }

  /** The third argument of search(): AND or OR, ignoring case. */
  function SearchOperatorNamed(name: string): (r: Result<SearchOperator>)
    ensures r.Ok? <==> ToLowerAscii(name) == "and" || ToLowerAscii(name) == "or"
    ensures r.Ok? ==> (r.value == SearchAnd <==> ToLowerAscii(name) == "and")
  {
    var lower := ToLowerAscii(name);
    if lower == "and" then Ok(SearchAnd)
    else if lower == "or" then Ok(SearchOr)
    else Err(InvalidQuery)
  }

  /** The search term: a parameter's string value or the literal token. */
  function SearchTerm(env: Env, v: Expr): (r: Result<string>)
    requires v.ValueExpr?
    ensures v.tokenType != Parameter ==> r == Ok(v.token)
    ensures v.tokenType == Parameter ==>
      (r.Ok? <==> v.token in env.parameters && env.parameters[v.token].StringValue?)
  {
    if v.tokenType != Parameter then Ok(v.token)
    else if v.token in env.parameters && env.parameters[v.token].StringValue? then Ok(env.parameters[v.token].s)
    else Err(InvalidQuery)
  }

  /**
   * SearchMethod: a full-text query on `search(field)`. Two arguments search
   * with OR and no score function; a third must name AND or OR.
   */
  function SearchMethod(env: Env, e: Expr, isNegated: bool, score: ScoreFunction): (r: Result<Match>)
    requires e.MethodExpr?
    ensures r.Ok? ==>
      && 2 <= |e.args| <= 3 && e.args[1].ValueExpr? && SearchTerm(env, e.args[1]).Ok?
      && r.value.SearchMatch? && r.value.negated == isNegated
      && r.value.text == SearchTerm(env, e.args[1]).value
      && GetField(env, e.args[0]).Ok? && r.value.field == "search(" + GetField(env, e.args[0]).value + ")"
    ensures r.Ok? && |e.args| == 2 ==> r.value.searchOp == SearchOr && r.value.score == NullScore
    ensures r.Ok? && |e.args| == 3 ==>
      && e.args[2].FieldExpr?
      && SearchOperatorNamed(FieldValue(e.args[2].compound)) == Ok(r.value.searchOp)
      && r.value.score == score
    ensures |e.args| > 3 ==> r.Err?
  {
    if |e.args| == 0 then Err(ArgumentOutOfRange)
    else
      var inner :- GetField(env, e.args[0]);
      var fieldName := "search(" + inner + ")";
      var fieldId :- GetFieldIdInIndex(env.fieldsToFetch, fieldName, true);
      if |e.args| < 2 || |e.args| > 3 then Err(InvalidQuery)
      else if !e.args[1].ValueExpr? then Err(InvalidQuery)
      else
        var term :- SearchTerm(env, e.args[1]);
        if |e.args| != 3 then Ok(SearchMatch(fieldName, fieldId, term, SearchOr, NullScore, isNegated, false))
        else if !e.args[2].FieldExpr? then Err(InvalidQuery)
        else
          var op :- SearchOperatorNamed(FieldValue(e.args[2].compound));
          Ok(SearchMatch(fieldName, fieldId, term, op, score, isNegated, false))
  }

  // ---------------------------------------------------------------------
  // OrderBy
  // ---------------------------------------------------------------------

  /** A key the fixed-arity cases accept: a field or a method. */
  predicate IsTableKey(k: OrderKey)
  {
    k.expression.FieldExpr? || k.expression.MethodExpr?
  }

  /** The field id of a key in the fixed-arity cases; a method's name is looked up without the index fields. */
  function KeyId(env: Env, k: OrderKey): (r: Result<int>)
    requires IsTableKey(k)
    ensures k.expression.MethodExpr? ==> r == GetFieldIdInIndex(env.fieldsToFetch, k.expression.name, false)
  {
    if k.expression.MethodExpr? then GetFieldIdInIndex(env.fieldsToFetch, k.expression.name, false)
    else GetFieldIdInIndex(env.fieldsToFetch, env.helpers.indexFieldName(k.expression.compound), true)
  }

  /** The comparer of a comparer type. */
  function TypedComparer(t: ComparerType, id: int, fieldType: MatchCompareFieldType): Comparer
  {
    match t
    case Ascending => AscendingComparer(id, fieldType)
    case Descending => DescendingComparer(id, fieldType)
    case Boosting => BoostingComparer
  }

  /** The comparer the two- and three-key tables pick for a key. */
  function TableComparer(env: Env, k: OrderKey): (r: Result<Comparer>)
    requires IsTableKey(k)
    ensures r.Ok? <==> KeyId(env, k).Ok?
    ensures r.Ok? ==>
      r.value == TypedComparer(GetComparerType(k.ascending, KeyId(env, k).value), KeyId(env, k).value,
                               OrderTypeFieldConverter(k.fieldType))
  {
    var id :- KeyId(env, k);
    Ok(TypedComparer(GetComparerType(k.ascending, id), id, OrderTypeFieldConverter(k.fieldType)))
  }

  function TableComparers(env: Env, keys: seq<OrderKey>): (r: Result<seq<Comparer>>)
    requires forall i :: 0 <= i < |keys| ==> IsTableKey(keys[i])
    ensures r.Ok? ==> |r.value| == |keys| && forall i :: 0 <= i < |keys| ==> TableComparer(env, keys[i]) == Ok(r.value[i])
  {
    if keys == [] then Ok([])
    else
      var first :- TableComparer(env, keys[0]);
      var rest :- TableComparers(env, keys[1..]);
      Ok([first] + rest)
  }

  /** The comparer the generic loop picks for a key. */
  function LoopComparer(env: Env, k: OrderKey): (r: Result<Comparer>)
    ensures !IsTableKey(k) ==> r == Ok(NullComparer)
    ensures k.expression.MethodExpr? && k.expression.name == DocumentIdMethodName ==>
      r == Ok(if k.ascending then AscendingComparer(0, OrderTypeFieldConverter(k.fieldType))
              else DescendingComparer(0, OrderTypeFieldConverter(k.fieldType)))
    ensures k.expression.MethodExpr? && k.expression.name == "score" ==> r == Ok(BoostingComparer)
  {
    match k.expression
    case FieldExpr(compound) =>
      var id :- GetFieldIdInIndex(env.fieldsToFetch, env.helpers.indexFieldName(compound), true);
      var fieldType := OrderTypeFieldConverter(k.fieldType);
      Ok(if k.ascending then AscendingComparer(id, fieldType) else DescendingComparer(id, fieldType))
    case MethodExpr(name, _) =>
      var fieldType := OrderTypeFieldConverter(k.fieldType);
      if name == DocumentIdMethodName then
        Ok(if k.ascending then AscendingComparer(0, fieldType) else DescendingComparer(0, fieldType))
      else if name == "score" then Ok(BoostingComparer)
      else Err(InvalidData)
    case _ => Ok(NullComparer)
  }

  /** The generic loop, key by key; it stops at the first key that fails. */
  function LoopComparers(env: Env, keys: seq<OrderKey>): (r: Result<seq<Comparer>>)
    ensures r.Ok? ==> |r.value| == |keys| && forall i :: 0 <= i < |keys| ==> LoopComparer(env, keys[i]) == Ok(r.value[i])
    decreases |keys|
  {
    if keys == [] then Ok([])
    else
      var prefix :- LoopComparers(env, keys[..|keys| - 1]);
      var last :- LoopComparer(env, keys[|keys| - 1]);
      Ok(prefix + [last])
  }

  lemma {:induction false} LoopComparersErrorPersists(env: Env, keys: seq<OrderKey>, k: nat)
    requires k <= |keys| && LoopComparers(env, keys[..k]).Err?
    ensures LoopComparers(env, keys) == LoopComparers(env, keys[..k])
    decreases |keys| - k
  {
    if k == |keys| {
      assert keys[..k] == keys;
    } else {
      var longer := keys[..k + 1];
      assert longer[..|longer| - 1] == keys[..k];
      LoopComparersErrorPersists(env, keys, k + 1);
    }
  }

  /** The match ordered by a single key. */
  function SingleKeyOrder(env: Env, m: Match, k: OrderKey): (r: Result<Match>)
    ensures !IsTableKey(k) ==> r == Err(InvalidQuery)
    ensures IsTableKey(k) && KeyId(env, k) == Ok(ScoreId) ==> r == Ok(OrderByScore(m))
    ensures r.Ok? ==> forall c :: Docs(c, r.value) == Docs(c, m)
  {
    if !IsTableKey(k) then Err(InvalidQuery)
    else
      var id :- KeyId(env, k);
      var fieldType := OrderTypeFieldConverter(k.fieldType);
      if id == ScoreId then Ok(OrderByScore(m))
      else if id >= 0 then Ok(if k.ascending then OrderByAscending(m, id, fieldType) else OrderByDescending(m, id, fieldType))
      else Err(InvalidData)
  }

  /** The two- and three-key cases: every key must be a field or a method. */
  function TableOrder(env: Env, m: Match, keys: seq<OrderKey>): (r: Result<Match>)
    ensures (exists i :: 0 <= i < |keys| && !IsTableKey(keys[i])) ==> r == Err(InvalidQuery)
    ensures r.Ok? ==> r.value.SortingMultiMatch? && r.value.inner == m && |r.value.comparers| == |keys|
  {
    if exists i :: 0 <= i < |keys| && !IsTableKey(keys[i]) then Err(InvalidQuery)
    else
      var comparers :- TableComparers(env, keys);
      Ok(SortingMultiMatch(m, comparers))
  }

  /** OrderBy: the sorter for `keys`, dispatched on their number. */
  function OrderBySpec(env: Env, m: Match, keys: seq<OrderKey>): (r: Result<Match>)
    ensures |keys| == 0 || |keys| > 8 ==> r.Err?
    ensures r.Ok? ==> forall c :: Docs(c, r.value) == Docs(c, m)
    ensures 4 <= |keys| <= 8 && LoopComparers(env, keys).Ok? ==> r == Ok(SortingMultiMatch(m, LoopComparers(env, keys).value))
  {
    if |keys| == 1 then SingleKeyOrder(env, m, keys[0])
    else if |keys| == 2 || |keys| == 3 then TableOrder(env, m, keys)
    else
      var comparers :- LoopComparers(env, keys);
      if 2 <= |keys| <= 8 then Ok(SortingMultiMatch(m, comparers)) else Err(InvalidQuery)
  }

  /** The OrderBy method: the fixed-arity cases, then the loop filling the comparer array. */
  method OrderBy(env: Env, m: Match, keys: seq<OrderKey>) returns (r: Result<Match>)
    ensures r == OrderBySpec(env, m, keys)
  {
    if |keys| == 1 {
      return SingleKeyOrder(env, m, keys[0]);
    }
    if |keys| == 2 || |keys| == 3 {
      return TableOrder(env, m, keys);
    }
    var comparers := FillComparers(env, keys);
    if comparers.Err? {
      return Err(comparers.error);
    }
    if |keys| < 2 || |keys| > 8 {
      return Err(InvalidQuery);
    }
    return Ok(SortingMultiMatch(m, comparers.value));
  }

  /** The generic loop filling the comparer array, one comparer per key. */
  method FillComparers(env: Env, keys: seq<OrderKey>) returns (r: Result<seq<Comparer>>)
    ensures r == LoopComparers(env, keys)
  {
    var comparers := new Comparer[|keys|](_ => NullComparer);
    for i := 0 to |keys|
      invariant LoopComparers(env, keys[..i]) == Ok(comparers[..i])
    {
      var comparer := LoopComparer(env, keys[i]);
      assert keys[..i + 1][..i] == keys[..i];
      if comparer.Err? {
        LoopComparersErrorPersists(env, keys, i + 1);
        return Err(comparer.error);
      }
      comparers[i] := comparer.value;
      assert comparers[..i + 1] == comparers[..i] + [comparer.value];
    }
    assert keys[..|keys|] == keys;
    assert comparers[..] == comparers[..|keys|];
    return Ok(comparers[..]);
  }

  /**
   * The tables and the loop agree on field keys that do not resolve to the
   * score id; for a field resolving to the score id the tables sort by
   * relevance and the loop by the field.
   */
  lemma TableAgreesWithLoopOnFields(env: Env, k: OrderKey)
    requires k.expression.FieldExpr?
    ensures TableComparer(env, k).Ok? <==> LoopComparer(env, k).Ok?
    ensures TableComparer(env, k).Ok? && KeyId(env, k).value != ScoreId ==> TableComparer(env, k) == LoopComparer(env, k)
    ensures TableComparer(env, k).Ok? && KeyId(env, k).value == ScoreId ==>
      TableComparer(env, k) == Ok(BoostingComparer) && LoopComparer(env, k).value != BoostingComparer
  {
  }

  /**
   * ORDER BY id() is accepted by the generic loop only: with up to three
   * keys the method name `id` is looked up as a field name and rejected.
   */
  lemma OrderByIdNeedsFourKeys(env: Env, m: Match, keys: seq<OrderKey>)
    requires env.fieldsToFetch.Some? && 1 <= |keys| <= 3
    requires keys[0].expression.MethodExpr? && keys[0].expression.name == DocumentIdMethodName
    ensures OrderBySpec(env, m, keys).Err?
    ensures LoopComparer(env, keys[0]).Ok?
  {
    assert KeyId(env, keys[0]) == Err(InvalidData);
    if |keys| > 1 && !exists i :: 0 <= i < |keys| && !IsTableKey(keys[i]) {
      assert TableComparer(env, keys[0]).Err?;
    }
  }

  // ---------------------------------------------------------------------
  // Search
  // ---------------------------------------------------------------------

  function EnvOf(helpers: Collaborators, q: EvalQuery, fields: Option<map<string, int>>): Env
  {
    Env(helpers, q.parameters, fields)
  }

  /** Search: the WHERE clause's match (all entries without one), ordered when the query orders. */
  function SearchSpec(helpers: Collaborators, q: EvalQuery, fields: Option<map<string, int>>): (r: Result<Match>)
    ensures q.where.None? && q.orderBy.None? ==> r == Ok(AllEntries)
    ensures q.where.Some? && q.orderBy.None? ==> r == Evaluate(EnvOf(helpers, q, fields), q.where.value, false, NullScore).result
    ensures r.Ok? && q.where.None? ==> forall c :: Docs(c, r.value) == c.docs
  {
    var env := EnvOf(helpers, q, fields);
    var m :- if q.where.None? then Ok(AllEntries) else Evaluate(env, q.where.value, false, NullScore).result;
    if q.orderBy.Some? then OrderBySpec(env, m, q.orderBy.value) else Ok(m)
  }

  /** The WHERE clause as a search leaves it. */
  function SearchedWhere(helpers: Collaborators, q: EvalQuery, fields: Option<map<string, int>>): Option<Expr>
  {
    if q.where.None? then None else Some(Evaluate(EnvOf(helpers, q, fields), q.where.value, false, NullScore).tree)
  }

  /** The evaluator object: the query and the fields to fetch of the current search. */
  class Evaluator {
    const helpers: Collaborators
    var query: Option<EvalQuery>
    var fieldsToFetch: Option<map<string, int>>

    constructor(helpers: Collaborators)
      ensures this.helpers == helpers && query == None && fieldsToFetch == None
    {
      this.helpers := helpers;
      query := None;
      fieldsToFetch := None;
    }

    /**
     * Search records the query and the fields, evaluates, and leaves the
     * query with its WHERE tree rewritten by the evaluation.
     */
    method Search(q: EvalQuery, fields: Option<map<string, int>>) returns (r: Result<Match>)
      modifies this
      ensures fieldsToFetch == fields
      ensures query == Some(q.(where := SearchedWhere(helpers, q, fields)))
      ensures r == SearchSpec(helpers, q, fields)
    {
      fieldsToFetch := fields;
      query := Some(q);
      var env := Env(helpers, q.parameters, fieldsToFetch);
      var m := AllEntries;
      if q.where.Some? {
        var ev := Evaluate(env, q.where.value, false, NullScore);
        query := Some(q.(where := Some(ev.tree)));
        if ev.result.Err? {
          return ev.result;
        }
        m := ev.result.value;
      }
      if q.orderBy.Some? {
        r := OrderBy(env, m, q.orderBy.value);
      } else {
        r := Ok(m);
      }
    }
  }
}
