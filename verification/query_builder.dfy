/**
 * CoraxQueryBuilder: the translation of an RQL WHERE tree into a Corax
 * query plan, with its rewrites (between synthesis, the shapes of negated
 * AND operands, NOT precedence and the merging of boolean items), and
 * BuildQuery, which adds materialisation and sorting.
 *
 * The helpers the builder calls but which are not part of this model
 * (QueryBuilderHelper, QueryMethod.GetMethodType, AutoIndexField naming and
 * the merge tests of CoraxBooleanItem/CoraxBooleanQuery) are the fields of
 * a `Context`.
 */
module CoraxQueryBuilder {
  import opened Common
  import opened QueryAst
  import opened MatchAlgebra
  import S = CoraxSortBuilder

  /** The (value, type) pair QueryBuilderHelper.GetValue returns. */
  datatype TypedValue = TypedValue(value: ObjectValue, tokenType: ValueTokenType)

  datatype Context = Context(
    isDynamic: bool,                                       // metadata.IsDynamic (an auto index)
    methodType: string -> MethodType,                      // QueryMethod.GetMethodType
    extractFieldName: Expr -> Result<string>,              // QueryBuilderHelper.ExtractIndexFieldName
    isExact: (bool, string) -> bool,                       // QueryBuilderHelper.IsExact(index, exact, field)
    getValue: Expr -> Result<TypedValue>,                  // QueryBuilderHelper.GetValue
    getFieldId: (string, bool) -> int,                     // QueryBuilderHelper.GetFieldId(field, ..., exact)
    exactFieldName: string -> string,                      // AutoIndexField.GetExactAutoIndexFieldName
    searchFieldName: string -> string,                     // AutoIndexField.GetSearchAutoIndexFieldName
    valueAsString: ObjectValue -> string,                  // QueryBuilderHelper.CoraxGetValueAsString
    evaluateMethod: Expr -> Result<Expr>,                  // QueryBuilderHelper.EvaluateMethod
    valuesForIn: Expr -> Result<seq<ObjectValue>>,         // QueryBuilderHelper.GetValuesForIn
    parseFloat: string -> Option<real>,                    // float.TryParse
    canBeMerged: (BooleanItem, BooleanItem) -> bool,       // CoraxBooleanItem.CanBeMerged
    canAnd: (seq<BooleanItem>, BooleanItem) -> bool,       // CoraxBooleanQuery.TryAnd succeeds
    canMerge: (seq<BooleanItem>, seq<BooleanItem>) -> bool,  // CoraxBooleanQuery.TryMerge succeeds
    hasInnerBinary: seq<BooleanItem> -> bool,              // CoraxBooleanQuery.HasInnerBinary
    nativeAnalyzer: int -> bool,                           // the field's analyzer is not a LuceneAnalyzerAdapter
    spatialFieldName: Expr -> Result<string>,              // metadata.GetSpatialFieldName
    sort: S.SortContext)

  /** A compiled plan and the `hasBinary` flag ToCoraxQuery reports with it. */
  datatype Compiled = Compiled(query: Match, hasBinary: bool)

  /** QueryBuilderHelper.TranslateUnaryMatchOperation. */
  function TranslateUnaryMatchOperation(op: Operator): UnaryMatchOperation
    requires IsComparison(op)
  {
    match op
    case Equal => Equals
    case NotEqual => NotEquals
    case LessThan => UnaryMatchOperation.LessThan
    case LessThanEqual => LessThanOrEqual
    case GreaterThan => UnaryMatchOperation.GreaterThan
    case GreaterThanEqual => GreaterThanOrEqual
  }

  /** A value as CoraxBooleanItem stores it when it is not converted to a string. */
  function RawTerm(v: ObjectValue): Term
  {
    match v
    case LongValue(n) => Num(n)
    case DoubleValue(n) => Num(n)
    case DecimalValue(n) => Num(n)
    case LazyNumber(n) => Num(n)
    case StringValue(s) => Str(s)
    case BoolValue(b) => Str(if b then "true" else "false")
    case NullValue => NullTerm
  }

  // ---------------------------------------------------------------------
  // TryMergeTwoNodes
  // ---------------------------------------------------------------------

  /** The merged node (if any) and the new values of the two `ref` operands. */
  datatype MergeOutcome = MergeOutcome(merged: Option<Match>, lhs: Match, rhs: Match)

  function TryMergeTwoNodes(ctx: Context, lhs: Match, rhs: Match, score: ScoreFunction, requiredMaterialization: bool): (r: MergeOutcome)
    ensures requiredMaterialization ==> r == MergeOutcome(None, Materialize(lhs), Materialize(rhs))
    ensures r.merged.Some? ==> !requiredMaterialization && IsMergeable(lhs) && IsMergeable(rhs)
    ensures r.merged.None? && !lhs.Item? ==> !IsMergeable(r.lhs)
    ensures r.merged.None? && !rhs.Item? ==> !IsMergeable(r.rhs)
  {
    if requiredMaterialization then MergeOutcome(None, Materialize(lhs), Materialize(rhs))
    else match (lhs, rhs)
      case (BooleanQuery(li, ls), BooleanQuery(ri, _)) =>
        if ctx.canMerge(li, ri) then MergeOutcome(Some(BooleanQuery(li + ri, ls)), lhs, rhs)
        else MergeOutcome(None, Materialize(lhs), Materialize(rhs))
      case (BooleanQuery(li, ls), Item(ri)) =>
        if ctx.canAnd(li, ri) then MergeOutcome(Some(BooleanQuery(li + [ri], ls)), lhs, rhs)
        else MergeOutcome(None, Materialize(lhs), rhs)
      case (Item(li), BooleanQuery(ri, rs)) =>
        if ctx.canAnd(ri, li) then MergeOutcome(Some(BooleanQuery(ri + [li], rs)), lhs, rhs)
        else MergeOutcome(None, lhs, Materialize(rhs))
      case (Item(li), Item(ri)) =>
        if ctx.canBeMerged(li, ri) then MergeOutcome(Some(BooleanQuery([li, ri], score)), lhs, rhs)
        else MergeOutcome(None, lhs, rhs)
      case _ => MergeOutcome(None, Materialize(lhs), Materialize(rhs))
  }

  /** A successful merge matches exactly what the AND of its operands matches. */
  lemma MergedMatchesConjunction(c: Corpus, ctx: Context, lhs: Match, rhs: Match, score: ScoreFunction)
    requires TryMergeTwoNodes(ctx, lhs, rhs, score, false).merged.Some?
    ensures Docs(c, TryMergeTwoNodes(ctx, lhs, rhs, score, false).merged.value) == Docs(c, lhs) * Docs(c, rhs)
  {
    match (lhs, rhs)
    case (BooleanQuery(li, _), BooleanQuery(ri, _)) =>
      ConjunctionAppend(c, li, ri);
    case (BooleanQuery(li, _), Item(ri)) =>
      ConjunctionAppend(c, li, [ri]);
    case (Item(li), BooleanQuery(ri, _)) =>
      ConjunctionAppend(c, ri, [li]);
    case (Item(li), Item(ri)) =>
      ConjunctionAppend(c, [li], [ri]);
  }

  /** Whether merging succeeds or not, the operands keep their document sets. */
  lemma MergeKeepsOperands(c: Corpus, ctx: Context, lhs: Match, rhs: Match, score: ScoreFunction, required: bool)
    ensures Docs(c, TryMergeTwoNodes(ctx, lhs, rhs, score, required).lhs) == Docs(c, lhs)
    ensures Docs(c, TryMergeTwoNodes(ctx, lhs, rhs, score, required).rhs) == Docs(c, rhs)
  {
  }

  // ---------------------------------------------------------------------
  // Rewrites of an AND
  // ---------------------------------------------------------------------

  /**
   * `x > a AND x < b` (either order, strict or not) on the same field with
   * value operands becomes `x BETWEEN a AND b`.
   */
  function BetweenSynthesis(l: Expr, r: Expr): (b: Option<Expr>)
    ensures b.Some? ==> l.BinaryExpr? && r.BinaryExpr? && IsRangeOperation(l.op) && IsRangeOperation(r.op)
                        && l.left == r.left && l.right.ValueExpr? && r.right.ValueExpr?
    ensures b.Some? && IsGreaterThan(l.op) ==>
      b.value == BetweenExpr(l.left, l.right, r.right, l.op == GreaterThanEqual, r.op == LessThanEqual)
    ensures b.Some? && IsLessThan(l.op) ==>
      b.value == BetweenExpr(l.left, r.right, l.right, r.op == GreaterThanEqual, l.op == LessThanEqual)
    ensures b.None? && l.BinaryExpr? && r.BinaryExpr? && l.left == r.left && l.right.ValueExpr? && r.right.ValueExpr? ==>
      !(IsGreaterThan(l.op) && IsLessThan(r.op)) && !(IsLessThan(l.op) && IsGreaterThan(r.op))
  {
    if l.BinaryExpr? && IsRangeOperation(l.op) && r.BinaryExpr? && IsRangeOperation(r.op)
       && l.left == r.left && l.right.ValueExpr? && r.right.ValueExpr?
    then
      if IsGreaterThan(l.op) && IsLessThan(r.op) then
        Some(BetweenExpr(l.left, l.right, r.right, l.op == GreaterThanEqual, r.op == LessThanEqual))
      else if IsLessThan(l.op) && IsGreaterThan(r.op) then
        Some(BetweenExpr(l.left, r.right, l.right, r.op == GreaterThanEqual, l.op == LessThanEqual))
      else None
    else None
  }

  /** `NOT A AND B`, corrected: the documents of B that A does not match. */
  function NegatedLeftAnd(compiledRight: Match, compiledNegated: Match): (r: Match)
    ensures forall c :: Docs(c, r) == Docs(c, compiledRight) - Docs(c, compiledNegated)
  {
    AndNotMatch(compiledRight, compiledNegated)
  }

  /** `NOT A AND B` as CoraxQueryBuilder.cs:219 writes it: AndNot(right, left) with `right` holding A. */
  function NegatedLeftAndAsWritten(compiledRight: Match, compiledNegated: Match): (r: Match)
    ensures forall c :: Docs(c, r) == Docs(c, compiledNegated) - Docs(c, compiledRight)
  {
    AndNotMatch(compiledNegated, compiledRight)
  }

  // ---------------------------------------------------------------------
  // ToCoraxQuery
  // ---------------------------------------------------------------------

  /**
   * ToCoraxQuery: the plan for expression `e`. The reported `hasBinary`
   * flag is never set: every arm either reports false or the OR of its
   * operands' flags.
   */
  function ToCoraxQuery(ctx: Context, e: Expr, exact: bool, proximity: Option<int>, score: ScoreFunction): (r: Result<Compiled>)
    ensures r.Ok? ==> !r.value.hasBinary
    ensures e.TrueExpr? ==> r == Ok(Compiled(AllEntries, false))
    ensures e.ValueExpr? || e.FieldExpr? ==> r == Err(InvalidQuery)
    ensures e.BetweenExpr? ==> (r.Ok? <==> TranslateBetweenQuery(ctx, e, exact, score).Ok?)
    ensures e.BetweenExpr? && r.Ok? ==> r.value.query == Item(TranslateBetweenQuery(ctx, e, exact, score).value)
    ensures e.InExpr? ==> (r.Ok? <==> CompileIn(ctx, e, exact).Ok?)
    ensures e.InExpr? && r.Ok? ==> r.value.query == CompileIn(ctx, e, exact).value
    ensures e.MethodExpr? ==> r == CompileMethod(ctx, e, exact, proximity, score)
    decreases Size(e), 3 + PrecedenceRank(e)
  {
    match e
    case TrueExpr => Ok(Compiled(AllEntries, false))
    case BinaryExpr(_, _, op, _) =>
      if op == And then CompileAnd(ctx, e, exact, score)
      else if op == Or then CompileOr(ctx, e, exact, score)
      else CompileComparison(ctx, e, exact, score)
    case NegatedExpr(inner) =>
      if inner.BinaryExpr? && !inner.parenthesis && (inner.op == And || inner.op == Or) then
        ToCoraxQuery(ctx, PrecedenceRewrite(e), exact, None, score)
      else
        ToCoraxQuery(ctx, inner, exact, None, score)
    case BetweenExpr(_, _, _, _, _) =>
      var item :- TranslateBetweenQuery(ctx, e, exact, score);
      Ok(Compiled(Item(item), false))
    case InExpr(_, _, _) =>
      var m :- CompileIn(ctx, e, exact);
      Ok(Compiled(m, false))
    case MethodExpr(_, _) => CompileMethod(ctx, e, exact, proximity, score)
    case _ => Err(InvalidQuery)
  }

  /** `NOT (l op r)` without parentheses, op being And or Or, is read as `(NOT l) op r`. */
  function PrecedenceRewrite(e: Expr): (r: Expr)
    requires e.NegatedExpr? && e.inner.BinaryExpr?
    ensures r.BinaryExpr? && r.left == NegatedExpr(e.inner.left) && r.right == e.inner.right && r.op == e.inner.op
    ensures Size(r) == Size(e) && PrecedenceRank(r) == 0
  {
    BinaryExpr(NegatedExpr(e.inner.left), e.inner.right, e.inner.op, false)
  }

  function CompileAnd(ctx: Context, e: Expr, exact: bool, score: ScoreFunction): (r: Result<Compiled>)
    requires e.BinaryExpr? && e.op == And
    ensures r.Ok? ==> !r.value.hasBinary
    decreases Size(e), 1
  {
    var between := BetweenSynthesis(e.left, e.right);
    if between.Some? then
      var item :- TranslateBetweenQuery(ctx, between.value, exact, score);
      Ok(Compiled(Item(item), false))
    else if e.left.NegatedExpr? && e.right.NegatedExpr? then
      assert Size(e.left.inner) < Size(e.left) < Size(e);
      assert Size(e.right.inner) < Size(e.right) < Size(e);
      var left :- ToCoraxQuery(ctx, e.left.inner, exact, None, score);
      var right :- ToCoraxQuery(ctx, e.right.inner, false, None, score);
      var m := TryMergeTwoNodes(ctx, left.query, right.query, score, true);
      Ok(Compiled(AndNotMatch(AllEntries, OrMatch(m.lhs, m.rhs)), left.hasBinary || right.hasBinary))
    else if e.left.NegatedExpr? then
      assert Size(e.left.inner) < Size(e.left) < Size(e);
      var left :- ToCoraxQuery(ctx, e.right, exact, None, score);
      var right :- ToCoraxQuery(ctx, e.left.inner, exact, None, score);
      var m := TryMergeTwoNodes(ctx, left.query, right.query, score, true);
      Ok(Compiled(NegatedLeftAndAsWritten(m.lhs, m.rhs), left.hasBinary || right.hasBinary))
    else if e.right.NegatedExpr? then
      assert Size(e.right.inner) < Size(e.right) < Size(e);
      var left :- ToCoraxQuery(ctx, e.left, exact, None, score);
      var right :- ToCoraxQuery(ctx, e.right.inner, exact, None, score);
      var m := TryMergeTwoNodes(ctx, left.query, right.query, score, true);
      Ok(Compiled(AndNotMatch(m.lhs, m.rhs), left.hasBinary || right.hasBinary))
    else
      var left :- ToCoraxQuery(ctx, e.left, exact, None, score);
      var right :- ToCoraxQuery(ctx, e.right, exact, None, score);
      var m := TryMergeTwoNodes(ctx, left.query, right.query, score, false);
      if m.merged.Some? then Ok(Compiled(m.merged.value, false))
      else Ok(Compiled(AndMatch(m.lhs, m.rhs), left.hasBinary || right.hasBinary))
  }

  /**
   * `NOT A AND B` compiled with the corrected node: the same compiles and
   * merge as CompileAnd's arm, then the documents of B without those of A.
   */
  function CompileNegatedLeftAnd(ctx: Context, e: Expr, exact: bool, score: ScoreFunction): (r: Result<Compiled>)
    requires e.BinaryExpr? && e.op == And && e.left.NegatedExpr?
    ensures r.Ok? <==> ToCoraxQuery(ctx, e.right, exact, None, score).Ok? && ToCoraxQuery(ctx, e.left.inner, exact, None, score).Ok?
  {
    var left :- ToCoraxQuery(ctx, e.right, exact, None, score);
    var right :- ToCoraxQuery(ctx, e.left.inner, exact, None, score);
    var m := TryMergeTwoNodes(ctx, left.query, right.query, score, true);
    Ok(Compiled(NegatedLeftAnd(m.lhs, m.rhs), left.hasBinary || right.hasBinary))
  }

  function CompileOr(ctx: Context, e: Expr, exact: bool, score: ScoreFunction): (r: Result<Compiled>)
    requires e.BinaryExpr? && e.op == Or
    ensures r.Ok? ==> !r.value.hasBinary
    decreases Size(e), 1
  {
    var left :- ToCoraxQuery(ctx, e.left, exact, None, score);
    var right :- ToCoraxQuery(ctx, e.right, exact, None, score);
    var m := TryMergeTwoNodes(ctx, left.query, right.query, score, true);
    Ok(Compiled(OrMatch(m.lhs, m.rhs), left.hasBinary || right.hasBinary))
  }

  /** The right-hand side of a comparison: a method call is evaluated first. */
  function ComparisonOperand(ctx: Context, right: Expr): Result<Expr>
  {
    if right.MethodExpr? then ctx.evaluateMethod(right) else Ok(right)
  }

  /** Whether a token type is stored as a raw number rather than through HandleStringUnaryMatch. */
  predicate IsNumericToken(t: ValueTokenType)
  {
    t == Double || t == Long
  }

  /**
   * A comparison `field op value`: one CoraxBooleanItem on the field id
   * looked up after IsExact, holding the raw number for Long and Double
   * values and the string form (or null) otherwise; a null compared by a
   * range operator is NotSupported.
   */
  function CompileComparison(ctx: Context, e: Expr, exact: bool, score: ScoreFunction): (r: Result<Compiled>)
    requires e.BinaryExpr? && IsComparison(e.op)
    ensures r.Ok? <==>
      && ComparisonOperand(ctx, e.right).Ok? && ctx.extractFieldName(e.left).Ok?
      && ctx.getValue(ComparisonOperand(ctx, e.right).value).Ok?
      && var v := ctx.getValue(ComparisonOperand(ctx, e.right).value).value;
         IsNumericToken(v.tokenType) || !v.value.NullValue? || e.op == Equal || e.op == NotEqual
    ensures r.Ok? ==>
      && var name := ctx.extractFieldName(e.left).value;
         var isExact := ctx.isExact(exact, name);
         var v := ctx.getValue(ComparisonOperand(ctx, e.right).value).value;
         && r.value.query.Item? && r.value.query.item.UnaryItem?
         && var item := r.value.query.item;
         && item.operation == TranslateUnaryMatchOperation(e.op) && item.score == score
         && (IsNumericToken(v.tokenType) ==>
               item.field == name && item.fieldId == ctx.getFieldId(name, isExact) && item.value == RawTerm(v.value))
         && (!IsNumericToken(v.tokenType) ==>
               && item.value == (if v.value.NullValue? then NullTerm else Str(ctx.valueAsString(v.value)))
               && (isExact && ctx.isDynamic ==>
                     item.field == ctx.exactFieldName(name) && item.fieldId == ctx.getFieldId(ctx.exactFieldName(name), isExact))
               && (!(isExact && ctx.isDynamic) ==> item.field == name && item.fieldId == ctx.getFieldId(name, isExact)))
  {
    var operation := TranslateUnaryMatchOperation(e.op);
    var right :- ComparisonOperand(ctx, e.right);
    var fieldName :- ctx.extractFieldName(e.left);
    var isExact := ctx.isExact(exact, fieldName);
    var v :- ctx.getValue(right);
    var fieldId := ctx.getFieldId(fieldName, isExact);
    if IsNumericToken(v.tokenType) then
      Ok(Compiled(Item(UnaryItem(fieldName, fieldId, RawTerm(v.value), operation, score)), false))
    else
      var item :- HandleStringUnaryMatch(ctx, fieldName, fieldId, isExact, v.value, operation, score);
      Ok(Compiled(Item(item), false))
  }

  /**
   * HandleStringUnaryMatch: a null value supports only = and !=; any other
   * value is compared as its string form.
   */
  function HandleStringUnaryMatch(ctx: Context, fieldName: string, fieldId: int, exact: bool, value: ObjectValue,
                                  operation: UnaryMatchOperation, score: ScoreFunction): (r: Result<BooleanItem>)
    ensures r.Err? <==> value.NullValue? && operation != Equals && operation != NotEquals
    ensures r.Err? ==> r.error == NotSupported
    ensures r.Ok? ==> r.value.UnaryItem? && r.value.operation == operation
                      && r.value.value == (if value.NullValue? then NullTerm else Str(ctx.valueAsString(value)))
    ensures r.Ok? && exact && ctx.isDynamic ==>
      r.value.field == ctx.exactFieldName(fieldName) && r.value.fieldId == ctx.getFieldId(ctx.exactFieldName(fieldName), exact)
    ensures r.Ok? && !(exact && ctx.isDynamic) ==> r.value.field == fieldName && r.value.fieldId == fieldId
  {
    var name := if exact && ctx.isDynamic then ctx.exactFieldName(fieldName) else fieldName;
    var id := if exact && ctx.isDynamic then ctx.getFieldId(name, exact) else fieldId;
    if value.NullValue? then
      if operation == Equals || operation == NotEquals then Ok(UnaryItem(name, id, NullTerm, operation, score))
      else Err(NotSupported)
    else
      Ok(UnaryItem(name, id, Str(ctx.valueAsString(value)), operation, score))
  }

  /**
   * TranslateBetweenQuery: one Between item on the field id looked up with
   * the incoming `exact` flag, whose bounds are the Min and Max values (their
   * string forms when both are strings, the raw values otherwise) and whose
   * bound operators follow the inclusivity flags.
   */
  function TranslateBetweenQuery(ctx: Context, be: Expr, exact: bool, score: ScoreFunction): (r: Result<BooleanItem>)
    requires be.BetweenExpr?
    ensures r.Ok? <==> ctx.extractFieldName(be.source).Ok? && ctx.getValue(be.min).Ok? && ctx.getValue(be.max).Ok?
    ensures r.Ok? ==>
      && r.value.BetweenItem?
      && r.value.leftOp == (if be.minInclusive then GreaterThanOrEqual else UnaryMatchOperation.GreaterThan)
      && r.value.rightOp == (if be.maxInclusive then LessThanOrEqual else UnaryMatchOperation.LessThan)
      && r.value.score == score
      && var name := ctx.extractFieldName(be.source).value;
         var lo := ctx.getValue(be.min).value;
         var hi := ctx.getValue(be.max).value;
         && r.value.field == name && r.value.fieldId == ctx.getFieldId(name, exact)
         && (lo.tokenType == String && hi.tokenType == String ==>
               r.value.low == Str(ctx.valueAsString(lo.value)) && r.value.high == Str(ctx.valueAsString(hi.value)))
         && (!(lo.tokenType == String && hi.tokenType == String) ==>
               r.value.low == RawTerm(lo.value) && r.value.high == RawTerm(hi.value))
  {
    var fieldName :- ctx.extractFieldName(be.source);
    var first :- ctx.getValue(be.min);
    var second :- ctx.getValue(be.max);
    var fieldId := ctx.getFieldId(fieldName, exact);
    var leftOp := if be.minInclusive then GreaterThanOrEqual else UnaryMatchOperation.GreaterThan;
    var rightOp := if be.maxInclusive then LessThanOrEqual else UnaryMatchOperation.LessThan;
    if first.tokenType == String && second.tokenType == String then
      Ok(BetweenItem(fieldName, fieldId, Str(ctx.valueAsString(first.value)), Str(ctx.valueAsString(second.value)), leftOp, rightOp, score))
    else
      Ok(BetweenItem(fieldName, fieldId, RawTerm(first.value), RawTerm(second.value), leftOp, rightOp, score))
  }

  // ---------------------------------------------------------------------
  // IN and ALL IN
  // ---------------------------------------------------------------------

  /** `f` applied `n` times. */
  function Iterate(f: string -> string, n: nat, x: string): string
  {
    if n == 0 then x else f(Iterate(f, n - 1, x))
  }

  /** The string forms of the IN values, in order. */
  function AsStrings(ctx: Context, values: seq<ObjectValue>): (r: seq<string>)
    ensures |r| == |values|
    ensures forall i :: 0 <= i < |values| ==> r[i] == ctx.valueAsString(values[i])
  {
    if values == [] then [] else [ctx.valueAsString(values[0])] + AsStrings(ctx, values[1..])
  }

  /**
   * The field name IN, ALL IN, startsWith and endsWith work on: the exact
   * auto-index name when IsExact holds on a dynamic index.
   */
  function ExactAwareFieldName(ctx: Context, fieldName: string, exact: bool): string
  {
    if ctx.isExact(exact, fieldName) && ctx.isDynamic then ctx.exactFieldName(fieldName) else fieldName
  }

  /**
   * IN: an InQuery on the (possibly exact) field with the values' string
   * forms in order; ALL IN: an AllInQuery with the set of those string
   * forms, whose field name is renamed once more per value on an exact
   * dynamic field. Both look the field id up after IsExact.
   */
  function CompileIn(ctx: Context, e: Expr, exact: bool): (r: Result<Match>)
    requires e.InExpr?
    ensures r.Ok? <==> ctx.extractFieldName(e.source).Ok? && ctx.valuesForIn(e).Ok?
    ensures r.Ok? ==>
      && var fieldName := ctx.extractFieldName(e.source).value;
         var isExact := ctx.isExact(exact, fieldName);
         var name := ExactAwareFieldName(ctx, fieldName, exact);
         var values := ctx.valuesForIn(e).value;
         && (!e.all ==>
               && r.value.InMatch? && r.value.field == name && r.value.maybeFieldId == Some(ctx.getFieldId(name, isExact))
               && |r.value.terms| == |values|
               && (forall i :: 0 <= i < |values| ==> r.value.terms[i] == ctx.valueAsString(values[i])))
         && (e.all ==>
               && r.value.AllInMatch? && r.value.fieldId == ctx.getFieldId(name, isExact)
               && (forall t :: t in r.value.termSet <==> exists i :: 0 <= i < |values| && t == ctx.valueAsString(values[i]))
               && r.value.field == if isExact && ctx.isDynamic then Iterate(ctx.exactFieldName, |values|, name) else name)
  {
    var fieldName :- ctx.extractFieldName(e.source);
    var isExact := ctx.isExact(exact, fieldName);
    var name := ExactAwareFieldName(ctx, fieldName, exact);
    var fieldId := ctx.getFieldId(name, isExact);
    var values :- ctx.valuesForIn(e);
    if e.all then
      var finalName := if isExact && ctx.isDynamic then Iterate(ctx.exactFieldName, |values|, name) else name;
      Ok(AllInMatch(finalName, fieldId, set i | 0 <= i < |values| :: ctx.valueAsString(values[i])))
    else
      Ok(InMatch(name, Some(fieldId), AsStrings(ctx, values), NullScore))
  }

  /** The foreach loop that collects the IN values. */
  method CollectInMatches(ctx: Context, values: seq<ObjectValue>) returns (matches: seq<string>)
    ensures matches == AsStrings(ctx, values)
  {
    matches := [];
    for i := 0 to |values|
      invariant matches == AsStrings(ctx, values[..i])
    {
      AsStringsAppend(ctx, values[..i], values[i]);
      assert values[..i + 1] == values[..i] + [values[i]];
      matches := matches + [ctx.valueAsString(values[i])];
    }
    assert values[..|values|] == values;
  }

  lemma AsStringsAppend(ctx: Context, values: seq<ObjectValue>, v: ObjectValue)
    ensures AsStrings(ctx, values + [v]) == AsStrings(ctx, values) + [ctx.valueAsString(v)]
  {
  }

  /**
   * The ALL IN foreach loop: it collects the distinct string forms and, for
   * an exact field of an auto index, renames the field once more on every
   * iteration.
   */
  method CollectAllInMatches(ctx: Context, fieldName: string, renames: bool, values: seq<ObjectValue>)
    returns (name: string, unique: set<string>)
    ensures unique == set i | 0 <= i < |values| :: ctx.valueAsString(values[i])
    ensures name == if renames then Iterate(ctx.exactFieldName, |values|, fieldName) else fieldName
  {
    name := fieldName;
    unique := {};
    for i := 0 to |values|
      invariant unique == set k | 0 <= k < i :: ctx.valueAsString(values[k])
      invariant name == if renames then Iterate(ctx.exactFieldName, i, fieldName) else fieldName
    {
      if renames {
        name := ctx.exactFieldName(name);
      }
      unique := unique + {ctx.valueAsString(values[i])};
    }
  }

  // ---------------------------------------------------------------------
  // Methods: search, boost, startsWith, endsWith, exists, exact, spatial
  // ---------------------------------------------------------------------

  function CompileMethod(ctx: Context, e: Expr, exact: bool, proximity: Option<int>, score: ScoreFunction): (r: Result<Compiled>)
    requires e.MethodExpr?
    ensures r.Ok? ==> !r.value.hasBinary
    ensures ctx.methodType(e.name) == Search ==> Wraps(r, HandleSearch(ctx, e.args, proximity, score))
    ensures ctx.methodType(e.name) == StartsWith ==> Wraps(r, HandleStartsWith(ctx, e.args, exact, score))
    ensures ctx.methodType(e.name) == EndsWith ==> Wraps(r, HandleEndsWith(ctx, e.args, exact, score))
    ensures ctx.methodType(e.name) == Exists ==> Wraps(r, HandleExists(ctx, e.args, score))
    ensures IsSpatialMethod(ctx.methodType(e.name))
            ==> Wraps(r, HandleSpatial(ctx, e.args, RelationOf(ctx.methodType(e.name))))
    ensures ctx.methodType(e.name) == Boost ==> r == HandleBoost(ctx, e, exact)
    ensures ctx.methodType(e.name) == Exact ==> r == HandleExact(ctx, e, proximity, score)
    ensures !(IsSpatialMethod(ctx.methodType(e.name)) || ctx.methodType(e.name) in {Search, StartsWith, EndsWith, Exists, Boost, Exact})
            ==> r == Err(MethodNotSupported)
    decreases Size(e), 2
  {
    var t := ctx.methodType(e.name);
    match t
    case Search => var m :- HandleSearch(ctx, e.args, proximity, score); Ok(Compiled(m, false))
    case Boost => HandleBoost(ctx, e, exact)
    case StartsWith => var m :- HandleStartsWith(ctx, e.args, exact, score); Ok(Compiled(m, false))
    case EndsWith => var m :- HandleEndsWith(ctx, e.args, exact, score); Ok(Compiled(m, false))
    case Exists => var m :- HandleExists(ctx, e.args, score); Ok(Compiled(m, false))
    case Exact => HandleExact(ctx, e, proximity, score)
    case SpatialWithin => var m :- HandleSpatial(ctx, e.args, RelationOf(t)); Ok(Compiled(m, false))
    case SpatialContains => var m :- HandleSpatial(ctx, e.args, RelationOf(t)); Ok(Compiled(m, false))
    case SpatialDisjoint => var m :- HandleSpatial(ctx, e.args, RelationOf(t)); Ok(Compiled(m, false))
    case SpatialIntersects => var m :- HandleSpatial(ctx, e.args, RelationOf(t)); Ok(Compiled(m, false))
    case _ => Err(MethodNotSupported)
  }

  /** A compiled method result is its handler's match, with no binary flag, and fails exactly when the handler does. */
  predicate Wraps(r: Result<Compiled>, handled: Result<Match>)
  {
    (r.Ok? <==> handled.Ok?) && (r.Ok? ==> r.value == Compiled(handled.value, false))
  }

  /** The four spatial relation methods. */
  predicate IsSpatialMethod(t: MethodType)
  {
    t == SpatialWithin || t == SpatialContains || t == SpatialDisjoint || t == SpatialIntersects
  }

  /** The relation a spatial method asks for. */
  function RelationOf(t: MethodType): SpatialRelation
    requires IsSpatialMethod(t)
  {
    match t
    case SpatialWithin => Within
    case SpatialContains => Contains
    case SpatialDisjoint => Disjoint
    case SpatialIntersects => Intersects
  }

  /** HandleExact: the first argument compiled with `exact` set. */
  function HandleExact(ctx: Context, e: Expr, proximity: Option<int>, score: ScoreFunction): (r: Result<Compiled>)
    requires e.MethodExpr?
    ensures |e.args| == 0 ==> r == Err(ArgumentOutOfRange)
    ensures |e.args| > 0 ==> r == ToCoraxQuery(ctx, e.args[0], true, proximity, score)
    ensures r.Ok? ==> !r.value.hasBinary
    decreases Size(e), 0
  {
    if |e.args| == 0 then Err(ArgumentOutOfRange)
    else
      FirstArgumentSmaller(e.name, e.args);
      ToCoraxQuery(ctx, e.args[0], true, proximity, score)
  }

  /** The boost factor of boost(expr, value): numbers, or strings that parse as a float. */
  function BoostValue(ctx: Context, v: ObjectValue): (r: Result<real>)
    ensures v.LongValue? || v.DoubleValue? ==> r == Ok(v.n as real)
    ensures v.StringValue? ==> (r.Ok? <==> ctx.parseFloat(v.s).Some?)
    ensures !(v.LongValue? || v.DoubleValue? || v.StringValue?) ==> r == Err(InvalidQuery)
    ensures r.Err? ==> r.error == InvalidQuery
  {
    match v
    case LongValue(n) => Ok(n as real)
    case DoubleValue(n) => Ok(n as real)
    case StringValue(s) => if ctx.parseFloat(s).Some? then Ok(ctx.parseFloat(s).value) else Err(InvalidQuery)
    case _ => Err(InvalidQuery)
  }

  /**
   * HandleBoost: exactly two arguments and a numeric boost, the expression
   * compiled with the null score function, materialised and wrapped in a
   * constant-score boost.
   */
  function HandleBoost(ctx: Context, e: Expr, exact: bool): (r: Result<Compiled>)
    requires e.MethodExpr?
    ensures |e.args| != 2 ==> r == Err(InvalidQuery)
    ensures r.Ok? ==>
      && |e.args| == 2 && !r.value.hasBinary && r.value.query.BoostMatch?
      && r.value.query.score.ConstantScore?
      && ctx.getValue(e.args[1]).Ok? && BoostValue(ctx, ctx.getValue(e.args[1]).value.value) == Ok(r.value.query.score.boost)
      && ToCoraxQuery(ctx, e.args[0], exact, None, NullScore).Ok?
      && r.value.query.inner == Materialize(ToCoraxQuery(ctx, e.args[0], exact, None, NullScore).value.query)
    decreases Size(e), 1
  {
    if |e.args| != 2 then Err(InvalidQuery)
    else
      var v :- ctx.getValue(e.args[1]);
      var boost :- BoostValue(ctx, v.value);
      FirstArgumentSmaller(e.name, e.args);
      var raw :- ToCoraxQuery(ctx, e.args[0], exact, None, NullScore);
      Ok(Compiled(BoostMatch(Materialize(raw.query), ConstantScore(boost)), false))
  }

  /** The operator token of search(field, terms, and|or), compared ignoring case. */
  function SearchOperatorOf(token: Expr): (r: Result<SearchOperator>)
    ensures r.Ok? <==> token.FieldExpr? && |token.compound| == 1
                       && (ToLowerAscii(token.compound[0]) == "and" || ToLowerAscii(token.compound[0]) == "or")
    ensures r.Ok? ==> (r.value == SearchAnd <==> ToLowerAscii(token.compound[0]) == "and")
  {
    if !token.FieldExpr? then Err(InvalidCast)
    else if |token.compound| != 1 then Err(InvalidQuery)
    else if ToLowerAscii(token.compound[0]) == "and" then Ok(SearchAnd)
    else if ToLowerAscii(token.compound[0]) == "or" then Ok(SearchOr)
    else Err(InvalidQuery)
  }

  /**
   * HandleSearch: the field (a field, a string or id()), the search terms,
   * OR unless a third argument says AND, and no proximity.
   */
  function HandleSearch(ctx: Context, args: seq<Expr>, proximity: Option<int>, score: ScoreFunction): (r: Result<Match>)
    ensures proximity.Some? ==> r.Err?
    ensures r.Ok? ==> |args| >= 2
    ensures r.Ok? ==> r.value.SearchMatch? && !r.value.negated && r.value.score == score
    ensures r.Ok? && |args| != 3 ==> r.value.searchOp == SearchOr
    ensures r.Ok? && |args| == 3 ==> SearchOperatorOf(args[2]) == Ok(r.value.searchOp)
    ensures r.Ok? <==>
      && |args| >= 2 && SearchField(ctx, args[0]).Ok? && args[1].ValueExpr?
      && ctx.getValue(args[1]).Ok? && ctx.getValue(args[1]).value.tokenType == String
      && proximity.None? && (|args| == 3 ==> SearchOperatorOf(args[2]).Ok?)
    ensures r.Ok? ==>
      && SearchField(ctx, args[0]).Ok? && ctx.getValue(args[1]).Ok?
      && var named := SearchField(ctx, args[0]).value;
         && r.value.field == (if ctx.isDynamic && !named.1 then ctx.searchFieldName(named.0) else named.0)
         && r.value.fieldId == ctx.getFieldId(r.value.field, false)
         && r.value.text == ctx.valueAsString(ctx.getValue(args[1]).value.value)
         && r.value.nativeAnalyzer == ctx.nativeAnalyzer(r.value.fieldId)
  {
    if |args| == 0 then Err(ArgumentOutOfRange)
    else
      var named :- SearchField(ctx, args[0]);
      var (fieldName, isDocumentId) := named;
      if |args| < 2 then Err(ArgumentOutOfRange)
      else if !args[1].ValueExpr? then Err(InvalidCast)
      else
        var v :- ctx.getValue(args[1]);
        if v.tokenType != String then Err(InvalidQuery)
        else
          var text := ctx.valueAsString(v.value);
          var name := if ctx.isDynamic && !isDocumentId then ctx.searchFieldName(fieldName) else fieldName;
          var fieldId := ctx.getFieldId(name, false);
          if proximity.Some? then Err(NotSupported)
          else
            var op :- if |args| == 3 then SearchOperatorOf(args[2]) else Ok(SearchOr);
            Ok(SearchMatch(name, fieldId, text, op, score, false, ctx.nativeAnalyzer(fieldId)))
  }

  /** The field search() looks in, and whether it is the document id. */
  function SearchField(ctx: Context, arg: Expr): (r: Result<(string, bool)>)
    ensures r.Ok? && r.value.1 ==> r.value.0 == DocumentIdFieldName
    ensures arg.FieldExpr? || arg.ValueExpr? ==>
      && (r.Ok? <==> ctx.extractFieldName(arg).Ok?)
      && (r.Ok? ==> r.value == (ctx.extractFieldName(arg).value, false))
    ensures arg.MethodExpr? && ctx.methodType(arg.name) == Id ==> r == Ok((DocumentIdFieldName, true))
    ensures !(arg.FieldExpr? || arg.ValueExpr? || (arg.MethodExpr? && ctx.methodType(arg.name) == Id)) ==> r == Err(InvalidOperation)
  {
    match arg
    case FieldExpr(_) => var n :- ctx.extractFieldName(arg); Ok((n, false))
    case ValueExpr(_, _, _) => var n :- ctx.extractFieldName(arg); Ok((n, false))
    case MethodExpr(name, _) =>
      if ctx.methodType(name) == Id then Ok((DocumentIdFieldName, true)) else Err(InvalidOperation)
    case _ => Err(InvalidOperation)
  }

  /** The string argument of startsWith/endsWith and the (possibly exact) field it applies to. */
  function AffixArguments(ctx: Context, args: seq<Expr>, exact: bool): (r: Result<(string, int, string)>)
    ensures r.Ok? ==> |args| >= 2 && args[1].ValueExpr? && ctx.getValue(args[1]).Ok?
                      && ctx.getValue(args[1]).value.tokenType == String
                      && r.value.2 == ctx.valueAsString(ctx.getValue(args[1]).value.value)
    ensures |args| >= 2 && args[1].ValueExpr? && ctx.getValue(args[1]).Ok? && ctx.getValue(args[1]).value.tokenType != String
            ==> r.Err?
    ensures r.Ok? <==>
      && |args| >= 2 && ctx.extractFieldName(args[0]).Ok? && args[1].ValueExpr?
      && ctx.getValue(args[1]).Ok? && ctx.getValue(args[1]).value.tokenType == String
    ensures r.Ok? ==>
      && ctx.extractFieldName(args[0]).Ok?
      && var fieldName := ctx.extractFieldName(args[0]).value;
         && r.value.0 == ExactAwareFieldName(ctx, fieldName, exact)
         && r.value.1 == ctx.getFieldId(r.value.0, ctx.isExact(exact, fieldName))
  {
    if |args| == 0 then Err(ArgumentOutOfRange)
    else
      var fieldName :- ctx.extractFieldName(args[0]);
      if |args| < 2 then Err(ArgumentOutOfRange)
      else if !args[1].ValueExpr? then Err(InvalidCast)
      else
        var v :- ctx.getValue(args[1]);
        if v.tokenType != String then Err(InvalidQuery)
        else
          var text := ctx.valueAsString(v.value);
          var name := ExactAwareFieldName(ctx, fieldName, exact);
          Ok((name, ctx.getFieldId(name, ctx.isExact(exact, fieldName)), text))
  }

  /** HandleStartsWith: a prefix scan over the field's string terms. */
  function HandleStartsWith(ctx: Context, args: seq<Expr>, exact: bool, score: ScoreFunction): (r: Result<Match>)
    ensures r.Ok? <==> AffixArguments(ctx, args, exact).Ok?
    ensures r.Ok? ==>
      && r.value.StartsWithMatch? && !r.value.negated && r.value.score == score
      && r.value.text == AffixArguments(ctx, args, exact).value.2
      && r.value.field == AffixArguments(ctx, args, exact).value.0
      && r.value.fieldId == AffixArguments(ctx, args, exact).value.1
  {
    var (name, id, text) :- AffixArguments(ctx, args, exact);
    Ok(StartsWithMatch(name, id, text, score, false))
  }

  /** HandleEndsWith: a suffix scan over the field's string terms. */
  function HandleEndsWith(ctx: Context, args: seq<Expr>, exact: bool, score: ScoreFunction): (r: Result<Match>)
    ensures r.Ok? <==> AffixArguments(ctx, args, exact).Ok?
    ensures r.Ok? ==>
      && r.value.EndsWithMatch? && !r.value.negated && r.value.score == score
      && r.value.text == AffixArguments(ctx, args, exact).value.2
      && r.value.field == AffixArguments(ctx, args, exact).value.0
      && r.value.fieldId == AffixArguments(ctx, args, exact).value.1
  {
    var (name, id, text) :- AffixArguments(ctx, args, exact);
    Ok(EndsWithMatch(name, id, text, score, false))
  }

  /** HandleExists: the documents holding any term in the field. */
  function HandleExists(ctx: Context, args: seq<Expr>, score: ScoreFunction): (r: Result<Match>)
    ensures |args| == 0 ==> r == Err(ArgumentOutOfRange)
    ensures r.Ok? <==> |args| > 0 && ctx.extractFieldName(args[0]).Ok?
    ensures r.Ok? ==> r.value == ExistsMatch(ctx.extractFieldName(args[0]).value, score)
  {
    if |args| == 0 then Err(ArgumentOutOfRange)
    else
      var fieldName :- ctx.extractFieldName(args[0]);
      Ok(ExistsMatch(fieldName, score))
  }

  /** HandleSpatial: a circle or WKT shape, an optional numeric error percentage and the relation. */
  function HandleSpatial(ctx: Context, args: seq<Expr>, relation: SpatialRelation): (r: Result<Match>)
    ensures r.Ok? ==>
      && r.value.SpatialMatch? && r.value.relation == relation && |args| >= 2
      && (r.value.errorPct.Some? <==> |args| == 3)
    ensures r.Ok? <==>
      && |args| >= 2 && SpatialField(ctx, args[0]).Ok? && args[1].MethodExpr? && SpatialErrorPct(ctx, args).Ok?
      && (ctx.methodType(args[1].name) == SpatialCircle || ctx.methodType(args[1].name) == SpatialWkt)
    ensures r.Ok? ==>
      && SpatialField(ctx, args[0]).Ok? && SpatialErrorPct(ctx, args).Ok?
      && r.value.field == SpatialField(ctx, args[0]).value
      && r.value.fieldId == ctx.getFieldId(r.value.field, false)
      && r.value.shape == (if ctx.methodType(args[1].name) == SpatialCircle then CircleShape(args[1].args)
                           else WktShape(args[1].args))
      && r.value.errorPct == SpatialErrorPct(ctx, args).value
  {
    if |args| == 0 then Err(ArgumentOutOfRange)
    else
      var fieldName :- SpatialField(ctx, args[0]);
      var fieldId := ctx.getFieldId(fieldName, false);
      if |args| < 2 then Err(ArgumentOutOfRange)
      else if !args[1].MethodExpr? then Err(InvalidCast)
      else
        var errorPct :- SpatialErrorPct(ctx, args);
        var shapeType := ctx.methodType(args[1].name);
        if shapeType == SpatialCircle then Ok(SpatialMatch(fieldName, fieldId, relation, CircleShape(args[1].args), errorPct))
        else if shapeType == SpatialWkt then Ok(SpatialMatch(fieldName, fieldId, relation, WktShape(args[1].args), errorPct))
        else Err(MethodNotSupported)
  }

  /**
   * The field a spatial query reads: the argument's own field on a static
   * index, the field the auto index derived from a spatial method otherwise.
   */
  function SpatialField(ctx: Context, arg: Expr): Result<string>
  {
    if !ctx.isDynamic then ctx.extractFieldName(arg)
    else if arg.MethodExpr? then ctx.spatialFieldName(arg)
    else Err(InvalidCast)
  }

  /** The optional third spatial argument, which must be a number. */
  function SpatialErrorPct(ctx: Context, args: seq<Expr>): (r: Result<Option<ObjectValue>>)
    ensures |args| != 3 ==> r == Ok(None)
    ensures r.Ok? && |args| == 3 ==>
      && r.value.Some? && ctx.getValue(args[2]).Ok?
      && (ctx.getValue(args[2]).value.tokenType == Long || ctx.getValue(args[2]).value.tokenType == Double)
  {
    if |args| != 3 then Ok(None)
    else if !args[2].ValueExpr? then Err(InvalidCast)
    else
      var v :- ctx.getValue(args[2]);
      if v.tokenType == Long || v.tokenType == Double then Ok(Some(v.value)) else Err(InvalidQuery)
  }

  // ---------------------------------------------------------------------
  // BuildQuery
  // ---------------------------------------------------------------------

  /** The parts of IndexQueryServerSide and its metadata the builder reads. */
  datatype IndexQuery = IndexQuery(
    where: Option<Expr>,
    orderBy: Option<seq<S.OrderByField>>,
    pageSize: int,
    hasBoost: bool)

  /** The match BuildQuery returns and its `isBinary` out-parameter. */
  datatype Built = Built(query: Match, isBinary: bool)

  /** Which plans are BinaryMatch instances: the AND and OR combinators. */
  predicate IsBinaryMatch(m: Match) { m.AndMatch? || m.OrMatch? }

  /** The WHERE part of BuildQuery: the compiled, materialised plan and its binary flag. */
  function BuildWhere(ctx: Context, where: Option<Expr>): (r: Result<Built>)
    ensures r.Ok? ==> !IsMergeable(r.value.query)
    ensures where.None? ==> r == Ok(Built(AllEntries, false))
  {
    if where.None? then Ok(Built(AllEntries, false))
    else
      var compiled :- ToCoraxQuery(ctx, where.value, false, None, NullScore);
      var m := compiled.query;
      var inner := m.BooleanQuery? && ctx.hasInnerBinary(m.items);
      var query := Materialize(m);
      Ok(Built(query, inner || compiled.hasBinary || IsBinaryMatch(query)))
  }

  /** BuildQuery: the materialised WHERE plan, sorted when the query has an ORDER BY. */
  function BuildQuery(ctx: Context, q: IndexQuery, indexHasBoostedFields: bool): (r: Result<Built>)
    ensures r.Ok? ==> BuildWhere(ctx, q.where).Ok? && r.value.isBinary == BuildWhere(ctx, q.where).value.isBinary
    ensures r.Ok? && q.orderBy.None? ==> r.value == BuildWhere(ctx, q.where).value
    ensures q.orderBy.Some? && BuildWhere(ctx, q.where).Ok? ==>
      (r.Ok? <==>
        && S.SortKeys(ctx.sort, q.pageSize, q.orderBy, q.hasBoost, indexHasBoostedFields).Ok?
        && S.OrderBySpec(ctx.sort, BuildWhere(ctx, q.where).value.query,
                         S.SortKeys(ctx.sort, q.pageSize, q.orderBy, q.hasBoost, indexHasBoostedFields).value).Ok?)
    ensures r.Ok? && q.orderBy.Some? ==>
      && S.SortKeys(ctx.sort, q.pageSize, q.orderBy, q.hasBoost, indexHasBoostedFields).Ok?
      && S.OrderBySpec(ctx.sort, BuildWhere(ctx, q.where).value.query,
                       S.SortKeys(ctx.sort, q.pageSize, q.orderBy, q.hasBoost, indexHasBoostedFields).value).Ok?
      && r.value.query
         == S.OrderBySpec(ctx.sort, BuildWhere(ctx, q.where).value.query,
                          S.SortKeys(ctx.sort, q.pageSize, q.orderBy, q.hasBoost, indexHasBoostedFields).value).value
  {
    var built :- BuildWhere(ctx, q.where);
    if q.orderBy.None? then Ok(built)
    else
      var keys :- S.SortKeys(ctx.sort, q.pageSize, q.orderBy, q.hasBoost, indexHasBoostedFields);
      var sorted :- S.OrderBySpec(ctx.sort, built.query, keys);
      Ok(Built(sorted, built.isBinary))
  }
}
