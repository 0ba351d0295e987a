/**
 * What the matches CoraxQueryEvaluator produces match, over the set
 * denotation of MatchAlgebra: where negation is honoured, where it is
 * lost, and what the in-place operator rewrite does to a second evaluation.
 */
module CoraxQueryEvaluatorProofs {
  import opened Common
  import opened QueryAst
  import opened MatchAlgebra
  import opened CoraxQueryEvaluator

  /** The documents of a successful evaluation. */
  function EvaluatedDocs(c: Corpus, env: Env, e: Expr, isNegated: bool, score: ScoreFunction): set<DocId>
    requires Evaluate(env, e, isNegated, score).result.Ok?
  {
    Docs(c, Evaluate(env, e, isNegated, score).result.value)
  }

  /** A comparison of a field with a value. */
  predicate IsFieldComparison(e: Expr)
  {
    e.BinaryExpr? && e.left.FieldExpr? && e.right.ValueExpr?
  }

  // ---------------------------------------------------------------------
  // One evaluation step
  // ---------------------------------------------------------------------

  lemma UnfoldBinary(env: Env, e: Expr, isNegated: bool, score: ScoreFunction)
    requires e.BinaryExpr?
    ensures Evaluate(env, e, isNegated, score) == BinaryEvaluator(env, e, isNegated, score)
  {
  }

  /** A node that is an AND once rewritten evaluates through AndEvaluator. */
  lemma UnfoldAnd(env: Env, e: Expr, isNegated: bool, score: ScoreFunction)
    requires e.BinaryExpr? && (if isNegated then GetNegated(e.op) else e.op) == And
    ensures Evaluate(env, e, isNegated, score) == AndEvaluator(env, e.(op := And), isNegated, score)
  {
    UnfoldBinary(env, e, isNegated, score);
  }

  /** A node that is an OR once rewritten succeeds when both operands do, with the OR of their matches. */
  lemma OrResult(env: Env, e: Expr, isNegated: bool, score: ScoreFunction)
    requires e.BinaryExpr? && (if isNegated then GetNegated(e.op) else e.op) == Or
    ensures
      var r := Evaluate(env, e, isNegated, score).result;
      var left := Evaluate(env, e.left, isNegated, score).result;
      var right := Evaluate(env, e.right, isNegated, score).result;
      && (r.Ok? <==> left.Ok? && right.Ok?)
      && (r.Ok? ==> r.value == OrMatch(left.value, right.value))
  {
    UnfoldBinary(env, e, isNegated, score);
  }

  /** An AND of two non-range operands succeeds when both do, with the AND of their matches. */
  lemma AndOfOthersResult(env: Env, a: Expr, b: Expr, p: bool, score: ScoreFunction)
    requires !IsUnary(a) && !IsUnary(b)
    ensures
      var r := Evaluate(env, BinaryExpr(a, b, And, p), false, score).result;
      var left := Evaluate(env, a, false, score).result;
      var right := Evaluate(env, b, false, score).result;
      && (r.Ok? <==> left.Ok? && right.Ok?)
      && (r.Ok? ==> r.value == AndMatch(left.value, right.value))
  {
    UnfoldAnd(env, BinaryExpr(a, b, And, p), false, score);
    assert BinaryExpr(a, b, And, p).(op := And) == BinaryExpr(a, b, And, p);
  }

  /** An AND whose left operand is a range applies that range to the right operand's match. */
  lemma AndOfRangeAndOtherResult(env: Env, a: Expr, b: Expr, p: bool, score: ScoreFunction)
    requires IsUnary(a) && !IsUnary(b)
    ensures
      var r := Evaluate(env, BinaryExpr(a, b, And, p), false, score).result;
      var right := Evaluate(env, b, false, score).result;
      r.Ok? ==> right.Ok? && r == EvaluateUnary(env, a.op, right.value, a, score)
  {
    UnfoldAnd(env, BinaryExpr(a, b, And, p), false, score);
    assert BinaryExpr(a, b, And, p).(op := And) == BinaryExpr(a, b, And, p);
  }

  /** An AND whose right operand is a range applies that range to the left operand's match. */
  lemma AndOfOtherAndRangeResult(env: Env, a: Expr, b: Expr, p: bool, score: ScoreFunction)
    requires !IsUnary(a) && IsUnary(b)
    ensures
      var r := Evaluate(env, BinaryExpr(a, b, And, p), false, score).result;
      var left := Evaluate(env, a, false, score).result;
      r.Ok? ==> left.Ok? && r == EvaluateUnary(env, b.op, left.value, b, score)
  {
    UnfoldAnd(env, BinaryExpr(a, b, And, p), false, score);
    assert BinaryExpr(a, b, And, p).(op := And) == BinaryExpr(a, b, And, p);
  }

  /** A range comparison evaluated on its own is that range on all entries. */
  lemma RangeResult(env: Env, a: Expr, score: ScoreFunction)
    requires IsUnary(a)
    ensures Evaluate(env, a, false, score).result == EvaluateUnary(env, a.op, AllEntries, a, score)
  {
    assert a.(op := a.op) == a;
    UnfoldRange(env, a, false, score);
  }

  lemma UnfoldNegated(env: Env, x: Expr, isNegated: bool, score: ScoreFunction)
    ensures Evaluate(env, NegatedExpr(x), isNegated, score).result == Evaluate(env, x, !isNegated, score).result
    ensures Evaluate(env, NegatedExpr(x), isNegated, score).tree == NegatedExpr(Evaluate(env, x, !isNegated, score).tree)
  {
  }

  /** A range comparison evaluates to EvaluateUnary with its (possibly negated) operator. */
  lemma UnfoldRange(env: Env, e: Expr, isNegated: bool, score: ScoreFunction)
    requires e.BinaryExpr? && IsRangeOperation(e.op)
    ensures
      var op := if isNegated then GetNegated(e.op) else e.op;
      Evaluate(env, e, isNegated, score) == Evaluation(EvaluateUnary(env, op, AllEntries, e.(op := op), score), e.(op := op))
  {
    UnfoldBinary(env, e, isNegated, score);
  }

  // ---------------------------------------------------------------------
  // Where negation is honoured
  // ---------------------------------------------------------------------

  /** Two NOTs cancel: the flag flips twice. */
  lemma DoubleNegationCancels(env: Env, x: Expr, isNegated: bool, score: ScoreFunction)
    ensures Evaluate(env, NegatedExpr(NegatedExpr(x)), isNegated, score).result == Evaluate(env, x, isNegated, score).result
  {
    UnfoldNegated(env, NegatedExpr(x), isNegated, score);
    UnfoldNegated(env, x, !isNegated, score);
  }

  /** Every document holds exactly one value in field `id`, and it is a number. */
  predicate HoldsOneNumber(c: Corpus, id: int)
  {
    && SingleValued(c, id)
    && forall d :: d in c.docs ==> exists t :: t in c.values(d, id) && t.Num?
  }

  /** On such a field the negated range selects exactly the other documents. */
  lemma NegatedRangeDocsAreComplement(c: Corpus, id: int, op: Operator, v: Term)
    requires IsRangeOperation(op) && v.Num? && HoldsOneNumber(c, id)
    ensures WithTerm(c, id, RangeOperation(GetNegated(op)), v) == c.docs - WithTerm(c, id, RangeOperation(op), v)
  {
    forall d | d in c.docs
      ensures d in WithTerm(c, id, RangeOperation(GetNegated(op)), v) <==> d !in WithTerm(c, id, RangeOperation(op), v)
    {
      var t :| t in c.values(d, id) && t.Num?;
      NegatedRangeIsComplement(t, op, v);
      forall u | u in c.values(d, id)
        ensures u == t
      {
      }
    }
  }

  /**
   * `NOT (field op number)` for a range operator matches exactly the
   * documents `field op number` does not, on a field where every document
   * holds one number.
   */
  lemma NotOfNumericRangeIsComplement(c: Corpus, env: Env, e: Expr)
    requires IsFieldComparison(e) && IsRangeOperation(e.op)
    requires Evaluate(env, e, false, NullScore).result.Ok?
    requires GetValue(env, e.right).Ok? && GetValue(env, e.right).value.valueType != String
    requires FieldIdFor(env, e.left).Ok? && HoldsOneNumber(c, FieldIdFor(env, e.left).value)
    ensures Evaluate(env, NegatedExpr(e), false, NullScore).result.Ok?
    ensures EvaluatedDocs(c, env, NegatedExpr(e), false, NullScore) == c.docs - EvaluatedDocs(c, env, e, false, NullScore)
  {
    var id := FieldIdFor(env, e.left).value;
    var v := GetValue(env, e.right).value;
    var negatedOp := GetNegated(e.op);
    assert e.(op := e.op) == e;
    UnfoldRange(env, e, false, NullScore);
    UnfoldRange(env, e, true, NullScore);
    UnfoldNegated(env, e, false, NullScore);
    var term := NumericTerm(v.valueType, v.fieldValue).value;
    NumericRangeEvaluates(env, e, e.op);
    NumericRangeEvaluates(env, e.(op := negatedOp), negatedOp);
    NegatedRangeDocsAreComplement(c, id, e.op, term);
    assert Docs(c, AllEntries) == c.docs;
  }

  /** A numeric comparison, under any range operator, is that range on all entries. */
  lemma NumericRangeEvaluates(env: Env, e: Expr, op: Operator)
    requires IsFieldComparison(e) && IsRangeOperation(op)
    requires FieldIdFor(env, e.left).Ok? && GetValue(env, e.right).Ok?
    requires GetValue(env, e.right).value.valueType != String
    requires NumericTerm(GetValue(env, e.right).value.valueType, GetValue(env, e.right).value.fieldValue).Ok?
    ensures EvaluateUnary(env, op, AllEntries, e, NullScore)
         == Ok(RangeMatch(AllEntries, FieldIdFor(env, e.left).value, RangeOperation(op),
                          NumericTerm(GetValue(env, e.right).value.valueType, GetValue(env, e.right).value.fieldValue).value))
  {
  }

  /** `NOT (a AND b)` matches what `NOT a` or `NOT b` matches. */
  lemma NegatedAndIsUnionOfNegations(c: Corpus, env: Env, a: Expr, b: Expr, p: bool, score: ScoreFunction)
    requires Evaluate(env, NegatedExpr(BinaryExpr(a, b, And, p)), false, score).result.Ok?
    ensures Evaluate(env, a, true, score).result.Ok? && Evaluate(env, b, true, score).result.Ok?
    ensures EvaluatedDocs(c, env, NegatedExpr(BinaryExpr(a, b, And, p)), false, score)
         == EvaluatedDocs(c, env, a, true, score) + EvaluatedDocs(c, env, b, true, score)
  {
    UnfoldNegated(env, BinaryExpr(a, b, And, p), false, score);
    OrResult(env, BinaryExpr(a, b, And, p), true, score);
    var left := Evaluate(env, a, true, score).result;
    var right := Evaluate(env, b, true, score).result;
    assert Evaluate(env, NegatedExpr(BinaryExpr(a, b, And, p)), false, score).result.value == OrMatch(left.value, right.value);
  }

  /** `f != v` matches exactly the documents `f = v` does not. */
  lemma NotEqualIsComplementOfEqual(c: Corpus, env: Env, l: Expr, r: Expr, p: bool)
    requires Evaluate(env, BinaryExpr(l, r, Equal, p), false, NullScore).result.Ok?
    ensures Evaluate(env, BinaryExpr(l, r, NotEqual, p), false, NullScore).result.Ok?
    ensures EvaluatedDocs(c, env, BinaryExpr(l, r, NotEqual, p), false, NullScore)
         == c.docs - EvaluatedDocs(c, env, BinaryExpr(l, r, Equal, p), false, NullScore)
  {
    assert BinaryExpr(l, r, Equal, p).(op := Equal) == BinaryExpr(l, r, Equal, p);
    assert BinaryExpr(l, r, NotEqual, p).(op := NotEqual) == BinaryExpr(l, r, NotEqual, p);
    UnfoldBinary(env, BinaryExpr(l, r, Equal, p), false, NullScore);
    UnfoldBinary(env, BinaryExpr(l, r, NotEqual, p), false, NullScore);
    var e := BinaryExpr(l, r, Equal, p);
    assert EvaluateEqual(env, e, NullScore).Ok?;
    var id := FieldIdFor(env, l).value;
    var text := env.helpers.valueText(env.helpers.valueOf(r, env.parameters).value);
    assert EvaluateNotEqual(env, e.(op := NotEqual), false) == Ok(NotEqualsMatch(AllEntries, id, text));
    assert Docs(c, AllEntries) == c.docs;
  }

  /** A negated between matches exactly the documents the between does not. */
  lemma NegatedBetweenIsComplement(c: Corpus, env: Env, e: Expr, score: ScoreFunction)
    requires e.BetweenExpr? && Evaluate(env, e, false, score).result.Ok?
    ensures Evaluate(env, NegatedExpr(e), false, score).result.Ok?
    ensures EvaluatedDocs(c, env, NegatedExpr(e), false, score) == c.docs - EvaluatedDocs(c, env, e, false, score)
  {
    UnfoldNegated(env, e, false, score);
    BetweenResult(env, e, false, score);
    BetweenResult(env, e, true, score);
    BetweenFlagPicksComplement(env, e, score);
    var lo := GetValue(env, e.min).value;
    var hi := GetValue(env, e.max).value;
    var id := FieldIdFor(env, e.source).value;
    var low := NumericTerm(lo.valueType, lo.fieldValue).value;
    var high := NumericTerm(hi.valueType, hi.fieldValue).value;
    BetweenDocsAreComplement(c, id, low, high, score);
  }

  /** A between evaluates through EvaluateBetween under either flag. */
  lemma BetweenResult(env: Env, e: Expr, isNegated: bool, score: ScoreFunction)
    requires e.BetweenExpr?
    ensures Evaluate(env, e, isNegated, score).result == EvaluateBetween(env, e, isNegated, score)
  {
  }

  /** On all entries, NotBetween selects exactly the documents Between does not. */
  lemma BetweenDocsAreComplement(c: Corpus, id: int, low: Term, high: Term, score: ScoreFunction)
    ensures Docs(c, WithScore(NotBetweenMatch(AllEntries, id, low, high), score))
         == c.docs - Docs(c, WithScore(BetweenMatch(AllEntries, id, low, high), score))
  {
    assert Docs(c, NotBetweenMatch(AllEntries, id, low, high)) == c.docs - InRange(c, id, low, high);
    assert Docs(c, BetweenMatch(AllEntries, id, low, high)) == c.docs * InRange(c, id, low, high);
  }

  /** The negation flag only chooses between the between match and its complement. */
  lemma BetweenFlagPicksComplement(env: Env, e: Expr, score: ScoreFunction)
    requires e.BetweenExpr? && EvaluateBetween(env, e, false, score).Ok?
    ensures EvaluateBetween(env, e, true, score).Ok?
    ensures
      && GetValue(env, e.min).Ok? && GetValue(env, e.max).Ok? && FieldIdFor(env, e.source).Ok?
      && NumericTerm(GetValue(env, e.min).value.valueType, GetValue(env, e.min).value.fieldValue).Ok?
      && NumericTerm(GetValue(env, e.max).value.valueType, GetValue(env, e.max).value.fieldValue).Ok?
      && var id := FieldIdFor(env, e.source).value;
         var low := NumericTerm(GetValue(env, e.min).value.valueType, GetValue(env, e.min).value.fieldValue).value;
         var high := NumericTerm(GetValue(env, e.max).value.valueType, GetValue(env, e.max).value.fieldValue).value;
         && EvaluateBetween(env, e, false, score).value == WithScore(BetweenMatch(AllEntries, id, low, high), score)
         && EvaluateBetween(env, e, true, score).value == WithScore(NotBetweenMatch(AllEntries, id, low, high), score)
  {
  }

  /** The bounds' inclusivity does not change what a between evaluates to. */
  lemma BetweenIgnoresInclusivity(env: Env, source: Expr, min: Expr, max: Expr, minInclusive: bool, maxInclusive: bool,
                                  isNegated: bool, score: ScoreFunction)
    ensures Evaluate(env, BetweenExpr(source, min, max, minInclusive, maxInclusive), isNegated, score).result
         == Evaluate(env, BetweenExpr(source, min, max, true, true), isNegated, score).result
  {
  }

  /** OR matches the union of its operands. */
  lemma OrIsUnion(c: Corpus, env: Env, a: Expr, b: Expr, p: bool, score: ScoreFunction)
    requires Evaluate(env, BinaryExpr(a, b, Or, p), false, score).result.Ok?
    ensures Evaluate(env, a, false, score).result.Ok? && Evaluate(env, b, false, score).result.Ok?
    ensures EvaluatedDocs(c, env, BinaryExpr(a, b, Or, p), false, score)
         == EvaluatedDocs(c, env, a, false, score) + EvaluatedDocs(c, env, b, false, score)
  {
    OrResult(env, BinaryExpr(a, b, Or, p), false, score);
    var left := Evaluate(env, a, false, score).result;
    var right := Evaluate(env, b, false, score).result;
    assert Evaluate(env, BinaryExpr(a, b, Or, p), false, score).result.value == OrMatch(left.value, right.value);
  }

  /** A range comparison applied to `previous` keeps the documents of `previous` the comparison selects. */
  lemma UnaryNarrowsPrevious(c: Corpus, env: Env, op: Operator, previous: Match, value: Expr, score: ScoreFunction)
    requires IsRangeOperation(op) && value.BinaryExpr?
    ensures EvaluateUnary(env, op, previous, value, score).Ok? == EvaluateUnary(env, op, AllEntries, value, score).Ok?
    ensures EvaluateUnary(env, op, previous, value, score).Ok? ==>
      Docs(c, EvaluateUnary(env, op, previous, value, score).value)
        == Docs(c, previous) * Docs(c, EvaluateUnary(env, op, AllEntries, value, score).value)
  {
    var r := EvaluateUnary(env, op, previous, value, score);
    if r.Ok? {
      var id := FieldIdFor(env, value.left).value;
      var v := GetValue(env, value.right).value;
      var t := if v.valueType == String then Str("") else NumericTerm(v.valueType, v.fieldValue).value;
      RangeOnPrevious(c, previous, id, RangeOperation(op), t, score);
    }
  }

  /** The range of `previous` is `previous` intersected with the range of all entries. */
  lemma RangeOnPrevious(c: Corpus, previous: Match, id: int, op: UnaryMatchOperation, t: Term, score: ScoreFunction)
    ensures Docs(c, WithScore(RangeMatch(previous, id, op, t), score))
         == Docs(c, previous) * Docs(c, WithScore(RangeMatch(AllEntries, id, op, t), score))
  {
    DocsWithinCorpus(c, previous);
    assert Docs(c, RangeMatch(previous, id, op, t)) == Docs(c, previous) * WithTerm(c, id, op, t);
    assert Docs(c, RangeMatch(AllEntries, id, op, t)) == c.docs * WithTerm(c, id, op, t);
  }

  lemma AndOfRangesIsIntersection(c: Corpus, env: Env, a: Expr, b: Expr, p: bool, score: ScoreFunction)
    requires IsUnary(a) && IsUnary(b)
    requires Evaluate(env, BinaryExpr(a, b, And, p), false, score).result.Ok?
    ensures Evaluate(env, a, false, score).result.Ok? && Evaluate(env, b, false, score).result.Ok?
    ensures EvaluatedDocs(c, env, BinaryExpr(a, b, And, p), false, score)
         == EvaluatedDocs(c, env, a, false, score) * EvaluatedDocs(c, env, b, false, score)
  {
    UnfoldAnd(env, BinaryExpr(a, b, And, p), false, score);
    assert BinaryExpr(a, b, And, p).(op := And) == BinaryExpr(a, b, And, p);
    assert a.(op := a.op) == a;
    assert b.(op := b.op) == b;
    UnfoldRange(env, a, false, score);
    UnfoldRange(env, b, false, score);
    var first := EvaluateUnary(env, a.op, AllEntries, a, score);
    assert first.Ok?;
    UnaryNarrowsPrevious(c, env, b.op, first.value, b, score);
  }

  lemma AndOfRangeAndOtherIsIntersection(c: Corpus, env: Env, a: Expr, b: Expr, p: bool, score: ScoreFunction)
    requires IsUnary(a) && !IsUnary(b)
    requires Evaluate(env, BinaryExpr(a, b, And, p), false, score).result.Ok?
    ensures Evaluate(env, a, false, score).result.Ok? && Evaluate(env, b, false, score).result.Ok?
    ensures EvaluatedDocs(c, env, BinaryExpr(a, b, And, p), false, score)
         == EvaluatedDocs(c, env, a, false, score) * EvaluatedDocs(c, env, b, false, score)
  {
    AndOfRangeAndOtherResult(env, a, b, p, score);
    RangeResult(env, a, score);
    var right := Evaluate(env, b, false, score).result;
    UnaryNarrowsPrevious(c, env, a.op, right.value, a, score);
  }

  lemma AndOfOtherAndRangeIsIntersection(c: Corpus, env: Env, a: Expr, b: Expr, p: bool, score: ScoreFunction)
    requires !IsUnary(a) && IsUnary(b)
    requires Evaluate(env, BinaryExpr(a, b, And, p), false, score).result.Ok?
    ensures Evaluate(env, a, false, score).result.Ok? && Evaluate(env, b, false, score).result.Ok?
    ensures EvaluatedDocs(c, env, BinaryExpr(a, b, And, p), false, score)
         == EvaluatedDocs(c, env, a, false, score) * EvaluatedDocs(c, env, b, false, score)
  {
    AndOfOtherAndRangeResult(env, a, b, p, score);
    RangeResult(env, b, score);
    var left := Evaluate(env, a, false, score).result;
    UnaryNarrowsPrevious(c, env, b.op, left.value, b, score);
  }

  lemma AndOfOthersIsIntersection(c: Corpus, env: Env, a: Expr, b: Expr, p: bool, score: ScoreFunction)
    requires !IsUnary(a) && !IsUnary(b)
    requires Evaluate(env, BinaryExpr(a, b, And, p), false, score).result.Ok?
    ensures Evaluate(env, a, false, score).result.Ok? && Evaluate(env, b, false, score).result.Ok?
    ensures EvaluatedDocs(c, env, BinaryExpr(a, b, And, p), false, score)
         == EvaluatedDocs(c, env, a, false, score) * EvaluatedDocs(c, env, b, false, score)
  {
    AndOfOthersResult(env, a, b, p, score);
  }

  /**
   * AND matches the intersection of its operands, whether a range operand
   * is applied to the other side's match or both are evaluated apart.
   */
  lemma AndIsIntersection(c: Corpus, env: Env, a: Expr, b: Expr, p: bool, score: ScoreFunction)
    requires Evaluate(env, BinaryExpr(a, b, And, p), false, score).result.Ok?
    ensures Evaluate(env, a, false, score).result.Ok? && Evaluate(env, b, false, score).result.Ok?
    ensures EvaluatedDocs(c, env, BinaryExpr(a, b, And, p), false, score)
         == EvaluatedDocs(c, env, a, false, score) * EvaluatedDocs(c, env, b, false, score)
  {
    if IsUnary(a) && IsUnary(b) {
      AndOfRangesIsIntersection(c, env, a, b, p, score);
    } else if IsUnary(a) {
      AndOfRangeAndOtherIsIntersection(c, env, a, b, p, score);
    } else if IsUnary(b) {
      AndOfOtherAndRangeIsIntersection(c, env, a, b, p, score);
    } else {
      AndOfOthersIsIntersection(c, env, a, b, p, score);
    }
  }

  // ---------------------------------------------------------------------
  // Where negation is lost
  // ---------------------------------------------------------------------

  /**
   * `NOT (f = v)`: the operator becomes NotEqual and the still-set flag
   * turns it back into a term query, so it matches what `f = v` matches.
   */
  lemma NegatedEqualityMatchesEquality(env: Env, l: Expr, r: Expr, p: bool, score: ScoreFunction)
    ensures Evaluate(env, NegatedExpr(BinaryExpr(l, r, Equal, p)), false, score).result
         == Evaluate(env, BinaryExpr(l, r, Equal, p), false, NullScore).result
  {
    assert BinaryExpr(l, r, Equal, p).(op := Equal) == BinaryExpr(l, r, Equal, p);
    UnfoldNegated(env, BinaryExpr(l, r, Equal, p), false, score);
    UnfoldBinary(env, BinaryExpr(l, r, Equal, p), true, score);
    UnfoldBinary(env, BinaryExpr(l, r, Equal, p), false, NullScore);
  }

  /**
   * `NOT (a OR b)` with two range comparisons: the node becomes an AND,
   * but the operands' operators are read unnegated, so it evaluates like
   * `a AND b`.
   */
  lemma NegatedOrOfRangesKeepsOperators(env: Env, a: Expr, b: Expr, p: bool, score: ScoreFunction)
    requires IsUnary(a) && IsUnary(b)
    ensures Evaluate(env, NegatedExpr(BinaryExpr(a, b, Or, p)), false, score).result
         == Evaluate(env, BinaryExpr(a, b, And, p), false, score).result
  {
    UnfoldNegated(env, BinaryExpr(a, b, Or, p), false, score);
    UnfoldAnd(env, BinaryExpr(a, b, Or, p), true, score);
    UnfoldAnd(env, BinaryExpr(a, b, And, p), false, score);
    assert BinaryExpr(a, b, And, p).(op := And) == BinaryExpr(a, b, And, p);
  }

  /** IN and exists() do not look at the negation flag. */
  lemma NegationIgnoredByInAndExists(env: Env, e: Expr, score: ScoreFunction)
    requires e.InExpr? || (e.MethodExpr? && env.helpers.methodType(e.name) == Exists)
    ensures Evaluate(env, NegatedExpr(e), false, score).result == Evaluate(env, e, false, score).result
  {
    UnfoldNegated(env, e, false, score);
  }

  /**
   * A range against a string compares with the empty string: which string
   * the query gives makes no difference.
   */
  lemma StringRangeIgnoresBound(env: Env, e: Expr, other: Expr, score: ScoreFunction)
    requires IsFieldComparison(e) && IsRangeOperation(e.op)
    requires e.right.tokenType == String && other.ValueExpr? && other.tokenType == String
    requires env.helpers.valueOf(e.right, env.parameters).Ok? && env.helpers.valueOf(other, env.parameters).Ok?
    ensures Evaluate(env, e, false, score).result == Evaluate(env, e.(right := other), false, score).result
  {
    assert e.(op := e.op) == e;
    assert e.(right := other).(op := e.op) == e.(right := other);
    UnfoldRange(env, e, false, score);
    UnfoldRange(env, e.(right := other), false, score);
  }

  // ---------------------------------------------------------------------
  // The operator rewrite
  // ---------------------------------------------------------------------

  /**
   * Evaluating `NOT (f op v)` leaves `NOT (f op' v)` with the negated
   * operator behind; evaluating that tree again yields the match of the
   * un-negated `f op v`.
   */
  lemma ReevaluationLosesNegation(env: Env, e: Expr)
    requires IsFieldComparison(e) && IsRangeOperation(e.op)
    ensures Evaluate(env, NegatedExpr(e), false, NullScore).tree == NegatedExpr(e.(op := GetNegated(e.op)))
    ensures Evaluate(env, Evaluate(env, NegatedExpr(e), false, NullScore).tree, false, NullScore).result
         == Evaluate(env, e, false, NullScore).result
  {
    GetNegatedInvolution(e.op);
    var rewritten := e.(op := GetNegated(e.op));
    assert rewritten.(op := e.op) == e;
    assert e.(op := e.op) == e;
    UnfoldNegated(env, e, false, NullScore);
    UnfoldRange(env, e, true, NullScore);
    UnfoldNegated(env, rewritten, false, NullScore);
    UnfoldRange(env, rewritten, true, NullScore);
    UnfoldRange(env, e, false, NullScore);
  }

  /** Search leaves a NOT-free WHERE clause as it was. */
  lemma SearchWithoutNegationKeepsWhere(helpers: Collaborators, q: EvalQuery, fields: Option<map<string, int>>)
    requires q.where.Some? && NegationFree(q.where.value)
    ensures SearchedWhere(helpers, q, fields) == q.where
  {
  }
}
