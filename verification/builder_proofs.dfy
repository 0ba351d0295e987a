/**
 * What the plans CoraxQueryBuilder produces match, stated over the set
 * denotation of MatchAlgebra: the rewrites of AND, OR and NOT, between
 * synthesis, boosting and BuildQuery.
 */
module CoraxQueryBuilderProofs {
  import opened Common
  import opened QueryAst
  import opened MatchAlgebra
  import opened CoraxQueryBuilder
  import S = CoraxSortBuilder

  /** The documents of a successfully compiled expression. */
  function CompiledDocs(c: Corpus, ctx: Context, e: Expr, exact: bool, score: ScoreFunction): set<DocId>
    requires ToCoraxQuery(ctx, e, exact, None, score).Ok?
  {
    Docs(c, ToCoraxQuery(ctx, e, exact, None, score).value.query)
  }

  // ---------------------------------------------------------------------
  // AND, OR and NOT
  // ---------------------------------------------------------------------

  /** `NOT A AND NOT B` matches every document that neither A nor B matches. */
  lemma AndOfNegationsIsComplementOfUnion(c: Corpus, ctx: Context, a: Expr, b: Expr, p: bool, exact: bool,
                                         proximity: Option<int>, score: ScoreFunction)
    requires ToCoraxQuery(ctx, BinaryExpr(NegatedExpr(a), NegatedExpr(b), And, p), exact, proximity, score).Ok?
    ensures ToCoraxQuery(ctx, a, exact, None, score).Ok? && ToCoraxQuery(ctx, b, false, None, score).Ok?
    ensures Docs(c, ToCoraxQuery(ctx, BinaryExpr(NegatedExpr(a), NegatedExpr(b), And, p), exact, proximity, score).value.query)
         == c.docs - (CompiledDocs(c, ctx, a, exact, score) + CompiledDocs(c, ctx, b, false, score))
  {
    AndOfNegationsCompiles(ctx, a, b, p, exact, proximity, score);
    var A := ToCoraxQuery(ctx, a, exact, None, score).value.query;
    var B := ToCoraxQuery(ctx, b, false, None, score).value.query;
    MergeKeepsOperands(c, ctx, A, B, score, true);
    assert Docs(c, AllEntries) == c.docs;
  }

  /** `NOT A AND NOT B` compiles to all entries minus the OR of the (possibly merged) operands. */
  lemma AndOfNegationsCompiles(ctx: Context, a: Expr, b: Expr, p: bool, exact: bool,
                               proximity: Option<int>, score: ScoreFunction)
    ensures
      var r := ToCoraxQuery(ctx, BinaryExpr(NegatedExpr(a), NegatedExpr(b), And, p), exact, proximity, score);
      var left := ToCoraxQuery(ctx, a, exact, None, score);
      var right := ToCoraxQuery(ctx, b, false, None, score);
      r.Ok? ==>
        && left.Ok? && right.Ok?
        && var m := TryMergeTwoNodes(ctx, left.value.query, right.value.query, score, true);
           r.value.query == AndNotMatch(AllEntries, OrMatch(m.lhs, m.rhs))
  {
    assert BetweenSynthesis(NegatedExpr(a), NegatedExpr(b)).None?;
  }

  /**
   * `NOT A AND B` as compiled: B is compiled into `left` and A into `right`,
   * and the node excludes `left` from `right`, so it matches A minus B.
   */
  lemma NegatedLeftOperandAsWrittenDocs(c: Corpus, ctx: Context, a: Expr, b: Expr, p: bool, exact: bool,
                                        proximity: Option<int>, score: ScoreFunction)
    requires !b.NegatedExpr?
    requires ToCoraxQuery(ctx, BinaryExpr(NegatedExpr(a), b, And, p), exact, proximity, score).Ok?
    ensures ToCoraxQuery(ctx, a, exact, None, score).Ok? && ToCoraxQuery(ctx, b, exact, None, score).Ok?
    ensures Docs(c, ToCoraxQuery(ctx, BinaryExpr(NegatedExpr(a), b, And, p), exact, proximity, score).value.query)
         == CompiledDocs(c, ctx, a, exact, score) - CompiledDocs(c, ctx, b, exact, score)
  {
    NegatedLeftOperandCompiles(ctx, a, b, p, exact, proximity, score);
    var A := ToCoraxQuery(ctx, a, exact, None, score).value.query;
    var B := ToCoraxQuery(ctx, b, exact, None, score).value.query;
    MergeKeepsOperands(c, ctx, B, A, score, true);
  }

  /** The corrected `NOT A AND B` matches the documents of B that A does not match. */
  lemma NegatedLeftOperandIsExcluded(c: Corpus, ctx: Context, a: Expr, b: Expr, p: bool, exact: bool,
                                     score: ScoreFunction)
    requires CompileNegatedLeftAnd(ctx, BinaryExpr(NegatedExpr(a), b, And, p), exact, score).Ok?
    ensures ToCoraxQuery(ctx, a, exact, None, score).Ok? && ToCoraxQuery(ctx, b, exact, None, score).Ok?
    ensures Docs(c, CompileNegatedLeftAnd(ctx, BinaryExpr(NegatedExpr(a), b, And, p), exact, score).value.query)
         == CompiledDocs(c, ctx, b, exact, score) - CompiledDocs(c, ctx, a, exact, score)
  {
    var A := ToCoraxQuery(ctx, a, exact, None, score).value.query;
    var B := ToCoraxQuery(ctx, b, exact, None, score).value.query;
    MergeKeepsOperands(c, ctx, B, A, score, true);
  }

  /** `NOT A AND B` compiles B first and A second, then keeps A's match and excludes B's. */
  lemma NegatedLeftOperandCompiles(ctx: Context, a: Expr, b: Expr, p: bool, exact: bool,
                                   proximity: Option<int>, score: ScoreFunction)
    requires !b.NegatedExpr?
    ensures
      var r := ToCoraxQuery(ctx, BinaryExpr(NegatedExpr(a), b, And, p), exact, proximity, score);
      var left := ToCoraxQuery(ctx, b, exact, None, score);
      var right := ToCoraxQuery(ctx, a, exact, None, score);
      r.Ok? <==> left.Ok? && right.Ok?
    ensures
      var r := ToCoraxQuery(ctx, BinaryExpr(NegatedExpr(a), b, And, p), exact, proximity, score);
      var left := ToCoraxQuery(ctx, b, exact, None, score);
      var right := ToCoraxQuery(ctx, a, exact, None, score);
      r.Ok? ==>
        && left.Ok? && right.Ok?
        && var m := TryMergeTwoNodes(ctx, left.value.query, right.value.query, score, true);
           r.value.query == NegatedLeftAndAsWritten(m.lhs, m.rhs)
  {
    var e := BinaryExpr(NegatedExpr(a), b, And, p);
    assert ToCoraxQuery(ctx, e, exact, proximity, score) == CompileAnd(ctx, e, exact, score);
    assert BetweenSynthesis(NegatedExpr(a), b).None?;
  }

  /** `A AND NOT B` matches the documents of A that B does not match. */
  lemma NegatedRightOperandIsExcluded(c: Corpus, ctx: Context, a: Expr, b: Expr, p: bool, exact: bool,
                                      proximity: Option<int>, score: ScoreFunction)
    requires !a.NegatedExpr?
    requires ToCoraxQuery(ctx, BinaryExpr(a, NegatedExpr(b), And, p), exact, proximity, score).Ok?
    ensures ToCoraxQuery(ctx, a, exact, None, score).Ok? && ToCoraxQuery(ctx, b, exact, None, score).Ok?
    ensures Docs(c, ToCoraxQuery(ctx, BinaryExpr(a, NegatedExpr(b), And, p), exact, proximity, score).value.query)
         == CompiledDocs(c, ctx, a, exact, score) - CompiledDocs(c, ctx, b, exact, score)
  {
    NegatedRightOperandCompiles(ctx, a, b, p, exact, proximity, score);
    var A := ToCoraxQuery(ctx, a, exact, None, score).value.query;
    var B := ToCoraxQuery(ctx, b, exact, None, score).value.query;
    MergeKeepsOperands(c, ctx, A, B, score, true);
  }

  /** `A AND NOT B` compiles to A's match without B's. */
  lemma NegatedRightOperandCompiles(ctx: Context, a: Expr, b: Expr, p: bool, exact: bool,
                                    proximity: Option<int>, score: ScoreFunction)
    requires !a.NegatedExpr?
    ensures
      var r := ToCoraxQuery(ctx, BinaryExpr(a, NegatedExpr(b), And, p), exact, proximity, score);
      var left := ToCoraxQuery(ctx, a, exact, None, score);
      var right := ToCoraxQuery(ctx, b, exact, None, score);
      r.Ok? ==>
        && left.Ok? && right.Ok?
        && var m := TryMergeTwoNodes(ctx, left.value.query, right.value.query, score, true);
           r.value.query == AndNotMatch(m.lhs, m.rhs)
  {
    var e := BinaryExpr(a, NegatedExpr(b), And, p);
    assert ToCoraxQuery(ctx, e, exact, proximity, score) == CompileAnd(ctx, e, exact, score);
    assert BetweenSynthesis(a, NegatedExpr(b)).None?;
  }

  /**
   * An AND of non-negated operands that is not turned into a between
   * matches the intersection, whether or not its items were merged.
   */
  lemma PlainAndIsIntersection(c: Corpus, ctx: Context, a: Expr, b: Expr, p: bool, exact: bool,
                               proximity: Option<int>, score: ScoreFunction)
    requires !a.NegatedExpr? && !b.NegatedExpr? && BetweenSynthesis(a, b).None?
    requires ToCoraxQuery(ctx, BinaryExpr(a, b, And, p), exact, proximity, score).Ok?
    ensures ToCoraxQuery(ctx, a, exact, None, score).Ok? && ToCoraxQuery(ctx, b, exact, None, score).Ok?
    ensures Docs(c, ToCoraxQuery(ctx, BinaryExpr(a, b, And, p), exact, proximity, score).value.query)
         == CompiledDocs(c, ctx, a, exact, score) * CompiledDocs(c, ctx, b, exact, score)
  {
    PlainAndCompiles(ctx, a, b, p, exact, proximity, score);
    var A := ToCoraxQuery(ctx, a, exact, None, score).value.query;
    var B := ToCoraxQuery(ctx, b, exact, None, score).value.query;
    MergeKeepsOperands(c, ctx, A, B, score, false);
    if TryMergeTwoNodes(ctx, A, B, score, false).merged.Some? {
      MergedMatchesConjunction(c, ctx, A, B, score);
    }
  }

  /** A plain AND compiles both operands, then takes the merged item or the And of the two. */
  lemma PlainAndCompiles(ctx: Context, a: Expr, b: Expr, p: bool, exact: bool,
                         proximity: Option<int>, score: ScoreFunction)
    requires !a.NegatedExpr? && !b.NegatedExpr? && BetweenSynthesis(a, b).None?
    ensures
      var r := ToCoraxQuery(ctx, BinaryExpr(a, b, And, p), exact, proximity, score);
      var left := ToCoraxQuery(ctx, a, exact, None, score);
      var right := ToCoraxQuery(ctx, b, exact, None, score);
      r.Ok? ==>
        && left.Ok? && right.Ok?
        && var m := TryMergeTwoNodes(ctx, left.value.query, right.value.query, score, false);
           r.value.query == if m.merged.Some? then m.merged.value else AndMatch(m.lhs, m.rhs)
  {
  }

  /** An OR matches the union of its operands. */
  lemma OrIsUnion(c: Corpus, ctx: Context, a: Expr, b: Expr, p: bool, exact: bool,
                  proximity: Option<int>, score: ScoreFunction)
    requires ToCoraxQuery(ctx, BinaryExpr(a, b, Or, p), exact, proximity, score).Ok?
    ensures ToCoraxQuery(ctx, a, exact, None, score).Ok? && ToCoraxQuery(ctx, b, exact, None, score).Ok?
    ensures Docs(c, ToCoraxQuery(ctx, BinaryExpr(a, b, Or, p), exact, proximity, score).value.query)
         == CompiledDocs(c, ctx, a, exact, score) + CompiledDocs(c, ctx, b, exact, score)
  {
    OrCompiles(ctx, a, b, p, exact, proximity, score);
    var A := ToCoraxQuery(ctx, a, exact, None, score).value.query;
    var B := ToCoraxQuery(ctx, b, exact, None, score).value.query;
    MergeKeepsOperands(c, ctx, A, B, score, true);
  }

  /** An OR compiles both operands and takes the Or of the two (possibly merged) matches. */
  lemma OrCompiles(ctx: Context, a: Expr, b: Expr, p: bool, exact: bool,
                   proximity: Option<int>, score: ScoreFunction)
    ensures
      var r := ToCoraxQuery(ctx, BinaryExpr(a, b, Or, p), exact, proximity, score);
      var left := ToCoraxQuery(ctx, a, exact, None, score);
      var right := ToCoraxQuery(ctx, b, exact, None, score);
      r.Ok? ==>
        && left.Ok? && right.Ok?
        && var m := TryMergeTwoNodes(ctx, left.value.query, right.value.query, score, true);
           r.value.query == OrMatch(m.lhs, m.rhs)
  {
  }

  /** An unparenthesised `NOT (l AND r)` or `NOT (l OR r)` compiles as `(NOT l) AND r` or `(NOT l) OR r`. */
  lemma NotBindsTighterThanAndOr(ctx: Context, l: Expr, r: Expr, op: Operator, exact: bool,
                                 proximity: Option<int>, score: ScoreFunction)
    requires op == And || op == Or
    ensures ToCoraxQuery(ctx, NegatedExpr(BinaryExpr(l, r, op, false)), exact, proximity, score)
         == ToCoraxQuery(ctx, BinaryExpr(NegatedExpr(l), r, op, false), exact, None, score)
  {
  }

  /** Any other NOT compiles to exactly what its operand compiles to: the negation is dropped. */
  lemma BareNotCompilesToOperand(ctx: Context, inner: Expr, exact: bool, proximity: Option<int>, score: ScoreFunction)
    requires !(inner.BinaryExpr? && !inner.parenthesis && (inner.op == And || inner.op == Or))
    ensures ToCoraxQuery(ctx, NegatedExpr(inner), exact, proximity, score) == ToCoraxQuery(ctx, inner, exact, None, score)
  {
  }

  /**
   * Consequently `NOT a OR b`, with `a` not itself an unparenthesised
   * AND/OR, matches the same documents as `a OR b`.
   */
  lemma NotOrMatchesPlainOr(c: Corpus, ctx: Context, a: Expr, b: Expr, exact: bool,
                            proximity: Option<int>, score: ScoreFunction)
    requires !(a.BinaryExpr? && !a.parenthesis && (a.op == And || a.op == Or))
    requires ToCoraxQuery(ctx, NegatedExpr(BinaryExpr(a, b, Or, false)), exact, proximity, score).Ok?
    ensures ToCoraxQuery(ctx, a, exact, None, score).Ok? && ToCoraxQuery(ctx, b, exact, None, score).Ok?
    ensures Docs(c, ToCoraxQuery(ctx, NegatedExpr(BinaryExpr(a, b, Or, false)), exact, proximity, score).value.query)
         == CompiledDocs(c, ctx, a, exact, score) + CompiledDocs(c, ctx, b, exact, score)
  {
    NotBindsTighterThanAndOr(ctx, a, b, Or, exact, proximity, score);
    OrIsUnion(c, ctx, NegatedExpr(a), b, false, exact, None, score);
    BareNotCompilesToOperand(ctx, a, exact, None, score);
  }

  // ---------------------------------------------------------------------
  // The NOT A AND B finding
  // ---------------------------------------------------------------------

  /**
   * As written, `NOT a AND b` returns a document that matches `a` and not
   * `b`, and misses the one that matches `b` and not `a`.
   */
  lemma NegatedLeftAndAsWrittenCounterexample()
    ensures
      var c := TwoDocCorpus();
      var a := MaterializedItem(UnaryItem("a", 1, Num(1), Equals, NullScore));
      var b := MaterializedItem(UnaryItem("b", 2, Num(1), Equals, NullScore));
      && 1 in Docs(c, NegatedLeftAndAsWritten(b, a)) && 2 !in Docs(c, NegatedLeftAndAsWritten(b, a))
      && 1 !in Docs(c, b) - Docs(c, a) && 2 in Docs(c, b) - Docs(c, a)
  {
    var c := TwoDocCorpus();
    var a := MaterializedItem(UnaryItem("a", 1, Num(1), Equals, NullScore));
    var b := MaterializedItem(UnaryItem("b", 2, Num(1), Equals, NullScore));
    assert Num(1) in c.values(1, 1) && Satisfies(Num(1), Equals, Num(1));
    assert Num(1) in c.values(2, 2);
    assert 1 in Docs(c, a);
    assert 2 in Docs(c, b);
    assert c.values(1, 2) == {} && c.values(2, 1) == {};
    assert 1 !in Docs(c, b);
    assert 2 !in Docs(c, a);
  }

  /** Two documents: document `n` holds the number 1 in the field with id `n` and nothing else. */
  function TwoDocCorpus(): Corpus
  {
    Corpus({1, 2}, (d: DocId, id: int) => if d == id then {Num(1)} else {},
           (f: string) => 0, (p: Primitive, d: DocId) => false,
           (d: DocId, id: int, t: MatchCompareFieldType) => 0, (d: DocId) => 0,
           (d: DocId, o: OrderMetadata) => 0)
  }

  /**
   * A static index where the field named "a" has id 1 and every other field
   * id 2; a one-part field reference names its field and a literal is its own
   * value. Nothing merges.
   */
  function TwoFieldContext(): Context
  {
    Context(false, (m: string) => OtherMethod,
            (f: Expr) => if f.FieldExpr? && |f.compound| == 1 then Ok(f.compound[0]) else Err(InvalidQuery),
            (x: bool, n: string) => x,
            (v: Expr) => if v.ValueExpr? then Ok(TypedValue(v.literal, v.tokenType)) else Err(InvalidQuery),
            (n: string, x: bool) => if n == "a" then 1 else 2,
            (n: string) => n, (n: string) => n, (v: ObjectValue) => "",
            (m: Expr) => Err(InvalidQuery), (e: Expr) => Err(InvalidQuery),
            (t: string) => None, (i: BooleanItem, j: BooleanItem) => false,
            (l: seq<BooleanItem>, i: BooleanItem) => false,
            (l: seq<BooleanItem>, k: seq<BooleanItem>) => false,
            (l: seq<BooleanItem>) => false, (id: int) => true, (e: Expr) => Err(InvalidQuery),
            S.SortContext((f: string) => 0, (o: OrderMetadata) => S.AscendingKind))
  }

  /** `field = 1` on a one-part field name. */
  function EqualsOne(field: string): Expr
  {
    BinaryExpr(FieldExpr([field]), ValueExpr(Long, "1", LongValue(1)), Equal, false)
  }

  /** `field = 1` compiles, in TwoFieldContext, to the term query for 1 on the field's id. */
  lemma EqualsOneCompiles(field: string, exact: bool)
    ensures ToCoraxQuery(TwoFieldContext(), EqualsOne(field), exact, None, NullScore)
         == Ok(Compiled(Item(UnaryItem(field, if field == "a" then 1 else 2, Num(1), Equals, NullScore)), false))
  {
    var ctx := TwoFieldContext();
    var e := EqualsOne(field);
    assert ComparisonOperand(ctx, e.right) == Ok(e.right);
    assert ctx.extractFieldName(e.left) == Ok(field);
    assert ctx.getValue(e.right) == Ok(TypedValue(LongValue(1), Long));
  }

  /**
   * Through the compiler: `NOT a = 1 AND b = 1` on TwoFieldContext returns
   * document 1 (a = 1, b != 1) and not document 2 (b = 1, a != 1); the
   * corrected compile returns exactly the other one.
   */
  lemma NegatedLeftCompileCounterexample()
    ensures
      var c := TwoDocCorpus();
      var ctx := TwoFieldContext();
      var e := BinaryExpr(NegatedExpr(EqualsOne("a")), EqualsOne("b"), And, false);
      && ToCoraxQuery(ctx, e, false, None, NullScore).Ok?
      && CompileNegatedLeftAnd(ctx, e, false, NullScore).Ok?
      && 1 in Docs(c, ToCoraxQuery(ctx, e, false, None, NullScore).value.query)
      && 2 !in Docs(c, ToCoraxQuery(ctx, e, false, None, NullScore).value.query)
      && 2 in Docs(c, CompileNegatedLeftAnd(ctx, e, false, NullScore).value.query)
      && 1 !in Docs(c, CompileNegatedLeftAnd(ctx, e, false, NullScore).value.query)
  {
    var c := TwoDocCorpus();
    var ctx := TwoFieldContext();
    var a := EqualsOne("a");
    var b := EqualsOne("b");
    EqualsOneMatches("a");
    EqualsOneMatches("b");
    NegatedLeftOperandCompiles(ctx, a, b, false, false, None, NullScore);
    NegatedLeftOperandAsWrittenDocs(c, ctx, a, b, false, false, None, NullScore);
    NegatedLeftOperandIsExcluded(c, ctx, a, b, false, false, NullScore);
  }

  /** On TwoDocCorpus, `a = 1` returns document 1 alone and `b = 1` document 2 alone. */
  lemma EqualsOneMatches(field: string)
    ensures ToCoraxQuery(TwoFieldContext(), EqualsOne(field), false, None, NullScore).Ok?
    ensures CompiledDocs(TwoDocCorpus(), TwoFieldContext(), EqualsOne(field), false, NullScore)
         == if field == "a" then {1} else {2}
  {
    var c := TwoDocCorpus();
    EqualsOneCompiles(field, false);
    assert Num(1) in c.values(1, 1) && Satisfies(Num(1), Equals, Num(1));
    assert Num(1) in c.values(2, 2);
    assert c.values(1, 2) == {} && c.values(2, 1) == {};
  }

  // ---------------------------------------------------------------------
  // IN and ALL IN
  // ---------------------------------------------------------------------

  /**
   * `x IN (v1, ..., vn)` matches a document holding the string form of some
   * vi in x's field; `x ALL IN (v1, ..., vn)` one holding all of them.
   */
  lemma InMatchesValues(c: Corpus, ctx: Context, e: Expr, exact: bool, proximity: Option<int>,
                        score: ScoreFunction, d: DocId)
    requires e.InExpr? && ToCoraxQuery(ctx, e, exact, proximity, score).Ok?
    requires d in c.docs
    ensures ctx.extractFieldName(e.source).Ok? && ctx.valuesForIn(e).Ok?
    ensures
      var fieldName := ctx.extractFieldName(e.source).value;
      var id := ctx.getFieldId(ExactAwareFieldName(ctx, fieldName, exact), ctx.isExact(exact, fieldName));
      var values := ctx.valuesForIn(e).value;
      d in Docs(c, ToCoraxQuery(ctx, e, exact, proximity, score).value.query) <==>
        if e.all then forall i :: 0 <= i < |values| ==> Str(ctx.valueAsString(values[i])) in c.values(d, id)
        else exists i :: 0 <= i < |values| && Str(ctx.valueAsString(values[i])) in c.values(d, id)
  {
    var fieldName := ctx.extractFieldName(e.source).value;
    var id := ctx.getFieldId(ExactAwareFieldName(ctx, fieldName, exact), ctx.isExact(exact, fieldName));
    var values := ctx.valuesForIn(e).value;
    var m := CompileIn(ctx, e, exact).value;
    assert ToCoraxQuery(ctx, e, exact, proximity, score).value.query == m;
    if e.all {
      assert Docs(c, m) == set d | d in c.docs && forall t :: t in m.termSet ==> Str(t) in c.values(d, id);
      if forall i :: 0 <= i < |values| ==> Str(ctx.valueAsString(values[i])) in c.values(d, id) {
        forall t | t in m.termSet
          ensures Str(t) in c.values(d, id)
        {
          var i :| 0 <= i < |values| && t == ctx.valueAsString(values[i]);
        }
      }
    } else {
      assert Docs(c, m) == set d | d in c.docs && exists t :: t in m.terms && Str(t) in c.values(d, id);
      if d in Docs(c, m) {
        var t :| t in m.terms && Str(t) in c.values(d, id);
        var i :| 0 <= i < |m.terms| && m.terms[i] == t;
        assert Str(ctx.valueAsString(values[i])) in c.values(d, id);
      }
      if i :| 0 <= i < |values| && Str(ctx.valueAsString(values[i])) in c.values(d, id) {
        assert m.terms[i] in m.terms;
      }
    }
  }

  // ---------------------------------------------------------------------
  // Between synthesis
  // ---------------------------------------------------------------------

  /** The two value operands of a synthesised between have numeric token types. */
  predicate NumericOperands(ctx: Context, l: Expr, r: Expr)
    requires l.BinaryExpr? && r.BinaryExpr?
  {
    && ctx.getValue(l.right).Ok? && ctx.getValue(r.right).Ok?
    && (ctx.getValue(l.right).value.tokenType == Long || ctx.getValue(l.right).value.tokenType == Double)
    && (ctx.getValue(r.right).value.tokenType == Long || ctx.getValue(r.right).value.tokenType == Double)
  }

  /**
   * On a field where every document holds at most one value, a between
   * item matches exactly the documents both of its bounds match.
   */
  lemma BetweenItemIsConjunction(c: Corpus, name: string, id: int, low: Term, high: Term,
                                 lop: UnaryMatchOperation, rop: UnaryMatchOperation, score: ScoreFunction)
    requires lop != NotEquals && rop != NotEquals
    requires SingleValued(c, id)
    ensures ItemDocs(c, BetweenItem(name, id, low, high, lop, rop, score))
         == ItemDocs(c, UnaryItem(name, id, low, lop, score)) * ItemDocs(c, UnaryItem(name, id, high, rop, score))
  {
    forall d | d in ItemDocs(c, UnaryItem(name, id, low, lop, score)) * ItemDocs(c, UnaryItem(name, id, high, rop, score))
      ensures d in ItemDocs(c, BetweenItem(name, id, low, high, lop, rop, score))
    {
      var t1 :| t1 in c.values(d, id) && Satisfies(t1, lop, low);
      var t2 :| t2 in c.values(d, id) && Satisfies(t2, rop, high);
      assert t1 == t2;
    }
  }

  /**
   * How an AND of a lower and an upper bound on the same field compiles: a
   * single between item whose bounds are the two comparisons' items.
   */
  lemma BetweenSynthesisCompiles(ctx: Context, l: Expr, r: Expr, p: bool, exact: bool,
                                 proximity: Option<int>, score: ScoreFunction)
    requires BetweenSynthesis(l, r).Some?
    requires ctx.extractFieldName(l.left).Ok?
    requires NumericOperands(ctx, l, r)
    ensures
      var name := ctx.extractFieldName(l.left).value;
      var cid := ctx.getFieldId(name, ctx.isExact(exact, name));
      var bid := ctx.getFieldId(name, exact);
      var lv := RawTerm(ctx.getValue(l.right).value.value);
      var rv := RawTerm(ctx.getValue(r.right).value.value);
      var lop := TranslateUnaryMatchOperation(l.op);
      var rop := TranslateUnaryMatchOperation(r.op);
      && ToCoraxQuery(ctx, l, exact, None, score) == Ok(Compiled(Item(UnaryItem(name, cid, lv, lop, score)), false))
      && ToCoraxQuery(ctx, r, exact, None, score) == Ok(Compiled(Item(UnaryItem(name, cid, rv, rop, score)), false))
      && ToCoraxQuery(ctx, BinaryExpr(l, r, And, p), exact, proximity, score)
         == Ok(Compiled(Item(if IsGreaterThan(l.op) then BetweenItem(name, bid, lv, rv, lop, rop, score)
                             else BetweenItem(name, bid, rv, lv, rop, lop, score)), false))
  {
    NumericComparisonCompiles(ctx, l, exact, score);
    NumericComparisonCompiles(ctx, r, exact, score);
    var name := ctx.extractFieldName(l.left).value;
    var bid := ctx.getFieldId(name, exact);
    var lv := RawTerm(ctx.getValue(l.right).value.value);
    var rv := RawTerm(ctx.getValue(r.right).value.value);
    var lop := TranslateUnaryMatchOperation(l.op);
    var rop := TranslateUnaryMatchOperation(r.op);
    var item := if IsGreaterThan(l.op) then BetweenItem(name, bid, lv, rv, lop, rop, score)
                else BetweenItem(name, bid, rv, lv, rop, lop, score);
    assert TranslateBetweenQuery(ctx, BetweenSynthesis(l, r).value, exact, score) == Ok(item);
  }

  /**
   * A range comparison of a field with a numeric value compiles to one unary
   * item on the raw value, on the field id chosen after IsExact.
   */
  lemma NumericComparisonCompiles(ctx: Context, l: Expr, exact: bool, score: ScoreFunction)
    requires l.BinaryExpr? && IsRangeOperation(l.op) && l.right.ValueExpr?
    requires ctx.extractFieldName(l.left).Ok?
    requires ctx.getValue(l.right).Ok?
    requires ctx.getValue(l.right).value.tokenType == Long || ctx.getValue(l.right).value.tokenType == Double
    ensures
      var name := ctx.extractFieldName(l.left).value;
      ToCoraxQuery(ctx, l, exact, None, score)
        == Ok(Compiled(Item(UnaryItem(name, ctx.getFieldId(name, ctx.isExact(exact, name)),
                                      RawTerm(ctx.getValue(l.right).value.value),
                                      TranslateUnaryMatchOperation(l.op), score)), false))
  {
  }

  /**
   * On a field where every document holds at most one value, the between
   * an AND of a lower and an upper bound is compiled to matches exactly the
   * documents both comparisons match.
   */
  lemma BetweenSynthesisMatchesConjunction(c: Corpus, ctx: Context, l: Expr, r: Expr, p: bool, exact: bool,
                                           proximity: Option<int>, score: ScoreFunction)
    requires BetweenSynthesis(l, r).Some?
    requires ctx.extractFieldName(l.left).Ok?
    requires NumericOperands(ctx, l, r)
    requires var name := ctx.extractFieldName(l.left).value;
             ctx.getFieldId(name, ctx.isExact(exact, name)) == ctx.getFieldId(name, exact)
    requires SingleValued(c, ctx.getFieldId(ctx.extractFieldName(l.left).value, exact))
    ensures ToCoraxQuery(ctx, BinaryExpr(l, r, And, p), exact, proximity, score).Ok?
    ensures ToCoraxQuery(ctx, l, exact, None, score).Ok? && ToCoraxQuery(ctx, r, exact, None, score).Ok?
    ensures Docs(c, ToCoraxQuery(ctx, BinaryExpr(l, r, And, p), exact, proximity, score).value.query)
         == CompiledDocs(c, ctx, l, exact, score) * CompiledDocs(c, ctx, r, exact, score)
  {
    BetweenSynthesisCompiles(ctx, l, r, p, exact, proximity, score);
    var name := ctx.extractFieldName(l.left).value;
    var id := ctx.getFieldId(name, exact);
    var lv := RawTerm(ctx.getValue(l.right).value.value);
    var rv := RawTerm(ctx.getValue(r.right).value.value);
    var lop := TranslateUnaryMatchOperation(l.op);
    var rop := TranslateUnaryMatchOperation(r.op);
    assert ctx.getFieldId(name, ctx.isExact(exact, name)) == id;
    assert CompiledDocs(c, ctx, l, exact, score) == ItemDocs(c, UnaryItem(name, id, lv, lop, score));
    assert CompiledDocs(c, ctx, r, exact, score) == ItemDocs(c, UnaryItem(name, id, rv, rop, score));
    if IsGreaterThan(l.op) {
      BetweenItemIsConjunction(c, name, id, lv, rv, lop, rop, score);
    } else {
      BetweenItemIsConjunction(c, name, id, rv, lv, rop, lop, score);
    }
  }

  /**
   * Without single-valuedness the rewrite is not equivalent: a document
   * holding 1 and 10 matches `x > 5 AND x < 3` but not `x BETWEEN 5 AND 3`.
   */
  lemma BetweenSynthesisNeedsSingleValuedField()
    ensures
      var c := Corpus({0}, (d: DocId, id: int) => {Num(1), Num(10)},
                      (f: string) => 0, (p: Primitive, d: DocId) => false,
                      (d: DocId, id: int, t: MatchCompareFieldType) => 0, (d: DocId) => 0,
                      (d: DocId, o: OrderMetadata) => 0);
      && 0 in ItemDocs(c, UnaryItem("x", 0, Num(5), UnaryMatchOperation.GreaterThan, NullScore))
      && 0 in ItemDocs(c, UnaryItem("x", 0, Num(3), UnaryMatchOperation.LessThan, NullScore))
      && 0 !in ItemDocs(c, BetweenItem("x", 0, Num(5), Num(3), UnaryMatchOperation.GreaterThan, UnaryMatchOperation.LessThan, NullScore))
  {
    var c := Corpus({0}, (d: DocId, id: int) => {Num(1), Num(10)},
                    (f: string) => 0, (p: Primitive, d: DocId) => false,
                    (d: DocId, id: int, t: MatchCompareFieldType) => 0, (d: DocId) => 0,
                    (d: DocId, o: OrderMetadata) => 0);
    assert Num(10) in c.values(0, 0) && Satisfies(Num(10), UnaryMatchOperation.GreaterThan, Num(5));
    assert Num(1) in c.values(0, 0) && Satisfies(Num(1), UnaryMatchOperation.LessThan, Num(3));
  }

  // ---------------------------------------------------------------------
  // search(), startsWith(), endsWith(), exists() and spatial methods
  // ---------------------------------------------------------------------

  /**
   * search(f, text [, op]) returns the documents whose field satisfies the
   * full-text query for the text; on a dynamic index the field is the
   * search field of f, except for id().
   */
  lemma SearchReturnsFullTextMatches(c: Corpus, ctx: Context, e: Expr, exact: bool, proximity: Option<int>,
                                     score: ScoreFunction)
    requires e.MethodExpr? && ctx.methodType(e.name) == Search
    requires ToCoraxQuery(ctx, e, exact, proximity, score).Ok?
    ensures proximity.None? && |e.args| >= 2 && SearchField(ctx, e.args[0]).Ok?
    ensures ctx.getValue(e.args[1]).Ok? && ctx.getValue(e.args[1]).value.tokenType == String
    ensures |e.args| == 3 ==> SearchOperatorOf(e.args[2]).Ok?
    ensures
      var named := SearchField(ctx, e.args[0]).value;
      var name := if ctx.isDynamic && !named.1 then ctx.searchFieldName(named.0) else named.0;
      var text := ctx.valueAsString(ctx.getValue(e.args[1]).value.value);
      var op := if |e.args| == 3 then SearchOperatorOf(e.args[2]).value else SearchOr;
      Docs(c, ToCoraxQuery(ctx, e, exact, proximity, score).value.query)
        == set d | d in c.docs && c.satisfies(FullText(ctx.getFieldId(name, false), text, op), d)
  {
  }

  /**
   * startsWith(f, prefix) returns the documents holding a string term that
   * starts with the prefix, in f's field chosen after IsExact.
   */
  lemma StartsWithReturnsPrefixed(c: Corpus, ctx: Context, e: Expr, exact: bool, proximity: Option<int>,
                                  score: ScoreFunction)
    requires e.MethodExpr? && ctx.methodType(e.name) == StartsWith
    requires ToCoraxQuery(ctx, e, exact, proximity, score).Ok?
    ensures |e.args| >= 2 && ctx.extractFieldName(e.args[0]).Ok? && e.args[1].ValueExpr?
    ensures ctx.getValue(e.args[1]).Ok? && ctx.getValue(e.args[1]).value.tokenType == String
    ensures
      var fieldName := ctx.extractFieldName(e.args[0]).value;
      var id := ctx.getFieldId(ExactAwareFieldName(ctx, fieldName, exact), ctx.isExact(exact, fieldName));
      var prefix := ctx.valueAsString(ctx.getValue(e.args[1]).value.value);
      Docs(c, ToCoraxQuery(ctx, e, exact, proximity, score).value.query)
        == set d | d in c.docs && exists t :: t in c.values(d, id) && t.Str? && HasPrefix(t.s, prefix)
  {
  }

  /**
   * endsWith(f, suffix) returns the documents holding a string term that
   * ends with the suffix, in f's field chosen after IsExact.
   */
  lemma EndsWithReturnsSuffixed(c: Corpus, ctx: Context, e: Expr, exact: bool, proximity: Option<int>,
                                score: ScoreFunction)
    requires e.MethodExpr? && ctx.methodType(e.name) == EndsWith
    requires ToCoraxQuery(ctx, e, exact, proximity, score).Ok?
    ensures |e.args| >= 2 && ctx.extractFieldName(e.args[0]).Ok? && e.args[1].ValueExpr?
    ensures ctx.getValue(e.args[1]).Ok? && ctx.getValue(e.args[1]).value.tokenType == String
    ensures
      var fieldName := ctx.extractFieldName(e.args[0]).value;
      var id := ctx.getFieldId(ExactAwareFieldName(ctx, fieldName, exact), ctx.isExact(exact, fieldName));
      var suffix := ctx.valueAsString(ctx.getValue(e.args[1]).value.value);
      Docs(c, ToCoraxQuery(ctx, e, exact, proximity, score).value.query)
        == set d | d in c.docs && exists t :: t in c.values(d, id) && t.Str? && HasSuffix(t.s, suffix)
  {
  }

  /** exists(f) returns the documents holding some value in f's field. */
  lemma ExistsReturnsDocumentsWithField(c: Corpus, ctx: Context, e: Expr, exact: bool, proximity: Option<int>,
                                        score: ScoreFunction)
    requires e.MethodExpr? && ctx.methodType(e.name) == Exists
    requires ToCoraxQuery(ctx, e, exact, proximity, score).Ok?
    ensures |e.args| > 0 && ctx.extractFieldName(e.args[0]).Ok?
    ensures Docs(c, ToCoraxQuery(ctx, e, exact, proximity, score).value.query)
         == set d | d in c.docs && c.values(d, c.fieldIdOf(ctx.extractFieldName(e.args[0]).value)) != {}
  {
  }

  /**
   * A spatial method returns the documents whose spatial field stands in the
   * method's relation to the circle or WKT shape of its second argument.
   */
  lemma SpatialReturnsRelatedShapes(c: Corpus, ctx: Context, e: Expr, exact: bool, proximity: Option<int>,
                                    score: ScoreFunction)
    requires e.MethodExpr? && IsSpatialMethod(ctx.methodType(e.name))
    requires ToCoraxQuery(ctx, e, exact, proximity, score).Ok?
    ensures |e.args| >= 2 && SpatialField(ctx, e.args[0]).Ok? && e.args[1].MethodExpr?
    ensures ctx.methodType(e.args[1].name) == SpatialCircle || ctx.methodType(e.args[1].name) == SpatialWkt
    ensures
      var id := ctx.getFieldId(SpatialField(ctx, e.args[0]).value, false);
      var shape := if ctx.methodType(e.args[1].name) == SpatialCircle then CircleShape(e.args[1].args)
                   else WktShape(e.args[1].args);
      Docs(c, ToCoraxQuery(ctx, e, exact, proximity, score).value.query)
        == set d | d in c.docs && c.satisfies(SpatialPredicate(id, RelationOf(ctx.methodType(e.name)), shape), d)
  {
  }

  // ---------------------------------------------------------------------
  // boost() and BuildQuery
  // ---------------------------------------------------------------------

  /** boost() changes the scores, never the documents. */
  lemma BoostKeepsDocuments(c: Corpus, ctx: Context, e: Expr, exact: bool)
    requires e.MethodExpr? && HandleBoost(ctx, e, exact).Ok?
    ensures |e.args| == 2 && ToCoraxQuery(ctx, e.args[0], exact, None, NullScore).Ok?
    ensures Docs(c, HandleBoost(ctx, e, exact).value.query) == CompiledDocs(c, ctx, e.args[0], exact, NullScore)
  {
  }

  /**
   * BuildQuery matches all documents without a WHERE clause, and otherwise
   * exactly what the compiled WHERE clause matches; sorting does not change
   * the documents.
   */
  lemma BuildQueryMatchesWhere(c: Corpus, ctx: Context, q: IndexQuery, indexHasBoostedFields: bool)
    requires BuildQuery(ctx, q, indexHasBoostedFields).Ok?
    ensures q.where.None? ==> Docs(c, BuildQuery(ctx, q, indexHasBoostedFields).value.query) == c.docs
    ensures q.where.Some? ==>
      && ToCoraxQuery(ctx, q.where.value, false, None, NullScore).Ok?
      && Docs(c, BuildQuery(ctx, q, indexHasBoostedFields).value.query) == CompiledDocs(c, ctx, q.where.value, false, NullScore)
  {
  }

  /** A query with an ORDER BY and a non-zero page size builds only when no key is a Random or Custom ordering. */
  lemma BuildQueryRejectsRandomAndCustom(ctx: Context, q: IndexQuery, indexHasBoostedFields: bool)
    requires BuildQuery(ctx, q, indexHasBoostedFields).Ok? && q.orderBy.Some? && q.pageSize != 0
    ensures forall i :: 0 <= i < |q.orderBy.value| ==>
      q.orderBy.value[i].orderingType != S.RandomOrdering && q.orderBy.value[i].orderingType != S.CustomOrdering
  {
    S.SortSlotsRejectsRandomAndCustom(ctx.sort, q.orderBy.value);
  }

  /** `ORDER BY random()` alone fails the query as not supported, whatever its WHERE clause compiles to. */
  lemma RandomOrderingFailsBuild(ctx: Context, q: IndexQuery, indexHasBoostedFields: bool, f: S.OrderByField)
    requires BuildWhere(ctx, q.where).Ok? && q.pageSize != 0
    requires q.orderBy == Some([f]) && f.orderingType == S.RandomOrdering
    ensures BuildQuery(ctx, q, indexHasBoostedFields) == Err(NotSupported)
  {
    var fields := [f];
    assert fields[..|fields| - 1] == [];
    assert S.SlotsFor(ctx.sort, f) == Err(NotSupported);
    assert S.SortSlots(ctx.sort, fields[..|fields| - 1]) == Ok([]);
    assert S.Step(ctx.sort, [], f) == Err(NotSupported);
    assert S.SortSlots(ctx.sort, fields) == Err(NotSupported);
    assert S.SortKeys(ctx.sort, q.pageSize, q.orderBy, q.hasBoost, indexHasBoostedFields) == Err(NotSupported);
  }
}
