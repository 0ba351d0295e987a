/**
 * The Corax query plan ("IQueryMatch") both compilers build, with a set
 * denotation over a finite corpus so that rewrites can be compared by the
 * documents they match, and the sort comparers with the order they impose.
 *
 * The primitives Corax evaluates itself (term lookups, range scans, prefix
 * and suffix scans, full-text search, spatial relations) are constructors
 * here; their meaning is given by `Docs` over a `Corpus`, and the two whose
 * behaviour depends on analyzers or geometry (full text and spatial) are
 * decided by the corpus' `satisfies` oracle.
 */
module MatchAlgebra {
  import opened Common
  import Q = QueryAst

  /** A value stored in, or compared against, an index field. */
  datatype Term = Num(n: int) | Str(s: string) | NullTerm

  /** UnaryMatchOperation. */
  datatype UnaryMatchOperation = Equals | NotEquals | LessThan | LessThanOrEqual | GreaterThan | GreaterThanOrEqual | Between

  datatype ScoreFunction = NullScore | ConstantScore(boost: real)

  datatype SearchOperator = SearchOr | SearchAnd

  datatype SpatialRelation = Within | Contains | Disjoint | Intersects

  /** A shape read from circle(...) or wkt(...) arguments; its geometry is not modelled. */
  datatype Shape = CircleShape(args: seq<Q.Expr>) | WktShape(args: seq<Q.Expr>)

  /** CoraxBooleanItem: a single-field condition that may still be merged. */
  datatype BooleanItem =
    | UnaryItem(field: string, fieldId: int, value: Term, operation: UnaryMatchOperation, score: ScoreFunction)
    | BetweenItem(field: string, fieldId: int, low: Term, high: Term,
                  leftOp: UnaryMatchOperation, rightOp: UnaryMatchOperation, score: ScoreFunction)

  datatype MatchCompareFieldType = Sequence | Alphanumeric | Integer | Floating | Score | Spatial

  /** OrderMetadata: a relevance key or a field key of an ORDER BY. */
  datatype OrderMetadata =
    | ScoreOrder(ascending: bool)
    | FieldOrder(fieldName: string, fieldId: int, ascending: bool, fieldType: MatchCompareFieldType)
  {
    predicate HasBoost() { ScoreOrder? }

    function FieldType(): MatchCompareFieldType
    {
      if ScoreOrder? then Score else fieldType
    }

    function FieldId(): int
    {
      if ScoreOrder? then 0 else fieldId
    }
  }

  /** The IMatchComparer implementations. */
  datatype Comparer =
    | AscendingComparer(fieldId: int, fieldType: MatchCompareFieldType)
    | DescendingComparer(fieldId: int, fieldType: MatchCompareFieldType)
    | AlphanumericAscendingComparer(fieldId: int, fieldType: MatchCompareFieldType)
    | AlphanumericDescendingComparer(fieldId: int, fieldType: MatchCompareFieldType)
    | SpatialAscendingComparer(order: OrderMetadata)
    | SpatialDescendingComparer(order: OrderMetadata)
    | BoostingComparer
    | NullComparer

  datatype Match =
    | AllEntries
    | Item(item: BooleanItem)                                        // CoraxBooleanItem before Materialize
    | BooleanQuery(items: seq<BooleanItem>, score: ScoreFunction)    // CoraxBooleanQuery before Materialize
    | MaterializedItem(item: BooleanItem)
    | MaterializedQuery(items: seq<BooleanItem>, score: ScoreFunction)
    | AndMatch(left: Match, right: Match)
    | OrMatch(left: Match, right: Match)
    | AndNotMatch(left: Match, right: Match)
    | BoostMatch(inner: Match, score: ScoreFunction)
    | InMatch(field: string, maybeFieldId: Option<int>, terms: seq<string>, score: ScoreFunction)
    | AllInMatch(field: string, fieldId: int, termSet: set<string>)
    | StartsWithMatch(field: string, fieldId: int, text: string, score: ScoreFunction, negated: bool)
    | EndsWithMatch(field: string, fieldId: int, text: string, score: ScoreFunction, negated: bool)
    | ExistsMatch(field: string, score: ScoreFunction)
    | SearchMatch(field: string, fieldId: int, text: string, searchOp: SearchOperator, score: ScoreFunction,
                  negated: bool, nativeAnalyzer: bool)
    | SpatialMatch(field: string, fieldId: int, relation: SpatialRelation, shape: Shape, errorPct: Option<Q.ObjectValue>)
    | TermMatch(field: string, fieldId: int, text: string)
    | NotEqualsMatch(inner: Match, fieldId: int, text: string)
    | RangeMatch(inner: Match, fieldId: int, operation: UnaryMatchOperation, value: Term)
    | BetweenMatch(inner: Match, fieldId: int, low: Term, high: Term)
    | NotBetweenMatch(inner: Match, fieldId: int, low: Term, high: Term)
    | OrderByScore(inner: Match)
    | OrderByDistance(inner: Match, order: OrderMetadata)
    | OrderByAscending(inner: Match, fieldId: int, fieldType: MatchCompareFieldType)
    | OrderByDescending(inner: Match, fieldId: int, fieldType: MatchCompareFieldType)
    | SortingMultiMatch(inner: Match, comparers: seq<Comparer>)

  /** A match that CoraxBooleanItem/CoraxBooleanQuery merging may still rewrite. */
  predicate IsMergeable(m: Match) { m.Item? || m.BooleanQuery? }

  /** CoraxBooleanItem.Materialize and CoraxBooleanQuery.Materialize; other matches pass through. */
  function Materialize(m: Match): (r: Match)
    ensures !IsMergeable(r)
    ensures forall c :: Docs(c, r) == Docs(c, m)
  {
    match m
    case Item(i) => MaterializedItem(i)
    case BooleanQuery(items, s) => MaterializedQuery(items, s)
    case _ => m
  }

  // ---------------------------------------------------------------------
  // Denotation
  // ---------------------------------------------------------------------

  type DocId = nat

  /** The full-text and spatial conditions whose outcome the corpus decides. */
  datatype Primitive =
    | FullText(fieldId: int, text: string, op: SearchOperator)
    | SpatialPredicate(fieldId: int, relation: SpatialRelation, shape: Shape)

  /**
   * An index: its documents, the terms each document holds in each field,
   * the field ids of field names, and the sort keys, scores and distances
   * the comparers read.
   */
  datatype Corpus = Corpus(
    docs: set<DocId>,
    values: (DocId, int) -> set<Term>,
    fieldIdOf: string -> int,
    satisfies: (Primitive, DocId) -> bool,
    sortKey: (DocId, int, MatchCompareFieldType) -> int,
    relevance: DocId -> int,
    distance: (DocId, OrderMetadata) -> int)

  /** Ordinal string order. */
  predicate StrLess(a: string, b: string)
  {
    if a == [] then b != []
    else if b == [] then false
    else if a[0] == b[0] then StrLess(a[1..], b[1..])
    else a[0] < b[0]
  }

  /** Terms of the same kind compare; a number never compares with a string. */
  predicate Less(a: Term, b: Term)
  {
    (a.Num? && b.Num? && a.n < b.n) || (a.Str? && b.Str? && StrLess(a.s, b.s))
  }

  /** Whether a stored term `t` satisfies `t op v`. */
  predicate Satisfies(t: Term, op: UnaryMatchOperation, v: Term)
  {
    match op
    case Equals => t == v
    case NotEquals => t != v
    case LessThan => Less(t, v)
    case LessThanOrEqual => Less(t, v) || t == v
    case GreaterThan => Less(v, t)
    case GreaterThanOrEqual => Less(v, t) || t == v
    case Between => false
  }

  /** Documents holding term `v` in field `id`. */
  function FieldHas(c: Corpus, id: int, v: Term): set<DocId>
  {
    set d | d in c.docs && v in c.values(d, id)
  }

  /** Documents holding some term `t` in field `id` with `t op v`. */
  function WithTerm(c: Corpus, id: int, op: UnaryMatchOperation, v: Term): set<DocId>
  {
    set d | d in c.docs && exists t :: t in c.values(d, id) && Satisfies(t, op, v)
  }

  /** Documents holding some term `t` in field `id` with `low <= t <= high`. */
  function InRange(c: Corpus, id: int, low: Term, high: Term): set<DocId>
  {
    set d | d in c.docs && exists t :: t in c.values(d, id) && Satisfies(t, GreaterThanOrEqual, low) && Satisfies(t, LessThanOrEqual, high)
  }

  function ItemDocs(c: Corpus, i: BooleanItem): set<DocId>
  {
    match i
    case UnaryItem(_, id, v, op, _) =>
      if op == NotEquals then c.docs - FieldHas(c, id, v) else WithTerm(c, id, op, v)
    case BetweenItem(_, id, low, high, lop, rop, _) =>
      set d | d in c.docs && exists t :: t in c.values(d, id) && Satisfies(t, lop, low) && Satisfies(t, rop, high)
  }

  /** A CoraxBooleanQuery matches what all of its items match. */
  function ConjunctionDocs(c: Corpus, items: seq<BooleanItem>): set<DocId>
  {
    if items == [] then c.docs else ItemDocs(c, items[0]) * ConjunctionDocs(c, items[1..])
  }

  function Complement(c: Corpus, negated: bool, s: set<DocId>): set<DocId>
  {
    if negated then c.docs - s else s
  }

  predicate HasPrefix(s: string, p: string) { |p| <= |s| && s[..|p|] == p }

  predicate HasSuffix(s: string, p: string) { |p| <= |s| && s[|s| - |p|..] == p }

  /** The documents a match yields; sorting and boosting never change it. */
  function Docs(c: Corpus, m: Match): set<DocId>
  {
    match m
    case AllEntries => c.docs
    case Item(i) => ItemDocs(c, i)
    case BooleanQuery(items, _) => ConjunctionDocs(c, items)
    case MaterializedItem(i) => ItemDocs(c, i)
    case MaterializedQuery(items, _) => ConjunctionDocs(c, items)
    case AndMatch(l, r) => Docs(c, l) * Docs(c, r)
    case OrMatch(l, r) => Docs(c, l) + Docs(c, r)
    case AndNotMatch(l, r) => Docs(c, l) - Docs(c, r)
    case BoostMatch(x, _) => Docs(c, x)
    case InMatch(f, id, ts, _) =>
      var fid := if id.Some? then id.value else c.fieldIdOf(f);
      set d | d in c.docs && exists t :: t in ts && Str(t) in c.values(d, fid)
    case AllInMatch(_, id, ts) => set d | d in c.docs && forall t :: t in ts ==> Str(t) in c.values(d, id)
    case StartsWithMatch(_, id, p, _, neg) =>
      Complement(c, neg, set d | d in c.docs && exists t :: t in c.values(d, id) && t.Str? && HasPrefix(t.s, p))
    case EndsWithMatch(_, id, p, _, neg) =>
      Complement(c, neg, set d | d in c.docs && exists t :: t in c.values(d, id) && t.Str? && HasSuffix(t.s, p))
    case ExistsMatch(f, _) => set d | d in c.docs && c.values(d, c.fieldIdOf(f)) != {}
    case SearchMatch(_, id, text, op, _, neg, _) =>
      Complement(c, neg, set d | d in c.docs && c.satisfies(FullText(id, text, op), d))
    case SpatialMatch(_, id, rel, shape, _) => set d | d in c.docs && c.satisfies(SpatialPredicate(id, rel, shape), d)
    case TermMatch(_, id, text) => FieldHas(c, id, Str(text))
    case NotEqualsMatch(x, id, text) => Docs(c, x) - FieldHas(c, id, Str(text))
    case RangeMatch(x, id, op, v) => Docs(c, x) * WithTerm(c, id, op, v)
    case BetweenMatch(x, id, low, high) => Docs(c, x) * InRange(c, id, low, high)
    case NotBetweenMatch(x, id, low, high) => Docs(c, x) - InRange(c, id, low, high)
    case OrderByScore(x) => Docs(c, x)
    case OrderByDistance(x, _) => Docs(c, x)
    case OrderByAscending(x, _, _) => Docs(c, x)
    case OrderByDescending(x, _, _) => Docs(c, x)
    case SortingMultiMatch(x, _) => Docs(c, x)
  }

  /** Every document holds at most one term in field `id`. */
  predicate SingleValued(c: Corpus, id: int)
  {
    forall d, t1, t2 :: d in c.docs && t1 in c.values(d, id) && t2 in c.values(d, id) ==> t1 == t2
  }

  lemma {:induction false} ConjunctionAppend(c: Corpus, a: seq<BooleanItem>, b: seq<BooleanItem>)
    ensures ConjunctionDocs(c, a + b) == ConjunctionDocs(c, a) * ConjunctionDocs(c, b)
  {
    if a == [] {
      assert a + b == b;
      ItemsWithinDocs(c, b);
    } else {
      assert (a + b)[1..] == a[1..] + b;
      ConjunctionAppend(c, a[1..], b);
    }
  }

  lemma {:induction false} ItemsWithinDocs(c: Corpus, items: seq<BooleanItem>)
    ensures ConjunctionDocs(c, items) <= c.docs
  {
    if items != [] {
      ItemsWithinDocs(c, items[1..]);
    }
  }

  /** Every match yields documents of the corpus only. */
  lemma {:induction false} DocsWithinCorpus(c: Corpus, m: Match)
    ensures Docs(c, m) <= c.docs
  {
    match m
    case BooleanQuery(items, _) => ItemsWithinDocs(c, items);
    case MaterializedQuery(items, _) => ItemsWithinDocs(c, items);
    case AndMatch(l, r) => DocsWithinCorpus(c, l);
    case OrMatch(l, r) => DocsWithinCorpus(c, l); DocsWithinCorpus(c, r);
    case AndNotMatch(l, r) => DocsWithinCorpus(c, l);
    case BoostMatch(x, _) => DocsWithinCorpus(c, x);
    case NotEqualsMatch(x, _, _) => DocsWithinCorpus(c, x);
    case RangeMatch(x, _, _, _) => DocsWithinCorpus(c, x);
    case BetweenMatch(x, _, _, _) => DocsWithinCorpus(c, x);
    case NotBetweenMatch(x, _, _, _) => DocsWithinCorpus(c, x);
    case OrderByScore(x) => DocsWithinCorpus(c, x);
    case OrderByDistance(x, _) => DocsWithinCorpus(c, x);
    case OrderByAscending(x, _, _) => DocsWithinCorpus(c, x);
    case OrderByDescending(x, _, _) => DocsWithinCorpus(c, x);
    case SortingMultiMatch(x, _) => DocsWithinCorpus(c, x);
    case _ => LeafDocsWithinCorpus(c, m);
  }

  /** A match that wraps no other match yields documents of the corpus only. */
  lemma LeafDocsWithinCorpus(c: Corpus, m: Match)
    requires m.AllEntries? || m.Item? || m.MaterializedItem? || m.InMatch? || m.AllInMatch?
          || m.StartsWithMatch? || m.EndsWithMatch? || m.ExistsMatch? || m.SearchMatch?
          || m.SpatialMatch? || m.TermMatch?
    ensures Docs(c, m) <= c.docs
  {
  }

  // ---------------------------------------------------------------------
  // Order imposed by comparers
  // ---------------------------------------------------------------------

  function Sign(x: int): int { if x < 0 then -1 else if x > 0 then 1 else 0 }

  /**
   * The outcome of one comparer on documents `a` and `b`: negative when `a`
   * sorts first. Boosting puts the higher relevance first.
   */
  function CompareBy(c: Corpus, cmp: Comparer, a: DocId, b: DocId): int
  {
    match cmp
    case AscendingComparer(id, t) => Sign(c.sortKey(a, id, t) - c.sortKey(b, id, t))
    case DescendingComparer(id, t) => Sign(c.sortKey(b, id, t) - c.sortKey(a, id, t))
    case AlphanumericAscendingComparer(id, _) => Sign(c.sortKey(a, id, Alphanumeric) - c.sortKey(b, id, Alphanumeric))
    case AlphanumericDescendingComparer(id, _) => Sign(c.sortKey(b, id, Alphanumeric) - c.sortKey(a, id, Alphanumeric))
    case SpatialAscendingComparer(o) => Sign(c.distance(a, o) - c.distance(b, o))
    case SpatialDescendingComparer(o) => Sign(c.distance(b, o) - c.distance(a, o))
    case BoostingComparer => Sign(c.relevance(b) - c.relevance(a))
    case NullComparer => 0
  }

  /** SortingMultiMatch: the first comparer that tells the documents apart decides. */
  function CompareLex(c: Corpus, cs: seq<Comparer>, a: DocId, b: DocId): (r: int)
    ensures -1 <= r <= 1
  {
    if cs == [] then 0
    else
      var first := CompareBy(c, cs[0], a, b);
      if first != 0 then first else CompareLex(c, cs[1..], a, b)
  }

  /** Swapping the documents flips every composite comparison. */
  lemma {:induction false} CompareLexAntisymmetric(c: Corpus, cs: seq<Comparer>, a: DocId, b: DocId)
    ensures CompareLex(c, cs, a, b) == -CompareLex(c, cs, b, a)
  {
    if cs != [] {
      CompareLexAntisymmetric(c, cs[1..], a, b);
    }
  }

  /** A sequence of documents in the order a SortingMultiMatch returns them. */
  predicate SortedBy(c: Corpus, cs: seq<Comparer>, s: seq<DocId>)
  {
    forall i, j :: 0 <= i < j < |s| ==> CompareLex(c, cs, s[i], s[j]) <= 0
  }
}
