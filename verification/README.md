# Corax query construction, auto-index commands and the Voron dictionary generator

This project models in Dafny the part of RavenDB that turns a parsed RQL
query into a Corax match tree, and two smaller components next to it.

- **CoraxQueryBuilder** compiles a query. It turns the `WHERE` expression
  into a tree of Corax matches: term, range, between, IN, search,
  starts/ends-with, exists, spatial, boost and boolean AND/OR. It merges
  adjacent boolean items, and it rewrites `NOT` and `AND NOT` into
  `AndNot` matches. It then turns the `ORDER BY` clause into at most
  eight sort keys (`GetSortMetadata`) and wraps the match in a
  sorting match (`OrderBy`).
- **CoraxQueryEvaluator** is the lean second compiler. It carries
  negation down the tree as a flag and overwrites the operator of every
  negated binary node with its negation.
- **IndexOperationBase** holds the page-size clamps of the Lucene and
  Corax readers and the test that picks "match all documents" for a
  query without `WHERE`.
- **PutAutoIndexCommand** is the cluster command that stores an auto
  index. It classifies the definition as map or map-reduce, converts it
  to the stored definition, and wraps failures in a `RachisApplyException`.
- **Voron.Dictionary.Generator** collects the lines of the training
  files. It then bisects for the largest dictionary size the encoder
  can train, and it hands the strings to the encoder as UTF-8 bytes
  (`StringArrayIterator`).

Matches are values of the datatype `MatchAlgebra.Match`. The function
`MatchAlgebra.Docs(c, m)` gives their meaning: the set of documents of
corpus `c` that `m` returns. Every property about queries is stated
through `Docs`: AND is an intersection, OR a union, NOT a complement,
sorting keeps the documents. Helpers the code calls but does not own are
fields of function type in a `Context`, `SortContext` or
`Collaborators` record. These are the field-name lookups, the
analyser-dependent "is exact" test, value extraction from parameters,
`float.TryParse` and the spatial readers.

Several behaviours of the evaluator follow from its operator rewrite,
and the model proves them as lemmas:
- `NOT (f = v)` matches what `f = v` matches
  (`CoraxQueryEvaluatorProofs.NegatedEqualityMatchesEquality`).
- `NOT (a OR b)` over two ranges evaluates like `a AND b`
  (`CoraxQueryEvaluatorProofs.NegatedOrOfRangesKeepsOperators`).
- Evaluating the rewritten tree a second time loses the negation
  (`CoraxQueryEvaluatorProofs.ReevaluationLosesNegation`).

## Model

| member | source | states |
|---|---|---|
| MatchAlgebra.Materialize | src/Raven.Server/Documents/Indexes/Persistence/Corax/CoraxQueryBuilder.cs:54-61 | a materialised boolean query or item is no longer mergeable and returns the same documents on every corpus |
| CoraxQueryBuilder.TryMergeTwoNodes | src/Raven.Server/Documents/Indexes/Persistence/Corax/CoraxQueryBuilder.cs:83-139 | with materialisation required both sides are materialised and nothing merges; a merge happens only between two mergeable operands; an unmerged non-item side comes back materialised |
| CoraxQueryBuilder.MergedMatchesConjunction | src/Raven.Server/Documents/Indexes/Persistence/Corax/CoraxQueryBuilder.cs:83-139 | a merged node returns exactly the documents both operands return |
| CoraxQueryBuilder.MergeKeepsOperands | src/Raven.Server/Documents/Indexes/Persistence/Corax/CoraxQueryBuilder.cs:83-139 | the operands handed back unmerged return the same documents as before |
| CoraxQueryBuilder.BetweenSynthesis | src/Raven.Server/Documents/Indexes/Persistence/Corax/CoraxQueryBuilder.cs:168-192 | an AND becomes a between exactly when both sides are range comparisons of one field with a value and one is a lower, the other an upper bound; the lower bound becomes the minimum |
| CoraxQueryBuilder.NegatedLeftAnd | src/Raven.Server/Documents/Indexes/Persistence/Corax/CoraxQueryBuilder.cs:209-220 | corrected `NOT A AND B`: the documents of B minus those of A |
| CoraxQueryBuilder.NegatedLeftAndAsWritten | src/Raven.Server/Documents/Indexes/Persistence/Corax/CoraxQueryBuilder.cs:209-220 | `NOT A AND B` as the code builds it: the documents of A minus those of B |
| CoraxQueryBuilder.ToCoraxQuery | src/Raven.Server/Documents/Indexes/Persistence/Corax/CoraxQueryBuilder.cs:141-477 | TRUE compiles to all entries; a bare value or field is an invalid query; a between and an IN compile to what TranslateBetweenQuery and CompileIn give and fail exactly when they do; a method call compiles to what CompileMethod gives; no compiled expression reports an inner binary match left unmaterialised |
| CoraxQueryBuilder.PrecedenceRewrite | src/Raven.Server/Documents/Indexes/Persistence/Corax/CoraxQueryBuilder.cs:348-360 | an unparenthesised `NOT (l op r)` becomes `(NOT l) op r`, of the same size and with no rewrite left to do |
| CoraxQueryBuilder.CompileAnd | src/Raven.Server/Documents/Indexes/Persistence/Corax/CoraxQueryBuilder.cs:163-249 | an AND compiles to a match with no unmaterialised binary inside; `NOT A AND B` builds the as-written node that keeps A and excludes B |
| CoraxQueryBuilder.CompileOr | src/Raven.Server/Documents/Indexes/Persistence/Corax/CoraxQueryBuilder.cs:250-265 | an OR compiles to a match with no unmaterialised binary inside |
| CoraxQueryBuilder.CompileComparison | src/Raven.Server/Documents/Indexes/Persistence/Corax/CoraxQueryBuilder.cs:266-313 | succeeds exactly when the operand, field name and value resolve and the value is not null under a range operator; the unary item carries the translated operator, the score, the field id chosen after IsExact, the raw value for numbers and the string form (or null) otherwise, and the exact field name on a dynamic index |
| CoraxQueryBuilder.HandleStringUnaryMatch | src/Raven.Server/Documents/Indexes/Persistence/Corax/CoraxQueryBuilder.cs:315-339 | fails with NotSupported exactly for a null value under a range operator; otherwise an item on the value's string (or null), on the exact field name for exact dynamic fields |
| CoraxQueryBuilder.TranslateBetweenQuery | src/Raven.Server/Documents/Indexes/Persistence/Corax/CoraxQueryBuilder.cs:492-538 | succeeds exactly when the field name and both bounds resolve; the between item is on that field with the field id for the incoming `exact`, string bounds as their string forms and others raw, bound operators following the inclusivity flags, and the score function |
| CoraxQueryBuilder.CompileIn | src/Raven.Server/Documents/Indexes/Persistence/Corax/CoraxQueryBuilder.cs:376-430 | succeeds exactly when the field name and values resolve; `IN` is an in match on the field and its id with the values' string forms in order, `ALL IN` an all-in match on the id whose term set is exactly those string forms, its field renamed once per value on a dynamic exact index |
| CoraxQueryBuilder.CollectInMatches | src/Raven.Server/Documents/Indexes/Persistence/Corax/CoraxQueryBuilder.cs:416-429 | the loop collects every value's string form, in order |
| CoraxQueryBuilder.CollectAllInMatches | src/Raven.Server/Documents/Indexes/Persistence/Corax/CoraxQueryBuilder.cs:402-414 | the loop collects the set of the values' strings; the field name is renamed once per value when renaming applies |
| CoraxQueryBuilder.CompileMethod | src/Raven.Server/Documents/Indexes/Persistence/Corax/CoraxQueryBuilder.cs:439-476 | search, startsWith, endsWith, exists and the four spatial methods give their handler's match and fail exactly when it does; boost and exact are their handlers; any other method is not supported; no unmaterialised binary is reported |
| CoraxQueryBuilder.HandleExact | src/Raven.Server/Documents/Indexes/Persistence/Corax/CoraxQueryBuilder.cs:479-490 | `exact()` without arguments is out of range; otherwise its first argument compiled in exact mode |
| CoraxQueryBuilder.BoostValue | src/Raven.Server/Documents/Indexes/Persistence/Corax/CoraxQueryBuilder.cs:619-681 | numbers are taken as they are, strings only when they parse as floats, anything else is an invalid query |
| CoraxQueryBuilder.HandleBoost | src/Raven.Server/Documents/Indexes/Persistence/Corax/CoraxQueryBuilder.cs:619-681 | needs exactly two arguments; the result is a constant-score boost of the materialised first argument by the parsed second one |
| CoraxQueryBuilder.SearchOperatorOf | src/Raven.Server/Documents/Indexes/Persistence/Corax/CoraxQueryBuilder.cs:744-758 | accepted exactly for a one-part field named `and` or `or` in any ASCII case; AND exactly for `and` |
| CoraxQueryBuilder.HandleSearch | src/Raven.Server/Documents/Indexes/Persistence/Corax/CoraxQueryBuilder.cs:683-767 | succeeds exactly when the field resolves, the second argument is a string value, there is no proximity and a third argument is a valid operator; the match is on the field (its search field on a dynamic index, except id()), that field's id and the string text, OR unless the third argument says AND, not negated and with the field's analyser flag |
| CoraxQueryBuilder.SearchField | src/Raven.Server/Documents/Indexes/Persistence/Corax/CoraxQueryBuilder.cs:690-706 | a field or string argument resolves to the field name it extracts, id() to the document id field; other argument kinds are an invalid operation |
| CoraxQueryBuilder.AffixArguments | src/Raven.Server/Documents/Indexes/Persistence/Corax/CoraxQueryBuilder.cs:549-582 | succeeds exactly when the field name resolves and the second argument is a value of string type; gives the field (its exact name on a dynamic index when IsExact holds), the field id chosen after IsExact, and the string as the affix |
| CoraxQueryBuilder.HandleStartsWith | src/Raven.Server/Documents/Indexes/Persistence/Corax/CoraxQueryBuilder.cs:549-582 | succeeds exactly when the arguments are valid; a non-negated starts-with match on the affix, its field and field id |
| CoraxQueryBuilder.HandleEndsWith | src/Raven.Server/Documents/Indexes/Persistence/Corax/CoraxQueryBuilder.cs:584-617 | succeeds exactly when the arguments are valid; a non-negated ends-with match on the affix, its field and field id |
| CoraxQueryBuilder.HandleExists | src/Raven.Server/Documents/Indexes/Persistence/Corax/CoraxQueryBuilder.cs:540-547 | succeeds exactly when there is a first argument whose field name resolves; the exists match is on that field with the score function |
| CoraxQueryBuilder.HandleSpatial | src/Raven.Server/Documents/Indexes/Persistence/Corax/CoraxQueryBuilder.cs:769-829 | succeeds exactly when the field resolves (the argument's field on a static index, the spatial method's field on a dynamic one), the shape is a circle or WKT method and the error percentage is valid; the match has that field, its id, the relation, the shape and the error percentage |
| CoraxQueryBuilder.SpatialErrorPct | src/Raven.Server/Documents/Indexes/Persistence/Corax/CoraxQueryBuilder.cs:786-793 | no third argument gives none; a third argument must be a long or double value |
| CoraxQueryBuilder.BuildWhere | src/Raven.Server/Documents/Indexes/Persistence/Corax/CoraxQueryBuilder.cs:42-68 | without WHERE all entries and no binary; otherwise the result is never left mergeable |
| CoraxQueryBuilder.BuildQuery | src/Raven.Server/Documents/Indexes/Persistence/Corax/CoraxQueryBuilder.cs:30-81 | the binary flag is the WHERE clause's; without ORDER BY the result is the compiled WHERE clause; with one it succeeds exactly when the sort metadata and the ordering of the WHERE plan do, and is that ordered plan |
| CoraxQueryBuilderProofs.BuildQueryRejectsRandomAndCustom | src/Raven.Server/Documents/Indexes/Persistence/Corax/CoraxQueryBuilder.cs:70-74 | a query that builds with an ORDER BY and a non-zero page size has no random or custom ordering key |
| CoraxQueryBuilderProofs.RandomOrderingFailsBuild | src/Raven.Server/Documents/Indexes/Persistence/Corax/CoraxQueryBuilder.cs:70-74 | `ORDER BY random()` fails the query as not supported |
| CoraxQueryBuilderProofs.AndOfNegationsCompiles | src/Raven.Server/Documents/Indexes/Persistence/Corax/CoraxQueryBuilder.cs:196-207 | `NOT A AND NOT B` compiles A (with the exact flag) and B (without it) and yields all entries minus the Or of the two merged matches |
| CoraxQueryBuilderProofs.AndOfNegationsIsComplementOfUnion | src/Raven.Server/Documents/Indexes/Persistence/Corax/CoraxQueryBuilder.cs:196-207 | `NOT A AND NOT B` returns every document neither A nor B returns |
| CoraxQueryBuilderProofs.NegatedLeftOperandCompiles | src/Raven.Server/Documents/Indexes/Persistence/Corax/CoraxQueryBuilder.cs:209-220 | `NOT A AND B` compiles exactly when B and A do, B first and A second, and builds the as-written node on the two materialised plans |
| CoraxQueryBuilderProofs.NegatedLeftOperandIsExcluded | src/Raven.Server/Documents/Indexes/Persistence/Corax/CoraxQueryBuilder.cs:209-220 | the corrected compile of `NOT A AND B` returns B's documents that A does not return |
| CoraxQueryBuilderProofs.NegatedLeftOperandAsWrittenDocs | src/Raven.Server/Documents/Indexes/Persistence/Corax/CoraxQueryBuilder.cs:209-220 | as the code is written, `NOT A AND B` returns A's documents that B does not return |
| CoraxQueryBuilder.CompileNegatedLeftAnd | src/Raven.Server/Documents/Indexes/Persistence/Corax/CoraxQueryBuilder.cs:209-220 | the corrected `NOT A AND B` compiles exactly when B and A do |
| CoraxQueryBuilderProofs.NegatedRightOperandCompiles | src/Raven.Server/Documents/Indexes/Persistence/Corax/CoraxQueryBuilder.cs:222-232 | `A AND NOT B` yields A's merged match without B's |
| CoraxQueryBuilderProofs.NegatedRightOperandIsExcluded | src/Raven.Server/Documents/Indexes/Persistence/Corax/CoraxQueryBuilder.cs:222-232 | `A AND NOT B` returns A's documents that B does not return |
| CoraxQueryBuilderProofs.PlainAndCompiles | src/Raven.Server/Documents/Indexes/Persistence/Corax/CoraxQueryBuilder.cs:234-247 | a plain AND yields the merged item when the two operands merge, and the And of the two otherwise |
| CoraxQueryBuilderProofs.PlainAndIsIntersection | src/Raven.Server/Documents/Indexes/Persistence/Corax/CoraxQueryBuilder.cs:234-247 | an AND that is not a between returns the intersection, merged or not |
| CoraxQueryBuilderProofs.OrCompiles | src/Raven.Server/Documents/Indexes/Persistence/Corax/CoraxQueryBuilder.cs:250-265 | an OR yields the Or of its two operands' matches after the merge attempt |
| CoraxQueryBuilderProofs.OrIsUnion | src/Raven.Server/Documents/Indexes/Persistence/Corax/CoraxQueryBuilder.cs:250-265 | an OR returns the union of its operands |
| CoraxQueryBuilderProofs.NotBindsTighterThanAndOr | src/Raven.Server/Documents/Indexes/Persistence/Corax/CoraxQueryBuilder.cs:348-360 | an unparenthesised `NOT (l AND r)` or `NOT (l OR r)` compiles as `(NOT l) AND r` or `(NOT l) OR r` |
| CoraxQueryBuilderProofs.BareNotCompilesToOperand | src/Raven.Server/Documents/Indexes/Persistence/Corax/CoraxQueryBuilder.cs:362-364 | any other NOT compiles to its operand: the negation is dropped |
| CoraxQueryBuilderProofs.NotOrMatchesPlainOr | src/Raven.Server/Documents/Indexes/Persistence/Corax/CoraxQueryBuilder.cs:344-365 | so `NOT a OR b` returns the same documents as `a OR b` |
| CoraxQueryBuilderProofs.NegatedLeftAndAsWrittenCounterexample | src/Raven.Server/Documents/Indexes/Persistence/Corax/CoraxQueryBuilder.cs:209-220 | on a two-document corpus the rewrite as written returns the document only A matches and misses the one only B matches |
| CoraxQueryBuilderProofs.EqualsOneCompiles | src/Raven.Server/Documents/Indexes/Persistence/Corax/CoraxQueryBuilder.cs:266-313 | `field = 1` compiles to the term query for 1 on the field's id |
| CoraxQueryBuilderProofs.NegatedLeftCompileCounterexample | src/Raven.Server/Documents/Indexes/Persistence/Corax/CoraxQueryBuilder.cs:209-220 | through the compiler, `NOT a = 1 AND b = 1` returns the document with only a = 1 and misses the one with only b = 1; the corrected compile does the opposite |
| CoraxQueryBuilderProofs.InMatchesValues | src/Raven.Server/Documents/Indexes/Persistence/Corax/CoraxQueryBuilder.cs:376-430 | `IN` returns a document holding some value's string form in the field, `ALL IN` one holding every value's |
| CoraxQueryBuilderProofs.BetweenItemIsConjunction | src/Raven.Server/Documents/Indexes/Persistence/Corax/CoraxQueryBuilder.cs:492-538 | on a single-valued field a between item returns exactly the documents both its bounds return |
| CoraxQueryBuilderProofs.NumericComparisonCompiles | src/Raven.Server/Documents/Indexes/Persistence/Corax/CoraxQueryBuilder.cs:266-313 | a range comparison of a field with a numeric value compiles to one unary item on the raw value and on the field id chosen after IsExact |
| CoraxQueryBuilderProofs.BetweenSynthesisCompiles | src/Raven.Server/Documents/Indexes/Persistence/Corax/CoraxQueryBuilder.cs:168-192 | an AND of a lower and an upper bound on one numeric field compiles to one between item with those bounds; the comparisons use the field id chosen after IsExact and the between the id for the incoming `exact` |
| CoraxQueryBuilderProofs.BetweenSynthesisMatchesConjunction | src/Raven.Server/Documents/Indexes/Persistence/Corax/CoraxQueryBuilder.cs:168-192 | when those two field ids agree and the field is single-valued, that between returns exactly what both comparisons return |
| CoraxQueryBuilderProofs.BetweenSynthesisNeedsSingleValuedField | src/Raven.Server/Documents/Indexes/Persistence/Corax/CoraxQueryBuilder.cs:168-192 | a document holding 1 and 10 matches `x > 5 AND x < 3` but not the between the rewrite makes |
| CoraxQueryBuilderProofs.SearchReturnsFullTextMatches | src/Raven.Server/Documents/Indexes/Persistence/Corax/CoraxQueryBuilder.cs:683-767 | `search(f, text [, op])` returns the documents satisfying the full-text query on the searched field's id |
| CoraxQueryBuilderProofs.StartsWithReturnsPrefixed | src/Raven.Server/Documents/Indexes/Persistence/Corax/CoraxQueryBuilder.cs:549-582 | `startsWith(f, p)` returns the documents holding a string term starting with p in the field chosen after IsExact |
| CoraxQueryBuilderProofs.EndsWithReturnsSuffixed | src/Raven.Server/Documents/Indexes/Persistence/Corax/CoraxQueryBuilder.cs:584-617 | `endsWith(f, s)` returns the documents holding a string term ending with s in the field chosen after IsExact |
| CoraxQueryBuilderProofs.ExistsReturnsDocumentsWithField | src/Raven.Server/Documents/Indexes/Persistence/Corax/CoraxQueryBuilder.cs:540-547 | `exists(f)` returns the documents holding some value in f |
| CoraxQueryBuilderProofs.SpatialReturnsRelatedShapes | src/Raven.Server/Documents/Indexes/Persistence/Corax/CoraxQueryBuilder.cs:769-829 | a spatial method returns the documents whose field stands in the method's relation to the given shape |
| CoraxQueryBuilderProofs.BoostKeepsDocuments | src/Raven.Server/Documents/Indexes/Persistence/Corax/CoraxQueryBuilder.cs:619-681 | boost() changes scores, never the documents |
| CoraxQueryBuilderProofs.BuildQueryMatchesWhere | src/Raven.Server/Documents/Indexes/Persistence/Corax/CoraxQueryBuilder.cs:30-81 | all documents without WHERE, otherwise exactly the compiled WHERE clause's; ORDER BY does not change the documents |
| CoraxSortBuilder.SlotsFor | src/Raven.Server/Documents/Indexes/Persistence/Corax/CoraxQueryBuilder.cs:850-932 | a plain ordering takes one slot with its own key; random and custom orderings are not supported |
| CoraxSortBuilder.SortSlots | src/Raven.Server/Documents/Indexes/Persistence/Corax/CoraxQueryBuilder.cs:848-934 | the keys never exceed the eight-slot array |
| CoraxSortBuilder.SortKeys | src/Raven.Server/Documents/Indexes/Persistence/Corax/CoraxQueryBuilder.cs:831-935 | page size 0 gives no keys; no ORDER BY gives one score key exactly when the query or index has boosts; at most eight keys |
| CoraxSortBuilder.SortSlotsErrorPersists | src/Raven.Server/Documents/Indexes/Persistence/Corax/CoraxQueryBuilder.cs:850-932 | once an ORDER BY field fails, the whole loop fails with that error |
| CoraxSortBuilder.PlainKeysOneSlotEach | src/Raven.Server/Documents/Indexes/Persistence/Corax/CoraxQueryBuilder.cs:913-931 | plain keys succeed exactly when there are at most eight (else index out of range), one key per field in order |
| CoraxSortBuilder.SortSlotsRejectsRandomAndCustom | src/Raven.Server/Documents/Indexes/Persistence/Corax/CoraxQueryBuilder.cs:852-855 | a successful key list comes from no random or custom ordering |
| CoraxSortBuilder.DescendingScoreFillsTwoSlots | src/Raven.Server/Documents/Indexes/Persistence/Corax/CoraxQueryBuilder.cs:862 | a descending score ordering fills two slots |
| CoraxSortBuilder.PlaceKey | src/Raven.Server/Documents/Indexes/Persistence/Corax/CoraxQueryBuilder.cs:850-932 | one loop step writes into the array exactly the keys the specification appends, or fails with its error |
| CoraxSortBuilder.GetSortMetadata | src/Raven.Server/Documents/Indexes/Persistence/Corax/CoraxQueryBuilder.cs:831-935 | the method over the fixed array returns the keys SortKeys specifies |
| CoraxSortBuilder.ComparerFor | src/Raven.Server/Documents/Indexes/Persistence/Corax/CoraxQueryBuilder.cs:2859-2873 | the general loop: spatial keys sort by ascending distance, score keys by relevance, others ascending or descending by direction |
| CoraxSortBuilder.GenericComparers | src/Raven.Server/Documents/Indexes/Persistence/Corax/CoraxQueryBuilder.cs:2859-2873 | one comparer per key, as the loop builds it |
| CoraxSortBuilder.TableComparers | src/Raven.Server/Documents/Indexes/Persistence/Corax/CoraxQueryBuilder.cs:959-2856 | one comparer per key, chosen by the two- and three-key tables |
| CoraxSortBuilder.OrderBySpec | src/Raven.Server/Documents/Indexes/Persistence/Corax/CoraxQueryBuilder.cs:937-2887 | no keys leave the match as it is; more than eight is an invalid query; four to eight use the loop's comparers; sorting never changes the documents |
| CoraxSortBuilder.OrderBy | src/Raven.Server/Documents/Indexes/Persistence/Corax/CoraxQueryBuilder.cs:937-2887 | the method with its comparer loop returns what OrderBySpec specifies |
| CoraxSortBuilder.TablesAgreeWithLoop | src/Raven.Server/Documents/Indexes/Persistence/Corax/CoraxQueryBuilder.cs:959-2873 | the tables and the loop pick the same comparer, except for a descending spatial key |
| CoraxSortBuilder.DescendingDistanceSortsAscending | src/Raven.Server/Documents/Indexes/Persistence/Corax/CoraxQueryBuilder.cs:2868 | in the loop a descending spatial key still sorts nearest first |
| CoraxSortBuilder.AscendingThenDescendingMatchesReference | test/FastTests/Corax/OrderByMultiSorting.cs:105-111 | an ascending then descending comparer pair orders like the reference comparison |
| CoraxSortBuilder.TiesOrderedByRemainingKeys | src/Raven.Server/Documents/Indexes/Persistence/Corax/CoraxQueryBuilder.cs:2875-2886 | in a sorted result, documents tied on the first key are ordered by the rest |
| CoraxSortBuilder.TiesOnFirstKeyDescendOnSecond | test/FastTests/Corax/OrderByMultiSorting.cs:105-111 | documents tied on the ascending key come in descending order of the second |
| CoraxQueryEvaluator.GetNegated | src/Raven.Server/Documents/Indexes/Persistence/Corax/CoraxQueryEvaluator.cs:332-344 | negation keeps range operators range operators, swaps greater and less, and swaps And and Or |
| CoraxQueryEvaluator.GetNegatedInvolution | src/Raven.Server/Documents/Indexes/Persistence/Corax/CoraxQueryEvaluator.cs:332-344 | negating twice gives the operator back |
| CoraxQueryEvaluator.RangeOperation | src/Raven.Server/Documents/Indexes/Persistence/Corax/CoraxQueryEvaluator.cs:230-247 | a range operator becomes a range match operation |
| CoraxQueryEvaluator.NegatedRangeIsComplement | src/Raven.Server/Documents/Indexes/Persistence/Corax/CoraxQueryEvaluator.cs:335-338 | a number satisfies the negated range exactly when it fails the original |
| CoraxQueryEvaluator.OrderTypeFieldConverter | src/Raven.Server/Documents/Indexes/Persistence/Corax/CoraxQueryEvaluator.cs:346-353 | double orders as floating, long and alphanumeric as integer, anything else as sequence |
| CoraxQueryEvaluator.GetComparerType | src/Raven.Server/Documents/Indexes/Persistence/Corax/CoraxQueryEvaluator.cs:401-406 | boosting exactly for the score id, else ascending or descending by direction |
| CoraxQueryEvaluator.GetFieldIdInIndex | src/Raven.Server/Documents/Indexes/Persistence/Corax/CoraxQueryEvaluator.cs:356-372 | no fields to fetch is an invalid query; an index field wins; else id() is 0, score is the score id, others are invalid data |
| CoraxQueryEvaluator.IndexFieldShadowsReservedNames | src/Raven.Server/Documents/Indexes/Persistence/Corax/CoraxQueryEvaluator.cs:361-370 | an index field named `score` hides the score id only when looked up as a field |
| CoraxQueryEvaluator.GetField | src/Raven.Server/Documents/Indexes/Persistence/Corax/CoraxQueryEvaluator.cs:381-392 | fields, values and methods have names (id() is the document id field, a value its token); other expressions are invalid data |
| CoraxQueryEvaluator.AsValue | src/Raven.Server/Documents/Indexes/Persistence/Corax/CoraxQueryEvaluator.cs:224 | the cast to a value expression succeeds exactly on a value, else an invalid cast |
| CoraxQueryEvaluator.FieldIdFor | src/Raven.Server/Documents/Indexes/Persistence/Corax/CoraxQueryEvaluator.cs:223 | the field id of a field expression is looked up under its index field name |
| CoraxQueryEvaluator.GetValue | src/Raven.Server/Documents/Indexes/Persistence/Corax/CoraxQueryEvaluator.cs:301-330 | a literal keeps its token type; a parameter becomes a long or a double with a value of that kind |
| CoraxQueryEvaluator.NumericTerm | src/Raven.Server/Documents/Indexes/Persistence/Corax/CoraxQueryEvaluator.cs:232-245 | the casts `(long)` and `(double)` succeed exactly on a value of the declared kind |
| CoraxQueryEvaluator.ParameterNumbersUnbox | src/Raven.Server/Documents/Indexes/Persistence/Corax/CoraxQueryEvaluator.cs:309-329 | a parameter's value always survives the numeric cast |
| CoraxQueryEvaluator.WithScore | src/Raven.Server/Documents/Indexes/Persistence/Corax/CoraxQueryEvaluator.cs:251-253 | boosting never changes the documents, and the null score leaves the match alone |
| CoraxQueryEvaluator.Evaluate | src/Raven.Server/Documents/Indexes/Persistence/Corax/CoraxQueryEvaluator.cs:55-113 | the tree keeps its shape; without negation it is unchanged; TRUE gives all entries |
| CoraxQueryEvaluator.BinaryEvaluator | src/Raven.Server/Documents/Indexes/Persistence/Corax/CoraxQueryEvaluator.cs:162-196 | a negated node's operator is overwritten with its negation, and only then |
| CoraxQueryEvaluator.AndEvaluator | src/Raven.Server/Documents/Indexes/Persistence/Corax/CoraxQueryEvaluator.cs:198-209 | the AND node keeps its operator and shape, and is left as it was when nothing under it is negated |
| CoraxQueryEvaluator.EvaluateEqual | src/Raven.Server/Documents/Indexes/Persistence/Corax/CoraxQueryEvaluator.cs:175-184 | a term query on the field's id and the value's string, boosted unless the score is null |
| CoraxQueryEvaluator.EvaluateNotEqual | src/Raven.Server/Documents/Indexes/Persistence/Corax/CoraxQueryEvaluator.cs:185-191 | negated: a term query; otherwise all entries not equal to the value |
| CoraxQueryEvaluator.EvaluateUnary | src/Raven.Server/Documents/Indexes/Persistence/Corax/CoraxQueryEvaluator.cs:219-254 | a range match on the previous match, with the value as bound, or the empty string for strings |
| CoraxQueryEvaluator.EvaluateBetween | src/Raven.Server/Documents/Indexes/Persistence/Corax/CoraxQueryEvaluator.cs:256-287 | a between match, or its complement in all entries when negated |
| CoraxQueryEvaluator.InTokens | src/Raven.Server/Documents/Indexes/Persistence/Corax/CoraxQueryEvaluator.cs:292-294 | every IN value must be a value expression (else an invalid cast), and their tokens are kept in order |
| CoraxQueryEvaluator.CollectInTokens | src/Raven.Server/Documents/Indexes/Persistence/Corax/CoraxQueryEvaluator.cs:292-294 | the foreach loop returns what InTokens specifies |
| CoraxQueryEvaluator.EvaluateIn | src/Raven.Server/Documents/Indexes/Persistence/Corax/CoraxQueryEvaluator.cs:289-299 | an in match on the field's name and the tokens, failing exactly when a token fails |
| CoraxQueryEvaluator.EvaluateAffix | src/Raven.Server/Documents/Indexes/Persistence/Corax/CoraxQueryEvaluator.cs:74-83 | fewer than two arguments fail; a starts- or ends-with match carrying the negation flag |
| CoraxQueryEvaluator.SearchOperatorNamed | src/Raven.Server/Documents/Indexes/Persistence/Corax/CoraxQueryEvaluator.cs:150-155 | `and` or `or` in any ASCII case, and AND exactly for `and` |
| CoraxQueryEvaluator.SearchTerm | src/Raven.Server/Documents/Indexes/Persistence/Corax/CoraxQueryEvaluator.cs:133-141 | a literal's token, or the parameter's string |
| CoraxQueryEvaluator.SearchMethod | src/Raven.Server/Documents/Indexes/Persistence/Corax/CoraxQueryEvaluator.cs:117-159 | two arguments search with OR and no score; three use the named operator; more than three fail |
| CoraxQueryEvaluator.KeyId | src/Raven.Server/Documents/Indexes/Persistence/Corax/CoraxQueryEvaluator.cs:415-420 | a method key is looked up by its name, not as a field |
| CoraxQueryEvaluator.TableComparer | src/Raven.Server/Documents/Indexes/Persistence/Corax/CoraxQueryEvaluator.cs:435-658 | succeeds exactly when the key's id resolves, with the comparer its type and direction give |
| CoraxQueryEvaluator.TableComparers | src/Raven.Server/Documents/Indexes/Persistence/Corax/CoraxQueryEvaluator.cs:435-658 | one table comparer per key |
| CoraxQueryEvaluator.LoopComparer | src/Raven.Server/Documents/Indexes/Persistence/Corax/CoraxQueryEvaluator.cs:661-689 | a key that is neither field nor method gets the null comparer; id() sorts on id 0; score() by relevance |
| CoraxQueryEvaluator.LoopComparers | src/Raven.Server/Documents/Indexes/Persistence/Corax/CoraxQueryEvaluator.cs:661-689 | one loop comparer per key |
| CoraxQueryEvaluator.LoopComparersErrorPersists | src/Raven.Server/Documents/Indexes/Persistence/Corax/CoraxQueryEvaluator.cs:661-689 | a key that fails makes the whole loop fail with its error |
| CoraxQueryEvaluator.SingleKeyOrder | src/Raven.Server/Documents/Indexes/Persistence/Corax/CoraxQueryEvaluator.cs:413-434 | a key that is neither field nor method is an invalid query; the score id orders by score; the documents do not change |
| CoraxQueryEvaluator.TableOrder | src/Raven.Server/Documents/Indexes/Persistence/Corax/CoraxQueryEvaluator.cs:435-658 | any key that is not a field or method is an invalid query; else a sorting match with one comparer per key |
| CoraxQueryEvaluator.OrderBySpec | src/Raven.Server/Documents/Indexes/Persistence/Corax/CoraxQueryEvaluator.cs:408-703 | no keys or more than eight fail; four to eight use the loop's comparers; the documents never change |
| CoraxQueryEvaluator.OrderBy | src/Raven.Server/Documents/Indexes/Persistence/Corax/CoraxQueryEvaluator.cs:408-703 | the method returns what OrderBySpec specifies |
| CoraxQueryEvaluator.FillComparers | src/Raven.Server/Documents/Indexes/Persistence/Corax/CoraxQueryEvaluator.cs:661-689 | the comparer array loop returns what LoopComparers specifies |
| CoraxQueryEvaluator.TableAgreesWithLoopOnFields | src/Raven.Server/Documents/Indexes/Persistence/Corax/CoraxQueryEvaluator.cs:435-689 | on field keys the tables and the loop agree, except that the tables turn the score id into relevance |
| CoraxQueryEvaluator.OrderByIdNeedsFourKeys | src/Raven.Server/Documents/Indexes/Persistence/Corax/CoraxQueryEvaluator.cs:413-658 | ordering by id() first fails with one to three keys, though the loop would accept it |
| CoraxQueryEvaluator.SearchSpec | src/Raven.Server/Documents/Indexes/Persistence/Corax/CoraxQueryEvaluator.cs:40-53 | no WHERE and no ORDER BY gives all entries; with a WHERE it is the WHERE's evaluation |
| CoraxQueryEvaluator.Evaluator.constructor | src/Raven.Server/Documents/Indexes/Persistence/Corax/CoraxQueryEvaluator.cs:34-38 | a new evaluator holds its collaborators and no query |
| CoraxQueryEvaluator.Evaluator.Search | src/Raven.Server/Documents/Indexes/Persistence/Corax/CoraxQueryEvaluator.cs:40-53 | stores the query, with its WHERE as rewritten, and the fields; returns what SearchSpec specifies |
| CoraxQueryEvaluatorProofs.UnfoldNegated | src/Raven.Server/Documents/Indexes/Persistence/Corax/CoraxQueryEvaluator.cs:60-62 | NOT flips the flag and keeps its node in the tree |
| CoraxQueryEvaluatorProofs.DoubleNegationCancels | src/Raven.Server/Documents/Indexes/Persistence/Corax/CoraxQueryEvaluator.cs:60-62 | `NOT NOT x` evaluates like `x` |
| CoraxQueryEvaluatorProofs.NegatedRangeDocsAreComplement | src/Raven.Server/Documents/Indexes/Persistence/Corax/CoraxQueryEvaluator.cs:332-338 | on a field holding one number per document, the negated range returns the complement |
| CoraxQueryEvaluatorProofs.NotOfNumericRangeIsComplement | src/Raven.Server/Documents/Indexes/Persistence/Corax/CoraxQueryEvaluator.cs:162-195 | `NOT (f op n)` returns every document `f op n` does not |
| CoraxQueryEvaluatorProofs.NegatedAndIsUnionOfNegations | src/Raven.Server/Documents/Indexes/Persistence/Corax/CoraxQueryEvaluator.cs:165-174 | `NOT (a AND b)` returns the union of the negated operands |
| CoraxQueryEvaluatorProofs.NotEqualIsComplementOfEqual | src/Raven.Server/Documents/Indexes/Persistence/Corax/CoraxQueryEvaluator.cs:175-191 | `f != v` returns every document `f = v` does not |
| CoraxQueryEvaluatorProofs.NegatedBetweenIsComplement | src/Raven.Server/Documents/Indexes/Persistence/Corax/CoraxQueryEvaluator.cs:256-287 | `NOT (f BETWEEN a AND b)` returns the complement of the between |
| CoraxQueryEvaluatorProofs.BetweenIgnoresInclusivity | src/Raven.Server/Documents/Indexes/Persistence/Corax/CoraxQueryEvaluator.cs:256-287 | the bounds' inclusivity flags do not change the evaluation |
| CoraxQueryEvaluatorProofs.OrResult | src/Raven.Server/Documents/Indexes/Persistence/Corax/CoraxQueryEvaluator.cs:173-174 | a node that is OR after the flag is applied succeeds exactly when both operands do, giving the Or of their matches |
| CoraxQueryEvaluatorProofs.AndOfOthersResult | src/Raven.Server/Documents/Indexes/Persistence/Corax/CoraxQueryEvaluator.cs:204 | an AND of two non-range operands succeeds exactly when both do, giving the And of their matches |
| CoraxQueryEvaluatorProofs.AndOfRangeAndOtherResult | src/Raven.Server/Documents/Indexes/Persistence/Corax/CoraxQueryEvaluator.cs:207 | a left range operand is applied to the right operand's match |
| CoraxQueryEvaluatorProofs.AndOfOtherAndRangeResult | src/Raven.Server/Documents/Indexes/Persistence/Corax/CoraxQueryEvaluator.cs:208 | a right range operand is applied to the left operand's match |
| CoraxQueryEvaluatorProofs.OrIsUnion | src/Raven.Server/Documents/Indexes/Persistence/Corax/CoraxQueryEvaluator.cs:173-174 | OR returns the union of its operands |
| CoraxQueryEvaluatorProofs.UnaryNarrowsPrevious | src/Raven.Server/Documents/Indexes/Persistence/Corax/CoraxQueryEvaluator.cs:219-254 | a range on a previous match returns the previous documents that satisfy the range |
| CoraxQueryEvaluatorProofs.AndOfRangesIsIntersection | src/Raven.Server/Documents/Indexes/Persistence/Corax/CoraxQueryEvaluator.cs:205-206 | two chained ranges return the intersection |
| CoraxQueryEvaluatorProofs.AndOfRangeAndOtherIsIntersection | src/Raven.Server/Documents/Indexes/Persistence/Corax/CoraxQueryEvaluator.cs:207 | a range on the right operand's match returns the intersection |
| CoraxQueryEvaluatorProofs.AndOfOtherAndRangeIsIntersection | src/Raven.Server/Documents/Indexes/Persistence/Corax/CoraxQueryEvaluator.cs:208 | a range on the left operand's match returns the intersection |
| CoraxQueryEvaluatorProofs.AndOfOthersIsIntersection | src/Raven.Server/Documents/Indexes/Persistence/Corax/CoraxQueryEvaluator.cs:204 | an And match of two operands returns the intersection |
| CoraxQueryEvaluatorProofs.AndIsIntersection | src/Raven.Server/Documents/Indexes/Persistence/Corax/CoraxQueryEvaluator.cs:197-209 | in every operand combination AND returns the intersection |
| CoraxQueryEvaluatorProofs.NegatedEqualityMatchesEquality | src/Raven.Server/Documents/Indexes/Persistence/Corax/CoraxQueryEvaluator.cs:185-191 | `NOT (f = v)` evaluates exactly like `f = v` |
| CoraxQueryEvaluatorProofs.NegatedOrOfRangesKeepsOperators | src/Raven.Server/Documents/Indexes/Persistence/Corax/CoraxQueryEvaluator.cs:205-206 | `NOT (a OR b)` over two ranges evaluates like `a AND b` |
| CoraxQueryEvaluatorProofs.NegationIgnoredByInAndExists | src/Raven.Server/Documents/Indexes/Persistence/Corax/CoraxQueryEvaluator.cs:94-106 | IN and exists() ignore the negation flag |
| CoraxQueryEvaluatorProofs.StringRangeIgnoresBound | src/Raven.Server/Documents/Indexes/Persistence/Corax/CoraxQueryEvaluator.cs:226-228 | a range against any string compares with the empty string |
| CoraxQueryEvaluatorProofs.ReevaluationLosesNegation | src/Raven.Server/Documents/Indexes/Persistence/Corax/CoraxQueryEvaluator.cs:165-166 | the overwritten tree, evaluated again, gives the unnegated match |
| CoraxQueryEvaluatorProofs.SearchWithoutNegationKeepsWhere | src/Raven.Server/Documents/Indexes/Persistence/Corax/CoraxQueryEvaluator.cs:40-53 | a WHERE clause without NOT is left as it was |
| IndexOperationBase.NarrowToInt | src/Raven.Server/Documents/Indexes/Persistence/IndexOperationBase.cs:123 | the `(int)` cast keeps in-range values and differs from its input by a multiple of 2^32 |
| IndexOperationBase.LuceneGetPageSize | src/Raven.Server/Documents/Indexes/Persistence/IndexOperationBase.cs:115-124 | the page size clamped to MaxDoc: the smaller of the two for any page size from int.MinValue up |
| IndexOperationBase.CoraxGetPageSize | src/Raven.Server/Documents/Indexes/Persistence/IndexOperationBase.cs:126-136 | the number of entries, at most int.MaxValue and at least the buffer size |
| IndexOperationBase.GetLuceneQuery | src/Raven.Server/Documents/Indexes/Persistence/IndexOperationBase.cs:52-107 | match-all exactly when the query has no WHERE; otherwise the given expression is built |
| IndexOperationBase.GetLuceneQueryOfOwnWhere | src/Raven.Server/Documents/Indexes/Persistence/IndexOperationBase.cs:47-50 | the overload without an expression builds the query's own WHERE clause |
| PutAutoIndexCommand.GetAutoIndexType | src/Raven.Server/ServerWide/Commands/Indexes/PutAutoIndexCommand.cs:59-72 | map-reduce wins over map; neither is a Rachis apply error |
| PutAutoIndexCommand.FieldOptions | src/Raven.Server/ServerWide/Commands/Indexes/PutAutoIndexCommand.cs:98-111 | the stored options give back the auto field they were made from |
| PutAutoIndexCommand.CreateFields | src/Raven.Server/ServerWide/Commands/Indexes/PutAutoIndexCommand.cs:90-114 | null stays null; otherwise the same keys, each holding the options of its own field |
| PutAutoIndexCommand.GetAutoIndexDefinition | src/Raven.Server/ServerWide/Commands/Indexes/PutAutoIndexCommand.cs:74-88 | no collection is an invalid operation, a group-by read of a non-map-reduce definition an invalid cast; otherwise every attribute and field is copied |
| PutAutoIndexCommand.PutAutoIndexCommand.constructor | src/Raven.Server/ServerWide/Commands/Indexes/PutAutoIndexCommand.cs:25-30 | stores its arguments; the creation time defaults to DateTime.MinValue |
| PutAutoIndexCommand.PutAutoIndexCommand.Empty | src/Raven.Server/ServerWide/Commands/Indexes/PutAutoIndexCommand.cs:21-23 | a command without definition, created at DateTime.MinValue |
| PutAutoIndexCommand.PutAutoIndexCommand.UpdateDatabaseRecord | src/Raven.Server/ServerWide/Commands/Indexes/PutAutoIndexCommand.cs:32-44 | succeeds exactly when the rolling setting and the add succeed, with the added record; every failure is a Rachis apply error |
| PutAutoIndexCommand.Create | src/Raven.Server/ServerWide/Commands/Indexes/PutAutoIndexCommand.cs:52-57 | succeeds exactly for a map or map-reduce definition with a collection, making a fresh command stamped now |
| DictionaryGenerator.AllLinesKeepsEveryLine | tools/Voron.Dictionary.Generator/Program.cs:17-22 | every line of every file is in the dictionary |
| DictionaryGenerator.AllLinesComeFromFiles | tools/Voron.Dictionary.Generator/Program.cs:17-22 | every dictionary line is a line of some file |
| DictionaryGenerator.CollectLines | tools/Voron.Dictionary.Generator/Program.cs:17-22 | the nested loops collect the files' lines, file after file, in order |
| DictionaryGenerator.BisectInBounds | tools/Voron.Dictionary.Generator/Program.cs:33-49 | the bisection ends within its bounds, on the lower bound or a size that trained |
| DictionaryGenerator.BisectWithinOneOfLargest | tools/Voron.Dictionary.Generator/Program.cs:33-49 | when training succeeds exactly up to some size, the search ends on it or one below |
| DictionaryGenerator.AdjacentBoundsSkipHigher | tools/Voron.Dictionary.Generator/Program.cs:35-37 | with adjacent bounds the higher size is never tried, even when it would train |
| DictionaryGenerator.FindDictionarySize | tools/Voron.Dictionary.Generator/Program.cs:30-49 | the loop from 128 and 32766 returns the bisection's size, within the bounds, 128 or a size that trained |
| DictionaryGenerator.Generate | tools/Voron.Dictionary.Generator/Program.cs:17-54 | collects the lines, then searches with a training run on those lines |
| DictionaryGenerator.EncodeScalarDecodes | tools/Voron.Dictionary.Generator/Program.cs:88 | one character's UTF-8 bytes decode back to its scalar value |
| DictionaryGenerator.Utf8RoundTrip | tools/Voron.Dictionary.Generator/Program.cs:88 | a string's UTF-8 bytes decode back to its scalar values |
| DictionaryGenerator.StringArrayIterator.Length | tools/Voron.Dictionary.Generator/Program.cs:86 | the number of strings |
| DictionaryGenerator.StringArrayIterator.At | tools/Voron.Dictionary.Generator/Program.cs:88 | in range exactly when the index is; the bytes decode to the string; otherwise index out of range |

## Left out

- Highlighting terms and build steps are not modelled. They do not change which documents a query returns.
- The `take` limit is fixed to TakeAll. With a page size, sorting and range matches may return fewer documents; CoraxSortBuilder.OrderBySpec, CoraxQueryEvaluator.OrderBySpec and CoraxQueryBuilderProofs.BuildQueryMatchesWhere state their results for TakeAll only.
- CoraxQueryBuilder.ToCoraxQuery: its own contract states the `hasBinary` flag, the TRUE, between, IN and method arms and the rejected expression kinds; what the AND, OR, comparison and NOT arms return is stated by CompileAnd, CompileComparison and the CoraxQueryBuilderProofs lemmas.
- CoraxQueryBuilderProofs.BetweenSynthesisMatchesConjunction: the between is equivalent to the AND only when the field id for the incoming `exact` equals the one chosen after IsExact; when they differ the between reads a different field than the two comparisons, as BetweenSynthesisCompiles states.
- `RuntimeHelpers.EnsureSufficientExecutionStack` is not modelled; the model has unbounded recursion.
- Floating-point values and spatial shapes are left out. Doubles are unbounded numbers and spatial points are opaque values, so rounding and distance arithmetic are not modelled.
- Field-name mapping, analysers, value extraction, `float.TryParse`, the spatial readers and the searcher's match constructors are parameters. Their code is not part of this model.
- Value extraction is one collaborator, `getValue`. The extra `true` argument that the comparison arm passes to QueryBuilderHelper.GetValue (CoraxQueryBuilder.cs:282), and that the between bounds omit (lines 502-503), is ignored: both calls read the same value.
- CoraxQueryEvaluator.Evaluate: the in-place overwrite of the operators is modelled by returning the rewritten tree next to the match. Aliasing of that tree with other holders of the query is not captured.
- The evaluator's native-analyser branches are not modelled; the model takes the non-native path.
- Program.cs: reading the files, console output, the final `Train` call and writing the generated source file are left out. Training is a deterministic parameter. The encoder state that successive training runs share through one table is not modelled.
- Program.cs: the order in which `Directory.GetFiles` lists the files is an input.
- DictionaryGenerator.Utf8Encode: unpaired surrogates, which .NET replaces with U+FFFD, are not modelled; characters are treated as scalar values.
- AutoIndexField: only the seven attributes the stored options copy are modelled.
- PutAutoIndexCommand.GetAutoIndexDefinition: the `.As<AutoIndexField>()` cast of the map fields is taken to succeed.
- PutAutoIndexCommand: `FillJson` (serialisation) is left out, and `DatabaseRecord.AddIndex` is a parameter.
- PutAutoIndexCommand.GetAutoIndexDefinition: the `Debug.Assert` on the index type is not modelled, since release builds skip it. Any index type is accepted, as in a release build.
- IndexOperationBase.LuceneGetPageSize: the bound is stated only for page sizes from int.MinValue up; below that the narrowing cast wraps around, and the model computes that wrap without stating it.

## Findings

| source | as written | input that shows it | evidently intended | confidence | as-written member | corrected member |
|---|---|---|---|---|---|---|
| src/Raven.Server/Documents/Indexes/Persistence/Corax/CoraxQueryBuilder.cs:209-220 | `NOT A AND B` builds `AndNot(A, B)`: the documents of A that B does not match | `NOT a = 1 AND b = 1` on documents 1 (a = 1) and 2 (b = 1): document 1 is returned and document 2 is not | `AndNot(B, A)`: the documents of B that A does not match | not executed | CoraxQueryBuilderProofs.NegatedLeftCompileCounterexample | CoraxQueryBuilderProofs.NegatedLeftOperandIsExcluded |
