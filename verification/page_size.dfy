/**
 * The page-size clamps and the WHERE-less branch of query construction
 * shared by the Lucene and Corax index readers (IndexOperationBase).
 *
 * `int` and `long` are .NET's 32- and 64-bit signed integers; the
 * narrowing cast `(int)` of a `long` keeps the low 32 bits.
 */
module IndexOperationBase {
  import opened Common
  import opened QueryAst

  type Int32 = x: int | -0x8000_0000 <= x <= 0x7FFF_FFFF
  type Int64 = x: int | -0x8000_0000_0000_0000 <= x <= 0x7FFF_FFFF_FFFF_FFFF

  const IntMinValue: Int32 := -0x8000_0000
  const IntMaxValue: Int32 := 0x7FFF_FFFF

  /** The unchecked cast `(int)` of a `long`: the low 32 bits, read as signed. */
  function NarrowToInt(x: Int64): (r: Int32)
    ensures IntMinValue <= x <= IntMaxValue ==> r == x
    ensures (r - x) % 0x1_0000_0000 == 0
  {
    var low := x % 0x1_0000_0000;
    if low > IntMaxValue then low - 0x1_0000_0000 else low
  }

  /**
   * LuceneGetPageSize: the requested page size, clamped to the searcher's
   * MaxDoc. The `int.MaxValue` branch is dead: it is reached only with
   * pageSize < MaxDoc <= int.MaxValue.
   */
  function LuceneGetPageSize(maxDoc: Int32, pageSize: Int64): (r: Int32)
    ensures pageSize >= maxDoc ==> r == maxDoc
    ensures IntMinValue <= pageSize < maxDoc ==> r == pageSize
    ensures pageSize >= IntMinValue ==> r <= maxDoc && r <= pageSize && (r == maxDoc || r == pageSize)
  {
    if pageSize >= maxDoc then maxDoc
    else if pageSize >= IntMaxValue then IntMaxValue
    else NarrowToInt(pageSize)
  }

  /**
   * CoraxGetPageSize: the number of entries in the index, capped at
   * `int.MaxValue` and never below the buffer size.
   */
  function CoraxGetPageSize(numberOfEntries: Int64, bufferSize: Int32): (r: Int32)
    ensures r <= IntMaxValue && r >= bufferSize
    ensures numberOfEntries > IntMaxValue ==> r == IntMaxValue
    ensures numberOfEntries <= IntMaxValue ==> r >= numberOfEntries && (r == numberOfEntries || r == bufferSize)
  {
    var size := numberOfEntries;
    if size > IntMaxValue then IntMaxValue
    else if size > bufferSize then size
    else bufferSize
  }

  /** The document query handed to Lucene. */
  datatype LuceneQuery =
    | MatchAllDocsQuery
    | BuiltQuery(where: Option<Expr>)   // what the Lucene query builder makes of the expression

  /**
   * GetLuceneQuery (the overload taking an explicit WHERE expression): the
   * test is on the query's own WHERE clause, so without one every document
   * matches whatever expression is passed; otherwise the passed expression
   * is built.
   */
  function GetLuceneQuery(queryWhere: Option<Expr>, whereExpression: Option<Expr>): (r: LuceneQuery)
    ensures r == MatchAllDocsQuery <==> queryWhere.None?
    ensures r.BuiltQuery? ==> r.where == whereExpression
  {
    if queryWhere.None? then MatchAllDocsQuery else BuiltQuery(whereExpression)
  }

  /**
   * The overload without an expression passes the query's WHERE clause:
   * a query without one matches all documents, and one with a clause is
   * built from exactly that clause.
   */
  lemma GetLuceneQueryOfOwnWhere(queryWhere: Option<Expr>)
    ensures queryWhere.None? ==> GetLuceneQuery(queryWhere, queryWhere) == MatchAllDocsQuery
    ensures queryWhere.Some? ==> GetLuceneQuery(queryWhere, queryWhere) == BuiltQuery(queryWhere)
  {
  }
}
