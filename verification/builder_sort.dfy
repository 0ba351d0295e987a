/**
 * The ORDER BY half of CoraxQueryBuilder: GetSortMetadata, which fills an
 * eight-slot array with one OrderMetadata per key (two for a descending
 * score key), and OrderBy, which wraps the plan in a sorter chosen by the
 * number of keys.
 */
module CoraxSortBuilder {
  import opened Common
  import Q = QueryAst
  import opened MatchAlgebra

  /** OrderByFieldType of an ORDER BY key. */
  datatype OrderByFieldType =
    | ImplicitOrdering | StringOrdering | LongOrdering | DoubleOrdering | AlphaNumericOrdering
    | RandomOrdering | ScoreOrdering | DistanceOrdering | CustomOrdering

  /** An ORDER BY key; `shapeMethod` is the shape method of a distance key. */
  datatype OrderByField = OrderByField(name: string, orderingType: OrderByFieldType, ascending: bool, shapeMethod: Q.MethodType)

  /** QueryBuilderHelper.ComparerType. */
  datatype ComparerKind =
    | AscendingKind | DescendingKind | AscendingAlphanumericKind | DescendingAlphanumericKind
    | BoostingKind | AscendingSpatialKind | DescendingSpatialKind

  datatype SortContext = SortContext(
    fieldIdForOrderBy: string -> int,            // QueryBuilderHelper.GetFieldIdForOrderBy
    comparerType: OrderMetadata -> ComparerKind)  // QueryBuilderHelper.GetComparerType

  const SortSlotCount: nat := 8
  const MaxComparers: nat := 8

  // ---------------------------------------------------------------------
  // GetSortMetadata
  // ---------------------------------------------------------------------

  /** The comparison type of a plain key. */
  function FieldTypeOf(t: OrderByFieldType): MatchCompareFieldType
  {
    match t
    case AlphaNumericOrdering => Alphanumeric
    case LongOrdering => Integer
    case DoubleOrdering => Floating
    case _ => Sequence
  }

  /** A key that occupies one slot and cannot fail. */
  predicate IsPlainKey(f: OrderByField)
  {
    f.orderingType != RandomOrdering && f.orderingType != CustomOrdering && f.orderingType != ScoreOrdering
    && (f.orderingType == DistanceOrdering ==>
          f.shapeMethod == Q.SpatialCircle || f.shapeMethod == Q.SpatialWkt || f.shapeMethod == Q.SpatialPoint)
  }

  /** The metadata of a plain key. */
  function PlainKey(ctx: SortContext, f: OrderByField): OrderMetadata
  {
    if f.orderingType == DistanceOrdering then FieldOrder(f.name, ctx.fieldIdForOrderBy(f.name), f.ascending, Spatial)
    else FieldOrder(f.name, ctx.fieldIdForOrderBy(f.name), f.ascending, FieldTypeOf(f.orderingType))
  }

  /** What one key writes into the sort array. */
  function SlotsFor(ctx: SortContext, f: OrderByField): (r: Result<seq<OrderMetadata>>)
    ensures IsPlainKey(f) ==> r == Ok([PlainKey(ctx, f)])
    ensures f.orderingType == RandomOrdering || f.orderingType == CustomOrdering ==> r == Err(NotSupported)
  {
    match f.orderingType
    case RandomOrdering => Err(NotSupported)
    case ScoreOrdering => if f.ascending then Ok([ScoreOrder(true)]) else Ok([ScoreOrder(false), ScoreOrder(false)])
    case DistanceOrdering =>
      if f.shapeMethod == Q.SpatialCircle || f.shapeMethod == Q.SpatialWkt || f.shapeMethod == Q.SpatialPoint
      then Ok([PlainKey(ctx, f)])
      else Err(ArgumentOutOfRange)
    case CustomOrdering => Err(NotSupported)
    case _ => Ok([PlainKey(ctx, f)])
  }

  /** One iteration of the foreach: the slots of `f` appended, or an array index error past slot 8. */
  function Step(ctx: SortContext, acc: seq<OrderMetadata>, f: OrderByField): (r: Result<seq<OrderMetadata>>)
  {
    var slots :- SlotsFor(ctx, f);
    if |acc| + |slots| > SortSlotCount then Err(IndexOutOfRange) else Ok(acc + slots)
  }

  /** The slots filled after the keys `fields`, in order. */
  function SortSlots(ctx: SortContext, fields: seq<OrderByField>): (r: Result<seq<OrderMetadata>>)
    ensures r.Ok? ==> |r.value| <= SortSlotCount
    decreases |fields|
  {
    if fields == [] then Ok([])
    else
      var acc :- SortSlots(ctx, fields[..|fields| - 1]);
      Step(ctx, acc, fields[|fields| - 1])
  }

  /** GetSortMetadata. */
  function SortKeys(ctx: SortContext, pageSize: int, orderBy: Option<seq<OrderByField>>, hasBoost: bool,
                    indexHasBoostedFields: bool): (r: Result<seq<OrderMetadata>>)
    ensures pageSize == 0 ==> r == Ok([])
    ensures pageSize != 0 && orderBy.None? ==>
      r == if hasBoost || indexHasBoostedFields then Ok([ScoreOrder(false)]) else Ok([])
    ensures r.Ok? ==> |r.value| <= SortSlotCount
  {
    if pageSize == 0 then Ok([])
    else if orderBy.None? then
      if !hasBoost && !indexHasBoostedFields then Ok([]) else Ok([ScoreOrder(false)])
    else SortSlots(ctx, orderBy.value)
  }

  /** Once a prefix of the keys fails, the whole list fails with the same error. */
  lemma {:induction false} SortSlotsErrorPersists(ctx: SortContext, fields: seq<OrderByField>, k: nat)
    requires k <= |fields| && SortSlots(ctx, fields[..k]).Err?
    ensures SortSlots(ctx, fields) == SortSlots(ctx, fields[..k])
    decreases |fields| - k
  {
    if k == |fields| {
      assert fields[..k] == fields;
    } else {
      var longer := fields[..k + 1];
      assert longer[..|longer| - 1] == fields[..k];
      SortSlotsErrorPersists(ctx, fields, k + 1);
    }
  }

  /**
   * Keys that each take one slot succeed exactly when there are at most
   * eight of them, and slot i then holds key i.
   */
  lemma {:induction false} PlainKeysOneSlotEach(ctx: SortContext, fields: seq<OrderByField>)
    requires forall i :: 0 <= i < |fields| ==> IsPlainKey(fields[i])
    ensures SortSlots(ctx, fields).Ok? <==> |fields| <= SortSlotCount
    ensures SortSlots(ctx, fields).Err? ==> SortSlots(ctx, fields).error == IndexOutOfRange
    ensures SortSlots(ctx, fields).Ok? ==>
      |SortSlots(ctx, fields).value| == |fields|
      && forall i :: 0 <= i < |fields| ==> SortSlots(ctx, fields).value[i] == PlainKey(ctx, fields[i])
    decreases |fields|
  {
    if fields != [] {
      var init := fields[..|fields| - 1];
      PlainKeysOneSlotEach(ctx, init);
    }
  }

  /** A successful sort never came from a Random or Custom key. */
  lemma {:induction false} SortSlotsRejectsRandomAndCustom(ctx: SortContext, fields: seq<OrderByField>)
    requires SortSlots(ctx, fields).Ok?
    ensures forall i :: 0 <= i < |fields| ==>
      fields[i].orderingType != RandomOrdering && fields[i].orderingType != CustomOrdering
    decreases |fields|
  {
    if fields != [] {
      var init := fields[..|fields| - 1];
      SortSlotsRejectsRandomAndCustom(ctx, init);
      assert forall i :: 0 <= i < |init| ==> init[i] == fields[i];
    }
  }

  /** A descending score key fills two slots with the same score metadata. */
  lemma DescendingScoreFillsTwoSlots(ctx: SortContext, name: string, m: Q.MethodType)
    ensures SortSlots(ctx, [OrderByField(name, ScoreOrdering, false, m)]) == Ok([ScoreOrder(false), ScoreOrder(false)])
  {
    var fields := [OrderByField(name, ScoreOrdering, false, m)];
    assert fields[..|fields| - 1] == [];
    assert SlotsFor(ctx, fields[0]) == Ok([ScoreOrder(false), ScoreOrder(false)]);
    assert [] + [ScoreOrder(false), ScoreOrder(false)] == [ScoreOrder(false), ScoreOrder(false)];
  }

  /**
   * The body of the GetSortMetadata foreach for one key: it writes the key's
   * slots at `sortIndex` and returns the next free index, or the error the
   * key raises.
   */
  method PlaceKey(ctx: SortContext, sortArray: array<OrderMetadata>, sortIndex: nat, f: OrderByField)
    returns (next: Result<nat>)
    requires sortArray.Length == SortSlotCount && sortIndex <= SortSlotCount
    modifies sortArray
    ensures next.Err? ==> Step(ctx, old(sortArray[..sortIndex]), f) == Err(next.error)
    ensures next.Ok? ==> next.value <= SortSlotCount && Step(ctx, old(sortArray[..sortIndex]), f) == Ok(sortArray[..next.value])
  {
    ghost var before := sortArray[..sortIndex];
    if f.orderingType == RandomOrdering {
      return Err(NotSupported);
    }
    if f.orderingType == ScoreOrdering {
      if f.ascending {
        if sortIndex >= SortSlotCount {
          return Err(IndexOutOfRange);
        }
        sortArray[sortIndex] := ScoreOrder(true);
        assert sortArray[..sortIndex + 1] == before + [ScoreOrder(true)];
        return Ok(sortIndex + 1);
      }
      if sortIndex + 1 >= SortSlotCount {
        return Err(IndexOutOfRange);
      }
      sortArray[sortIndex + 1] := ScoreOrder(false);
      sortArray[sortIndex] := ScoreOrder(false);
      assert sortArray[..sortIndex + 2] == before + [ScoreOrder(false), ScoreOrder(false)];
      return Ok(sortIndex + 2);
    }
    if f.orderingType == DistanceOrdering {
      var distanceFieldId := ctx.fieldIdForOrderBy(f.name);
      if !(f.shapeMethod == Q.SpatialCircle || f.shapeMethod == Q.SpatialWkt || f.shapeMethod == Q.SpatialPoint) {
        return Err(ArgumentOutOfRange);
      }
      if sortIndex >= SortSlotCount {
        return Err(IndexOutOfRange);
      }
      sortArray[sortIndex] := FieldOrder(f.name, distanceFieldId, f.ascending, Spatial);
      assert sortArray[..sortIndex + 1] == before + [PlainKey(ctx, f)];
      return Ok(sortIndex + 1);
    }
    var fieldId := ctx.fieldIdForOrderBy(f.name);
    if f.orderingType == CustomOrdering {
      return Err(NotSupported);
    }
    var fieldType := Sequence;
    if f.orderingType == AlphaNumericOrdering {
      fieldType := Alphanumeric;
    } else if f.orderingType == LongOrdering {
      fieldType := Integer;
    } else if f.orderingType == DoubleOrdering {
      fieldType := Floating;
    }
    if sortIndex >= SortSlotCount {
      return Err(IndexOutOfRange);
    }
    sortArray[sortIndex] := FieldOrder(f.name, fieldId, f.ascending, fieldType);
    assert sortArray[..sortIndex + 1] == before + [PlainKey(ctx, f)];
    return Ok(sortIndex + 1);
  }

  /**
   * The GetSortMetadata loop over the fixed eight-slot array, returning the
   * filled prefix.
   */
  method GetSortMetadata(ctx: SortContext, pageSize: int, orderBy: Option<seq<OrderByField>>, hasBoost: bool,
                         indexHasBoostedFields: bool) returns (r: Result<seq<OrderMetadata>>)
    ensures r == SortKeys(ctx, pageSize, orderBy, hasBoost, indexHasBoostedFields)
  {
    if pageSize == 0 {
      return Ok([]);
    }
    if orderBy.None? {
      if !hasBoost && !indexHasBoostedFields {
        return Ok([]);
      }
      return Ok([ScoreOrder(false)]);
    }
    var fields := orderBy.value;
    var sortArray := new OrderMetadata[SortSlotCount](_ => ScoreOrder(false));
    var sortIndex := 0;
    for i := 0 to |fields|
      invariant 0 <= sortIndex <= SortSlotCount
      invariant SortSlots(ctx, fields[..i]) == Ok(sortArray[..sortIndex])
    {
      var prefix := fields[..i + 1];
      assert prefix[..|prefix| - 1] == fields[..i] && prefix[|prefix| - 1] == fields[i];
      var next := PlaceKey(ctx, sortArray, sortIndex, fields[i]);
      if next.Err? {
        SortSlotsErrorPersists(ctx, fields, i + 1);
        return Err(next.error);
      }
      sortIndex := next.value;
    }
    assert fields[..|fields|] == fields;
    return Ok(sortArray[..sortIndex]);
  }

  // ---------------------------------------------------------------------
  // OrderBy
  // ---------------------------------------------------------------------

  /** The comparer the generic loop picks for one key. */
  function ComparerFor(o: OrderMetadata): (r: Comparer)
    ensures o.FieldType() == Spatial ==> r == SpatialAscendingComparer(o)
    ensures o.FieldType() == Score ==> r == BoostingComparer
    ensures o.FieldType() != Spatial && o.FieldType() != Score && o.FieldType() != Alphanumeric ==>
      r == (if o.ascending then AscendingComparer(o.FieldId(), o.FieldType()) else DescendingComparer(o.FieldId(), o.FieldType()))
  {
    match o.FieldType()
    case Alphanumeric =>
      if o.ascending then AlphanumericAscendingComparer(o.FieldId(), o.FieldType())
      else AlphanumericDescendingComparer(o.FieldId(), o.FieldType())
    case Spatial => SpatialAscendingComparer(o)
    case Score => BoostingComparer
    case _ => if o.ascending then AscendingComparer(o.FieldId(), o.FieldType()) else DescendingComparer(o.FieldId(), o.FieldType())
  }

  /** The comparer the two- and three-key tables build for a comparer kind. */
  function TableComparer(kind: ComparerKind, o: OrderMetadata): Comparer
  {
    match kind
    case AscendingKind => AscendingComparer(o.FieldId(), o.FieldType())
    case DescendingKind => DescendingComparer(o.FieldId(), o.FieldType())
    case AscendingAlphanumericKind => AlphanumericAscendingComparer(o.FieldId(), o.FieldType())
    case DescendingAlphanumericKind => AlphanumericDescendingComparer(o.FieldId(), o.FieldType())
    case BoostingKind => BoostingComparer
    case AscendingSpatialKind => SpatialAscendingComparer(o)
    case DescendingSpatialKind => SpatialDescendingComparer(o)
  }

  /** The kind a key asks for by its type and direction. */
  function NaturalKind(o: OrderMetadata): ComparerKind
  {
    match o.FieldType()
    case Alphanumeric => if o.ascending then AscendingAlphanumericKind else DescendingAlphanumericKind
    case Spatial => if o.ascending then AscendingSpatialKind else DescendingSpatialKind
    case Score => BoostingKind
    case _ => if o.ascending then AscendingKind else DescendingKind
  }

  /** The generic loop's comparers, one per key in key order. */
  function GenericComparers(keys: seq<OrderMetadata>): (r: seq<Comparer>)
    ensures |r| == |keys|
    ensures forall i :: 0 <= i < |keys| ==> r[i] == ComparerFor(keys[i])
  {
    if keys == [] then [] else [ComparerFor(keys[0])] + GenericComparers(keys[1..])
  }

  /** The table comparers, one per key in key order. */
  function TableComparers(ctx: SortContext, keys: seq<OrderMetadata>): (r: seq<Comparer>)
    ensures |r| == |keys|
    ensures forall i :: 0 <= i < |keys| ==> r[i] == TableComparer(ctx.comparerType(keys[i]), keys[i])
  {
    if keys == [] then [] else [TableComparer(ctx.comparerType(keys[0]), keys[0])] + TableComparers(ctx, keys[1..])
  }

  /** OrderBy: the sorter for `keys`, dispatched on their number. */
  function OrderBySpec(ctx: SortContext, m: Match, keys: seq<OrderMetadata>): (r: Result<Match>)
    ensures |keys| == 0 ==> r == Ok(m)
    ensures |keys| > MaxComparers ==> r == Err(InvalidQuery)
    ensures r.Ok? ==> forall c :: Docs(c, r.value) == Docs(c, m)
    ensures 4 <= |keys| <= MaxComparers ==> r == Ok(SortingMultiMatch(m, GenericComparers(keys)))
  {
    if |keys| == 0 then Ok(m)
    else if |keys| == 1 then
      var o := keys[0];
      if o.HasBoost() then Ok(OrderByScore(m))
      else if o.FieldType() == Spatial then Ok(OrderByDistance(m, o))
      else if o.ascending then Ok(OrderByAscending(m, o.FieldId(), o.FieldType()))
      else Ok(OrderByDescending(m, o.FieldId(), o.FieldType()))
    else if |keys| <= 3 then Ok(SortingMultiMatch(m, TableComparers(ctx, keys)))
    else if |keys| <= MaxComparers then Ok(SortingMultiMatch(m, GenericComparers(keys)))
    else Err(InvalidQuery)
  }

  /** The OrderBy method: the fixed-arity cases, then the loop filling the comparer array. */
  method OrderBy(ctx: SortContext, m: Match, keys: seq<OrderMetadata>) returns (r: Result<Match>)
    ensures r == OrderBySpec(ctx, m, keys)
  {
    if |keys| == 0 {
      return Ok(m);
    }
    if |keys| == 1 {
      var o := keys[0];
      if o.HasBoost() {
        return Ok(OrderByScore(m));
      }
      if o.FieldType() == Spatial {
        return Ok(OrderByDistance(m, o));
      }
      if o.ascending {
        return Ok(OrderByAscending(m, o.FieldId(), o.FieldType()));
      }
      return Ok(OrderByDescending(m, o.FieldId(), o.FieldType()));
    }
    if |keys| <= 3 {
      return Ok(SortingMultiMatch(m, TableComparers(ctx, keys)));
    }
    var comparers := new Comparer[|keys|](_ => NullComparer);
    for i := 0 to |keys|
      invariant forall k :: 0 <= k < i ==> comparers[k] == ComparerFor(keys[k])
    {
      comparers[i] := ComparerFor(keys[i]);
    }
    if |keys| > MaxComparers {
      return Err(InvalidQuery);
    }
    assert comparers[..] == GenericComparers(keys);
    return Ok(SortingMultiMatch(m, comparers[..]));
  }

  /**
   * The tables and the generic loop agree on every key whose kind follows
   * its type and direction, except a descending spatial key, to which the
   * loop gives an ascending spatial comparer.
   */
  lemma TablesAgreeWithLoop(o: OrderMetadata)
    ensures o.FieldType() != Spatial || o.ascending ==> TableComparer(NaturalKind(o), o) == ComparerFor(o)
    ensures o.FieldType() == Spatial && !o.ascending ==>
      TableComparer(NaturalKind(o), o) == SpatialDescendingComparer(o) && ComparerFor(o) == SpatialAscendingComparer(o)
  {
  }

  /** With four or more keys, a descending distance key sorts nearer documents first. */
  lemma DescendingDistanceSortsAscending(c: Corpus, o: OrderMetadata, a: DocId, b: DocId)
    requires o.FieldOrder? && o.fieldType == Spatial && !o.ascending
    ensures CompareBy(c, ComparerFor(o), a, b) == Sign(c.distance(a, o) - c.distance(b, o))
  {
  }

  // ---------------------------------------------------------------------
  // The composite order against the multi-key sorting test
  // ---------------------------------------------------------------------

  /** Int64.CompareTo. */
  function CompareTo(x: int, y: int): int { if x < y then -1 else if x > y then 1 else 0 }

  /** The reference comparison the multi-key sorting test sorts its expected list with. */
  function CompareAscendingThenDescending(content1a: int, content2a: int, content1b: int, content2b: int): int
  {
    var result := CompareTo(content1a, content1b);
    if result == 0 then CompareTo(content2b, content2a) else result
  }

  /**
   * An ascending key followed by a descending key orders documents exactly
   * as the reference comparison does.
   */
  lemma AscendingThenDescendingMatchesReference(c: Corpus, f1: int, f2: int, a: DocId, b: DocId)
    ensures CompareLex(c, [AscendingComparer(f1, Integer), DescendingComparer(f2, Integer)], a, b)
         == CompareAscendingThenDescending(c.sortKey(a, f1, Integer), c.sortKey(a, f2, Integer),
                                           c.sortKey(b, f1, Integer), c.sortKey(b, f2, Integer))
  {
    var cs := [AscendingComparer(f1, Integer), DescendingComparer(f2, Integer)];
    assert cs[1..] == [DescendingComparer(f2, Integer)];
    assert cs[1..][1..] == [];
    var first := CompareBy(c, cs[0], a, b);
    assert CompareLex(c, cs, a, b) == if first != 0 then first else CompareLex(c, cs[1..], a, b);
    var second := CompareBy(c, cs[1..][0], a, b);
    assert CompareLex(c, cs[1..], a, b) == if second != 0 then second else CompareLex(c, cs[1..][1..], a, b);
  }

  /**
   * In a sequence sorted by several comparers, two documents the first
   * comparer ties on are ordered by the rest.
   */
  lemma {:induction false} TiesOrderedByRemainingKeys(c: Corpus, cs: seq<Comparer>, s: seq<DocId>, i: nat, j: nat)
    requires |cs| > 0 && SortedBy(c, cs, s) && i < j < |s|
    requires CompareBy(c, cs[0], s[i], s[j]) == 0
    ensures CompareLex(c, cs[1..], s[i], s[j]) <= 0
  {
    assert CompareLex(c, cs, s[i], s[j]) <= 0;
  }

  /**
   * Sorted by (ascending f1, descending f2), documents with equal f1 keys
   * appear with non-increasing f2 keys.
   */
  lemma TiesOnFirstKeyDescendOnSecond(c: Corpus, f1: int, f2: int, s: seq<DocId>, i: nat, j: nat)
    requires SortedBy(c, [AscendingComparer(f1, Integer), DescendingComparer(f2, Integer)], s)
    requires i < j < |s| && c.sortKey(s[i], f1, Integer) == c.sortKey(s[j], f1, Integer)
    ensures c.sortKey(s[i], f2, Integer) >= c.sortKey(s[j], f2, Integer)
  {
    var cs := [AscendingComparer(f1, Integer), DescendingComparer(f2, Integer)];
    TiesOrderedByRemainingKeys(c, cs, s, i, j);
    assert cs[1..] == [DescendingComparer(f2, Integer)];
    assert cs[1..][1..] == [];
  }
}
