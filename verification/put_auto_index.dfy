/**
 * PutAutoIndexCommand: the cluster command that stores an auto index in
 * the database record. It classifies an auto-index definition as map or
 * map-reduce, converts it to the stored AutoIndexDefinition (copying every
 * field's options), and wraps any failure of the record update in a
 * RachisApplyException.
 *
 * `DateTime` is its tick count; `DateTime.MinValue` is tick 0.
 */
module PutAutoIndexCommand {
  import opened Common

  type DateTime = int

  const DateTimeMinValue: DateTime := 0

  datatype IndexType = NoIndexType | AutoMap | AutoMapReduce
  datatype IndexPriority = Low | Normal | High
  datatype FieldStorage = StorageYes | StorageNo
  datatype AutoFieldIndexingFlag = SearchIndexing | ExactIndexing | HighlightingIndexing
  datatype AggregationOperation = NoAggregation | Count | Sum
  datatype GroupByArrayBehavior = NotApplicable | ByIndividualValues | ByContent
  datatype AutoSpatialMethodType = Point | Wkt
  datatype AutoSpatialOptions = AutoSpatialOptions(methodType: AutoSpatialMethodType, methodArguments: seq<string>)

  /** The attributes of an AutoIndexField that the stored definition keeps. */
  datatype AutoIndexField = AutoIndexField(
    storage: FieldStorage,
    indexing: set<AutoFieldIndexingFlag>,
    aggregation: AggregationOperation,
    spatial: Option<AutoSpatialOptions>,
    hasQuotedName: bool,
    groupByArrayBehavior: GroupByArrayBehavior,
    hasSuggestions: bool)

  /** AutoIndexDefinition.AutoIndexFieldOptions. */
  datatype AutoIndexFieldOptions = AutoIndexFieldOptions(
    storage: FieldStorage,
    indexing: set<AutoFieldIndexingFlag>,
    aggregation: AggregationOperation,
    spatial: Option<AutoSpatialOptions>,
    isNameQuoted: bool,
    groupByArrayBehavior: GroupByArrayBehavior,
    suggestions: Option<bool>)

  /**
   * An AutoIndexDefinitionBase. `isAutoMap` and `isAutoMapReduce` are the
   * outcomes of the two `is` tests on its runtime type; `groupByFields`
   * is the map-reduce definition's group-by dictionary (None for null).
   */
  datatype AutoIndexDefinitionBase = AutoIndexDefinitionBase(
    isAutoMap: bool,
    isAutoMapReduce: bool,
    name: string,
    collections: seq<string>,
    priority: IndexPriority,
    rolling: Option<bool>,
    mapFields: map<string, AutoIndexField>,
    groupByFields: Option<map<string, AutoIndexField>>)

  /** The definition stored in the database record; a null field map is None. */
  datatype AutoIndexDefinition = AutoIndexDefinition(
    collection: string,
    mapFields: Option<map<string, AutoIndexFieldOptions>>,
    groupByFields: Option<map<string, AutoIndexFieldOptions>>,
    priority: IndexPriority,
    name: string,
    indexType: IndexType,
    rolling: Option<bool>)

  /**
   * GetAutoIndexType: AutoMap for a map definition, then AutoMapReduce for
   * a map-reduce one (so the later test wins), and a RachisApplyException
   * when neither applies.
   */
  method GetAutoIndexType(definition: AutoIndexDefinitionBase) returns (r: Result<IndexType>)
    ensures definition.isAutoMapReduce ==> r == Ok(AutoMapReduce)
    ensures !definition.isAutoMapReduce && definition.isAutoMap ==> r == Ok(AutoMap)
    ensures !definition.isAutoMapReduce && !definition.isAutoMap ==> r == Err(RachisApply)
  {
    var indexType := NoIndexType;
    if definition.isAutoMap {
      indexType := AutoMap;
    }
    if definition.isAutoMapReduce {
      indexType := AutoMapReduce;
    }
    if indexType == NoIndexType {
      return Err(RachisApply);
    }
    return Ok(indexType);
  }

  /** The options stored for one auto field. */
  function FieldOptions(field: AutoIndexField): (r: AutoIndexFieldOptions)
    ensures OriginalField(r) == field
  {
    AutoIndexFieldOptions(field.storage, field.indexing, field.aggregation, field.spatial,
                          field.hasQuotedName, field.groupByArrayBehavior, Some(field.hasSuggestions))
  }

  /** The auto field an options record was made from (the inverse of FieldOptions). */
  function OriginalField(options: AutoIndexFieldOptions): AutoIndexField
  {
    AutoIndexField(options.storage, options.indexing, options.aggregation, options.spatial,
                   options.isNameQuoted, options.groupByArrayBehavior,
                   options.suggestions.Some? && options.suggestions.value)
  }

  /** What CreateFields stores for a dictionary: the options of each field under its own key, or null for null. */
  function FieldsOptions(fields: Option<map<string, AutoIndexField>>): Option<map<string, AutoIndexFieldOptions>>
  {
    if fields.None? then None
    else Some(map k | k in fields.value :: FieldOptions(fields.value[k]))
  }

  /**
   * CreateFields: null stays null; otherwise a fresh dictionary holding,
   * for every key of the input and no other, that field's options.
   */
  method CreateFields(fields: Option<map<string, AutoIndexField>>) returns (r: Option<map<string, AutoIndexFieldOptions>>)
    ensures fields.None? <==> r.None?
    ensures r.Some? ==> r.value.Keys == fields.value.Keys
    ensures r.Some? ==> forall k :: k in r.value ==> OriginalField(r.value[k]) == fields.value[k]
    ensures r == FieldsOptions(fields)
  {
    if fields.None? {
      return None;
    }
    var source := fields.value;
    var result: map<string, AutoIndexFieldOptions> := map[];
    var remaining := source.Keys;
    while remaining != {}
      invariant remaining <= source.Keys
      invariant result.Keys == source.Keys - remaining
      invariant forall k :: k in result ==> result[k] == FieldOptions(source[k])
      decreases |remaining|
    {
      var key :| key in remaining;
      result := result[key := FieldOptions(source[key])];
      remaining := remaining - {key};
    }
    assert result == map k | k in source :: FieldOptions(source[k]);
    return Some(result);
  }

  /**
   * GetAutoIndexDefinition: the stored definition. The first collection
   * (InvalidOperationException on none) is read before the map fields;
   * group-by fields are null for AutoMap, and otherwise come from the
   * definition cast to a map-reduce one (InvalidCastException if it is not).
   */
  function GetAutoIndexDefinition(definition: AutoIndexDefinitionBase, indexType: IndexType): (r: Result<AutoIndexDefinition>)
    ensures r.Ok? <==> |definition.collections| > 0 && (indexType == AutoMap || definition.isAutoMapReduce)
    ensures |definition.collections| == 0 ==> r == Err(InvalidOperation)
    ensures r.Err? && |definition.collections| > 0 ==> r == Err(InvalidCast)
    ensures r.Ok? ==>
      && r.value.collection == definition.collections[0]
      && r.value.name == definition.name
      && r.value.priority == definition.priority
      && r.value.rolling == definition.rolling
      && r.value.indexType == indexType
      && r.value.mapFields.Some? && r.value.mapFields.value.Keys == definition.mapFields.Keys
      && (forall k :: k in definition.mapFields ==> OriginalField(r.value.mapFields.value[k]) == definition.mapFields[k])
      && (indexType == AutoMap ==> r.value.groupByFields.None?)
      && (indexType != AutoMap ==> r.value.groupByFields == FieldsOptions(definition.groupByFields))
  {
    if |definition.collections| == 0 then Err(InvalidOperation)
    else if indexType != AutoMap && !definition.isAutoMapReduce then Err(InvalidCast)
    else
      Ok(AutoIndexDefinition(
        collection := definition.collections[0],
        mapFields := FieldsOptions(Some(definition.mapFields)),
        groupByFields := if indexType == AutoMap then None else FieldsOptions(definition.groupByFields),
        priority := definition.priority,
        name := definition.name,
        indexType := indexType,
        rolling := definition.rolling))
  }

  /** The command object. */
  class PutAutoIndexCommand {
    var databaseName: string
    var uniqueRequestId: string
    var definition: Option<AutoIndexDefinition>
    var createdAt: DateTime

    /** The parameterless constructor used for deserialisation. */
    constructor Empty()
      ensures databaseName == "" && uniqueRequestId == "" && definition.None? && createdAt == DateTimeMinValue
    {
      databaseName := "";
      uniqueRequestId := "";
      definition := None;
      createdAt := DateTimeMinValue;
    }

    /** CreatedAt is the given time, or DateTime.MinValue when none is given. */
    constructor (definition: AutoIndexDefinition, databaseName: string, uniqueRequestId: string, createdAt: Option<DateTime>)
      ensures this.databaseName == databaseName && this.uniqueRequestId == uniqueRequestId
      ensures this.definition == Some(definition)
      ensures this.createdAt == if createdAt.Some? then createdAt.value else DateTimeMinValue
    {
      this.databaseName := databaseName;
      this.uniqueRequestId := uniqueRequestId;
      this.definition := Some(definition);
      this.createdAt := if createdAt.Some? then createdAt.value else DateTimeMinValue;
    }

    /**
     * UpdateDatabaseRecord: reads the global rolling setting, then adds the
     * index to the record; a failure of either is reported as a
     * RachisApplyException. The record is a value here: the updated one is
     * returned.
     */
    function UpdateDatabaseRecord<R, S>(
      globalRollingSetting: R -> Result<S>,
      addIndex: (R, Option<AutoIndexDefinition>, DateTime, int, S) -> Result<R>,
      record: R, etag: int): (r: Result<R>)
      reads this
      ensures r.Ok? <==> globalRollingSetting(record).Ok?
                         && addIndex(record, definition, createdAt, etag, globalRollingSetting(record).value).Ok?
      ensures r.Err? ==> r.error == RachisApply
      ensures r.Ok? ==> r.value == addIndex(record, definition, createdAt, etag, globalRollingSetting(record).value).value
    {
      var setting := globalRollingSetting(record);
      if setting.Err? then Err(RachisApply)
      else
        var updated := addIndex(record, definition, createdAt, etag, setting.value);
        if updated.Err? then Err(RachisApply) else updated
    }
  }

  /**
   * Create: classifies the definition, converts it, and makes a command
   * stamped with the current UTC time (passed in as `utcNow`).
   */
  method Create(definition: AutoIndexDefinitionBase, databaseName: string, raftRequestId: string, utcNow: DateTime)
    returns (r: Result<PutAutoIndexCommand>)
    ensures !definition.isAutoMap && !definition.isAutoMapReduce ==> r == Err(RachisApply)
    ensures |definition.collections| == 0 ==> r.Err?
    ensures (definition.isAutoMap || definition.isAutoMapReduce) && |definition.collections| > 0 ==> r.Ok?
    ensures r.Ok? ==>
      && fresh(r.value)
      && var indexType := if definition.isAutoMapReduce then AutoMapReduce else AutoMap;
         && r.value.definition == Some(GetAutoIndexDefinition(definition, indexType).value)
         && r.value.databaseName == databaseName && r.value.uniqueRequestId == raftRequestId
         && r.value.createdAt == utcNow
  {
    var indexType :- GetAutoIndexType(definition);
    var stored :- GetAutoIndexDefinition(definition, indexType);
    var command := new PutAutoIndexCommand(stored, databaseName, raftRequestId, Some(utcNow));
    return Ok(command);
  }
}
