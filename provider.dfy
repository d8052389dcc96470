/** MetadataProvider: the planner's context provider over a metadata facade. It turns a
    table reference into a table source, dispatching on the two kinds of table, and
    forwards function lookups to the function registry. */
module Provider {
  import opened Errors
  import opened Schema
  import opened StorageEngine
  import opened FunctionRegistry
  import opened TableReferences
  import opened Metadata

  datatype Url = Url(text: string)
  datatype ListingOptions = ListingOptions(fileType: string)

  /** The source the planner scans: a native table bound to the storage engine, or a
      listing of files with their reader options and column schema. */
  datatype TableSource =
    | ClusterTable(engine: Engine, schema: TskvTableSchema)
    | ListingTable(url: Url, options: ListingOptions, columns: seq<TableColumn>)

  /** The foreign library step that failed while building a listing table. */
  datatype ForeignCall = UrlParse | TableOptions | ListingTableNew

  /** The planner's error type: a plan error with a message, or a failure passed through
      from the listing-table library. */
  datatype DataFusionError = Plan(message: string) | Foreign(call: ForeignCall)

  datatype PlanResult<T> = PlanOk(value: T) | PlanErr(error: DataFusionError)

  /** The listing-table library, seen only through whether each of its steps succeeds:
      parsing the location URL, deriving reader options from the schema, and building
      the table from both. */
  datatype ListingLibrary = ListingLibrary(
    parseUrl: string -> Option<Url>,
    tableOptions: ExternalTableSchema -> Option<ListingOptions>,
    tryNew: (Url, ListingOptions, seq<TableColumn>) -> bool)

  /** The type of a session variable; none is ever reported. */
  datatype DataType = DataType(name: string)

  /** The source for a stored table: exhaustive over the two kinds, a native table always
      succeeds, an external one exactly when every library step does. */
  function SourceFor(engine: Engine, lib: ListingLibrary, table: TableSchema): (r: PlanResult<TableSource>)
    ensures table.TsKv? ==> r == PlanOk(ClusterTable(engine, table.tskv))
    ensures table.ExternalTable? ==>
      (r.PlanOk? <==> (&& lib.parseUrl(table.external.location).Some?
                       && lib.tableOptions(table.external).Some?
                       && lib.tryNew(lib.parseUrl(table.external.location).value,
                                     lib.tableOptions(table.external).value, table.external.columns)))
    ensures r.PlanOk? ==> (r.value.ListingTable? <==> table.ExternalTable?)
    ensures r.PlanOk? && table.ExternalTable? ==>
      r.value == ListingTable(lib.parseUrl(table.external.location).value,
                              lib.tableOptions(table.external).value, table.external.columns)
    ensures r.PlanErr? ==> r.error.Foreign?
    ensures table.ExternalTable? && lib.parseUrl(table.external.location).None? ==> r == PlanErr(Foreign(UrlParse))
    ensures (&& table.ExternalTable? && lib.parseUrl(table.external.location).Some?
             && lib.tableOptions(table.external).None?) ==> r == PlanErr(Foreign(TableOptions))
    ensures (&& table.ExternalTable? && lib.parseUrl(table.external.location).Some?
             && lib.tableOptions(table.external).Some?
             && !lib.tryNew(lib.parseUrl(table.external.location).value,
                            lib.tableOptions(table.external).value, table.external.columns))
            ==> r == PlanErr(Foreign(ListingTableNew))
  {
    match table
    case TsKv(schema) => PlanOk(ClusterTable(engine, schema))
    case ExternalTable(schema) =>
      match lib.parseUrl(schema.location)
      case None => PlanErr(Foreign(UrlParse))
      case Some(url) =>
        match lib.tableOptions(schema)
        case None => PlanErr(Foreign(TableOptions))
        case Some(options) =>
          if lib.tryNew(url, options, schema.columns) then PlanOk(ListingTable(url, options, schema.columns))
          else PlanErr(Foreign(ListingTableNew))
  }

  const RESOLVE_FAILURE_PREFIX: string := "failed to resolve user:"

  /** The message of a failed lookup, naming the resolved (catalog, database, table) in
      that order, each after its fixed label. */
  function ResolveFailureMessage(n: ResolvedTableReference): (r: string)
    ensures OccursAt(r, RESOLVE_FAILURE_PREFIX, 0)
    ensures OccursAt(r, n.catalog, |RESOLVE_FAILURE_PREFIX|)
    ensures OccursAt(r, "  db: " + n.schema, |RESOLVE_FAILURE_PREFIX| + |n.catalog|)
    ensures OccursAt(r, ", table: " + n.table, |RESOLVE_FAILURE_PREFIX| + |n.catalog| + 6 + |n.schema|)
    ensures |r| == |RESOLVE_FAILURE_PREFIX| + |n.catalog| + 6 + |n.schema| + 9 + |n.table|
  {
    RESOLVE_FAILURE_PREFIX + n.catalog + "  db: " + n.schema + ", table: " + n.table
  }

  predicate OccursAt(s: string, part: string, i: nat)
  {
    i + |part| <= |s| && s[i..i + |part|] == part
  }

  ghost predicate Contains(s: string, part: string)
  {
    exists i: nat :: OccursAt(s, part, i)
  }

  /** The failure message names every component of the resolved reference. */
  lemma ResolveFailureNamesTriple(n: ResolvedTableReference)
    ensures var m := ResolveFailureMessage(n);
      Contains(m, n.catalog) && Contains(m, n.schema) && Contains(m, n.table)
  {
    var m := ResolveFailureMessage(n);
    var i := |RESOLVE_FAILURE_PREFIX| + |n.catalog| + 6;
    var j := i + |n.schema| + 9;
    assert OccursAt(m, n.catalog, |RESOLVE_FAILURE_PREFIX|);
    assert m[i..i + |n.schema|] == ("  db: " + n.schema)[6..];
    assert OccursAt(m, n.schema, i);
    assert m[j..j + |n.table|] == (", table: " + n.table)[9..];
    assert OccursAt(m, n.table, j);
  }

  class MetadataProvider {
    const meta: LocalCatalogMeta

    constructor (meta: LocalCatalogMeta)
      ensures this.meta == meta
    {
      this.meta := meta;
    }

    /** `get_table_provider`: a failed lookup, whichever component is missing, becomes a
        plan error naming the reference as resolved in the facade's current context;
        a stored table becomes its source. */
    function GetTableProvider(lib: ListingLibrary, name: TableReference): (r: PlanResult<TableSource>)
      reads meta, meta.catalog
      ensures meta.Table(name).Err? ==>
        r == PlanErr(Plan(ResolveFailureMessage(Resolve(name, meta.CatalogName(), meta.SchemaName()))))
      ensures meta.Table(name).Ok? ==> r == SourceFor(meta.engine, lib, meta.Table(name).value)
      ensures r.PlanOk? ==> meta.Table(name).Ok?
    {
      match meta.Table(name)
      case Ok(table) => SourceFor(meta.engine, lib, table)
      case Err(_) =>
        var resolved := Resolve(name, meta.CatalogName(), meta.SchemaName());
        PlanErr(Plan(ResolveFailureMessage(resolved)))
    }

    /** `get_function_meta`: the scalar function, or None wherever the registry errs. */
    function GetFunctionMeta(name: string): (r: Option<ScalarUdf>)
      reads meta
      ensures r.Some? <==> name in meta.Function().udfs
      ensures r.Some? ==> r.value == meta.Function().udfs[name]
    {
      meta.Function().Udf(name)
    }

    /** `get_aggregate_meta`: the aggregate function, or None wherever the registry errs. */
    function GetAggregateMeta(name: string): (r: Option<AggregateUdf>)
      reads meta
      ensures r.Some? <==> name in meta.Function().udafs
      ensures r.Some? ==> r.value == meta.Function().udafs[name]
    {
      meta.Function().Udaf(name)
    }

    /** `get_variable_type`: session variables are not supported, so never a type. */
    function GetVariableType(variableNames: seq<string>): (r: Option<DataType>)
      ensures r.None?
    {
      None
    }
  }

  /** A stored table is exactly what the planner can get a source for, as long as the
      library steps for an external table succeed. */
  lemma ProviderFindsStoredTables(p: MetadataProvider, lib: ListingLibrary, name: TableReference)
    requires forall s: string :: lib.parseUrl(s).Some?
    requires forall e: ExternalTableSchema :: lib.tableOptions(e).Some?
    requires forall u: Url, o: ListingOptions, c: seq<TableColumn> :: lib.tryNew(u, o, c)
    ensures p.GetTableProvider(lib, name).PlanOk? <==> p.meta.Table(name).Ok?
  {
  }

  datatype BatchSchema = BatchSchema(columns: seq<string>)
  datatype RecordBatch = RecordBatch(schema: BatchSchema, rows: nat)

  /** A finite stream of batches with the schema it announces and the memory it reserves. */
  datatype BatchStream = BatchStream(schema: BatchSchema, batches: seq<RecordBatch>, reservedBytes: nat)

  /** `stream_from_batches`: takes its schema from the first batch, so it needs one. */
  function StreamFromBatches(batches: seq<RecordBatch>): (r: BatchStream)
    requires |batches| > 0
    ensures r.batches == batches && r.schema == batches[0].schema && r.reservedBytes == 0
  {
    BatchStream(batches[0].schema, batches, 0)
  }
}
