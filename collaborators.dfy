/** The storage engine (tskv::engine) as the metadata layer sees it: a fixed oracle that
    answers schema queries and accepts or rejects changes, with its own state left out. */
module StorageEngine {
  import opened Errors
  import opened Schema

  datatype Engine = Engine(
    /** what `get_db_schema` answers, per database name */
    persisted: map<string, DatabaseSchema>,
    /** databases whose `alter_database` the engine rejects, with the engine's message */
    alterRejections: map<string, string>,
    /** column changes the engine rejects, keyed by (database, table, columns before,
        columns after), with its message; this is where its type-change policy lives */
    columnRejections: map<(string, string, seq<TableColumn>, seq<TableColumn>), string>)
  {
    function GetDbSchema(name: string): Option<DatabaseSchema>
    {
      if name in persisted then Some(persisted[name]) else None
    }

    /** None when the engine accepts the new database schema, else its error message. */
    function AlterDatabase(schema: DatabaseSchema): Option<string>
    {
      if schema.name in alterRejections then Some(alterRejections[schema.name]) else None
    }

    /** None when the engine accepts changing the table's columns from `before` to `after`,
        else its error message. */
    function ColumnChange(db: string, table: string, before: seq<TableColumn>, after: seq<TableColumn>): Option<string>
    {
      var change := (db, table, before, after);
      if change in columnRejections then Some(columnRejections[change]) else None
    }
  }
}

/** The function registry (spi::query::function) as a fixed table of known functions. */
module FunctionRegistry {
  import opened Errors

  datatype ScalarUdf = ScalarUdf(name: string, arity: nat)
  datatype AggregateUdf = AggregateUdf(name: string, arity: nat)

  datatype FuncMetaManager = FuncMetaManager(udfs: map<string, ScalarUdf>, udafs: map<string, AggregateUdf>)
  {
    /** The scalar function called `name`, or None where the registry reports an error. */
    function Udf(name: string): Option<ScalarUdf>
    {
      if name in udfs then Some(udfs[name]) else None
    }

    /** The aggregate function called `name`, or None where the registry reports an error. */
    function Udaf(name: string): Option<AggregateUdf>
    {
      if name in udafs then Some(udafs[name]) else None
    }
  }
}
