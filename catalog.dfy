/** The in-memory catalog as a value: database name -> (table name -> table schema),
    and the effect of each UserCatalog / Database operation on that value. */
module Catalog {
  import opened Errors
  import opened Schema
  import opened StorageEngine

  type Tables = map<string, TableSchema>
  type Databases = map<string, Tables>

  /** `register_schema`: a new, empty database, unless the name is taken. */
  function RegisterSchema(dbs: Databases, name: string): (r: Result<Databases>)
    ensures r.Err? <==> name in dbs
    ensures r.Err? ==> r.error == DatabaseAlreadyExists(name)
    ensures r.Ok? ==> r.value.Keys == dbs.Keys + {name} && r.value[name] == map[]
    ensures r.Ok? ==> forall d :: d in dbs ==> r.value[d] == dbs[d]
  {
    if name in dbs then Err(DatabaseAlreadyExists(name)) else Ok(dbs[name := map[]])
  }

  /** `deregister_schema`: removes a database together with all of its tables. */
  function DeregisterSchema(dbs: Databases, name: string): (r: Result<Databases>)
    ensures r.Err? <==> name !in dbs
    ensures r.Err? ==> r.error == DatabaseNotExists(name)
    ensures r.Ok? ==> r.value.Keys == dbs.Keys - {name}
    ensures r.Ok? ==> forall d :: d in r.value ==> r.value[d] == dbs[d]
  {
    if name !in dbs then Err(DatabaseNotExists(name)) else Ok(dbs - {name})
  }

  /** `register_table`: stores the schema under the name, silently replacing an older one. */
  function RegisterTable(tables: Tables, name: string, schema: TableSchema): (r: Tables)
    ensures r.Keys == tables.Keys + {name} && r[name] == schema
    ensures forall t :: t in tables && t != name ==> r[t] == tables[t]
  {
    tables[name := schema]
  }

  /** `deregister_table`: removes one table, which must exist. */
  function DeregisterTable(tables: Tables, name: string): (r: Result<Tables>)
    ensures r.Err? <==> name !in tables
    ensures r.Err? ==> r.error == TableNotExists(name)
    ensures r.Ok? ==> r.value.Keys == tables.Keys - {name}
    ensures r.Ok? ==> forall t :: t in r.value ==> r.value[t] == tables[t]
  {
    if name !in tables then Err(TableNotExists(name)) else Ok(tables - {name})
  }

  /** A change confined to the columns of one table: every other table is as before, and
      that table differs from its old schema in its column list at most. */
  predicate OnlyColumnsOf(before: Tables, after: Tables, table: string)
  {
    && table in before
    && after.Keys == before.Keys
    && after[table] == before[table].WithColumns(after[table].Columns())
    && forall t :: t in before && t != table ==> after[t] == before[t]
  }

  /** The storage engine's answer to changing a table's columns to `cols`: only native
      tables are sent to it, so an external table's change is always accepted. */
  function Verdict(engine: Engine, db: string, tables: Tables, table: string, cols: seq<TableColumn>): Option<string>
    requires table in tables
  {
    if tables[table].TsKv? then engine.ColumnChange(db, table, tables[table].Columns(), cols) else None
  }

  /** The storage engine refuses the change of a native table's columns to `cols`. */
  predicate Rejects(engine: Engine, db: string, tables: Tables, table: string, cols: seq<TableColumn>)
    requires table in tables
  {
    Verdict(engine, db, tables, table, cols).Some?
  }

  /** Stores a table's new column list; for a native table the storage engine must accept
      the change first, and a rejection leaves the tables as they were. */
  function Persist(engine: Engine, db: string, tables: Tables, table: string, cols: seq<TableColumn>): (r: Result<Tables>)
    requires table in tables
    ensures r.Err? <==> Rejects(engine, db, tables, table, cols)
    ensures r.Err? ==> r.error == External(engine.ColumnChange(db, table, tables[table].Columns(), cols).value)
    ensures r.Ok? ==> OnlyColumnsOf(tables, r.value, table) && r.value[table].Columns() == cols
  {
    var t := tables[table];
    var verdict := if t.TsKv? then engine.ColumnChange(db, table, t.Columns(), cols) else None;
    if verdict.Some? then Err(External(verdict.value))
    else Ok(tables[table := t.WithColumns(cols)])
  }

  /** `table_add_column` of database `db`. */
  function TableAddColumn(engine: Engine, db: string, tables: Tables, table: string, column: TableColumn): (r: Result<Tables>)
    ensures r.Ok? <==> (&& table in tables && !HasColumn(tables[table].Columns(), column.name)
                        && !Rejects(engine, db, tables, table, tables[table].Columns() + [column]))
    ensures table !in tables ==> r == Err(TableNotExists(table))
    ensures table in tables && HasColumn(tables[table].Columns(), column.name) ==> r == Err(ColumnAlreadyExists(table, column.name))
    ensures (&& table in tables && !HasColumn(tables[table].Columns(), column.name)
             && Rejects(engine, db, tables, table, tables[table].Columns() + [column])) ==>
              r == Err(External(Verdict(engine, db, tables, table, tables[table].Columns() + [column]).value))
    ensures r.Ok? ==> OnlyColumnsOf(tables, r.value, table)
    ensures r.Ok? ==> r.value[table].Columns() == tables[table].Columns() + [column]
  {
    if table !in tables then Err(TableNotExists(table))
    else
      match AddColumn(table, tables[table].Columns(), column)
      case Err(e) => Err(e)
      case Ok(cols) => Persist(engine, db, tables, table, cols)
  }

  /** `table_alter_column` of database `db`. */
  function TableAlterColumn(engine: Engine, db: string, tables: Tables, table: string, name: string, column: TableColumn): (r: Result<Tables>)
    ensures r.Ok? <==> (&& table in tables && HasColumn(tables[table].Columns(), name)
                        && !Rejects(engine, db, tables, table, AlterColumn(table, tables[table].Columns(), name, column).value))
    ensures table !in tables ==> r == Err(TableNotExists(table))
    ensures table in tables && !HasColumn(tables[table].Columns(), name) ==> r == Err(ColumnNotExists(table, name))
    ensures (&& table in tables && HasColumn(tables[table].Columns(), name)
             && Rejects(engine, db, tables, table, AlterColumn(table, tables[table].Columns(), name, column).value)) ==>
              r == Err(External(Verdict(engine, db, tables, table, AlterColumn(table, tables[table].Columns(), name, column).value).value))
    ensures r.Ok? ==> OnlyColumnsOf(tables, r.value, table)
    ensures r.Ok? ==> AlterColumn(table, tables[table].Columns(), name, column) == Ok(r.value[table].Columns())
  {
    if table !in tables then Err(TableNotExists(table))
    else
      match AlterColumn(table, tables[table].Columns(), name, column)
      case Err(e) => Err(e)
      case Ok(cols) => Persist(engine, db, tables, table, cols)
  }

  /** The drop policy lets column `name` of `cols` go: it exists and is droppable. */
  predicate MayDrop(cols: seq<TableColumn>, name: string)
  {
    HasColumn(cols, name) && Droppable(cols, ColumnIndex(cols, name))
  }

  /** `table_drop_column` of database `db`. */
  function TableDropColumn(engine: Engine, db: string, tables: Tables, table: string, name: string): (r: Result<Tables>)
    ensures r.Ok? <==> (&& table in tables && MayDrop(tables[table].Columns(), name)
                        && !Rejects(engine, db, tables, table, DropColumn(table, tables[table].Columns(), name).value))
    ensures table !in tables ==> r == Err(TableNotExists(table))
    ensures table in tables && !HasColumn(tables[table].Columns(), name) ==> r == Err(ColumnNotExists(table, name))
    ensures table in tables && HasColumn(tables[table].Columns(), name) && !MayDrop(tables[table].Columns(), name) ==>
              r == Err(InvalidColumnDrop(table, name))
    ensures (&& table in tables && MayDrop(tables[table].Columns(), name)
             && Rejects(engine, db, tables, table, DropColumn(table, tables[table].Columns(), name).value)) ==>
              r == Err(External(Verdict(engine, db, tables, table, DropColumn(table, tables[table].Columns(), name).value).value))
    ensures r.Ok? ==> OnlyColumnsOf(tables, r.value, table)
    ensures r.Ok? ==> DropColumn(table, tables[table].Columns(), name) == Ok(r.value[table].Columns())
  {
    if table !in tables then Err(TableNotExists(table))
    else
      match DropColumn(table, tables[table].Columns(), name)
      case Err(e) => Err(e)
      case Ok(cols) => Persist(engine, db, tables, table, cols)
  }

  /** The engine judges each column change on its own: an engine that refuses only the
      change of column `name` to `narrow` still accepts the change of it to `widen`. */
  lemma EngineJudgesEachChange(db: string, tables: Tables, table: string, name: string,
                               widen: TableColumn, narrow: TableColumn, message: string)
    requires table in tables && tables[table].TsKv? && HasColumn(tables[table].Columns(), name)
    requires widen != narrow
    ensures var cols := tables[table].Columns();
      var engine := Engine(map[], map[], map[(db, table, cols, AlterColumn(table, cols, name, narrow).value) := message]);
      && TableAlterColumn(engine, db, tables, table, name, widen).Ok?
      && TableAlterColumn(engine, db, tables, table, name, narrow) == Err(External(message))
  {
    var cols := tables[table].Columns();
    var i := ColumnIndex(cols, name);
    var wide, narrowed := AlterColumn(table, cols, name, widen).value, AlterColumn(table, cols, name, narrow).value;
    assert wide[i] != narrowed[i];
  }

  /** A change to the tables of database `db`, seen as a change to the whole catalog. */
  function InDatabase(dbs: Databases, db: string, step: Result<Tables>): (r: Result<Databases>)
    requires db in dbs
    ensures r.Err? <==> step.Err?
    ensures r.Err? ==> r.error == step.error
    ensures r.Ok? ==> r.value.Keys == dbs.Keys && r.value[db] == step.value
    ensures r.Ok? ==> forall d :: d in dbs && d != db ==> r.value[d] == dbs[d]
  {
    match step
    case Ok(tables) => Ok(dbs[db := tables])
    case Err(e) => Err(e)
  }
}

/** The shared catalog object (UserCatalog): one heap object that every copy of the
    metadata facade refers to, updated in place. The per-database objects are folded
    into its map. */
module SharedCatalog {
  import opened Errors
  import opened Schema
  import opened StorageEngine
  import Catalog

  class UserCatalog {
    const engine: Engine
    var databases: Catalog.Databases

    /** A catalog holding the databases recovered from the engine at start-up. */
    constructor (engine: Engine, recovered: Catalog.Databases)
      ensures this.engine == engine && databases == recovered
    {
      this.engine := engine;
      databases := recovered;
    }

    /** `schema(name)`: the tables of a database, if it is registered. */
    function SchemaOf(name: string): (r: Option<Catalog.Tables>)
      reads this
      ensures r.Some? <==> name in databases
      ensures r.Some? ==> r.value == databases[name]
    {
      if name in databases then Some(databases[name]) else None
    }

    /** `schema_names()`: the registered databases, each of which `schema` finds. */
    function SchemaNames(): (r: set<string>)
      reads this
      ensures forall d :: d in r <==> SchemaOf(d).Some?
    {
      databases.Keys
    }

    method RegisterSchema(name: string, schema: DatabaseSchema) returns (r: Result<()>)
      modifies this
      ensures Applied(Catalog.RegisterSchema(old(databases), name), r, old(databases), databases)
    {
      if name in databases {
        r := Err(DatabaseAlreadyExists(name));
      } else {
        databases := databases[name := map[]];
        r := Ok(());
      }
    }

    method DeregisterSchema(name: string) returns (r: Result<()>)
      modifies this
      ensures Applied(Catalog.DeregisterSchema(old(databases), name), r, old(databases), databases)
    {
      if name !in databases {
        r := Err(DatabaseNotExists(name));
      } else {
        databases := databases - {name};
        r := Ok(());
      }
    }

    method RegisterTable(db: string, name: string, schema: TableSchema)
      requires db in databases
      modifies this
      ensures databases == old(databases)[db := Catalog.RegisterTable(old(databases)[db], name, schema)]
    {
      databases := databases[db := databases[db][name := schema]];
    }

    method DeregisterTable(db: string, name: string) returns (r: Result<()>)
      requires db in databases
      modifies this
      ensures Applied(Catalog.InDatabase(old(databases), db, Catalog.DeregisterTable(old(databases)[db], name)),
                      r, old(databases), databases)
    {
      var tables := databases[db];
      if name !in tables {
        r := Err(TableNotExists(name));
      } else {
        databases := databases[db := tables - {name}];
        r := Ok(());
      }
    }

    /** Stores new columns for a table after the engine, for a native table, accepts them. */
    method Commit(db: string, table: string, cols: seq<TableColumn>) returns (r: Result<()>)
      requires db in databases && table in databases[db]
      modifies this
      ensures Applied(Catalog.InDatabase(old(databases), db, Catalog.Persist(engine, db, old(databases)[db], table, cols)),
                      r, old(databases), databases)
    {
      var t := databases[db][table];
      var verdict := if t.TsKv? then engine.ColumnChange(db, table, t.Columns(), cols) else None;
      if verdict.Some? {
        r := Err(External(verdict.value));
      } else {
        databases := databases[db := databases[db][table := t.WithColumns(cols)]];
        r := Ok(());
      }
    }

    method TableAddColumn(db: string, table: string, column: TableColumn) returns (r: Result<()>)
      requires db in databases
      modifies this
      ensures Applied(Catalog.InDatabase(old(databases), db, Catalog.TableAddColumn(engine, db, old(databases)[db], table, column)),
                      r, old(databases), databases)
    {
      if table !in databases[db] {
        return Err(TableNotExists(table));
      }
      var changed := AddColumn(table, databases[db][table].Columns(), column);
      if changed.Err? {
        return Err(changed.error);
      }
      r := Commit(db, table, changed.value);
    }

    method TableAlterColumn(db: string, table: string, name: string, column: TableColumn) returns (r: Result<()>)
      requires db in databases
      modifies this
      ensures Applied(Catalog.InDatabase(old(databases), db, Catalog.TableAlterColumn(engine, db, old(databases)[db], table, name, column)),
                      r, old(databases), databases)
    {
      if table !in databases[db] {
        return Err(TableNotExists(table));
      }
      var changed := AlterColumn(table, databases[db][table].Columns(), name, column);
      if changed.Err? {
        return Err(changed.error);
      }
      r := Commit(db, table, changed.value);
    }

    method TableDropColumn(db: string, table: string, name: string) returns (r: Result<()>)
      requires db in databases
      modifies this
      ensures Applied(Catalog.InDatabase(old(databases), db, Catalog.TableDropColumn(engine, db, old(databases)[db], table, name)),
                      r, old(databases), databases)
    {
      if table !in databases[db] {
        return Err(TableNotExists(table));
      }
      var changed := DropColumn(table, databases[db][table].Columns(), name);
      if changed.Err? {
        return Err(changed.error);
      }
      r := Commit(db, table, changed.value);
    }
  }
}
