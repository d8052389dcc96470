/** What each operation of the local metadata facade does to the catalog value, given the
    facade's context pair (current catalog, current database). The class in module
    Metadata is proved to follow these functions; the lemmas here are about them. */
module Facade {
  import opened Errors
  import opened Schema
  import opened StorageEngine
  import opened TableReferences
  import opened Catalog

  const DEFAULT_CATALOG: string := "cnosdb"
  const DEFAULT_DATABASE: string := "public"

  /** The context a facade resolves partial references against. */
  datatype Context = Context(catalogName: string, databaseName: string)

  function ResolveIn(ctx: Context, t: TableReference): ResolvedTableReference
  {
    Resolve(t, ctx.catalogName, ctx.databaseName)
  }

  /** `table`: looks the database up by the resolved schema component only (the catalog
      component is ignored), then the table by the resolved table component. */
  function Table(dbs: Databases, ctx: Context, t: TableReference): (r: Result<TableSchema>)
    ensures var n := ResolveIn(ctx, t);
      && (r == Err(DatabaseNotExists(n.schema)) <==> n.schema !in dbs)
      && (r == Err(TableNotExists(n.table)) <==> n.schema in dbs && n.table !in dbs[n.schema])
      && (r.Ok? <==> n.schema in dbs && n.table in dbs[n.schema])
      && (r.Ok? ==> r.value == dbs[n.schema][n.table])
  {
    var n := ResolveIn(ctx, t);
    if n.schema !in dbs then Err(DatabaseNotExists(n.schema))
    else if n.table !in dbs[n.schema] then Err(TableNotExists(n.table))
    else Ok(dbs[n.schema][n.table])
  }

  /** The catalog component, written or taken from the context, never affects a lookup. */
  lemma TableIgnoresCatalog(dbs: Databases, ctx: Context, catalog: string, t: TableReference)
    ensures Table(dbs, ctx.(catalogName := catalog), t) == Table(dbs, ctx, t)
    ensures t.Full? ==> Table(dbs, ctx, t.(catalog := catalog)) == Table(dbs, ctx, t)
  {
  }

  /** `create_table`: stores the schema under the bare table part of the name, in the
      database the name resolves to, replacing any table already there. */
  function CreateTable(dbs: Databases, ctx: Context, name: string, schema: TableSchema): (r: Result<Databases>)
    ensures var n := ResolveIn(ctx, Parse(name));
      && (r.Err? <==> n.schema !in dbs)
      && (r.Err? ==> r.error == DatabaseNotExists(n.schema))
      && (r.Ok? ==> r.value.Keys == dbs.Keys && r.value[n.schema].Keys == dbs[n.schema].Keys + {n.table})
      && (r.Ok? ==> r.value[n.schema][n.table] == schema)
      && (r.Ok? ==> forall t :: t in dbs[n.schema] && t != n.table ==> r.value[n.schema][t] == dbs[n.schema][t])
      && (r.Ok? ==> forall d :: d in dbs && d != n.schema ==> r.value[d] == dbs[d])
  {
    var table := Parse(name);
    var n := ResolveIn(ctx, table);
    if n.schema !in dbs then Err(DatabaseNotExists(n.schema))
    else Ok(dbs[n.schema := RegisterTable(dbs[n.schema], table.table, schema)])
  }

  /** After a successful `create_table(name, s)`, `table(name)` gives `s`, and every
      reference that resolves to another (database, table) pair sees what it saw before. */
  lemma CreateThenTable(dbs: Databases, ctx: Context, name: string, schema: TableSchema, other: TableReference)
    requires CreateTable(dbs, ctx, name, schema).Ok?
    ensures var after := CreateTable(dbs, ctx, name, schema).value;
      && Table(after, ctx, Parse(name)) == Ok(schema)
      && (var n, m := ResolveIn(ctx, Parse(name)), ResolveIn(ctx, other);
          (m.schema, m.table) != (n.schema, n.table) ==> Table(after, ctx, other) == Table(dbs, ctx, other))
  {
  }

  /** `drop_table`: removes the resolved table from the resolved database. */
  function DropTable(dbs: Databases, ctx: Context, name: string): (r: Result<Databases>)
    ensures var n := ResolveIn(ctx, Parse(name));
      && (r == Err(DatabaseNotExists(n.schema)) <==> n.schema !in dbs)
      && (r == Err(TableNotExists(n.table)) <==> n.schema in dbs && n.table !in dbs[n.schema])
      && (r.Ok? <==> n.schema in dbs && n.table in dbs[n.schema])
      && (r.Ok? ==> r.value.Keys == dbs.Keys && r.value[n.schema].Keys == dbs[n.schema].Keys - {n.table})
      && (r.Ok? ==> forall t :: t in r.value[n.schema] ==> r.value[n.schema][t] == dbs[n.schema][t])
      && (r.Ok? ==> forall d :: d in dbs && d != n.schema ==> r.value[d] == dbs[d])
  {
    var n := ResolveIn(ctx, Parse(name));
    if n.schema !in dbs then Err(DatabaseNotExists(n.schema))
    else InDatabase(dbs, n.schema, DeregisterTable(dbs[n.schema], n.table))
  }

  /** After a successful `drop_table(name)`, `table(name)` reports the table missing, and
      every reference that resolves elsewhere sees what it saw before. */
  lemma DropThenTable(dbs: Databases, ctx: Context, name: string, other: TableReference)
    requires DropTable(dbs, ctx, name).Ok?
    ensures var after := DropTable(dbs, ctx, name).value;
      && Table(after, ctx, Parse(name)) == Err(TableNotExists(ResolveIn(ctx, Parse(name)).table))
      && (var n, m := ResolveIn(ctx, Parse(name)), ResolveIn(ctx, other);
          (m.schema, m.table) != (n.schema, n.table) ==> Table(after, ctx, other) == Table(dbs, ctx, other))
  {
    var after := DropTable(dbs, ctx, name).value;
    var n, m := ResolveIn(ctx, Parse(name)), ResolveIn(ctx, other);
    assert n.table !in after[n.schema];
    if (m.schema, m.table) != (n.schema, n.table) && m.schema in dbs {
      assert m.table in after[m.schema] <==> m.table in dbs[m.schema];
    }
  }

  /** Creating a missing database and dropping it again restores the catalog exactly. */
  lemma CreateDropDatabase(dbs: Databases, name: string)
    requires name !in dbs
    ensures RegisterSchema(dbs, name).Ok?
    ensures name in RegisterSchema(dbs, name).value
    ensures DeregisterSchema(RegisterSchema(dbs, name).value, name) == Ok(dbs)
  {
    var created := RegisterSchema(dbs, name).value;
    var dropped := DeregisterSchema(created, name).value;
    assert dropped.Keys == dbs.Keys;
    assert forall d :: d in dropped ==> dropped[d] == created[d] == dbs[d];
    assert dropped == dbs;
  }

  /** `show_tables`: the tables of the named database, or of the current one when no
      name is given. */
  function ShowTables(dbs: Databases, ctx: Context, name: Option<string>): (r: Result<set<string>>)
    ensures name.None? ==> (r.Err? <==> ctx.databaseName !in dbs)
    ensures name.None? && r.Err? ==> r.error == DatabaseNotExists(ctx.databaseName)
    ensures name.None? && r.Ok? ==> r.value == dbs[ctx.databaseName].Keys
    ensures name.Some? ==> (r.Err? <==> name.value !in dbs)
    ensures name.Some? && r.Err? ==> r.error == DatabaseNotExists(name.value)
    ensures name.Some? && r.Ok? ==> r.value == dbs[name.value].Keys
  {
    var db := match name
      case None => ctx.databaseName
      case Some(v) => v;
    if db !in dbs then Err(DatabaseNotExists(db)) else Ok(dbs[db].Keys)
  }

  /** A created table is listed by `show_tables` of the database it went into. */
  lemma CreateThenShowTables(dbs: Databases, ctx: Context, name: string, schema: TableSchema)
    requires CreateTable(dbs, ctx, name, schema).Ok?
    ensures var n := ResolveIn(ctx, Parse(name));
      n.table in ShowTables(CreateTable(dbs, ctx, name, schema).value, ctx, Some(n.schema)).value
  {
  }

  /** `alter_table_add_column`: fails on a missing resolved database before any table is
      looked at; otherwise adds the column to the resolved table, which succeeds exactly
      when the table exists, the name is free and the engine accepts a native table's
      change. */
  function AlterTableAddColumn(engine: Engine, dbs: Databases, ctx: Context, name: string, column: TableColumn): (r: Result<Databases>)
    ensures var n := ResolveIn(ctx, Parse(name));
      && (n.schema !in dbs ==> r == Err(DatabaseNotExists(n.schema)))
      && (n.schema in dbs ==> var tables := dbs[n.schema];
           && (r.Ok? <==> (&& n.table in tables && !HasColumn(tables[n.table].Columns(), column.name)
                           && !Rejects(engine, n.schema, tables, n.table, tables[n.table].Columns() + [column])))
           && (n.table !in tables ==> r == Err(TableNotExists(n.table)))
           && (n.table in tables && HasColumn(tables[n.table].Columns(), column.name) ==>
                 r == Err(ColumnAlreadyExists(n.table, column.name)))
           && (&& n.table in tables && !HasColumn(tables[n.table].Columns(), column.name)
               && Rejects(engine, n.schema, tables, n.table, tables[n.table].Columns() + [column]) ==>
                 r == Err(External(Verdict(engine, n.schema, tables, n.table, tables[n.table].Columns() + [column]).value))))
      && (r.Ok? ==> r.value.Keys == dbs.Keys && forall d :: d in dbs && d != n.schema ==> r.value[d] == dbs[d])
      && (r.Ok? ==> OnlyColumnsOf(dbs[n.schema], r.value[n.schema], n.table))
      && (r.Ok? ==> r.value[n.schema][n.table].Columns() == dbs[n.schema][n.table].Columns() + [column])
  {
    var n := ResolveIn(ctx, Parse(name));
    if n.schema !in dbs then Err(DatabaseNotExists(n.schema))
    else InDatabase(dbs, n.schema, TableAddColumn(engine, n.schema, dbs[n.schema], n.table, column))
  }

  /** `alter_table_alter_column`: as for adding, with the named column replaced in place;
      succeeds exactly when the table and the column exist and the engine accepts. */
  function AlterTableAlterColumn(engine: Engine, dbs: Databases, ctx: Context, name: string, columnName: string, column: TableColumn): (r: Result<Databases>)
    ensures var n := ResolveIn(ctx, Parse(name));
      && (n.schema !in dbs ==> r == Err(DatabaseNotExists(n.schema)))
      && (n.schema in dbs ==> var tables := dbs[n.schema];
           && (r.Ok? <==> (&& n.table in tables && HasColumn(tables[n.table].Columns(), columnName)
                           && !Rejects(engine, n.schema, tables, n.table, AlterColumn(n.table, tables[n.table].Columns(), columnName, column).value)))
           && (n.table !in tables ==> r == Err(TableNotExists(n.table)))
           && (n.table in tables && !HasColumn(tables[n.table].Columns(), columnName) ==>
                 r == Err(ColumnNotExists(n.table, columnName)))
           && (&& n.table in tables && HasColumn(tables[n.table].Columns(), columnName)
               && Rejects(engine, n.schema, tables, n.table, AlterColumn(n.table, tables[n.table].Columns(), columnName, column).value) ==>
                 r == Err(External(Verdict(engine, n.schema, tables, n.table, AlterColumn(n.table, tables[n.table].Columns(), columnName, column).value).value))))
      && (r.Ok? ==> r.value.Keys == dbs.Keys && forall d :: d in dbs && d != n.schema ==> r.value[d] == dbs[d])
      && (r.Ok? ==> OnlyColumnsOf(dbs[n.schema], r.value[n.schema], n.table))
      && (r.Ok? ==> AlterColumn(n.table, dbs[n.schema][n.table].Columns(), columnName, column) == Ok(r.value[n.schema][n.table].Columns()))
  {
    var n := ResolveIn(ctx, Parse(name));
    if n.schema !in dbs then Err(DatabaseNotExists(n.schema))
    else InDatabase(dbs, n.schema, TableAlterColumn(engine, n.schema, dbs[n.schema], n.table, columnName, column))
  }

  /** `alter_table_drop_column` as written: the database is the resolved one, but the table
      is looked up under the name exactly as the caller wrote it, so every outcome below is
      about the entry called `name`. */
  function AlterTableDropColumn(engine: Engine, dbs: Databases, ctx: Context, name: string, columnName: string): (r: Result<Databases>)
    ensures var n := ResolveIn(ctx, Parse(name));
      && (n.schema !in dbs ==> r == Err(DatabaseNotExists(n.schema)))
      && (n.schema in dbs ==> var tables := dbs[n.schema];
           && (r.Ok? <==> (&& name in tables && MayDrop(tables[name].Columns(), columnName)
                           && !Rejects(engine, n.schema, tables, name, DropColumn(name, tables[name].Columns(), columnName).value)))
           && (name !in tables ==> r == Err(TableNotExists(name)))
           && (name in tables && !HasColumn(tables[name].Columns(), columnName) ==>
                 r == Err(ColumnNotExists(name, columnName)))
           && (&& name in tables && HasColumn(tables[name].Columns(), columnName)
               && !MayDrop(tables[name].Columns(), columnName) ==>
                 r == Err(InvalidColumnDrop(name, columnName)))
           && (&& name in tables && MayDrop(tables[name].Columns(), columnName)
               && Rejects(engine, n.schema, tables, name, DropColumn(name, tables[name].Columns(), columnName).value) ==>
                 r == Err(External(Verdict(engine, n.schema, tables, name, DropColumn(name, tables[name].Columns(), columnName).value).value))))
      && (r.Ok? ==> r.value.Keys == dbs.Keys && forall d :: d in dbs && d != n.schema ==> r.value[d] == dbs[d])
      && (r.Ok? ==> OnlyColumnsOf(dbs[n.schema], r.value[n.schema], name))
      && (r.Ok? ==> DropColumn(name, dbs[n.schema][name].Columns(), columnName) == Ok(r.value[n.schema][name].Columns()))
  {
    var n := ResolveIn(ctx, Parse(name));
    if n.schema !in dbs then Err(DatabaseNotExists(n.schema))
    else InDatabase(dbs, n.schema, TableDropColumn(engine, n.schema, dbs[n.schema], name, columnName))
  }

  /** `alter_table_drop_column` as evidently intended: the table is the resolved table
      part, as for the other two alterations. */
  function AlterTableDropColumnResolved(engine: Engine, dbs: Databases, ctx: Context, name: string, columnName: string): (r: Result<Databases>)
    ensures var n := ResolveIn(ctx, Parse(name));
      && (n.schema !in dbs ==> r == Err(DatabaseNotExists(n.schema)))
      && (n.schema in dbs ==> var tables := dbs[n.schema];
           && (r.Ok? <==> (&& n.table in tables && MayDrop(tables[n.table].Columns(), columnName)
                           && !Rejects(engine, n.schema, tables, n.table, DropColumn(n.table, tables[n.table].Columns(), columnName).value)))
           && (n.table !in tables ==> r == Err(TableNotExists(n.table)))
           && (n.table in tables && !HasColumn(tables[n.table].Columns(), columnName) ==>
                 r == Err(ColumnNotExists(n.table, columnName)))
           && (&& n.table in tables && HasColumn(tables[n.table].Columns(), columnName)
               && !MayDrop(tables[n.table].Columns(), columnName) ==>
                 r == Err(InvalidColumnDrop(n.table, columnName)))
           && (&& n.table in tables && MayDrop(tables[n.table].Columns(), columnName)
               && Rejects(engine, n.schema, tables, n.table, DropColumn(n.table, tables[n.table].Columns(), columnName).value) ==>
                 r == Err(External(Verdict(engine, n.schema, tables, n.table, DropColumn(n.table, tables[n.table].Columns(), columnName).value).value))))
      && (r.Ok? ==> r.value.Keys == dbs.Keys && forall d :: d in dbs && d != n.schema ==> r.value[d] == dbs[d])
      && (r.Ok? ==> OnlyColumnsOf(dbs[n.schema], r.value[n.schema], n.table))
      && (r.Ok? ==> DropColumn(n.table, dbs[n.schema][n.table].Columns(), columnName) == Ok(r.value[n.schema][n.table].Columns()))
  {
    var n := ResolveIn(ctx, Parse(name));
    if n.schema !in dbs then Err(DatabaseNotExists(n.schema))
    else InDatabase(dbs, n.schema, TableDropColumn(engine, n.schema, dbs[n.schema], n.table, columnName))
  }

  /** On an unqualified name the two readings of `alter_table_drop_column` agree. */
  lemma DropColumnReadingsAgreeOnBareNames(engine: Engine, dbs: Databases, ctx: Context, name: string, columnName: string)
    requires '.' !in name
    ensures AlterTableDropColumn(engine, dbs, ctx, name, columnName)
         == AlterTableDropColumnResolved(engine, dbs, ctx, name, columnName)
  {
    ParseDotFree(name);
  }

  /** A qualified name makes the code as written miss a table that exists: with `cpu` in
      database `public` (and no table literally called `public.cpu`), dropping a droppable
      column through `public.cpu` fails with TableNotExists{"public.cpu"}, while the
      resolved reading drops it. */
  lemma DropColumnQualifiedNameMissesTable(engine: Engine, dbs: Databases, ctx: Context, db: string, table: string, columnName: string)
    requires '.' !in db && '.' !in table
    requires db in dbs && table in dbs[db] && db + "." + table !in dbs[db]
    requires HasColumn(dbs[db][table].Columns(), columnName)
    requires Droppable(dbs[db][table].Columns(), ColumnIndex(dbs[db][table].Columns(), columnName))
    requires !Rejects(engine, db, dbs[db], table, DropColumn(table, dbs[db][table].Columns(), columnName).value)
    ensures AlterTableDropColumn(engine, dbs, ctx, db + "." + table, columnName) == Err(TableNotExists(db + "." + table))
    ensures AlterTableDropColumnResolved(engine, dbs, ctx, db + "." + table, columnName).Ok?
  {
    ParseFormat(Partial(db, table));
    assert Parse(db + "." + table) == Partial(db, table);
  }

  /** `database`: the database schema as the storage engine knows it; the in-memory
      catalog is not consulted. */
  function Database(engine: Engine, name: string): (r: Result<DatabaseSchema>)
    ensures r.Ok? <==> name in engine.persisted
    ensures r.Ok? ==> r.value == engine.persisted[name]
    ensures r.Err? ==> r.error == DatabaseNotExists(name)
  {
    match engine.GetDbSchema(name)
    case Some(schema) => Ok(schema)
    case None => Err(DatabaseNotExists(name))
  }

  /** `alter_database`: the engine's verdict, its error wrapped as External. */
  function AlterDatabase(engine: Engine, schema: DatabaseSchema): (r: Result<()>)
    ensures r.Ok? <==> schema.name !in engine.alterRejections
    ensures r.Err? ==> r.error == External(engine.alterRejections[schema.name])
  {
    match engine.AlterDatabase(schema)
    case None => Ok(())
    case Some(message) => Err(External(message))
  }

  /** The catalog `new_with_default` leaves: the default database is created, and a
      DatabaseAlreadyExists failure counts as success. Start-up therefore always succeeds,
      the default database is present afterwards, and every database recovered before,
      the default one included, keeps its tables; a default database created here holds
      no table. */
  function Bootstrap(recovered: Databases): (r: Result<Databases>)
    ensures r.Ok?
    ensures DEFAULT_DATABASE in r.value
    ensures r.value.Keys == recovered.Keys + {DEFAULT_DATABASE}
    ensures forall d :: d in recovered ==> r.value[d] == recovered[d]
    ensures DEFAULT_DATABASE !in recovered ==> r.value[DEFAULT_DATABASE] == map[]
  {
    match RegisterSchema(recovered, DEFAULT_DATABASE)
    case Ok(created) => Ok(created)
    case Err(DatabaseAlreadyExists(_)) => Ok(recovered)
    case Err(e) => Err(e)
  }

  /** Starting up over what a previous start-up left changes nothing. */
  lemma BootstrapIdempotent(recovered: Databases)
    ensures Bootstrap(Bootstrap(recovered).value) == Bootstrap(recovered)
  {
  }

  /** A start-up that recovers no default database shows no tables in the default context. */
  lemma FreshStartShowsNoTables(recovered: Databases)
    requires DEFAULT_DATABASE !in recovered
    ensures ShowTables(Bootstrap(recovered).value, Context(DEFAULT_CATALOG, DEFAULT_DATABASE), None) == Ok({})
  {
    var started := Bootstrap(recovered).value;
    assert started[DEFAULT_DATABASE] == map[];
    assert started[DEFAULT_DATABASE].Keys == {};
  }
}
