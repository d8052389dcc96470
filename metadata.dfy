/** LocalCatalogMeta: the metadata facade. Each copy carries its own context pair and
    shares one UserCatalog object, which the create/drop/alter operations update in place. */
module Metadata {
  import opened Errors
  import opened Schema
  import opened StorageEngine
  import opened FunctionRegistry
  import opened TableReferences
  import Catalog
  import opened SharedCatalog
  import Facade

  class LocalCatalogMeta {
    var catalogName: string
    var databaseName: string
    const engine: Engine
    const catalog: UserCatalog
    const funcManager: FuncMetaManager

    /** The facade and its catalog talk to the same storage engine. */
    constructor (catalogName: string, databaseName: string, engine: Engine, catalog: UserCatalog, funcManager: FuncMetaManager)
      requires catalog.engine == engine
      ensures this.catalogName == catalogName && this.databaseName == databaseName
      ensures this.engine == engine && this.catalog == catalog && this.funcManager == funcManager
    {
      this.catalogName := catalogName;
      this.databaseName := databaseName;
      this.engine := engine;
      this.catalog := catalog;
      this.funcManager := funcManager;
    }

    /** `clone()`: a second facade with the same fields, sharing the same catalog object. */
    constructor Clone(other: LocalCatalogMeta)
      ensures catalogName == other.catalogName && databaseName == other.databaseName
      ensures engine == other.engine && catalog == other.catalog && funcManager == other.funcManager
    {
      catalogName := other.catalogName;
      databaseName := other.databaseName;
      engine := other.engine;
      catalog := other.catalog;
      funcManager := other.funcManager;
    }

    function Context(): Facade.Context
      reads this
    {
      Facade.Context(catalogName, databaseName)
    }

    function CatalogName(): string
      reads this
    {
      catalogName
    }

    function SchemaName(): string
      reads this
    {
      databaseName
    }

    function Function(): FuncMetaManager
      reads this
    {
      funcManager
    }

    /** `with_catalog`: a new facade whose only difference is the current catalog. */
    method WithCatalog(name: string) returns (m: LocalCatalogMeta)
      ensures fresh(m)
      ensures m.CatalogName() == name && m.SchemaName() == SchemaName()
      ensures m.engine == engine && m.catalog == catalog && m.Function() == Function()
    {
      m := new LocalCatalogMeta.Clone(this);
      m.catalogName := name;
    }

    /** `with_database`: a new facade whose only difference is the current database. */
    method WithDatabase(name: string) returns (m: LocalCatalogMeta)
      ensures fresh(m)
      ensures m.SchemaName() == name && m.CatalogName() == CatalogName()
      ensures m.engine == engine && m.catalog == catalog && m.Function() == Function()
    {
      m := new LocalCatalogMeta.Clone(this);
      m.databaseName := name;
    }

    /** `table`: the stored schema of a resolved reference, or which component is missing. */
    function Table(t: TableReference): (r: Result<TableSchema>)
      reads this, catalog
      ensures r == Facade.Table(catalog.databases, Context(), t)
    {
      Facade.Table(catalog.databases, Context(), t)
    }

    /** `database`: asks the storage engine, not the in-memory catalog. */
    function Database(name: string): (r: Result<DatabaseSchema>)
      reads this
      ensures r == Facade.Database(engine, name)
    {
      Facade.Database(engine, name)
    }

    method DropTable(name: string) returns (r: Result<()>)
      modifies catalog
      ensures Applied(Facade.DropTable(old(catalog.databases), Context(), name), r, old(catalog.databases), catalog.databases)
    {
      var table := Parse(name);
      var n := Resolve(table, catalogName, databaseName);
      if catalog.SchemaOf(n.schema).None? {
        return Err(DatabaseNotExists(n.schema));
      }
      r := catalog.DeregisterTable(n.schema, n.table);
    }

    method DropDatabase(name: string) returns (r: Result<()>)
      modifies catalog
      ensures Applied(Catalog.DeregisterSchema(old(catalog.databases), name), r, old(catalog.databases), catalog.databases)
    {
      r := catalog.DeregisterSchema(name);
    }

    method CreateTable(name: string, schema: TableSchema) returns (r: Result<()>)
      modifies catalog
      ensures Applied(Facade.CreateTable(old(catalog.databases), Context(), name, schema), r, old(catalog.databases), catalog.databases)
    {
      var table := Parse(name);
      var tableRef := Resolve(table, catalogName, databaseName);
      if catalog.SchemaOf(tableRef.schema).None? {
        return Err(DatabaseNotExists(tableRef.schema));
      }
      catalog.RegisterTable(tableRef.schema, table.table, schema);
      r := Ok(());
    }

    method CreateDatabase(name: string, database: DatabaseSchema) returns (r: Result<()>)
      modifies catalog
      ensures Applied(Catalog.RegisterSchema(old(catalog.databases), name), r, old(catalog.databases), catalog.databases)
    {
      r := catalog.RegisterSchema(name, database);
    }

    function DatabaseNames(): (r: Result<set<string>>)
      reads this, catalog
      ensures r == Ok(catalog.databases.Keys)
    {
      Ok(catalog.SchemaNames())
    }

    function ShowTables(name: Option<string>): (r: Result<set<string>>)
      reads this, catalog
      ensures r == Facade.ShowTables(catalog.databases, Context(), name)
    {
      Facade.ShowTables(catalog.databases, Context(), name)
    }

    function AlterDatabase(database: DatabaseSchema): (r: Result<()>)
      reads this
      ensures r == Facade.AlterDatabase(engine, database)
    {
      Facade.AlterDatabase(engine, database)
    }

    method AlterTableAddColumn(tableName: string, column: TableColumn) returns (r: Result<()>)
      modifies catalog
      ensures Applied(Facade.AlterTableAddColumn(catalog.engine, old(catalog.databases), Context(), tableName, column),
                      r, old(catalog.databases), catalog.databases)
    {
      var tableRef := Resolve(Parse(tableName), catalogName, databaseName);
      if catalog.SchemaOf(tableRef.schema).None? {
        return Err(DatabaseNotExists(tableRef.schema));
      }
      r := catalog.TableAddColumn(tableRef.schema, tableRef.table, column);
    }

    method AlterTableAlterColumn(tableName: string, columnName: string, newColumn: TableColumn) returns (r: Result<()>)
      modifies catalog
      ensures Applied(Facade.AlterTableAlterColumn(catalog.engine, old(catalog.databases), Context(), tableName, columnName, newColumn),
                      r, old(catalog.databases), catalog.databases)
    {
      var tableRef := Resolve(Parse(tableName), catalogName, databaseName);
      if catalog.SchemaOf(tableRef.schema).None? {
        return Err(DatabaseNotExists(tableRef.schema));
      }
      r := catalog.TableAlterColumn(tableRef.schema, tableRef.table, columnName, newColumn);
    }

    /** Passes the name as written, not its resolved table part, to the database. */
    method AlterTableDropColumn(tableName: string, columnName: string) returns (r: Result<()>)
      modifies catalog
      ensures Applied(Facade.AlterTableDropColumn(catalog.engine, old(catalog.databases), Context(), tableName, columnName),
                      r, old(catalog.databases), catalog.databases)
    {
      var tableRef := Resolve(Parse(tableName), catalogName, databaseName);
      if catalog.SchemaOf(tableRef.schema).None? {
        return Err(DatabaseNotExists(tableRef.schema));
      }
      r := catalog.TableDropColumn(tableRef.schema, tableName, columnName);
    }
  }

  /** Copies made by `with_database` share the catalog: a table created through the copy
      under a bare name is visible through the original under its qualified name, and the
      original's own context is untouched. */
  method CreateThroughCopy(meta: LocalCatalogMeta, db: string, table: string, schema: TableSchema)
    returns (copy: LocalCatalogMeta, r: Result<()>)
    requires '.' !in table
    modifies meta.catalog
    ensures fresh(copy) && copy.catalog == meta.catalog && copy.SchemaName() == db
    ensures meta.SchemaName() == old(meta.SchemaName()) && meta.CatalogName() == old(meta.CatalogName())
    ensures r.Ok? <==> db in old(meta.catalog.databases)
    ensures r.Ok? ==> meta.Table(Partial(db, table)) == Ok(schema)
    ensures r.Err? ==> r.error == DatabaseNotExists(db) && meta.catalog.databases == old(meta.catalog.databases)
  {
    copy := meta.WithDatabase(db);
    ParseDotFree(table);
    r := copy.CreateTable(table, schema);
  }

  /** `new_with_default`: a facade on (DEFAULT_CATALOG, DEFAULT_DATABASE) over a fresh
      catalog holding what `recovered` says the engine already had; creating the default
      database may fail only because it already exists, which is ignored. */
  method NewWithDefault(engine: Engine, funcManager: FuncMetaManager, recovered: Catalog.Databases)
    returns (r: Result<LocalCatalogMeta>)
    ensures r.Ok? && fresh(r.value) && fresh(r.value.catalog)
    ensures r.value.CatalogName() == Facade.DEFAULT_CATALOG && r.value.SchemaName() == Facade.DEFAULT_DATABASE
    ensures r.value.engine == engine && r.value.catalog.engine == engine && r.value.Function() == funcManager
    ensures r.value.catalog.databases == Facade.Bootstrap(recovered).value
  {
    var catalog := new UserCatalog(engine, recovered);
    var meta := new LocalCatalogMeta(Facade.DEFAULT_CATALOG, Facade.DEFAULT_DATABASE, engine, catalog, funcManager);
    var created := meta.CreateDatabase(meta.databaseName, DatabaseSchema(meta.databaseName));
    match created {
      case Ok(_) =>
      case Err(DatabaseAlreadyExists(_)) =>
      case Err(e) => return Err(e);
    }
    r := Ok(meta);
  }
}
