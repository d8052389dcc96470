# Local catalog metadata of the cnosdb query server, in Dafny

This project models the metadata layer of the cnosdb query server
(`query_server/query/src/metadata.rs`). That layer sits between the SQL planner and the
storage engine:

- **`LocalCatalogMeta`** is the metadata facade. It holds a context pair (current catalog,
  current database), the storage engine, the function registry, and a shared in-memory
  catalog. The catalog maps each database name to that database's tables.
- Every table operation first resolves a partial reference (`t`, `db.t` or `cat.db.t`)
  against the context pair. It then looks up the database and, where needed, the table.
  Each kind of miss becomes a typed error: `DatabaseNotExists` or `TableNotExists`.
- Create, drop and alter operations change the shared catalog in place. `with_catalog` and
  `with_database` return copies with one context field changed. The copies share the same
  catalog.
- **`MetadataProvider`** is the planner's context provider. It turns a table reference into
  a table source, treating the two kinds of table differently. It forwards function
  lookups to the function registry.

Layout, one module per concern:

| file | module | models |
|---|---|---|
| `errors.dfy` | `Errors` | `MetadataError`, `Result`, `Option`, and `Applied` (how a unit-result operation leaves its state) |
| `table_reference.dfy` | `TableReferences` | the planner's `TableReference`: parsing a dotted name, resolution, and their round-trips |
| `schema.dfy` | `Schema` | table schemas (native `TsKv` and `ExternalTable`), columns, and column add/alter/drop |
| `collaborators.dfy` | `StorageEngine`, `FunctionRegistry` | the engine and the function registry as fixed oracles |
| `catalog.dfy` | `Catalog`, `SharedCatalog` | the catalog as a value (`map<string, map<string, TableSchema>>`) with the effect of each catalog/database operation; the shared `UserCatalog` object whose methods apply those effects in place |
| `facade.dfy` | `Facade` | what each facade operation does to the catalog value under a context, and the lemmas relating operations |
| `metadata.dfy` | `Metadata` | the `LocalCatalogMeta` class, proved to follow `Facade`, and `new_with_default` |
| `provider.dfy` | `Provider` | `MetadataProvider` and `stream_from_batches` |

Each state-changing method of `LocalCatalogMeta` and `UserCatalog` is proved against a pure
function of the old catalog. On success the new catalog is that function's value. On failure
the error is that function's error, and the catalog is unchanged. The properties of the
operations are proved about those functions.

Parsing a name string follows `TableReference::from(&str)` of the planner library. The
string is split at every `.`. One piece gives a bare name, two give `db.t`, three give
`cat.db.t`. Any other count keeps the whole string as a bare table name. That library is
not part of this model.

The database-level column operations (`table_add_column`, `table_alter_column` and
`table_drop_column` of `Database`) are not part of this model's source either. They follow
the documented contract of the catalog layer:
- A missing table gives `TableNotExists`.
- A name collision gives `ColumnAlreadyExists`, and a missing column gives `ColumnNotExists`.
- Dropping the time column or the last field column is rejected with `InvalidColumnDrop`.
- A native table's change must be accepted by the storage engine, which sees the table's columns before and after the change. If the engine rejects it,
  the error is `External` and the in-memory schema is left as it was.

## Model

| member | source | states |
|---|---|---|
| `TableReferences.Split` | query_server/query/src/metadata.rs:124 | a dotted name splits into at least one piece, and no piece contains a dot |
| `TableReferences.JoinSplit` | query_server/query/src/metadata.rs:124 | joining the pieces back with dots gives the original string |
| `TableReferences.SplitNoDot` | query_server/query/src/metadata.rs:124 | a dot-free string is a single piece |
| `TableReferences.SplitPrefix` | query_server/query/src/metadata.rs:124 | a dot-free prefix before a dot becomes the first piece |
| `TableReferences.SplitJoin` | query_server/query/src/metadata.rs:124 | dot-free pieces survive a join followed by a split |
| `TableReferences.Parse` | query_server/query/src/metadata.rs:124 | a name is either kept whole as a bare table name, or split into a reference whose components are all dot-free; a dotted name stays whole only when it has more than three pieces |
| `TableReferences.ParseFormat` | query_server/query/src/metadata.rs:140 | a reference with dot-free components, written out with dots, parses back to itself |
| `TableReferences.FormatParse` | query_server/query/src/metadata.rs:140 | every string is the written-out form of what it parses to, including names with four or more pieces |
| `TableReferences.ParseDotFree` | query_server/query/src/metadata.rs:187 | a dot-free name parses as a bare table name |
| `TableReferences.Resolve` | query_server/query/src/metadata.rs:97 | resolution keeps the table component as written |
| `TableReferences.ResolveKeepsWritten` | query_server/query/src/metadata.rs:97 | a written schema or catalog wins over the context, a missing one comes from the context, and a full reference resolves to itself |
| `TableReferences.ResolveIdempotent` | query_server/query/src/metadata.rs:97 | resolving the qualified form of a resolved reference, in any context, gives the same triple |
| `Schema.TableSchema.WithColumns` | query_server/query/src/metadata.rs:186-223 | a column change installs exactly the new column list and keeps the table's kind, database, name and, for an external table, its location and file type |
| `Schema.WithColumnsRestores` | query_server/query/src/metadata.rs:186-223 | putting the old column list back gives the original table schema, so a column change alters nothing but the columns |
| `Schema.ColumnIndex` | query_server/query/src/metadata.rs:210 | the first position holding a column of that name |
| `Schema.FieldCountAppend` | query_server/query/src/metadata.rs:222 | the field count of a concatenation is the sum of the counts |
| `Schema.AddColumn` | query_server/query/src/metadata.rs:194 | adding fails exactly on a name collision, with `ColumnAlreadyExists{table, column}`; otherwise the old columns stay in front and the new one is appended |
| `Schema.AddColumnKeepsUnique` | query_server/query/src/metadata.rs:194 | over unique names, a successful add keeps names unique and makes the new name present |
| `Schema.AlterColumn` | query_server/query/src/metadata.rs:210 | altering fails exactly on a missing column, with `ColumnNotExists{table, column}`; otherwise the first column of that name is replaced and every other column is kept in place |
| `Schema.AlterColumnUniqueness` | query_server/query/src/metadata.rs:210 | over unique names, a successful alteration keeps names unique exactly when the new name is the old one or unused; renaming onto another column's name leaves a duplicate |
| `Schema.DropColumn` | query_server/query/src/metadata.rs:222 | `ColumnNotExists` exactly on a missing column; `InvalidColumnDrop` exactly when the column is the time column or the last field column (the `Droppable` policy); otherwise exactly that one column is removed, as a multiset |
| `Schema.DropColumnKeepsRequired` | query_server/query/src/metadata.rs:222 | a successful drop keeps every time column, keeps at least one field column, and keeps every other column in its original order |
| `Schema.DropColumnRemoves` | query_server/query/src/metadata.rs:222 | with unique names, a successful drop removes the name and keeps the rest unique |
| `Catalog.RegisterSchema` | query_server/query/src/metadata.rs:153-158 | fails exactly when the name is taken, with `DatabaseAlreadyExists`; otherwise adds an empty database and leaves the others alone |
| `Catalog.DeregisterSchema` | query_server/query/src/metadata.rs:135-137 | fails exactly on a missing database, with `DatabaseNotExists`; otherwise removes it with all its tables and leaves the others alone |
| `Catalog.RegisterTable` | query_server/query/src/metadata.rs:149 | stores the schema under the name, silently replacing an older one, and leaves the other tables alone |
| `Catalog.DeregisterTable` | query_server/query/src/metadata.rs:131 | fails exactly on a missing table, with `TableNotExists`; otherwise removes only that table |
| `Catalog.Persist` | query_server/query/src/metadata.rs:186-223 | a native table's change fails exactly when the engine rejects it (`External` with the engine's message); otherwise the table gets the new columns, nothing else about it changes, and no other table changes |
| `Catalog.TableAddColumn` | query_server/query/src/metadata.rs:194 | succeeds exactly when the table exists, the name is free and the engine accepts; `TableNotExists`, `ColumnAlreadyExists` or `External` otherwise, in that order; on success only that table's columns change, gaining the new one at the end |
| `Catalog.TableAlterColumn` | query_server/query/src/metadata.rs:210 | succeeds exactly when the table and the column exist and the engine accepts; `TableNotExists`, `ColumnNotExists` or `External` otherwise; on success only that table's columns change, as the alteration says |
| `Catalog.TableDropColumn` | query_server/query/src/metadata.rs:222 | succeeds exactly when the table exists, the column exists and may be dropped, and the engine accepts; `TableNotExists`, `ColumnNotExists`, `InvalidColumnDrop` or `External` otherwise; on success only that table's columns change, as the drop says |
| `Catalog.EngineJudgesEachChange` | query_server/query/src/metadata.rs:210 | the engine's verdict depends on the change itself: an engine that refuses altering a column one way still accepts altering it another way |
| `Catalog.InDatabase` | query_server/query/src/metadata.rs:126-131 | a change to one database's tables changes no other database, and its failure is passed through |
| `SharedCatalog.UserCatalog.constructor` | query_server/query/src/metadata.rs:49 | the catalog starts with the engine it was given and the databases recovered from it |
| `SharedCatalog.UserCatalog.SchemaOf` | query_server/query/src/metadata.rs:100-104 | a database's tables are found exactly when it is registered |
| `SharedCatalog.UserCatalog.SchemaNames` | query_server/query/src/metadata.rs:161 | the listed names are exactly the databases `schema` finds |
| `SharedCatalog.UserCatalog.RegisterSchema` | query_server/query/src/metadata.rs:155-157 | updates the catalog in place as `Catalog.RegisterSchema` says, unchanged on failure |
| `SharedCatalog.UserCatalog.DeregisterSchema` | query_server/query/src/metadata.rs:136 | updates the catalog in place as `Catalog.DeregisterSchema` says, unchanged on failure |
| `SharedCatalog.UserCatalog.RegisterTable` | query_server/query/src/metadata.rs:149 | upserts the table into the named database in place |
| `SharedCatalog.UserCatalog.DeregisterTable` | query_server/query/src/metadata.rs:131 | removes the table in place as `Catalog.DeregisterTable` says, unchanged on failure |
| `SharedCatalog.UserCatalog.Commit` | query_server/query/src/metadata.rs:186-223 | stores new columns in place only if the engine accepts a native table's change (rollback on rejection) |
| `SharedCatalog.UserCatalog.TableAddColumn` | query_server/query/src/metadata.rs:194 | applies `Catalog.TableAddColumn` in place, unchanged on failure |
| `SharedCatalog.UserCatalog.TableAlterColumn` | query_server/query/src/metadata.rs:210 | applies `Catalog.TableAlterColumn` in place, unchanged on failure |
| `SharedCatalog.UserCatalog.TableDropColumn` | query_server/query/src/metadata.rs:222 | applies `Catalog.TableDropColumn` in place, unchanged on failure |
| `Facade.Table` | query_server/query/src/metadata.rs:94-109 | `DatabaseNotExists{resolved schema}` exactly when that database is absent; `TableNotExists{resolved table}` exactly when it is present without the table; otherwise the stored schema |
| `Facade.TableIgnoresCatalog` | query_server/query/src/metadata.rs:98-101 | neither the context's catalog nor a written catalog component changes the result of a lookup |
| `Facade.CreateTable` | query_server/query/src/metadata.rs:139-151 | fails exactly when the resolved database is absent, with `DatabaseNotExists`, changing nothing; otherwise stores the schema under the bare table part, overwriting, and leaves every other table and database alone |
| `Facade.CreateThenTable` | query_server/query/src/metadata.rs:139-151 | after a successful create, `table(name)` returns the stored schema, and lookups that resolve elsewhere are unaffected |
| `Facade.DropTable` | query_server/query/src/metadata.rs:123-133 | `DatabaseNotExists` exactly on a missing resolved database, `TableNotExists` exactly on a missing table; otherwise removes only that table |
| `Facade.DropThenTable` | query_server/query/src/metadata.rs:123-133 | after a successful drop, `table(name)` reports `TableNotExists`, and lookups that resolve elsewhere are unaffected |
| `Facade.CreateDropDatabase` | query_server/query/src/metadata.rs:135-158 | creating a missing database succeeds and lists it; dropping it again restores the catalog exactly |
| `Facade.ShowTables` | query_server/query/src/metadata.rs:164-176 | lists the tables of the named database, or of the current one when no name is given; `DatabaseNotExists` naming the chosen database when it is absent |
| `Facade.CreateThenShowTables` | query_server/query/src/metadata.rs:139-176 | a created table is listed by `show_tables` of its database |
| `Facade.AlterTableAddColumn` | query_server/query/src/metadata.rs:186-195 | `DatabaseNotExists` on a missing resolved database before any table is looked at; then succeeds exactly when the resolved table exists, the name is free and the engine accepts, failing with `TableNotExists{resolved table}`, `ColumnAlreadyExists` or `External`; on success only that table's columns change, gaining the new column |
| `Facade.AlterTableAlterColumn` | query_server/query/src/metadata.rs:197-211 | `DatabaseNotExists` first; then succeeds exactly when the resolved table and the column exist and the engine accepts, failing with `TableNotExists{resolved table}`, `ColumnNotExists` or `External`; on success only that table's columns change, as the alteration says |
| `Facade.AlterTableDropColumn` | query_server/query/src/metadata.rs:213-223 | `DatabaseNotExists` on a missing resolved database; then every outcome concerns the entry named exactly as written: success exactly when it exists, the column may be dropped and the engine accepts; otherwise `TableNotExists{name as written}`, `ColumnNotExists`, `InvalidColumnDrop` or `External`; on success only that entry's columns change, as the drop says |
| `Facade.AlterTableDropColumnResolved` | query_server/query/src/metadata.rs:213-223 | the corrected drop: the same outcomes for the resolved table part, with `TableNotExists{resolved table}` |
| `Facade.DropColumnReadingsAgreeOnBareNames` | query_server/query/src/metadata.rs:214-222 | on a dot-free name the as-written and the corrected drop give the same result |
| `Facade.DropColumnQualifiedNameMissesTable` | query_server/query/src/metadata.rs:222 | with table `t` in database `db` and droppable column `c`, the as-written drop through `db.t` fails with `TableNotExists{"db.t"}` while the corrected one succeeds |
| `Facade.Database` | query_server/query/src/metadata.rs:111-117 | found exactly when the engine knows the database; otherwise `DatabaseNotExists{name}`; the in-memory catalog plays no part |
| `Facade.AlterDatabase` | query_server/query/src/metadata.rs:178-184 | succeeds exactly when the engine accepts; a rejection becomes `External` with the engine's message |
| `Facade.Bootstrap` | query_server/query/src/metadata.rs:52-61 | start-up always succeeds, the default database is present afterwards, and every recovered database, the default one included, keeps its tables; a default database created at start-up holds no table, so a fresh start shows no tables |
| `Facade.BootstrapIdempotent` | query_server/query/src/metadata.rs:52-61 | starting up again over what a start-up left changes nothing |
| `Facade.FreshStartShowsNoTables` | query_server/query/src/metadata.rs:52-61 | when no default database was recovered, `show_tables(None)` in the default context lists no table after start-up |
| `Metadata.LocalCatalogMeta.constructor` | query_server/query/src/metadata.rs:45-51 | a facade holding exactly the given context, engine, catalog and registry |
| `Metadata.LocalCatalogMeta.Clone` | query_server/query/src/metadata.rs:34-41 | a copy with equal fields that refers to the same catalog object |
| `Metadata.LocalCatalogMeta.WithCatalog` | query_server/query/src/metadata.rs:70-75 | a fresh facade whose `catalog_name()` is the new name; database name, engine, catalog object and registry are the original's, and the original is untouched |
| `Metadata.LocalCatalogMeta.WithDatabase` | query_server/query/src/metadata.rs:77-82 | a fresh facade whose `schema_name()` is the new name; everything else is shared or equal, and the original is untouched |
| `Metadata.LocalCatalogMeta.Table` | query_server/query/src/metadata.rs:94-109 | the lookup over the shared catalog is `Facade.Table` under the facade's context |
| `Metadata.LocalCatalogMeta.Database` | query_server/query/src/metadata.rs:111-117 | is `Facade.Database` for the facade's engine |
| `Metadata.LocalCatalogMeta.DropTable` | query_server/query/src/metadata.rs:123-133 | changes the shared catalog as `Facade.DropTable` says, and not at all on failure |
| `Metadata.LocalCatalogMeta.DropDatabase` | query_server/query/src/metadata.rs:135-137 | changes the shared catalog as `Catalog.DeregisterSchema` says, and not at all on failure |
| `Metadata.LocalCatalogMeta.CreateTable` | query_server/query/src/metadata.rs:139-151 | changes the shared catalog as `Facade.CreateTable` says, and not at all on failure |
| `Metadata.LocalCatalogMeta.CreateDatabase` | query_server/query/src/metadata.rs:153-158 | changes the shared catalog as `Catalog.RegisterSchema` says, and not at all on failure |
| `Metadata.LocalCatalogMeta.DatabaseNames` | query_server/query/src/metadata.rs:160-162 | the names of exactly the registered databases |
| `Metadata.LocalCatalogMeta.ShowTables` | query_server/query/src/metadata.rs:164-176 | is `Facade.ShowTables` under the facade's context |
| `Metadata.LocalCatalogMeta.AlterDatabase` | query_server/query/src/metadata.rs:178-184 | is `Facade.AlterDatabase` for the facade's engine |
| `Metadata.LocalCatalogMeta.AlterTableAddColumn` | query_server/query/src/metadata.rs:186-195 | changes the shared catalog as `Facade.AlterTableAddColumn` says, and not at all on failure |
| `Metadata.LocalCatalogMeta.AlterTableAlterColumn` | query_server/query/src/metadata.rs:197-211 | changes the shared catalog as `Facade.AlterTableAlterColumn` says, and not at all on failure |
| `Metadata.LocalCatalogMeta.AlterTableDropColumn` | query_server/query/src/metadata.rs:213-223 | changes the shared catalog as the as-written `Facade.AlterTableDropColumn` says, and not at all on failure |
| `Metadata.CreateThroughCopy` | query_server/query/src/metadata.rs:77-82 | a table created through a `with_database` copy under a bare name is visible through the original under its qualified name; the original's context is unchanged |
| `Metadata.NewWithDefault` | query_server/query/src/metadata.rs:44-62 | always succeeds; the context is (`DEFAULT_CATALOG`, `DEFAULT_DATABASE`), the catalog is fresh and holds what `Facade.Bootstrap` gives, so the default database exists |
| `Provider.SourceFor` | query_server/query/src/metadata.rs:249-261 | exhaustive over the two kinds: a native table always gives a cluster source bound to the engine; an external one gives a listing source exactly when URL parsing, option derivation and table construction all succeed, and that source is built from the parsed URL, the derived options and the table's columns; failures name the failing step |
| `Provider.ResolveFailureMessage` | query_server/query/src/metadata.rs:267-270 | the message is the fixed prefix, then the catalog, then `  db: ` and the database, then `, table: ` and the table |
| `Provider.ResolveFailureNamesTriple` | query_server/query/src/metadata.rs:263-270 | the lookup-failure message contains the resolved catalog, database and table |
| `Provider.MetadataProvider.constructor` | query_server/query/src/metadata.rs:232-234 | the provider wraps the given facade |
| `Provider.MetadataProvider.GetTableProvider` | query_server/query/src/metadata.rs:237-273 | any lookup failure becomes a plan error naming the reference resolved in the facade's current context; a found table gives `SourceFor` that table; a source is only ever produced for a stored table |
| `Provider.ProviderFindsStoredTables` | query_server/query/src/metadata.rs:241-262 | when the listing library's steps succeed, a source is produced exactly for the stored tables |
| `Provider.MetadataProvider.GetFunctionMeta` | query_server/query/src/metadata.rs:275-277 | the scalar function exactly when the registry knows the name, otherwise None |
| `Provider.MetadataProvider.GetAggregateMeta` | query_server/query/src/metadata.rs:279-281 | the aggregate function exactly when the registry knows the name, otherwise None |
| `Provider.MetadataProvider.GetVariableType` | query_server/query/src/metadata.rs:283-286 | never reports a type |
| `Provider.StreamFromBatches` | query_server/query/src/metadata.rs:289-294 | requires at least one batch; the stream carries the batches in order, takes the first batch's schema, and reserves no memory |

## Findings

| source | as written | input that shows it | evidently intended | confidence | as-written member | corrected member |
|---|---|---|---|---|---|---|
| query_server/query/src/metadata.rs:222 | `alter_table_drop_column` resolves the name only to find the database. It then passes the unresolved `table_name` to `table_drop_column`. | database `public` holds table `cpu` with columns `time`, `usage`, `idle`; `alter_table_drop_column("public.cpu", "idle")` fails with `TableNotExists{"public.cpu"}` | pass `table_ref.table`, as `alter_table_add_column` and `alter_table_alter_column` do (lines 194 and 210) | medium; not executed; relies on `Database::table_drop_column` looking its argument up verbatim, as every other table lookup does | `Facade.AlterTableDropColumn` (with `Facade.DropColumnQualifiedNameMissesTable`) | `Facade.AlterTableDropColumnResolved` |

The facade class `Metadata.LocalCatalogMeta.AlterTableDropColumn` keeps the behaviour as
written. The corrected function stands beside it with its properties proved.
`Facade.DropColumnReadingsAgreeOnBareNames` shows that the two differ only on qualified names.

## Left out

- Concurrency: `Arc` sharing and the locks inside `UserCatalog` and `Database` are not modelled. The catalog is one heap object that every facade copy refers to, and each operation is atomic.
- The per-database `Database` objects are folded into the catalog's map. A handle kept across operations, and aliasing through it, is not modelled.
- The `DatabaseSchema` that `create_database` hands to `Database::new` is not stored, because no facade operation reads it back. `database()` asks the engine.
- `UserCatalog::new(engine)` is not part of this model. Whatever it recovers from the engine is the `recovered` parameter of `Metadata.NewWithDefault`.
- The storage engine is a fixed oracle (`StorageEngine.Engine`). `alter_database` and column changes do not change what it answers later. Its error text is given as a string, standing for `format!("{}", e)`.
- The type-widening policy of `alter_table_alter_column` is part of the engine's verdict. The engine sees the database, the table, and its columns before and after each change, but the model does not fix which type changes it accepts.
- External tables: the arrow schema is modelled as a column list. Column changes to an external table are made in memory only, without asking the engine.
- `MetadataError` display texts are not modelled; errors are compared structurally. The (table, column) payload of `InvalidColumnDrop` stands in for its reason text.
- The values of `DEFAULT_CATALOG` and `DEFAULT_DATABASE` are defined outside this source. The model uses `"cnosdb"` and `"public"`, and no proof depends on them.
- `database_names()` and `show_tables()` return a `Vec`; the model returns the set of names, since the order is unspecified. `schema_names()` and `table_names()` never fail in the model, so `database_names()` and `show_tables()` fail only as stated.
- `catalog_name()`, `schema_name()` and `function()` are plain field reads (`CatalogName`, `SchemaName`, `Function`) without contracts of their own. Their meaning is stated by `WithCatalog`, `WithDatabase` and `NewWithDefault`.
- `as_any` and the downcast in `get_table_provider`: the provider always wraps a `LocalCatalogMeta` here, so the downcast cannot fail and its plan error ("failed to get meta data") is not modelled.
- `ListingTableUrl::parse`, `table_options()`, `ListingTable::try_new` and `provider_as_source` are foreign library calls. They are the oracle functions of `Provider.ListingLibrary`, and `provider_as_source` is the identity.
- Provider.GetTableProvider: a failure of a foreign step carries only which step failed, not the library's own error value.
- Metadata.NewWithDefault: the branch that propagates an error other than `DatabaseAlreadyExists` is modelled but cannot be taken, because registering a database fails only for an existing name.
- `stream_from_batches`: the record batches, their schema and the stream are plain values. The metrics sets are not modelled beyond a zero reservation. The unchecked `batches[0]` is the precondition.
- Schema.AlterColumn: renaming a column onto the name of another existing column succeeds and leaves two columns of that name, since `table_alter_column` only replaces the descriptor. `Schema.AlterColumnUniqueness` states exactly when names stay unique.
- `Metadata.LocalCatalogMeta.constructor` requires the catalog to use the facade's engine, as `new_with_default` arranges. Column changes consult the catalog's engine; `database()`, `alter_database()` and the cluster source use the facade's.
- `RemoteCatalogMeta` is an empty struct with nothing to model.
