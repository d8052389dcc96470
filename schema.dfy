/** Table and database schemas (models::schema) and the column-level changes made to them. */
module Schema {
  import opened Errors

  datatype ValueType = Integer | Unsigned | Float | Boolean | Text

  /** The semantic role of a column in a time-series table. */
  datatype ColumnType = Tag | Time | Field(valueType: ValueType)

  datatype TableColumn = TableColumn(name: string, columnType: ColumnType)

  /** A table whose data lives in the local time-series storage engine. */
  datatype TskvTableSchema = TskvTableSchema(db: string, name: string, columns: seq<TableColumn>)

  /** A table whose data is a set of files at `location`, read with the reader for `fileType`;
      `columns` stands for its arrow schema. */
  datatype ExternalTableSchema = ExternalTableSchema(
    db: string, name: string, location: string, fileType: string, columns: seq<TableColumn>)

  /** The two kinds of table the catalog stores. */
  datatype TableSchema =
    | TsKv(tskv: TskvTableSchema)
    | ExternalTable(external: ExternalTableSchema)
  {
    function Columns(): seq<TableColumn>
    {
      match this
      case TsKv(s) => s.columns
      case ExternalTable(s) => s.columns
    }

    /** The same table, of the same kind and with the same identity and location, with
        another column list. */
    function WithColumns(cols: seq<TableColumn>): (r: TableSchema)
      ensures r.Columns() == cols && r.TsKv? == TsKv?
      ensures TsKv? ==> r.tskv.db == tskv.db && r.tskv.name == tskv.name
      ensures ExternalTable? ==> && r.external.db == external.db && r.external.name == external.name
                                 && r.external.location == external.location
                                 && r.external.fileType == external.fileType
    {
      match this
      case TsKv(s) => TsKv(s.(columns := cols))
      case ExternalTable(s) => ExternalTable(s.(columns := cols))
    }
  }

  /** Putting the old column list back undoes a column change: a table schema is its
      columns plus what a column change keeps. */
  lemma WithColumnsRestores(t: TableSchema, cols: seq<TableColumn>)
    ensures t.WithColumns(cols).WithColumns(t.Columns()) == t
    ensures t.WithColumns(t.Columns()) == t
  {
  }

  /** The descriptor of a database; its storage options are not modelled. */
  datatype DatabaseSchema = DatabaseSchema(name: string)

  predicate HasColumn(cols: seq<TableColumn>, name: string)
  {
    exists i :: 0 <= i < |cols| && cols[i].name == name
  }

  /** Column names are unique within a table schema. */
  predicate UniqueNames(cols: seq<TableColumn>)
  {
    forall i, j :: 0 <= i < j < |cols| ==> cols[i].name != cols[j].name
  }

  /** The position of the first column called `name`. */
  function ColumnIndex(cols: seq<TableColumn>, name: string): (i: nat)
    requires HasColumn(cols, name)
    ensures i < |cols| && cols[i].name == name
    ensures forall j :: 0 <= j < i ==> cols[j].name != name
  {
    if cols[0].name == name then 0
    else
      assert HasColumn(cols[1..], name) by {
        var k :| 0 <= k < |cols| && cols[k].name == name;
        assert cols[1..][k - 1].name == name;
      }
      ColumnIndex(cols[1..], name) + 1
  }

  /** The number of field (value) columns. */
  function FieldCount(cols: seq<TableColumn>): nat
  {
    if |cols| == 0 then 0
    else (if cols[0].columnType.Field? then 1 else 0) + FieldCount(cols[1..])
  }

  lemma {:induction false} FieldCountAppend(a: seq<TableColumn>, b: seq<TableColumn>)
    ensures FieldCount(a + b) == FieldCount(a) + FieldCount(b)
    decreases |a|
  {
    if |a| > 0 {
      assert (a + b)[1..] == a[1..] + b;
      FieldCountAppend(a[1..], b);
    } else {
      assert a + b == b;
    }
  }

  /** Appends a column whose name is not yet taken. */
  function AddColumn(table: string, cols: seq<TableColumn>, column: TableColumn): (r: Result<seq<TableColumn>>)
    ensures r.Err? <==> HasColumn(cols, column.name)
    ensures r.Err? ==> r.error == ColumnAlreadyExists(table, column.name)
    ensures r.Ok? ==> |r.value| == |cols| + 1 && r.value[..|cols|] == cols && r.value[|cols|] == column
  {
    if HasColumn(cols, column.name) then Err(ColumnAlreadyExists(table, column.name))
    else Ok(cols + [column])
  }

  /** Adding keeps column names unique and makes the new name present. */
  lemma AddColumnKeepsUnique(table: string, cols: seq<TableColumn>, column: TableColumn)
    requires UniqueNames(cols)
    ensures var r := AddColumn(table, cols, column);
      r.Ok? ==> UniqueNames(r.value) && HasColumn(r.value, column.name)
  {
    var r := AddColumn(table, cols, column);
    if r.Ok? {
      assert r.value[|cols|].name == column.name;
    }
  }

  /** Replaces the descriptor of the column called `name`. */
  function AlterColumn(table: string, cols: seq<TableColumn>, name: string, column: TableColumn): (r: Result<seq<TableColumn>>)
    ensures r.Err? <==> !HasColumn(cols, name)
    ensures r.Err? ==> r.error == ColumnNotExists(table, name)
    ensures r.Ok? ==> && |r.value| == |cols|
                      && r.value[ColumnIndex(cols, name)] == column
                      && forall j :: 0 <= j < |cols| && j != ColumnIndex(cols, name) ==> r.value[j] == cols[j]
  {
    if !HasColumn(cols, name) then Err(ColumnNotExists(table, name))
    else Ok(cols[ColumnIndex(cols, name) := column])
  }

  /** Over unique names, an alteration keeps the names unique exactly when the new name is
      the old one or is not used by any column; renaming onto another existing column
      succeeds and leaves two columns of that name. */
  lemma {:induction false} AlterColumnUniqueness(table: string, cols: seq<TableColumn>, name: string, column: TableColumn)
    requires UniqueNames(cols)
    ensures var r := AlterColumn(table, cols, name, column);
      r.Ok? ==> (UniqueNames(r.value) <==> (column.name == name || !HasColumn(cols, column.name)))
  {
    var r := AlterColumn(table, cols, name, column);
    if r.Ok? {
      var i := ColumnIndex(cols, name);
      if column.name != name && HasColumn(cols, column.name) {
        var k := ColumnIndex(cols, column.name);
        assert k != i;
        assert r.value[k].name == column.name == r.value[i].name;
        assert !UniqueNames(r.value) by {
          if k < i { assert 0 <= k < i < |r.value|; } else { assert 0 <= i < k < |r.value|; }
        }
      } else {
        forall a, b | 0 <= a < b < |r.value| ensures r.value[a].name != r.value[b].name {
          if a == i {
            assert r.value[b] == cols[b];
          } else if b == i {
            assert r.value[a] == cols[a];
          } else {
            assert r.value[a] == cols[a] && r.value[b] == cols[b];
          }
        }
      }
    }
  }

  /** The time column and the last remaining field column may not be dropped. */
  predicate Droppable(cols: seq<TableColumn>, i: nat)
    requires i < |cols|
  {
    !cols[i].columnType.Time? && !(cols[i].columnType.Field? && FieldCount(cols) <= 1)
  }

  /** Removes the column called `name`, unless the drop policy forbids it. */
  function DropColumn(table: string, cols: seq<TableColumn>, name: string): (r: Result<seq<TableColumn>>)
    ensures r.Err? <==> (!HasColumn(cols, name) || !Droppable(cols, ColumnIndex(cols, name)))
    ensures !HasColumn(cols, name) ==> r == Err(ColumnNotExists(table, name))
    ensures HasColumn(cols, name) && !Droppable(cols, ColumnIndex(cols, name)) ==> r == Err(InvalidColumnDrop(table, name))
    ensures r.Ok? ==> |r.value| == |cols| - 1
    ensures r.Ok? ==> multiset(r.value) == multiset(cols) - multiset{cols[ColumnIndex(cols, name)]}
  {
    if !HasColumn(cols, name) then Err(ColumnNotExists(table, name))
    else
      var i := ColumnIndex(cols, name);
      if !Droppable(cols, i) then Err(InvalidColumnDrop(table, name))
      else
        assert cols == cols[..i] + [cols[i]] + cols[i + 1..];
        Ok(cols[..i] + cols[i + 1..])
  }

  /** Dropping never removes the time column or the last field column: a successful drop
      keeps every time column and at least one field column whenever there was one, and
      every other column keeps its place in order. */
  lemma DropColumnKeepsRequired(table: string, cols: seq<TableColumn>, name: string)
    ensures var r := DropColumn(table, cols, name);
      && (r.Ok? ==> forall c :: c in cols && c.columnType.Time? ==> c in r.value)
      && (r.Ok? && FieldCount(cols) >= 1 ==> FieldCount(r.value) >= 1)
      && (r.Ok? ==> forall k :: 0 <= k < |cols| && k != ColumnIndex(cols, name) ==>
                      r.value[if k < ColumnIndex(cols, name) then k else k - 1] == cols[k])
  {
    var r := DropColumn(table, cols, name);
    if r.Ok? {
      var i := ColumnIndex(cols, name);
      assert cols == cols[..i] + [cols[i]] + cols[i + 1..];
      FieldCountAppend(cols[..i] + [cols[i]], cols[i + 1..]);
      FieldCountAppend(cols[..i], [cols[i]]);
      FieldCountAppend(cols[..i], cols[i + 1..]);
      forall c | c in cols && c.columnType.Time? ensures c in r.value {
        var k :| 0 <= k < |cols| && cols[k] == c;
        if k < i {
          assert r.value[k] == c;
        } else {
          assert k != i;
          assert r.value[k - 1] == c;
        }
      }
    }
  }

  /** With unique names, a successful drop removes the name and keeps the others unique. */
  lemma DropColumnRemoves(table: string, cols: seq<TableColumn>, name: string)
    requires UniqueNames(cols)
    ensures var r := DropColumn(table, cols, name);
      r.Ok? ==> !HasColumn(r.value, name) && UniqueNames(r.value)
  {
    var r := DropColumn(table, cols, name);
    if r.Ok? {
      var i := ColumnIndex(cols, name);
      var rest := r.value;
      forall j | 0 <= j < |rest| ensures rest[j].name != name {
        if j < i { assert rest[j] == cols[j]; } else { assert rest[j] == cols[j + 1]; }
      }
      forall a, b | 0 <= a < b < |rest| ensures rest[a].name != rest[b].name {
        var a' := if a < i then a else a + 1;
        var b' := if b < i then b else b + 1;
        assert rest[a] == cols[a'] && rest[b] == cols[b'];
      }
    }
  }
}
