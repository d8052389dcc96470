/** Partial table references and their resolution against a (catalog, database) context,
    as the planner's TableReference provides them: `t`, `db.t` or `cat.db.t`. */
module TableReferences {

  /** A reference as written: zero, one or two qualifiers in front of the table name. */
  datatype TableReference =
    | Bare(table: string)
    | Partial(schema: string, table: string)
    | Full(catalog: string, schema: string, table: string)

  /** A reference with every component filled in. */
  datatype ResolvedTableReference = ResolvedTableReference(catalog: string, schema: string, table: string)

  /** The pieces of `s` between the dots, like `str::split('.')`: never empty,
      and no piece contains a dot. */
  function Split(s: string): (parts: seq<string>)
    ensures |parts| >= 1
    ensures forall i :: 0 <= i < |parts| ==> '.' !in parts[i]
    decreases |s|
  {
    if |s| == 0 then [""]
    else
      var rest := Split(s[1..]);
      if s[0] == '.' then [""] + rest
      else [[s[0]] + rest[0]] + rest[1..]
  }

  /** The pieces glued back together with dots in between. */
  function Join(parts: seq<string>): string
    requires |parts| >= 1
    decreases |parts|
  {
    if |parts| == 1 then parts[0] else parts[0] + "." + Join(parts[1..])
  }

  /** Splitting loses nothing: joining the pieces gives the string back. */
  lemma {:induction false} JoinSplit(s: string)
    ensures Join(Split(s)) == s
    decreases |s|
  {
    if |s| > 0 {
      var rest := Split(s[1..]);
      JoinSplit(s[1..]);
      if s[0] == '.' {
        assert ([""] + rest)[1..] == rest;
      } else if |rest| > 1 {
        var parts := [[s[0]] + rest[0]] + rest[1..];
        assert parts[1..] == rest[1..];
        assert Join(rest) == rest[0] + "." + Join(rest[1..]);
      }
    }
  }

  /** A dot-free string is a single piece. */
  lemma {:induction false} SplitNoDot(a: string)
    requires '.' !in a
    ensures Split(a) == [a]
    decreases |a|
  {
    if |a| > 0 {
      SplitNoDot(a[1..]);
      assert [a[0]] + a[1..] == a;
    }
  }

  /** A dot-free prefix followed by a dot is split off as the first piece. */
  lemma {:induction false} SplitPrefix(a: string, b: string)
    requires '.' !in a
    ensures Split(a + "." + b) == [a] + Split(b)
    decreases |a|
  {
    var s := a + "." + b;
    if |a| == 0 {
      assert s[1..] == b;
    } else {
      assert s[1..] == a[1..] + "." + b;
      SplitPrefix(a[1..], b);
      assert [a[0]] + a[1..] == a;
    }
  }

  /** Dot-free pieces survive a join followed by a split. */
  lemma {:induction false} SplitJoin(parts: seq<string>)
    requires |parts| >= 1
    requires forall i :: 0 <= i < |parts| ==> '.' !in parts[i]
    ensures Split(Join(parts)) == parts
    decreases |parts|
  {
    if |parts| == 1 {
      SplitNoDot(parts[0]);
    } else {
      SplitJoin(parts[1..]);
      SplitPrefix(parts[0], Join(parts[1..]));
      assert [parts[0]] + parts[1..] == parts;
    }
  }

  /** `From<&str>`: one piece is a bare name, two a `db.t`, three a `cat.db.t`;
      any other number of pieces keeps the whole string as a bare table name. */
  function Parse(s: string): (r: TableReference)
    ensures (r.Bare? && r.table == s) || (!r.Bare? && DotFree(r))
    ensures '.' in s && r.Bare? ==> |Split(s)| > 3
  {
    var parts := Split(s);
    match |parts|
    case 1 => JoinSplit(s); Bare(s)
    case 2 => Partial(parts[0], parts[1])
    case 3 => Full(parts[0], parts[1], parts[2])
    case _ => Bare(s)
  }

  /** The reference written out with dots, as a user would type it. */
  function Format(t: TableReference): string
  {
    match t
    case Bare(table) => table
    case Partial(schema, table) => schema + "." + table
    case Full(catalog, schema, table) => catalog + "." + schema + "." + table
  }

  /** No component contains a dot. */
  predicate DotFree(t: TableReference)
  {
    match t
    case Bare(table) => '.' !in table
    case Partial(schema, table) => '.' !in schema && '.' !in table
    case Full(catalog, schema, table) => '.' !in catalog && '.' !in schema && '.' !in table
  }

  /** Parsing a written-out reference with dot-free components gives it back. */
  lemma ParseFormat(t: TableReference)
    requires DotFree(t)
    ensures Parse(Format(t)) == t
  {
    match t
    case Bare(table) =>
      SplitJoin([table]);
    case Partial(schema, table) =>
      SplitJoin([schema, table]);
    case Full(catalog, schema, table) =>
      var parts := [catalog, schema, table];
      assert Join(parts[1..]) == schema + "." + table;
      assert Format(t) == Join(parts);
      SplitJoin(parts);
      assert Split(Format(t)) == parts;
  }

  /** Every string is the written-out form of what it parses to, whatever its dots. */
  lemma FormatParse(s: string)
    ensures Format(Parse(s)) == s
  {
    var parts := Split(s);
    JoinSplit(s);
    if |parts| == 2 {
      assert Join(parts) == parts[0] + "." + Join(parts[1..]);
    } else if |parts| == 3 {
      assert Join(parts) == parts[0] + "." + Join(parts[1..]);
      assert Join(parts[1..]) == parts[1] + "." + Join(parts[2..]);
    }
  }

  /** A dot-free name is a bare table name. */
  lemma ParseDotFree(s: string)
    requires '.' !in s
    ensures Parse(s) == Bare(s)
  {
    SplitNoDot(s);
  }

  /** Fills the components the reference leaves out from the current context. */
  function Resolve(t: TableReference, defaultCatalog: string, defaultSchema: string): (r: ResolvedTableReference)
    ensures r.table == t.table
  {
    match t
    case Bare(table) => ResolvedTableReference(defaultCatalog, defaultSchema, table)
    case Partial(schema, table) => ResolvedTableReference(defaultCatalog, schema, table)
    case Full(catalog, schema, table) => ResolvedTableReference(catalog, schema, table)
  }

  /** The fully qualified reference naming a resolved triple. */
  function Qualified(n: ResolvedTableReference): TableReference
  {
    Full(n.catalog, n.schema, n.table)
  }

  /** A fully qualified reference resolves to itself in every context, and a written
      component always wins over the context. */
  lemma ResolveKeepsWritten(t: TableReference, catalog: string, schema: string)
    ensures t.Full? ==> Resolve(t, catalog, schema) == ResolvedTableReference(t.catalog, t.schema, t.table)
    ensures !t.Bare? ==> Resolve(t, catalog, schema).schema == t.schema
    ensures t.Bare? ==> Resolve(t, catalog, schema).schema == schema
    ensures !t.Full? ==> Resolve(t, catalog, schema).catalog == catalog
  {
  }

  /** Resolution is idempotent: resolving the qualified form of a resolved reference,
      in any other context, changes nothing. */
  lemma ResolveIdempotent(t: TableReference, c1: string, s1: string, c2: string, s2: string)
    ensures Resolve(Qualified(Resolve(t, c1, s1)), c2, s2) == Resolve(t, c1, s1)
  {
  }
}
