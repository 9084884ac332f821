/** Importing a table from the database (importer.rb, `import_foreign_keys`,
 *  `import_indexes`, `import_columns` and `import_table`).
 *
 *  What the database reports about a table arrives as records: a foreign key as
 *  a hash, an index as its name and a hash, a column as its name and a hash.
 *  Each method runs over its records in order and adds to the table as it goes;
 *  the functions beside them say what the table holds afterwards.  A failing
 *  `add_column` raises in the source and ends the import, here it ends the loop
 *  with a `Fail` outcome.
 */
module TableImport {
  import opened Options
  import opened Errors
  import opened Entities
  import opened SchemaModel
  import opened Importer
  import opened Sequences

  /** A column as the database reports it: its name and its description. */
  type ColumnRecord = (Value, Opts)

  /** An index as the database reports it: its name and its options, `:columns` among them. */
  type IndexRecord = (Value, Opts)

  // ----- foreign keys -----

  /** The arguments of `add_foreign_key` for one foreign key the database reports:
   *  its `:columns`, its `:table`, and what is left once `:name` is dropped too. */
  function KeyArguments(rec: Opts): (r: (Value, Value, Opts))
    ensures r.0 == Get(rec, "columns") && r.1 == Get(rec, "table")
    ensures r.2 == Reject(rec, {"name", "columns", "table"})
  {
    var (_, o1) := Delete(rec, "name");
    var (columns, o2) := Delete(o1, "columns");
    var (target, o3) := Delete(o2, "table");
    DeleteThrice(rec, "name", "columns", "table");
    (columns, target, o3)
  }

  function KeyStep(t: TableData, rec: Opts): Result<TableData> {
    var (columns, target, opts) := KeyArguments(rec);
    ForeignKeyAdded(t, columns, target, opts)
  }

  /** `import_foreign_keys`: each reported key added in turn, up to the first that fails. */
  function ForeignKeysImported(t: TableData, recs: seq<Opts>): (TableData, Outcome) {
    Fold(t, KeyStep, recs, 0)
  }

  /** The key `add_foreign_key` builds from one reported foreign key. */
  function ImportedKey(rec: Opts): ForeignKey {
    var (columns, target, opts) := KeyArguments(rec);
    NewForeignKey(columns, target, opts)
  }

  // ----- indexes -----

  /** Ruby's `Array#first`: nil for an empty array. */
  function First(vs: seq<Value>): (r: Value)
    ensures |vs| > 0 ==> r == vs[0]
    ensures |vs| == 0 ==> r == Nil
  {
    if |vs| == 0 then Nil else vs[0]
  }

  /** The column lists of the single-column foreign keys, in the keys' order. */
  function ForeignKeyIndexes(ks: seq<ForeignKey>): (r: seq<seq<Value>>)
    ensures forall c :: c in r <==> exists k :: k in ks && k.columns == c && |c| == 1
    ensures |r| <= |ks|
  {
    if ks == [] then []
    else
      var rest := ForeignKeyIndexes(ks[1..]);
      assert forall k :: k in ks <==> k == ks[0] || k in ks[1..];
      if |ks[0].columns| == 1 then [ks[0].columns] + rest else rest
  }

  /** The guard of `import_indexes`: a non-unique index over exactly the columns of a
   *  single-column foreign key and named after that column was created by the key. */
  predicate AutomaticIndex(fks: seq<seq<Value>>, name: Value, columns: Value, opts: Opts) {
    !Truthy(Get(opts, "unique")) && columns.List? && columns.items in fks && name == First(columns.items)
  }

  /** A reported index split into its columns and the rest of its options. */
  function IndexArguments(rec: IndexRecord): (r: (Value, Opts))
    ensures r.0 == Get(rec.1, "columns") && ToMap(r.1) == ToMap(rec.1) - {"columns"}
  {
    Delete(rec.1, "columns")
  }

  predicate IndexKept(fks: seq<seq<Value>>, rec: IndexRecord) {
    var (columns, opts) := IndexArguments(rec);
    !AutomaticIndex(fks, rec.0, columns, opts)
  }

  function ImportedIndex(rec: IndexRecord): Index {
    var (columns, opts) := IndexArguments(rec);
    NewIndex(columns, opts)
  }

  /** The indexes `import_indexes` adds, in the order the database reports them. */
  function KeptIndexes(fks: seq<seq<Value>>, recs: seq<IndexRecord>): (r: seq<Index>)
    ensures |r| <= |recs|
    decreases |recs|
  {
    if recs == [] then []
    else
      var n := |recs| - 1;
      KeptIndexes(fks, recs[..n]) + if IndexKept(fks, recs[n]) then [ImportedIndex(recs[n])] else []
  }

  /** `import_indexes`: the table with the kept indexes appended; the foreign keys the
   *  table already has decide which indexes are automatic. */
  function IndexesImported(t: TableData, recs: seq<IndexRecord>): TableData {
    t.(indexes := t.indexes + KeptIndexes(ForeignKeyIndexes(t.foreignKeys), recs))
  }

  // ----- columns -----

  /** `DEFAULT_CONSTANTS`: database defaults the schema writes its own way. */
  function DefaultConstant(d: Value): (r: Option<Value>)
    ensures r.Some? <==> d == Str("0000-00-00 00:00:00") || d == Str("CURRENT_TIMESTAMP")
    ensures r.Some? ==> Truthy(r.value)
  {
    if d == Str("0000-00-00 00:00:00") then Some(Int(0))
    else if d == Str("CURRENT_TIMESTAMP") then Some(Lit("CURRENT_TIMESTAMP ON UPDATE CURRENT_TIMESTAMP"))
    else None
  }

  /** `DEFAULT_CONSTANTS[ default ] || ( ruby_default.nil? ? default : ruby_default )`. */
  function ImportedDefault(d: Value, rubyDefault: Value): Value {
    var c := DefaultConstant(d);
    if c.Some? && Truthy(c.value) then c.value
    else if rubyDefault.Nil? then d
    else rubyDefault
  }

  /** The `db_type` text the type patterns look at; anything but a string matches none. */
  function TypeString(dbType: Value): string {
    if dbType.Str? then dbType.text else ""
  }

  /** The `add_column` call `import_columns` makes for one reported column. */
  datatype ColumnCall = ColumnCall(ty: Value, name: Value, opts: Opts)

  /** The first stage of the loop of `import_columns`: drop `IGNORED_OPTS`, take out
   *  `:type` and `:db_type` and merge in the options the type literal gives. */
  function TypedOptions(info: Opts, databaseType: string): (r: (Value, Opts))
    ensures var (ty, typeOpts) := RevertTypeLiteral(TypeString(Get(info, "db_type")), Get(info, "type"), databaseType);
      r.0 == ty && r.1 == Merge(Reject(info, {"max_length", "type", "db_type"}), typeOpts)
  {
    var o0 := Reject(info, {"max_length"});
    var (rubyType, o1) := Delete(o0, "type");
    var (dbType, o2) := Delete(o1, "db_type");
    DeleteThrice(info, "max_length", "type", "db_type");
    var (ty, typeOpts) := RevertTypeLiteral(TypeString(dbType), rubyType, databaseType);
    (ty, Merge(o2, typeOpts))
  }

  /** The second stage: `:allow_null` becomes `:null`, and `:default` and `:ruby_default`
   *  become the imported default, which is stated only when it is not nil. */
  function NullAndDefault(o: Opts): (r: Opts)
    ensures var rest := Put(Reject(o, {"allow_null", "default", "ruby_default"}), "null", Get(o, "allow_null"));
      var d := ImportedDefault(Get(o, "default"), Get(o, "ruby_default"));
      r == if d.Nil? then rest else Put(rest, "default", d)
  {
    var (allowNull, o4) := Delete(o, "allow_null");
    var o5 := Put(o4, "null", allowNull);
    var (d, o6) := Delete(o5, "default");
    var (rubyDefault, o7) := Delete(o6, "ruby_default");
    Renamed(o, "allow_null", "null", "default", "ruby_default");
    var def := ImportedDefault(d, rubyDefault);
    if def.Nil? then o7 else Put(o7, "default", def)
  }

  /** `o[ k ] = o.delete( a )`, then `delete( b )` and `delete( c )`. */
  lemma Renamed(o: Opts, a: string, k: string, b: string, c: string)
    requires a != b && a != c && b != c && k != b && k != c
    ensures var o5 := Put(Delete(o, a).1, k, Get(o, a));
      Delete(o5, b).0 == Get(o, b) &&
      Delete(Delete(o5, b).1, c) == (Get(o, c), Put(Reject(o, {a, b, c}), k, Get(o, a)))
  {
    var o4 := Reject(o, {a});
    var o5 := Put(o4, k, Get(o, a));
    DeleteTwice(o5, b, c);
    RenamedGet(o, a, k, b);
    RenamedGet(o, a, k, c);
    RenamedRest(o, a, k, Get(o, a), b, c);
  }

  lemma RenamedGet(o: Opts, a: string, k: string, b: string)
    requires a != b && k != b
    ensures Get(Put(Reject(o, {a}), k, Get(o, a)), b) == Get(o, b)
  {
    GetPut(Reject(o, {a}), k, Get(o, a), b);
    GetReject(o, {a}, b);
  }

  lemma RenamedRest(o: Opts, a: string, k: string, v: Value, b: string, c: string)
    requires k != b && k != c
    ensures Reject(Put(Reject(o, {a}), k, v), {b, c}) == Put(Reject(o, {a, b, c}), k, v)
  {
    RejectPut(Reject(o, {a}), k, v, {b, c});
    RejectTwice(o, {a}, {b, c});
    Union3(a, b, c);
  }

  /** The third stage: the primary key.  A single auto-incrementing key column becomes a
   *  `primary_key` column remembering its type; another single key column keeps its
   *  `:primary_key` option; columns of a key over several columns keep neither. */
  function KeyCall(name: Value, ty: Value, o: Opts, multi: bool): (r: ColumnCall)
    ensures var pk, rest := Get(o, "primary_key"), Reject(o, {"primary_key", "auto_increment"});
      r.name == name &&
      if Truthy(pk) && !multi && Truthy(Get(o, "auto_increment")) then
        r.ty == Sym("primary_key") && r.opts == Merge(rest, [Entry("type", ty)])
      else if Truthy(pk) && !multi then
        r.ty == ty && r.opts == Put(rest, "primary_key", pk)
      else
        r.ty == ty && r.opts == rest
  {
    var (pk, o9) := Delete(o, "primary_key");
    var (autoIncrement, o10) := Delete(o9, "auto_increment");
    DeleteTwice(o, "primary_key", "auto_increment");
    if Truthy(pk) && !multi then
      if Truthy(autoIncrement) then ColumnCall(Sym("primary_key"), name, Merge(o10, [Entry("type", ty)]))
      else ColumnCall(ty, name, Put(o10, "primary_key", pk))
    else ColumnCall(ty, name, o10)
  }

  /** The body of the loop of `import_columns` for one column, `multi` telling whether
   *  the table's primary key spans several columns. */
  function ImportedColumn(name: Value, info: Opts, multi: bool, databaseType: string): ColumnCall {
    var (ty, o) := TypedOptions(info, databaseType);
    KeyCall(name, ty, NullAndDefault(o), multi)
  }

  /** The names of the columns the database marks as primary key, in order. */
  function PrimaryKeyNames(recs: seq<ColumnRecord>): (r: seq<Value>)
    ensures |r| <= |recs|
  {
    if recs == [] then []
    else
      var rest := PrimaryKeyNames(recs[1..]);
      if Truthy(Get(recs[0].1, "primary_key")) then [recs[0].0] + rest else rest
  }

  /** The column an `add_column` call adds. */
  function AsColumn(c: ColumnCall): Column {
    Column(c.ty, c.name, c.opts)
  }

  /** The column `import_columns` adds for one reported column. */
  function ColumnOf(multi: bool, databaseType: string): ColumnRecord -> Column {
    (rec: ColumnRecord) => AsColumn(ImportedColumn(rec.0, rec.1, multi, databaseType))
  }

  /** The columns `import_columns` adds for the reported columns, one each, in order. What
   *  a column becomes depends only on what the database reports, not on the table. */
  function ImportedColumns(recs: seq<ColumnRecord>, multi: bool, databaseType: string): seq<Column> {
    Mapped(ColumnOf(multi, databaseType), recs)
  }

  /** One `add_column` call of `import_columns`. */
  function AddColumnStep(t: TableData, c: Column): Result<TableData> {
    ColumnAdded(t, c.ty, c.name, c.opts)
  }

  /** `import_columns`: each reported column added in turn, up to the first that fails,
   *  then, for a primary key over several columns, a `primary_key` over their names. */
  function ColumnsImported(t: TableData, recs: seq<ColumnRecord>, databaseType: string): (TableData, Outcome) {
    var names := PrimaryKeyNames(recs);
    var multi := |names| > 1;
    var (t', o) := Fold(t, AddColumnStep, ImportedColumns(recs, multi, databaseType), 0);
    CompoundKeyAdded(t', o, names, multi)
  }

  /** The end of `import_columns`: once every column is added, a key over several columns
   *  becomes a `primary_key` over their names. */
  function CompoundKeyAdded(t: TableData, o: Outcome, names: seq<Value>, multi: bool): (TableData, Outcome) {
    if o.Fail? || !multi then (t, o)
    else
      match ColumnAdded(t, Sym("primary_key"), List(names), [])
      case Ok(t') => (t', Pass)
      case Err(e) => (t, Fail(e))
  }

  // ----- a whole table -----

  /** `import_table`: foreign keys first, so that the indexes they created can be told
   *  apart, then indexes, then columns. */
  function TableImported(t: TableData, keys: seq<Opts>, indexes: seq<IndexRecord>, columns: seq<ColumnRecord>,
                         databaseType: string): (TableData, Outcome)
  {
    var (t1, o) := ForeignKeysImported(t, keys);
    if o.Fail? then (t1, o) else ColumnsImported(IndexesImported(t1, indexes), columns, databaseType)
  }

  // ----- the importer's methods on a table -----

  /** `import_foreign_keys( table )` over what the database reports for the table. */
  method ImportForeignKeys(table: Table, recs: seq<Opts>) returns (o: Outcome)
    requires table.Valid()
    modifies table
    ensures table.Valid()
    ensures (table.Data(), o) == ForeignKeysImported(old(table.Data()), recs)
  {
    var i := 0;
    while i < |recs|
      invariant 0 <= i <= |recs| && table.Valid()
      invariant ForeignKeysImported(old(table.Data()), recs) == Fold(table.Data(), KeyStep, recs, i)
    {
      var (columns, target, opts) := KeyArguments(recs[i]);
      o := table.AddForeignKey(columns, target, opts);
      if o.Fail? {
        return;
      }
      i := i + 1;
    }
    o := Pass;
  }

  /** `import_indexes( table )` over what the database reports for the table. */
  method ImportIndexes(table: Table, recs: seq<IndexRecord>)
    modifies table
    ensures table.Data() == IndexesImported(old(table.Data()), recs)
  {
    var fks := ForeignKeyIndexes(table.foreignKeys);
    ghost var t0 := table.Data();
    var i := 0;
    while i < |recs|
      invariant 0 <= i <= |recs|
      invariant table.Data() == t0.(indexes := t0.indexes + KeptIndexes(fks, recs[..i]))
    {
      KeptIndexesStep(fks, recs, i);
      ghost var before := KeptIndexes(fks, recs[..i]);
      var (columns, opts) := IndexArguments(recs[i]);
      if !AutomaticIndex(fks, recs[i].0, columns, opts) {
        table.AddIndex(columns, opts);
        Assoc(t0.indexes, before, [ImportedIndex(recs[i])]);
      } else {
        NoneAppended(before);
      }
      i := i + 1;
    }
    WholeSlice(recs);
  }

  lemma KeptIndexesStep(fks: seq<seq<Value>>, recs: seq<IndexRecord>, i: nat)
    requires i < |recs|
    ensures KeptIndexes(fks, recs[..i + 1]) ==
      KeptIndexes(fks, recs[..i]) + if IndexKept(fks, recs[i]) then [ImportedIndex(recs[i])] else []
  {
    assert recs[..i + 1][..i] == recs[..i];
  }

  /** `import_columns( table )` over what the database reports for the table. */
  method ImportColumns(table: Table, recs: seq<ColumnRecord>, databaseType: string) returns (o: Outcome)
    requires table.Valid()
    modifies table
    ensures table.Valid()
    ensures (table.Data(), o) == ColumnsImported(old(table.Data()), recs, databaseType)
  {
    var names := PrimaryKeyNames(recs);
    o := AddColumnsThenKey(table, recs, ColumnOf(|names| > 1, databaseType), names);
  }

  /** `import_columns( table )` once it knows the names of the key columns and what each
   *  reported column becomes. */
  method AddColumnsThenKey<R>(table: Table, recs: seq<R>, f: R -> Column, names: seq<Value>) returns (o: Outcome)
    requires table.Valid()
    modifies table
    ensures table.Valid()
    ensures var r := Fold(old(table.Data()), AddColumnStep, Mapped(f, recs), 0);
      (table.Data(), o) == CompoundKeyAdded(r.0, r.1, names, |names| > 1)
  {
    o := AddColumns(table, Mapped(f, recs));
    if o.Fail? {
      return;
    }
    o := AddCompoundKey(table, names, |names| > 1);
  }

  /** The loop of `import_columns( table )`: `add_column` for each column in turn, up to
   *  the first that fails. */
  method AddColumns(table: Table, cols: seq<Column>) returns (o: Outcome)
    requires table.Valid()
    modifies table
    ensures table.Valid()
    ensures (table.Data(), o) == Fold(old(table.Data()), AddColumnStep, cols, 0)
  {
    o := Pass;
    var i := 0;
    while i < |cols|
      invariant 0 <= i <= |cols| && table.Valid() && o.Pass?
      invariant Fold(old(table.Data()), AddColumnStep, cols, 0) == Fold(table.Data(), AddColumnStep, cols, i)
    {
      o := table.AddColumn(cols[i].ty, cols[i].name, cols[i].opts);
      if o.Fail? {
        return;
      }
      i := i + 1;
    }
  }

  /** The end of `import_columns( table )`. */
  method AddCompoundKey(table: Table, names: seq<Value>, multi: bool) returns (o: Outcome)
    requires table.Valid()
    modifies table
    ensures table.Valid()
    ensures (table.Data(), o) == CompoundKeyAdded(old(table.Data()), Pass, names, multi)
  {
    if multi {
      o := table.AddColumn(Sym("primary_key"), List(names), []);
    } else {
      o := Pass;
    }
  }

  /** `import_table( table )`. */
  method ImportTable(table: Table, keys: seq<Opts>, indexes: seq<IndexRecord>, columns: seq<ColumnRecord>,
                     databaseType: string) returns (o: Outcome)
    requires table.Valid()
    modifies table
    ensures table.Valid()
    ensures (table.Data(), o) == TableImported(old(table.Data()), keys, indexes, columns, databaseType)
  {
    o := ImportForeignKeys(table, keys);
    if o.Fail? {
      return;
    }
    ImportIndexes(table, indexes);
    o := ImportColumns(table, columns, databaseType);
  }

  // ----- what a column is imported as -----

  /** The options a reported column gives up: `IGNORED_OPTS` and those `import_columns`
   *  rebuilds or drops. */
  const ConsumedKeys: set<string> :=
    {"max_length", "type", "db_type", "allow_null", "default", "ruby_default", "primary_key", "auto_increment"}

  /** `m` with `:default` set to `d`, unless `d` is nil. */
  ghost function WithDefault(m: map<string, Value>, d: Value): map<string, Value> {
    if d.Nil? then m else m["default" := d]
  }

  /** The options of an imported column before its primary key is dealt with: the reported
   *  ones less the consumed ones, the options of its type, `:null` from `:allow_null`, and
   *  `:default` where the imported default is not nil. */
  ghost function PlainOptions(info: Opts, typeOpts: Opts): map<string, Value> {
    WithDefault(((ToMap(info) - ConsumedKeys) + ToMap(typeOpts))["null" := Get(info, "allow_null")],
      ImportedDefault(Get(info, "default"), Get(info, "ruby_default")))
  }

  /** The `add_column` call for one reported column: its name; its type, or `primary_key`
   *  for a single auto-incrementing key column, which keeps its type as `:type`; its
   *  plain options, plus `:primary_key` for another single key column. */
  lemma ImportedColumnIs(name: Value, info: Opts, multi: bool, databaseType: string)
    ensures var r := ImportedColumn(name, info, multi, databaseType);
      var (ty, typeOpts) := RevertTypeLiteral(TypeString(Get(info, "db_type")), Get(info, "type"), databaseType);
      var pk, plain := Get(info, "primary_key"), PlainOptions(info, typeOpts);
      r.name == name &&
      if Truthy(pk) && !multi && Truthy(Get(info, "auto_increment")) then
        r.ty == Sym("primary_key") && ToMap(r.opts) == plain["type" := ty]
      else if Truthy(pk) && !multi then
        r.ty == ty && ToMap(r.opts) == plain["primary_key" := pk]
      else
        r.ty == ty && ToMap(r.opts) == plain
  {
    var (ty, typeOpts) := RevertTypeLiteral(TypeString(Get(info, "db_type")), Get(info, "type"), databaseType);
    var o8 := NullAndDefault(Merge(Reject(info, {"max_length", "type", "db_type"}), typeOpts));
    PlainMap(info, typeOpts);
    KeyCallMap(name, ty, o8, multi);
  }

  /** What `KeyCall` makes of the options it is given. */
  lemma KeyCallMap(name: Value, ty: Value, o: Opts, multi: bool)
    ensures var r, pk, plain := KeyCall(name, ty, o, multi), Get(o, "primary_key"), ToMap(Reject(o, {"primary_key", "auto_increment"}));
      r.name == name &&
      if Truthy(pk) && !multi && Truthy(Get(o, "auto_increment")) then
        r.ty == Sym("primary_key") && ToMap(r.opts) == plain["type" := ty]
      else if Truthy(pk) && !multi then
        r.ty == ty && ToMap(r.opts) == plain["primary_key" := pk]
      else
        r.ty == ty && ToMap(r.opts) == plain
  {
    var rest := Reject(o, {"primary_key", "auto_increment"});
    if Truthy(Get(o, "primary_key")) && !multi && Truthy(Get(o, "auto_increment")) {
      MergedOne(rest, "type", ty);
    }
  }

  lemma MergedOne(o: Opts, k: string, v: Value)
    ensures ToMap(Merge(o, [Entry(k, v)])) == ToMap(o)[k := v]
  {
    assert ToMap([Entry(k, v)]) == map[k := v];
    assert UniqueKeys([Entry(k, v)]);
  }

  /** The options `KeyCall` starts from, for a reported column, are its plain options. */
  lemma PlainMap(info: Opts, typeOpts: Opts)
    requires UniqueKeys(typeOpts) && forall k :: k in ToMap(typeOpts) ==> k in TypeOptionKeys
    ensures var o8 := NullAndDefault(Merge(Reject(info, {"max_length", "type", "db_type"}), typeOpts));
      ToMap(Reject(o8, {"primary_key", "auto_increment"})) == PlainOptions(info, typeOpts) &&
      Get(o8, "primary_key") == Get(info, "primary_key") && Get(o8, "auto_increment") == Get(info, "auto_increment")
  {
    PlainMapKeys(info, typeOpts);
    var o3 := Merge(Reject(info, {"max_length", "type", "db_type"}), typeOpts);
    MergedMap(info, typeOpts);
    NullDefaultMap(o3);
    ConsumedKeysAre();
    TypeKeysNotConsumed();
    PlainStages(info, typeOpts, o3, NullAndDefault(o3), {"max_length", "type", "db_type"},
      {"allow_null", "default", "ruby_default"}, {"primary_key", "auto_increment"}, ConsumedKeys,
      "null", Get(info, "allow_null"), ImportedDefault(Get(info, "default"), Get(info, "ruby_default")));
  }

  lemma PlainMapKeys(info: Opts, typeOpts: Opts)
    requires UniqueKeys(typeOpts) && forall k :: k in ToMap(typeOpts) ==> k in TypeOptionKeys
    ensures var o8 := NullAndDefault(Merge(Reject(info, {"max_length", "type", "db_type"}), typeOpts));
      Get(o8, "primary_key") == Get(info, "primary_key") && Get(o8, "auto_increment") == Get(info, "auto_increment")
  {
    var o3 := Merge(Reject(info, {"max_length", "type", "db_type"}), typeOpts);
    MergedMap(info, typeOpts);
    NullAndDefaultGet(o3, "primary_key");
    NullAndDefaultGet(o3, "auto_increment");
  }

  /** The map arithmetic behind `PlainOptions`, over any keys. */
  lemma PlainStages(info: Opts, typeOpts: Opts, o3: Opts, o8: Opts, A: set<string>, B: set<string>, C: set<string>,
                    K: set<string>, nk: string, nv: Value, d: Value)
    requires ToMap(o3) == (ToMap(info) - A) + ToMap(typeOpts)
    requires ToMap(o8) == WithDefault((ToMap(o3) - B)[nk := nv], d)
    requires A + B + C == K && forall j :: j in TypeOptionKeys ==> j !in K
    requires forall j :: j in ToMap(typeOpts) ==> j in TypeOptionKeys
    requires "default" !in C && nk !in C
    ensures ToMap(Reject(o8, C)) == WithDefault(((ToMap(info) - K) + ToMap(typeOpts))[nk := nv], d)
  {
    var X := (ToMap(o3) - B)[nk := nv];
    WithDefaultMinus(X, d, C);
    Stages(ToMap(info), ToMap(typeOpts), A, B, C, K, nk, nv);
  }

  /** The merge of the type options keeps every key `NullAndDefault` and `KeyCall` look at. */
  lemma MergedMap(info: Opts, typeOpts: Opts)
    requires UniqueKeys(typeOpts) && forall k :: k in ToMap(typeOpts) ==> k in TypeOptionKeys
    ensures var o3 := Merge(Reject(info, {"max_length", "type", "db_type"}), typeOpts);
      ToMap(o3) == (ToMap(info) - {"max_length", "type", "db_type"}) + ToMap(typeOpts) &&
      Get(o3, "allow_null") == Get(info, "allow_null") && Get(o3, "default") == Get(info, "default") &&
      Get(o3, "ruby_default") == Get(info, "ruby_default") && Get(o3, "primary_key") == Get(info, "primary_key") &&
      Get(o3, "auto_increment") == Get(info, "auto_increment")
  {
    var A := {"max_length", "type", "db_type"};
    ReadKeysNotTypeKeys();
    MergedGet(info, A, typeOpts, "allow_null");
    MergedGet(info, A, typeOpts, "default");
    MergedGet(info, A, typeOpts, "ruby_default");
    MergedGet(info, A, typeOpts, "primary_key");
    MergedGet(info, A, typeOpts, "auto_increment");
  }

  lemma NullDefaultMap(o: Opts)
    ensures ToMap(NullAndDefault(o)) ==
      WithDefault((ToMap(o) - {"allow_null", "default", "ruby_default"})["null" := Get(o, "allow_null")],
        ImportedDefault(Get(o, "default"), Get(o, "ruby_default")))
  {
  }

  lemma WithDefaultMinus(m: map<string, Value>, d: Value, C: set<string>)
    requires "default" !in C
    ensures WithDefault(m, d) - C == WithDefault(m - C, d)
  {
    if !d.Nil? {
      RemoveThenUpdate(m, C, "default", d);
    }
  }

  lemma ConsumedKeysAre()
    ensures {"max_length", "type", "db_type"} + {"allow_null", "default", "ruby_default"} + {"primary_key", "auto_increment"} == ConsumedKeys
  {
  }

  lemma TypeKeysNotConsumed()
    ensures forall k :: k in TypeOptionKeys ==> k !in ConsumedKeys
    ensures var C := {"primary_key", "auto_increment"}; "default" !in C && "null" !in C
  {
  }

  /** The keys read after the merge are not type options. */
  lemma ReadKeysNotTypeKeys()
    ensures "allow_null" !in TypeOptionKeys && "default" !in TypeOptionKeys && "ruby_default" !in TypeOptionKeys
    ensures "primary_key" !in TypeOptionKeys && "auto_increment" !in TypeOptionKeys
    ensures var A := {"max_length", "type", "db_type"};
      "allow_null" !in A && "default" !in A && "ruby_default" !in A && "primary_key" !in A && "auto_increment" !in A
  {
  }

  /** Keys the type options never hold come through the merge unchanged. */
  lemma MergedGet(info: Opts, A: set<string>, typeOpts: Opts, k: string)
    requires UniqueKeys(typeOpts) && forall j :: j in ToMap(typeOpts) ==> j in TypeOptionKeys
    requires k !in A && k !in TypeOptionKeys
    ensures Get(Merge(Reject(info, A), typeOpts), k) == Get(info, k)
  {
    assert k !in ToMap(typeOpts);
  }

  lemma NullAndDefaultGet(o: Opts, k: string)
    requires k != "allow_null" && k != "default" && k != "ruby_default" && k != "null"
    ensures Get(NullAndDefault(o), k) == Get(o, k)
  {
    PutsOverReject(o, {"allow_null", "default", "ruby_default"}, "null", Get(o, "allow_null"),
      "default", ImportedDefault(Get(o, "default"), Get(o, "ruby_default")), k);
  }

  lemma PutsOverReject(o: Opts, B: set<string>, n: string, v: Value, dk: string, d: Value, k: string)
    requires k !in B && k != n && k != dk
    ensures Get(Put(Reject(o, B), n, v), k) == Get(o, k)
    ensures Get(Put(Put(Reject(o, B), n, v), dk, d), k) == Get(o, k)
  {
    GetPut(Put(Reject(o, B), n, v), dk, d, k);
    GetPut(Reject(o, B), n, v, k);
    GetReject(o, B, k);
  }

  /** The map arithmetic behind `PlainOptions`. */
  lemma Stages(m: map<string, Value>, T: map<string, Value>, A: set<string>, B: set<string>, C: set<string>, K: set<string>,
                k: string, v: Value)
    requires A + B + C == K && forall j :: j in T ==> j !in K
    requires k !in C
    ensures ((m - A) + T - B)[k := v] - C == ((m - K) + T)[k := v]
  {
  }
}
