/** Properties of importing a table (importer.rb).
 *
 *  What each reported column becomes, which indexes survive next to the
 *  foreign keys, and what the table holds once its foreign keys and columns
 *  are imported.
 */
module ImportProperties {
  import opened Options
  import opened Errors
  import opened Entities
  import opened SchemaModel
  import opened Importer
  import opened TableImport
  import opened Sequences

  // ----- defaults -----

  /** The default a column is imported with: the schema's own spelling of the two special
   *  database defaults, whatever Ruby value Sequel gave them; otherwise Sequel's Ruby
   *  value where it has one, and the database's own text where it has none. */
  lemma DefaultRules(d: Value, rubyDefault: Value)
    ensures d == Str("0000-00-00 00:00:00") ==> ImportedDefault(d, rubyDefault) == Int(0)
    ensures d == Str("CURRENT_TIMESTAMP") ==>
      ImportedDefault(d, rubyDefault) == Lit("CURRENT_TIMESTAMP ON UPDATE CURRENT_TIMESTAMP")
    ensures DefaultConstant(d).None? ==> ImportedDefault(d, rubyDefault) == if rubyDefault.Nil? then d else rubyDefault
  {
  }

  // ----- the options of one column -----

  /** What the plain options of a column hold: `:null` is the reported `:allow_null`;
   *  `:default` is there exactly when the imported default is not nil; every option of the
   *  type is there with its value; the consumed options are gone; and every other reported
   *  option is there, unchanged. */
  lemma PlainOptionsHold(info: Opts, typeOpts: Opts)
    requires forall k :: k in ToMap(typeOpts) ==> k in TypeOptionKeys
    ensures var p, d := PlainOptions(info, typeOpts), ImportedDefault(Get(info, "default"), Get(info, "ruby_default"));
      "null" in p && p["null"] == Get(info, "allow_null") &&
      ("default" in p <==> !d.Nil?) && (!d.Nil? ==> p["default"] == d)
    ensures var p := PlainOptions(info, typeOpts);
      forall k :: k in ToMap(typeOpts) ==> k in p && p[k] == ToMap(typeOpts)[k]
    ensures var p := PlainOptions(info, typeOpts);
      forall k :: k in ConsumedKeys && k != "default" ==> k !in p
    ensures var p := PlainOptions(info, typeOpts);
      forall k :: k !in ConsumedKeys && k !in TypeOptionKeys && k != "null" ==>
        (k in p <==> k in ToMap(info)) && (k in p ==> p[k] == ToMap(info)[k])
  {
    TypeKeysApart();
    var T := ToMap(typeOpts);
    assert forall k :: k in T ==> k != "null" && k != "default" && k !in ConsumedKeys;
    PlainParts(ToMap(info), T, ConsumedKeys, Get(info, "allow_null"),
      ImportedDefault(Get(info, "default"), Get(info, "ruby_default")));
  }

  lemma TypeKeysApart()
    ensures forall k :: k in TypeOptionKeys ==> k != "null" && k != "default" && k !in ConsumedKeys
    ensures "null" !in ConsumedKeys && "default" in ConsumedKeys
  {
  }

  /** The same, for any maps. */
  lemma PlainParts(m: map<string, Value>, T: map<string, Value>, K: set<string>, v: Value, d: Value)
    requires forall k :: k in T ==> k != "null" && k != "default" && k !in K
    requires "null" !in K && "default" in K
    ensures var p := WithDefault(((m - K) + T)["null" := v], d);
      "null" in p && p["null"] == v && ("default" in p <==> !d.Nil?) && (!d.Nil? ==> p["default"] == d) &&
      (forall k :: k in T ==> k in p && p[k] == T[k]) &&
      (forall k :: k in K && k != "default" ==> k !in p) &&
      (forall k :: k !in K && k !in T && k != "null" ==> (k in p <==> k in m) && (k in p ==> p[k] == m[k]))
  {
  }

  /** When the primary key spans several columns, no column keeps `:primary_key` and
   *  none is turned into a `primary_key` column by auto-increment: the key is added
   *  afterwards, over all their names. */
  lemma NoKeyOptionsForCompoundKey(name: Value, info: Opts, databaseType: string)
    ensures var r := ImportedColumn(name, info, true, databaseType);
      var ty := RevertTypeLiteral(TypeString(Get(info, "db_type")), Get(info, "type"), databaseType).0;
      r.ty == ty && "primary_key" !in ToMap(r.opts)
  {
    var (ty, typeOpts) := RevertTypeLiteral(TypeString(Get(info, "db_type")), Get(info, "type"), databaseType);
    ImportedColumnIs(name, info, true, databaseType);
    PlainOptionsHold(info, typeOpts);
    KeyIsConsumed();
  }

  lemma KeyIsConsumed()
    ensures "primary_key" in ConsumedKeys && "primary_key" != "default"
  {
  }

  // ----- the columns of a table -----

  /** Each imported column has the name the database reports. */
  lemma ImportedColumnNames(recs: seq<ColumnRecord>, multi: bool, databaseType: string)
    ensures forall i :: 0 <= i < |recs| ==> ColumnNames(ImportedColumns(recs, multi, databaseType))[i] == recs[i].0
  {
    forall i | 0 <= i < |recs|
      ensures ColumnNames(ImportedColumns(recs, multi, databaseType))[i] == recs[i].0
    {
      MappedAt(ColumnOf(multi, databaseType), recs, i);
      ImportedColumnIs(recs[i].0, recs[i].1, multi, databaseType);
    }
  }

  /** The names `PrimaryKeyNames` collects are those of the reported key columns. */
  lemma {:induction false} PrimaryKeyNamesAre(recs: seq<ColumnRecord>)
    ensures forall n :: n in PrimaryKeyNames(recs) <==>
      exists i :: 0 <= i < |recs| && recs[i].0 == n && Truthy(Get(recs[i].1, "primary_key"))
  {
    if recs != [] {
      PrimaryKeyNamesAre(recs[1..]);
      forall n | n in PrimaryKeyNames(recs)
        ensures exists i :: 0 <= i < |recs| && recs[i].0 == n && Truthy(Get(recs[i].1, "primary_key"))
      {
        if n !in PrimaryKeyNames(recs[1..]) {
          assert recs[0].0 == n && Truthy(Get(recs[0].1, "primary_key"));
        } else {
          var i :| 0 <= i < |recs[1..]| && recs[1..][i].0 == n && Truthy(Get(recs[1..][i].1, "primary_key"));
          assert recs[i + 1] == recs[1..][i];
        }
      }
      forall n | exists i :: 0 <= i < |recs| && recs[i].0 == n && Truthy(Get(recs[i].1, "primary_key"))
        ensures n in PrimaryKeyNames(recs)
      {
        var i :| 0 <= i < |recs| && recs[i].0 == n && Truthy(Get(recs[i].1, "primary_key"));
        if i > 0 {
          assert recs[1..][i - 1] == recs[i];
        }
      }
    }
  }

  lemma DistinctSnoc(cs: seq<Column>, c: Column)
    ensures DistinctNames(cs + [c]) <==> DistinctNames(cs) && c.name !in ColumnNames(cs)
  {
    var all := cs + [c];
    if c.name in ColumnNames(cs) {
      var j :| 0 <= j < |cs| && ColumnNames(cs)[j] == c.name;
      assert all[j].name == all[|cs|].name;
    }
    if DistinctNames(cs + [c]) {
      assert forall i, j :: 0 <= i < j < |cs| ==> cs[i] == all[i] && cs[j] == all[j];
    }
  }

  /** Distinct names stay distinct in a prefix. */
  lemma DistinctPrefix(cs: seq<Column>, ds: seq<Column>)
    ensures DistinctNames(cs + ds) ==> DistinctNames(cs)
  {
    assert forall i :: 0 <= i < |cs| ==> (cs + ds)[i] == cs[i];
  }

  /** `r` is the table `t` and the outcome of giving it the columns `all`: the names
   *  must be distinct, and then the table holds exactly those columns. */
  predicate AddsColumns(r: (TableData, Outcome), t: TableData, all: seq<Column>) {
    (r.1.Pass? <==> DistinctNames(all)) && (r.1.Pass? ==> r.0 == t.(columns := all))
  }

  /** The loop of `import_columns` from the `i`-th column on: it gets through exactly
   *  when the names stay distinct, and then it has appended the columns in order. */
  lemma {:induction false} FoldColumns(t: TableData, cs: seq<Column>, i: nat)
    requires i <= |cs| && DistinctNames(t.columns)
    ensures AddsColumns(Fold(t, AddColumnStep, cs, i), t, t.columns + cs[i..])
    decreases |cs| - i
  {
    if i == |cs| {
      assert cs[i..] == [];
      NoneAppended(t.columns);
    } else {
      var col := cs[i];
      ColumnAddedKeepsDistinct(t, col.ty, col.name, col.opts);
      var later := cs[i + 1..];
      assert cs[i..] == [col] + later;
      Assoc(t.columns, [col], later);
      if col.name in ColumnNames(t.columns) {
        DistinctPrefix(t.columns + [col], later);
        DistinctSnoc(t.columns, col);
      } else {
        FoldColumns(t.(columns := t.columns + [col]), cs, i + 1);
      }
    }
  }

  /** `import_columns`: it gets through exactly when the table's names and the reported
   *  names (with the compound key's list of names, if there is one) are all distinct;
   *  then the table holds one column per reported column, in order, followed by a
   *  `primary_key` column over the key's names when the key spans several columns. */
  lemma ColumnsImportedAre(t: TableData, recs: seq<ColumnRecord>, databaseType: string)
    requires DistinctNames(t.columns)
    ensures var names := PrimaryKeyNames(recs);
      var multi := |names| > 1;
      AddsColumns(ColumnsImported(t, recs, databaseType), t,
        t.columns + ImportedColumns(recs, multi, databaseType) +
        (if multi then [Column(Sym("primary_key"), List(names), [])] else []))
  {
    var names := PrimaryKeyNames(recs);
    var multi := |names| > 1;
    var cs := ImportedColumns(recs, multi, databaseType);
    FoldColumns(t, cs, 0);
    SliceFromZero(cs);
    var r := Fold(t, AddColumnStep, cs, 0);
    KeyAfterColumns(t, r.0, r.1, t.columns + cs, names, multi);
  }

  lemma KeyAfterColumns(t: TableData, t1: TableData, o: Outcome, cs: seq<Column>, names: seq<Value>, multi: bool)
    requires AddsColumns((t1, o), t, cs)
    ensures AddsColumns(CompoundKeyAdded(t1, o, names, multi), t,
      cs + (if multi then [Column(Sym("primary_key"), List(names), [])] else []))
  {
    if multi {
      var key := Column(Sym("primary_key"), List(names), []);
      DistinctSnoc(cs, key);
      DistinctPrefix(cs, [key]);
      if o.Pass? {
        ColumnAddedKeepsDistinct(t1, Sym("primary_key"), List(names), []);
      }
    } else {
      NoneAppended(cs);
    }
  }

  // ----- indexes -----

  /** `f` applied to the elements of `s` that satisfy `p`, in order, taken from the end
   *  as `KeptIndexes` does. */
  function Kept<A, B>(p: A -> bool, f: A -> B, s: seq<A>): seq<B>
    decreases |s|
  {
    if s == [] then []
    else
      var n := |s| - 1;
      Kept(p, f, s[..n]) + if p(s[n]) then [f(s[n])] else []
  }

  lemma {:induction false} KeptAre<A, B>(p: A -> bool, f: A -> B, s: seq<A>)
    ensures forall x :: x in Kept(p, f, s) ==> exists i :: 0 <= i < |s| && p(s[i]) && x == f(s[i])
    ensures forall i :: 0 <= i < |s| && p(s[i]) ==> f(s[i]) in Kept(p, f, s)
    decreases |s|
  {
    if s != [] {
      var n := |s| - 1;
      var s' := s[..n];
      KeptAre(p, f, s');
      assert Kept(p, f, s) == Kept(p, f, s') + if p(s[n]) then [f(s[n])] else [];
      forall x | x in Kept(p, f, s)
        ensures exists i :: 0 <= i < |s| && p(s[i]) && x == f(s[i])
      {
        if x in Kept(p, f, s') {
          var i :| 0 <= i < |s'| && p(s'[i]) && x == f(s'[i]);
          assert s'[i] == s[i];
        }
      }
      forall i | 0 <= i < |s| && p(s[i])
        ensures f(s[i]) in Kept(p, f, s)
      {
        if i < n {
          assert s'[i] == s[i];
        }
      }
    }
  }

  function KeepFor(fks: seq<seq<Value>>): IndexRecord -> bool {
    (rec: IndexRecord) => IndexKept(fks, rec)
  }

  lemma {:induction false} KeptIndexesFilter(fks: seq<seq<Value>>, recs: seq<IndexRecord>)
    ensures KeptIndexes(fks, recs) == Kept(KeepFor(fks), ImportedIndex, recs)
    decreases |recs|
  {
    if recs != [] {
      KeptIndexesFilter(fks, recs[..|recs| - 1]);
    }
  }

  /** The indexes `import_indexes` keeps are those of the reported indexes it does not take
   *  for an index a foreign key created. */
  lemma KeptIndexesAre(fks: seq<seq<Value>>, recs: seq<IndexRecord>)
    ensures forall x :: x in KeptIndexes(fks, recs) ==>
      exists i :: 0 <= i < |recs| && IndexKept(fks, recs[i]) && x == ImportedIndex(recs[i])
    ensures forall i :: 0 <= i < |recs| && IndexKept(fks, recs[i]) ==> ImportedIndex(recs[i]) in KeptIndexes(fks, recs)
  {
    KeptIndexesFilter(fks, recs);
    KeptAre(KeepFor(fks), ImportedIndex, recs);
  }

  /** A unique index is always imported, whatever the foreign keys. */
  lemma UniqueIndexKept(fks: seq<seq<Value>>, rec: IndexRecord)
    requires Truthy(Get(rec.1, "unique"))
    ensures IndexKept(fks, rec)
  {
    UniqueOptionKept(rec);
  }

  // ----- foreign keys -----

  /** The keys `import_foreign_keys` adds for the reported foreign keys, one each, in order. */
  function ImportedKeys(recs: seq<Opts>): (ks: seq<ForeignKey>)
    ensures |ks| == |recs|
  {
    Mapped(ImportedKey, recs)
  }

  /** Foreign keys reported over lists of columns, as the database reports them, are all
   *  added, in order, and add no column, so the import cannot fail. */
  lemma {:induction false} FoldKeys(t: TableData, recs: seq<Opts>, i: nat)
    requires i <= |recs| && forall j :: 0 <= j < |recs| ==> Get(recs[j], "columns").List?
    ensures Fold(t, KeyStep, recs, i) == (t.(foreignKeys := t.foreignKeys + ImportedKeys(recs[i..])), Pass)
    decreases |recs| - i
  {
    if i == |recs| {
      MappedNone(ImportedKey, recs[i..]);
      NoneAppended(t.foreignKeys);
    } else {
      var k := ImportedKey(recs[i]);
      var t1 := t.(foreignKeys := t.foreignKeys + [k]);
      assert KeyStep(t, recs[i]) == Ok(t1);
      FoldKeys(t1, recs, i + 1);
      MappedFrom(ImportedKey, recs, i);
      Assoc(t.foreignKeys, [k], ImportedKeys(recs[i + 1..]));
    }
  }

  lemma ForeignKeysImportedAre(t: TableData, recs: seq<Opts>)
    requires forall j :: 0 <= j < |recs| ==> Get(recs[j], "columns").List?
    ensures ForeignKeysImported(t, recs) == (t.(foreignKeys := t.foreignKeys + ImportedKeys(recs)), Pass)
  {
    FoldKeys(t, recs, 0);
    assert recs[0..] == recs;
  }

  /** The reason foreign keys are imported first: the index a database creates for a
   *  single-column foreign key, named after the column and not unique, is not imported
   *  as an index of its own. */
  lemma ForeignKeyIndexNotImported(t: TableData, keys: seq<Opts>, j: nat, rec: IndexRecord, c: Value)
    requires forall i :: 0 <= i < |keys| ==> Get(keys[i], "columns").List?
    requires j < |keys| && Get(keys[j], "columns") == List([c])
    requires rec.0 == c && Get(rec.1, "columns") == List([c]) && !Truthy(Get(rec.1, "unique"))
    ensures var t1 := ForeignKeysImported(t, keys).0;
      !IndexKept(ForeignKeyIndexes(t1.foreignKeys), rec)
  {
    KeyIndexListed(t, keys, j, c);
    UniqueOptionKept(rec);
  }

  lemma KeyIndexListed(t: TableData, keys: seq<Opts>, j: nat, c: Value)
    requires forall i :: 0 <= i < |keys| ==> Get(keys[i], "columns").List?
    requires j < |keys| && Get(keys[j], "columns") == List([c])
    ensures [c] in ForeignKeyIndexes(ForeignKeysImported(t, keys).0.foreignKeys)
  {
    ForeignKeysImportedAre(t, keys);
    var ks := t.foreignKeys + ImportedKeys(keys);
    var k := ImportedKey(keys[j]);
    MappedAt(ImportedKey, keys, j);
    assert k.columns == [c];
    assert k == ks[|t.foreignKeys| + j];
  }

  /** Taking the columns out of an index's options leaves `:unique` as it was. */
  lemma UniqueOptionKept(rec: IndexRecord)
    ensures Get(IndexArguments(rec).1, "unique") == Get(rec.1, "unique")
  {
    GetReject(rec.1, {"columns"}, "unique");
  }

  // ----- a whole table -----

  /** `import_table` over foreign keys reported with lists of columns: it adds every key,
   *  then every index that is not one a single-column key created, then the columns;
   *  it gets through exactly when the column names are distinct. */
  lemma TableImportedIs(t: TableData, keys: seq<Opts>, indexes: seq<IndexRecord>, columns: seq<ColumnRecord>,
                        databaseType: string)
    requires DistinctNames(t.columns)
    requires forall i :: 0 <= i < |keys| ==> Get(keys[i], "columns").List?
    ensures var fks := t.foreignKeys + ImportedKeys(keys);
      var t2 := t.(foreignKeys := fks, indexes := t.indexes + KeptIndexes(ForeignKeyIndexes(fks), indexes));
      var names := PrimaryKeyNames(columns);
      var multi := |names| > 1;
      AddsColumns(TableImported(t, keys, indexes, columns, databaseType), t2,
        t.columns + ImportedColumns(columns, multi, databaseType) +
        (if multi then [Column(Sym("primary_key"), List(names), [])] else []))
  {
    ForeignKeysImportedAre(t, keys);
    var fks := t.foreignKeys + ImportedKeys(keys);
    var t2 := t.(foreignKeys := fks, indexes := t.indexes + KeptIndexes(ForeignKeyIndexes(fks), indexes));
    KeysThenColumns(t, keys, indexes, columns, databaseType);
    ColumnsImportedAre(t2, columns, databaseType);
  }

  lemma KeysThenColumns(t: TableData, keys: seq<Opts>, indexes: seq<IndexRecord>, columns: seq<ColumnRecord>,
                        databaseType: string)
    requires ForeignKeysImported(t, keys).1.Pass?
    ensures TableImported(t, keys, indexes, columns, databaseType) ==
      ColumnsImported(IndexesImported(ForeignKeysImported(t, keys).0, indexes), columns, databaseType)
  {
  }
}
