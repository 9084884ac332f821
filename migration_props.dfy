/** Properties of the generated migrations (migrator.rb).
 *
 *  A schema migrated to itself needs no changes; the `down` half of a full
 *  migration drops exactly what the `up` half creates, and the other way round;
 *  and `changes` drops exactly the tables and foreign keys that disappear and
 *  creates exactly those that appear.
 */
module MigrationProperties {
  import opened Options
  import opened Output
  import opened Dumper
  import opened Entities
  import opened SchemaModel
  import opened Separation
  import opened Migrator
  import opened Sequences

  // ----- nothing changes -----

  /** A table compared with itself needs no `alter_table` block. */
  lemma AlterTableOfItself(t: TableData, pk: Column -> bool)
    requires DistinctNames(t.columns)
    ensures AlterTableStmts(t, t, pk) == []
  {
    IndexEqIsEquivalence();
    SeparateSelf(t.indexes, IndexEq);
    var names := ColumnNames(t.columns);
    SeparateSelf(names, Same);
    ColumnEqIsEquivalence();
    SeparateSelf(ColumnsNamed(t.columns, names), ColumnEq);
  }

  lemma {:induction false} AlterTablesOfThemselves(ts: seq<TableData>, n: nat, pk: Column -> bool)
    requires n <= |ts| && ColumnsDistinct(ts)
    ensures AlterTablesUpTo(ts, ts, n, pk) == []
  {
    if n > 0 {
      AlterTablesOfThemselves(ts, n - 1, pk);
      AlterTablePairOfItself(ts, n - 1, pk);
    }
  }

  lemma AlterTablePairOfItself(ts: seq<TableData>, k: nat, pk: Column -> bool)
    requires k < |ts| && ColumnsDistinct(ts)
    ensures AlterTablePair(ts, ts, k, pk) == []
  {
    AlterTablePairIs(ts, ts, k, pk);
    AlterTableOfItself(ts[k], pk);
  }

  /** `changes( schema, schema )` dumps nothing. */
  lemma ChangesOfItself(s: seq<TableData>, pk: Column -> bool)
    requires ColumnsDistinct(s)
    ensures ChangesStmts(s, s, pk) == []
  {
    TableKeyEqIsEquivalence();
    SeparateSelf(FlattenKeys(s), TableKeyEq);
    SeparateSelf(TableNamesOf(s), Same);
    var d := Compare(s, s);
    assert d.oldKeys == [] && d.newKeys == [];
    assert d.oldTables == [] && d.newTables == [];
    assert d.fromTables == d.toTables;
    AlterTablesOfThemselves(d.fromTables, |d.fromTables|, pk);
    assert GroupsOf([]) == [];
  }

  /** The full migration of a schema to itself is an empty `up` and an empty `down`. */
  lemma FullMigrationOfItself(s: seq<TableData>, pk: Column -> bool)
    requires ColumnsDistinct(s)
    ensures FullMigrationStmts(s, s, pk) == EmptyMigration()
  {
    ChangesOfItself(s, pk);
  }

  function EmptyMigration(): seq<Stmt> {
    [Block("Sequel.migration", [Block("up", []), Block("down", [])])]
  }

  /** The lines of the empty full migration, as a two-space dumper writes them. */
  lemma EmptyMigrationRendered()
    ensures Render(EmptyMigration(), 0, 2) ==
      ["Sequel.migration do\n", "  up do\n", "  end\n", "  down do\n", "  end\n", "end\n"]
  {
    var inner := [Block("up", []), Block("down", [])];
    assert Spaces(0) == "" && Spaces(2) == "  ";
    assert Render(inner, 2, 2) == ["  up do\n", "  end\n", "  down do\n", "  end\n"] by {
      assert inner[1..] == [Block("down", [])];
      RenderOne(Block("down", []), 2, 2);
      assert Indented(2, "up" + " do") == "  up do\n" && Indented(2, "down" + " do") == "  down do\n";
      assert Indented(2, "end") == "  end\n";
    }
    RenderOne(Block("Sequel.migration", inner), 0, 2);
    assert Indented(0, "Sequel.migration" + " do") == "Sequel.migration do\n" && Indented(0, "end") == "end\n";
  }

  // ----- up and down -----

  /** Comparing the schemas the other way round swaps what is dropped and what is
   *  created: `down` drops exactly the tables and foreign keys `up` creates, and
   *  creates exactly those `up` drops. */
  lemma CompareSwapped(from: seq<TableData>, to: seq<TableData>)
    requires ColumnsDistinct(from) && ColumnsDistinct(to)
    ensures Compare(to, from).oldTables == Compare(from, to).newTables
    ensures Compare(to, from).newTables == Compare(from, to).oldTables
    ensures Compare(to, from).oldKeys == Compare(from, to).newKeys
    ensures Compare(to, from).newKeys == Compare(from, to).oldKeys
  {
    TableKeyEqIsEquivalence();
    SeparateSwap(FlattenKeys(from), FlattenKeys(to), TableKeyEq);
    SeparateSwap(FlattenKeys(to), FlattenKeys(from), TableKeyEq);
    SameIsEquivalence<string>();
    SeparateSwap(TableNamesOf(from), TableNamesOf(to), Same);
    SeparateSwap(TableNamesOf(to), TableNamesOf(from), Same);
  }

  // ----- what is dropped and what is created -----

  lemma HasEqualSame(ns: seq<string>, n: string)
    ensures HasEqual(ns, n, Same) <==> n in ns
  {
    if n in ns {
      var j :| 0 <= j < |ns| && ns[j] == n;
      assert Same(n, ns[j]);
    }
  }

  /** The tables `changes` drops are the tables of `from` whose names `to` lacks, all of them. */
  lemma DropsVanishedTables(from: seq<TableData>, to: seq<TableData>)
    requires ColumnsDistinct(from) && ColumnsDistinct(to) && DistinctStrings(TableNamesOf(from))
    ensures forall t :: t in Compare(from, to).oldTables ==> t in from && t.name !in TableNamesOf(to)
    ensures forall t :: t in from && t.name !in TableNamesOf(to) ==> t in Compare(from, to).oldTables
  {
    var fromNames, toNames := TableNamesOf(from), TableNamesOf(to);
    SameIsEquivalence<string>();
    SeparateOld(fromNames, toNames, Same);
    var removed := Separate(fromNames, toNames, Same).0;
    var dropped := Compare(from, to).oldTables;
    assert dropped == TablesNamed(from, removed);
    forall t | t in dropped
      ensures t in from && t.name !in toNames
    {
      var i :| 0 <= i < |dropped| && dropped[i] == t;
      assert removed[i] in removed;
      HasEqualSame(toNames, removed[i]);
    }
    forall t | t in from && t.name !in toNames
      ensures t in dropped
    {
      var j :| 0 <= j < |from| && from[j] == t;
      assert fromNames[j] == t.name;
      HasEqualSame(toNames, t.name);
      var i :| 0 <= i < |removed| && removed[i] == t.name;
      var k :| 0 <= k < |from| && from[k] == dropped[i];
      assert fromNames[k] == t.name;
    }
  }

  /** The tables `changes` creates are the tables of `to` whose names `from` lacks, all of them. */
  lemma CreatesAppearingTables(from: seq<TableData>, to: seq<TableData>)
    requires ColumnsDistinct(from) && ColumnsDistinct(to) && DistinctStrings(TableNamesOf(to))
    ensures forall t :: t in Compare(from, to).newTables ==> t in to && t.name !in TableNamesOf(from)
    ensures forall t :: t in to && t.name !in TableNamesOf(from) ==> t in Compare(from, to).newTables
  {
    CompareSwapped(from, to);
    DropsVanishedTables(to, from);
  }

  /** The tables `changes` alters come in same-named pairs, the first from `from`,
   *  the second from `to`. */
  lemma AltersKeptTables(from: seq<TableData>, to: seq<TableData>)
    requires ColumnsDistinct(from) && ColumnsDistinct(to)
    ensures var d := Compare(from, to);
      forall i :: 0 <= i < |d.fromTables| ==>
        d.fromTables[i] in from && d.toTables[i] in to && d.fromTables[i].name == d.toTables[i].name
  {
  }

  /** The foreign keys `changes` drops are exactly the keys of `from` that have no
   *  equal key on the same table in `to`. */
  lemma DropsVanishedKeys(from: seq<TableData>, to: seq<TableData>)
    requires ColumnsDistinct(from) && ColumnsDistinct(to)
    ensures forall k :: k in Compare(from, to).oldKeys <==>
      k in FlattenKeys(from) && !HasEqual(FlattenKeys(to), k, TableKeyEq)
  {
    TableKeyEqIsEquivalence();
    SeparateOld(FlattenKeys(from), FlattenKeys(to), TableKeyEq);
  }

  /** The foreign keys `changes` adds are exactly the keys of `to` that have no equal
   *  key on the same table in `from`. */
  lemma AddsAppearingKeys(from: seq<TableData>, to: seq<TableData>)
    requires ColumnsDistinct(from) && ColumnsDistinct(to)
    ensures forall k :: k in Compare(from, to).newKeys <==>
      k in FlattenKeys(to) && !HasEqual(FlattenKeys(from), k, TableKeyEq)
  {
    TableKeyEqIsEquivalence();
    SeparateNew(FlattenKeys(from), FlattenKeys(to), TableKeyEq);
  }

  // ----- altering one column -----

  /** A column typed by a string, as the importer's bare database types are, is added
   *  with the type quoted, where the same type as a symbol is added as `:datetime`. */
  lemma StringTypeDumpsQuoted(n: string)
    ensures AddColumnLine(Column(Str("datetime"), Sym(n), [])) == "add_column :" + n + ", \"datetime\""
    ensures AddColumnLine(Column(Sym("datetime"), Sym(n), [])) == "add_column :" + n + ", :datetime"
  {
    OutTypeKinds("datetime");
  }

  /** The four `set_column_*` lines differ in their twelfth character. */
  lemma AlterLinesDiffer(c: Column)
    ensures AllowNullLine(c)[11] == 'a' && TypeLine(c)[11] == 't'
    ensures DefaultLine(c)[11] == 'd' && NotNullLine(c)[11] == 'n'
  {
    var name := OutValue(c.name);
    CharOfPrefix("set_column_allow_null ", name, 11);
    CharOfPrefix("set_column_not_null ", name, 11);
    var t2 := "set_column_type " + name;
    var t3 := t2 + ", ";
    var t4 := t3 + OutType(c.ty);
    CharOfPrefix(t4, OutHash(c.opts, ", "), 11);
    CharOfPrefix(t3, OutType(c.ty), 11);
    CharOfPrefix(t2, ", ", 11);
    CharOfPrefix("set_column_type ", name, 11);
    var d2 := "set_column_default " + name;
    var d3 := d2 + ", ";
    CharOfPrefix(d3, OutValue(c.Default()), 11);
    CharOfPrefix(d2, ", ", 11);
    CharOfPrefix("set_column_default ", name, 11);
  }


  /** `dump_alter_column` writes `set_column_allow_null` exactly when the column starts
   *  to allow nulls and `set_column_not_null` exactly when it stops; never both, and
   *  neither when nullability stays. */
  lemma NullLines(from: Column, to: Column)
    ensures AllowNullLine(to) in AlterColumnTexts(from, to) <==> from.AllowNull() != to.AllowNull() && Truthy(to.AllowNull())
    ensures NotNullLine(to) in AlterColumnTexts(from, to) <==> from.AllowNull() != to.AllowNull() && !Truthy(to.AllowNull())
    ensures !(AllowNullLine(to) in AlterColumnTexts(from, to) && NotNullLine(to) in AlterColumnTexts(from, to))
  {
    var a, b, c, d := AllowNullLine(to), TypeLine(to), DefaultLine(to), NotNullLine(to);
    AlterLinesDiffer(to);
    assert a[11] != b[11] && a[11] != c[11] && a[11] != d[11] && d[11] != b[11] && d[11] != c[11];
    DistinctSteps(AllowsNullNow(from, to), TypeChanged(from, to), DefaultChanged(from, to), NotNullNow(from, to), a, b, c, d);
  }

  /** In four conditional lines, the first and the last occur exactly when their
   *  conditions hold, provided they differ from the other lines. */
  lemma DistinctSteps(p: bool, q: bool, r: bool, s: bool, a: string, b: string, c: string, d: string)
    requires a != b && a != c && a != d && d != b && d != c
    ensures a in Migrator.Step(p, a) + Migrator.Step(q, b) + Migrator.Step(r, c) + Migrator.Step(s, d) <==> p
    ensures d in Migrator.Step(p, a) + Migrator.Step(q, b) + Migrator.Step(r, c) + Migrator.Step(s, d) <==> s
  {
  }

  /** One line per condition that holds, in the order allow-null, type, default, not-null. */
  lemma AlterColumnLineCount(from: Column, to: Column)
    ensures |AlterColumnTexts(from, to)| ==
      (if AllowsNullNow(from, to) then 1 else 0) + (if TypeChanged(from, to) then 1 else 0) +
      (if DefaultChanged(from, to) then 1 else 0) + (if NotNullNow(from, to) then 1 else 0)
    ensures |AlterColumnTexts(from, to)| <= 3
  {
  }

  /** A column compared with itself needs no alteration. */
  lemma AlterColumnOfItself(c: Column)
    ensures AlterColumnTexts(c, c) == []
  {
  }
}
