/** The migration generator (migrator.rb, class Migrator).
 *
 *  `changes( from, to, out )` compares two schemas and dumps, in this order:
 *  the foreign keys to drop, the tables to drop, the alterations of the tables
 *  both schemas have, the tables to create, and the foreign keys to add.  Each
 *  comparison uses `separate` with the entities' own `==`.  `change_migration`
 *  and `full_migration` wrap that in a `Sequel.migration` block; the full one
 *  also dumps the way back, `changes( to, from )`.
 *
 *  The migrator only reads the schemas, so it works on what their tables
 *  hold (`TableData`).  Each `dump_*` helper is a method writing into a
 *  `Dumper`, proved to append exactly the lines of a statement list that a
 *  function computes from its inputs.  `primary_key_constraint?` is not
 *  defined in the code this model follows; it is a parameter `pk`.
 */
module Migrator {
  import opened Options
  import opened Errors
  import opened Output
  import opened Dumper
  import opened Entities
  import opened SchemaModel
  import opened Separation
  import opened Sequences

  // ----- lines dumped one after another -----

  /** The statements that dump each text as a single line. */
  function Lines(texts: seq<string>): (ss: seq<Stmt>)
    ensures |ss| == |texts| && AllLines(ss)
    ensures forall i {:trigger ss[i]} :: 0 <= i < |texts| ==> ss[i] == Line(texts[i])
  {
    seq(|texts|, i requires 0 <= i < |texts| => Line(texts[i]))
  }

  /** The buffered lines those single-line dumps produce at one indentation. */
  function Indent(texts: seq<string>, indent: nat): (ls: seq<string>)
    ensures |ls| == |texts| && forall i {:trigger ls[i]} :: 0 <= i < |texts| ==> ls[i] == Indented(indent, texts[i])
  {
    seq(|texts|, i requires 0 <= i < |texts| => Indented(indent, texts[i]))
  }

  /** A text per element, in order (the body of a `for x in xs; out << ...; end` loop). */
  function Each<T>(xs: seq<T>, f: T -> string): (ts: seq<string>)
    ensures |ts| == |xs| && forall i {:trigger ts[i]} :: 0 <= i < |xs| ==> ts[i] == f(xs[i])
  {
    seq(|xs|, i requires 0 <= i < |xs| => f(xs[i]))
  }

  lemma RenderTexts(texts: seq<string>, indent: nat, step: nat)
    ensures Render(Lines(texts), indent, step) == Indent(texts, indent)
  {
    RenderLines(Lines(texts), indent, step);
  }

  lemma IndentNext(texts: seq<string>, i: nat, indent: nat)
    requires i < |texts|
    ensures Indent(texts[..i + 1], indent) == Indent(texts[..i], indent) + [Indented(indent, texts[i])]
  {
  }

  lemma IndentAppend(a: seq<string>, b: seq<string>, indent: nat)
    ensures Indent(a + b, indent) == Indent(a, indent) + Indent(b, indent)
  {
  }

  /** A block of single lines renders as its header, the lines one step deeper, and `end`. */
  lemma BlockOfTexts(h: string, texts: seq<string>, indent: nat, step: nat)
    ensures RenderStmt(Block(h, Lines(texts)), indent, step) ==
      [Indented(indent, h + " do")] + Indent(texts, indent + step) + [Indented(indent, "end")]
  {
    RenderTexts(texts, indent + step, step);
  }

  // ----- the lines of the `dump_*` helpers -----

  function DropIndexLine(x: Index): string {
    "drop_index " + OutValue(List(x.columns)) + OutHash(x.CanonicOpts(), " # ")
  }

  function AddIndexLine(x: Index): string {
    "add_index " + OutValue(List(x.columns)) + OutHash(x.CanonicOpts(), ", ")
  }

  /** A column held by a primary key constraint is dropped as the constraint. */
  function DropColumnLine(c: Column, pk: Column -> bool): string {
    if pk(c) then "drop_constraint " + OutValue(c.name) + ", :type => :primary_key" + OutHash(c.opts, " # ")
    else "drop_column " + OutValue(c.name) + " # " + OutType(c.ty) + OutHash(c.opts, ", ")
  }

  function DropColumnWith(pk: Column -> bool): Column -> string {
    c => DropColumnLine(c, pk)
  }

  function AddColumnLine(c: Column): string {
    if c.ty == Sym("primary_key") then "add_primary_key " + OutValue(c.name) + OutHash(c.opts, ", ")
    else "add_column " + OutValue(c.name) + ", " + OutType(c.ty) + OutHash(c.opts, ", ")
  }

  function DropTableLine(t: TableData): string {
    "drop_table " + OutValue(Sym(t.name))
  }

  function AddKeyLine(k: ForeignKey): string {
    "add_foreign_key " + OutValue(List(k.columns)) + ", " + OutValue(k.tableName) + OutHash(k.CanonicOpts(), ", ")
  }

  function DropKeyLine(k: ForeignKey): string {
    "drop_foreign_key " + OutValue(List(k.columns)) + " # " + OutValue(k.tableName) + OutHash(k.CanonicOpts(), ", ")
  }

  function AllowNullLine(c: Column): string { "set_column_allow_null " + OutValue(c.name) }
  function TypeLine(c: Column): string { "set_column_type " + OutValue(c.name) + ", " + OutType(c.ty) + OutHash(c.opts, ", ") }
  function DefaultLine(c: Column): string { "set_column_default " + OutValue(c.name) + ", " + OutValue(c.Default()) }
  function NotNullLine(c: Column): string { "set_column_not_null " + OutValue(c.name) }

  // ----- dump_alter_column -----

  predicate AllowsNullNow(from: Column, to: Column) {
    from.AllowNull() != to.AllowNull() && Truthy(to.AllowNull())
  }

  /** The type step compares the raw `type_opts`, not the canonic options. */
  predicate TypeChanged(from: Column, to: Column) {
    CanonicType(ToS(from.ty)) != CanonicType(ToS(to.ty)) || !OptsEq(from.TypeOpts(), to.TypeOpts())
  }

  predicate DefaultChanged(from: Column, to: Column) {
    from.Default() != to.Default()
  }

  predicate NotNullNow(from: Column, to: Column) {
    from.AllowNull() != to.AllowNull() && !Truthy(to.AllowNull())
  }

  /** A line dumped only under a condition. */
  function Step(cond: bool, text: string): seq<string> {
    if cond then [text] else []
  }

  /** What `dump_alter_column( out, from, to )` dumps: allow-null, type, default and
   *  not-null steps, in that order, each under its own condition. */
  function AlterColumnTexts(from: Column, to: Column): seq<string> {
    Step(AllowsNullNow(from, to), AllowNullLine(to)) +
    Step(TypeChanged(from, to), TypeLine(to)) +
    Step(DefaultChanged(from, to), DefaultLine(to)) +
    Step(NotNullNow(from, to), NotNullLine(to))
  }

  /** Four conditional dumps one after another. */
  lemma FourSteps(l0: seq<string>, l1: seq<string>, l2: seq<string>, l3: seq<string>, l4: seq<string>,
                  a: seq<string>, b: seq<string>, c: seq<string>, d: seq<string>, indent: nat)
    requires l1 == l0 + Indent(a, indent) && l2 == l1 + Indent(b, indent)
    requires l3 == l2 + Indent(c, indent) && l4 == l3 + Indent(d, indent)
    ensures l4 == l0 + Indent(a + b + c + d, indent)
  {
    IndentAppend(a, b, indent);
    IndentAppend(a + b, c, indent);
    IndentAppend(a + b + c, d, indent);
  }

  // ----- each_pair -----

  function ColumnName(c: Column): Value { c.name }
  function TableName(t: TableData): string { t.name }

  /** `each_pair( :column, ... )` succeeds: every column of the first list has a
   *  partner of the same name at the same position of the second. */
  predicate ColumnsPaired(fs: seq<Column>, ts: seq<Column>) {
    |fs| <= |ts| && forall i :: 0 <= i < |fs| ==> fs[i].name == ts[i].name
  }

  /** `each_pair( :table, ... )` succeeds. */
  predicate TablesPaired(fs: seq<TableData>, ts: seq<TableData>) {
    |fs| <= |ts| && forall i :: 0 <= i < |fs| ==> fs[i].name == ts[i].name
  }

  /** The alterations of the first `n` column pairs. */
  function AlterColumnsUpTo(fs: seq<Column>, ts: seq<Column>, n: nat): seq<string>
    requires n <= |fs| && n <= |ts|
  {
    if n == 0 then [] else AlterColumnsUpTo(fs, ts, n - 1) + AlterPair(fs, ts, n - 1)
  }

  /** The alteration of the `k`-th pair of `from_columns.zip( to_columns )`, found by
   *  walking both lists. */
  function AlterPair(fs: seq<Column>, ts: seq<Column>, k: nat): seq<string>
    requires k < |fs| && k < |ts|
    decreases k
  {
    if k == 0 then AlterColumnTexts(fs[0], ts[0]) else AlterPair(fs[1..], ts[1..], k - 1)
  }

  lemma {:induction false} AlterPairIs(fs: seq<Column>, ts: seq<Column>, k: nat)
    requires k < |fs| && k < |ts|
    ensures AlterPair(fs, ts, k) == AlterColumnTexts(fs[k], ts[k])
    decreases k
  {
    if k > 0 {
      AlterPairIs(fs[1..], ts[1..], k - 1);
    }
  }

  /** What `dump_alter_columns` dumps when the columns pair up. */
  function AlterColumnsTexts(fs: seq<Column>, ts: seq<Column>): seq<string>
    requires |fs| <= |ts|
  {
    AlterColumnsUpTo(fs, ts, |fs|)
  }

  // ----- foreign keys per table: prepare_keys and split_keys -----

  /** A foreign key with the name of the table it belongs to. */
  type TableKey = (string, ForeignKey)

  /** `[ name, key ] == [ name2, key2 ]`. */
  predicate TableKeyEq(a: TableKey, b: TableKey) {
    a.0 == b.0 && ForeignKeyEq(a.1, b.1)
  }

  function Tagged(t: TableData): (r: seq<TableKey>)
    ensures |r| == |t.foreignKeys| && forall j :: 0 <= j < |r| ==> r[j] == (t.name, t.foreignKeys[j])
  {
    seq(|t.foreignKeys|, j requires 0 <= j < |t.foreignKeys| => (t.name, t.foreignKeys[j]))
  }

  /** The keys of the first `n` tables, table by table. */
  function FlattenUpTo(ts: seq<TableData>, n: nat): seq<TableKey>
    requires n <= |ts|
  {
    if n == 0 then [] else FlattenUpTo(ts, n - 1) + Tagged(ts[n - 1])
  }

  /** What `prepare_keys( tables )` returns. */
  function FlattenKeys(ts: seq<TableData>): seq<TableKey> {
    FlattenUpTo(ts, |ts|)
  }

  /** The keys of one table, gathered under the table's name (a hash entry of `split_keys`). */
  type Group = (string, seq<ForeignKey>)

  function GroupNames(gs: seq<Group>): (ns: seq<string>)
    ensures |ns| == |gs| && forall i :: 0 <= i < |gs| ==> ns[i] == gs[i].0
  {
    seq(|gs|, i requires 0 <= i < |gs| => gs[i].0)
  }

  /** The position of a table's group: the hash lookup `result[ name ]`. */
  function FindGroup(gs: seq<Group>, n: string): (r: Option<nat>)
    ensures r.Some? ==> r.value < |gs| && gs[r.value].0 == n
    ensures r.None? <==> n !in GroupNames(gs)
    decreases |gs|
  {
    if gs == [] then None
    else if gs[|gs| - 1].0 == n then Some(|gs| - 1)
    else
      var r := FindGroup(gs[..|gs| - 1], n);
      assert GroupNames(gs) == GroupNames(gs[..|gs| - 1]) + [gs[|gs| - 1].0];
      r
  }

  /** `( result[ name ] ||= [] ) << key`. */
  function AddToGroups(gs: seq<Group>, p: TableKey): seq<Group> {
    match FindGroup(gs, p.0)
    case Some(i) => gs[i := (p.0, gs[i].1 + [p.1])]
    case None => gs + [(p.0, [p.1])]
  }

  function GroupsUpTo(ps: seq<TableKey>, n: nat): seq<Group>
    requires n <= |ps|
  {
    if n == 0 then [] else AddToGroups(GroupsUpTo(ps, n - 1), ps[n - 1])
  }

  /** What `split_keys( table_keys )` returns. */
  function GroupsOf(ps: seq<TableKey>): seq<Group> {
    GroupsUpTo(ps, |ps|)
  }

  /** The keys of the first `n` pairs that belong to the named table, in order. */
  function KeysFor(ps: seq<TableKey>, n: nat, name: string): seq<ForeignKey>
    requires n <= |ps|
  {
    if n == 0 then [] else KeysFor(ps, n - 1, name) + (if ps[n - 1].0 == name then [ps[n - 1].1] else [])
  }

  /** The table names of the first `n` pairs, each at its first appearance. */
  function FirstNames(ps: seq<TableKey>, n: nat): seq<string>
    requires n <= |ps|
  {
    if n == 0 then []
    else
      var ns := FirstNames(ps, n - 1);
      if ps[n - 1].0 in ns then ns else ns + [ps[n - 1].0]
  }

  /** The groups of `split_keys` are named after the tables in order of first appearance. */
  lemma {:induction false} GroupNamesUpTo(ps: seq<TableKey>, n: nat)
    requires n <= |ps|
    ensures GroupNames(GroupsUpTo(ps, n)) == FirstNames(ps, n)
  {
    if n > 0 {
      GroupNamesUpTo(ps, n - 1);
      var prev := GroupsUpTo(ps, n - 1);
      var p := ps[n - 1];
      match FindGroup(prev, p.0)
      case Some(at) =>
        assert GroupNames(AddToGroups(prev, p)) == GroupNames(prev);
      case None =>
        assert GroupNames(AddToGroups(prev, p)) == GroupNames(prev) + [p.0];
    }
  }

  /** Adding the `n`-th key to the groups appends it to its own table's group and to no other. */
  lemma AddToGroupsKeys(ps: seq<TableKey>, n: nat)
    requires 0 < n <= |ps|
    requires var prev := GroupsUpTo(ps, n - 1);
      DistinctStrings(GroupNames(prev)) &&
      (forall i :: 0 <= i < |prev| ==> prev[i].1 == KeysFor(ps, n - 1, prev[i].0)) &&
      (ps[n - 1].0 !in GroupNames(prev) ==> KeysFor(ps, n - 1, ps[n - 1].0) == [])
    ensures var gs := GroupsUpTo(ps, n);
      forall i :: 0 <= i < |gs| ==> gs[i].1 == KeysFor(ps, n, gs[i].0)
  {
    var prev, p := GroupsUpTo(ps, n - 1), ps[n - 1];
    var gs := AddToGroups(prev, p);
    forall i | 0 <= i < |gs|
      ensures gs[i].1 == KeysFor(ps, n, gs[i].0)
    {
      match FindGroup(prev, p.0)
      case Some(at) =>
        if i != at {
          assert GroupNames(prev)[i] == prev[i].0 && GroupNames(prev)[at] == p.0;
        }
      case None =>
        if i < |prev| {
          assert GroupNames(prev)[i] == prev[i].0;
        }
    }
  }

  /** Each group of `split_keys` holds exactly its table's keys, in their order. */
  lemma {:induction false} GroupKeysUpTo(ps: seq<TableKey>, n: nat)
    requires n <= |ps|
    ensures var gs := GroupsUpTo(ps, n);
      forall i :: 0 <= i < |gs| ==> gs[i].1 == KeysFor(ps, n, gs[i].0)
  {
    if n > 0 {
      GroupKeysUpTo(ps, n - 1);
      GroupNamesUpTo(ps, n - 1);
      FirstNamesDistinct(ps, n - 1);
      if ps[n - 1].0 !in FirstNames(ps, n - 1) {
        KeysForAbsent(ps, n - 1, ps[n - 1].0);
      }
      AddToGroupsKeys(ps, n);
    }
  }

  lemma {:induction false} FirstNamesDistinct(ps: seq<TableKey>, n: nat)
    requires n <= |ps|
    ensures DistinctStrings(FirstNames(ps, n))
  {
    if n > 0 {
      FirstNamesDistinct(ps, n - 1);
    }
  }

  lemma {:induction false} FirstNamesMembers(ps: seq<TableKey>, n: nat)
    requires n <= |ps|
    ensures forall name :: name in FirstNames(ps, n) <==> exists i :: 0 <= i < n && ps[i].0 == name
  {
    if n > 0 {
      FirstNamesMembers(ps, n - 1);
    }
  }

  /** A table none of whose keys is among the first `n` pairs has no keys there. */
  lemma {:induction false} KeysForAbsent(ps: seq<TableKey>, n: nat, name: string)
    requires n <= |ps| && name !in FirstNames(ps, n)
    ensures KeysFor(ps, n, name) == []
  {
    if n > 0 {
      assert name !in FirstNames(ps, n - 1);
      KeysForAbsent(ps, n - 1, name);
    }
  }

  /** `split_keys` has one entry per table that has keys, no other, each name once. */
  lemma SplitKeysNames(ps: seq<TableKey>)
    ensures DistinctStrings(GroupNames(GroupsOf(ps)))
    ensures forall name :: name in GroupNames(GroupsOf(ps)) <==> exists i :: 0 <= i < |ps| && ps[i].0 == name
  {
    GroupNamesUpTo(ps, |ps|);
    FirstNamesDistinct(ps, |ps|);
    FirstNamesMembers(ps, |ps|);
  }

  /** Each entry of `split_keys` holds all keys of its table, in the order given. */
  lemma SplitKeysGroups(ps: seq<TableKey>)
    ensures var gs := GroupsOf(ps);
      forall i :: 0 <= i < |gs| ==> gs[i].1 == KeysFor(ps, |ps|, gs[i].0)
  {
    GroupKeysUpTo(ps, |ps|);
    assert GroupsOf(ps) == GroupsUpTo(ps, |ps|);
  }

  /** `prepare_keys` returns a pair for every key of every table, and nothing else. */
  lemma {:induction false} FlattenKeysMembers(ts: seq<TableData>, n: nat)
    requires n <= |ts|
    ensures forall p :: p in FlattenUpTo(ts, n) <==> exists i :: 0 <= i < n && p.0 == ts[i].name && p.1 in ts[i].foreignKeys
  {
    if n > 0 {
      FlattenKeysMembers(ts, n - 1);
      var t := ts[n - 1];
      forall p ensures p in Tagged(t) <==> p.0 == t.name && p.1 in t.foreignKeys {
        if p.0 == t.name && p.1 in t.foreignKeys {
          var j :| 0 <= j < |t.foreignKeys| && t.foreignKeys[j] == p.1;
          assert Tagged(t)[j] == p;
        }
      }
    }
  }

  // ----- the methods that collect foreign keys -----

  /** `prepare_keys( tables )`. */
  method PrepareKeys(tables: seq<TableData>) returns (result: seq<TableKey>)
    ensures result == FlattenKeys(tables)
  {
    result := [];
    for i := 0 to |tables|
      invariant result == FlattenUpTo(tables, i)
    {
      var table := tables[i];
      ghost var before := result;
      for j := 0 to |table.foreignKeys|
        invariant result == before + Tagged(table)[..j]
      {
        result := result + [(table.name, table.foreignKeys[j])];
        assert Tagged(table)[..j + 1] == Tagged(table)[..j] + [(table.name, table.foreignKeys[j])];
      }
      assert Tagged(table)[..|table.foreignKeys|] == Tagged(table);
    }
  }

  /** `split_keys( table_keys )`. */
  method SplitKeys(tableKeys: seq<TableKey>) returns (result: seq<Group>)
    ensures result == GroupsOf(tableKeys)
  {
    result := [];
    for i := 0 to |tableKeys|
      invariant result == GroupsUpTo(tableKeys, i)
    {
      var (name, key) := tableKeys[i];
      var at := FindGroup(result, name);
      if at.Some? {
        result := result[at.value := (name, result[at.value].1 + [key])];
      } else {
        result := result + [(name, [key])];
      }
    }
  }

  // ----- the sections made of single lines -----

  /** A line per element, in order, at the dumper's current indentation. */
  method DumpEach<T>(out: Dumper, xs: seq<T>, f: T -> string)
    modifies out
    ensures out.indent == old(out.indent)
    ensures out.lines == old(out.lines) + Indent(Each(xs, f), out.indent)
  {
    ghost var texts := Each(xs, f);
    for i := 0 to |xs|
      invariant out.indent == old(out.indent)
      invariant out.lines == old(out.lines) + Indent(texts[..i], out.indent)
    {
      out.Dump(f(xs[i]));
      IndentNext(texts, i, out.indent);
    }
    assert texts[..|xs|] == texts;
  }

  /** `dump_drop_indexes( out, indexes )`. */
  method DumpDropIndexes(out: Dumper, indexes: seq<Index>)
    modifies out
    ensures out.indent == old(out.indent)
    ensures out.lines == old(out.lines) + Indent(Each(indexes, DropIndexLine), out.indent)
  {
    DumpEach(out, indexes, DropIndexLine);
  }

  /** `dump_add_indexes( out, indexes )`. */
  method DumpAddIndexes(out: Dumper, indexes: seq<Index>)
    modifies out
    ensures out.indent == old(out.indent)
    ensures out.lines == old(out.lines) + Indent(Each(indexes, AddIndexLine), out.indent)
  {
    DumpEach(out, indexes, AddIndexLine);
  }

  /** `dump_drop_columns( out, columns )`. */
  method DumpDropColumns(out: Dumper, columns: seq<Column>, pk: Column -> bool)
    modifies out
    ensures out.indent == old(out.indent)
    ensures out.lines == old(out.lines) + Indent(Each(columns, DropColumnWith(pk)), out.indent)
  {
    DumpEach(out, columns, DropColumnWith(pk));
  }

  /** `dump_add_columns( out, columns )`. */
  method DumpAddColumns(out: Dumper, columns: seq<Column>)
    modifies out
    ensures out.indent == old(out.indent)
    ensures out.lines == old(out.lines) + Indent(Each(columns, AddColumnLine), out.indent)
  {
    DumpEach(out, columns, AddColumnLine);
  }

  /** `dump_drop_tables( out, tables )`. */
  method DumpDropTables(out: Dumper, tables: seq<TableData>)
    modifies out
    ensures out.indent == old(out.indent)
    ensures out.lines == old(out.lines) + Indent(Each(tables, DropTableLine), out.indent)
  {
    DumpEach(out, tables, DropTableLine);
  }

  // ----- altering columns -----

  /** `dump_alter_column( out, from, to )`. */
  method DumpAlterColumn(out: Dumper, from: Column, to: Column)
    modifies out
    ensures out.indent == old(out.indent)
    ensures out.lines == old(out.lines) + Indent(AlterColumnTexts(from, to), out.indent)
  {
    var nullable, retyped, redefaulted, notNull := AllowsNullNow(from, to), TypeChanged(from, to), DefaultChanged(from, to), NotNullNow(from, to);
    var a, b, c, d := AllowNullLine(to), TypeLine(to), DefaultLine(to), NotNullLine(to);
    ghost var l0 := out.lines;
    if nullable {
      out.Dump(a);
    }
    DumpedIf(l0, out.lines, nullable, a, out.indent);
    ghost var l1 := out.lines;
    if retyped {
      out.Dump(b);
    }
    DumpedIf(l1, out.lines, retyped, b, out.indent);
    ghost var l2 := out.lines;
    if redefaulted {
      out.Dump(c);
    }
    DumpedIf(l2, out.lines, redefaulted, c, out.indent);
    ghost var l3 := out.lines;
    if notNull {
      out.Dump(d);
    }
    DumpedIf(l3, out.lines, notNull, d, out.indent);
    FourSteps(l0, l1, l2, l3, out.lines, Step(nullable, a), Step(retyped, b), Step(redefaulted, c), Step(notNull, d), out.indent);
  }

  lemma DumpedIf(before: seq<string>, after: seq<string>, cond: bool, text: string, indent: nat)
    requires after == if cond then before + [Indented(indent, text)] else before
    ensures after == before + Indent(Step(cond, text), indent)
  {
  }

  /** `dump_alter_columns( out, from_columns, to_columns )`: the pairs of `each_pair`,
   *  which fails at the first position whose columns are not of the same name (or
   *  where the second list has run out), after dumping the pairs before it. */
  method DumpAlterColumns(out: Dumper, fromColumns: seq<Column>, toColumns: seq<Column>) returns (o: Outcome)
    modifies out
    ensures out.indent == old(out.indent)
    ensures ColumnsPaired(fromColumns, toColumns) ==> o.Pass?
    ensures o.Pass? ==> ColumnsPaired(fromColumns, toColumns)
    ensures o.Pass? ==> out.lines == old(out.lines) + Indent(AlterColumnsTexts(fromColumns, toColumns), out.indent)
    ensures o.Fail? ==> o.error.PairingMismatch? && var k := o.error.index;
      k < |fromColumns| && k <= |toColumns| &&
      (forall j :: 0 <= j < k ==> fromColumns[j].name == toColumns[j].name) &&
      (k < |toColumns| ==> fromColumns[k].name != toColumns[k].name) &&
      out.lines == old(out.lines) + Indent(AlterColumnsUpTo(fromColumns, toColumns, k), out.indent)
  {
    for i := 0 to |fromColumns|
      invariant out.indent == old(out.indent)
      invariant i <= |toColumns| && forall j :: 0 <= j < i ==> fromColumns[j].name == toColumns[j].name
      invariant out.lines == old(out.lines) + Indent(AlterColumnsUpTo(fromColumns, toColumns, i), out.indent)
    {
      var paired := DumpPair(out, fromColumns, toColumns, i, old(out.lines));
      if !paired {
        return Fail(PairingMismatch(i));
      }
    }
    o := Pass;
  }

  /** One turn of the `each_pair` loop of `dump_alter_columns`: the pairing check,
   *  then the alteration of the pair. */
  method DumpPair(out: Dumper, fs: seq<Column>, ts: seq<Column>, i: nat, ghost start: seq<string>) returns (paired: bool)
    requires i < |fs| && i <= |ts| && forall j :: 0 <= j < i ==> fs[j].name == ts[j].name
    requires out.lines == start + Indent(AlterColumnsUpTo(fs, ts, i), out.indent)
    modifies out
    ensures out.indent == old(out.indent)
    ensures paired <==> i < |ts| && fs[i].name == ts[i].name
    ensures paired ==> forall j :: 0 <= j < i + 1 ==> fs[j].name == ts[j].name
    ensures paired ==> out.lines == start + Indent(AlterColumnsUpTo(fs, ts, i + 1), out.indent)
    ensures !paired ==> out.lines == old(out.lines)
  {
    if i >= |ts| || fs[i].name != ts[i].name {
      return false;
    }
    ghost var before := out.lines;
    DumpAlterColumn(out, fs[i], ts[i]);
    AlterColumnsNext(start, before, out.lines, fs, ts, i, out.indent);
    paired := true;
  }

  lemma AlterColumnsNext(start: seq<string>, before: seq<string>, after: seq<string>,
                         fs: seq<Column>, ts: seq<Column>, i: nat, indent: nat)
    requires i < |fs| && i < |ts|
    requires before == start + Indent(AlterColumnsUpTo(fs, ts, i), indent)
    requires after == before + Indent(AlterColumnTexts(fs[i], ts[i]), indent)
    ensures after == start + Indent(AlterColumnsUpTo(fs, ts, i + 1), indent)
  {
    IndentAppend(AlterColumnsUpTo(fs, ts, i), AlterColumnTexts(fs[i], ts[i]), indent);
    AlterPairIs(fs, ts, i);
  }

  // ----- altering a table -----

  /** `table.named_columns( names )` for names the table has. */
  function ColumnsNamed(cs: seq<Column>, names: seq<Value>): (r: seq<Column>)
    requires forall i :: 0 <= i < |names| ==> names[i] in ColumnNames(cs)
    ensures |r| == |names| && forall i {:trigger r[i]} :: 0 <= i < |names| ==> r[i] in cs && r[i].name == names[i]
  {
    seq(|names|, i requires 0 <= i < |names| => Lookup(cs, names[i]).value)
  }

  /** What `dump_alter_table` finds by comparing two versions of a table: the indexes
   *  to drop and to add, the columns to drop and to add, and the same-named columns
   *  that differ, before and after. */
  datatype TableDiff = TableDiff(oldIndexes: seq<Index>, newIndexes: seq<Index>,
                                 oldColumns: seq<Column>, newColumns: seq<Column>,
                                 fromColumns: seq<Column>, toColumns: seq<Column>)

  lemma ColumnEqIsEquivalence()
    ensures Equivalence(ColumnEq) && forall x, y :: ColumnEq(x, y) ==> ColumnName(x) == ColumnName(y)
  {
  }

  lemma IndexEqIsEquivalence()
    ensures Equivalence(IndexEq)
  {
  }

  lemma TableKeyEqIsEquivalence()
    ensures Equivalence(TableKeyEq)
  {
  }

  /** The names both tables have, as `separate` finds them, are names of each, each once. */
  lemma SameColumnNames(from: seq<Column>, to: seq<Column>)
    requires DistinctNames(to)
    ensures var (removed, same, added) := Separate(ColumnNames(from), ColumnNames(to), Same);
      (forall i :: 0 <= i < |removed| ==> removed[i] in ColumnNames(from)) &&
      (forall i :: 0 <= i < |same| ==> same[i] in ColumnNames(from) && same[i] in ColumnNames(to)) &&
      (forall i :: 0 <= i < |added| ==> added[i] in ColumnNames(to)) &&
      Distinct(same)
  {
    var fromNames, toNames := ColumnNames(from), ColumnNames(to);
    SeparatePresent(fromNames, toNames);
    assert Distinct(toNames);
    FilterDistinct(toNames, x => HasEqual(fromNames, x, Same));
  }

  /** The same-named columns that differ pair up: `each_pair` never fails on them. */
  lemma ChangedColumnsPair(from: seq<Column>, to: seq<Column>, names: seq<Value>)
    requires DistinctNames(from) && DistinctNames(to) && Distinct(names)
    requires forall i :: 0 <= i < |names| ==> names[i] in ColumnNames(from) && names[i] in ColumnNames(to)
    ensures var (before, _, after) := Separate(ColumnsNamed(from, names), ColumnsNamed(to, names), ColumnEq);
      |before| == |after| && ColumnsPaired(before, after)
  {
    var f, t := ColumnsNamed(from, names), ColumnsNamed(to, names);
    ColumnEqIsEquivalence();
    assert DistinctKeys(f, ColumnName) && DistinctKeys(t, ColumnName);
    SeparateAligned(f, t, ColumnEq, ColumnName);
    var (before, _, after) := Separate(f, t, ColumnEq);
    assert KeysOf(before, ColumnName) == KeysOf(after, ColumnName);
    assert forall i :: 0 <= i < |before| ==> KeysOf(before, ColumnName)[i] == before[i].name;
    assert forall i :: 0 <= i < |after| ==> KeysOf(after, ColumnName)[i] == after[i].name;
  }

  /** The comparison at the start of `dump_alter_table( out, from, to )`. */
  function Diff(from: TableData, to: TableData): (d: TableDiff)
    requires DistinctNames(from.columns) && DistinctNames(to.columns)
    ensures |d.fromColumns| == |d.toColumns| && ColumnsPaired(d.fromColumns, d.toColumns)
  {
    var (oldIndexes, _, newIndexes) := Separate(from.indexes, to.indexes, IndexEq);
    var (oldNames, sameNames, newNames) := Separate(ColumnNames(from.columns), ColumnNames(to.columns), Same);
    SameColumnNames(from.columns, to.columns);
    var (fromColumns, _, toColumns) :=
      Separate(ColumnsNamed(from.columns, sameNames), ColumnsNamed(to.columns, sameNames), ColumnEq);
    ChangedColumnsPair(from.columns, to.columns, sameNames);
    TableDiff(oldIndexes, newIndexes, ColumnsNamed(from.columns, oldNames), ColumnsNamed(to.columns, newNames),
              fromColumns, toColumns)
  }

  /** Nothing to alter: `dump_alter_table` returns before dumping anything. */
  predicate Unaltered(d: TableDiff) {
    d.oldIndexes == [] && d.newIndexes == [] && d.oldColumns == [] && d.newColumns == [] && d.toColumns == []
  }

  function AlterHeader(name: string): string {
    "alter_table " + OutValue(Sym(name))
  }

  /** The body of the `alter_table` block: dropped indexes, dropped columns, altered
   *  columns, added columns, added indexes. */
  function AlterTableTexts(d: TableDiff, pk: Column -> bool): seq<string>
    requires |d.fromColumns| <= |d.toColumns|
  {
    Each(d.oldIndexes, DropIndexLine) + Each(d.oldColumns, DropColumnWith(pk)) +
    AlterColumnsTexts(d.fromColumns, d.toColumns) + Each(d.newColumns, AddColumnLine) + Each(d.newIndexes, AddIndexLine)
  }

  /** What `dump_alter_table( out, from, to )` dumps. */
  function AlterTableStmts(from: TableData, to: TableData, pk: Column -> bool): seq<Stmt>
    requires DistinctNames(from.columns) && DistinctNames(to.columns)
  {
    var d := Diff(from, to);
    if Unaltered(d) then [] else AlteredStmts(d, to.name, pk)
  }

  /** The `alter_table` block for a table that does change. */
  function AlteredStmts(d: TableDiff, name: string, pk: Column -> bool): seq<Stmt>
    requires |d.fromColumns| <= |d.toColumns|
  {
    [Block(AlterHeader(name), Lines(AlterTableTexts(d, pk)))]
  }

  /** The five sections of a block, dumped one after another. */
  lemma FiveSections(l0: seq<string>, l1: seq<string>, l2: seq<string>, l3: seq<string>, l4: seq<string>,
                     l5: seq<string>, l6: seq<string>, l7: seq<string>, h: string,
                     t1: seq<string>, t2: seq<string>, t3: seq<string>, t4: seq<string>, t5: seq<string>,
                     indent: nat, step: nat, inner: nat)
    requires inner == indent + step
    requires l1 == l0 + [Indented(indent, h + " do")]
    requires l2 == l1 + Indent(t1, inner)
    requires l3 == l2 + Indent(t2, inner)
    requires l4 == l3 + Indent(t3, inner)
    requires l5 == l4 + Indent(t4, inner)
    requires l6 == l5 + Indent(t5, inner)
    requires l7 == l6 + [Indented(indent, "end")]
    ensures l7 == l0 + Render([Block(h, Lines(t1 + t2 + t3 + t4 + t5))], indent, step)
  {
    var all := t1 + t2 + t3 + t4 + t5;
    FiveIndents(l1, l2, l3, l4, l5, l6, t1, t2, t3, t4, t5, inner);
    BlockOfTexts(h, all, indent, step);
    RenderOne(Block(h, Lines(all)), indent, step);
  }

  lemma FiveIndents(l1: seq<string>, l2: seq<string>, l3: seq<string>, l4: seq<string>, l5: seq<string>, l6: seq<string>,
                    t1: seq<string>, t2: seq<string>, t3: seq<string>, t4: seq<string>, t5: seq<string>, inner: nat)
    requires l2 == l1 + Indent(t1, inner)
    requires l3 == l2 + Indent(t2, inner)
    requires l4 == l3 + Indent(t3, inner)
    requires l5 == l4 + Indent(t4, inner)
    requires l6 == l5 + Indent(t5, inner)
    ensures l6 == l1 + Indent(t1 + t2 + t3 + t4 + t5, inner)
  {
    IndentAppend(t1, t2, inner);
    assert l3 == l1 + Indent(t1 + t2, inner);
    IndentAppend(t1 + t2, t3, inner);
    assert l4 == l1 + Indent(t1 + t2 + t3, inner);
    IndentAppend(t1 + t2 + t3, t4, inner);
    assert l5 == l1 + Indent(t1 + t2 + t3 + t4, inner);
    IndentAppend(t1 + t2 + t3 + t4, t5, inner);
  }

  /** `dump_alter_table( out, from, to )`. */
  method DumpAlterTable(out: Dumper, from: TableData, to: TableData, pk: Column -> bool)
    requires DistinctNames(from.columns) && DistinctNames(to.columns)
    modifies out
    ensures out.indent == old(out.indent)
    ensures out.lines == old(out.lines) + Render(AlterTableStmts(from, to, pk), out.indent, out.step)
  {
    var d := Diff(from, to);
    if !Unaltered(d) {
      DumpAltered(out, d, to.name, pk);
    }
  }

  /** The body of `dump_alter_table` once it knows the table changes. */
  method DumpAltered(out: Dumper, d: TableDiff, name: string, pk: Column -> bool)
    requires |d.fromColumns| == |d.toColumns| && ColumnsPaired(d.fromColumns, d.toColumns)
    modifies out
    ensures out.indent == old(out.indent)
    ensures out.lines == old(out.lines) + Render(AlteredStmts(d, name, pk), out.indent, out.step)
  {
    ghost var indent := out.indent;
    ghost var l0 := out.lines;
    out.Open(AlterHeader(name));
    ghost var l1 := out.lines;
    ghost var inner := out.indent;
    DumpDropIndexes(out, d.oldIndexes);
    ghost var l2 := out.lines;
    DumpDropColumns(out, d.oldColumns, pk);
    ghost var l3 := out.lines;
    var paired := DumpAlterColumns(out, d.fromColumns, d.toColumns);
    ghost var l4 := out.lines;
    DumpAddColumns(out, d.newColumns);
    ghost var l5 := out.lines;
    DumpAddIndexes(out, d.newIndexes);
    ghost var l6 := out.lines;
    out.Close();
    FiveSections(l0, l1, l2, l3, l4, l5, l6, out.lines, AlterHeader(name),
      Each(d.oldIndexes, DropIndexLine), Each(d.oldColumns, DropColumnWith(pk)),
      AlterColumnsTexts(d.fromColumns, d.toColumns), Each(d.newColumns, AddColumnLine), Each(d.newIndexes, AddIndexLine),
      indent, out.step, inner);
  }

  // ----- altering the tables both schemas have -----

  /** Tables whose column names are hash keys. */
  predicate ColumnsDistinct(ts: seq<TableData>) {
    forall i :: 0 <= i < |ts| ==> DistinctNames(ts[i].columns)
  }

  /** The alterations of the first `n` table pairs. */
  function AlterTablesUpTo(fs: seq<TableData>, ts: seq<TableData>, n: nat, pk: Column -> bool): seq<Stmt>
    requires n <= |fs| && n <= |ts| && ColumnsDistinct(fs) && ColumnsDistinct(ts)
  {
    if n == 0 then [] else AlterTablesUpTo(fs, ts, n - 1, pk) + AlterTablePair(fs, ts, n - 1, pk)
  }

  /** The alteration of the `k`-th pair of `from_tables.zip( to_tables )`. */
  function AlterTablePair(fs: seq<TableData>, ts: seq<TableData>, k: nat, pk: Column -> bool): seq<Stmt>
    requires k < |fs| && k < |ts| && ColumnsDistinct(fs) && ColumnsDistinct(ts)
    decreases k
  {
    if k == 0 then AlterTableStmts(fs[0], ts[0], pk) else AlterTablePair(fs[1..], ts[1..], k - 1, pk)
  }

  lemma {:induction false} AlterTablePairIs(fs: seq<TableData>, ts: seq<TableData>, k: nat, pk: Column -> bool)
    requires k < |fs| && k < |ts| && ColumnsDistinct(fs) && ColumnsDistinct(ts)
    ensures AlterTablePair(fs, ts, k, pk) == AlterTableStmts(fs[k], ts[k], pk)
    decreases k
  {
    if k > 0 {
      AlterTablePairIs(fs[1..], ts[1..], k - 1, pk);
    }
  }

  /** What `dump_alter_tables` dumps when the tables pair up. */
  function AlterTablesStmts(fs: seq<TableData>, ts: seq<TableData>, pk: Column -> bool): seq<Stmt>
    requires |fs| <= |ts| && ColumnsDistinct(fs) && ColumnsDistinct(ts)
  {
    AlterTablesUpTo(fs, ts, |fs|, pk)
  }

  /** `dump_alter_tables( out, from_tables, to_tables )`: `each_pair( :table, ... )` over
   *  `dump_alter_table`, failing at the first pair whose names differ. */
  method DumpAlterTables(out: Dumper, fromTables: seq<TableData>, toTables: seq<TableData>, pk: Column -> bool)
    returns (o: Outcome)
    requires ColumnsDistinct(fromTables) && ColumnsDistinct(toTables)
    modifies out
    ensures out.indent == old(out.indent)
    ensures TablesPaired(fromTables, toTables) ==> o.Pass?
    ensures o.Pass? ==> TablesPaired(fromTables, toTables)
    ensures o.Pass? ==>
      out.lines == old(out.lines) + Render(AlterTablesStmts(fromTables, toTables, pk), out.indent, out.step)
    ensures o.Fail? ==> o.error.PairingMismatch? && var k := o.error.index;
      k < |fromTables| && k <= |toTables| &&
      (forall j :: 0 <= j < k ==> fromTables[j].name == toTables[j].name) &&
      (k < |toTables| ==> fromTables[k].name != toTables[k].name) &&
      out.lines == old(out.lines) + Render(AlterTablesUpTo(fromTables, toTables, k, pk), out.indent, out.step)
  {
    for i := 0 to |fromTables|
      invariant out.indent == old(out.indent)
      invariant i <= |toTables| && forall j :: 0 <= j < i ==> fromTables[j].name == toTables[j].name
      invariant out.lines == old(out.lines) + Render(AlterTablesUpTo(fromTables, toTables, i, pk), out.indent, out.step)
    {
      var paired := DumpTablePair(out, fromTables, toTables, i, pk, old(out.lines));
      if !paired {
        return Fail(PairingMismatch(i));
      }
    }
    o := Pass;
  }

  /** One turn of the `each_pair` loop of `dump_alter_tables`. */
  method DumpTablePair(out: Dumper, fs: seq<TableData>, ts: seq<TableData>, i: nat, pk: Column -> bool,
                       ghost start: seq<string>) returns (paired: bool)
    requires ColumnsDistinct(fs) && ColumnsDistinct(ts)
    requires i < |fs| && i <= |ts| && forall j :: 0 <= j < i ==> fs[j].name == ts[j].name
    requires out.lines == start + Render(AlterTablesUpTo(fs, ts, i, pk), out.indent, out.step)
    modifies out
    ensures out.indent == old(out.indent)
    ensures paired <==> i < |ts| && fs[i].name == ts[i].name
    ensures paired ==> forall j :: 0 <= j < i + 1 ==> fs[j].name == ts[j].name
    ensures paired ==> out.lines == start + Render(AlterTablesUpTo(fs, ts, i + 1, pk), out.indent, out.step)
    ensures !paired ==> out.lines == old(out.lines)
  {
    if i >= |ts| || fs[i].name != ts[i].name {
      return false;
    }
    ghost var before := out.lines;
    DumpAlterTable(out, fs[i], ts[i], pk);
    AlterTablePairIs(fs, ts, i, pk);
    AlterTablesNext(start, before, out.lines, fs, ts, i, pk, out.indent, out.step);
    paired := true;
  }

  lemma AlterTablesNext(start: seq<string>, before: seq<string>, after: seq<string>,
                        fs: seq<TableData>, ts: seq<TableData>, i: nat, pk: Column -> bool, indent: nat, step: nat)
    requires i < |fs| && i < |ts| && ColumnsDistinct(fs) && ColumnsDistinct(ts)
    requires before == start + Render(AlterTablesUpTo(fs, ts, i, pk), indent, step)
    requires after == before + Render(AlterTablePair(fs, ts, i, pk), indent, step)
    ensures after == start + Render(AlterTablesUpTo(fs, ts, i + 1, pk), indent, step)
  {
    var whole := AlterTablesUpTo(fs, ts, i + 1, pk);
    assert whole == AlterTablesUpTo(fs, ts, i, pk) + AlterTablePair(fs, ts, i, pk);
    RenderedAfter(start, before, after, AlterTablesUpTo(fs, ts, i, pk), AlterTablePair(fs, ts, i, pk), whole, indent, step);
  }

  // ----- creating tables -----

  /** What `dump_add_tables` writes for one table: its columns and indexes, but no
   *  foreign keys, which come in a later pass. */
  function CreateTableStmt(t: TableData): Stmt {
    Block("create_table " + OutValue(Sym(t.name)), ColumnLines(t.columns) + IndexLines(t.indexes))
  }

  function CreateTablesStmts(ts: seq<TableData>): (ss: seq<Stmt>)
    ensures |ss| == |ts| && forall i {:trigger ss[i]} :: 0 <= i < |ts| ==> ss[i] == CreateTableStmt(ts[i])
  {
    seq(|ts|, i requires 0 <= i < |ts| => CreateTableStmt(ts[i]))
  }

  /** `dump_add_tables( out, tables )`. */
  method DumpAddTables(out: Dumper, tables: seq<TableData>)
    modifies out
    ensures out.indent == old(out.indent)
    ensures out.lines == old(out.lines) + Render(CreateTablesStmts(tables), out.indent, out.step)
  {
    ghost var ss := CreateTablesStmts(tables);
    for i := 0 to |tables|
      invariant out.indent == old(out.indent)
      invariant out.lines == old(out.lines) + Render(ss[..i], out.indent, out.step)
    {
      ghost var before := out.lines;
      DumpCreateTable(out, tables[i]);
      RenderNext(old(out.lines), before, out.lines, ss, i, out.indent, out.step);
    }
    assert ss[..|tables|] == ss;
  }

  method DumpCreateTable(out: Dumper, t: TableData)
    modifies out
    ensures out.indent == old(out.indent)
    ensures out.lines == old(out.lines) + RenderStmt(CreateTableStmt(t), out.indent, out.step)
  {
    var header := "create_table " + OutValue(Sym(t.name));
    var cs, xs := ColumnLines(t.columns), IndexLines(t.indexes);
    ghost var indent, step := out.indent, out.step;
    out.Open(header);
    ghost var l1 := out.lines;
    DumpLines(out, cs);
    ghost var l2 := out.lines;
    DumpLines(out, xs);
    ghost var l3 := out.lines;
    out.Close();
    NoneAppended(l3);
    BlockDumped(old(out.lines), l1, l2, l3, l3, out.lines, header, cs, xs, [], indent, step);
    NoneAppended(cs + xs);
  }

  // ----- foreign key blocks -----

  /** What `dump_foreign_keys` writes for one table: an `alter_table` block with a
   *  line per key. */
  function KeyBlock(g: Group, line: ForeignKey -> string): Stmt {
    Block(AlterHeader(g.0), Lines(Each(g.1, line)))
  }

  function KeyBlocks(gs: seq<Group>, line: ForeignKey -> string): (ss: seq<Stmt>)
    ensures |ss| == |gs| && forall i {:trigger ss[i]} :: 0 <= i < |gs| ==> ss[i] == KeyBlock(gs[i], line)
  {
    seq(|gs|, i requires 0 <= i < |gs| => KeyBlock(gs[i], line))
  }

  /** `dump_foreign_keys( out, table_keys, &block )`: a block per table, in the order
   *  `split_keys` first meets the tables. */
  method DumpForeignKeys(out: Dumper, tableKeys: seq<TableKey>, line: ForeignKey -> string)
    modifies out
    ensures out.indent == old(out.indent)
    ensures out.lines == old(out.lines) + Render(KeyBlocks(GroupsOf(tableKeys), line), out.indent, out.step)
  {
    var groups := SplitKeys(tableKeys);
    ghost var ss := KeyBlocks(groups, line);
    for i := 0 to |groups|
      invariant out.indent == old(out.indent)
      invariant out.lines == old(out.lines) + Render(ss[..i], out.indent, out.step)
    {
      ghost var before := out.lines;
      DumpKeyBlock(out, groups[i], line);
      RenderNext(old(out.lines), before, out.lines, ss, i, out.indent, out.step);
    }
    assert ss[..|groups|] == ss;
  }

  method DumpKeyBlock(out: Dumper, g: Group, line: ForeignKey -> string)
    modifies out
    ensures out.indent == old(out.indent)
    ensures out.lines == old(out.lines) + RenderStmt(KeyBlock(g, line), out.indent, out.step)
  {
    var (name, keys) := g;
    out.Open(AlterHeader(name));
    DumpEach(out, keys, line);
    out.Close();
    BlockOfTexts(AlterHeader(name), Each(keys, line), out.indent, out.step);
  }

  /** `dump_add_foreign_keys( out, table_keys )`. */
  method DumpAddForeignKeys(out: Dumper, tableKeys: seq<TableKey>)
    modifies out
    ensures out.indent == old(out.indent)
    ensures out.lines == old(out.lines) + Render(KeyBlocks(GroupsOf(tableKeys), AddKeyLine), out.indent, out.step)
  {
    DumpForeignKeys(out, tableKeys, AddKeyLine);
  }

  /** `dump_drop_foreign_keys( out, table_keys )`. */
  method DumpDropForeignKeys(out: Dumper, tableKeys: seq<TableKey>)
    modifies out
    ensures out.indent == old(out.indent)
    ensures out.lines == old(out.lines) + Render(KeyBlocks(GroupsOf(tableKeys), DropKeyLine), out.indent, out.step)
  {
    DumpForeignKeys(out, tableKeys, DropKeyLine);
  }

  // ----- changes: one schema to another -----

  /** `table_names` of the tables' contents. */
  function TableNamesOf(ts: seq<TableData>): (ns: seq<string>)
    ensures |ns| == |ts| && forall i {:trigger ns[i]} :: 0 <= i < |ts| ==> ns[i] == ts[i].name
  {
    seq(|ts|, i requires 0 <= i < |ts| => ts[i].name)
  }

  /** The first table of the given name, if any. */
  function FindData(ts: seq<TableData>, n: string): (r: Option<TableData>)
    ensures r.Some? <==> n in TableNamesOf(ts)
    ensures r.Some? ==> r.value in ts && r.value.name == n
  {
    if ts == [] then None
    else
      assert TableNamesOf(ts) == [ts[0].name] + TableNamesOf(ts[1..]);
      if ts[0].name == n then Some(ts[0]) else FindData(ts[1..], n)
  }

  /** `named_tables( names )` for names the schema has. */
  function TablesNamed(ts: seq<TableData>, names: seq<string>): (r: seq<TableData>)
    requires forall i :: 0 <= i < |names| ==> names[i] in TableNamesOf(ts)
    ensures |r| == |names| && forall i {:trigger r[i]} :: 0 <= i < |names| ==> r[i] in ts && r[i].name == names[i]
  {
    seq(|names|, i requires 0 <= i < |names| => FindData(ts, names[i]).value)
  }

  /** What `changes` finds by comparing two schemas: the foreign keys to drop and to
   *  add, the tables to drop and to create, and the tables both have, in pairs. */
  datatype SchemaDiff = SchemaDiff(oldKeys: seq<TableKey>, newKeys: seq<TableKey>,
                                   oldTables: seq<TableData>, newTables: seq<TableData>,
                                   fromTables: seq<TableData>, toTables: seq<TableData>)

  /** The comparison at the start of `changes( from, to )`. */
  function Compare(from: seq<TableData>, to: seq<TableData>): (d: SchemaDiff)
    requires ColumnsDistinct(from) && ColumnsDistinct(to)
    ensures |d.fromTables| == |d.toTables| && TablesPaired(d.fromTables, d.toTables)
    ensures ColumnsDistinct(d.fromTables) && ColumnsDistinct(d.toTables)
  {
    var (oldKeys, _, newKeys) := Separate(FlattenKeys(from), FlattenKeys(to), TableKeyEq);
    var (oldNames, sameNames, newNames) := Separate(TableNamesOf(from), TableNamesOf(to), Same);
    SeparatePresent(TableNamesOf(from), TableNamesOf(to));
    SchemaDiff(oldKeys, newKeys, TablesNamed(from, oldNames), TablesNamed(to, newNames),
               TablesNamed(from, sameNames), TablesNamed(to, sameNames))
  }

  /** The five passes of `changes`, in order: dropped foreign keys, dropped tables,
   *  altered tables, created tables, added foreign keys. */
  function DiffStmts(d: SchemaDiff, pk: Column -> bool): seq<Stmt>
    requires |d.fromTables| <= |d.toTables| && ColumnsDistinct(d.fromTables) && ColumnsDistinct(d.toTables)
  {
    KeyBlocks(GroupsOf(d.oldKeys), DropKeyLine) + Lines(Each(d.oldTables, DropTableLine)) +
    AlterTablesStmts(d.fromTables, d.toTables, pk) + CreateTablesStmts(d.newTables) +
    KeyBlocks(GroupsOf(d.newKeys), AddKeyLine)
  }

  /** What `changes( from, to, out )` dumps. */
  function ChangesStmts(from: seq<TableData>, to: seq<TableData>, pk: Column -> bool): seq<Stmt>
    requires ColumnsDistinct(from) && ColumnsDistinct(to)
  {
    DiffStmts(Compare(from, to), pk)
  }

  /** Dumping `a` and then `b` appends the lines of `a + b`. */
  lemma TwoParts(l0: seq<string>, l1: seq<string>, l2: seq<string>, a: seq<Stmt>, b: seq<Stmt>, indent: nat, step: nat)
    requires l1 == l0 + Render(a, indent, step)
    requires l2 == l1 + Render(b, indent, step)
    ensures l2 == l0 + Render(a + b, indent, step)
  {
    RenderAppend(a, b, indent, step);
    Assoc(l0, Render(a, indent, step), Render(b, indent, step));
  }

  lemma FiveParts(l0: seq<string>, l1: seq<string>, l2: seq<string>, l3: seq<string>, l4: seq<string>,
                  l5: seq<string>, a: seq<Stmt>, b: seq<Stmt>, c: seq<Stmt>, d: seq<Stmt>, e: seq<Stmt>,
                  indent: nat, step: nat)
    requires l1 == l0 + Render(a, indent, step)
    requires l2 == l1 + Render(b, indent, step)
    requires l3 == l2 + Render(c, indent, step)
    requires l4 == l3 + Render(d, indent, step)
    requires l5 == l4 + Render(e, indent, step)
    ensures l5 == l0 + Render(a + b + c + d + e, indent, step)
  {
    TwoParts(l0, l1, l2, a, b, indent, step);
    TwoParts(l0, l2, l3, a + b, c, indent, step);
    TwoParts(l0, l3, l4, a + b + c, d, indent, step);
    TwoParts(l0, l4, l5, a + b + c + d, e, indent, step);
  }

  /** The body of `changes` once the schemas are compared. */
  method DumpDiff(out: Dumper, d: SchemaDiff, pk: Column -> bool)
    requires |d.fromTables| == |d.toTables| && TablesPaired(d.fromTables, d.toTables)
    requires ColumnsDistinct(d.fromTables) && ColumnsDistinct(d.toTables)
    modifies out
    ensures out.indent == old(out.indent)
    ensures out.lines == old(out.lines) + Render(DiffStmts(d, pk), out.indent, out.step)
  {
    ghost var l0 := out.lines;
    DumpDropForeignKeys(out, d.oldKeys);
    ghost var l1 := out.lines;
    DumpDropTables(out, d.oldTables);
    ghost var l2 := out.lines;
    var paired := DumpAlterTables(out, d.fromTables, d.toTables, pk);
    ghost var l3 := out.lines;
    DumpAddTables(out, d.newTables);
    ghost var l4 := out.lines;
    DumpAddForeignKeys(out, d.newKeys);
    RenderTexts(Each(d.oldTables, DropTableLine), out.indent, out.step);
    FiveParts(l0, l1, l2, l3, l4, out.lines,
      KeyBlocks(GroupsOf(d.oldKeys), DropKeyLine), Lines(Each(d.oldTables, DropTableLine)),
      AlterTablesStmts(d.fromTables, d.toTables, pk), CreateTablesStmts(d.newTables),
      KeyBlocks(GroupsOf(d.newKeys), AddKeyLine), out.indent, out.step);
  }

  /** `changes( from, to, out )` over the tables' contents. */
  method DumpChanges(out: Dumper, from: seq<TableData>, to: seq<TableData>, pk: Column -> bool)
    requires ColumnsDistinct(from) && ColumnsDistinct(to)
    modifies out
    ensures out.indent == old(out.indent)
    ensures out.lines == old(out.lines) + Render(ChangesStmts(from, to, pk), out.indent, out.step)
  {
    var fromKeys := PrepareKeys(from);
    var toKeys := PrepareKeys(to);
    var (oldKeys, _, newKeys) := Separate(fromKeys, toKeys, TableKeyEq);
    var fromNames, toNames := TableNamesOf(from), TableNamesOf(to);
    var (oldNames, sameNames, newNames) := Separate(fromNames, toNames, Same);
    SeparatePresent(fromNames, toNames);
    var d := SchemaDiff(oldKeys, newKeys, TablesNamed(from, oldNames), TablesNamed(to, newNames),
                        TablesNamed(from, sameNames), TablesNamed(to, sameNames));
    assert d == Compare(from, to);
    DumpDiff(out, d, pk);
  }

  /** `changes( from, to, out )`: the migration body turning schema `from` into `to`. */
  method Changes(from: Schema, to: Schema, out: Dumper, pk: Column -> bool)
    requires ColumnsDistinct(from.Data()) && ColumnsDistinct(to.Data())
    modifies out
    ensures out.indent == old(out.indent)
    ensures out.lines == old(out.lines) + Render(ChangesStmts(old(from.Data()), old(to.Data()), pk), out.indent, out.step)
  {
    DumpChanges(out, from.Data(), to.Data(), pk);
  }

  /** Rendering a single block. */
  lemma BlockLines(h: string, body: seq<Stmt>, indent: nat, step: nat)
    ensures Render([Block(h, body)], indent, step) ==
      [Indented(indent, h + " do")] + Render(body, indent + step, step) + [Indented(indent, "end")]
  {
    RenderOne(Block(h, body), indent, step);
  }

  /** What `change_migration( from, to )` dumps: the changes inside a `change` block. */
  function ChangeMigrationStmts(from: seq<TableData>, to: seq<TableData>, pk: Column -> bool): seq<Stmt>
    requires ColumnsDistinct(from) && ColumnsDistinct(to)
  {
    [Block("Sequel.migration", [Block("change", ChangesStmts(from, to, pk))])]
  }

  /** What `full_migration( from, to )` dumps: the changes from `from` to `to` in an
   *  `up` block and those back from `to` to `from` in a `down` block. */
  function FullMigrationStmts(from: seq<TableData>, to: seq<TableData>, pk: Column -> bool): seq<Stmt>
    requires ColumnsDistinct(from) && ColumnsDistinct(to)
  {
    [Block("Sequel.migration", [Block("up", ChangesStmts(from, to, pk)), Block("down", ChangesStmts(to, from, pk))])]
  }

  /** `change_migration( from, to, out )`. */
  method ChangeMigration(from: Schema, to: Schema, out: Dumper, pk: Column -> bool)
    requires ColumnsDistinct(from.Data()) && ColumnsDistinct(to.Data())
    modifies out
    ensures out.indent == old(out.indent)
    ensures out.lines == old(out.lines) + Render(ChangeMigrationStmts(old(from.Data()), old(to.Data()), pk), out.indent, out.step)
  {
    var f, t := from.Data(), to.Data();
    ghost var indent := out.indent;
    out.Open("Sequel.migration");
    ghost var l1 := out.lines;
    ghost var inner := out.indent;
    DumpDirection(out, "change", f, t, pk);
    ghost var l2 := out.lines;
    out.Close();
    OneBlock(old(out.lines), l1, l2, out.lines, "Sequel.migration", [Block("change", ChangesStmts(f, t, pk))],
             indent, out.step, inner);
  }

  /** `full_migration( from, to, out )`. */
  method FullMigration(from: Schema, to: Schema, out: Dumper, pk: Column -> bool)
    requires ColumnsDistinct(from.Data()) && ColumnsDistinct(to.Data())
    modifies out
    ensures out.indent == old(out.indent)
    ensures out.lines == old(out.lines) + Render(FullMigrationStmts(old(from.Data()), old(to.Data()), pk), out.indent, out.step)
  {
    var f, t := from.Data(), to.Data();
    ghost var indent := out.indent;
    out.Open("Sequel.migration");
    ghost var l1 := out.lines;
    ghost var inner := out.indent;
    DumpBothWays(out, f, t, pk);
    ghost var l2 := out.lines;
    out.Close();
    OneBlock(old(out.lines), l1, l2, out.lines, "Sequel.migration",
             [Block("up", ChangesStmts(f, t, pk)), Block("down", ChangesStmts(t, f, pk))], indent, out.step, inner);
  }

  /** The body of `full_migration`: `up`, then `down`. */
  method DumpBothWays(out: Dumper, from: seq<TableData>, to: seq<TableData>, pk: Column -> bool)
    requires ColumnsDistinct(from) && ColumnsDistinct(to)
    modifies out
    ensures out.indent == old(out.indent)
    ensures out.lines == old(out.lines) +
      Render([Block("up", ChangesStmts(from, to, pk)), Block("down", ChangesStmts(to, from, pk))], out.indent, out.step)
  {
    ghost var up := [Block("up", ChangesStmts(from, to, pk))];
    ghost var down := [Block("down", ChangesStmts(to, from, pk))];
    DumpDirection(out, "up", from, to, pk);
    ghost var l1 := out.lines;
    DumpDirection(out, "down", to, from, pk);
    TwoParts(old(out.lines), l1, out.lines, up, down, out.indent, out.step);
    assert up + down == [Block("up", ChangesStmts(from, to, pk)), Block("down", ChangesStmts(to, from, pk))];
  }

  /** The changes inside a block of their own: `change`, or a direction of `full_migration`. */
  method DumpDirection(out: Dumper, name: string, from: seq<TableData>, to: seq<TableData>, pk: Column -> bool)
    requires ColumnsDistinct(from) && ColumnsDistinct(to)
    modifies out
    ensures out.indent == old(out.indent)
    ensures out.lines == old(out.lines) + Render([Block(name, ChangesStmts(from, to, pk))], out.indent, out.step)
  {
    ghost var indent := out.indent;
    out.Open(name);
    ghost var l1 := out.lines;
    ghost var inner := out.indent;
    DumpChanges(out, from, to, pk);
    ghost var l2 := out.lines;
    out.Close();
    OneBlock(old(out.lines), l1, l2, out.lines, name, ChangesStmts(from, to, pk), indent, out.step, inner);
  }

  lemma OneBlock(l0: seq<string>, l1: seq<string>, l2: seq<string>, l3: seq<string>, h: string, body: seq<Stmt>,
                 indent: nat, step: nat, inner: nat)
    requires inner == indent + step
    requires l1 == l0 + [Indented(indent, h + " do")]
    requires l2 == l1 + Render(body, inner, step)
    requires l3 == l2 + [Indented(indent, "end")]
    ensures l3 == l0 + Render([Block(h, body)], indent, step)
  {
    BlockLines(h, body, indent, step);
  }
}
