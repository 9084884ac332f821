/** Tables and schemas (schema.rb, classes `Table` and `Schema`).
 *
 *  A table keeps its columns in a hash keyed by column name, in insertion
 *  order, and appends indexes and foreign keys to lists.  A schema keeps its
 *  tables in a hash keyed by table name, together with the rule table that
 *  resolves shorthand statements.  Both are objects whose methods update them
 *  in place; `TableData` is the value a table currently holds, and the
 *  functions below say what each method turns that value into.
 */
module SchemaModel {
  import opened Options
  import opened Errors
  import opened Output
  import opened Dumper
  import opened Entities
  import opened Defaults
  import Sequences

  // ----- what the table methods do, on values -----

  function EmptyTable(name: string): TableData {
    TableData(name, [], [], [])
  }

  /** `add_column( type, name, opts )`: fails on a name already present, else appends the column. */
  function ColumnAdded(t: TableData, ty: Value, name: Value, opts: Opts): Result<TableData> {
    if name in ColumnNames(t.columns) then Err(DuplicateColumn(name, t.name))
    else Ok(t.(columns := t.columns + [Column(ty, name, opts)]))
  }

  /** `add_index( columns, opts )`: appends the index. */
  function IndexAdded(t: TableData, columns: Value, opts: Opts): TableData {
    t.(indexes := t.indexes + [NewIndex(columns, opts)])
  }

  /** `add_foreign_key( columns, table_name, opts )`: a single column also becomes an
   *  `integer` column sharing the key's options hash, so it sees `:key` wrapped too. */
  function ForeignKeyAdded(t: TableData, columns: Value, target: Value, opts: Opts): Result<TableData> {
    var key := NewForeignKey(columns, target, opts);
    if columns.List? then Ok(t.(foreignKeys := t.foreignKeys + [key]))
    else
      match ColumnAdded(t, Sym("integer"), columns, key.opts)
      case Err(e) => Err(e)
      case Ok(t') => Ok(t'.(foreignKeys := t'.foreignKeys + [key]))
  }

  /** The positional arguments and the options of a resolved statement with
   *  `n` positional arguments, or nothing if its arguments have another shape. */
  function Shape(args: seq<Arg>, n: nat): Option<(seq<Value>, Opts)> {
    if |args| == n && AllPositional(args) then Some((Values(args), []))
    else if |args| == n + 1 && args[n].Hash? && AllPositional(args[..n]) then Some((Values(args[..n]), args[n].opts))
    else None
  }

  predicate AllPositional(args: seq<Arg>) {
    forall i :: 0 <= i < |args| ==> args[i].Pos?
  }

  /** The values of positional arguments. */
  function Values(args: seq<Arg>): (vs: seq<Value>)
    requires AllPositional(args)
    ensures |vs| == |args| && forall i :: 0 <= i < |args| ==> vs[i] == args[i].value
  {
    seq(|args|, i requires 0 <= i < |args| => args[i].value)
  }

  /** The rest of `add_definition`: dispatch a resolved statement by its name. */
  function Defined(t: TableData, stmt: string, args: seq<Arg>): Result<TableData> {
    if stmt == "index" then
      match Shape(args, 1)
      case Some((p, o)) => Ok(IndexAdded(t, p[0], o))
      case None => Err(WrongArguments(stmt))
    else if stmt == "foreign_key" then
      match Shape(args, 2)
      case Some((p, o)) => ForeignKeyAdded(t, p[0], p[1], o)
      case None => Err(WrongArguments(stmt))
    else
      match Shape(args, 1)
      case Some((p, o)) => ColumnAdded(t, Sym(stmt), p[0], o)
      case None => Err(WrongArguments(stmt))
  }

  /** A statement as written in a table block: its name and its arguments. */
  type Statement = (string, seq<Arg>)

  /** One statement of a table block: `add_definition` after `apply_defaults`. */
  function Step(t: TableData, rules: Rules, s: Statement): Result<TableData> {
    var (stmt, args) := Resolve(rules, t.name, s.0, s.1);
    Defined(t, stmt, args)
  }

  /** `Step` under fixed rules, as a function of the table and the statement. */
  function StepWith(rules: Rules): (TableData, Statement) -> Result<TableData> {
    (t: TableData, s: Statement) => Step(t, rules, s)
  }

  /** Runs statements in order from the `i`-th on, stopping at the first that fails;
   *  the table keeps what the statements before it added.  The importer runs its
   *  database records through the same fold. */
  function Fold<R>(t: TableData, step: (TableData, R) -> Result<TableData>, stmts: seq<R>, i: nat): (TableData, Outcome)
    requires i <= |stmts|
    decreases |stmts| - i
  {
    if i == |stmts| then (t, Pass)
    else
      match step(t, stmts[i])
      case Err(e) => (t, Fail(e))
      case Ok(t') => Fold(t', step, stmts, i + 1)
  }

  /** A table block: its statements in order through `apply_defaults` and `add_definition`. */
  function DefineAll(t: TableData, rules: Rules, stmts: seq<Statement>): (TableData, Outcome) {
    Fold(t, StepWith(rules), stmts, 0)
  }

  /** What `Table#dump` writes: a `table` block with a line per column, index and foreign key. */
  function TableStmt(t: TableData): Stmt {
    Block(TableHeader(t.name),
      ColumnLines(t.columns) + IndexLines(t.indexes) + ForeignKeyLines(t.foreignKeys))
  }

  function ColumnLines(cs: seq<Column>): (ss: seq<Stmt>)
    ensures |ss| == |cs| && AllLines(ss)
  {
    seq(|cs|, i requires 0 <= i < |cs| => Line(cs[i].DumpLine()))
  }

  function IndexLines(xs: seq<Index>): (ss: seq<Stmt>)
    ensures |ss| == |xs| && AllLines(ss)
  {
    seq(|xs|, i requires 0 <= i < |xs| => Line(xs[i].DumpLine()))
  }

  function ForeignKeyLines(ks: seq<ForeignKey>): (ss: seq<Stmt>)
    ensures |ss| == |ks| && AllLines(ss)
  {
    seq(|ks|, i requires 0 <= i < |ks| => Line(ks[i].DumpLine()))
  }

  /** Statements that are all single lines. */
  predicate AllLines(ss: seq<Stmt>) {
    forall i :: 0 <= i < |ss| ==> ss[i].Line?
  }

  /** What `Schema#dump` writes: the tables' dumps in table order. */
  function SchemaStmts(ts: seq<TableData>): (ss: seq<Stmt>)
    ensures |ss| == |ts| && forall i :: 0 <= i < |ts| ==> ss[i] == TableStmt(ts[i])
  {
    seq(|ts|, i requires 0 <= i < |ts| => TableStmt(ts[i]))
  }

  /** Ruby's `String#<=>` on the characters of two strings (symbols sort by their text). */
  predicate StringLe(a: string, b: string)
    decreases |a|
  {
    a == [] || (b != [] && (a[0] < b[0] || (a[0] == b[0] && StringLe(a[1..], b[1..]))))
  }

  /** The default name of a join table: `[ table_left, table_right ].sort.join( '_' )`. */
  function JoinName(left: string, right: string): string {
    if StringLe(left, right) then left + "_" + right else right + "_" + left
  }

  /** The statements `add_join_table` runs in the new table, before any block of its own:
   *  a foreign key to each table... */
  function JoinStatements(idLeft: Value, tableLeft: string, idRight: Value, tableRight: string): seq<Statement> {
    JoinForeignKeys(idLeft, tableLeft, idRight, tableRight) + JoinKeyIndexes(idLeft, idRight)
  }

  function JoinForeignKeys(idLeft: Value, tableLeft: string, idRight: Value, tableRight: string): seq<Statement> {
    [("foreign_key", [Pos(idLeft), Pos(Sym(tableLeft))]), ("foreign_key", [Pos(idRight), Pos(Sym(tableRight))])]
  }

  /** ...then the compound primary key and the unique index the other way round. */
  function JoinKeyIndexes(idLeft: Value, idRight: Value): seq<Statement> {
    [("primary_key", [Pos(List([idLeft, idRight]))]), ("unique", [Pos(List([idRight, idLeft]))])]
  }

  /** The rule table after `set_defaults( name, *args, &block )`, and whether arguments were left over. */
  function DefaultsSet(rules: Rules, name: string, args: seq<Arg>, block: Option<Callback>): (Rules, Outcome) {
    var hasAlias := |args| > 0 && args[0].Pos? && args[0].value.Sym?;
    var aliases := if hasAlias then rules.aliases[name := args[0].value.name] else rules.aliases;
    var rest := if hasAlias then args[1..] else args;
    var hasHash := |rest| > 0 && rest[|rest| - 1].Hash?;
    var defaults := if hasHash then rules.defaults[name := rest[|rest| - 1].opts] else rules.defaults;
    var rest := if hasHash then rest[..|rest| - 1] else rest;
    var callbacks := if block.Some? then rules.callbacks[name := block.value] else rules.callbacks - {name};
    (Rules(aliases, defaults, callbacks), if rest == [] then Pass else Fail(InvalidDefaults(name)))
  }

  /** The rule table after `set_standard_defaults`: every standard name is reassigned,
   *  other names keep what they had. */
  function Standardised(rules: Rules): Rules {
    Rules(rules.aliases + StandardAliases, rules.defaults + StandardDefaults, (rules.callbacks - StandardNames) + StandardCallbacks)
  }

  lemma StandardDefaultsWellFormed()
    ensures forall k :: k in StandardDefaults ==> UniqueKeys(StandardDefaults[k])
  {
    assert StandardRules().defaults == StandardDefaults;
  }

  /** Adding the standard rules to a well-formed rule table keeps it well-formed. */
  lemma StandardisedWellFormed(rules: Rules)
    requires WellFormed(rules)
    ensures WellFormed(Standardised(rules))
  {
    StandardDefaultsWellFormed();
  }

  predicate DistinctStrings(ns: seq<string>) {
    forall i, j :: 0 <= i < j < |ns| ==> ns[i] != ns[j]
  }

  class Table {
    const schema: Schema
    const name: string
    var columns: seq<Column>
    var indexes: seq<Index>
    var foreignKeys: seq<ForeignKey>

    /** Column names are hash keys, so no two columns share one. */
    ghost predicate Valid()
      reads this
    {
      DistinctNames(columns)
    }

    /** The table's current contents as a value. */
    function Data(): TableData
      reads this
    {
      TableData(name, columns, indexes, foreignKeys)
    }

    /** `Table.new( schema, name )`: an empty table. */
    constructor (schema: Schema, name: string)
      ensures this.schema == schema && Data() == EmptyTable(name) && Valid()
    {
      this.schema := schema;
      this.name := name;
      columns := [];
      indexes := [];
      foreignKeys := [];
    }

    /** `named_columns( names )`: the column of each name, nil (`None`) where there is none. */
    function NamedColumns(names: seq<Value>): (r: seq<Option<Column>>)
      reads this
      requires Valid()
      ensures |r| == |names|
      ensures forall i :: 0 <= i < |names| ==> (r[i].Some? <==> names[i] in ColumnNames(columns))
      ensures forall i :: 0 <= i < |names| && r[i].Some? ==> r[i].value in columns && r[i].value.name == names[i]
    {
      var cs := columns;
      seq(|names|, i requires 0 <= i < |names| => Lookup(cs, names[i]))
    }

    method AddColumn(ty: Value, cname: Value, opts: Opts) returns (o: Outcome)
      requires Valid()
      modifies this
      ensures Valid()
      ensures match ColumnAdded(old(Data()), ty, cname, opts)
        case Ok(t) => o == Pass && Data() == t
        case Err(e) => o == Fail(e) && Data() == old(Data())
    {
      if cname in ColumnNames(columns) {
        return Fail(DuplicateColumn(cname, name));
      }
      columns := columns + [Column(ty, cname, opts)];
      o := Pass;
    }

    method AddIndex(cols: Value, opts: Opts)
      modifies this
      ensures Data() == IndexAdded(old(Data()), cols, opts)
      ensures columns == old(columns)
    {
      indexes := indexes + [NewIndex(cols, opts)];
    }

    method AddForeignKey(cols: Value, target: Value, opts: Opts) returns (o: Outcome)
      requires Valid()
      modifies this
      ensures Valid()
      ensures match ForeignKeyAdded(old(Data()), cols, target, opts)
        case Ok(t) => o == Pass && Data() == t
        case Err(e) => o == Fail(e) && Data() == old(Data())
    {
      var key := NewForeignKey(cols, target, opts);
      if !cols.List? {
        o := AddColumn(Sym("integer"), cols, key.opts);
        if o.Fail? {
          return;
        }
      }
      foreignKeys := foreignKeys + [key];
      o := Pass;
    }

    /** `add_definition( name, *args )`: resolve the statement through the schema's
     *  rules, then add the index, foreign key or column it names. */
    method AddDefinition(stmt: string, args: seq<Arg>) returns (o: Outcome)
      requires Valid()
      modifies this
      ensures Valid()
      ensures match Step(old(Data()), schema.Rules(), (stmt, args))
        case Ok(t) => o == Pass && Data() == t
        case Err(e) => o == Fail(e) && Data() == old(Data())
    {
      var s, a := schema.ApplyDefaults(name, stmt, args);
      o := AddResolved(s, a);
    }

    /** The dispatch of `add_definition` on an already resolved statement. */
    method AddResolved(stmt: string, args: seq<Arg>) returns (o: Outcome)
      requires Valid()
      modifies this
      ensures Valid()
      ensures match Defined(old(Data()), stmt, args)
        case Ok(t) => o == Pass && Data() == t
        case Err(e) => o == Fail(e) && Data() == old(Data())
    {
      if stmt == "index" {
        var shape := Shape(args, 1);
        if shape.None? {
          return Fail(WrongArguments(stmt));
        }
        AddIndex(shape.value.0[0], shape.value.1);
        o := Pass;
      } else if stmt == "foreign_key" {
        var shape := Shape(args, 2);
        if shape.None? {
          return Fail(WrongArguments(stmt));
        }
        o := AddForeignKey(shape.value.0[0], shape.value.0[1], shape.value.1);
      } else {
        var shape := Shape(args, 1);
        if shape.None? {
          return Fail(WrongArguments(stmt));
        }
        o := AddColumn(Sym(stmt), shape.value.0[0], shape.value.1);
      }
    }

    /** Runs statement `i` of a block; the rest of the block then runs from the new state,
     *  unless the statement failed. */
    method AddNext(stmts: seq<Statement>, i: nat) returns (o: Outcome)
      requires Valid() && i < |stmts|
      modifies this
      ensures Valid()
      ensures o.Pass? ==> Fold(old(Data()), StepWith(schema.Rules()), stmts, i) == Fold(Data(), StepWith(schema.Rules()), stmts, i + 1)
      ensures o.Fail? ==> Fold(old(Data()), StepWith(schema.Rules()), stmts, i) == (Data(), o)
    {
      ghost var before := Data();
      o := AddDefinition(stmts[i].0, stmts[i].1);
      if o.Fail? {
        FoldFails(before, schema.Rules(), stmts, i);
      } else {
        FoldStep(before, schema.Rules(), stmts, i, Data());
      }
    }

    /** The body of a `table` block: its statements in order, up to the first failure. */
    method AddDefinitions(stmts: seq<Statement>) returns (o: Outcome)
      requires Valid()
      modifies this
      ensures Valid()
      ensures (Data(), o) == DefineAll(old(Data()), schema.Rules(), stmts)
    {
      ghost var step := StepWith(schema.Rules());
      var i := 0;
      while i < |stmts|
        invariant 0 <= i <= |stmts| && Valid()
        invariant DefineAll(old(Data()), schema.Rules(), stmts) == Fold(Data(), step, stmts, i)
      {
        o := AddNext(stmts, i);
        if o.Fail? {
          return;
        }
        i := i + 1;
      }
      o := Pass;
    }

    /** `dump( out )`: the table block, one line per column, index and foreign key. */
    method Dump(out: Dumper)
      modifies out
      ensures out.lines == old(out.lines) + RenderStmt(TableStmt(Data()), old(out.indent), out.step)
      ensures out.indent == old(out.indent)
    {
      var cs, xs, ks := ColumnLines(columns), IndexLines(indexes), ForeignKeyLines(foreignKeys);
      ghost var indent, step, before := out.indent, out.step, out.lines;
      assert TableStmt(Data()) == Block(TableHeader(name), cs + xs + ks);
      out.Open(TableHeader(name));
      ghost var l1 := out.lines;
      assert out.indent == indent + step && out.step == step;
      DumpLines(out, cs);
      ghost var l2 := out.lines;
      assert l2 == l1 + Render(cs, indent + step, step);
      DumpLines(out, xs);
      ghost var l3 := out.lines;
      assert l3 == l2 + Render(xs, indent + step, step);
      DumpLines(out, ks);
      ghost var l4 := out.lines;
      assert l4 == l3 + Render(ks, indent + step, step);
      out.Close();
      BlockDumped(before, l1, l2, l3, l4, out.lines, TableHeader(name), cs, xs, ks, indent, step);
    }
  }

  /** The header line of a table's block. */
  function TableHeader(name: string): string {
    "table " + OutValue(Sym(name))
  }

  /** A block dumped step by step, header, three parts and `end`, is the block rendered. */
  lemma BlockDumped(p: seq<string>, l1: seq<string>, l2: seq<string>, l3: seq<string>, l4: seq<string>, l5: seq<string>,
                    h: string, a: seq<Stmt>, b: seq<Stmt>, c: seq<Stmt>, indent: nat, step: nat)
    requires l1 == p + [Indented(indent, h + " do")]
    requires l2 == l1 + Render(a, indent + step, step)
    requires l3 == l2 + Render(b, indent + step, step)
    requires l4 == l3 + Render(c, indent + step, step)
    requires l5 == l4 + [Indented(indent, "end")]
    ensures l5 == p + RenderStmt(Block(h, a + b + c), indent, step)
  {
    BlockRendered(p, h, a, b, c, indent, step);
  }

  /** The lines of a block whose body has three parts, appended to `p` part by part. */
  lemma BlockRendered(p: seq<string>, h: string, a: seq<Stmt>, b: seq<Stmt>, c: seq<Stmt>, indent: nat, step: nat)
    ensures p + RenderStmt(Block(h, a + b + c), indent, step) ==
      p + [Indented(indent, h + " do")] + Render(a, indent + step, step) + Render(b, indent + step, step) +
      Render(c, indent + step, step) + [Indented(indent, "end")]
  {
    var ra, rb, rc := Render(a, indent + step, step), Render(b, indent + step, step), Render(c, indent + step, step);
    RenderAppend(a, b, indent + step, step);
    RenderAppend(a + b, c, indent + step, step);
    assert RenderStmt(Block(h, a + b + c), indent, step) ==
      [Indented(indent, h + " do")] + (ra + rb + rc) + [Indented(indent, "end")];
    ConcatAssoc(p, [Indented(indent, h + " do")], ra, rb, rc, [Indented(indent, "end")]);
  }

  lemma ConcatAssoc(p: seq<string>, x: seq<string>, a: seq<string>, b: seq<string>, c: seq<string>, y: seq<string>)
    ensures p + (x + (a + b + c) + y) == p + x + a + b + c + y
  {
  }

  /** Dumps single lines one after another, as the loops of `Table#dump` do. */
  method DumpLines(out: Dumper, ss: seq<Stmt>)
    requires AllLines(ss)
    modifies out
    ensures out.lines == old(out.lines) + Render(ss, out.indent, out.step)
    ensures out.indent == old(out.indent)
  {
    for i := 0 to |ss|
      invariant out.indent == old(out.indent)
      invariant out.lines == old(out.lines) + Render(ss[..i], out.indent, out.step)
    {
      out.Dump(ss[i].text);
      assert ss[..i + 1] == ss[..i] + [ss[i]];
      RenderAppend(ss[..i], [ss[i]], out.indent, out.step);
      RenderOne(ss[i], out.indent, out.step);
    }
    assert ss[..|ss|] == ss;
  }

  /** The first column of the given name, if any. */
  function Lookup(cs: seq<Column>, n: Value): (r: Option<Column>)
    ensures r.Some? <==> n in ColumnNames(cs)
    ensures r.Some? ==> r.value in cs && r.value.name == n
  {
    if cs == [] then None
    else if cs[0].name == n then Some(cs[0])
    else
      var r := Lookup(cs[1..], n);
      assert ColumnNames(cs) == [cs[0].name] + ColumnNames(cs[1..]);
      r
  }

  class Schema {
    var tables: seq<Table>
    var aliases: map<string, string>
    var defaults: map<string, Opts>
    var callbacks: map<string, Callback>

    /** Table names are hash keys, and every stored default is a well-formed hash. */
    ghost predicate Valid()
      reads this
    {
      DistinctStrings(TableNames()) && WellFormed(Rules())
    }

    /** The rule table the schema currently holds. */
    function Rules(): Rules
      reads this
    {
      Defaults.Rules(aliases, defaults, callbacks)
    }

    /** `table_names`: the table keys in insertion order. */
    function TableNames(): (ns: seq<string>)
      reads this
      ensures |ns| == |tables| && forall i :: 0 <= i < |tables| ==> ns[i] == tables[i].name
    {
      seq(|tables|, i requires 0 <= i < |tables| reads this => tables[i].name)
    }

    /** `named_tables( names )`: the table of each name, nil (`None`) where there is none. */
    function NamedTables(names: seq<string>): (r: seq<Option<Table>>)
      reads this
      ensures |r| == |names|
      ensures forall i :: 0 <= i < |names| ==> (r[i].Some? <==> names[i] in TableNames())
      ensures forall i :: 0 <= i < |names| && r[i].Some? ==> r[i].value in tables && r[i].value.name == names[i]
    {
      seq(|names|, i requires 0 <= i < |names| reads this => FindTable(tables, names[i]))
    }

    /** The contents of every table, in table order. */
    function Data(): (ts: seq<TableData>)
      reads this, tables
      ensures |ts| == |tables| && forall i :: 0 <= i < |tables| ==> ts[i] == tables[i].Data()
    {
      seq(|tables|, i requires 0 <= i < |tables| reads this, tables => tables[i].Data())
    }

    /** `Schema.new`: no tables and no rules. */
    constructor ()
      ensures tables == [] && Rules() == Defaults.Rules(map[], map[], map[]) && Valid()
    {
      tables := [];
      aliases := map[];
      defaults := map[];
      callbacks := map[];
    }

    /** `add_table( name )`: fails on a name already present, else appends an empty table. */
    method AddTable(tname: string) returns (r: Result<Table>)
      requires Valid()
      modifies this
      ensures Valid() && Rules() == old(Rules())
      ensures tname in old(TableNames()) ==> r == Err(DuplicateTable(tname)) && tables == old(tables)
      ensures tname !in old(TableNames()) ==>
        r.Ok? && fresh(r.value) && tables == old(tables) + [r.value] &&
        r.value.schema == this && r.value.Data() == EmptyTable(tname) && r.value.Valid()
    {
      if tname in TableNames() {
        return Err(DuplicateTable(tname));
      }
      var t := new Table(this, tname);
      tables := tables + [t];
      r := Ok(t);
    }

    /** `add_join_table( id_left, table_left, id_right, table_right, name, &block )`: a table
     *  named after both tables (unless named explicitly) holding a foreign key to each,
     *  their compound primary key and a unique index the other way round, then the
     *  statements of its own block.  The table stays in the schema even when one of its
     *  statements fails. */
    method AddJoinTable(idLeft: Value, tableLeft: string, idRight: Value, tableRight: string, jname: Option<string>,
                        block: seq<Statement>)
      returns (r: Result<Table>)
      requires Valid()
      modifies this
      ensures Valid() && Rules() == old(Rules())
      ensures var n := if jname.Some? then jname.value else JoinName(tableLeft, tableRight);
        if n in old(TableNames()) then r == Err(DuplicateTable(n)) && tables == old(tables)
        else
          |tables| == |old(tables)| + 1 && tables[..|old(tables)|] == old(tables) &&
          var t := tables[|old(tables)|];
          fresh(t) && t.schema == this && t.Valid() &&
          var (d, o) := DefineAll(EmptyTable(n), Rules(), JoinStatements(idLeft, tableLeft, idRight, tableRight) + block);
          t.Data() == d && (if o.Pass? then r == Ok(t) else r == Err(o.error))
    {
      var n := if jname.Some? then jname.value else JoinName(tableLeft, tableRight);
      r := AddTable(n);
      if r.Err? {
        return;
      }
      var t := r.value;
      var o := t.AddDefinitions(JoinStatements(idLeft, tableLeft, idRight, tableRight) + block);
      if o.Fail? {
        r := Err(o.error);
      }
    }

    /** `set_defaults( name, *args, &block )`: a leading symbol sets the alias, a trailing
     *  hash the default options, and the block (or its absence) the callback; anything
     *  left over then fails, after the rules have been updated. */
    method SetDefaults(sname: string, args: seq<Arg>, block: Option<Callback>) returns (o: Outcome)
      requires Valid()
      requires forall i :: 0 <= i < |args| && args[i].Hash? ==> UniqueKeys(args[i].opts)
      modifies this
      ensures Valid() && tables == old(tables)
      ensures (Rules(), o) == DefaultsSet(old(Rules()), sname, args, block)
    {
      var rest := args;
      if |rest| > 0 && rest[0].Pos? && rest[0].value.Sym? {
        aliases := aliases[sname := rest[0].value.name];
        rest := rest[1..];
      }
      if |rest| > 0 && rest[|rest| - 1].Hash? {
        assert rest[|rest| - 1] in args;
        defaults := defaults[sname := rest[|rest| - 1].opts];
        rest := rest[..|rest| - 1];
      }
      if block.Some? {
        callbacks := callbacks[sname := block.value];
      } else {
        callbacks := callbacks - {sname};
      }
      o := if rest == [] then Pass else Fail(InvalidDefaults(sname));
    }

    /** `set_standard_defaults`. */
    method SetStandardDefaults()
      requires Valid()
      modifies this
      ensures Valid() && tables == old(tables)
      ensures Rules() == Standardised(old(Rules()))
    {
      var r := Standardised(Rules());
      StandardisedWellFormed(Rules());
      SetRules(r);
    }

    /** `define( opts )` up to its block: fails without a block, else sets the standard
     *  defaults unless `:use_defaults` is exactly `false`. */
    method Define(opts: Opts, hasBlock: bool) returns (o: Outcome)
      requires Valid()
      modifies this
      ensures Valid() && tables == old(tables)
      ensures !hasBlock ==> o == Fail(MissingBlock) && Rules() == old(Rules())
      ensures hasBlock ==> (o == Pass &&
        Rules() == (if Get(opts, "use_defaults") == Bool(false) then old(Rules()) else Standardised(old(Rules()))))
    {
      if !hasBlock {
        return Fail(MissingBlock);
      }
      if Get(opts, "use_defaults") != Bool(false) {
        SetStandardDefaults();
      }
      o := Pass;
    }

    /** Replaces the whole rule table, leaving the tables alone. */
    method SetRules(r: Rules)
      requires Valid() && WellFormed(r)
      modifies this
      ensures Valid() && tables == old(tables)
      ensures Rules() == r
    {
      ghost var names := TableNames();
      aliases, defaults, callbacks := r.aliases, r.defaults, r.callbacks;
      assert TableNames() == names;
    }

    /** `apply_defaults( table_name, name, *args )`, step by step on a local options hash. */
    method ApplyDefaults(table: string, sname: string, args: seq<Arg>) returns (stmt: string, out: seq<Arg>)
      ensures (stmt, out) == Resolve(Rules(), table, sname, args)
    {
      var opts: Opts := [];
      opts := Merge(opts, GetDefaults(Rules(), "global"));
      var n := sname;
      if IsNullable(sname) {
        opts := Put(opts, "null", Bool(true));
        n := sname[..|sname| - 1];
      }
      opts := Merge(opts, GetDefaults(Rules(), n));
      if IsNullable(sname) {
        opts := Merge(opts, GetDefaults(Rules(), sname));
      }
      if n in callbacks {
        opts := RunCallback(callbacks[n], opts, args, table);
      }
      out := args;
      if |out| > 0 && out[|out| - 1].Hash? {
        opts := Merge(opts, out[|out| - 1].opts);
        out := out[..|out| - 1];
      }
      if opts != [] {
        out := out + [Hash(opts)];
      }
      stmt := if n in aliases then aliases[n] else n;
    }

    /** `dump( out )`: every table's dump, in table order. */
    method Dump(out: Dumper)
      modifies out
      ensures out.lines == old(out.lines) + Render(SchemaStmts(Data()), old(out.indent), out.step)
      ensures out.indent == old(out.indent)
    {
      ghost var ts := Data();
      ghost var ss := SchemaStmts(ts);
      for i := 0 to |tables|
        invariant out.indent == old(out.indent)
        invariant out.lines == old(out.lines) + Render(ss[..i], out.indent, out.step)
      {
        var t := tables[i];
        assert t.Data() == ts[i];
        ghost var before := out.lines;
        t.Dump(out);
        RenderNext(old(out.lines), before, out.lines, ss, i, out.indent, out.step);
      }
      assert ss[..|tables|] == ss;
    }
  }

  /** The first table of the given name, if any. */
  function FindTable(ts: seq<Table>, n: string): (r: Option<Table>)
    ensures r.Some? <==> exists i :: 0 <= i < |ts| && ts[i].name == n
    ensures r.Some? ==> r.value in ts && r.value.name == n
  {
    if ts == [] then None
    else if ts[0].name == n then Some(ts[0])
    else
      var r := FindTable(ts[1..], n);
      assert forall i :: 1 <= i < |ts| ==> ts[i] == ts[1..][i - 1];
      r
  }

  // ----- properties of the table operations -----

  /** A table only grows: its name stays, and what it held stays at the front of each list. */
  predicate Extends(t: TableData, t': TableData) {
    t'.name == t.name &&
    |t.columns| <= |t'.columns| && t'.columns[..|t.columns|] == t.columns &&
    |t.indexes| <= |t'.indexes| && t'.indexes[..|t.indexes|] == t.indexes &&
    |t.foreignKeys| <= |t'.foreignKeys| && t'.foreignKeys[..|t.foreignKeys|] == t.foreignKeys
  }

  /** `add_column` refuses exactly the names already present, so names stay distinct. */
  lemma ColumnAddedKeepsDistinct(t: TableData, ty: Value, name: Value, opts: Opts)
    requires DistinctNames(t.columns)
    ensures ColumnAdded(t, ty, name, opts).Err? <==> name in ColumnNames(t.columns)
    ensures ColumnAdded(t, ty, name, opts).Ok? ==>
      var t' := ColumnAdded(t, ty, name, opts).value;
      DistinctNames(t'.columns) && Extends(t, t') && |t'.columns| == |t.columns| + 1
  {
    if name !in ColumnNames(t.columns) {
      var t' := ColumnAdded(t, ty, name, opts).value;
      forall i | 0 <= i < |t.columns|
        ensures t'.columns[i].name != name
      {
        assert ColumnNames(t.columns)[i] == t.columns[i].name;
      }
    }
  }

  /** A foreign key on one column also adds that column, as an `integer` with the key's
   *  own options; a compound key adds no column.  Either way the key is appended. */
  lemma ForeignKeyAddsColumnOnlyForScalar(t: TableData, cols: Value, target: Value, opts: Opts)
    requires DistinctNames(t.columns)
    ensures var r := ForeignKeyAdded(t, cols, target, opts);
      (r.Err? <==> !cols.List? && cols in ColumnNames(t.columns)) &&
      (r.Ok? ==>
        DistinctNames(r.value.columns) && Extends(t, r.value) &&
        r.value.foreignKeys == t.foreignKeys + [NewForeignKey(cols, target, opts)] &&
        r.value.indexes == t.indexes &&
        (cols.List? ==> r.value.columns == t.columns) &&
        (!cols.List? ==> r.value.columns == t.columns + [Column(Sym("integer"), cols, WrapKey(opts))]))
  {
    if !cols.List? {
      ColumnAddedKeepsDistinct(t, Sym("integer"), cols, WrapKey(opts));
    }
  }

  /** Every definition that succeeds keeps column names distinct and only grows the table. */
  lemma DefinedExtends(t: TableData, stmt: string, args: seq<Arg>)
    requires DistinctNames(t.columns)
    ensures Defined(t, stmt, args).Ok? ==>
      DistinctNames(Defined(t, stmt, args).value.columns) && Extends(t, Defined(t, stmt, args).value)
  {
    if stmt == "index" {
    } else if stmt == "foreign_key" {
      var sh := Shape(args, 2);
      if sh.Some? {
        ForeignKeyAddsColumnOnlyForScalar(t, sh.value.0[0], sh.value.0[1], sh.value.1);
      }
    } else {
      var sh := Shape(args, 1);
      if sh.Some? {
        ColumnAddedKeepsDistinct(t, Sym(stmt), sh.value.0[0], sh.value.1);
      }
    }
  }

  lemma ExtendsTransitive(a: TableData, b: TableData, c: TableData)
    requires Extends(a, b) && Extends(b, c)
    ensures Extends(a, c)
  {
    assert c.columns[..|a.columns|] == c.columns[..|b.columns|][..|a.columns|];
    assert c.indexes[..|a.indexes|] == c.indexes[..|b.indexes|][..|a.indexes|];
    assert c.foreignKeys[..|a.foreignKeys|] == c.foreignKeys[..|b.foreignKeys|][..|a.foreignKeys|];
  }

  /** A step that keeps column names distinct and only grows the table. */
  ghost predicate Grows(step: (TableData, Statement) -> Result<TableData>) {
    forall t: TableData, st: Statement :: DistinctNames(t.columns) && step(t, st).Ok? ==>
      DistinctNames(step(t, st).value.columns) && Extends(t, step(t, st).value)
  }

  lemma StepGrows(rules: Rules)
    ensures Grows(StepWith(rules))
  {
    forall t: TableData, st: Statement | DistinctNames(t.columns) && StepWith(rules)(t, st).Ok?
      ensures DistinctNames(StepWith(rules)(t, st).value.columns) && Extends(t, StepWith(rules)(t, st).value)
    {
      var (stmt, args) := Resolve(rules, t.name, st.0, st.1);
      DefinedExtends(t, stmt, args);
    }
  }

  lemma {:induction false} FoldExtends(t: TableData, step: (TableData, Statement) -> Result<TableData>, stmts: seq<Statement>, i: nat)
    requires i <= |stmts| && DistinctNames(t.columns) && Grows(step)
    ensures DistinctNames(Fold(t, step, stmts, i).0.columns) && Extends(t, Fold(t, step, stmts, i).0)
    decreases |stmts| - i
  {
    if i < |stmts| {
      var d := step(t, stmts[i]);
      if d.Ok? {
        FoldExtends(d.value, step, stmts, i + 1);
        ExtendsTransitive(t, d.value, Fold(d.value, step, stmts, i + 1).0);
      }
    }
  }

  /** A table block, however it ends, leaves distinct column names and keeps what the
   *  table held before it. */
  lemma DefineAllExtends(t: TableData, rules: Rules, stmts: seq<Statement>)
    requires DistinctNames(t.columns)
    ensures DistinctNames(DefineAll(t, rules, stmts).0.columns) && Extends(t, DefineAll(t, rules, stmts).0)
  {
    StepGrows(rules);
    FoldExtends(t, StepWith(rules), stmts, 0);
  }

  lemma {:induction false} FoldAppend(t: TableData, step: (TableData, Statement) -> Result<TableData>, a: seq<Statement>, b: seq<Statement>, i: nat)
    requires i <= |a|
    ensures Fold(t, step, a + b, i) ==
      var (t', o) := Fold(t, step, a, i);
      if o.Pass? then Fold(t', step, b, 0) else (t', o)
    decreases |a| - i
  {
    if i == |a| {
      FoldShift(t, step, a, b, 0);
    } else {
      assert (a + b)[i] == a[i];
      var d := step(t, a[i]);
      if d.Ok? {
        FoldAppend(d.value, step, a, b, i + 1);
      }
    }
  }

  lemma {:induction false} FoldShift(t: TableData, step: (TableData, Statement) -> Result<TableData>, a: seq<Statement>, b: seq<Statement>, j: nat)
    requires j <= |b|
    ensures Fold(t, step, a + b, |a| + j) == Fold(t, step, b, j)
    decreases |b| - j
  {
    if j < |b| {
      assert (a + b)[|a| + j] == b[j];
      var d := step(t, b[j]);
      if d.Ok? {
        FoldShift(d.value, step, a, b, j + 1);
      }
    }
  }

  /** Running two blocks of statements is running the first, then (if it passed) the
   *  second: a join table's own block runs after its four statements. */
  lemma DefineAllAppend(t: TableData, rules: Rules, a: seq<Statement>, b: seq<Statement>)
    ensures DefineAll(t, rules, a + b) ==
      var (t', o) := DefineAll(t, rules, a);
      if o.Pass? then DefineAll(t', rules, b) else (t', o)
  {
    FoldAppend(t, StepWith(rules), a, b, 0);
  }

  /** A statement given only positional arguments reaches its handler with exactly those,
   *  plus the options `apply_defaults` gathered for it. */
  lemma ResolvedShape(rules: Rules, table: string, name: string, args: seq<Arg>)
    requires AllPositional(args)
    ensures Shape(Resolve(rules, table, name, args).1, |args|) == Some((Values(args), ResolvedOpts(rules, table, name, args)))
  {
    assert Positional(args) == args;
    var opts := ResolvedOpts(rules, table, name, args);
    if opts != [] {
      assert (args + [Hash(opts)])[..|args|] == args;
    }
  }

  /** `foreign_key id, table` on a new single column: the `integer` column, then the key. */
  lemma ForeignKeyStatement(rules: Rules, t: TableData, id: Value, target: string)
    requires Target(rules, "foreign_key") == "foreign_key"
    requires !id.List? && id !in ColumnNames(t.columns)
    ensures var args := [Pos(id), Pos(Sym(target))];
      var o := ResolvedOpts(rules, t.name, "foreign_key", args);
      var (s, a) := Resolve(rules, t.name, "foreign_key", args);
      Defined(t, s, a) == Ok(t.(columns := t.columns + [Column(Sym("integer"), id, WrapKey(o))],
                                foreignKeys := t.foreignKeys + [NewForeignKey(id, Sym(target), o)]))
  {
    var args := [Pos(id), Pos(Sym(target))];
    ResolvedShape(rules, t.name, "foreign_key", args);
    assert Values(args) == [id, Sym(target)];
  }

  /** A non-index statement with a single new column name adds that column. */
  lemma ColumnStatement(rules: Rules, t: TableData, stmt: string, col: Value)
    requires Target(rules, stmt) == stmt && stmt != "index" && stmt != "foreign_key"
    requires col !in ColumnNames(t.columns)
    ensures var args := [Pos(col)];
      var o := ResolvedOpts(rules, t.name, stmt, args);
      var (s, a) := Resolve(rules, t.name, stmt, args);
      Defined(t, s, a) == Ok(t.(columns := t.columns + [Column(Sym(stmt), col, o)]))
  {
    ResolvedShape(rules, t.name, stmt, [Pos(col)]);
  }

  /** A statement aliased to `index` with one argument adds that index. */
  lemma IndexStatement(rules: Rules, t: TableData, stmt: string, cols: Value)
    requires Target(rules, stmt) == "index"
    ensures var args := [Pos(cols)];
      var o := ResolvedOpts(rules, t.name, stmt, args);
      var (s, a) := Resolve(rules, t.name, stmt, args);
      Defined(t, s, a) == Ok(t.(indexes := t.indexes + [NewIndex(cols, o)]))
  {
    ResolvedShape(rules, t.name, stmt, [Pos(cols)]);
  }

  /** One successful statement of a block, then the rest. */
  lemma FoldStep(t: TableData, rules: Rules, stmts: seq<Statement>, i: nat, t': TableData)
    requires i < |stmts| && Step(t, rules, stmts[i]) == Ok(t')
    ensures Fold(t, StepWith(rules), stmts, i) == Fold(t', StepWith(rules), stmts, i + 1)
  {
  }

  /** A block stops at the first statement that fails, keeping the table as it was. */
  lemma FoldFails(t: TableData, rules: Rules, stmts: seq<Statement>, i: nat)
    requires i < |stmts| && Step(t, rules, stmts[i]).Err?
    ensures Fold(t, StepWith(rules), stmts, i) == (t, Fail(Step(t, rules, stmts[i]).error))
  {
  }

  /** A `foreign_key id, table` statement on a new single column adds an `integer` column
   *  of that name, then a key from that column to that table. */
  lemma ForeignKeyStep(rules: Rules, t: TableData, id: Value, target: string)
    returns (t': TableData, c: Column, k: ForeignKey)
    requires Target(rules, "foreign_key") == "foreign_key"
    requires !id.List? && !id.Nil? && id !in ColumnNames(t.columns)
    ensures Step(t, rules, ("foreign_key", [Pos(id), Pos(Sym(target))])) == Ok(t')
    ensures t'.name == t.name && t'.columns == t.columns + [c] && t'.indexes == t.indexes && t'.foreignKeys == t.foreignKeys + [k]
    ensures c.ty == Sym("integer") && c.name == id && k.columns == [id] && k.tableName == Sym(target)
  {
    ForeignKeyStatement(rules, t, id, target);
    var o := ResolvedOpts(rules, t.name, "foreign_key", [Pos(id), Pos(Sym(target))]);
    c, k := Column(Sym("integer"), id, WrapKey(o)), NewForeignKey(id, Sym(target), o);
    t' := t.(columns := t.columns + [c], foreignKeys := t.foreignKeys + [k]);
  }

  /** A `primary_key cols` statement on a new column name adds that column. */
  lemma PrimaryKeyStep(rules: Rules, t: TableData, cols: Value)
    returns (t': TableData, c: Column)
    requires Target(rules, "primary_key") == "primary_key" && cols !in ColumnNames(t.columns)
    ensures Step(t, rules, ("primary_key", [Pos(cols)])) == Ok(t')
    ensures t'.name == t.name && t'.columns == t.columns + [c] && t'.indexes == t.indexes && t'.foreignKeys == t.foreignKeys
    ensures c.ty == Sym("primary_key") && c.name == cols
  {
    ColumnStatement(rules, t, "primary_key", cols);
    c := Column(Sym("primary_key"), cols, ResolvedOpts(rules, t.name, "primary_key", [Pos(cols)]));
    t' := t.(columns := t.columns + [c]);
  }

  /** A `unique cols` statement adds an index on those columns when `unique` stands for `index`. */
  lemma UniqueStep(rules: Rules, t: TableData, cols: Value)
    returns (t': TableData, x: Index)
    requires Target(rules, "unique") == "index" && cols.List?
    ensures Step(t, rules, ("unique", [Pos(cols)])) == Ok(t')
    ensures t'.name == t.name && t'.columns == t.columns && t'.indexes == t.indexes + [x] && t'.foreignKeys == t.foreignKeys
    ensures x.columns == cols.items
  {
    IndexStatement(rules, t, "unique", cols);
    x := NewIndex(cols, ResolvedOpts(rules, t.name, "unique", [Pos(cols)]));
    t' := t.(indexes := t.indexes + [x]);
  }

  /** The two `foreign_key` statements that open a join table. */
  lemma JoinKeys(rules: Rules, name: string, idLeft: Value, tableLeft: string, idRight: Value, tableRight: string)
    returns (t2: TableData)
    requires Target(rules, "foreign_key") == "foreign_key"
    requires !idLeft.List? && !idRight.List? && !idLeft.Nil? && !idRight.Nil? && idLeft != idRight
    ensures DefineAll(EmptyTable(name), rules, JoinForeignKeys(idLeft, tableLeft, idRight, tableRight)) == (t2, Pass)
    ensures t2.name == name && |t2.columns| == 2 && t2.indexes == [] && |t2.foreignKeys| == 2
    ensures t2.columns[0].name == idLeft && t2.columns[0].ty == Sym("integer")
    ensures t2.columns[1].name == idRight && t2.columns[1].ty == Sym("integer")
    ensures t2.foreignKeys[0].columns == [idLeft] && t2.foreignKeys[0].tableName == Sym(tableLeft)
    ensures t2.foreignKeys[1].columns == [idRight] && t2.foreignKeys[1].tableName == Sym(tableRight)
  {
    var stmts := JoinForeignKeys(idLeft, tableLeft, idRight, tableRight);
    var t0 := EmptyTable(name);
    var t1, c0, k0 := ForeignKeyStep(rules, t0, idLeft, tableLeft);
    FoldStep(t0, rules, stmts, 0, t1);
    assert ColumnNames(t1.columns) == [idLeft];
    var c1, k1;
    t2, c1, k1 := ForeignKeyStep(rules, t1, idRight, tableRight);
    FoldStep(t1, rules, stmts, 1, t2);
  }

  /** The primary key and unique index statements that close a join table. */
  lemma JoinIndexes(rules: Rules, t2: TableData, idLeft: Value, idRight: Value)
    returns (t4: TableData)
    requires Target(rules, "primary_key") == "primary_key" && Target(rules, "unique") == "index"
    requires !idLeft.List? && !idRight.List? && ColumnNames(t2.columns) == [idLeft, idRight]
    ensures DefineAll(t2, rules, JoinKeyIndexes(idLeft, idRight)) == (t4, Pass)
    ensures t4.name == t2.name && t4.foreignKeys == t2.foreignKeys && |t4.columns| == 3 && t4.columns[..2] == t2.columns
    ensures t4.columns[2].name == List([idLeft, idRight]) && t4.columns[2].ty == Sym("primary_key")
    ensures |t4.indexes| == |t2.indexes| + 1 && t4.indexes[..|t2.indexes|] == t2.indexes
    ensures t4.indexes[|t2.indexes|].columns == [idRight, idLeft]
  {
    var stmts := JoinKeyIndexes(idLeft, idRight);
    var t3, c2 := PrimaryKeyStep(rules, t2, List([idLeft, idRight]));
    FoldStep(t2, rules, stmts, 0, t3);
    var x;
    t4, x := UniqueStep(rules, t3, List([idRight, idLeft]));
    FoldStep(t3, rules, stmts, 1, t4);
  }

  /** The join table's contents: with the statement names unaliased (and `unique` meaning
   *  `index`, as the standard rules have it) and two different single-column ids, the
   *  four statements pass and yield the two id columns, the compound primary key, one
   *  foreign key per side and the reversed unique index. */
  lemma JoinTableContents(rules: Rules, name: string, idLeft: Value, tableLeft: string, idRight: Value, tableRight: string)
    requires Target(rules, "foreign_key") == "foreign_key" && Target(rules, "primary_key") == "primary_key"
    requires Target(rules, "unique") == "index"
    requires !idLeft.List? && !idRight.List? && !idLeft.Nil? && !idRight.Nil? && idLeft != idRight
    ensures var (t, o) := DefineAll(EmptyTable(name), rules, JoinStatements(idLeft, tableLeft, idRight, tableRight));
      o == Pass && t.name == name &&
      ColumnNames(t.columns) == [idLeft, idRight, List([idLeft, idRight])] &&
      t.columns[0].ty == Sym("integer") && t.columns[1].ty == Sym("integer") &&
      t.columns[2].ty == Sym("primary_key") &&
      |t.foreignKeys| == 2 &&
      t.foreignKeys[0].columns == [idLeft] && t.foreignKeys[0].tableName == Sym(tableLeft) &&
      t.foreignKeys[1].columns == [idRight] && t.foreignKeys[1].tableName == Sym(tableRight) &&
      |t.indexes| == 1 && t.indexes[0].columns == [idRight, idLeft]
  {
    var t2 := JoinKeys(rules, name, idLeft, tableLeft, idRight, tableRight);
    assert ColumnNames(t2.columns) == [idLeft, idRight];
    var t4 := JoinIndexes(rules, t2, idLeft, idRight);
    DefineAllAppend(EmptyTable(name), rules, JoinForeignKeys(idLeft, tableLeft, idRight, tableRight), JoinKeyIndexes(idLeft, idRight));
    assert t4.columns[0] == t2.columns[0] && t4.columns[1] == t2.columns[1];
    assert ColumnNames(t4.columns) == [idLeft, idRight, List([idLeft, idRight])];
  }

  /** The characters-wise order is total... */
  lemma {:induction false} StringLeTotal(a: string, b: string)
    ensures StringLe(a, b) || StringLe(b, a)
    decreases |a|
  {
    if a != [] && b != [] && a[0] == b[0] {
      StringLeTotal(a[1..], b[1..]);
    }
  }

  /** ...and antisymmetric. */
  lemma {:induction false} StringLeAntisymmetric(a: string, b: string)
    requires StringLe(a, b) && StringLe(b, a)
    ensures a == b
    decreases |a|
  {
    if a != [] {
      StringLeAntisymmetric(a[1..], b[1..]);
      assert a == [a[0]] + a[1..] && b == [b[0]] + b[1..];
    }
  }

  /** The default join table name does not depend on which table is given first. */
  lemma JoinNameSymmetric(left: string, right: string)
    ensures JoinName(left, right) == JoinName(right, left)
  {
    StringLeTotal(left, right);
    if StringLe(left, right) && StringLe(right, left) {
      StringLeAntisymmetric(left, right);
    }
  }

  // ----- properties of the rule updates -----

  /** `set_defaults` fails exactly when something other than a leading symbol and a
   *  trailing hash was given. */
  lemma DefaultsSetFailsOnLeftovers(rules: Rules, name: string, args: seq<Arg>, block: Option<Callback>)
    ensures DefaultsSet(rules, name, args, block).1.Pass? <==>
      |args| == 0 ||
      (|args| == 1 && (args[0].Hash? || (args[0].Pos? && args[0].value.Sym?))) ||
      (|args| == 2 && args[0].Pos? && args[0].value.Sym? && args[1].Hash?)
  {
  }

  /** `set_defaults( name, ... )` touches the rules of `name` and of no other statement. */
  lemma DefaultsSetOnlyTouchesName(rules: Rules, name: string, args: seq<Arg>, block: Option<Callback>, other: string)
    requires other != name
    ensures var r := DefaultsSet(rules, name, args, block).0;
      (other in r.aliases <==> other in rules.aliases) && (other in r.aliases ==> r.aliases[other] == rules.aliases[other]) &&
      GetDefaults(r, other) == GetDefaults(rules, other) &&
      (other in r.callbacks <==> other in rules.callbacks) && (other in r.callbacks ==> r.callbacks[other] == rules.callbacks[other])
  {
  }

  /** `set_defaults( name, :alias, opts )` on a plain name makes the name resolve to the
   *  alias with those defaults. */
  lemma DefaultsSetAliasAndOptions(rules: Rules, name: string, alias: string, opts: Opts, block: Option<Callback>)
    requires !IsNullable(name)
    ensures var (r, o) := DefaultsSet(rules, name, [Pos(Sym(alias)), Hash(opts)], block);
      o == Pass && Target(r, name) == alias && GetDefaults(r, name) == opts &&
      (block.Some? <==> name in r.callbacks)
  {
  }

  /** `set_standard_defaults` on a fresh schema gives exactly the standard rules. */
  lemma StandardisedFromScratch()
    ensures Standardised(Defaults.Rules(map[], map[], map[])) == StandardRules()
  {
    assert map[] + StandardAliases == StandardAliases;
    assert map[] + StandardDefaults == StandardDefaults;
    assert (map[] - StandardNames) + StandardCallbacks == StandardCallbacks;
  }

  // ----- properties of the dump -----

  /** Single lines render one per statement, at the same indentation. */
  lemma {:induction false} RenderLines(ss: seq<Stmt>, indent: nat, step: nat)
    requires AllLines(ss)
    ensures |Render(ss, indent, step)| == |ss|
    ensures forall i :: 0 <= i < |ss| ==> Render(ss, indent, step)[i] == Indented(indent, ss[i].text)
    decreases |ss|
  {
    if ss != [] {
      RenderLines(ss[1..], indent, step);
      assert forall i :: 1 <= i < |ss| ==> ss[1..][i - 1] == ss[i];
    }
  }

  /** A block whose body is three runs of single lines renders as its header, each
   *  line one step deeper in order, and `end`. */
  lemma BlockOfLines(h: string, a: seq<Stmt>, b: seq<Stmt>, c: seq<Stmt>, indent: nat, step: nat)
    requires AllLines(a) && AllLines(b) && AllLines(c)
    ensures var r := RenderStmt(Block(h, a + b + c), indent, step);
      |r| == |a| + |b| + |c| + 2 &&
      r[0] == Indented(indent, h + " do") &&
      (forall i :: 0 <= i < |a| ==> r[1 + i] == Indented(indent + step, a[i].text)) &&
      (forall i :: 0 <= i < |b| ==> r[1 + |a| + i] == Indented(indent + step, b[i].text)) &&
      (forall i :: 0 <= i < |c| ==> r[1 + |a| + |b| + i] == Indented(indent + step, c[i].text)) &&
      r[|a| + |b| + |c| + 1] == Indented(indent, "end")
  {
    var body := a + b + c;
    var r := RenderStmt(Block(h, body), indent, step);
    var rs := Render(body, indent + step, step);
    assert AllLines(body) by {
      forall i | 0 <= i < |body| ensures body[i].Line? {
        if i < |a| { assert body[i] == a[i]; }
        else if i < |a| + |b| { assert body[i] == b[i - |a|]; }
        else { assert body[i] == c[i - |a| - |b|]; }
      }
    }
    RenderLines(body, indent + step, step);
    assert r == [Indented(indent, h + " do")] + rs + [Indented(indent, "end")];
    forall i | 0 <= i < |a|
      ensures r[1 + i] == Indented(indent + step, a[i].text)
    {
      assert r[1 + i] == rs[i] && body[i] == a[i];
    }
    forall i | 0 <= i < |b|
      ensures r[1 + |a| + i] == Indented(indent + step, b[i].text)
    {
      assert r[1 + |a| + i] == rs[|a| + i] && body[|a| + i] == b[i];
    }
    forall i | 0 <= i < |c|
      ensures r[1 + |a| + |b| + i] == Indented(indent + step, c[i].text)
    {
      assert r[1 + |a| + |b| + i] == rs[|a| + |b| + i] && body[|a| + |b| + i] == c[i];
    }
  }

  /** A table dump is its header, then one line per column, index and foreign key in that
   *  order, one step deeper, then `end`. */
  lemma TableDumpLines(t: TableData, indent: nat, step: nat)
    ensures var r := RenderStmt(TableStmt(t), indent, step);
      var nc, ni, nk := |t.columns|, |t.indexes|, |t.foreignKeys|;
      |r| == nc + ni + nk + 2 &&
      r[0] == Indented(indent, TableHeader(t.name) + " do") &&
      (forall i :: 0 <= i < nc ==> r[1 + i] == Indented(indent + step, t.columns[i].DumpLine())) &&
      (forall i :: 0 <= i < ni ==> r[1 + nc + i] == Indented(indent + step, t.indexes[i].DumpLine())) &&
      (forall i :: 0 <= i < nk ==> r[1 + nc + ni + i] == Indented(indent + step, t.foreignKeys[i].DumpLine())) &&
      r[nc + ni + nk + 1] == Indented(indent, "end")
  {
    var cs, xs, ks := ColumnLines(t.columns), IndexLines(t.indexes), ForeignKeyLines(t.foreignKeys);
    assert TableStmt(t) == Block(TableHeader(t.name), cs + xs + ks);
    BlockOfLines(TableHeader(t.name), cs, xs, ks, indent, step);
    forall i | 0 <= i < |cs| ensures cs[i].text == t.columns[i].DumpLine() { }
    forall i | 0 <= i < |xs| ensures xs[i].text == t.indexes[i].DumpLine() { }
    forall i | 0 <= i < |ks| ensures ks[i].text == t.foreignKeys[i].DumpLine() { }
  }

  // ----- the `timestamps` helper of a table block -----

  /** The literal that makes MySQL refresh a timestamp on every update. */
  const UpdateTimestamp: Value := Lit("CURRENT_TIMESTAMP ON UPDATE CURRENT_TIMESTAMP")

  /** A `timestamp` statement for a `NOT NULL` column with the given default. */
  function TimestampStatement(name: string, d: Value): Statement {
    ("timestamp", [Pos(Sym(name)), Hash([Entry("null", Bool(false)), Entry("default", d)])])
  }

  /** `timestamps`: a creation time defaulting to 0, then an update time that the database refreshes. */
  function Timestamps(): seq<Statement> {
    [TimestampStatement("create_time", Int(0)), TimestampStatement("update_time", UpdateTimestamp)]
  }

  /** A column statement that is its own target, given a new column name and an options
   *  hash, appends one column of that type and name in which every given option holds,
   *  whatever defaults the rules add. */
  lemma ColumnWithOptionsStep(rules: Rules, t: TableData, stmt: string, v: Value, o: Opts) returns (c: Column)
    requires Target(rules, stmt) == stmt && stmt != "index" && stmt != "foreign_key"
    requires v !in ColumnNames(t.columns) && UniqueKeys(o) && o != []
    ensures Step(t, rules, (stmt, [Pos(v), Hash(o)])) == Ok(t.(columns := t.columns + [c]))
    ensures c.ty == Sym(stmt) && c.name == v
    ensures forall k :: k in ToMap(o) ==> Get(c.opts, k) == Get(o, k)
  {
    var h := CallerHashResolved(rules, t.name, stmt, v, o);
    OneValueThenHash([Pos(v), Hash(h)], v);
    c := Column(Sym(stmt), v, h);
  }

  /** A statement given one value and an options hash resolves to that value and a hash
   *  in which every option the statement gave keeps its value. */
  lemma CallerHashResolved(rules: Rules, table: string, stmt: string, v: Value, o: Opts) returns (h: Opts)
    requires UniqueKeys(o) && o != []
    ensures Resolve(rules, table, stmt, [Pos(v), Hash(o)]).1 == [Pos(v), Hash(h)]
    ensures forall k :: k in ToMap(o) ==> Get(h, k) == Get(o, k)
  {
    var args := [Pos(v), Hash(o)];
    assert Trailing(args) == o;
    assert Positional(args) == [Pos(v)];
    h := ResolvedOpts(rules, table, stmt, args);
    MergedOptionsWin(CalledOpts(rules, table, stmt, args), o);
  }

  /** Resolved arguments of one value and an options hash have the one-column shape. */
  lemma OneValueThenHash(a: seq<Arg>, v: Value)
    requires |a| == 2 && a[0] == Pos(v) && a[1].Hash?
    ensures Shape(a, 1) == Some(([v], a[1].opts))
  {
    var p := a[..1];
    assert p == [Pos(v)] && AllPositional(p);
    assert Values(p)[0] == v;
    assert Values(p) == [v];
  }

  /** `timestamps` in a table without those columns appends exactly the two columns, in order:
   *  neither allows NULL, `create_time` defaults to 0 and `update_time` to the refreshing literal. */
  lemma TimestampsDefined(rules: Rules, t: TableData) returns (c1: Column, c2: Column)
    requires Target(rules, "timestamp") == "timestamp"
    requires Sym("create_time") !in ColumnNames(t.columns) && Sym("update_time") !in ColumnNames(t.columns)
    ensures DefineAll(t, rules, Timestamps()) == (t.(columns := t.columns + [c1, c2]), Pass)
    ensures c1.name == Sym("create_time") && c1.ty == Sym("timestamp")
    ensures c2.name == Sym("update_time") && c2.ty == Sym("timestamp")
    ensures !Truthy(c1.AllowNull()) && c1.Default() == Int(0)
    ensures !Truthy(c2.AllowNull()) && c2.Default() == UpdateTimestamp
  {
    c1 := TimestampStep(rules, t, "create_time", Int(0));
    var t1 := t.(columns := t.columns + [c1]);
    NameStillFree(t.columns, c1, Sym("update_time"));
    c2 := TimestampStep(rules, t1, "update_time", UpdateTimestamp);
    var t2 := t1.(columns := t1.columns + [c2]);
    FoldTwo(t, StepWith(rules), Timestamps(), t1, t2);
    Sequences.AppendedTwice(t.columns, c1, c2);
  }

  /** One timestamp statement on a new column name appends a `NOT NULL` `timestamp` column
   *  whose default is the one the statement gives. */
  lemma TimestampStep(rules: Rules, t: TableData, name: string, d: Value) returns (c: Column)
    requires Target(rules, "timestamp") == "timestamp"
    requires Sym(name) !in ColumnNames(t.columns) && !d.Nil?
    ensures Step(t, rules, TimestampStatement(name, d)) == Ok(t.(columns := t.columns + [c]))
    ensures c.name == Sym(name) && c.ty == Sym("timestamp")
    ensures !Truthy(c.AllowNull()) && c.Default() == d
  {
    var o := [Entry("null", Bool(false)), Entry("default", d)];
    PairMeaning(o[0], o[1]);
    c := ColumnWithOptionsStep(rules, t, "timestamp", Sym(name), o);
    assert "null" in ToMap(o) && "default" in ToMap(o);
    assert Get(o, "null") == Bool(false) && Get(o, "default") == d;
    NotNullWithDefault(c);
  }

  /** A name not yet taken stays free when a column of another name is appended. */
  lemma NameStillFree(cs: seq<Column>, c: Column, n: Value)
    requires n !in ColumnNames(cs) && c.name != n
    ensures n !in ColumnNames(cs + [c])
  {
    assert ColumnNames(cs + [c]) == ColumnNames(cs) + [c.name];
  }

  /** Two statements that both succeed. */
  lemma FoldTwo<R>(t: TableData, step: (TableData, R) -> Result<TableData>, stmts: seq<R>, t1: TableData, t2: TableData)
    requires |stmts| == 2 && step(t, stmts[0]) == Ok(t1) && step(t1, stmts[1]) == Ok(t2)
    ensures Fold(t, step, stmts, 0) == (t2, Pass)
  {
    assert Fold(t1, step, stmts, 1) == Fold(t2, step, stmts, 2);
  }

  /** A column declared `NOT NULL` with a default of its own has that default. */
  lemma NotNullWithDefault(c: Column)
    requires Get(c.opts, "null") == Bool(false) && !Get(c.opts, "default").Nil?
    ensures !Truthy(c.AllowNull()) && c.Default() == Get(c.opts, "default")
  {
  }
}
