/** Columns, indexes and foreign keys (schema.rb, classes Column, Index and
 *  ForeignKey), and what makes two of them "the same" for a migration.
 *
 *  Each entity compares by a canonic form: the column type is lower-cased and
 *  mapped through a table of aliases, implied options are filled in, and
 *  options that do not matter are dropped.
 */
module Entities {
  import opened Options
  import opened Output

  // ----- Column -----

  function Lower(c: char): char {
    if 'A' <= c <= 'Z' then (c as int + 32) as char else c
  }

  /** ASCII `String#downcase`. */
  function Downcase(s: string): (r: string)
    ensures |r| == |s| && forall i :: 0 <= i < |s| ==> r[i] == Lower(s[i])
  {
    seq(|s|, i requires 0 <= i < |s| => Lower(s[i]))
  }

  /** The canonic names of some built-in Ruby types (CANONIC_TYPES). */
  const CanonicTypes: map<string, string> := map[
    "fixnum" := "integer",
    "bignum" := "bigint",
    "bigdecimal" := "decimal",
    "numeric" := "decimal",
    "float" := "double",
    "file" := "blob",
    "trueclass" := "boolean",
    "falseclass" := "boolean"
  ]

  /** Lower-cases a type name, then maps it through `CanonicTypes`. */
  function CanonicType(t: string): string {
    var d := Downcase(t);
    if d in CanonicTypes then CanonicTypes[d] else d
  }

  /** The options implied for certain canonic types (DEFAULT_OPTS). */
  function DefaultOptsFor(t: string): (o: Opts)
    ensures UniqueKeys(o)
  {
    match t
    case "string" => [Entry("size", Int(255))]
    case "bigint" => [Entry("size", Int(20))]
    case "decimal" => [Entry("size", List([Int(10), Int(0)]))]
    case "integer" => [Entry("unsigned", Bool(false))]
    case _ => []
  }

  datatype Column = Column(ty: Value, name: Value, opts: Opts) {

    /** `allow_null`: the `:null` option, or true when it is absent or nil. */
    function AllowNull(): (r: Value)
      ensures Truthy(r) <==> Get(opts, "null") != Bool(false)
      ensures "null" !in ToMap(opts) ==> r == Bool(true)
    {
      var allow := Get(opts, "null");
      if allow.Nil? then Bool(true) else allow
    }

    /** `type_default`: the value a NOT NULL column holds when nothing else is given. */
    function TypeDefault(): (r: Value)
      ensures CanonicType(ToS(ty)) == "string" ==> r == Str("")
      ensures CanonicType(ToS(ty)) == "boolean" ==> r == Bool(false)
      ensures CanonicType(ToS(ty)) in {"enum", "set"} ==>
        r == (if Splat(Get(opts, "elements")) == [] then Str("") else Splat(Get(opts, "elements"))[0])
      ensures CanonicType(ToS(ty)) !in {"string", "boolean", "enum", "set"} ==> r == Int(0)
    {
      match CanonicType(ToS(ty))
      case "string" => Str("")
      case "boolean" => Bool(false)
      case "enum" => (Splat(Get(opts, "elements")) + [Str("")])[0]
      case "set" => (Splat(Get(opts, "elements")) + [Str("")])[0]
      case _ => Int(0)
    }

    /** `default`: an explicit non-nil default; else the type default for a NOT NULL
     *  column; else nil. */
    function Default(): (r: Value)
      ensures !Get(opts, "default").Nil? ==> r == Get(opts, "default")
      ensures Get(opts, "default").Nil? && Truthy(AllowNull()) ==> r == Nil
      ensures Get(opts, "default").Nil? && !Truthy(AllowNull()) ==> r == TypeDefault()
    {
      var d := Get(opts, "default");
      if d.Nil? && !Truthy(AllowNull()) then TypeDefault() else d
    }

    /** `type_opts`: the options without `:null` and `:default`. */
    function TypeOpts(): (r: Opts)
      ensures ToMap(r) == ToMap(opts) - {"null", "default"}
      ensures UniqueKeys(opts) ==> UniqueKeys(r)
    {
      Reject(opts, {"null", "default"})
    }

    /** `canonic_opts`: nothing for a compound primary key; otherwise the canonic
     *  type and computed default, overridden by the type's implied options,
     *  overridden by the column's own options, without `:key`. */
    function CanonicOpts(): (r: Opts)
      ensures ty == Sym("primary_key") && name.List? ==> r == []
      ensures !(ty == Sym("primary_key") && name.List?) && UniqueKeys(opts) ==>
        ToMap(r) == (map["type" := Sym(CanonicType(ToS(ty))), "default" := Default()]
                     + ToMap(DefaultOptsFor(CanonicType(ToS(ty)))) + ToMap(opts)) - {"key"}
      ensures "key" !in ToMap(r)
    {
      if ty == Sym("primary_key") && name.List? then []
      else
        var base := [Entry("type", Sym(CanonicType(ToS(ty)))), Entry("default", Default())];
        assert ToMap(base) == map["type" := Sym(CanonicType(ToS(ty))), "default" := Default()] by {
          assert base[1..][1..] == [];
        }
        var implied := Merge(base, DefaultOptsFor(CanonicType(ToS(ty))));
        var own := Merge(implied, opts);
        Reject(own, {"key"})
    }

    /** `dump`: the column's statement, its name and its own options. */
    function DumpLine(): (r: string)
      ensures |r| > |ToS(ty)| && r[..|ToS(ty)| + 1] == ToS(ty) + " "
      ensures opts == [] ==> r == ToS(ty) + " " + OutValue(name)
    {
      assert (ToS(ty) + " " + OutValue(name) + OutHash(opts, ", "))[..|ToS(ty)| + 1] == ToS(ty) + " ";
      ToS(ty) + " " + OutValue(name) + OutHash(opts, ", ")
    }
  }

  /** `Column#==`: same name, same canonic type, same canonic options. */
  predicate ColumnEq(a: Column, b: Column) {
    a.name == b.name && CanonicType(ToS(a.ty)) == CanonicType(ToS(b.ty)) && OptsEq(a.CanonicOpts(), b.CanonicOpts())
  }

  // ----- Index -----

  datatype Index = Index(columns: seq<Value>, opts: Opts) {

    /** `canonic_opts`: `:unique` defaults to false, `:null` is ignored. */
    function CanonicOpts(): (r: Opts)
      ensures "unique" in ToMap(r) && "null" !in ToMap(r)
      ensures UniqueKeys(opts) ==> ToMap(r) == (map["unique" := Bool(false)] + ToMap(opts)) - {"null"}
    {
      var o := Merge([Entry("unique", Bool(false))], opts);
      assert Keys(o)[..1] == ["unique"];
      assert Keys(o)[0] == "unique";
      Reject(o, {"null"})
    }

    /** `dump`: `index` with the column list and the index's own options. */
    function DumpLine(): (r: string)
      ensures |r| > 6 && r[..6] == "index "
      ensures opts == [] ==> r == "index " + OutValue(List(columns))
    {
      assert ("index " + OutValue(List(columns)) + OutHash(opts, ", "))[..6] == "index ";
      "index " + OutValue(List(columns)) + OutHash(opts, ", ")
    }
  }

  /** `Index.new( columns, opts )`: a single column becomes a one-column list. */
  function NewIndex(columns: Value, opts: Opts): (r: Index)
    ensures columns.List? ==> r.columns == columns.items
    ensures !columns.List? && !columns.Nil? ==> r.columns == [columns]
    ensures r.opts == opts
  {
    Index(Splat(columns), opts)
  }

  /** `Index#==`: the same columns in the same order, and the same canonic options. */
  predicate IndexEq(a: Index, b: Index) {
    a.columns == b.columns && OptsEq(a.CanonicOpts(), b.CanonicOpts())
  }

  // ----- ForeignKey -----

  /** The in-place rewrite of `ForeignKey#initialize`: a truthy `:key` becomes a list,
   *  in the position it already has; nothing else changes. */
  function WrapKey(opts: Opts): (r: Opts)
    ensures Truthy(Get(opts, "key")) ==> Get(r, "key") == List(Splat(Get(opts, "key"))) && Keys(r) == Keys(opts)
    ensures !Truthy(Get(opts, "key")) ==> r == opts
    ensures forall k :: k != "key" ==> Get(r, k) == Get(opts, k)
    ensures UniqueKeys(opts) ==> UniqueKeys(r)
  {
    var key := Get(opts, "key");
    if Truthy(key) then
      assert "key" in Keys(opts);
      Put(opts, "key", List(Splat(key)))
    else opts
  }

  /** The options a foreign key's comparison ignores. */
  const IgnoredKeyOpts: set<string> := {"null", "unsigned", "type"}

  datatype ForeignKey = ForeignKey(columns: seq<Value>, tableName: Value, opts: Opts) {

    /** `canonic_opts`: everything except `:null`, `:unsigned` and `:type`. */
    function CanonicOpts(): (r: Opts)
      ensures ToMap(r) == ToMap(opts) - IgnoredKeyOpts
      ensures forall e :: e in r <==> e in opts && e.key !in IgnoredKeyOpts
    {
      Reject(opts, IgnoredKeyOpts)
    }

    /** `dump`: `foreign_key` with the columns, the target table and the key's own options. */
    function DumpLine(): (r: string)
      ensures |r| > 12 && r[..12] == "foreign_key "
      ensures opts == [] ==> r == "foreign_key " + OutValue(List(columns)) + ", " + OutValue(tableName)
    {
      assert ("foreign_key " + OutValue(List(columns)) + ", " + OutValue(tableName) + OutHash(opts, ", "))[..12]
        == "foreign_key ";
      "foreign_key " + OutValue(List(columns)) + ", " + OutValue(tableName) + OutHash(opts, ", ")
    }
  }

  /** `ForeignKey.new( columns, table_name, opts )`. */
  function NewForeignKey(columns: Value, tableName: Value, opts: Opts): (r: ForeignKey)
    ensures columns.List? ==> r.columns == columns.items
    ensures !columns.List? && !columns.Nil? ==> r.columns == [columns]
    ensures r.tableName == tableName && r.opts == WrapKey(opts)
  {
    ForeignKey(Splat(columns), tableName, WrapKey(opts))
  }

  /** `ForeignKey#==`: same columns, same target table, same canonic options. */
  predicate ForeignKeyEq(a: ForeignKey, b: ForeignKey) {
    a.columns == b.columns && a.tableName == b.tableName && OptsEq(a.CanonicOpts(), b.CanonicOpts())
  }

  // ----- Tables -----

  /** What a table holds: its name, its columns in definition order (each column
   *  keyed by its name), its indexes and its foreign keys. */
  datatype TableData = TableData(name: string, columns: seq<Column>, indexes: seq<Index>, foreignKeys: seq<ForeignKey>)

  /** `column_names`: the column keys in insertion order. */
  function ColumnNames(cs: seq<Column>): (ns: seq<Value>)
    ensures |ns| == |cs| && forall i :: 0 <= i < |cs| ==> ns[i] == cs[i].name
  {
    seq(|cs|, i requires 0 <= i < |cs| => cs[i].name)
  }

  /** Column names are the keys of a hash, so they are distinct. */
  predicate DistinctNames(cs: seq<Column>) {
    forall i, j :: 0 <= i < j < |cs| ==> cs[i].name != cs[j].name
  }

  // ----- lemmas -----

  /** Canonicalising a canonic type changes nothing. */
  lemma {:induction false} CanonicTypeIdempotent(t: string)
    ensures CanonicType(CanonicType(t)) == CanonicType(t)
  {
    var d := Downcase(t);
    assert Downcase(d) == d;
    if d in CanonicTypes {
      var c := CanonicTypes[d];
      assert c in {"integer", "bigint", "decimal", "double", "blob", "boolean"};
      assert Downcase(c) == c;
    }
  }

  /** Spelling a type differently or through a Ruby class name does not matter:
   *  `Fixnum` and `Integer` columns compare alike, so do `TrueClass` and `FalseClass`. */
  lemma AliasedTypesCanonicaliseAlike()
    ensures CanonicType("Fixnum") == CanonicType("Integer") == "integer"
    ensures CanonicType("TrueClass") == CanonicType("FalseClass") == "boolean"
    ensures CanonicType("String") == "string"
  {
    assert Downcase("Fixnum") == "fixnum";
    assert Downcase("Integer") == "integer";
    assert Downcase("TrueClass") == "trueclass";
    assert Downcase("FalseClass") == "falseclass";
    assert Downcase("String") == "string";
  }

  /** Two columns of the same name and options whose types canonicalise alike are
   *  equal, unless one of them is the literal `primary_key` statement, whose
   *  compound form has no canonic options at all. */
  lemma {:induction false} SameCanonicTypeSameColumn(a: Value, b: Value, name: Value, opts: Opts)
    requires CanonicType(ToS(a)) == CanonicType(ToS(b))
    requires !(a == Sym("primary_key") && name.List?) && !(b == Sym("primary_key") && name.List?)
    ensures ColumnEq(Column(a, name, opts), Column(b, name, opts))
  {
    var ca, cb := Column(a, name, opts), Column(b, name, opts);
    assert ca.TypeDefault() == cb.TypeDefault();
    assert ca.Default() == cb.Default();
  }

  /** A type given as a string (as the importer's bare database types are) compares
   *  like the same type given as a symbol: `canonic_type` goes through `to_s`. */
  lemma StringTypeComparesAsSymbol(s: string, n: Value, opts: Opts)
    requires !(s == "primary_key" && n.List?)
    ensures ColumnEq(Column(Str(s), n, opts), Column(Sym(s), n, opts))
  {
    SameCanonicTypeSameColumn(Str(s), Sym(s), n, opts);
  }

  /** A compound primary key has no canonic options, and only the exact symbol
   *  `:primary_key` makes one: the same column typed `Primary_Key`, or typed by the
   *  string "primary_key", has canonic options and so compares unequal. */
  lemma PrimaryKeySpellingMatters(names: seq<Value>)
    ensures !ColumnEq(Column(Sym("primary_key"), List(names), []), Column(Sym("Primary_Key"), List(names), []))
    ensures !ColumnEq(Column(Sym("primary_key"), List(names), []), Column(Str("primary_key"), List(names), []))
  {
    var a := Column(Sym("primary_key"), List(names), []);
    assert ToMap(a.CanonicOpts()) == map[];
    HasCanonicType(Column(Sym("Primary_Key"), List(names), []));
    HasCanonicType(Column(Str("primary_key"), List(names), []));
  }

  lemma HasCanonicType(b: Column)
    requires b.ty != Sym("primary_key") && b.opts == []
    ensures "type" in ToMap(b.CanonicOpts())
  {
    assert UniqueKeys(b.opts);
    var t := CanonicType(ToS(b.ty));
    TypeKeyKept(Sym(t), b.Default(), ToMap(DefaultOptsFor(t)), ToMap(b.opts));
  }

  lemma TypeKeyKept(t: Value, d: Value, implied: map<string, Value>, own: map<string, Value>)
    ensures "type" in (map["type" := t, "default" := d] + implied + own) - {"key"}
  {
  }

  /** Spelling out the options a type implies does not change a column. */
  lemma ImpliedOptionsAreRedundant(t: Value, n: Value)
    requires !(t == Sym("primary_key") && n.List?)
    ensures ColumnEq(Column(t, n, []), Column(t, n, DefaultOptsFor(CanonicType(ToS(t)))))
  {
    var a := Column(t, n, []);
    var d := DefaultOptsFor(CanonicType(ToS(t)));
    var b := Column(t, n, d);
    ImpliedOptsNeitherNullNorDefault(CanonicType(ToS(t)));
    SameDefaults(a, b);
    assert UniqueKeys(a.opts);
    var base := map["type" := Sym(CanonicType(ToS(t))), "default" := a.Default()];
    OverriddenTwice(base, ToMap(d));
  }

  /** No implied option is `:null`, `:default` or `:elements`. */
  lemma ImpliedOptsNeitherNullNorDefault(t: string)
    ensures Get(DefaultOptsFor(t), "null") == Nil && Get(DefaultOptsFor(t), "default") == Nil
    ensures Get(DefaultOptsFor(t), "elements") == Nil
  {
    var d := DefaultOptsFor(t);
    assert d == [] || (|d| == 1 && d[0].key in {"size", "unsigned"});
  }

  /** Two columns of the same type whose `:null` and `:default` agree have the same default. */
  lemma SameDefaults(a: Column, b: Column)
    requires a.ty == b.ty
    requires Get(a.opts, "null") == Get(b.opts, "null") && Get(a.opts, "default") == Get(b.opts, "default")
    requires Get(a.opts, "elements") == Get(b.opts, "elements")
    ensures a.Default() == b.Default()
  {
    assert a.AllowNull() == b.AllowNull();
    assert a.TypeDefault() == b.TypeDefault();
  }

  lemma OverriddenTwice(base: map<string, Value>, implied: map<string, Value>)
    ensures (base + implied + map[]) - {"key"} == (base + implied + implied) - {"key"}
  {
    assert base + implied + implied == base + implied + map[];
  }

  /** `String :a` and `String :a, :size => 255` are the same column: 255 is the implied size. */
  lemma ImpliedStringSize()
    ensures ColumnEq(Column(Sym("String"), Sym("a"), []), Column(Sym("String"), Sym("a"), [Entry("size", Int(255))]))
  {
    AliasedTypesCanonicaliseAlike();
    ImpliedOptionsAreRedundant(Sym("String"), Sym("a"));
  }

  /** A NOT NULL string column has the empty string as its default, a nullable one nil. */
  lemma ComputedDefaults()
    ensures Column(Sym("String"), Sym("s"), [Entry("null", Bool(false))]).Default() == Str("")
    ensures Column(Sym("String"), Sym("s"), []).Default() == Nil
    ensures Column(Sym("Integer"), Sym("i"), [Entry("null", Bool(false))]).Default() == Int(0)
    ensures Column(Sym("enum"), Sym("e"), [Entry("null", Bool(false)), Entry("elements", List([Str("x"), Str("y")]))]).Default() == Str("x")
  {
    StringDefaults();
    IntegerDefault();
    EnumDefault();
  }

  lemma StringDefaults()
    ensures Column(Sym("String"), Sym("s"), [Entry("null", Bool(false))]).Default() == Str("")
    ensures Column(Sym("String"), Sym("s"), []).Default() == Nil
  {
    AliasedTypesCanonicaliseAlike();
  }

  lemma IntegerDefault()
    ensures Column(Sym("Integer"), Sym("i"), [Entry("null", Bool(false))]).Default() == Int(0)
  {
    AliasedTypesCanonicaliseAlike();
  }

  lemma EnumDefault()
    ensures Column(Sym("enum"), Sym("e"), [Entry("null", Bool(false)), Entry("elements", List([Str("x"), Str("y")]))]).Default() == Str("x")
  {
    var opts := [Entry("null", Bool(false)), Entry("elements", List([Str("x"), Str("y")]))];
    assert Downcase("enum") == "enum";
    assert CanonicType("enum") == "enum";
    assert opts[1..] == [opts[1]] && opts[1..][1..] == [];
    assert Get(opts, "null") == Bool(false) && Get(opts, "default") == Nil;
    assert Get(opts, "elements") == List([Str("x"), Str("y")]);
  }

  /** Index equality depends on the order of its columns. */
  lemma IndexColumnOrderMatters(x: Value, y: Value, opts: Opts)
    requires x != y
    ensures !IndexEq(Index([x, y], opts), Index([y, x], opts))
  {
  }

  /** An index that says nothing about uniqueness equals one that says `:unique => false`,
   *  and `:null` does not matter. */
  lemma IndexUniqueDefault(cols: seq<Value>)
    ensures IndexEq(Index(cols, []), Index(cols, [Entry("unique", Bool(false)), Entry("null", Bool(true))]))
  {
    var a := Index(cols, []);
    var u, n := Entry("unique", Bool(false)), Entry("null", Bool(true));
    var b := Index(cols, [u, n]);
    PairMeaning(u, n);
    assert UniqueKeys(a.opts);
    UniqueFalseOnly(map["unique" := Bool(false)], ToMap(a.opts), ToMap(b.opts));
  }

  /** A hash of two entries with different keys. */
  lemma PairMeaning(a: Entry, b: Entry)
    requires a.key != b.key
    ensures UniqueKeys([a, b]) && ToMap([a, b]) == map[a.key := a.value, b.key := b.value]
  {
    assert [a, b][1..] == [b] && [b][1..] == [];
  }

  lemma UniqueFalseOnly(base: map<string, Value>, none: map<string, Value>, both: map<string, Value>)
    requires base == map["unique" := Bool(false)] && none == map[]
    requires both == map["unique" := Bool(false), "null" := Bool(true)]
    ensures (base + none) - {"null"} == (base + both) - {"null"} == base
  {
  }

  /** Foreign keys that differ only in `:null`, `:unsigned` or `:type` are equal; a
   *  `:default` still matters, the target table always does. */
  lemma ForeignKeyIgnoredOptions(cols: seq<Value>, t: Value, opts: Opts, k: string, v: Value)
    requires k in {"null", "unsigned", "type"}
    ensures ForeignKeyEq(ForeignKey(cols, t, opts), ForeignKey(cols, t, Put(opts, k, v)))
  {
    var ignored := IgnoredKeyOpts;
    var m := ToMap(opts);
    UpdateThenRemove(m, ignored, k, v);
    assert ToMap(ForeignKey(cols, t, Put(opts, k, v)).CanonicOpts()) == m[k := v] - ignored;
  }

  lemma ForeignKeyKeepsDefault(cols: seq<Value>, t: Value)
    ensures !ForeignKeyEq(ForeignKey(cols, t, []), ForeignKey(cols, t, [Entry("default", Int(0))]))
  {
    assert "default" in ToMap(ForeignKey(cols, t, [Entry("default", Int(0))]).CanonicOpts());
  }

  lemma ForeignKeyTargetMatters(cols: seq<Value>, t: Value, u: Value, opts: Opts)
    requires t != u
    ensures !ForeignKeyEq(ForeignKey(cols, t, opts), ForeignKey(cols, u, opts))
  {
  }

  /** The foreign key's options and its column's share a hash: `:key => :id` reads
   *  `:key => [:id]` in both after the key is built. */
  lemma ForeignKeyWrapsKey()
    ensures NewForeignKey(Sym("user_id"), Sym("users"), [Entry("key", Sym("id"))]).opts == [Entry("key", List([Sym("id")]))]
  {
  }
}
