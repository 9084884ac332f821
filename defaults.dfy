/** The rule table behind shorthand statements (schema.rb, `set_defaults`,
 *  `get_defaults`, `set_standard_defaults` and `apply_defaults`).
 *
 *  A statement such as `Text? :notes` is resolved in a fixed order: the
 *  `:global` defaults, then `:null => true` for a name ending in `?`, then the
 *  defaults of the name without `?`, then those of the `?` name itself, then
 *  the callback of the name without `?`, and last the options the statement
 *  itself was given.  The statement then becomes its alias, looked up by the
 *  name without `?`.
 */
module Defaults {
  import opened Options

  /** One argument of a statement: a positional value, or an options hash. */
  datatype Arg = Pos(value: Value) | Hash(opts: Opts)

  /** The callbacks the standard defaults install (for `primary_key` and
   *  `foreign_key`): `opts[:type] ||= :integer unless args.first.is_a? Array`. */
  datatype Callback = IntegerTypeUnlessCompound

  /** The rule table: aliases, default options and callbacks, all keyed by statement name. */
  datatype Rules = Rules(aliases: map<string, string>, defaults: map<string, Opts>, callbacks: map<string, Callback>)

  /** Every stored default is a well-formed hash. */
  ghost predicate WellFormed(rules: Rules) {
    forall k :: k in rules.defaults ==> UniqueKeys(rules.defaults[k])
  }

  /** `get_defaults( name )`: the stored defaults, or an empty hash. */
  function GetDefaults(rules: Rules, name: string): (o: Opts)
    ensures name in rules.defaults ==> o == rules.defaults[name]
    ensures name !in rules.defaults ==> o == []
    ensures WellFormed(rules) ==> UniqueKeys(o)
  {
    if name in rules.defaults then rules.defaults[name] else []
  }

  /** A statement name ending in `?` declares a nullable column. */
  predicate IsNullable(name: string) {
    |name| > 0 && name[|name| - 1] == '?'
  }

  /** The name without its trailing `?`. */
  function Stem(name: string): (s: string)
    ensures IsNullable(name) ==> s + "?" == name
    ensures !IsNullable(name) ==> s == name
  {
    if IsNullable(name) then name[..|name| - 1] else name
  }

  /** The statement's first argument is a list (a compound key). */
  predicate CompoundFirst(args: seq<Arg>) {
    |args| > 0 && args[0].Pos? && args[0].value.List?
  }

  /** Runs a callback on the options gathered so far; `args` and the table name are read-only context. */
  function RunCallback(cb: Callback, opts: Opts, args: seq<Arg>, table: string): (r: Opts)
    ensures UniqueKeys(opts) ==> UniqueKeys(r)
    ensures !CompoundFirst(args) && !Truthy(Get(opts, "type")) ==> ToMap(r) == ToMap(opts)["type" := Sym("integer")]
    ensures CompoundFirst(args) || Truthy(Get(opts, "type")) ==> r == opts
  {
    match cb
    case IntegerTypeUnlessCompound =>
      if CompoundFirst(args) || Truthy(Get(opts, "type")) then opts else Put(opts, "type", Sym("integer"))
  }

  /** The statement ends with an options hash. */
  predicate HasTrailingHash(args: seq<Arg>) {
    |args| > 0 && args[|args| - 1].Hash?
  }

  /** The arguments without a trailing options hash. */
  function Positional(args: seq<Arg>): seq<Arg> {
    if HasTrailingHash(args) then args[..|args| - 1] else args
  }

  /** The options hash the statement was given, or an empty one. */
  function Trailing(args: seq<Arg>): Opts {
    if HasTrailingHash(args) then args[|args| - 1].opts else []
  }

  /** The defaults a statement starts from, before its callback and its own options. */
  function BaseOpts(rules: Rules, name: string): Opts {
    var o := Merge([], GetDefaults(rules, "global"));
    var o := if IsNullable(name) then Put(o, "null", Bool(true)) else o;
    var o := Merge(o, GetDefaults(rules, Stem(name)));
    if IsNullable(name) then Merge(o, GetDefaults(rules, name)) else o
  }

  /** The defaults after the callback of the name without `?`, if it has one. */
  function CalledOpts(rules: Rules, table: string, name: string, args: seq<Arg>): Opts {
    var o := BaseOpts(rules, name);
    if Stem(name) in rules.callbacks then RunCallback(rules.callbacks[Stem(name)], o, args, table) else o
  }

  /** The options `apply_defaults` gathers for a statement, as an ordered hash. */
  function ResolvedOpts(rules: Rules, table: string, name: string, args: seq<Arg>): Opts {
    Merge(CalledOpts(rules, table, name, args), Trailing(args))
  }

  /** The statement a name stands for: the alias of the name without `?`, or that name itself. */
  function Target(rules: Rules, name: string): string {
    var stem := Stem(name);
    if stem in rules.aliases then rules.aliases[stem] else stem
  }

  /** `apply_defaults( table_name, name, *args )`: the statement to run and its arguments. */
  function Resolve(rules: Rules, table: string, name: string, args: seq<Arg>): (r: (string, seq<Arg>))
    ensures r.0 == Target(rules, name)
  {
    var opts := ResolvedOpts(rules, table, name, args);
    var out := if opts == [] then Positional(args) else Positional(args) + [Hash(opts)];
    (Target(rules, name), out)
  }

  // The same precedence, stated with order-free maps: each layer overrides the ones before it.

  ghost function BaseLayers(rules: Rules, name: string): map<string, Value> {
    var global := ToMap(GetDefaults(rules, "global"));
    var global := if IsNullable(name) then global["null" := Bool(true)] else global;
    var own := ToMap(GetDefaults(rules, Stem(name)));
    if IsNullable(name) then global + own + ToMap(GetDefaults(rules, name)) else global + own
  }

  ghost function CalledLayers(rules: Rules, name: string, args: seq<Arg>): map<string, Value> {
    var base := BaseLayers(rules, name);
    if Stem(name) in rules.callbacks && !CompoundFirst(args) && !("type" in base && Truthy(base["type"]))
    then base["type" := Sym("integer")] else base
  }

  ghost function Layered(rules: Rules, name: string, args: seq<Arg>): map<string, Value> {
    CalledLayers(rules, name, args) + ToMap(Trailing(args))
  }

  lemma BaseOptsLayers(rules: Rules, name: string)
    requires WellFormed(rules)
    ensures ToMap(BaseOpts(rules, name)) == BaseLayers(rules, name)
    ensures UniqueKeys(BaseOpts(rules, name))
  {
    var g := GetDefaults(rules, "global");
    assert UniqueKeys(g) && UniqueKeys(GetDefaults(rules, Stem(name))) && UniqueKeys(GetDefaults(rules, name));
    MergeIntoEmpty(g);
  }

  lemma MergeIntoEmpty(g: Opts)
    requires UniqueKeys(g)
    ensures ToMap(Merge([], g)) == ToMap(g) && UniqueKeys(Merge([], g))
  {
    assert ToMap([]) + ToMap(g) == ToMap(g);
  }

  lemma CalledOptsLayers(rules: Rules, table: string, name: string, args: seq<Arg>)
    requires WellFormed(rules)
    ensures ToMap(CalledOpts(rules, table, name, args)) == CalledLayers(rules, name, args)
    ensures UniqueKeys(CalledOpts(rules, table, name, args))
  {
    BaseOptsLayers(rules, name);
    var o := BaseOpts(rules, name);
    assert "type" in ToMap(o) ==> Get(o, "type") == ToMap(o)["type"];
    assert "type" !in ToMap(o) ==> Get(o, "type") == Nil;
  }

  /** `apply_defaults` keeps the positional arguments and appends one options hash
   *  holding exactly the layered options, unless there are none. */
  lemma {:induction false} ResolvePrecedence(rules: Rules, table: string, name: string, args: seq<Arg>)
    requires WellFormed(rules) && UniqueKeys(Trailing(args))
    ensures var out := Resolve(rules, table, name, args).1;
      var pos := Positional(args);
      |out| >= |pos| && out[..|pos|] == pos &&
      (Layered(rules, name, args) == map[] ==> out == pos) &&
      (Layered(rules, name, args) != map[] ==>
        |out| == |pos| + 1 && out[|pos|].Hash? && ToMap(out[|pos|].opts) == Layered(rules, name, args))
  {
    CalledOptsLayers(rules, table, name, args);
    var o := ResolvedOpts(rules, table, name, args);
    assert ToMap(o) == Layered(rules, name, args);
    assert o == [] <==> ToMap(o) == map[] by {
      if o != [] { assert o[0].key in Keys(o); }
    }
  }

  /** The options a statement is given always win over every default. */
  lemma CallerOptionsWin(rules: Rules, table: string, name: string, args: seq<Arg>, k: string)
    requires WellFormed(rules) && UniqueKeys(Trailing(args))
    requires k in ToMap(Trailing(args))
    ensures var out := Resolve(rules, table, name, args).1;
      |out| > 0 && out[|out| - 1].Hash? && ToMap(out[|out| - 1].opts)[k] == ToMap(Trailing(args))[k]
  {
    ResolvePrecedence(rules, table, name, args);
  }

  // ----- the standard defaults -----

  /** The statement names `set_standard_defaults` assigns. */
  const StandardNames: set<string> :=
    {"global", "primary_key", "foreign_key", "unique", "Bool", "True", "False", "Signed", "Unsigned", "Text", "Time", "Time?"}

  const StandardAliases: map<string, string> := map[
    "unique" := "index",
    "Bool" := "TrueClass",
    "True" := "TrueClass",
    "False" := "TrueClass",
    "Signed" := "integer",
    "Unsigned" := "integer",
    "Text" := "String",
    "Time" := "timestamp",
    "Time?" := "timestamp"
  ]

  const StandardDefaults: map<string, Opts> := map[
    "global" := [Entry("null", Bool(false))],
    "primary_key" := [Entry("unsigned", Bool(true))],
    "foreign_key" := [Entry("key", Sym("id")), Entry("unsigned", Bool(true))],
    "unique" := [Entry("unique", Bool(true))],
    "True" := [Entry("default", Bool(true))],
    "False" := [Entry("default", Bool(false))],
    "Signed" := [Entry("unsigned", Bool(false))],
    "Unsigned" := [Entry("unsigned", Bool(true))],
    "Text" := [Entry("text", Bool(true))],
    "Time" := [Entry("default", Int(0))],
    "Time?" := [Entry("default", Nil)]
  ]

  const StandardCallbacks: map<string, Callback> := map[
    "primary_key" := IntegerTypeUnlessCompound,
    "foreign_key" := IntegerTypeUnlessCompound
  ]

  /** The rules of a schema after `set_standard_defaults` on an empty one. */
  function StandardRules(): (r: Rules)
    ensures WellFormed(r)
  {
    assert forall k :: k in StandardDefaults ==> |StandardDefaults[k]| <= 2;
    assert UniqueKeys(StandardDefaults["foreign_key"]);
    Rules(StandardAliases, StandardDefaults, StandardCallbacks)
  }

  // What the standard rules guarantee, stated as properties of a rule table,
  // and what any statement resolved under such a table then gets.

  /** Columns are NOT NULL unless said otherwise: `:global` holds `:null => false`,
   *  and no other stored default mentions `:null`. */
  ghost predicate GlobalNotNull(rules: Rules) {
    GetDefaults(rules, "global") == [Entry("null", Bool(false))] &&
    forall k :: k in rules.defaults && "null" in Keys(rules.defaults[k]) ==> k == "global"
  }

  /** `primary_key` and `foreign_key` carry the integer-type callback, and no
   *  default of theirs (or the global one) sets `:type`. */
  ghost predicate IntegerKeys(rules: Rules) {
    (forall k :: k in {"primary_key", "foreign_key"} ==>
      k in rules.callbacks && rules.callbacks[k] == IntegerTypeUnlessCompound &&
      "type" !in Keys(GetDefaults(rules, k))) &&
    "type" !in Keys(GetDefaults(rules, "global"))
  }

  lemma StandardGlobalNotNull()
    ensures GlobalNotNull(StandardRules())
  {
    var rules := StandardRules();
    assert GetDefaults(rules, "global") == [Entry("null", Bool(false))];
    forall k | k in rules.defaults && "null" in Keys(rules.defaults[k])
      ensures k == "global"
    {
      StandardDefaultNull(k);
    }
  }

  lemma StandardDefaultNull(k: string)
    requires k in StandardDefaults
    ensures "null" in Keys(StandardDefaults[k]) ==> k == "global"
  {
    var o := StandardDefaults[k];
    if k == "foreign_key" {
      assert Keys(o) == ["key"] + Keys(o[1..]) && Keys(o[1..]) == ["unsigned"] + Keys([]);
    } else {
      assert |o| == 1 && (k == "global" || o[0].key != "null");
      assert Keys(o) == [o[0].key] + Keys([]);
    }
  }

  lemma StandardIntegerKeys()
    ensures IntegerKeys(StandardRules())
  {
    StandardKeyCallbacks();
    StandardKeyTypes();
  }

  lemma StandardKeyCallbacks()
    ensures var cbs := StandardRules().callbacks;
      "primary_key" in cbs && cbs["primary_key"] == IntegerTypeUnlessCompound &&
      "foreign_key" in cbs && cbs["foreign_key"] == IntegerTypeUnlessCompound
  {
  }

  lemma StandardKeyTypes()
    ensures "type" !in Keys(GetDefaults(StandardRules(), "primary_key"))
    ensures "type" !in Keys(GetDefaults(StandardRules(), "foreign_key"))
    ensures "type" !in Keys(GetDefaults(StandardRules(), "global"))
  {
    NoTypeKey("primary_key", [Entry("unsigned", Bool(true))]);
    NoTypeKey("foreign_key", [Entry("key", Sym("id")), Entry("unsigned", Bool(true))]);
    NoTypeKey("global", [Entry("null", Bool(false))]);
  }

  lemma NoTypeKey(k: string, o: Opts)
    requires k in StandardDefaults && StandardDefaults[k] == o
    requires forall i :: 0 <= i < |o| ==> o[i].key != "type"
    ensures "type" !in Keys(GetDefaults(StandardRules(), k))
  {
    if "type" in Keys(o) {
      var i := KeyIndex(o, "type");
    }
  }

  /** The position of a key in a hash. */
  lemma {:induction false} KeyIndex(o: Opts, k: string) returns (i: nat)
    requires k in Keys(o)
    ensures i < |o| && o[i].key == k
    decreases |o|
  {
    if o[0].key == k {
      i := 0;
    } else {
      var j := KeyIndex(o[1..], k);
      i := j + 1;
    }
  }

  /** A statement without `?` is NOT NULL unless its own options say otherwise. */
  lemma NotNullByDefault(rules: Rules, name: string, args: seq<Arg>)
    requires GlobalNotNull(rules) && !IsNullable(name)
    requires "null" !in ToMap(Trailing(args))
    ensures "null" in Layered(rules, name, args) && Layered(rules, name, args)["null"] == Bool(false)
  {
    var own := ToMap(GetDefaults(rules, name));
    if name in rules.defaults && name != "global" {
      assert "null" !in own;
    }
  }

  /** A `?` statement allows NULL unless its own options say otherwise
   *  (`global?` is the exception: its own defaults are the global ones). */
  lemma NullableByDefault(rules: Rules, name: string, args: seq<Arg>)
    requires GlobalNotNull(rules) && IsNullable(name) && Stem(name) != "global"
    requires "null" !in ToMap(Trailing(args))
    ensures "null" in Layered(rules, name, args) && Layered(rules, name, args)["null"] == Bool(true)
  {
    var own := ToMap(GetDefaults(rules, Stem(name)));
    var q := ToMap(GetDefaults(rules, name));
    if Stem(name) in rules.defaults {
      assert "null" !in own;
    }
    if name in rules.defaults {
      assert name != "global";
      assert "null" !in q;
    }
  }

  /** `primary_key :id` and `foreign_key :user_id, ...` get an integer column
   *  unless the caller names a type... */
  lemma KeysDefaultToInteger(rules: Rules, name: string, args: seq<Arg>)
    requires IntegerKeys(rules) && name in {"primary_key", "foreign_key"}
    requires !CompoundFirst(args) && "type" !in ToMap(Trailing(args))
    ensures "type" in Layered(rules, name, args) && Layered(rules, name, args)["type"] == Sym("integer")
  {
    assert !IsNullable(name);
    assert "type" !in BaseLayers(rules, name);
  }

  /** ...while a compound key such as `primary_key [:a, :b]` gets no type at all. */
  lemma CompoundKeyHasNoType(rules: Rules, name: string, args: seq<Arg>)
    requires IntegerKeys(rules) && name in {"primary_key", "foreign_key"}
    requires CompoundFirst(args) && "type" !in ToMap(Trailing(args))
    ensures "type" !in Layered(rules, name, args)
  {
    assert !IsNullable(name);
    assert "type" !in BaseLayers(rules, name);
  }

  /** A default stored for a name without `?` reaches its statements, unless the
   *  callback or the caller sets the same option. */
  lemma OwnDefaultApplies(rules: Rules, name: string, args: seq<Arg>, k: string)
    requires !IsNullable(name) && k != "type"
    requires k in ToMap(GetDefaults(rules, name)) && k !in ToMap(Trailing(args))
    ensures k in Layered(rules, name, args) && Layered(rules, name, args)[k] == ToMap(GetDefaults(rules, name))[k]
  {
  }

  /** Under the standard rules `unique :email` is an index with `:unique => true`... */
  lemma StandardUnique(rules: Rules, args: seq<Arg>)
    requires rules == StandardRules() && "unique" !in ToMap(Trailing(args))
    ensures Target(rules, "unique") == "index"
    ensures "unique" in Layered(rules, "unique", args) && Layered(rules, "unique", args)["unique"] == Bool(true)
  {
    assert GetDefaults(rules, "unique") == [Entry("unique", Bool(true))];
    OwnDefaultApplies(rules, "unique", args, "unique");
  }

  /** ...and the shorthand type names resolve to their canonical statements. */
  lemma StandardTypeNames(rules: Rules)
    requires rules == StandardRules()
    ensures Target(rules, "Text?") == "String"
    ensures Target(rules, "Time?") == "timestamp"
    ensures Target(rules, "Bool") == "TrueClass"
    ensures Target(rules, "foreign_key") == "foreign_key"
  {
    assert Stem("Text?") == "Text" && Stem("Time?") == "Time";
  }
}
