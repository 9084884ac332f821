/** Reading database types back into schema types (importer.rb).
 *
 *  The importer asks the database for its tables, columns, indexes and
 *  foreign keys and turns each database type literal (`varchar(64)`,
 *  `int(10) unsigned`, `enum('a','b')`) into the type and options a schema
 *  definition would use.  This module models the literal parsing: the
 *  regular expressions become character-class scans, and each `case`/`when`
 *  becomes an `if` chain tried in the source's order.
 */
module Importer {
  import opened Options
  import opened Errors
  import opened Output
  import opened Entities

  // ----- character classes -----

  /** The classes the patterns use: `\s`, `\d`, `\w` and `[\s\d,]`. */
  datatype CharClass = Space | Digit | Word | SizeChar

  predicate IsDigit(c: char) {
    '0' <= c <= '9'
  }

  /** Ruby's `\s`: space, tab, newline, vertical tab, form feed and carriage return. */
  predicate IsSpace(c: char) {
    c == ' ' || c == '\t' || c == '\n' || c == '\r' || c as int == 11 || c as int == 12
  }

  predicate InClass(c: char, k: CharClass) {
    match k
    case Space => IsSpace(c)
    case Digit => IsDigit(c)
    case Word => 'a' <= c <= 'z' || 'A' <= c <= 'Z' || IsDigit(c) || c == '_'
    case SizeChar => IsSpace(c) || IsDigit(c) || c == ','
  }

  /** Where the longest run of class `k` starting at `i` ends (a greedy `k*`). */
  function RunEnd(t: string, i: nat, k: CharClass): (r: nat)
    requires i <= |t|
    ensures i <= r <= |t|
    ensures forall j :: i <= j < r ==> InClass(t[j], k)
    ensures r < |t| ==> !InClass(t[r], k)
    decreases |t| - i
  {
    if i < |t| && InClass(t[i], k) then RunEnd(t, i + 1, k) else i
  }

  /** `\d+` over the whole of `s`. */
  predicate IsDigits(s: string) {
    |s| > 0 && forall i :: 0 <= i < |s| ==> IsDigit(s[i])
  }

  /** A run of class `k` from `i` to `j` that stops at `j` is the longest one. */
  lemma {:induction false} RunEndAt(t: string, i: nat, j: nat, k: CharClass)
    requires i <= j <= |t|
    requires forall x :: i <= x < j ==> InClass(t[x], k)
    requires j == |t| || !InClass(t[j], k)
    ensures RunEnd(t, i, k) == j
    decreases j - i
  {
    if i < j {
      RunEndAt(t, i + 1, j, k);
    }
  }

  function StartsWith(t: string, p: string): bool {
    |t| >= |p| && t[..|p|] == p
  }

  /** The part of `t` between `pre` and `post`, when `t` starts with one and ends with the other. */
  function Between(t: string, pre: string, post: string): (r: Option<string>)
    ensures r.Some? ==> t == pre + r.value + post
  {
    if |t| >= |pre| + |post| && t[..|pre|] == pre && t[|t| - |post|..] == post then
      Some(t[|pre|..|t| - |post|])
    else None
  }

  // ----- parse_elements -----

  /** The body of a quoted element: the text after an opening quote up to its closing quote,
   *  as `(?:[^']|'')*'` matches it.  A doubled quote is part of the body; when the text ends
   *  without a closing quote, the match backs off to the last doubled quote, whose first
   *  half then closes the element.  Gives the body's length, or nothing when no quote follows. */
  function BodyLength(t: string): (r: Option<nat>)
    ensures r.Some? ==> r.value < |t| && t[r.value] == '\''
  {
    if t == [] then None
    else if t[0] != '\'' then
      match BodyLength(t[1..])
      case Some(n) => Some(n + 1)
      case None => None
    else if |t| >= 2 && t[1] == '\'' then
      match BodyLength(t[2..])
      case Some(n) => Some(n + 2)
      case None => Some(0)
    else Some(0)
  }

  /** `scan( /'((?:[^']|'')*)'/ ).flatten`: the bodies of the quoted elements, left to right. */
  function Scan(s: string): (r: seq<string>)
    decreases |s|
  {
    if s == [] then []
    else if s[0] == '\'' && BodyLength(s[1..]).Some? then
      var n := BodyLength(s[1..]).value;
      [s[1..1 + n]] + Scan(s[2 + n..])
    else Scan(s[1..])
  }

  /** ESCAPED_CHARS applied to a backslash pair: `\\`, `\n` and `\t` are translated, any
   *  other pair is kept as it is. */
  function EscapedPair(c: char): string {
    if c == '\\' then "\\" else if c == 'n' then "\n" else if c == 't' then "\t" else ['\\', c]
  }

  /** `gsub( /''|\\./ ){ ... }`: a doubled quote becomes one quote and a backslash pair is
   *  translated, scanning left to right; `.` does not match a newline. */
  function Unescape(x: string): string
    decreases |x|
  {
    if |x| >= 2 && x[0] == '\'' && x[1] == '\'' then "'" + Unescape(x[2..])
    else if |x| >= 2 && x[0] == '\\' && x[1] != '\n' then EscapedPair(x[1]) + Unescape(x[2..])
    else if x == [] then []
    else [x[0]] + Unescape(x[1..])
  }

  /** `parse_elements( string )`: the values of an enum or set type. */
  function ParseElements(s: string): (r: seq<string>) {
    var bodies := Scan(s);
    seq(|bodies|, i requires 0 <= i < |bodies| => Unescape(bodies[i]))
  }

  // ----- writing elements, the inverse of parse_elements -----

  /** How a character is written inside a quoted element. */
  function EscapedChar(c: char): string {
    if c == '\'' then "''" else if c == '\\' then "\\\\" else if c == '\n' then "\\n"
    else if c == '\t' then "\\t" else [c]
  }

  function Escape(e: string): string {
    if e == [] then [] else EscapedChar(e[0]) + Escape(e[1..])
  }

  /** Elements as a database writes them in an enum or set type: quoted, comma-separated. */
  function Quoted(es: seq<string>): string {
    if es == [] then []
    else if |es| == 1 then "'" + Escape(es[0]) + "'"
    else "'" + Escape(es[0]) + "'," + Quoted(es[1..])
  }

  /** Text made of characters other than quotes and of doubled quotes. */
  predicate IsBody(b: string)
    decreases |b|
  {
    b == [] ||
    (b[0] != '\'' && IsBody(b[1..])) ||
    (|b| >= 2 && b[0] == '\'' && b[1] == '\'' && IsBody(b[2..]))
  }

  lemma {:induction false} EscapeIsBody(e: string)
    ensures IsBody(Escape(e))
  {
    if e != [] {
      EscapeIsBody(e[1..]);
      var x := EscapedChar(e[0]);
      var b := x + Escape(e[1..]);
      assert b[|x|..] == Escape(e[1..]);
      if |x| == 2 {
        assert b[1..][1..] == b[2..];
      }
    }
  }

  /** A body followed by a lone quote is matched up to that quote. */
  lemma {:induction false} BodyThenQuote(b: string, rest: string)
    requires IsBody(b)
    requires rest == [] || rest[0] != '\''
    ensures BodyLength(b + "'" + rest) == Some(|b|)
    decreases |b|
  {
    var t := b + "'" + rest;
    if b == [] {
      assert t == "'" + rest;
    } else if b[0] != '\'' {
      assert t[1..] == b[1..] + "'" + rest;
      BodyThenQuote(b[1..], rest);
    } else {
      assert t[2..] == b[2..] + "'" + rest;
      BodyThenQuote(b[2..], rest);
    }
  }

  lemma {:induction false} UnescapeEscape(e: string)
    ensures Unescape(Escape(e)) == e
  {
    if e != [] {
      UnescapeEscape(e[1..]);
      UnescapeOne(e[0], Escape(e[1..]));
    }
  }

  lemma UnescapeOne(c: char, rest: string)
    ensures Unescape(EscapedChar(c) + rest) == [c] + Unescape(rest)
  {
    var y := EscapedChar(c) + rest;
    if |EscapedChar(c)| == 2 {
      assert y[2..] == rest;
    } else {
      assert y[1..] == rest;
    }
  }

  lemma ScanComma(s: string)
    ensures Scan("," + s) == Scan(s)
  {
    assert ("," + s)[1..] == s;
  }

  /** One quoted element, then the rest. */
  lemma ScanElement(b: string, rest: string)
    requires IsBody(b)
    requires rest == [] || rest[0] != '\''
    ensures Scan("'" + b + "'" + rest) == [b] + Scan(rest)
  {
    var s := "'" + b + "'" + rest;
    assert s[1..] == b + "'" + rest;
    BodyThenQuote(b, rest);
    assert s[0] == '\'' && BodyLength(s[1..]) == Some(|b|);
    assert s[1..1 + |b|] == b && s[2 + |b|..] == rest;
    assert Scan(s) == [s[1..1 + |b|]] + Scan(s[2 + |b|..]);
  }

  /** The first quoted element, then the others. */
  lemma ScanQuotedHead(es: seq<string>)
    requires es != []
    ensures Scan(Quoted(es)) == [Escape(es[0])] + Scan(Quoted(es[1..]))
  {
    var b := Escape(es[0]);
    EscapeIsBody(es[0]);
    var rest := if |es| == 1 then [] else "," + Quoted(es[1..]);
    QuotedParts(es, b, rest);
    ScanElement(b, rest);
    if |es| > 1 {
      ScanComma(Quoted(es[1..]));
    }
  }

  lemma QuotedParts(es: seq<string>, b: string, rest: string)
    requires es != [] && b == Escape(es[0])
    requires rest == if |es| == 1 then [] else "," + Quoted(es[1..])
    ensures Quoted(es) == "'" + b + "'" + rest
    ensures rest == [] || rest[0] != '\''
  {
  }

  lemma {:induction false} ScanQuoted(es: seq<string>)
    ensures |Scan(Quoted(es))| == |es|
    ensures forall i :: 0 <= i < |es| ==> Scan(Quoted(es))[i] == Escape(es[i])
  {
    if es != [] {
      ScanQuoted(es[1..]);
      ScanQuotedHead(es);
    }
  }

  /** Reading quoted elements back gives the elements: `parse_elements` inverts the
   *  quoting a database writes. */
  lemma ParseQuoted(es: seq<string>)
    ensures ParseElements(Quoted(es)) == es
  {
    ScanQuoted(es);
    var r := ParseElements(Quoted(es));
    forall i | 0 <= i < |es|
      ensures r[i] == es[i]
    {
      UnescapeEscape(es[i]);
    }
  }

  /** A backslash pair outside the table stays two characters. */
  lemma OtherPairsKept(c: char, rest: string)
    requires c != '\\' && c != 'n' && c != 't' && c != '\n'
    ensures Unescape(['\\', c] + rest) == ['\\', c] + Unescape(rest)
  {
    assert (['\\', c] + rest)[2..] == rest;
  }

  lemma ParseTwoElements()
    ensures ParseElements("'a','b'") == ["a", "b"]
  {
    ParseQuoted(["a", "b"]);
    assert Quoted(["a", "b"]) == "'a','b'" by {
      assert Escape("a") == "a" && Escape("b") == "b";
    }
  }

  lemma EscapeCons(c: char, e: string)
    ensures Escape([c] + e) == EscapedChar(c) + Escape(e)
  {
    assert ([c] + e)[1..] == e;
  }

  lemma ParseDoubledQuote()
    ensures ParseElements("'it''s'") == ["it's"]
  {
    ParseQuoted(["it's"]);
    EscapeCons('s', []);
    EscapeCons('\'', "s");
    EscapeCons('t', "'s");
    EscapeCons('i', "t's");
    assert "it's" == ['i'] + "t's" && "t's" == ['t'] + "'s" && "'s" == ['\''] + "s" && "s" == ['s'] + [];
    assert Quoted(["it's"]) == "'it''s'";
  }

  /** An element left open backs off to its doubled quote, which then closes it. */
  lemma ParseUnclosed()
    ensures ParseElements("'x''") == ["x"]
  {
    var s := "'x''";
    assert s[1..] == "x''" && s[1..][1..] == "''" && s[1..][1..][2..] == [];
    assert BodyLength(s[1..]) == Some(1);
    assert s[1..2] == "x" && s[3..] == "'" && "'"[1..] == [];
    assert Scan(s) == ["x"];
    assert Unescape("x") == "x" by {
      assert "x"[1..] == [];
    }
  }

  // ----- revert_type_literal_internal -----

  /** `\d+` between the delimiters. */
  predicate DigitsIn(m: Option<string>) {
    m.Some? && IsDigits(m.value)
  }

  /** `\d+,\d+` between the delimiters. */
  predicate DigitPairIn(m: Option<string>) {
    m.Some? &&
    var k := RunEnd(m.value, 0, Digit);
    0 < k < |m.value| && m.value[k] == ',' && IsDigits(m.value[k + 1..])
  }

  /** `.*` between the delimiters: `.` does not match a newline. */
  predicate OneLineIn(m: Option<string>) {
    m.Some? && '\n' !in m.value
  }

  /** The `:elements` option: the parsed values as strings. */
  function Elements(s: string): (v: Value)
    ensures v.List? && |v.items| == |ParseElements(s)|
    ensures forall i :: 0 <= i < |v.items| ==> v.items[i] == Str(ParseElements(s)[i])
  {
    var es := ParseElements(s);
    List(seq(|es|, i requires 0 <= i < |es| => Str(es[i])))
  }

  /** The keys `revert_type_literal_internal` may put in its options. */
  const InternalKeys: set<string> := {"default_size", "unsigned", "fixed", "text", "elements"}

  /** The keys `revert_type_literal` may put in its options. */
  const TypeOptionKeys: set<string> := {"size", "unsigned", "fixed", "text", "elements"}

  /** The patterns only MySQL types are tried against, in order. */
  function MysqlType(t: string): (r: Option<(Value, Opts)>)
    ensures r.Some? ==> UniqueKeys(r.value.1)
    ensures r.Some? ==> forall k :: k in ToMap(r.value.1) ==> k in InternalKeys
    ensures r.Some? ==> "size" !in ToMap(r.value.1)
  {
    if DigitsIn(Between(t, "int(", ")")) then
      Some((Sym("integer"), [Entry("default_size", Int(11))]))
    else if DigitsIn(Between(t, "int(", ") unsigned")) then
      Some((Sym("integer"), [Entry("unsigned", Bool(true)), Entry("default_size", Int(10))]))
    else if DigitsIn(Between(t, "bigint(", ")")) then
      Some((Sym("bigint"), [Entry("default_size", Int(20))]))
    else if DigitPairIn(Between(t, "decimal(", ")")) then
      Some((Sym("decimal"), [Entry("default_size", List([Int(10), Int(0)]))]))
    else if OneLineIn(Between(t, "enum(", ")")) then
      Some((Sym("enum"), [Entry("elements", Elements(Between(t, "enum(", ")").value))]))
    else if OneLineIn(Between(t, "set(", ")")) then
      Some((Sym("set"), [Entry("elements", Elements(Between(t, "set(", ")").value))]))
    else None
  }

  /** `\A(\w+)\([\s\d,]+\)\z`: the word in front of a parenthesised list of sizes. */
  function SizedWord(t: string): (r: Option<string>)
    ensures r.Some? ==> |r.value| > 0
  {
    var k := RunEnd(t, 0, Word);
    if 0 < k && k + 2 < |t| && t[k] == '(' && t[|t| - 1] == ')' && RunEnd(t, k + 1, SizeChar) == |t| - 1 then
      Some(t[..k])
    else None
  }

  /** `\A\w+\z`. */
  predicate IsWord(t: string) {
    |t| > 0 && RunEnd(t, 0, Word) == |t|
  }

  /** `revert_type_literal_internal( type, ruby_type )` on a database of type `databaseType`:
   *  the schema type and its options, with the size the database assumes when none is
   *  given under `:default_size`.  Sequel's own idea of the type, `rubyType`, decides
   *  booleans and is the answer when no pattern matches. */
  function RevertTypeLiteralInternal(t: string, rubyType: Value, databaseType: string): (r: (Value, Opts))
    ensures UniqueKeys(r.1)
    ensures forall k :: k in ToMap(r.1) ==> k in InternalKeys
    ensures "size" !in ToMap(r.1)
  {
    if rubyType == Sym("boolean") then (Sym("boolean"), [Entry("default_size", Int(1))])
    else if databaseType == "mysql" && MysqlType(t).Some? then MysqlType(t).value
    else GenericType(t, rubyType)
  }

  /** The patterns tried on every database, in order. */
  function GenericType(t: string, rubyType: Value): (r: (Value, Opts))
    ensures UniqueKeys(r.1)
    ensures forall k :: k in ToMap(r.1) ==> k in InternalKeys
    ensures "size" !in ToMap(r.1)
    ensures "default_size" in ToMap(r.1) ==> r.0 == Sym("string") && Get(r.1, "default_size") == Int(255)
  {
    if StartsWith(t, "varchar") then (Sym("string"), [Entry("default_size", Int(255))])
    else if StartsWith(t, "char") then (Sym("string"), [Entry("fixed", Bool(true)), Entry("default_size", Int(255))])
    else if t == "text" then (Sym("string"), [Entry("text", Bool(true))])
    else (BareType(t, rubyType), [])
  }

  /** The last patterns: a word with a list of sizes is that word as a symbol, a bare
   *  word is the literal itself, and anything else is Sequel's type. */
  function BareType(t: string, rubyType: Value): Value {
    if SizedWord(t).Some? then Sym(SizedWord(t).value)
    else if IsWord(t) then Str(t)
    else rubyType
  }

  // ----- revert_type_literal -----

  /** `\(\s*(\d+)\s*\)` tried at position `i`: the digits, when it matches there. */
  function IntSizeAt(t: string, i: nat): (r: Option<string>)
    requires i < |t|
    ensures r.Some? ==> IsDigits(r.value)
  {
    var a := RunEnd(t, i + 1, Space);
    var b := RunEnd(t, a, Digit);
    var c := RunEnd(t, b, Space);
    if t[i] == '(' && a < b && c < |t| && t[c] == ')' then
      assert forall j :: a <= j < b ==> InClass(t[j], Digit);
      Some(t[a..b])
    else None
  }

  /** The leftmost match of `\(\s*(\d+)\s*\)` at or after `i`. */
  function FirstIntSize(t: string, i: nat): (r: Option<string>)
    requires i <= |t|
    ensures r.Some? ==> IsDigits(r.value)
    decreases |t| - i
  {
    if i == |t| then None
    else if t[i] == '(' && IntSizeAt(t, i).Some? then IntSizeAt(t, i)
    else FirstIntSize(t, i + 1)
  }

  /** `\(([\s\d,]+)\)` tried at position `i`: the text inside the parentheses. */
  function SizeListAt(t: string, i: nat): Option<string>
    requires i < |t|
  {
    var e := RunEnd(t, i + 1, SizeChar);
    if t[i] == '(' && i + 1 < e < |t| && t[e] == ')' then Some(t[i + 1..e]) else None
  }

  /** The leftmost match of `\(([\s\d,]+)\)` at or after `i`. */
  function FirstSizeList(t: string, i: nat): Option<string>
    requires i <= |t|
    decreases |t| - i
  {
    if i == |t| then None
    else if t[i] == '(' && SizeListAt(t, i).Some? then SizeListAt(t, i)
    else FirstSizeList(t, i + 1)
  }

  /** The fields between the commas of `m`, empty ones included. */
  function Fields(m: string): (r: seq<string>)
    ensures |r| > 0
    decreases |m|
  {
    if m == [] then [""]
    else if m[0] == ',' then [""] + Fields(m[1..])
    else
      var r := Fields(m[1..]);
      [[m[0]] + r[0]] + r[1..]
  }

  function DropTrailingEmpty(fs: seq<string>): (r: seq<string>)
    ensures r == [] || r[|r| - 1] != ""
    decreases |fs|
  {
    if fs != [] && fs[|fs| - 1] == "" then DropTrailingEmpty(fs[..|fs| - 1]) else fs
  }

  /** `split( ',' )`: the fields, with trailing empty fields dropped. */
  function Split(m: string): seq<string> {
    DropTrailingEmpty(Fields(m))
  }

  /** `to_i`: leading white space skipped, then the digits read; zero when there are none. */
  function ToI(x: string): nat {
    var a := RunEnd(x, 0, Space);
    var b := RunEnd(x, a, Digit);
    assert forall j :: a <= j < b ==> InClass(x[j], Digit);
    DigitsValue(x[a..b])
  }

  /** The `size` a type literal carries: the number in the first `( n )`, otherwise the
   *  numbers of the first parenthesised list of numbers, otherwise none. */
  function SizeOf(t: string): Option<Value> {
    match FirstIntSize(t, 0)
    case Some(d) => Some(Int(DigitsValue(d)))
    case None =>
      match FirstSizeList(t, 0)
      case Some(m) =>
        var fs := Split(m);
        Some(List(seq(|fs|, i requires 0 <= i < |fs| => Int(ToI(fs[i])))))
      case None => None
  }

  /** The options with the assumed size taken out and the literal's `size` put in where
   *  it differs from the assumed one; all other options stay. */
  function WithSize(o: Opts, size: Option<Value>): (r: Opts)
    requires UniqueKeys(o) && "size" !in ToMap(o)
    ensures UniqueKeys(r) && "default_size" !in ToMap(r)
    ensures "size" in ToMap(r) <==> size.Some? && size.value != Get(o, "default_size")
    ensures "size" in ToMap(r) ==> ToMap(r)["size"] == size.value
    ensures forall k :: k != "size" && k != "default_size" ==>
      (k in ToMap(r) <==> k in ToMap(o)) && (k in ToMap(o) ==> ToMap(r)[k] == ToMap(o)[k])
  {
    var (defaultSize, rest) := Delete(o, "default_size");
    if size.Some? && size.value != defaultSize then Put(rest, "size", size.value) else rest
  }

  /** `revert_type_literal( type, ruby_type )`: the schema type and its options, with the
   *  literal's size stated only where it differs from the size the database assumes. */
  function RevertTypeLiteral(t: string, rubyType: Value, databaseType: string): (r: (Value, Opts))
    ensures r.0 == RevertTypeLiteralInternal(t, rubyType, databaseType).0
    ensures UniqueKeys(r.1) && "default_size" !in ToMap(r.1)
    ensures forall k :: k in ToMap(r.1) ==> k in TypeOptionKeys
  {
    var (ty, opts) := RevertTypeLiteralInternal(t, rubyType, databaseType);
    (ty, WithSize(opts, SizeOf(t)))
  }

  // ----- properties of the type literals -----

  /** The size rule: the literal's size is stated exactly when the literal has one and it
   *  differs from the size the database assumes; every other option comes unchanged from
   *  `revert_type_literal_internal`. */
  lemma SizeRule(t: string, rubyType: Value, databaseType: string)
    ensures var r := RevertTypeLiteral(t, rubyType, databaseType);
      var assumed := Get(RevertTypeLiteralInternal(t, rubyType, databaseType).1, "default_size");
      ("size" in ToMap(r.1) <==> SizeOf(t).Some? && SizeOf(t).value != assumed) &&
      ("size" in ToMap(r.1) ==> ToMap(r.1)["size"] == SizeOf(t).value)
    ensures var r := RevertTypeLiteral(t, rubyType, databaseType);
      var o := RevertTypeLiteralInternal(t, rubyType, databaseType).1;
      forall k :: k != "size" && k != "default_size" ==>
        (k in ToMap(r.1) <==> k in ToMap(o)) && (k in ToMap(o) ==> ToMap(r.1)[k] == ToMap(o)[k])
  {
  }

  /** Sequel's boolean hint wins over the literal: a boolean is assumed to be one wide,
   *  so `tinyint(1)` needs no size and any other width keeps its own. */
  lemma BooleanHint(t: string, databaseType: string)
    ensures var r := RevertTypeLiteral(t, Sym("boolean"), databaseType);
      r.0 == Sym("boolean") &&
      ("size" in ToMap(r.1) <==> SizeOf(t).Some? && SizeOf(t).value != Int(1)) &&
      forall k :: k in ToMap(r.1) ==> k == "size"
  {
    SizeRule(t, Sym("boolean"), databaseType);
  }

  /** Where the importer leaves out a size as the database's default, for the types the
   *  schema itself gives default options, the schema implies that very size: a `varchar`,
   *  `char`, `bigint` or `decimal` read back without its size means what it meant. */
  lemma DefaultSizesAreImplied(t: string, rubyType: Value, databaseType: string)
    requires rubyType != Sym("boolean")
    ensures var (ty, o) := RevertTypeLiteralInternal(t, rubyType, databaseType);
      "default_size" in ToMap(o) && ty != Sym("integer") ==>
        ty.Sym? && Get(o, "default_size") == Get(DefaultOptsFor(CanonicType(ty.name)), "size")
  {
    var (ty, o) := RevertTypeLiteralInternal(t, rubyType, databaseType);
    if "default_size" in ToMap(o) && ty != Sym("integer") {
      if databaseType == "mysql" && MysqlType(t).Some? {
        MysqlSizes(t);
        SchemaSize(ty.name);
      } else {
        SchemaSize("string");
      }
    }
  }

  /** The sizes MySQL assumes for its `bigint` and `decimal` literals. */
  lemma MysqlSizes(t: string)
    requires MysqlType(t).Some?
    ensures var (ty, o) := MysqlType(t).value;
      "default_size" in ToMap(o) ==>
        (ty == Sym("integer") && Get(o, "default_size") in {Int(10), Int(11)}) ||
        (ty == Sym("bigint") && Get(o, "default_size") == Int(20)) ||
        (ty == Sym("decimal") && Get(o, "default_size") == List([Int(10), Int(0)]))
  {
    var (ty, o) := MysqlType(t).value;
    if DigitsIn(Between(t, "int(", ")")) || DigitsIn(Between(t, "int(", ") unsigned")) {
      assert ty == Sym("integer");
    } else if DigitsIn(Between(t, "bigint(", ")")) {
      assert o == [Entry("default_size", Int(20))];
    } else if DigitPairIn(Between(t, "decimal(", ")")) {
      assert o == [Entry("default_size", List([Int(10), Int(0)]))];
    } else {
      assert Keys(o) == ["elements"];
    }
  }

  /** The size DEFAULT_OPTS give a type whose name is already canonic. */
  lemma SchemaSize(n: string)
    requires n in {"string", "bigint", "decimal"}
    ensures Get(DefaultOptsFor(CanonicType(n)), "size") ==
      if n == "string" then Int(255) else if n == "bigint" then Int(20) else List([Int(10), Int(0)])
  {
    assert Downcase(n) == n;
    assert n !in CanonicTypes;
  }

  // ----- reading common literals -----

  lemma BetweenOf(pre: string, m: string, post: string)
    ensures Between(pre + m + post, pre, post) == Some(m)
  {
    var t := pre + m + post;
    assert t[..|pre|] == pre && t[|t| - |post|..] == post && t[|pre|..|t| - |post|] == m;
  }

  /** A position that holds no parenthesis matches neither size pattern. */
  lemma NoParenAt(t: string, i: nat)
    requires i < |t| && t[i] != '('
    ensures FirstIntSize(t, i) == FirstIntSize(t, i + 1)
    ensures FirstSizeList(t, i) == FirstSizeList(t, i + 1)
  {
  }

  /** Positions before the first parenthesis match neither size pattern. */
  lemma {:induction false} SkipToParen(t: string, i: nat, j: nat)
    requires i <= j <= |t| && '(' !in t[i..j]
    ensures FirstIntSize(t, i) == FirstIntSize(t, j)
    ensures FirstSizeList(t, i) == FirstSizeList(t, j)
    decreases j - i
  {
    if i < j {
      assert t[i] == t[i..j][0];
      NoParenAt(t, i);
      assert t[i + 1..j] == t[i..j][1..];
      SkipToParen(t, i + 1, j);
    }
  }

  /** A literal `name(n)...` whose name holds no parenthesis has size n. */
  lemma SizeOfSized(open: string, d: string, close: string)
    requires |open| > 0 && open[|open| - 1] == '(' && '(' !in open[..|open| - 1]
    requires IsDigits(d) && |close| > 0 && close[0] == ')'
    ensures SizeOf(open + d + close) == Some(Int(DigitsValue(d)))
  {
    var w := open[..|open| - 1];
    assert open + d + close == w + "(" + d + ")" + close[1..];
    SizeAfterName(w, d, close[1..]);
  }

  lemma SizeAfterName(w: string, d: string, rest: string)
    requires '(' !in w && IsDigits(d)
    ensures SizeOf(w + "(" + d + ")" + rest) == Some(Int(DigitsValue(d)))
  {
    var t := w + "(" + d + ")" + rest;
    var p := |w|;
    var e := p + 1 + |d|;
    assert t[0..p] == w;
    SkipToParen(t, 0, p);
    assert t[p] == '(' && t[e] == ')';
    assert forall x :: p + 1 <= x < e ==> t[x] == d[x - p - 1];
    RunEndAt(t, p + 1, p + 1, Space);
    RunEndAt(t, p + 1, e, Digit);
    RunEndAt(t, e, e, Space);
    assert t[p + 1..e] == d;
    assert IntSizeAt(t, p) == Some(d);
  }

  /** A bare word that no earlier pattern claims (`datetime`, `timestamp`, `float` on
   *  most databases) comes back as the literal itself, a string rather than a symbol,
   *  with no options. */
  lemma BareWordLiteral(w: string, rubyType: Value, databaseType: string)
    requires IsWord(w) && rubyType != Sym("boolean") && databaseType != "mysql"
    requires !StartsWith(w, "varchar") && !StartsWith(w, "char") && w != "text"
    ensures RevertTypeLiteral(w, rubyType, databaseType) == (Str(w), [])
  {
    assert SizedWord(w).None?;
    assert RevertTypeLiteralInternal(w, rubyType, databaseType) == (Str(w), []);
    assert forall j :: 0 <= j < |w| ==> InClass(w[j], Word);
    assert '(' !in w[0..|w|];
    SkipToParen(w, 0, |w|);
    assert SizeOf(w) == None;
  }

  /** None of MySQL's own patterns matches a literal that starts with none of their letters. */
  lemma NotMysql(t: string)
    requires |t| > 0 && t[0] !in {'i', 'b', 'd', 'e', 's'}
    ensures MysqlType(t).None?
  {
  }

  // ----- examples -----

  /** The options a literal with a size ends up with, given what the patterns assumed. */
  lemma SizedResult(o: Opts, size: Value, m: map<string, Value>)
    requires UniqueKeys(o) && "size" !in ToMap(o) && "size" !in m && ToMap(o) - {"default_size"} == m
    ensures ToMap(WithSize(o, Some(size))) == if size == Get(o, "default_size") then m else m["size" := size]
  {
    var r := WithSize(o, Some(size));
    var expected := if size == Get(o, "default_size") then m else m["size" := size];
    assert forall k :: k in ToMap(r) <==> k in expected;
  }

  /** A literal's result, from what the patterns gave and the size it carries. */
  lemma Reverted(t: string, rubyType: Value, databaseType: string, ty: Value, o: Opts, size: Value, m: map<string, Value>)
    requires RevertTypeLiteralInternal(t, rubyType, databaseType) == (ty, o)
    requires SizeOf(t) == Some(size)
    requires "size" !in m && ToMap(o) - {"default_size"} == m
    ensures RevertTypeLiteral(t, rubyType, databaseType).0 == ty
    ensures ToMap(RevertTypeLiteral(t, rubyType, databaseType).1) ==
      if size == Get(o, "default_size") then m else m["size" := size]
  {
    SizedResult(o, size, m);
  }

  /** A literal's result when it carries no size. */
  lemma RevertedUnsized(t: string, rubyType: Value, databaseType: string, ty: Value, o: Opts, m: map<string, Value>)
    requires RevertTypeLiteralInternal(t, rubyType, databaseType) == (ty, o)
    requires SizeOf(t) == None
    requires ToMap(o) - {"default_size"} == m
    ensures RevertTypeLiteral(t, rubyType, databaseType).0 == ty
    ensures ToMap(RevertTypeLiteral(t, rubyType, databaseType).1) == m
  {
    var r := WithSize(o, None);
    assert forall k :: k in ToMap(r) <==> k in m;
  }

  /** MySQL's `int(n)`: an integer, sized unless n is MySQL's default 11. */
  lemma MysqlIntLiteral(d: string, rubyType: Value)
    requires IsDigits(d) && rubyType != Sym("boolean")
    ensures var r := RevertTypeLiteral("int(" + d + ")", rubyType, "mysql");
      r.0 == Sym("integer") &&
      ToMap(r.1) == if DigitsValue(d) == 11 then map[] else map["size" := Int(DigitsValue(d))]
  {
    var t := "int(" + d + ")";
    var o := [Entry("default_size", Int(11))];
    assert RevertTypeLiteralInternal(t, rubyType, "mysql") == (Sym("integer"), o) by {
      BetweenOf("int(", d, ")");
    }
    SizeOfSized("int(", d, ")");
    SizedResult(o, Int(DigitsValue(d)), map[]);
  }

  /** MySQL's `int(n) unsigned`: an unsigned integer, sized unless n is MySQL's default 10. */
  lemma MysqlUnsignedLiteral(d: string, rubyType: Value)
    requires IsDigits(d) && rubyType != Sym("boolean")
    ensures var r := RevertTypeLiteral("int(" + d + ") unsigned", rubyType, "mysql");
      r.0 == Sym("integer") &&
      ToMap(r.1) == if DigitsValue(d) == 10 then map["unsigned" := Bool(true)]
        else map["unsigned" := Bool(true), "size" := Int(DigitsValue(d))]
  {
    var t := "int(" + d + ") unsigned";
    var o := [Entry("unsigned", Bool(true)), Entry("default_size", Int(10))];
    UnsignedPatterns(d, rubyType);
    UnsignedShape();
    SizeOfSized("int(", d, ") unsigned");
    FlagAndDefaultSize("unsigned", Bool(true), 10);
    Reverted(t, rubyType, "mysql", Sym("integer"), o, Int(DigitsValue(d)), map["unsigned" := Bool(true)]);
  }

  lemma UnsignedShape()
    ensures |"int("| > 0 && "int("[|"int("| - 1] == '(' && '(' !in "int("[..|"int("| - 1]
    ensures |") unsigned"| > 0 && ") unsigned"[0] == ')'
  {
    assert "int("[..3] == "int";
  }

  /** The options of a pattern that sets one flag and a default size. */
  lemma FlagAndDefaultSize(k: string, v: Value, n: int)
    requires k != "default_size"
    ensures var o := [Entry(k, v), Entry("default_size", Int(n))];
      ToMap(o) - {"default_size"} == map[k := v] && Get(o, "default_size") == Int(n)
  {
    var o := [Entry(k, v), Entry("default_size", Int(n))];
    assert o[1..] == [Entry("default_size", Int(n))] && o[1..][1..] == [];
  }

  lemma UnsignedPatterns(d: string, rubyType: Value)
    requires IsDigits(d) && rubyType != Sym("boolean")
    ensures RevertTypeLiteralInternal("int(" + d + ") unsigned", rubyType, "mysql") ==
      (Sym("integer"), [Entry("unsigned", Bool(true)), Entry("default_size", Int(10))])
  {
    var t := "int(" + d + ") unsigned";
    assert t[|t| - 1] == 'd';
    assert Between(t, "int(", ")").None?;
    BetweenOf("int(", d, ") unsigned");
  }

  /** MySQL's `bigint(n)`: a bigint, sized unless n is MySQL's default 20. */
  lemma MysqlBigintLiteral(d: string, rubyType: Value)
    requires IsDigits(d) && rubyType != Sym("boolean")
    ensures var r := RevertTypeLiteral("bigint(" + d + ")", rubyType, "mysql");
      r.0 == Sym("bigint") &&
      ToMap(r.1) == if DigitsValue(d) == 20 then map[] else map["size" := Int(DigitsValue(d))]
  {
    var t := "bigint(" + d + ")";
    var o := [Entry("default_size", Int(20))];
    assert RevertTypeLiteralInternal(t, rubyType, "mysql") == (Sym("bigint"), o) by {
      assert t[0] == 'b';
      assert Between(t, "int(", ")").None? && Between(t, "int(", ") unsigned").None?;
      BetweenOf("bigint(", d, ")");
    }
    SizeOfSized("bigint(", d, ")");
    SizedResult(o, Int(DigitsValue(d)), map[]);
  }

  /** `varchar(n)` on any database: a string, sized unless n is the default 255. */
  lemma VarcharLiteral(d: string, rubyType: Value, databaseType: string)
    requires IsDigits(d) && rubyType != Sym("boolean")
    ensures var r := RevertTypeLiteral("varchar(" + d + ")", rubyType, databaseType);
      r.0 == Sym("string") &&
      ToMap(r.1) == if DigitsValue(d) == 255 then map[] else map["size" := Int(DigitsValue(d))]
  {
    var t := "varchar(" + d + ")";
    var o := [Entry("default_size", Int(255))];
    assert RevertTypeLiteralInternal(t, rubyType, databaseType) == (Sym("string"), o) by {
      assert t[0] == 'v' && t[..7] == "varchar";
      NotMysql(t);
    }
    SizeOfSized("varchar(", d, ")");
    SizedResult(o, Int(DigitsValue(d)), map[]);
  }

  /** `char(n)` on any database: a fixed-width string, sized unless n is the default 255. */
  lemma CharLiteral(d: string, rubyType: Value, databaseType: string)
    requires IsDigits(d) && rubyType != Sym("boolean")
    ensures var r := RevertTypeLiteral("char(" + d + ")", rubyType, databaseType);
      r.0 == Sym("string") &&
      ToMap(r.1) == if DigitsValue(d) == 255 then map["fixed" := Bool(true)]
        else map["fixed" := Bool(true), "size" := Int(DigitsValue(d))]
  {
    var t := "char(" + d + ")";
    var o := [Entry("fixed", Bool(true)), Entry("default_size", Int(255))];
    CharPatterns(d, rubyType, databaseType);
    FlagAndDefaultSize("fixed", Bool(true), 255);
    SizeOfSized("char(", d, ")");
    Reverted(t, rubyType, databaseType, Sym("string"), o, Int(DigitsValue(d)), map["fixed" := Bool(true)]);
  }

  lemma CharPatterns(d: string, rubyType: Value, databaseType: string)
    requires rubyType != Sym("boolean")
    ensures RevertTypeLiteralInternal("char(" + d + ")", rubyType, databaseType) ==
      (Sym("string"), [Entry("fixed", Bool(true)), Entry("default_size", Int(255))])
  {
    var t := "char(" + d + ")";
    assert t[0] == 'c' && t[..4] == "char";
    assert !StartsWith(t, "varchar") by {
      if |t| >= 7 { assert t[..7][0] == 'c'; }
    }
    NotMysql(t);
  }

  /** A `tinyint(n)` Sequel calls boolean: a boolean, sized unless n is 1. */
  lemma BooleanLiteral(d: string, databaseType: string)
    requires IsDigits(d)
    ensures var r := RevertTypeLiteral("tinyint(" + d + ")", Sym("boolean"), databaseType);
      r.0 == Sym("boolean") &&
      ToMap(r.1) == if DigitsValue(d) == 1 then map[] else map["size" := Int(DigitsValue(d))]
  {
    SizeOfSized("tinyint(", d, ")");
    SizedResult([Entry("default_size", Int(1))], Int(DigitsValue(d)), map[]);
  }

  // ----- enum and set literals -----

  /** The values as Ruby strings. */
  function StrList(es: seq<string>): (v: Value)
    ensures v.List? && |v.items| == |es|
  {
    List(seq(|es|, i requires 0 <= i < |es| => Str(es[i])))
  }

  /** Quoting writes no newline and no parenthesis of its own. */
  lemma {:induction false} EscapeChars(e: string)
    ensures '\n' !in Escape(e)
    ensures '(' in Escape(e) ==> '(' in e
  {
    if e != [] {
      EscapeChars(e[1..]);
      assert e == [e[0]] + e[1..];
      EscapeCons(e[0], e[1..]);
    }
  }

  lemma {:induction false} QuotedChars(es: seq<string>)
    ensures '\n' !in Quoted(es)
    ensures (forall i :: 0 <= i < |es| ==> '(' !in es[i]) ==> '(' !in Quoted(es)
    ensures es != [] ==> Quoted(es)[0] == '\''
  {
    if es != [] {
      EscapeChars(es[0]);
      QuotedChars(es[1..]);
      if |es| > 1 {
        assert Quoted(es) == "'" + Escape(es[0]) + "'," + Quoted(es[1..]);
      }
    }
  }

  /** A position where neither size pattern matches passes the search on. */
  lemma NoMatchAt(t: string, i: nat)
    requires i < |t| && IntSizeAt(t, i).None? && SizeListAt(t, i).None?
    ensures FirstIntSize(t, i) == FirstIntSize(t, i + 1)
    ensures FirstSizeList(t, i) == FirstSizeList(t, i + 1)
  {
  }

  /** `enum(...)` or `set(...)` over quoted values without parentheses carries no size. */
  lemma NoSizeInList(open: string, q: string)
    requires |open| > 0 && open[|open| - 1] == '(' && '(' !in open[..|open| - 1]
    requires '(' !in q && (q == [] || q[0] == '\'')
    ensures SizeOf(open + q + ")") == None
  {
    var t := open + q + ")";
    var p := |open| - 1;
    assert t[0..p] == open[..p];
    SkipToParen(t, 0, p);
    assert t[p + 1] == if q == [] then ')' else '\'';
    RunEndAt(t, p + 1, p + 1, Space);
    RunEndAt(t, p + 1, p + 1, Digit);
    RunEndAt(t, p + 1, p + 1, SizeChar);
    NoMatchAt(t, p);
    assert t[p + 1..|t|] == q + ")";
    SkipToParen(t, p + 1, |t|);
  }

  /** A literal starting with `e` or `s` matches none of the numeric patterns. */
  lemma NotNumeric(t: string)
    requires |t| > 0 && t[0] in {'e', 's'}
    ensures Between(t, "int(", ")").None? && Between(t, "int(", ") unsigned").None?
    ensures Between(t, "bigint(", ")").None? && Between(t, "decimal(", ")").None?
  {
  }

  lemma EnumPatterns(kind: string, q: string, rubyType: Value)
    requires kind in {"enum", "set"} && '\n' !in q && rubyType != Sym("boolean")
    ensures RevertTypeLiteralInternal(kind + "(" + q + ")", rubyType, "mysql") ==
      (Sym(kind), [Entry("elements", Elements(q))])
  {
    var t := kind + "(" + q + ")";
    assert t[0] == kind[0];
    NotNumeric(t);
    BetweenOf(kind + "(", q, ")");
    if kind == "set" {
      assert Between(t, "enum(", ")").None? by {
        assert t[0] != "enum("[0];
      }
    }
  }

  lemma OneEntry(k: string, v: Value)
    requires k != "default_size"
    ensures ToMap([Entry(k, v)]) - {"default_size"} == map[k := v]
  {
    assert ToMap([Entry(k, v)]) == map[][k := v];
  }

  lemma EnumReverted(kind: string, q: string, v: Value, rubyType: Value)
    requires kind in {"enum", "set"} && rubyType != Sym("boolean")
    requires '\n' !in q && '(' !in q && (q == [] || q[0] == '\'') && Elements(q) == v
    ensures var r := RevertTypeLiteral(kind + "(" + q + ")", rubyType, "mysql");
      r.0 == Sym(kind) && ToMap(r.1) == map["elements" := v]
  {
    EnumPatterns(kind, q, rubyType);
    NoSizeInList(kind + "(", q);
    OneEntry("elements", v);
    RevertedUnsized(kind + "(" + q + ")", rubyType, "mysql", Sym(kind), [Entry("elements", v)], map["elements" := v]);
  }

  /** MySQL's `enum(...)` and `set(...)` give back the values the database quoted, with
   *  no size, when no value holds a parenthesis. */
  lemma EnumLiteral(kind: string, es: seq<string>, rubyType: Value)
    requires kind in {"enum", "set"} && rubyType != Sym("boolean")
    requires forall i :: 0 <= i < |es| ==> '(' !in es[i]
    ensures var r := RevertTypeLiteral(kind + "(" + Quoted(es) + ")", rubyType, "mysql");
      r.0 == Sym(kind) && ToMap(r.1) == map["elements" := StrList(es)]
  {
    QuotedChars(es);
    ParseQuoted(es);
    EnumReverted(kind, Quoted(es), StrList(es), rubyType);
  }
}
