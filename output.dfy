/** Rendering of names, types and options as Ruby literals (schema.rb, module Output).
 *
 *  Ruby's `inspect` is simplified to a total rendering: symbols as `:name`,
 *  strings in double quotes without escaping, integers in decimal, and
 *  `Sequel.lit` literals as `Sequel.lit("...")`.
 */
module Output {
  import opened Options

  function DigitChar(d: nat): (c: char)
    requires d < 10
  {
    "0123456789"[d]
  }

  /** Decimal digits of a natural number, most significant first. */
  function NatToString(n: nat): (s: string)
    ensures |s| > 0
    ensures forall i :: 0 <= i < |s| ==> '0' <= s[i] <= '9'
    decreases n
  {
    if n < 10 then [DigitChar(n)] else NatToString(n / 10) + [DigitChar(n % 10)]
  }

  /** Ruby's `Integer#inspect`. */
  function IntToString(i: int): string {
    if i < 0 then "-" + NatToString(-i) else NatToString(i)
  }

  /** Reads back the number a run of decimal digits denotes. */
  function DigitsValue(s: string): nat
    requires forall i :: 0 <= i < |s| ==> '0' <= s[i] <= '9'
  {
    if s == [] then 0 else DigitsValue(s[..|s| - 1]) * 10 + (s[|s| - 1] as int - '0' as int)
  }

  /** Rendering a number and reading it back gives the number. */
  lemma {:induction false} NatToStringRoundTrip(n: nat)
    ensures DigitsValue(NatToString(n)) == n
    decreases n
  {
    var s := NatToString(n);
    if n >= 10 {
      NatToStringRoundTrip(n / 10);
      assert s[..|s| - 1] == NatToString(n / 10);
    }
  }

  /** Ruby's `out_value`: a value rendered as a Ruby literal. */
  function OutValue(v: Value): string
    decreases v, 1
  {
    match v
    case Sym(s) => ":" + s
    case Str(s) => "\"" + s + "\""
    case Int(i) => IntToString(i)
    case Bool(b) => if b then "true" else "false"
    case Nil => "nil"
    case List(xs) => "[" + OutItems(xs) + "]"
    case Lit(s) => "Sequel.lit(\"" + s + "\")"
  }

  /** The values of a list, rendered and joined with ", ". */
  function OutItems(xs: seq<Value>): string
    decreases xs, 0
  {
    if xs == [] then ""
    else if |xs| == 1 then OutValue(xs[0])
    else OutValue(xs[0]) + ", " + OutItems(xs[1..])
  }

  /** One hash entry as `:key => value`. */
  function OutEntry(e: Entry): string {
    OutValue(Sym(e.key)) + " => " + OutValue(e.value)
  }

  /** The entries of a hash, in insertion order, joined with ", ". */
  function OutEntries(o: Opts): string {
    if o == [] then ""
    else if |o| == 1 then OutEntry(o[0])
    else OutEntry(o[0]) + ", " + OutEntries(o[1..])
  }

  /** Ruby's `out_hash( value, prefix )`: nothing for an empty hash, else the prefix and the entries. */
  function OutHash(o: Opts, prefix: string): (s: string)
    ensures o == [] <==> s == []
    ensures o != [] ==> s == prefix + OutEntries(o)
  {
    if o == [] then "" else
      assert |OutEntry(o[0])| > 0;
      assert |OutEntries(o)| > 0;
      prefix + OutEntries(o)
  }

  /** Ruby's `to_s`, as string interpolation uses it: symbols, strings and literals give their
   *  text, nil the empty string, and integers, booleans and arrays read as they inspect. */
  function ToS(v: Value): string {
    match v
    case Sym(s) => s
    case Str(s) => s
    case Lit(s) => s
    case Nil => ""
    case _ => OutValue(v)
  }

  /** Ruby's `out_type`: the `to_s` of a type bare when it is capitalised (`String`),
   *  otherwise its `inspect` (`:integer`, or `"datetime"` for a type given as a string). */
  function OutType(t: Value): (r: string)
    ensures |ToS(t)| > 0 && 'A' <= ToS(t)[0] <= 'Z' ==> r == ToS(t)
    ensures !(|ToS(t)| > 0 && 'A' <= ToS(t)[0] <= 'Z') ==> r == OutValue(t)
  {
    var s := ToS(t);
    if |s| > 0 && 'A' <= s[0] <= 'Z' then s else OutValue(t)
  }

  /** A type written as a symbol dumps as `:name`, the same name given as a string dumps
   *  quoted, and a capitalised name of either kind dumps bare. */
  lemma OutTypeKinds(s: string)
    ensures |s| > 0 && 'A' <= s[0] <= 'Z' ==> OutType(Sym(s)) == s == OutType(Str(s))
    ensures !(|s| > 0 && 'A' <= s[0] <= 'Z') ==>
      OutType(Sym(s)) == ":" + s && OutType(Str(s)) == "\"" + s + "\"" && OutType(Sym(s)) != OutType(Str(s))
  {
    if !(|s| > 0 && 'A' <= s[0] <= 'Z') {
      assert OutType(Sym(s))[0] == ':' != '"' == OutType(Str(s))[0];
    }
  }

  /** Entries render in insertion order: appending an entry appends its rendering. */
  lemma {:induction false} OutEntriesAppend(o: Opts, e: Entry)
    requires o != []
    ensures OutEntries(o + [e]) == OutEntries(o) + ", " + OutEntry(e)
  {
    if |o| > 1 {
      assert (o + [e])[1..] == o[1..] + [e];
      OutEntriesAppend(o[1..], e);
    }
  }

  /** Setting a new option renders it last, after all options already present:
   *  options are shown in insertion order, not sorted. */
  lemma PutNewKeyRendersLast(o: Opts, k: string, v: Value, prefix: string)
    requires o != [] && k !in Keys(o)
    ensures OutHash(Put(o, k, v), prefix) == OutHash(o, prefix) + ", " + OutEntry(Entry(k, v))
  {
    var e := Entry(k, v);
    OutEntriesAppend(o, e);
    JoinedAfterPrefix(prefix, OutEntries(o), ", ", OutEntry(e));
  }

  lemma JoinedAfterPrefix(p: string, a: string, sep: string, b: string)
    ensures p + (a + sep + b) == p + a + sep + b
  {
  }

  /** Two hashes that are equal as options can still render differently. */
  lemma OrderShowsInOutput()
    ensures var a := [Entry("null", Bool(false)), Entry("size", Int(10))];
            var b := [Entry("size", Int(10)), Entry("null", Bool(false))];
            OptsEq(a, b) && OutHash(a, ", ") != OutHash(b, ", ")
  {
    var a := [Entry("null", Bool(false)), Entry("size", Int(10))];
    var b := [Entry("size", Int(10)), Entry("null", Bool(false))];
    assert OutHash(a, ", ")[2] == ':' && OutHash(a, ", ")[3] == 'n';
    assert OutHash(b, ", ")[3] == 's';
  }
}
