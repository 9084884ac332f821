/** Option values and option bags.
 *
 *  Columns, indexes and foreign keys carry their options in Ruby hashes keyed
 *  by symbols.  A hash keeps its keys in insertion order, assigning to an
 *  existing key overwrites the value where it stands, and two hashes are equal
 *  when they hold the same keys with the same values, whatever the order.
 *  `Opts` models such a hash as a sequence of entries with distinct keys, and
 *  `ToMap` gives its order-free meaning.
 */
module Options {

  /** The option values that occur in schemas; `Lit` is a `Sequel.lit` literal. */
  datatype Value =
    | Sym(name: string)
    | Str(text: string)
    | Int(i: int)
    | Bool(b: bool)
    | Nil
    | List(items: seq<Value>)
    | Lit(code: string)

  /** Ruby truthiness: only `nil` and `false` are false. */
  predicate Truthy(v: Value) {
    !(v.Nil? || v == Bool(false))
  }

  /** Ruby's `[ *v ]`: a list stays itself, nil becomes empty, anything else is wrapped. */
  function Splat(v: Value): (r: seq<Value>)
    ensures v.List? ==> r == v.items
    ensures v.Nil? ==> r == []
    ensures !v.List? && !v.Nil? ==> r == [v]
  {
    match v
    case List(xs) => xs
    case Nil => []
    case _ => [v]
  }

  datatype Entry = Entry(key: string, value: Value)

  /** No key occurs twice. */
  ghost predicate UniqueKeys(o: seq<Entry>) {
    o == [] || (o[0].key !in Keys(o[1..]) && UniqueKeys(o[1..]))
  }

  /** A Ruby hash of options: entries in insertion order.  Every hash the
   *  source builds has distinct keys (`UniqueKeys`), and every operation below
   *  keeps them distinct. */
  type Opts = seq<Entry>

  /** The keys of a hash, in insertion order (Ruby's `keys`). */
  function Keys(o: seq<Entry>): (ks: seq<string>)
    ensures |ks| == |o|
  {
    if o == [] then [] else [o[0].key] + Keys(o[1..])
  }

  /** The order-free meaning of a hash; for repeated keys the first entry is the one seen. */
  function ToMap(o: seq<Entry>): (m: map<string, Value>)
    ensures forall k :: k in m <==> k in Keys(o)
  {
    if o == [] then map[] else ToMap(o[1..])[o[0].key := o[0].value]
  }

  /** Hash equality as Ruby's `==` sees it: same keys, same values, any order. */
  predicate OptsEq(a: Opts, b: Opts) {
    ToMap(a) == ToMap(b)
  }

  /** Ruby's `opts[ key ]`: the value stored under `key`, or nil when there is none. */
  function Get(o: seq<Entry>, k: string): (v: Value)
    ensures k in ToMap(o) ==> v == ToMap(o)[k]
    ensures k !in ToMap(o) ==> v == Nil
  {
    if o == [] then Nil else if o[0].key == k then o[0].value else Get(o[1..], k)
  }

  /** Ruby's `opts[ key ] = value`: overwrites in place or appends a new last entry. */
  function Put(o: Opts, k: string, v: Value): (r: Opts)
    ensures ToMap(r) == ToMap(o)[k := v]
    ensures k in Keys(o) ==> Keys(r) == Keys(o)
    ensures k !in Keys(o) ==> r == o + [Entry(k, v)]
    ensures UniqueKeys(o) ==> UniqueKeys(r)
  {
    if o == [] then [Entry(k, v)]
    else if o[0].key == k then [Entry(k, v)] + o[1..]
    else
      var rest := Put(o[1..], k, v);
      PutBehindHead(o, k, v, rest);
      [o[0]] + rest
  }

  /** The step of `Put` past a head entry with another key. */
  lemma PutBehindHead(o: Opts, k: string, v: Value, rest: Opts)
    requires o != [] && o[0].key != k
    requires ToMap(rest) == ToMap(o[1..])[k := v]
    requires k in Keys(o[1..]) ==> Keys(rest) == Keys(o[1..])
    requires k !in Keys(o[1..]) ==> rest == o[1..] + [Entry(k, v)]
    requires UniqueKeys(o[1..]) ==> UniqueKeys(rest)
    ensures ToMap([o[0]] + rest) == ToMap(o)[k := v]
    ensures k in Keys(o) ==> Keys([o[0]] + rest) == Keys(o)
    ensures k !in Keys(o) ==> [o[0]] + rest == o + [Entry(k, v)]
    ensures UniqueKeys(o) ==> UniqueKeys([o[0]] + rest)
  {
    var e := o[0];
    assert o == [e] + o[1..];
    ConsMeaning(e, rest);
    ConsMeaning(e, o[1..]);
    UpdatesCommute(ToMap(o[1..]), e.key, e.value, k, v);
    if k !in Keys(o[1..]) {
      KeysAppend(o[1..], Entry(k, v));
      assert [e] + rest == [e] + o[1..] + [Entry(k, v)];
    }
  }

  /** The keys of `p` that are not among `ks`, each once, in `p`'s order. */
  function NewKeys(ks: seq<string>, p: Opts): seq<string>
    decreases |p|
  {
    if p == [] then []
    else if p[0].key in ks then NewKeys(ks, p[1..])
    else [p[0].key] + NewKeys(ks + [p[0].key], p[1..])
  }

  /** The appended keys are exactly the keys of `p` missing from `ks`, each once. */
  lemma {:induction false} NewKeysAre(ks: seq<string>, p: Opts)
    ensures forall k :: k in NewKeys(ks, p) <==> k in Keys(p) && k !in ks
    ensures forall i, j :: 0 <= i < j < |NewKeys(ks, p)| ==> NewKeys(ks, p)[i] != NewKeys(ks, p)[j]
    decreases |p|
  {
    if p != [] {
      var k := p[0].key;
      assert Keys(p) == [k] + Keys(p[1..]);
      if k in ks {
        NewKeysAre(ks, p[1..]);
      } else {
        NewKeysAre(ks + [k], p[1..]);
        var rest := NewKeys(ks + [k], p[1..]);
        assert k in ks + [k] && k !in rest;
        assert NewKeys(ks, p) == [k] + rest;
        forall i, j | 0 <= i < j < |[k] + rest|
          ensures ([k] + rest)[i] != ([k] + rest)[j]
        {
          if i == 0 { assert ([k] + rest)[j] == rest[j - 1]; }
        }
      }
    }
  }

  /** Ruby's `opts.merge!( other )`: puts every entry of `other`, in its order, so the
   *  receiver's keys keep their places and the new keys follow in `other`'s order. */
  function Merge(o: Opts, p: Opts): (r: Opts)
    ensures UniqueKeys(p) ==> ToMap(r) == ToMap(o) + ToMap(p)
    ensures UniqueKeys(o) ==> UniqueKeys(r)
    ensures |r| >= |o| && Keys(r)[..|o|] == Keys(o)
    decreases |p|
  {
    if p == [] then o
    else
      var o' := Put(o, p[0].key, p[0].value);
      var p' := p[1..];
      var r := Merge(o', p');
      UpdateThenUnion(ToMap(o), ToMap(p'), p[0].key, p[0].value);
      PutKeysPrefix(o, p[0].key, p[0].value);
      assert Keys(r)[..|o|] == Keys(r)[..|o'|][..|o|];
      r
  }

  /** The key order `merge!` leaves: the receiver's keys keep their places and the keys
   *  new to it follow, in the merged-in hash's order. */
  lemma {:induction false} MergeKeyOrder(o: Opts, p: Opts)
    ensures Keys(Merge(o, p)) == Keys(o) + NewKeys(Keys(o), p)
    decreases |p|
  {
    if p != [] {
      var k, v := p[0].key, p[0].value;
      var o' := Put(o, k, v);
      assert Merge(o, p) == Merge(o', p[1..]);
      MergeKeyOrder(o', p[1..]);
      if k !in Keys(o) {
        KeysAppend(o, Entry(k, v));
        NewKeyStep(Keys(o), p, Keys(o'), Keys(Merge(o, p)));
      }
    }
  }

  /** The step of `MergeKeyOrder` past a key new to the receiver. */
  lemma NewKeyStep(ks: seq<string>, p: Opts, ko: seq<string>, kr: seq<string>)
    requires p != [] && p[0].key !in ks
    requires ko == ks + [p[0].key]
    requires kr == ko + NewKeys(ko, p[1..])
    ensures kr == ks + NewKeys(ks, p)
  {
    assert NewKeys(ks, p) == [p[0].key] + NewKeys(ko, p[1..]);
  }

  /** Merging in a non-empty hash leaves a non-empty hash in which its options win. */
  lemma MergedOptionsWin(o: Opts, p: Opts)
    requires UniqueKeys(p) && p != []
    ensures Merge(o, p) != []
    ensures forall k :: k in ToMap(p) ==> Get(Merge(o, p), k) == Get(p, k)
  {
    KeysAt(p, 0);
    assert p[0].key in ToMap(Merge(o, p));
  }

  /** Ruby's `opts.reject{ |k, v| ks.include? k }` (and `delete_if` on a fresh copy). */
  function Reject(o: Opts, ks: set<string>): (r: Opts)
    ensures ToMap(r) == ToMap(o) - ks
    ensures forall e :: e in r <==> e in o && e.key !in ks
    ensures UniqueKeys(o) ==> UniqueKeys(r)
  {
    if o == [] then []
    else
      var rest := Reject(o[1..], ks);
      if o[0].key in ks then
        UpdateThenRemove(ToMap(o[1..]), ks, o[0].key, o[0].value);
        rest
      else
        RemoveThenUpdate(ToMap(o[1..]), ks, o[0].key, o[0].value);
        assert ([o[0]] + rest)[1..] == rest;
        SubsetKeys(rest, o[1..], o[0].key);
        [o[0]] + rest
  }

  /** Ruby's `opts.delete( key )`: the removed value (nil if none) and what is left. */
  function Delete(o: Opts, k: string): (r: (Value, Opts))
    ensures r.0 == Get(o, k)
    ensures ToMap(r.1) == ToMap(o) - {k}
    ensures UniqueKeys(o) ==> UniqueKeys(r.1)
  {
    (Get(o, k), Reject(o, {k}))
  }

  // ----- helper lemmas about maps and keys -----

  lemma ConsMeaning(e: Entry, rest: seq<Entry>)
    ensures ([e] + rest)[1..] == rest
    ensures Keys([e] + rest) == [e.key] + Keys(rest)
    ensures ToMap([e] + rest) == ToMap(rest)[e.key := e.value]
  {
    assert ([e] + rest)[1..] == rest;
  }

  lemma UpdatesCommute(m: map<string, Value>, a: string, x: Value, b: string, y: Value)
    requires a != b
    ensures m[b := y][a := x] == m[a := x][b := y]
  {
  }

  lemma UpdateThenUnion(m: map<string, Value>, n: map<string, Value>, k: string, v: Value)
    ensures k !in n ==> m[k := v] + n == m + n[k := v]
  {
  }

  lemma UpdateThenRemove(m: map<string, Value>, ks: set<string>, k: string, v: Value)
    requires k in ks
    ensures m[k := v] - ks == m - ks
  {
  }

  lemma RemoveThenUpdate(m: map<string, Value>, ks: set<string>, k: string, v: Value)
    requires k !in ks
    ensures (m - ks)[k := v] == m[k := v] - ks
  {
  }

  lemma KeysAt(o: seq<Entry>, i: nat)
    requires i < |o|
    ensures Keys(o)[i] == o[i].key
    decreases i
  {
    if i > 0 { KeysAt(o[1..], i - 1); }
  }

  lemma KeysAppend(o: seq<Entry>, e: Entry)
    ensures Keys(o + [e]) == Keys(o) + [e.key]
  {
    if o != [] {
      assert (o + [e])[1..] == o[1..] + [e];
      KeysAppend(o[1..], e);
    }
  }

  lemma InKeys(o: seq<Entry>, k: string)
    ensures k in Keys(o) <==> exists e :: e in o && e.key == k
  {
    if o != [] {
      InKeys(o[1..], k);
      assert o == [o[0]] + o[1..];
    }
  }

  /** A key absent from `o` is absent from any hash whose entries all come from `o`. */
  lemma SubsetKeys(r: seq<Entry>, o: seq<Entry>, k: string)
    requires forall e :: e in r ==> e in o
    ensures k !in Keys(o) ==> k !in Keys(r)
  {
    InKeys(r, k);
    InKeys(o, k);
  }

  lemma PutKeysPrefix(o: Opts, k: string, v: Value)
    ensures |Put(o, k, v)| >= |o| && Keys(Put(o, k, v))[..|o|] == Keys(o)
  {
    if k !in Keys(o) { KeysAppend(o, Entry(k, v)); }
  }

  // ----- deleting several keys in turn -----

  /** Rejecting some keys, then others, rejects them all at once. */
  lemma {:induction false} RejectTwice(o: Opts, a: set<string>, b: set<string>)
    ensures Reject(Reject(o, a), b) == Reject(o, a + b)
  {
    if o != [] {
      RejectTwice(o[1..], a, b);
      if o[0].key !in a {
        assert Reject(o, a)[1..] == Reject(o[1..], a);
      }
    }
  }

  /** Setting one key and rejecting others commute. */
  lemma {:induction false} RejectPut(o: Opts, k: string, v: Value, ks: set<string>)
    requires k !in ks
    ensures Reject(Put(o, k, v), ks) == Put(Reject(o, ks), k, v)
  {
    if o != [] && o[0].key != k {
      RejectPut(o[1..], k, v, ks);
      assert Put(o, k, v)[1..] == Put(o[1..], k, v);
      if o[0].key !in ks {
        assert Reject(o, ks)[1..] == Reject(o[1..], ks);
      }
    }
  }

  /** `delete( a )` then `delete( b )`: the value of `b` and the hash without both. */
  lemma DeleteTwice(o: Opts, a: string, b: string)
    requires a != b
    ensures Delete(Delete(o, a).1, b) == (Get(o, b), Reject(o, {a, b}))
  {
    RejectTwice(o, {a}, {b});
    Union2(a, b);
  }

  /** Three `delete`s in turn: the values of the later two and the hash without all three. */
  lemma DeleteThrice(o: Opts, a: string, b: string, c: string)
    requires a != b && a != c && b != c
    ensures Delete(Delete(o, a).1, b).0 == Get(o, b)
    ensures Delete(Delete(Delete(o, a).1, b).1, c) == (Get(o, c), Reject(o, {a, b, c}))
  {
    DeleteTwice(o, a, b);
    RejectTwice(o, {a, b}, {c});
    Union3(a, b, c);
  }

  lemma {:induction false} GetReject(o: Opts, ks: set<string>, k: string)
    requires k !in ks
    ensures Get(Reject(o, ks), k) == Get(o, k)
  {
    if o != [] {
      GetReject(o[1..], ks, k);
      if o[0].key !in ks {
        assert Reject(o, ks)[1..] == Reject(o[1..], ks);
      }
    }
  }

  lemma {:induction false} GetPut(o: Opts, k: string, v: Value, j: string)
    requires j != k
    ensures Get(Put(o, k, v), j) == Get(o, j)
  {
    if o != [] && o[0].key != k {
      GetPut(o[1..], k, v, j);
      assert Put(o, k, v)[1..] == Put(o[1..], k, v);
    }
  }

  lemma Union2(a: string, b: string)
    ensures {a} + {b} == {a, b}
  {
  }

  lemma Union3(a: string, b: string, c: string)
    ensures {a, b} + {c} == {a, b, c} && {a} + {b, c} == {a, b, c}
  {
  }

}
