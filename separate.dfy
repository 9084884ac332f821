/** The three-way split of the migrator (migrator.rb, `separate`).
 *
 *  `separate( before, after )` compares two lists with the elements' own `==`
 *  (not `eql?`) and returns the `before` elements that have no equal among the
 *  kept ones, the `after` elements that have an equal in `before`, and the
 *  remaining `after` elements, each in its list's order.
 */
module Separation {

  /** Ruby's `select` (and `reject` with the negated block): the elements that pass, in order. */
  function Filter<T(==, !new)>(xs: seq<T>, p: T -> bool): (r: seq<T>)
    ensures |r| <= |xs|
    ensures forall x :: x in r <==> x in xs && p(x)
    decreases |xs|
  {
    if xs == [] then []
    else if p(xs[0]) then [xs[0]] + Filter(xs[1..], p)
    else Filter(xs[1..], p)
  }

  /** `ys.find{ |y| x == y }` found something. */
  predicate HasEqual<T>(ys: seq<T>, x: T, eq: (T, T) -> bool) {
    exists j :: 0 <= j < |ys| && eq(x, ys[j])
  }

  /** The split `( old, same, new )`. */
  function Separate<T(==, !new)>(before: seq<T>, after: seq<T>, eq: (T, T) -> bool): (seq<T>, seq<T>, seq<T>) {
    var same := Filter(after, x => HasEqual(before, x, eq));
    (Filter(before, x => !HasEqual(same, x, eq)), same, Filter(after, x => !HasEqual(same, x, eq)))
  }

  /** The laws the `==` of columns, indexes, keys and names obey. */
  ghost predicate Equivalence<T(!new)>(eq: (T, T) -> bool) {
    (forall x :: eq(x, x)) &&
    (forall x, y :: eq(x, y) ==> eq(y, x)) &&
    (forall x, y, z :: eq(x, y) && eq(y, z) ==> eq(x, z))
  }

  // ----- filtering -----

  /** Elements that pass the same tests are filtered alike. */
  lemma {:induction false} FilterSame<T(!new)>(xs: seq<T>, p: T -> bool, q: T -> bool)
    requires forall i :: 0 <= i < |xs| ==> p(xs[i]) == q(xs[i])
    ensures Filter(xs, p) == Filter(xs, q)
    decreases |xs|
  {
    if xs != [] {
      FilterSame(xs[1..], p, q);
    }
  }

  /** Everything passes. */
  lemma {:induction false} FilterAll<T(!new)>(xs: seq<T>, p: T -> bool)
    requires forall i :: 0 <= i < |xs| ==> p(xs[i])
    ensures Filter(xs, p) == xs
    decreases |xs|
  {
    if xs != [] {
      FilterAll(xs[1..], p);
      assert [xs[0]] + xs[1..] == xs;
    }
  }

  /** Nothing passes. */
  lemma {:induction false} FilterNone<T(!new)>(xs: seq<T>, p: T -> bool)
    requires forall i :: 0 <= i < |xs| ==> !p(xs[i])
    ensures Filter(xs, p) == []
    decreases |xs|
  {
    if xs != [] {
      FilterNone(xs[1..], p);
    }
  }

  /** A filter and the filter by the opposite test together hold every element once. */
  lemma {:induction false} FilterSplits<T(!new)>(xs: seq<T>, p: T -> bool, q: T -> bool)
    requires forall i :: 0 <= i < |xs| ==> q(xs[i]) == !p(xs[i])
    ensures multiset(Filter(xs, p)) + multiset(Filter(xs, q)) == multiset(xs)
    decreases |xs|
  {
    if xs != [] {
      FilterSplits(xs[1..], p, q);
      assert xs == [xs[0]] + xs[1..];
    }
  }

  /** An element of a filtered list has an equal there exactly when some element of the
   *  original list passes the filter and equals it. */
  lemma {:induction false} HasEqualFiltered<T(!new)>(xs: seq<T>, p: T -> bool, x: T, eq: (T, T) -> bool)
    ensures HasEqual(Filter(xs, p), x, eq) <==> exists i :: 0 <= i < |xs| && p(xs[i]) && eq(x, xs[i])
    decreases |xs|
  {
    if xs != [] {
      HasEqualFiltered(xs[1..], p, x, eq);
      var r := Filter(xs, p);
      var rest := Filter(xs[1..], p);
      if p(xs[0]) {
        assert r == [xs[0]] + rest;
        if HasEqual(rest, x, eq) {
          var j :| 0 <= j < |rest| && eq(x, rest[j]);
          assert r[j + 1] == rest[j];
        }
        if HasEqual(r, x, eq) && !eq(x, xs[0]) {
          var j :| 0 <= j < |r| && eq(x, r[j]);
          assert rest[j - 1] == r[j];
        }
      }
      if exists i :: 0 <= i < |xs| && p(xs[i]) && eq(x, xs[i]) {
        var i :| 0 <= i < |xs| && p(xs[i]) && eq(x, xs[i]);
        if i > 0 {
          assert xs[1..][i - 1] == xs[i];
        } else {
          assert r[0] == xs[0];
        }
      }
      if exists i :: 0 <= i < |xs[1..]| && p(xs[1..][i]) && eq(x, xs[1..][i]) {
        var i :| 0 <= i < |xs[1..]| && p(xs[1..][i]) && eq(x, xs[1..][i]);
        assert xs[i + 1] == xs[1..][i];
      }
    }
  }

  // ----- what the three parts hold -----

  /** `same` holds, in order, exactly the `after` elements that have an equal in `before`. */
  lemma SeparateSame<T(!new)>(before: seq<T>, after: seq<T>, eq: (T, T) -> bool)
    ensures var (_, same, _) := Separate(before, after, eq);
      forall x :: x in same <==> x in after && HasEqual(before, x, eq)
  {
  }

  /** Under an equivalence, `new` holds exactly the `after` elements with no equal in
   *  `before`, and `same` and `new` together are `after`. */
  lemma SeparateNew<T(!new)>(before: seq<T>, after: seq<T>, eq: (T, T) -> bool)
    requires Equivalence(eq)
    ensures var (_, same, added) := Separate(before, after, eq);
      (forall x :: x in added <==> x in after && !HasEqual(before, x, eq)) &&
      multiset(same) + multiset(added) == multiset(after)
  {
    var p := x => HasEqual(before, x, eq);
    var same := Filter(after, p);
    var q := x => !HasEqual(same, x, eq);
    forall i | 0 <= i < |after|
      ensures q(after[i]) == !p(after[i])
    {
      var x := after[i];
      HasEqualFiltered(after, p, x, eq);
      if HasEqual(same, x, eq) {
        var k :| 0 <= k < |after| && p(after[k]) && eq(x, after[k]);
        var j :| 0 <= j < |before| && eq(after[k], before[j]);
        assert eq(x, before[j]);
      }
      if p(x) {
        assert eq(x, after[i]);
      }
    }
    FilterSplits(after, p, q);
    var r := x => !p(x);
    FilterSame(after, q, r);
  }

  /** Under an equivalence, `old` holds exactly the `before` elements with no equal in `after`. */
  lemma SeparateOld<T(!new)>(before: seq<T>, after: seq<T>, eq: (T, T) -> bool)
    requires Equivalence(eq)
    ensures var (removed, _, _) := Separate(before, after, eq);
      forall x :: x in removed <==> x in before && !HasEqual(after, x, eq)
  {
    var p := x => HasEqual(before, x, eq);
    var same := Filter(after, p);
    forall x | x in before
      ensures HasEqual(same, x, eq) <==> HasEqual(after, x, eq)
    {
      HasEqualFiltered(after, p, x, eq);
      if HasEqual(after, x, eq) {
        var k :| 0 <= k < |after| && eq(x, after[k]);
        var j :| 0 <= j < |before| && before[j] == x;
        assert eq(after[k], before[j]);
      }
    }
  }

  /** Separating a list from itself keeps everything as the same. */
  lemma SeparateSelf<T(!new)>(xs: seq<T>, eq: (T, T) -> bool)
    requires forall x :: eq(x, x)
    ensures Separate(xs, xs, eq) == ([], xs, [])
  {
    var p := x => HasEqual(xs, x, eq);
    forall i | 0 <= i < |xs| ensures p(xs[i]) {
      assert eq(xs[i], xs[i]);
    }
    FilterAll(xs, p);
    var q := x => !HasEqual(xs, x, eq);
    forall i | 0 <= i < |xs| ensures !q(xs[i]) {
      assert eq(xs[i], xs[i]);
    }
    FilterNone(xs, q);
  }

  // ----- splitting two aligned lists -----

  /** The element keys of a list, in order. */
  function KeysOf<T, K>(xs: seq<T>, key: T -> K): (ks: seq<K>)
    ensures |ks| == |xs| && forall i :: 0 <= i < |xs| ==> ks[i] == key(xs[i])
  {
    seq(|xs|, i requires 0 <= i < |xs| => key(xs[i]))
  }

  predicate DistinctKeys<T, K(==)>(xs: seq<T>, key: T -> K) {
    forall i, j :: 0 <= i < j < |xs| ==> key(xs[i]) != key(xs[j])
  }

  /** Two lists with the same keys at each position, each key once: equal elements
   *  only ever sit at the same position, so the elements that `separate` drops from the
   *  first list and those it keeps as new in the second are still pairwise under
   *  the same keys.  This is why `each_pair` never fails on the columns of a table
   *  alteration. */
  lemma SeparateAligned<T(!new), K>(before: seq<T>, after: seq<T>, eq: (T, T) -> bool, key: T -> K)
    requires |before| == |after| && forall i :: 0 <= i < |before| ==> key(before[i]) == key(after[i])
    requires DistinctKeys(before, key) && DistinctKeys(after, key)
    requires Equivalence(eq) && forall x, y :: eq(x, y) ==> key(x) == key(y)
    ensures var (removed, _, added) := Separate(before, after, eq);
      KeysOf(removed, key) == KeysOf(added, key)
  {
    var p := x => HasEqual(before, x, eq);
    var same := Filter(after, p);
    var q := x => !HasEqual(same, x, eq);
    var d := i requires 0 <= i < |before| => !eq(after[i], before[i]);
    forall i | 0 <= i < |after|
      ensures p(after[i]) == eq(after[i], before[i])
    {
      if p(after[i]) {
        var j :| 0 <= j < |before| && eq(after[i], before[j]);
        assert key(before[j]) == key(before[i]);
        assert i == j;
      }
    }
    forall i | 0 <= i < |after|
      ensures q(after[i]) == d(i)
    {
      HasEqualFiltered(after, p, after[i], eq);
      if !q(after[i]) {
        var k :| 0 <= k < |after| && p(after[k]) && eq(after[i], after[k]);
        assert key(after[i]) == key(after[k]);
        assert i == k;
      }
      if !d(i) {
        assert p(after[i]) && eq(after[i], after[i]);
      }
    }
    forall i | 0 <= i < |before|
      ensures q(before[i]) == d(i)
    {
      HasEqualFiltered(after, p, before[i], eq);
      if !q(before[i]) {
        var k :| 0 <= k < |after| && p(after[k]) && eq(before[i], after[k]);
        assert key(after[k]) == key(before[i]) == key(before[k]);
        assert i == k;
      }
      if !d(i) {
        assert p(after[i]) && eq(before[i], after[i]);
      }
    }
    FilterAligned(before, after, q, key);
  }

  /** Filtering two lists with equal keys by a test that agrees position by position
   *  gives lists with equal keys. */
  lemma {:induction false} FilterAligned<T(!new), K>(xs: seq<T>, ys: seq<T>, p: T -> bool, key: T -> K)
    requires |xs| == |ys|
    requires forall i :: 0 <= i < |xs| ==> key(xs[i]) == key(ys[i]) && p(xs[i]) == p(ys[i])
    ensures KeysOf(Filter(xs, p), key) == KeysOf(Filter(ys, p), key)
    decreases |xs|
  {
    if xs != [] {
      FilterAligned(xs[1..], ys[1..], p, key);
      var a, b := Filter(xs[1..], p), Filter(ys[1..], p);
      if p(xs[0]) {
        KeysOfCons(xs[0], a, key);
        KeysOfCons(ys[0], b, key);
      }
    }
  }

  lemma KeysOfCons<T, K>(x: T, xs: seq<T>, key: T -> K)
    ensures KeysOf([x] + xs, key) == [key(x)] + KeysOf(xs, key)
  {
    var l, r := KeysOf([x] + xs, key), [key(x)] + KeysOf(xs, key);
    forall i | 0 <= i < |l|
      ensures l[i] == r[i]
    {
      if i > 0 {
        assert ([x] + xs)[i] == xs[i - 1];
      }
    }
  }

  // ----- names compared with plain equality -----

  /** The `==` of names (strings and symbols). */
  predicate Same<T(==)>(a: T, b: T) {
    a == b
  }

  lemma SameIsEquivalence<T(!new)>()
    ensures Equivalence<T>(Same)
  {
  }

  /** Each part of a split of names holds names of the list it comes from. */
  lemma SeparatePresent<T(!new)>(before: seq<T>, after: seq<T>)
    ensures var (removed, same, added) := Separate(before, after, Same);
      (forall x :: x in removed ==> x in before) &&
      (forall x :: x in same ==> x in before && x in after) &&
      (forall x :: x in added ==> x in after)
  {
    var same := Filter(after, x => HasEqual(before, x, Same));
    forall x | x in same
      ensures x in before
    {
      var j :| 0 <= j < |before| && Same(x, before[j]);
    }
  }

  /** No element occurs twice. */
  ghost predicate Distinct<T>(xs: seq<T>) {
    forall i, j :: 0 <= i < j < |xs| ==> xs[i] != xs[j]
  }

  /** A filtered list of distinct elements holds distinct elements. */
  lemma {:induction false} FilterDistinct<T(!new)>(xs: seq<T>, p: T -> bool)
    requires Distinct(xs)
    ensures Distinct(Filter(xs, p))
    decreases |xs|
  {
    if xs != [] {
      FilterDistinct(xs[1..], p);
      var rest := Filter(xs[1..], p);
      if p(xs[0]) {
        var r := Filter(xs, p);
        assert r == [xs[0]] + rest;
        assert xs[0] !in xs[1..] by {
          forall k | 0 <= k < |xs[1..]| ensures xs[1..][k] != xs[0] {
            assert xs[1..][k] == xs[k + 1];
          }
        }
        forall i, j | 0 <= i < j < |r|
          ensures r[i] != r[j]
        {
          if i == 0 {
            assert r[j] == rest[j - 1] && rest[j - 1] in rest;
          } else {
            assert r[i] == rest[i - 1] && r[j] == rest[j - 1];
          }
        }
      }
    }
  }

  /** Swapping the lists swaps what is old and what is new: the way back drops
   *  exactly what the way there adds, in the same order. */
  lemma SeparateSwap<T(!new)>(a: seq<T>, b: seq<T>, eq: (T, T) -> bool)
    requires Equivalence(eq)
    ensures Separate(b, a, eq).0 == Separate(a, b, eq).2
  {
    var p := x => HasEqual(b, x, eq);
    var backSame := Filter(a, p);
    var q := x => HasEqual(a, x, eq);
    var thereSame := Filter(b, q);
    var back := x => !HasEqual(backSame, x, eq);
    var there := x => !HasEqual(thereSame, x, eq);
    forall i | 0 <= i < |b|
      ensures back(b[i]) == there(b[i])
    {
      var x := b[i];
      HasEqualFiltered(a, p, x, eq);
      HasEqualFiltered(b, q, x, eq);
      if HasEqual(a, x, eq) {
        var k :| 0 <= k < |a| && eq(x, a[k]);
        assert eq(a[k], x);
        assert p(a[k]);
        assert q(x) && eq(x, x);
      }
      if HasEqual(backSame, x, eq) {
        var k :| 0 <= k < |a| && p(a[k]) && eq(x, a[k]);
      }
      if HasEqual(thereSame, x, eq) {
        var k :| 0 <= k < |b| && q(b[k]) && eq(x, b[k]);
        var j :| 0 <= j < |a| && eq(b[k], a[j]);
        assert eq(x, a[j]);
      }
    }
    FilterSame(b, back, there);
  }
}
