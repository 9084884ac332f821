/** Generic facts about sequences that the other modules lean on. */
module Sequences {
  /** `f` applied to each element of `s`, in order. */
  function Mapped<A, B>(f: A -> B, s: seq<A>): (r: seq<B>)
    ensures |r| == |s|
  {
    if s == [] then [] else [f(s[0])] + Mapped(f, s[1..])
  }

  lemma {:induction false} MappedAt<A, B>(f: A -> B, s: seq<A>, j: nat)
    requires j < |s|
    ensures Mapped(f, s)[j] == f(s[j])
  {
    if j > 0 {
      MappedAt(f, s[1..], j - 1);
    }
  }

  lemma MappedFrom<A, B>(f: A -> B, s: seq<A>, i: nat)
    requires i < |s|
    ensures Mapped(f, s[i..]) == [f(s[i])] + Mapped(f, s[i + 1..])
  {
    assert s[i..][1..] == s[i + 1..];
  }

  lemma MappedNone<A, B>(f: A -> B, s: seq<A>)
    requires s == []
    ensures Mapped(f, s) == []
  {
  }

  lemma Assoc<T>(a: seq<T>, b: seq<T>, c: seq<T>)
    ensures a + (b + c) == (a + b) + c
  {
  }

  lemma SliceFromZero<T>(s: seq<T>)
    ensures s[0..] == s
  {
  }

  lemma WholeSlice<T>(s: seq<T>)
    ensures s[..|s|] == s
  {
  }

  lemma NoneAppended<T>(a: seq<T>)
    ensures a + [] == a
  {
  }

  lemma CharOfPrefix(a: string, b: string, k: nat)
    requires k < |a|
    ensures (a + b)[k] == a[k]
  {
  }

  lemma AppendedTwice<T>(a: seq<T>, x: T, y: T)
    ensures a + [x] + [y] == a + [x, y]
  {
  }
}
