/** Generic sequence helpers: an order-preserving filter (JavaScript's Array.prototype.filter)
    and key-uniqueness, with the facts the document model needs about them. */
module Seqs {

  /** `a` can be obtained from `b` by deleting elements, keeping the rest in order. */
  ghost predicate IsSubsequence<T>(a: seq<T>, b: seq<T>)
    decreases |b|
  {
    if a == [] then true
    else if b == [] then false
    else (a[0] == b[0] && IsSubsequence(a[1..], b[1..])) || IsSubsequence(a, b[1..])
  }

  /** The elements of `s` that satisfy `f`, in their original order. */
  function Filter<T>(s: seq<T>, f: T -> bool): (r: seq<T>)
    ensures |r| <= |s|
    ensures forall i | 0 <= i < |r| :: r[i] in s && f(r[i])
    ensures forall i | 0 <= i < |s| :: f(s[i]) ==> s[i] in r
    ensures IsSubsequence(r, s)
    decreases |s|
  {
    if s == [] then []
    else
      var rest := Filter(s[1..], f);
      if f(s[0]) then [s[0]] + rest else rest
  }

  /** Filtering distributes over concatenation: together with the one-element case this pins
      the result down completely, multiplicities and order included. */
  lemma {:induction false} FilterConcat<T>(a: seq<T>, b: seq<T>, f: T -> bool)
    ensures Filter(a + b, f) == Filter(a, f) + Filter(b, f)
    decreases |a|
  {
    if a == [] {
      assert a + b == b;
    } else {
      assert (a + b)[0] == a[0];
      assert (a + b)[1..] == a[1..] + b;
      FilterConcat(a[1..], b, f);
    }
  }

  /** Filtering by `f` and then by a stricter `g` is filtering by `g` alone. */
  lemma {:induction false} FilterNarrowed<T>(s: seq<T>, f: T -> bool, g: T -> bool)
    requires forall x :: g(x) ==> f(x)
    ensures Filter(Filter(s, f), g) == Filter(s, g)
    decreases |s|
  {
    if s != [] {
      FilterNarrowed(s[1..], f, g);
      if f(s[0]) {
        var fs := Filter(s, f);
        assert fs == [s[0]] + Filter(s[1..], f);
        assert fs[0] == s[0] && fs[1..] == Filter(s[1..], f);
      }
    }
  }

  /** Filtering with a predicate every element meets changes nothing. */
  lemma {:induction false} FilterAll<T>(s: seq<T>, f: T -> bool)
    requires forall i | 0 <= i < |s| :: f(s[i])
    ensures Filter(s, f) == s
    decreases |s|
  {
    if s != [] {
      FilterAll(s[1..], f);
      assert [s[0]] + s[1..] == s;
    }
  }

  /** No two positions of `s` carry the same key. */
  predicate DistinctKeys<T, K(==)>(s: seq<T>, key: T -> K)
  {
    forall i, j | 0 <= i < j < |s| :: key(s[i]) != key(s[j])
  }

  /** `k` is the key of no element of `s`. */
  predicate FreshKey<T, K(==)>(s: seq<T>, key: T -> K, k: K)
  {
    forall i | 0 <= i < |s| :: key(s[i]) != k
  }

  /** Any filter of a sequence with distinct keys has distinct keys. */
  lemma {:induction false} FilterKeepsDistinct<T, K>(s: seq<T>, f: T -> bool, key: T -> K)
    requires DistinctKeys(s, key)
    ensures DistinctKeys(Filter(s, f), key)
    decreases |s|
  {
    if s != [] {
      var tail := s[1..];
      assert DistinctKeys(tail, key) by {
        forall i, j | 0 <= i < j < |tail|
          ensures key(tail[i]) != key(tail[j])
        {
          assert tail[i] == s[i + 1] && tail[j] == s[j + 1];
        }
      }
      FilterKeepsDistinct(tail, f, key);
      var rest := Filter(tail, f);
      if f(s[0]) {
        var r := [s[0]] + rest;
        forall i, j | 0 <= i < j < |r|
          ensures key(r[i]) != key(r[j])
        {
          if i == 0 {
            assert r[j] in tail;
            var m :| 0 <= m < |tail| && tail[m] == r[j];
            assert tail[m] == s[m + 1];
          } else {
            assert r[i] == rest[i - 1] && r[j] == rest[j - 1];
          }
        }
      }
    }
  }
}
