/**
 * The two array operations the components use to derive new state:
 * `Array.prototype.map` and `Array.prototype.filter`, on sequences.
 */
module Collections {

  /** `s.map(f)`. */
  function Map<T, U>(s: seq<T>, f: T -> U): seq<U>
  {
    if s == [] then [] else [f(s[0])] + Map(s[1..], f)
  }

  /** `s.filter(p)`: the elements satisfying `p`, in their original order. */
  function Filter<T>(s: seq<T>, p: T -> bool): seq<T>
  {
    if s == [] then []
    else if p(s[0]) then [s[0]] + Filter(s[1..], p)
    else Filter(s[1..], p)
  }

  /** `a` can be obtained from `b` by deleting elements; order is kept. */
  predicate IsSubsequence<T(==)>(a: seq<T>, b: seq<T>)
    decreases |b|
  {
    if a == [] then true
    else if b == [] then false
    else (a[0] == b[0] && IsSubsequence(a[1..], b[1..])) || IsSubsequence(a, b[1..])
  }

  /** Mapping keeps the length and applies `f` at every position. */
  lemma {:induction false} MapAt<T, U>(s: seq<T>, f: T -> U, i: int)
    requires 0 <= i < |s|
    ensures |Map(s, f)| == |s| && Map(s, f)[i] == f(s[i])
  {
    MapLength(s, f);
    if i > 0 {
      MapAt(s[1..], f, i - 1);
    }
  }

  lemma {:induction false} MapLength<T, U>(s: seq<T>, f: T -> U)
    ensures |Map(s, f)| == |s|
  {
    if s != [] {
      MapLength(s[1..], f);
    }
  }

  /** An element is kept by the filter exactly when it occurs in the input and satisfies `p`. */
  lemma {:induction false} FilterMembership<T>(s: seq<T>, p: T -> bool, x: T)
    ensures x in Filter(s, p) <==> x in s && p(x)
  {
    if s != [] {
      FilterMembership(s[1..], p, x);
      assert s == [s[0]] + s[1..];
    }
  }

  /** The filter returns an order-preserving subsequence of its input. */
  lemma {:induction false} FilterIsSubsequence<T>(s: seq<T>, p: T -> bool)
    ensures IsSubsequence(Filter(s, p), s)
  {
    if s != [] {
      FilterIsSubsequence(s[1..], p);
      var rest := Filter(s[1..], p);
      if p(s[0]) {
        assert ([s[0]] + rest)[1..] == rest;
      } else {
        SubsequenceOfTail(rest, s);
      }
    }
  }

  /** A filter that removes nothing returns its input. */
  lemma {:induction false} FilterKeepsAll<T>(s: seq<T>, p: T -> bool)
    requires forall i :: 0 <= i < |s| ==> p(s[i])
    ensures Filter(s, p) == s
  {
    if s != [] {
      FilterKeepsAll(s[1..], p);
      assert s == [s[0]] + s[1..];
    }
  }

  /** Filtering by a stronger condition gives a subsequence of filtering by a weaker one. */
  lemma {:induction false} FilterStronger<T>(s: seq<T>, p: T -> bool, q: T -> bool)
    requires forall i :: 0 <= i < |s| && q(s[i]) ==> p(s[i])
    ensures IsSubsequence(Filter(s, q), Filter(s, p))
  {
    if s != [] {
      FilterStronger(s[1..], p, q);
      var fq, fp := Filter(s[1..], q), Filter(s[1..], p);
      if q(s[0]) {
        assert ([s[0]] + fq)[1..] == fq;
        assert ([s[0]] + fp)[1..] == fp;
      } else if p(s[0]) {
        assert ([s[0]] + fp)[1..] == fp;
        SubsequenceOfTail(fq, [s[0]] + fp);
      }
    }
  }

  /** Prepending to the larger sequence keeps a subsequence a subsequence. */
  lemma SubsequenceOfTail<T>(a: seq<T>, b: seq<T>)
    requires b != [] && IsSubsequence(a, b[1..])
    ensures IsSubsequence(a, b)
  {
  }

  /** Every element of a subsequence occurs in the larger sequence. */
  lemma {:induction false} SubsequenceMembers<T>(a: seq<T>, b: seq<T>, x: T)
    requires IsSubsequence(a, b) && x in a
    ensures x in b
  {
    if a[0] == b[0] && IsSubsequence(a[1..], b[1..]) {
      if x != a[0] {
        assert x in a[1..];
        SubsequenceMembers(a[1..], b[1..], x);
      }
    } else {
      SubsequenceMembers(a, b[1..], x);
    }
  }

  /** A subsequence is never longer than the sequence it is taken from. */
  lemma {:induction false} SubsequenceLength<T>(a: seq<T>, b: seq<T>)
    requires IsSubsequence(a, b)
    ensures |a| <= |b|
  {
    if a != [] {
      if a[0] == b[0] && IsSubsequence(a[1..], b[1..]) {
        SubsequenceLength(a[1..], b[1..]);
      } else {
        SubsequenceLength(a, b[1..]);
      }
    }
  }
}
