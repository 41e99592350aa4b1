/**
 * Sequence helpers behind `Array.prototype.filter` and the de-duplicating
 * `[...new Set(xs)]` idiom: order-preserving selection, the subsequence
 * relation it establishes, and first-appearance de-duplication.
 */
module Seqs {

  /** `a` can be obtained from `b` by deleting elements (order kept). */
  predicate IsSubseq<T(==)>(a: seq<T>, b: seq<T>)
    decreases |b|
  {
    if |a| == 0 then true
    else if |b| == 0 then false
    else if a[0] == b[0] then IsSubseq(a[1..], b[1..])
    else IsSubseq(a, b[1..])
  }

  /** The number of elements of `s` that satisfy `p`. */
  function CountWhere<T>(s: seq<T>, p: T -> bool): nat
  {
    if |s| == 0 then 0 else (if p(s[0]) then 1 else 0) + CountWhere(s[1..], p)
  }

  /**
   * `s.filter(p)`: the elements of `s` that satisfy `p`, in their original
   * order. Nothing is added and nothing that satisfies `p` is lost.
   */
  function Filter<T(==)>(s: seq<T>, p: T -> bool): (r: seq<T>)
    ensures |r| == CountWhere(s, p) <= |s|
    ensures forall i :: 0 <= i < |r| ==> r[i] in s && p(r[i])
    ensures forall i :: 0 <= i < |s| && p(s[i]) ==> s[i] in r
    ensures IsSubseq(r, s)
    ensures (forall i :: 0 <= i < |s| ==> p(s[i])) ==> r == s
  {
    if |s| == 0 then []
    else if p(s[0]) then [s[0]] + Filter(s[1..], p)
    else Filter(s[1..], p)
  }

  /** Filtering a list with one more element in front decides that element and filters the rest. */
  lemma {:induction false} FilterPrepend<T>(x: T, s: seq<T>, p: T -> bool)
    ensures Filter([x] + s, p) == (if p(x) then [x] else []) + Filter(s, p)
  {
    assert ([x] + s)[1..] == s;
  }

  /** Two predicates that agree on every element count the same elements. */
  lemma {:induction false} CountWhereAgree<T>(s: seq<T>, p: T -> bool, q: T -> bool)
    requires forall i :: 0 <= i < |s| ==> (p(s[i]) <==> q(s[i]))
    ensures CountWhere(s, p) == CountWhere(s, q)
  {
    if |s| > 0 {
      CountWhereAgree(s[1..], p, q);
    }
  }

  /** A stronger predicate selects a subsequence of what a weaker one selects. */
  lemma {:induction false} FilterMonotone<T>(s: seq<T>, p: T -> bool, q: T -> bool)
    requires forall i :: 0 <= i < |s| ==> p(s[i]) ==> q(s[i])
    ensures IsSubseq(Filter(s, p), Filter(s, q))
  {
    if |s| > 0 {
      FilterMonotone(s[1..], p, q);
      var x, y := Filter(s[1..], p), Filter(s[1..], q);
      if p(s[0]) {
        assert ([s[0]] + x)[1..] == x;
        assert ([s[0]] + y)[1..] == y;
      } else if q(s[0]) {
        assert ([s[0]] + y)[1..] == y;
        if |x| > 0 {
          assert x[0] in x;
          assert x[0] != s[0];
        }
      }
    }
  }

  /** The index at which `x` first appears in `s`. */
  function FirstIndex<T(==)>(s: seq<T>, x: T): (i: nat)
    requires x in s
    ensures i < |s| && s[i] == x && x !in s[..i]
  {
    if s[0] == x then 0
    else
      var j := FirstIndex(s[1..], x);
      assert s[..j + 1] == [s[0]] + s[1..][..j];
      j + 1
  }

  lemma FirstIndexOfPrefix<T>(s: seq<T>, n: nat, x: T)
    requires n <= |s| && x in s[..n]
    ensures FirstIndex(s, x) == FirstIndex(s[..n], x)
  {
    var i, j := FirstIndex(s, x), FirstIndex(s[..n], x);
    assert s[..n][..j] == s[..j];
  }

  /**
   * `[...new Set(s)]`: each distinct element of `s` exactly once, in the order
   * of its first appearance.
   */
  function Dedup<T(==)>(s: seq<T>): (r: seq<T>)
    ensures forall i :: 0 <= i < |r| ==> r[i] in s
    ensures forall i :: 0 <= i < |s| ==> s[i] in r
    ensures forall i, j :: 0 <= i < j < |r| ==> r[i] != r[j]
    ensures forall i, j :: 0 <= i < j < |r| ==> FirstIndex(s, r[i]) < FirstIndex(s, r[j])
    decreases |s|
  {
    if |s| == 0 then []
    else
      var init := s[..|s| - 1];
      var r := Dedup(init);
      DedupOrder(s, r);
      if s[|s| - 1] in r then r else r + [s[|s| - 1]]
  }

  lemma DedupOrder<T>(s: seq<T>, r: seq<T>)
    requires |s| > 0
    requires forall i :: 0 <= i < |r| ==> r[i] in s[..|s| - 1]
    requires forall i :: 0 <= i < |s| - 1 ==> s[i] in r
    requires forall i, j :: 0 <= i < j < |r| ==> FirstIndex(s[..|s| - 1], r[i]) < FirstIndex(s[..|s| - 1], r[j])
    ensures forall i, j :: 0 <= i < j < |r| ==> FirstIndex(s, r[i]) < FirstIndex(s, r[j])
    ensures s[|s| - 1] !in r ==> forall i :: 0 <= i < |r| ==> FirstIndex(s, r[i]) < FirstIndex(s, s[|s| - 1])
  {
    var n := |s| - 1;
    forall i | 0 <= i < |r|
      ensures FirstIndex(s, r[i]) == FirstIndex(s[..n], r[i])
    {
      FirstIndexOfPrefix(s, n, r[i]);
    }
    if s[n] !in r {
      assert s[n] !in s[..n];
      assert FirstIndex(s, s[n]) == n;
    }
  }

}
