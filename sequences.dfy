/**
 * Order-preserving filtering of a list, as done by the plugin's loops that
 * skip some elements (`continue`) and `add` the others to a fresh list.
 */
module Sequences {

  /** The elements of `s` that satisfy `keep`, in their original order. */
  function Filter<T(==)>(s: seq<T>, keep: T -> bool): (r: seq<T>)
    ensures |r| <= |s|
    ensures forall i :: 0 <= i < |r| ==> keep(r[i]) && r[i] in s
    ensures forall j :: 0 <= j < |s| && keep(s[j]) ==> s[j] in r
  {
    if s == [] then []
    else
      var init, last := s[..|s| - 1], s[|s| - 1];
      assert s == init + [last];
      Filter(init, keep) + (if keep(last) then [last] else [])
  }

  /** Filtering one more element appends it exactly when `keep` accepts it. */
  lemma FilterSnoc<T>(s: seq<T>, x: T, keep: T -> bool)
    ensures Filter(s + [x], keep) == Filter(s, keep) + (if keep(x) then [x] else [])
  {
    assert (s + [x])[..|s|] == s;
  }

  /** The positions of `s` whose element `keep` accepts, in increasing order. */
  function KeptPositions<T(==)>(s: seq<T>, keep: T -> bool): (r: seq<nat>)
    ensures |r| == |Filter(s, keep)|
  {
    if s == [] then []
    else KeptPositions(s[..|s| - 1], keep) + (if keep(s[|s| - 1]) then [|s| - 1] else [])
  }

  /** `idx` embeds `a` into `b`: strictly increasing positions of `b` holding `a`'s elements. */
  ghost predicate SubsequenceBy<T>(a: seq<T>, b: seq<T>, idx: seq<nat>) {
    && |idx| == |a|
    && (forall i :: 0 <= i < |idx| ==> idx[i] < |b| && a[i] == b[idx[i]])
    && (forall i, j :: 0 <= i < j < |idx| ==> idx[i] < idx[j])
  }

  /** A position is kept exactly when `keep` accepts the element there; kept positions are in range. */
  lemma {:induction false} KeptPositionsExact<T>(s: seq<T>, keep: T -> bool)
    ensures forall i :: 0 <= i < |KeptPositions(s, keep)| ==> KeptPositions(s, keep)[i] < |s|
    ensures forall j :: 0 <= j < |s| ==> (keep(s[j]) <==> j in KeptPositions(s, keep))
  {
    if s != [] {
      var n := |s| - 1;
      var init := s[..n];
      KeptPositionsExact(init, keep);
      var k := KeptPositions(init, keep);
      assert KeptPositions(s, keep) == k + (if keep(s[n]) then [n] else []);
      forall j | 0 <= j < n
        ensures keep(s[j]) <==> j in KeptPositions(s, keep)
      {
        assert s[j] == init[j];
      }
    }
  }

  /**
   * Filtering preserves order: the i-th kept element is the element at the
   * i-th kept position, and kept positions strictly increase.
   */
  lemma {:induction false} FilterPreservesOrder<T>(s: seq<T>, keep: T -> bool)
    ensures SubsequenceBy(Filter(s, keep), s, KeptPositions(s, keep))
  {
    if s != [] {
      var n := |s| - 1;
      var init, last := s[..n], s[n];
      FilterPreservesOrder(init, keep);
      KeptPositionsExact(init, keep);
      var f, k := Filter(init, keep), KeptPositions(init, keep);
      var r, idx := Filter(s, keep), KeptPositions(s, keep);
      assert idx == k + (if keep(last) then [n] else []);
      assert r == f + (if keep(last) then [last] else []);
      forall i | 0 <= i < |idx|
        ensures idx[i] < |s| && r[i] == s[idx[i]]
      {
        if i < |k| {
          assert r[i] == f[i] == init[k[i]];
        }
      }
    }
  }

  /** A filter that accepts every element changes nothing. */
  lemma {:induction false} FilterKeepsAll<T>(s: seq<T>, keep: T -> bool)
    requires forall j :: 0 <= j < |s| ==> keep(s[j])
    ensures Filter(s, keep) == s
  {
    if s != [] {
      var init := s[..|s| - 1];
      FilterKeepsAll(init, keep);
      assert s == init + [s[|s| - 1]];
    }
  }

  /** Two tests that agree on every element of `s` select the same list. */
  lemma {:induction false} FilterAgrees<T>(s: seq<T>, f: T -> bool, g: T -> bool)
    requires forall j :: 0 <= j < |s| ==> f(s[j]) == g(s[j])
    ensures Filter(s, f) == Filter(s, g)
  {
    if s != [] {
      var init := s[..|s| - 1];
      FilterAgrees(init, f, g);
    }
  }
}
