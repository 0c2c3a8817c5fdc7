/** Sequence helpers shared by the place and experience modules: an optional
    value, the order-preserving filter that JavaScript's `Array.prototype.filter`
    performs, and what it means for one sequence to be a subsequence of another. */
module Seqs {

  datatype Option<+T> = None | Some(value: T)

  /** The elements of `s` for which `keep` holds, in their original order. */
  function Filter<T>(keep: T -> bool, s: seq<T>): (r: seq<T>)
    ensures |r| <= |s|
    ensures forall k :: 0 <= k < |r| ==> r[k] in s && keep(r[k])
    ensures forall k :: 0 <= k < |s| && keep(s[k]) ==> s[k] in r
  {
    if s == [] then []
    else if keep(s[0]) then [s[0]] + Filter(keep, s[1..])
    else Filter(keep, s[1..])
  }

  /** `idx` lists, in strictly increasing order, positions of `s` at which
      the elements of `r` are found one after another. */
  ghost predicate Embeds<T>(r: seq<T>, s: seq<T>, idx: seq<nat>)
  {
    && |idx| == |r|
    && (forall k :: 0 <= k < |idx| ==> idx[k] < |s| && r[k] == s[idx[k]])
    && (forall k, l :: 0 <= k < l < |idx| ==> idx[k] < idx[l])
  }

  /** `r` is obtained from `s` by deleting elements, keeping the order of the rest. */
  ghost predicate IsSubsequence<T>(r: seq<T>, s: seq<T>)
  {
    exists idx :: Embeds(r, s, idx)
  }

  ghost function Shift(idx: seq<nat>): (r: seq<nat>)
    ensures |r| == |idx|
    ensures forall k :: 0 <= k < |idx| ==> r[k] == idx[k] + 1
  {
    seq(|idx|, k requires 0 <= k < |idx| => idx[k] + 1)
  }

  lemma ShiftMembers(idx: seq<nat>, i: nat)
    ensures i in Shift(idx) <==> i > 0 && i - 1 in idx
  {
  }

  /** The positions of `s` at which `keep` holds, in increasing order: the
      reference definition that `Filter` is proved against. */
  ghost function Positions<T>(keep: T -> bool, s: seq<T>): (r: seq<nat>)
    ensures forall k :: 0 <= k < |r| ==> r[k] < |s|
    ensures forall k, l :: 0 <= k < l < |r| ==> r[k] < r[l]
  {
    if s == [] then []
    else if keep(s[0]) then [0] + Shift(Positions(keep, s[1..]))
    else Shift(Positions(keep, s[1..]))
  }

  /** A position is listed exactly when `keep` holds of the element there. */
  lemma {:induction false} PositionsExact<T>(keep: T -> bool, s: seq<T>, i: nat)
    requires i < |s|
    ensures keep(s[i]) <==> i in Positions(keep, s)
  {
    var p := Positions(keep, s[1..]);
    ShiftMembers(p, i);
    if i > 0 {
      PositionsExact(keep, s[1..], i - 1);
    }
  }

  /** `Filter` picks exactly the elements at the positions where `keep` holds,
      in increasing order of position. */
  lemma {:induction false} FilterPicksPositions<T>(keep: T -> bool, s: seq<T>)
    ensures Embeds(Filter(keep, s), s, Positions(keep, s))
  {
    if s != [] {
      FilterPicksPositions(keep, s[1..]);
      var f, p := Filter(keep, s[1..]), Positions(keep, s[1..]);
      var r, q := Filter(keep, s), Positions(keep, s);
      if keep(s[0]) {
        assert r == [s[0]] + f && q == [0] + Shift(p);
        forall k | 0 < k < |q| ensures r[k] == s[q[k]] {
          assert r[k] == f[k - 1] && q[k] == p[k - 1] + 1;
        }
      } else {
        assert r == f && q == Shift(p);
      }
    }
  }

  /** The filter result is an order-preserving subsequence of its input. */
  lemma FilterIsSubsequence<T>(keep: T -> bool, s: seq<T>)
    ensures IsSubsequence(Filter(keep, s), s)
  {
    FilterPicksPositions(keep, s);
  }

  /** Filtering a concatenation filters each part and concatenates the results. */
  lemma {:induction false} FilterConcat<T>(keep: T -> bool, a: seq<T>, b: seq<T>)
    ensures Filter(keep, a + b) == Filter(keep, a) + Filter(keep, b)
  {
    if a != [] {
      assert (a + b)[1..] == a[1..] + b;
      FilterConcat(keep, a[1..], b);
    } else {
      assert a + b == b;
    }
  }

  /** A filter that keeps every element returns its input unchanged. */
  lemma {:induction false} FilterKeepAll<T>(keep: T -> bool, s: seq<T>)
    requires forall x :: x in s ==> keep(x)
    ensures Filter(keep, s) == s
  {
    if s != [] {
      FilterKeepAll(keep, s[1..]);
    }
  }

  /** Two filters that agree on every element of `s` select the same elements. */
  lemma {:induction false} FilterCongruent<T>(keep: T -> bool, keep': T -> bool, s: seq<T>)
    requires forall x :: x in s ==> keep(x) == keep'(x)
    ensures Filter(keep, s) == Filter(keep', s)
  {
    if s != [] {
      FilterCongruent(keep, keep', s[1..]);
    }
  }
}
