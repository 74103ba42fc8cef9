/** Counting in finite ranges. */
module Counting {

  function Range(max: nat): (r: set<int>)
    ensures |r| == max && forall h :: h in r <==> 0 <= h < max
  {
    if max == 0 then {} else Range(max - 1) + {max - 1}
  }

  lemma SubsetCount(a: set<int>, b: set<int>)
    requires a <= b && |a| == |b|
    ensures a == b
  {
    assert |b - a| == |b| - |a|;
  }

  lemma SubsetSize(a: set<int>, b: set<int>)
    requires a <= b
    ensures |a| <= |b|
  {
    assert |b - a| == |b| - |a|;
  }

  /** More values than places: two of them are equal. */
  lemma Pigeonhole(s: seq<int>, max: nat) returns (i: nat, j: nat)
    requires |s| > max && forall k :: 0 <= k < |s| ==> 0 <= s[k] < max
    ensures i < j < |s| && s[i] == s[j]
  {
    if forall a, b :: 0 <= a < b < |s| ==> s[a] != s[b] {
      DistinctCount(s);
      SubsetSize(set k | 0 <= k < |s| :: s[k], Range(max));
      assert false;
    }
    i, j :| 0 <= i < j < |s| && s[i] == s[j];
  }

  lemma {:induction false} DistinctCount(s: seq<int>)
    requires forall a, b :: 0 <= a < b < |s| ==> s[a] != s[b]
    ensures |set k | 0 <= k < |s| :: s[k]| == |s|
  {
    if s != [] {
      var n := |s| - 1;
      DistinctCount(s[..n]);
      assert (set k | 0 <= k < |s| :: s[k]) == (set k | 0 <= k < n :: s[..n][k]) + {s[n]};
    }
  }
}
