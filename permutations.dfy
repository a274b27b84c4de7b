/** Permutations of 0, 1, ..., n-1, as `torch.randperm(n)` returns them, and
    reordering a sequence by one. */
module Permutations {

  /** The indices 0, 1, ..., n-1 in order. */
  function Iota(n: nat): (r: seq<nat>)
    ensures |r| == n
  {
    seq(n, i requires 0 <= i < n => i)
  }

  lemma {:induction false} IotaMembers(n: nat, x: nat)
    ensures x in multiset(Iota(n)) <==> x < n
  {
    if n > 0 {
      var top: nat := n - 1;
      IotaMembers(top, x);
      assert Iota(n) == Iota(top) + [top];
      assert multiset(Iota(n)) == multiset(Iota(top)) + multiset{top};
    }
  }

  /** `p` holds each of 0, 1, ..., n-1 exactly once. */
  ghost predicate IsPermutation(p: seq<nat>, n: nat) {
    multiset(p) == multiset(Iota(n))
  }

  /** A permutation of n indices has n entries, each a valid index. */
  lemma PermutationIndices(p: seq<nat>, n: nat)
    requires IsPermutation(p, n)
    ensures |p| == n
    ensures forall i :: 0 <= i < |p| ==> p[i] < n
  {
    assert |p| == |multiset(p)| == |multiset(Iota(n))| == n;
    forall i | 0 <= i < |p|
      ensures p[i] < n
    {
      assert p[i] in multiset(p);
      IotaMembers(n, p[i]);
    }
  }

  /** `s[p]` in tensor indexing: entry i of the result is `s[p[i]]`. */
  function Gather<T>(s: seq<T>, p: seq<nat>): (r: seq<T>)
    requires forall i :: 0 <= i < |p| ==> p[i] < |s|
  {
    seq(|p|, i requires 0 <= i < |p| => s[p[i]])
  }

  /** Removing entry j from a sequence removes one occurrence of it from the multiset. */
  lemma RemoveAtMultiset<T>(p: seq<T>, j: nat)
    requires j < |p|
    ensures multiset(p) == multiset(p[..j] + p[j + 1..]) + multiset{p[j]}
  {
    assert p == p[..j] + [p[j]] + p[j + 1..];
  }

  /** Gathering with entry j (which picks the last element) removed, from the
      sequence without its last element, misses exactly that element. */
  lemma GatherRemoveLast<T>(s: seq<T>, p: seq<nat>, j: nat)
    requires |s| > 0 && j < |p| && p[j] == |s| - 1
    requires forall i :: 0 <= i < |p| && i != j ==> p[i] < |s| - 1
    ensures var q := p[..j] + p[j + 1..];
      multiset(Gather(s, p)) == multiset(Gather(s[..|s| - 1], q)) + multiset{s[|s| - 1]}
  {
    var q := p[..j] + p[j + 1..];
    var g, h := Gather(s, p), Gather(s[..|s| - 1], q);
    forall i | 0 <= i < |g|
      ensures g[i] == (h[..j] + [s[|s| - 1]] + h[j..])[i]
    {
      if i < j {
        assert q[i] == p[i];
      } else if i > j {
        assert q[i - 1] == p[i];
      }
    }
    assert g == h[..j] + [s[|s| - 1]] + h[j..];
    assert h == h[..j] + h[j..];
  }

  /** A permutation of n + 1 indices is a permutation of n indices with n
      inserted at some position j. */
  lemma SplitOffLast(p: seq<nat>, n: nat) returns (j: nat)
    requires IsPermutation(p, n + 1)
    ensures j < |p| && p[j] == n
    ensures IsPermutation(p[..j] + p[j + 1..], n)
  {
    IotaMembers(n + 1, n);
    assert n in multiset(p);
    j :| 0 <= j < |p| && p[j] == n;
    var q := p[..j] + p[j + 1..];
    RemoveAtMultiset(p, j);
    assert Iota(n + 1) == Iota(n) + [n];
    calc {
      multiset(q);
      multiset(p) - multiset{n};
      multiset(Iota(n + 1)) - multiset{n};
      multiset(Iota(n));
    }
  }

  /** Reordering by a permutation loses and duplicates nothing. */
  lemma {:induction false} GatherPermutes<T>(s: seq<T>, p: seq<nat>)
    requires IsPermutation(p, |s|)
    ensures |p| == |s| && forall i :: 0 <= i < |p| ==> p[i] < |s|
    ensures multiset(Gather(s, p)) == multiset(s)
  {
    PermutationIndices(p, |s|);
    if |s| > 0 {
      var last: nat := |s| - 1;
      var j := SplitOffLast(p, last);
      var q := p[..j] + p[j + 1..];
      PermutationIndices(q, last);
      forall i | 0 <= i < |p| && i != j
        ensures p[i] < last
      {
        if i < j {
          assert q[i] == p[i];
        } else {
          assert q[i - 1] == p[i];
        }
      }
      GatherRemoveLast(s, p, j);
      GatherPermutes(s[..last], q);
      assert s == s[..last] + [s[last]];
    }
  }
}
