/**
  Index arrays and NumPy fancy indexing. A shuffled `np.arange(n)` is any
  rearrangement of `0, 1, ..., n-1`, and indexing a sequence with such an
  array reorders the sequence without adding or losing elements.
 */
module Permutations {

  /** `np.arange(n)`: the indices `0, 1, ..., n-1` in order. */
  function Arange(n: nat): (r: seq<nat>)
    ensures |r| == n
    ensures forall i | 0 <= i < n :: r[i] == i
  {
    seq(n, i => i)
  }

  /** `idx` holds each of `0, ..., n-1` exactly once, as after `np.random.shuffle(np.arange(n))`. */
  predicate IsPermutation(idx: seq<nat>, n: nat) {
    multiset(idx) == multiset(Arange(n))
  }

  /** Every index in `idx` addresses an element of a sequence of length `n`. */
  predicate InBounds(idx: seq<nat>, n: nat) {
    forall k | 0 <= k < |idx| :: idx[k] < n
  }

  /** Fancy indexing `s[idx]`: the elements of `s` at the positions `idx` lists, in that order. */
  function Gather<T>(s: seq<T>, idx: seq<nat>): (r: seq<T>)
    requires InBounds(idx, |s|)
    ensures |r| == |idx|
    ensures forall k | 0 <= k < |idx| :: r[k] == s[idx[k]]
  {
    seq(|idx|, k requires 0 <= k < |idx| => s[idx[k]])
  }

  /** `m` occurs in `np.arange(n)` exactly when it is below `n`. */
  lemma ArangeMembers(n: nat, m: nat)
    ensures m in multiset(Arange(n)) <==> m < n
  {
    if m < n {
      assert Arange(n)[m] == m;
    }
  }

  /** A permutation of `0..n-1` has length `n`, stays below `n`, and lists every index below `n`. */
  lemma PermutationBounds(idx: seq<nat>, n: nat)
    requires IsPermutation(idx, n)
    ensures |idx| == n
    ensures InBounds(idx, n)
    ensures forall m: nat | m < n :: m in idx
  {
    assert |idx| == |multiset(idx)| == |multiset(Arange(n))| == n;
    forall k | 0 <= k < |idx|
      ensures idx[k] < n
    {
      assert idx[k] in multiset(idx);
      ArangeMembers(n, idx[k]);
    }
    forall m: nat | m < n
      ensures m in idx
    {
      ArangeMembers(n, m);
      assert m in multiset(idx);
    }
  }

  /** Taking the largest index `n` out of a permutation of `0..n` leaves a permutation of `0..n-1`. */
  lemma RemoveLargest(idx: seq<nat>, n: nat, k: nat)
    requires IsPermutation(idx, n + 1)
    requires k < |idx| && idx[k] == n
    ensures IsPermutation(idx[..k] + idx[k + 1..], n)
  {
    var rest := idx[..k] + idx[k + 1..];
    assert idx == idx[..k] + [n] + idx[k + 1..];
    assert multiset(idx) == multiset(rest) + multiset{n};
    assert Arange(n + 1) == Arange(n) + [n];
    assert multiset(Arange(n + 1)) == multiset(Arange(n)) + multiset{n};
    assert multiset(rest) == multiset(idx) - multiset{n};
    assert multiset(Arange(n)) == multiset(Arange(n + 1)) - multiset{n};
  }

  /**
    Gathering with the index `n` at position `k` is gathering without it from
    the first `n` elements, with `s[n]` put back at position `k`.
   */
  lemma GatherSplit<T>(s: seq<T>, idx: seq<nat>, k: nat)
    requires |s| > 0 && InBounds(idx, |s|)
    requires k < |idx| && idx[k] == |s| - 1
    requires InBounds(idx[..k] + idx[k + 1..], |s| - 1)
    ensures Gather(s, idx)
         == Gather(s[..|s| - 1], idx[..k] + idx[k + 1..])[..k] + [s[|s| - 1]]
          + Gather(s[..|s| - 1], idx[..k] + idx[k + 1..])[k..]
  {
  }

  /** Inserting `x` anywhere into `h` adds exactly one `x` to its multiset. */
  lemma MultisetInsert<T>(h: seq<T>, k: nat, x: T)
    requires k <= |h|
    ensures multiset(h[..k] + [x] + h[k..]) == multiset(h) + multiset{x}
  {
    assert h == h[..k] + h[k..];
  }

  /** A permutation of `0..n` lists `n` at some position. */
  lemma FindLargest(idx: seq<nat>, n: nat) returns (k: nat)
    requires IsPermutation(idx, n + 1)
    ensures k < |idx| && idx[k] == n
  {
    PermutationBounds(idx, n + 1);
    assert n in idx;
    k :| 0 <= k < |idx| && idx[k] == n;
  }

  /**
    The inductive step of `GatherPreservesMultiset`: if gathering the first
    `n` elements by the rest of the permutation keeps their multiset, then
    gathering all of `s` by the whole permutation keeps the multiset of `s`.
   */
  lemma GatherStep<T>(s: seq<T>, idx: seq<nat>, k: nat)
    requires |s| > 0 && InBounds(idx, |s|)
    requires k < |idx| && idx[k] == |s| - 1
    requires InBounds(idx[..k] + idx[k + 1..], |s| - 1)
    requires multiset(Gather(s[..|s| - 1], idx[..k] + idx[k + 1..])) == multiset(s[..|s| - 1])
    ensures multiset(Gather(s, idx)) == multiset(s)
  {
    var n := |s| - 1;
    var h := Gather(s[..n], idx[..k] + idx[k + 1..]);
    GatherSplit(s, idx, k);
    MultisetInsert(h, k, s[n]);
    assert s == s[..n] + [s[n]];
  }

  /**
    Reordering by a permutation keeps the multiset of elements: `s[idx]`
    is a rearrangement of `s`.
   */
  lemma {:induction false} GatherPreservesMultiset<T>(s: seq<T>, idx: seq<nat>)
    requires IsPermutation(idx, |s|)
    ensures InBounds(idx, |s|)
    ensures multiset(Gather(s, idx)) == multiset(s)
    decreases |s|
  {
    PermutationBounds(idx, |s|);
    if |s| > 0 {
      var n := |s| - 1;
      var k := FindLargest(idx, n);
      RemoveLargest(idx, n, k);
      GatherPreservesMultiset(s[..n], idx[..k] + idx[k + 1..]);
      GatherStep(s, idx, k);
    }
  }
}
