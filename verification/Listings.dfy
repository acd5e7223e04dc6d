/** Ascending lists of indices: which members of a sequence were picked. */
module Listings {
  ghost predicate Ascending(ks: seq<nat>, n: nat) {
    && (forall i, j :: 0 <= i < j < |ks| ==> ks[i] < ks[j])
    && (forall i :: 0 <= i < |ks| ==> ks[i] < n)
  }

  /** How many of the listed indices are less than `k`. */
  function Below(ks: seq<nat>, k: nat): nat {
    if ks == [] then 0 else Below(ks[..|ks| - 1], k) + if ks[|ks| - 1] < k then 1 else 0
  }

  lemma {:induction false} BelowAll(ks: seq<nat>, k: nat)
    requires forall i :: 0 <= i < |ks| ==> ks[i] < k
    ensures Below(ks, k) == |ks|
  {
    if ks != [] { BelowAll(ks[..|ks| - 1], k); }
  }

  /** Listing one more index changes nothing for those up to it. */
  lemma BelowMore(ks: seq<nat>, n: nat, k: nat)
    requires k <= n
    ensures Below(ks + [n], k) == Below(ks, k)
  {
    assert (ks + [n])[..|ks|] == ks;
  }

  lemma AscendingMore(ks: seq<nat>, n: nat)
    requires Ascending(ks, n)
    ensures Ascending(ks, n + 1) && Ascending(ks + [n], n + 1) && n !in ks
    ensures forall k :: k in ks + [n] <==> k in ks || k == n
    ensures Below(ks, n) == |ks|
    ensures forall k :: 0 <= k <= n ==> Below(ks + [n], k) == Below(ks, k)
  {
    BelowAll(ks, n);
    forall k | 0 <= k <= n ensures Below(ks + [n], k) == Below(ks, k) { BelowMore(ks, n, k); }
  }
}
