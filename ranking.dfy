/** Ranking the scored cards: `results.sort((a, b) => b.net_savings -
    a.net_savings)`, an in-place sort by net savings, highest first. The sort
    is stable, so cards with equal net savings keep their input order; that
    order is not modelled here. */
module Ranking {
  import opened Cards

  /** Non-increasing by net savings. */
  ghost predicate SortedByNet(s: seq<ScoredCard>) {
    forall i, j :: 0 <= i < j < |s| ==> s[i].netSavings >= s[j].netSavings
  }

  /** Exchanges two neighbouring cards. */
  method SwapAdjacent(a: array<ScoredCard>, j: int)
    requires 0 < j < a.Length
    modifies a
    ensures a[j - 1] == old(a[j]) && a[j] == old(a[j - 1])
    ensures forall k :: 0 <= k < a.Length && k != j - 1 && k != j ==> a[k] == old(a[k])
    ensures multiset(a[..]) == multiset(old(a[..]))
  {
    a[j - 1], a[j] := a[j], a[j - 1];
  }

  /** Sorts the array in place, by insertion, highest net savings first. */
  method SortByNetSavings(a: array<ScoredCard>)
    modifies a
    ensures SortedByNet(a[..])
    ensures multiset(a[..]) == multiset(old(a[..]))
  {
    if a.Length < 2 {
      return;
    }
    var i := 1;
    while i < a.Length
      invariant 1 <= i <= a.Length
      invariant forall p, q :: 0 <= p < q < i ==> a[p].netSavings >= a[q].netSavings
      invariant multiset(a[..]) == multiset(old(a[..]))
    {
      var j := i;
      while j > 0 && a[j - 1].netSavings < a[j].netSavings
        invariant 0 <= j <= i
        invariant forall p, q :: 0 <= p < q <= i && q != j ==> a[p].netSavings >= a[q].netSavings
        invariant 0 < j < i ==> a[j - 1].netSavings >= a[j + 1].netSavings
        invariant multiset(a[..]) == multiset(old(a[..]))
      {
        SwapAdjacent(a, j);
        j := j - 1;
      }
      i := i + 1;
    }
  }
}
