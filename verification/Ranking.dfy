/** The rankings the intent router makes of the visible operations. */
module Ranking {
  import opened Sorting

  datatype Scored = Scored(loss: real, index: nat)

  function ScoredLeq(a: Scored, b: Scored): bool {
    a.loss < b.loss || (a.loss == b.loss && a.index <= b.index)
  }

  /** `i` ranks before `j`: it scores higher, or as high and comes first. */
  predicate Before(scores: seq<real>, i: nat, j: nat)
    requires i < |scores| && j < |scores|
  {
    scores[i] > scores[j] || (scores[i] == scores[j] && i < j)
  }

  predicate RankGiven(ranks: map<nat, nat>, r: nat) { exists i :: i in ranks && ranks[i] == r }

  function Listed(scores: seq<real>, minimum: real, n: nat): set<nat>
    requires n <= |scores|
  {
    set i | 0 <= i < n && scores[i] >= minimum
  }

  /** The operations that reach the minimum are numbered from one upwards in the order of their scores. */
  ghost predicate IsRanking(scores: seq<real>, minimum: real, ranks: map<nat, nat>) {
    && ranks.Keys == Listed(scores, minimum, |scores|)
    && (forall i | i in ranks :: 1 <= ranks[i] <= |ranks|)
    && (forall r: nat | 1 <= r <= |ranks| :: RankGiven(ranks, r))
    && (forall i, j | i in ranks && j in ranks :: ranks[i] < ranks[j] <==> Before(scores, i, j))
  }

  function Indices(items: seq<Scored>): set<nat> { set k | 0 <= k < |items| :: items[k].index }

  predicate DistinctIndices(items: seq<Scored>) {
    forall a, b | 0 <= a < b < |items| :: items[a].index != items[b].index
  }

  lemma IndicesPush(items: seq<Scored>, x: Scored)
    ensures Indices(items + [x]) == Indices(items) + {x.index}
  {
    var longer := items + [x];
    forall i | i in Indices(items) + {x.index} ensures i in Indices(longer) {
      if i == x.index {
        assert longer[|items|].index == i;
      } else {
        var k :| 0 <= k < |items| && items[k].index == i;
        assert longer[k].index == i;
      }
    }
    forall i | i in Indices(longer) ensures i in Indices(items) + {x.index} {
      var k :| 0 <= k < |longer| && longer[k].index == i;
      assert k < |items| ==> items[k].index == i;
    }
  }

  lemma {:induction false} IndicesCount(items: seq<Scored>)
    requires DistinctIndices(items)
    ensures |Indices(items)| == |items|
  {
    if items != [] {
      var n := |items| - 1;
      IndicesCount(items[..n]);
      assert items == items[..n] + [items[n]];
      IndicesPush(items[..n], items[n]);
    }
  }

  lemma SameEntriesSameIndices(a: seq<Scored>, b: seq<Scored>)
    requires forall x :: x in a ==> x in b
    ensures Indices(a) <= Indices(b)
  {
    forall i | i in Indices(a) ensures i in Indices(b) {
      var k :| 0 <= k < |a| && a[k].index == i;
      assert a[k] in b;
    }
  }

  /** Sorting permutes the entries, so they stay distinct and are the same ones. */
  lemma SortKeepsEntries(items: seq<Scored>)
    requires DistinctIndices(items)
    ensures var sorted := Sort(items, ScoredLeq);
            |sorted| == |items| && DistinctIndices(sorted) && forall x :: x in sorted <==> x in items
  {
    var sorted := Sort(items, ScoredLeq);
    SortPermutes(items, ScoredLeq);
    forall a, b | 0 <= a < b < |sorted| ensures sorted[a].index != sorted[b].index {
      assert sorted[a] in items && sorted[b] in items;
    }
  }

  /** `ranks` numbers the entries of `sorted` from one upwards. */
  ghost predicate Numbers(ranks: map<nat, nat>, sorted: seq<Scored>) {
    && ranks.Keys == Indices(sorted)
    && forall k | 0 <= k < |sorted| :: sorted[k].index in ranks && ranks[sorted[k].index] == k + 1
  }

  lemma NumbersAreOrdered(scores: seq<real>, sorted: seq<Scored>, ranks: map<nat, nat>, i: nat, j: nat)
    requires Ordered(sorted, ScoredLeq) && Numbers(ranks, sorted) && i in ranks && j in ranks
    requires forall x | x in sorted :: x.index < |scores| && x.loss == -scores[x.index]
    ensures i < |scores| && j < |scores|
    ensures 1 <= ranks[i] <= |sorted|
    ensures ranks[i] < ranks[j] <==> Before(scores, i, j)
  {
    var a :| 0 <= a < |sorted| && sorted[a].index == i;
    var b :| 0 <= b < |sorted| && sorted[b].index == j;
    assert sorted[a] in sorted && sorted[b] in sorted;
    assert a < b ==> ScoredLeq(sorted[a], sorted[b]);
    assert b < a ==> ScoredLeq(sorted[b], sorted[a]);
  }

  lemma ScoredLeqIsTotal()
    ensures TotalOrder(ScoredLeq)
  {}

  lemma SortedNumbering(scores: seq<real>, minimum: real, sorted: seq<Scored>, ranks: map<nat, nat>)
    requires forall x | x in sorted :: x.index < |scores| && x.loss == -scores[x.index]
    requires Ordered(sorted, ScoredLeq) && DistinctIndices(sorted) && Numbers(ranks, sorted)
    requires Indices(sorted) == Listed(scores, minimum, |scores|)
    ensures IsRanking(scores, minimum, ranks)
  {
    IndicesCount(sorted);
    assert |ranks| == |ranks.Keys| == |sorted|;
    forall r: nat | 1 <= r <= |sorted| ensures RankGiven(ranks, r) {
      assert ranks[sorted[r - 1].index] == r;
    }
    forall i, j | i in ranks && j in ranks
      ensures i < |scores| && j < |scores| && 1 <= ranks[i] <= |sorted|
      ensures ranks[i] < ranks[j] <==> Before(scores, i, j)
    {
      NumbersAreOrdered(scores, sorted, ranks, i, j);
    }
  }

  /** Numbering the sorted entries is the ranking. */
  lemma NumberingIsRanking(scores: seq<real>, minimum: real, items: seq<Scored>, ranks: map<nat, nat>)
    requires forall x | x in items :: x.index < |scores| && x.loss == -scores[x.index]
    requires DistinctIndices(items) && Numbers(ranks, Sort(items, ScoredLeq))
    requires Indices(items) == Listed(scores, minimum, |scores|)
    ensures IsRanking(scores, minimum, ranks)
  {
    var sorted := Sort(items, ScoredLeq);
    SortKeepsEntries(items);
    ScoredLeqIsTotal();
    SortOrders(items, ScoredLeq);
    SameEntriesSameIndices(items, sorted);
    SameEntriesSameIndices(sorted, items);
    SortedNumbering(scores, minimum, sorted, ranks);
  }

  /** `_rank_dense`; and `_rank_lexical`, whose scores are token overlaps and whose minimum is one token. */
  method Rank(scores: seq<real>, minimum: real) returns (ranks: map<nat, nat>)
    ensures IsRanking(scores, minimum, ranks)
  {
    var scored: seq<Scored> := [];
    for index := 0 to |scores|
      invariant forall x | x in scored :: x.index < index && x.loss == -scores[x.index]
      invariant DistinctIndices(scored)
      invariant Indices(scored) == Listed(scores, minimum, index)
    {
      if scores[index] >= minimum {
        IndicesPush(scored, Scored(-scores[index], index));
        scored := scored + [Scored(-scores[index], index)];
      }
    }
    SortKeepsEntries(scored);
    ranks := Enumerate(Sort(scored, ScoredLeq));
    NumberingIsRanking(scores, minimum, scored, ranks);
  }

  method Enumerate(sorted: seq<Scored>) returns (ranks: map<nat, nat>)
    requires DistinctIndices(sorted)
    ensures Numbers(ranks, sorted)
  {
    ranks := map[];
    for rank := 0 to |sorted|
      invariant Numbers(ranks, sorted[..rank])
    {
      assert sorted[..rank + 1] == sorted[..rank] + [sorted[rank]];
      IndicesPush(sorted[..rank], sorted[rank]);
      ranks := ranks[sorted[rank].index := rank + 1];
    }
    assert sorted[..|sorted|] == sorted;
  }
}
