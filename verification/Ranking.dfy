/** Ranking of replay chunks, rank fusion, and retrieval from a bounded candidate pool. */
module Ranking {
  import opened Results
  import opened Rows

  // ---------------------------------------------------------------- ranks

  /** One entry of the list that is sorted: by score, then by tie breaker, then by position, as the
      sort is stable. */
  datatype Entry = Entry(score: real, tie: int, index: int)

  predicate Ahead(a: Entry, b: Entry) {
    || a.score > b.score
    || (a.score == b.score && a.tie > b.tie)
    || (a.score == b.score && a.tie == b.tie && a.index < b.index)
  }

  /** `stable_ids or reversed(range(n))`, of which the first n are read. */
  function TieBreakers(stableIds: Option<seq<int>>, n: nat): (ties: seq<int>)
    requires stableIds.Some? ==> stableIds.value == [] || |stableIds.value| >= n
    ensures |ties| == n
    ensures stableIds.Some? && |stableIds.value| == n ==> ties == stableIds.value
  {
    if stableIds.Some? && stableIds.value != [] then stableIds.value[..n]
    else seq(n, i requires 0 <= i < n => n - 1 - i)
  }

  function Entries(scores: seq<real>, ties: seq<int>): (es: seq<Entry>)
    requires |scores| == |ties|
    ensures |es| == |scores| && forall i :: 0 <= i < |es| ==> es[i] == Entry(scores[i], ties[i], i)
  {
    seq(|scores|, i requires 0 <= i < |scores| => Entry(scores[i], ties[i], i))
  }

  /** Ranks 1..n, each taken, in the order of the entries. */
  ghost predicate IsRanking(ranks: seq<int>, scores: seq<real>, ties: seq<int>) {
    && |ranks| == |scores| == |ties|
    && (forall i :: 0 <= i < |ranks| ==> 1 <= ranks[i] <= |ranks|)
    && (forall r :: 1 <= r <= |ranks| ==> r in ranks)
    && (forall i, j :: 0 <= i < |ranks| && 0 <= j < |ranks| ==>
          (ranks[i] < ranks[j] <==> Ahead(Entry(scores[i], ties[i], i), Entry(scores[j], ties[j], j))))
  }

  lemma SortedEntries(scores: seq<real>, ties: seq<int>)
    requires |scores| == |ties|
    ensures var order := Sort(Ahead, Entries(scores, ties)); Sorted(Ahead, order) && |order| == |scores|
    ensures forall e :: e in Sort(Ahead, Entries(scores, ties)) <==> e in Entries(scores, ties)
  {
    assert StrictOrder(Ahead);
    var es := Entries(scores, ties);
    assert Separates(Ahead, es);
    SortSorts(Ahead, es);
  }

  /** score_ranks. */
  method ScoreRanks(scores: seq<real>, stableIds: Option<seq<int>>) returns (ranks: array<int>)
    requires stableIds.Some? ==> stableIds.value == [] || |stableIds.value| >= |scores|
    ensures fresh(ranks) && IsRanking(ranks[..], scores, TieBreakers(stableIds, |scores|))
  {
    hide Sort, Sorted, Ahead, IsRanking, TieBreakers;
    var ties := TieBreakers(stableIds, |scores|);
    var ordered := Sort(Ahead, Entries(scores, ties));
    SortedEntries(scores, ties);
    ranks := new int[|scores|](_ => 0);
    IndexesDistinct(scores, ties, ordered);
    var k := 0;
    while k < |ordered|
      invariant 0 <= k <= |ordered|
      invariant forall j :: 0 <= j < k ==> ranks[ordered[j].index] == j + 1
    {
      ranks[ordered[k].index] := k + 1;
      k := k + 1;
    }
    PositionsRank(scores, ties, ordered, ranks[..]);
  }

  lemma IndexesDistinct(scores: seq<real>, ties: seq<int>, ordered: seq<Entry>)
    requires |scores| == |ties| && Sorted(Ahead, ordered)
    requires forall e :: e in ordered ==> e in Entries(scores, ties)
    ensures forall k :: 0 <= k < |ordered| ==> 0 <= ordered[k].index < |scores|
    ensures forall j, k :: 0 <= j < k < |ordered| ==> ordered[j].index != ordered[k].index
  {
    forall k | 0 <= k < |ordered|
      ensures 0 <= ordered[k].index < |scores| && ordered[k] == Entries(scores, ties)[ordered[k].index]
    {
      assert ordered[k] in ordered;
    }
  }

  /** Positions in the sorted list, counted from one, are the ranking. */
  lemma PositionsRank(scores: seq<real>, ties: seq<int>, ordered: seq<Entry>, ranks: seq<int>)
    requires |scores| == |ties| == |ranks| == |ordered| && Sorted(Ahead, ordered)
    requires forall e :: e in ordered <==> e in Entries(scores, ties)
    requires forall k :: 0 <= k < |ordered| ==> 0 <= ordered[k].index < |ranks| && ranks[ordered[k].index] == k + 1
    ensures IsRanking(ranks, scores, ties)
  {
    var es := Entries(scores, ties);
    forall i | 0 <= i < |ranks| ensures 1 <= ranks[i] <= |ranks| && ordered[ranks[i] - 1] == es[i] {
      assert es[i] in ordered;
    }
    forall r | 1 <= r <= |ranks| ensures r in ranks {
      assert ranks[ordered[r - 1].index] == r;
    }
    forall i, j | 0 <= i < |ranks| && 0 <= j < |ranks| ensures ranks[i] < ranks[j] <==> Ahead(es[i], es[j]) {
      SortedIff(ordered, ranks[i] - 1, ranks[j] - 1);
    }
  }

  lemma SortedIff(ordered: seq<Entry>, a: nat, b: nat)
    requires Sorted(Ahead, ordered) && a < |ordered| && b < |ordered|
    ensures a < b <==> Ahead(ordered[a], ordered[b])
  {
  }

  /** No two chunks share a rank. */
  lemma RanksDiffer(ranks: seq<int>, scores: seq<real>, ties: seq<int>, i: nat, j: nat)
    requires IsRanking(ranks, scores, ties) && i < |ranks| && j < |ranks| && i != j
    ensures ranks[i] != ranks[j]
  {
    assert Ahead(Entry(scores[i], ties[i], i), Entry(scores[j], ties[j], j))
        || Ahead(Entry(scores[j], ties[j], j), Entry(scores[i], ties[i], i));
  }

  /** Better scores come first; equal scores go by their tie breakers, the greater first, or without any by position. */
  lemma RankOrder(ranks: seq<int>, scores: seq<real>, stableIds: Option<seq<int>>, i: nat, j: nat)
    requires stableIds.Some? ==> stableIds.value == [] || |stableIds.value| >= |scores|
    requires IsRanking(ranks, scores, TieBreakers(stableIds, |scores|)) && i < j < |scores|
    ensures scores[i] > scores[j] ==> ranks[i] < ranks[j]
    ensures scores[i] < scores[j] ==> ranks[i] > ranks[j]
    ensures scores[i] == scores[j] ==>
              if stableIds.Some? && stableIds.value != [] && stableIds.value[i] < stableIds.value[j] then ranks[i] > ranks[j]
              else ranks[i] < ranks[j]
  {
  }

  // ---------------------------------------------------------------- fusion

  const RANK_CONSTANT := 60

  function Fused(lexicalRank: int, embeddingRank: int): real
    requires lexicalRank >= 1 && embeddingRank >= 1
  {
    (1.0 / (RANK_CONSTANT + lexicalRank) as real + 1.0 / (RANK_CONSTANT + embeddingRank) as real)
    / (2.0 / (RANK_CONSTANT + 1) as real)
  }

  /** Each rank counts 61/2 over 60 more than itself. */
  lemma FusedIs(lexicalRank: int, embeddingRank: int)
    requires lexicalRank >= 1 && embeddingRank >= 1
    ensures 2.0 * Fused(lexicalRank, embeddingRank)
            == 61.0 / (60 + lexicalRank) as real + 61.0 / (60 + embeddingRank) as real
  {
    var a, b := (60 + lexicalRank) as real, (60 + embeddingRank) as real;
    assert 61.0 / a == 61.0 * (1.0 / a) && 61.0 / b == 61.0 * (1.0 / b);
  }

  predicate Ranks(ranks: seq<int>) {
    forall i :: 0 <= i < |ranks| ==> ranks[i] >= 1
  }

  /** reciprocal_rank_fusion: zip(strict=True) raises on lists of different length. */
  function ReciprocalRankFusion(lexicalRanks: seq<int>, embeddingRanks: seq<int>): (r: Result<seq<real>, string>)
    requires Ranks(lexicalRanks) && Ranks(embeddingRanks)
    ensures r.Ok? <==> |lexicalRanks| == |embeddingRanks|
    ensures r.Ok? ==> |r.value| == |lexicalRanks| &&
                      forall i :: 0 <= i < |r.value| ==> r.value[i] == Fused(lexicalRanks[i], embeddingRanks[i])
  {
    if |lexicalRanks| != |embeddingRanks| then Err("zip() arguments have different lengths")
    else Ok(seq(|lexicalRanks|, i requires 0 <= i < |lexicalRanks| => Fused(lexicalRanks[i], embeddingRanks[i])))
  }

  lemma TimesMonotone(x: real, y: real, z: real)
    requires x <= y && z > 0.0
    ensures x * z <= y * z && (x < y ==> x * z < y * z)
  {
  }

  lemma ReciprocalOrder(a: real, b: real)
    requires 0.0 < a <= b
    ensures 0.0 < 1.0 / b <= 1.0 / a
    ensures a < b ==> 1.0 / b < 1.0 / a
  {
    var x, y := 1.0 / a, 1.0 / b;
    assert x * a == 1.0 && y * b == 1.0;
    TimesMonotone(a, b, y);
    if x <= y {
      TimesMonotone(x, y, a);
      assert a * y == y * a && b * y == y * b;
    }
  }

  lemma ReciprocalFalls(a: int, b: int)
    requires 0 < a <= b
    ensures 0.0 < 1.0 / b as real <= 1.0 / a as real
    ensures a < b ==> 1.0 / b as real < 1.0 / a as real
  {
    ReciprocalOrder(a as real, b as real);
  }

  /** A better rank in one list, and none worse in the other, gives a better fused score. */
  lemma FusedFalls(a: int, b: int, a': int, b': int)
    requires 1 <= a <= a' && 1 <= b <= b'
    ensures Fused(a', b') <= Fused(a, b)
    ensures a < a' || b < b' ==> Fused(a', b') < Fused(a, b)
  {
    ReciprocalFalls(RANK_CONSTANT + a, RANK_CONSTANT + a');
    ReciprocalFalls(RANK_CONSTANT + b, RANK_CONSTANT + b');
    var best := 2.0 / (RANK_CONSTANT + 1) as real;
    var p := 1.0 / (RANK_CONSTANT + a) as real + 1.0 / (RANK_CONSTANT + b) as real;
    var q := 1.0 / (RANK_CONSTANT + a') as real + 1.0 / (RANK_CONSTANT + b') as real;
    DividedOrder(p, q, best);
  }

  lemma DividedOrder(p: real, q: real, d: real)
    requires d > 0.0 && q <= p
    ensures q / d <= p / d && (q < p ==> q / d < p / d)
  {
    var x, y := p / d, q / d;
    assert x * d == p && y * d == q;
  }

  /** Fused scores lie in (0, 1], and reach 1 only for rank 1 in both lists. */
  lemma FusedRange(a: int, b: int)
    requires a >= 1 && b >= 1
    ensures 0.0 < Fused(a, b) <= 1.0
    ensures Fused(a, b) == 1.0 <==> a == 1 && b == 1
  {
    FusedFalls(1, 1, a, b);
    BestFused();
    ReciprocalFalls(1, RANK_CONSTANT + a);
    ReciprocalFalls(1, RANK_CONSTANT + b);
    var sum := 1.0 / (RANK_CONSTANT + a) as real + 1.0 / (RANK_CONSTANT + b) as real;
    DividedOrder(sum, 0.0, 2.0 / (RANK_CONSTANT + 1) as real);
  }

  lemma BestFused()
    ensures Fused(1, 1) == 1.0
  {
  }

  /** A chunk ahead of another in both rankings is ahead of it in the hybrid ranking. */
  lemma HybridDominance(lexical: seq<int>, embedding: seq<int>, hybrid: seq<int>, ties: seq<int>, i: nat, j: nat)
    requires |lexical| == |embedding| && i < |lexical| && j < |lexical| && Ranks(lexical) && Ranks(embedding)
    requires IsRanking(hybrid, ReciprocalRankFusion(lexical, embedding).value, ties)
    requires lexical[i] < lexical[j] && embedding[i] < embedding[j]
    ensures hybrid[i] < hybrid[j]
  {
    FusedFalls(lexical[i], embedding[i], lexical[j], embedding[j]);
  }
}
