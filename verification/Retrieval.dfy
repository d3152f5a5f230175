/** Retrieval of replay chunks: a bounded candidate pool, cut down to the best ranked. */
module Retrieval {
  import opened Results
  import opened Rows
  import opened Ranking
  import opened Terms

  datatype Mode = Lexical | Embedding | Hybrid

  datatype Chunk = Chunk(messageId: Option<int>, content: string)

  /** A retrieved chunk, by its place in the replay. */
  datatype Candidate = Candidate(index: nat, score: real, rank: int)

  predicate ByRank(a: Candidate, b: Candidate) {
    a.rank < b.rank
  }

  /** `replay_message_id(chunk) or -1` */
  function StableIds(chunks: seq<Chunk>): (ids: seq<int>)
    ensures |ids| == |chunks|
  {
    seq(|chunks|, i requires 0 <= i < |chunks| =>
      if chunks[i].messageId.Some? && chunks[i].messageId.value != 0 then chunks[i].messageId.value else -1)
  }

  /** What the query covers in each chunk. */
  function LexicalScores(chunks: seq<Chunk>, query: string): (scores: seq<real>)
    ensures |scores| == |chunks|
  {
    seq(|chunks|, i requires 0 <= i < |chunks| => LexicalScore(LexicalTerms(query), chunks[i].content))
  }

  function Active<T>(mode: Mode, lexical: T, embedding: T, hybrid: T): T {
    match mode case Lexical => lexical case Embedding => embedding case Hybrid => hybrid
  }

  /** _candidate_pool_indexes, as a set. */
  predicate InPool(mode: Mode, lexical: seq<int>, embedding: seq<int>, poolSize: nat, i: nat)
    requires i < |lexical| == |embedding|
  {
    match mode
    case Lexical => lexical[i] <= poolSize
    case Embedding => embedding[i] <= poolSize
    case Hybrid => lexical[i] <= poolSize || embedding[i] <= poolSize
  }

  function Pool(mode: Mode, lexical: seq<int>, embedding: seq<int>, poolSize: nat): set<nat>
    requires |lexical| == |embedding|
  {
    set i: nat | i < |lexical| && InPool(mode, lexical, embedding, poolSize, i)
  }

  /** Lexical retrieval drops chunks that share no term with the query. */
  function Scoring(mode: Mode, scores: seq<real>): set<nat> {
    set i: nat | i < |scores| && (mode.Lexical? ==> scores[i] > 0.0)
  }

  /** The eligible chunks of best rank, in rank order, `limit` of them if there are as many. */
  ghost predicate TopOf(result: seq<Candidate>, ranks: seq<int>, eligible: set<nat>, limit: nat) {
    && (forall i :: i in eligible ==> i < |ranks|)
    && (forall c :: c in result ==> c.index in eligible && c.rank == ranks[c.index])
    && (forall a, b :: 0 <= a < b < |result| ==> result[a].rank < result[b].rank)
    && |result| <= limit
    && (forall i :: i in eligible ==> Chosen(result, i) || (|result| == limit && Beats(result, ranks[i])))
  }

  ghost predicate Chosen(result: seq<Candidate>, i: nat) {
    exists c :: c in result && c.index == i
  }

  ghost predicate Beats(result: seq<Candidate>, rank: int) {
    forall c :: c in result ==> c.rank < rank
  }

  /** The list before it is sorted and cut. */
  ghost predicate Lists(scored: seq<Candidate>, ranks: seq<int>, eligible: set<nat>) {
    && (forall i :: i in eligible ==> i < |ranks|)
    && (forall c :: c in scored ==> c.index in eligible && c.rank == ranks[c.index])
    && (forall i :: i in eligible ==> Chosen(scored, i))
    && (forall a, b :: 0 <= a < b < |scored| ==> scored[a].rank != scored[b].rank)
  }

  lemma CutSorted(sorted: seq<Candidate>, ranks: seq<int>, eligible: set<nat>, limit: nat)
    requires Lists(sorted, ranks, eligible) && Sorted(ByRank, sorted)
    ensures TopOf(Limit(sorted, limit), ranks, eligible, limit)
  {
    var result := Limit(sorted, limit);
    forall i | i in eligible ensures Chosen(result, i) || (|result| == limit && Beats(result, ranks[i])) {
      var c :| c in sorted && c.index == i;
      var k :| 0 <= k < |sorted| && sorted[k] == c;
      if k < |result| {
        assert result[k] == c;
      }
    }
  }

  lemma SortKeepsList(scored: seq<Candidate>, ranks: seq<int>, eligible: set<nat>)
    requires Lists(scored, ranks, eligible)
    ensures Lists(Sort(ByRank, scored), ranks, eligible) && Sorted(ByRank, Sort(ByRank, scored))
  {
    hide Sort;
    assert Separates(ByRank, scored);
    SortSorts(ByRank, scored);
    var sorted := Sort(ByRank, scored);
    forall i | i in eligible ensures Chosen(sorted, i) {
      var c :| c in scored && c.index == i;
      assert c in sorted;
    }
  }

  lemma CutIsTop(scored: seq<Candidate>, ranks: seq<int>, eligible: set<nat>, limit: nat)
    requires Lists(scored, ranks, eligible)
    ensures TopOf(Limit(Sort(ByRank, scored), limit), ranks, eligible, limit)
  {
    hide *;
    SortKeepsList(scored, ranks, eligible);
    CutSorted(Sort(ByRank, scored), ranks, eligible, limit);
  }

  /** `min(plan.limit or top_k, top_k)`, at least one. */
  function Cut(limit: Option<int>, topK: nat): (n: nat)
    requires topK > 0
    ensures 1 <= n <= topK
  {
    var wanted := if limit.Some? && limit.value != 0 then limit.value else topK;
    var least := if wanted < topK then wanted else topK;
    if least < 1 then 1 else least
  }

  class RawReplayRetriever {
    const chunks: seq<Chunk>
    const topK: nat
    const mode: Mode
    const hasBackend: bool
    const poolSize: nat
    var lastRankings: map<int, (int, int, int)>
    var lastCandidatePoolIds: set<int>

    ghost predicate Valid() {
      0 < topK <= poolSize && (mode.Lexical? || hasBackend)
    }

    constructor (chunks: seq<Chunk>, topK: int, mode: Mode, hasBackend: bool, poolSize: int)
      requires mode.Lexical? || hasBackend
      ensures Valid() && this.chunks == chunks && this.mode == mode && this.hasBackend == hasBackend
      ensures this.topK == (if topK < 1 then 1 else topK)
      ensures this.poolSize == (if poolSize < this.topK then this.topK else poolSize)
    {
      this.chunks, this.mode, this.hasBackend := chunks, mode, hasBackend;
      var k: nat := if topK < 1 then 1 else topK;
      this.topK := k;
      this.poolSize := if poolSize < k then k else poolSize;
      lastRankings, lastCandidatePoolIds := map[], {};
    }

    /** The indexes that belong to the pool, in replay order. */
    method MembersOfPool(lexical: seq<int>, embedding: seq<int>) returns (pool: seq<nat>)
      requires |lexical| == |embedding|
      ensures forall i :: i in pool <==> i in Pool(mode, lexical, embedding, poolSize)
      ensures forall a, b :: 0 <= a < b < |pool| ==> pool[a] < pool[b]
    {
      pool := [];
      for i := 0 to |lexical|
        invariant forall j :: j in pool <==> 0 <= j < i && InPool(mode, lexical, embedding, poolSize, j)
        invariant forall a, b :: 0 <= a < b < |pool| ==> pool[a] < pool[b]
      {
        if InPool(mode, lexical, embedding, poolSize, i) {
          forall a | 0 <= a < |pool| ensures pool[a] < i {
            assert pool[a] in pool;
          }
          pool := pool + [i];
        }
      }
    }

    /** _candidate_pool_indexes: by active rank in the hybrid mode, in replay order otherwise. */
    method PoolIndexes(lexical: seq<int>, embedding: seq<int>, active: seq<int>) returns (pool: seq<nat>)
      requires |lexical| == |embedding| == |active|
      requires forall i, j :: 0 <= i < j < |active| ==> active[i] != active[j]
      ensures forall i :: i in pool <==> i in Pool(mode, lexical, embedding, poolSize)
      ensures forall a, b :: 0 <= a < b < |pool| ==> pool[a] != pool[b]
      ensures !mode.Hybrid? ==> forall a, b :: 0 <= a < b < |pool| ==> pool[a] < pool[b]
      ensures mode.Hybrid? ==> RanksRise(pool, active)
    {
      hide InPool, Sort, WithRanks;
      pool := MembersOfPool(lexical, embedding);
      PoolInRange(mode, lexical, embedding, poolSize);
      if mode.Hybrid? {
        var members := pool;
        forall k | 0 <= k < |members| ensures members[k] < |active| {
          assert members[k] in members;
        }
        var ranked := WithRanks(members, active);
        var sorted := Sort(ByRank, ranked);
        SortedMembers(members, active, ranked, sorted);
        pool := seq(|sorted|, k requires 0 <= k < |sorted| => sorted[k].index);
        SameMembers(members, active, sorted, pool);
      }
    }

    method Score(pool: seq<nat>, scores: seq<real>, lexicalScores: seq<real>, ranks: seq<int>)
        returns (scored: seq<Candidate>)
      requires |scores| == |ranks| == |lexicalScores| && (mode.Lexical? ==> scores == lexicalScores)
      requires forall i :: i in pool ==> i < |ranks|
      requires forall a, b :: 0 <= a < b < |pool| ==> pool[a] != pool[b]
      requires forall i, j :: 0 <= i < j < |ranks| ==> ranks[i] != ranks[j]
      ensures Lists(scored, ranks, SetOf(pool) * Scoring(mode, lexicalScores))
      ensures ScoredBy(scored, scores)
    {
      hide Chosen;
      scored := [];
      for k := 0 to |pool|
        invariant forall c :: c in scored ==> c.index in pool[..k] && c.index in Scoring(mode, lexicalScores) &&
                                              c.rank == ranks[c.index] && c.score == scores[c.index]
        invariant forall i :: i in pool[..k] && i in Scoring(mode, lexicalScores) ==> Chosen(scored, i)
        invariant forall a, b :: 0 <= a < b < |scored| ==> scored[a].index != scored[b].index
      {
        var index := pool[k];
        assert index in pool && pool[..k + 1] == pool[..k] + [index];
        if !(mode.Lexical? && scores[index] <= 0.0) {
          var candidate := Candidate(index, scores[index], ranks[index]);
          MoreChosen(scored, candidate);
          forall a | 0 <= a < |scored| ensures scored[a].index != index {
            assert scored[a] in scored;
          }
          scored := scored + [candidate];
        }
      }
      assert pool[..|pool|] == pool;
      forall a, b | 0 <= a < b < |scored| ensures scored[a].rank != scored[b].rank {
        assert scored[a] in scored && scored[b] in scored;
      }
    }

    method RecordRankings(lexical: seq<int>, embedding: seq<int>, hybrid: seq<int>, pool: seq<nat>)
      requires |chunks| == |lexical| == |embedding| == |hybrid| && forall i :: i in pool ==> i < |chunks|
      modifies this
      ensures lastCandidatePoolIds == IdsOf(chunks, SetOf(pool))
      ensures lastRankings.Keys == IdsBelow(chunks, |chunks|)
      ensures Diagnosed(chunks, lastRankings, lexical, embedding, hybrid)
    {
      hide IdsOf, IdsBelow;
      lastCandidatePoolIds := IdsOf(chunks, SetOf(pool));
      lastRankings := map[];
      NoIdsYet(chunks);
      for i := 0 to |chunks|
        invariant lastRankings.Keys == IdsBelow(chunks, i)
        invariant lastCandidatePoolIds == IdsOf(chunks, SetOf(pool))
        invariant forall j :: 0 <= j < i && chunks[j].messageId.Some? && LastOfItsId(chunks[..i], j) ==>
                    Records(lastRankings, chunks[j].messageId.value, (lexical[j], embedding[j], hybrid[j]))
      {
        var id := chunks[i].messageId;
        ghost var before := lastRankings;
        if id.Some? {
          lastRankings := lastRankings[id.value := (lexical[i], embedding[i], hybrid[i])];
        }
        IdsBelowNext(chunks, i);
        forall j | 0 <= j <= i && chunks[j].messageId.Some? && LastOfItsId(chunks[..i + 1], j)
          ensures Records(lastRankings, chunks[j].messageId.value, (lexical[j], embedding[j], hybrid[j]))
        {
          if j < i {
            assert chunks[..i + 1][i].messageId != chunks[..i + 1][j].messageId;
            LastBefore(chunks, i, j);
            assert Records(before, chunks[j].messageId.value, (lexical[j], embedding[j], hybrid[j]));
          }
        }
      }
      assert chunks[..|chunks|] == chunks;
    }

    /** retrieve: `similarities` is what the embedding backend makes of the query and the chunks. */
    method Retrieve(query: string, similarities: seq<real>, limit: Option<int>)
        returns (r: Result<seq<Candidate>, string>, ghost lexical: seq<int>, ghost embedding: seq<int>,
                 ghost hybrid: seq<int>)
      requires Valid()
      modifies this
      ensures mode.Lexical? && LexicalTerms(query) == {} ==> r == Ok([])
      ensures r.Err? <==> !(mode.Lexical? && LexicalTerms(query) == {}) && hasBackend && |similarities| != |chunks|
      ensures r.Err? || (mode.Lexical? && LexicalTerms(query) == {}) ==>
                lastRankings == old(lastRankings) && lastCandidatePoolIds == old(lastCandidatePoolIds)
      ensures r.Ok? && !(mode.Lexical? && LexicalTerms(query) == {}) ==>
                && Ranked(chunks, LexicalScores(chunks, query), if hasBackend then similarities else Zeros(|chunks|), lexical,
                          embedding, hybrid)
                && lastCandidatePoolIds == IdsOf(chunks, Pool(mode, lexical, embedding, poolSize))
                && lastRankings.Keys == IdsBelow(chunks, |chunks|)
                && Diagnosed(chunks, lastRankings, lexical, embedding, hybrid)
      ensures r.Ok? && !(mode.Lexical? && LexicalTerms(query) == {}) ==>
                var eligible := Pool(mode, lexical, embedding, poolSize) * Scoring(mode, LexicalScores(chunks, query));
                match mode
                case Lexical => TopOf(r.value, lexical, eligible, Cut(limit, topK)) && ScoredBy(r.value, LexicalScores(chunks, query))
                case Embedding => TopOf(r.value, embedding, eligible, Cut(limit, topK)) && ScoredBy(r.value, similarities)
                case Hybrid =>
                  TopOf(r.value, hybrid, eligible, Cut(limit, topK)) &&
                  ScoredBy(r.value, ReciprocalRankFusion(lexical, embedding).value)
    {
      hide ScoredBy, Diagnosed, IsRanking, Ranks, ReciprocalRankFusion, Pool, Scoring, TopOf, Lists, Ranked, Active,
           Zeros, StableIds, IdsOf, IdsBelow, Sort, Limit, Cut, TieBreakers, LexicalTerms, LexicalScore;
      lexical, embedding, hybrid := [], [], [];
      var terms := LexicalTerms(query);
      if mode.Lexical? && terms == {} {
        return Ok([]), [], [], [];
      }
      if hasBackend && |similarities| != |chunks| {
        return Err("embedding backend returned an unexpected vector count"), [], [], [];
      }
      var lexicalScores := seq(|chunks|, i requires 0 <= i < |chunks| => LexicalScore(terms, chunks[i].content));
      assert lexicalScores == LexicalScores(chunks, query);
      var embeddingScores := if hasBackend then similarities else Zeros(|chunks|);
      var stableIds := StableIds(chunks);
      var lexicalRanks := ScoreRanks(lexicalScores, Some(stableIds));
      var embeddingRanks := ScoreRanks(embeddingScores, Some(stableIds));
      RankingsArePositive(lexicalRanks[..], lexicalScores, stableIds);
      RankingsArePositive(embeddingRanks[..], embeddingScores, stableIds);
      var hybridScores := ReciprocalRankFusion(lexicalRanks[..], embeddingRanks[..]).value;
      var hybridRanks := ScoreRanks(hybridScores, Some(stableIds));
      RankingsArePositive(hybridRanks[..], hybridScores, stableIds);
      lexical, embedding, hybrid := lexicalRanks[..], embeddingRanks[..], hybridRanks[..];
      RankedNow(chunks, lexicalScores, embeddingScores, lexical, embedding, hybrid);

      var activeScores := Active(mode, lexicalScores, embeddingScores, hybridScores);
      var activeRanks := Active(mode, lexicalRanks[..], embeddingRanks[..], hybridRanks[..]);
      ActiveIsOne(mode, lexicalScores, embeddingScores, hybridScores);
      ActiveIsOne(mode, lexical, embedding, hybrid);
      var pool := PoolIndexes(lexicalRanks[..], embeddingRanks[..], activeRanks);
      PoolInRange(mode, lexical, embedding, poolSize);
      assert SetOf(pool) == Pool(mode, lexical, embedding, poolSize);
      RecordRankings(lexicalRanks[..], embeddingRanks[..], hybridRanks[..], pool);
      var scored := Score(pool, activeScores, lexicalScores, activeRanks);
      CutIsTop(scored, activeRanks, Pool(mode, lexical, embedding, poolSize) * Scoring(mode, lexicalScores),
               Cut(limit, topK));
      CutKeepsScores(scored, activeScores, Cut(limit, topK));
      r := Ok(Limit(Sort(ByRank, scored), Cut(limit, topK)));
    }
  }

  ghost predicate RanksRise(pool: seq<nat>, active: seq<int>) {
    && (forall k :: 0 <= k < |pool| ==> pool[k] < |active|)
    && forall a, b :: 0 <= a < b < |pool| ==> active[pool[a]] < active[pool[b]]
  }

  function WithRanks(members: seq<nat>, active: seq<int>): (ranked: seq<Candidate>)
    requires forall k :: 0 <= k < |members| ==> members[k] < |active|
    ensures |ranked| == |members|
    ensures forall k :: 0 <= k < |members| ==> ranked[k] == Candidate(members[k], 0.0, active[members[k]])
  {
    if members == [] then []
    else [Candidate(members[0], 0.0, active[members[0]])] + WithRanks(members[1..], active)
  }

  predicate IsRanked(c: Candidate, members: seq<nat>, active: seq<int>) {
    c.index in members && c.index < |active| && c == Candidate(c.index, 0.0, active[c.index])
  }

  lemma SortedMembers(members: seq<nat>, active: seq<int>, ranked: seq<Candidate>, sorted: seq<Candidate>)
    requires forall k :: 0 <= k < |members| ==> members[k] < |active|
    requires forall a, b :: 0 <= a < b < |members| ==> members[a] < members[b]
    requires forall i, j :: 0 <= i < j < |active| ==> active[i] != active[j]
    requires ranked == WithRanks(members, active) && sorted == Sort(ByRank, ranked)
    ensures Sorted(ByRank, sorted)
    ensures forall c :: c in sorted <==> IsRanked(c, members, active)
  {
    hide Sort, WithRanks;
    assert Separates(ByRank, ranked);
    SortSorts(ByRank, ranked);
    forall c ensures c in ranked <==> IsRanked(c, members, active) {
      if c.index in members {
        var k :| 0 <= k < |members| && members[k] == c.index;
        assert ranked[k] in ranked;
      }
    }
  }

  lemma SameMembers(members: seq<nat>, active: seq<int>, sorted: seq<Candidate>, pool: seq<nat>)
    requires Sorted(ByRank, sorted) && |pool| == |sorted| && forall k :: 0 <= k < |pool| ==> pool[k] == sorted[k].index
    requires forall i :: i in members ==> i < |active|
    requires forall c :: c in sorted <==> IsRanked(c, members, active)
    ensures RanksRise(pool, active) && forall i :: i in pool <==> i in members
    ensures forall a, b :: 0 <= a < b < |pool| ==> pool[a] != pool[b]
  {
    forall k | 0 <= k < |pool| ensures pool[k] in members && sorted[k].rank == active[pool[k]] {
      assert sorted[k] in sorted;
    }
    forall i | i in members ensures i in pool {
      var c := Candidate(i, 0.0, active[i]);
      assert c in sorted;
      var k :| 0 <= k < |sorted| && sorted[k] == c;
      assert pool[k] == i;
    }
  }

  function Zeros(n: nat): (z: seq<real>)
    ensures |z| == n && forall i :: 0 <= i < n ==> z[i] == 0.0
  {
    seq(n, _ => 0.0)
  }

  ghost predicate LastOfItsId(chunks: seq<Chunk>, i: nat)
    requires i < |chunks|
  {
    forall k :: i < k < |chunks| ==> chunks[k].messageId != chunks[i].messageId
  }

  function IdsOf(chunks: seq<Chunk>, indexes: set<nat>): set<int> {
    set i | i in indexes && i < |chunks| && chunks[i].messageId.Some? :: chunks[i].messageId.value
  }

  function IdsBelow(chunks: seq<Chunk>, n: nat): set<int>
    requires n <= |chunks|
  {
    set i | 0 <= i < n && chunks[i].messageId.Some? :: chunks[i].messageId.value
  }

  function SetOf(indexes: seq<nat>): set<nat> {
    set i | i in indexes
  }

  lemma IdsBelowNext(chunks: seq<Chunk>, i: nat)
    requires i < |chunks|
    ensures IdsBelow(chunks, i + 1)
            == IdsBelow(chunks, i) + if chunks[i].messageId.Some? then {chunks[i].messageId.value} else {}
  {
  }

  predicate Records<K, V(==)>(rankings: map<K, V>, key: K, value: V) {
    key in rankings && rankings[key] == value
  }

  /** The diagnostics give the ranks of the last chunk that carries an id. */
  ghost predicate Diagnosed(chunks: seq<Chunk>, rankings: map<int, (int, int, int)>, lexical: seq<int>, embedding: seq<int>,
                            hybrid: seq<int>)
  {
    && |chunks| == |lexical| == |embedding| == |hybrid|
    && forall i :: 0 <= i < |chunks| && chunks[i].messageId.Some? && LastOfItsId(chunks, i) ==>
         Records(rankings, chunks[i].messageId.value, (lexical[i], embedding[i], hybrid[i]))
  }

  ghost predicate ScoredBy(result: seq<Candidate>, scores: seq<real>) {
    forall c :: c in result ==> c.index < |scores| && c.score == scores[c.index]
  }

  lemma CutKeepsScores(scored: seq<Candidate>, scores: seq<real>, limit: nat)
    requires ScoredBy(scored, scores)
    ensures ScoredBy(Limit(Sort(ByRank, scored), limit), scores)
  {
    hide Sort;
    var sorted := Sort(ByRank, scored);
    forall c | c in Limit(sorted, limit) ensures c in scored {
      assert c in sorted;
    }
  }

  lemma LastBefore(chunks: seq<Chunk>, i: nat, j: nat)
    requires j < i < |chunks| && LastOfItsId(chunks[..i + 1], j)
    ensures LastOfItsId(chunks[..i], j)
  {
    forall k | j < k < i ensures chunks[..i][k].messageId != chunks[..i][j].messageId {
      assert chunks[..i + 1][k] == chunks[..i][k] && chunks[..i + 1][j] == chunks[..i][j];
    }
  }

  lemma NoIdsYet(chunks: seq<Chunk>)
    ensures IdsBelow(chunks, 0) == {}
  {
  }

  lemma MoreChosen(scored: seq<Candidate>, c: Candidate)
    ensures Chosen(scored + [c], c.index)
    ensures forall i :: Chosen(scored, i) ==> Chosen(scored + [c], i)
  {
    assert (scored + [c])[|scored|] == c;
    forall i | Chosen(scored, i) ensures Chosen(scored + [c], i) {
      var d :| d in scored && d.index == i;
      assert d in scored + [c];
    }
  }

  /** The three rankings of a retrieval. */
  ghost predicate Ranked(chunks: seq<Chunk>, lexicalScores: seq<real>, embeddingScores: seq<real>, lexical: seq<int>,
                         embedding: seq<int>, hybrid: seq<int>)
  {
    && IsRanking(lexical, lexicalScores, StableIds(chunks))
    && IsRanking(embedding, embeddingScores, StableIds(chunks))
    && Ranks(lexical) && Ranks(embedding)
    && ReciprocalRankFusion(lexical, embedding).Ok?
    && IsRanking(hybrid, ReciprocalRankFusion(lexical, embedding).value, StableIds(chunks))
  }

  lemma RankedNow(chunks: seq<Chunk>, lexicalScores: seq<real>, embeddingScores: seq<real>, lexical: seq<int>,
                  embedding: seq<int>, hybrid: seq<int>)
    requires IsRanking(lexical, lexicalScores, StableIds(chunks)) && IsRanking(embedding, embeddingScores, StableIds(chunks))
    requires Ranks(lexical) && Ranks(embedding) && ReciprocalRankFusion(lexical, embedding).Ok?
    requires IsRanking(hybrid, ReciprocalRankFusion(lexical, embedding).value, StableIds(chunks))
    ensures Ranked(chunks, lexicalScores, embeddingScores, lexical, embedding, hybrid)
  {
    hide IsRanking, Ranks, ReciprocalRankFusion;
  }

  lemma RankingsArePositive(ranks: seq<int>, scores: seq<real>, ties: seq<int>)
    requires IsRanking(ranks, scores, ties)
    ensures Ranks(ranks) && |ranks| == |scores| == |ties|
    ensures forall i, j :: 0 <= i < j < |ranks| ==> ranks[i] != ranks[j]
  {
    forall i, j | 0 <= i < j < |ranks| ensures ranks[i] != ranks[j] {
      RanksDiffer(ranks, scores, ties, i, j);
    }
  }

  lemma ActiveIsOne<T>(mode: Mode, lexical: T, embedding: T, hybrid: T)
    ensures mode.Lexical? ==> Active(mode, lexical, embedding, hybrid) == lexical
    ensures mode.Embedding? ==> Active(mode, lexical, embedding, hybrid) == embedding
    ensures mode.Hybrid? ==> Active(mode, lexical, embedding, hybrid) == hybrid
  {
  }

  lemma PoolInRange(mode: Mode, lexical: seq<int>, embedding: seq<int>, poolSize: nat)
    requires |lexical| == |embedding|
    ensures forall i :: i in Pool(mode, lexical, embedding, poolSize) ==> i < |lexical|
  {
  }

  // ---------------------------------------------------------------- what the pool hides

  /** The rank is that of a chunk in the result. */
  ghost predicate RankChosen(result: seq<Candidate>, ranks: seq<int>, rank: int) {
    exists i: nat :: i < |ranks| && ranks[i] == rank && Chosen(result, i)
  }

  lemma PositionOf(result: seq<Candidate>, ranks: seq<int>, eligible: set<nat>, limit: nat, rank: int) returns (k: nat)
    requires TopOf(result, ranks, eligible, limit) && RankChosen(result, ranks, rank)
    ensures k < |result| && result[k].rank == rank
  {
    hide Beats;
    var i: nat :| i < |ranks| && ranks[i] == rank && Chosen(result, i);
    var c :| c in result && c.index == i;
    k :| 0 <= k < |result| && result[k] == c;
  }

  /** When every rank up to p belongs to an eligible chunk, a result that leaves no eligible chunk out is
      at least p long. */
  lemma {:induction false} RankAtPosition(result: seq<Candidate>, ranks: seq<int>, eligible: set<nat>, limit: nat, p: nat)
    requires TopOf(result, ranks, eligible, limit) && p > 0
    requires forall r :: 1 <= r <= p ==> RankChosen(result, ranks, r)
    ensures exists k :: p - 1 <= k < |result| && result[k].rank == p
    decreases p
  {
    assert RankChosen(result, ranks, p);
    var k := PositionOf(result, ranks, eligible, limit, p);
    hide RankChosen, Beats, Chosen;
    if p > 1 {
      RankAtPosition(result, ranks, eligible, limit, p - 1);
      var j :| p - 2 <= j < |result| && result[j].rank == p - 1;
      assert j < k;
    }
  }

  /** In a mode whose pool is made by its own ranking. */
  lemma OneModeTransparent(mode: Mode, lexical: seq<int>, embedding: seq<int>, active: seq<int>, scores: seq<real>,
                           activeScores: seq<real>, ties: seq<int>, poolSize: nat, limit: nat, result: seq<Candidate>)
    requires !mode.Hybrid? && |lexical| == |embedding| == |scores| == |activeScores|
    requires active == (if mode.Lexical? then lexical else embedding) && (mode.Lexical? ==> activeScores == scores)
    requires IsRanking(active, activeScores, ties) && 1 <= limit <= poolSize
    requires TopOf(result, active, Pool(mode, lexical, embedding, poolSize) * Scoring(mode, scores), limit)
    ensures TopOf(result, active, Scoring(mode, scores), limit)
  {
    hide IsRanking;
    var all, pool := Scoring(mode, scores), Pool(mode, lexical, embedding, poolSize);
    RankingsArePositive(active, activeScores, ties);
    forall i | i in all && i !in pool ensures |result| == limit && Beats(result, active[i]) {
      assert active[i] > poolSize;
      if |result| < limit {
        forall r | 1 <= r <= poolSize
          ensures RankChosen(result, active, r)
        {
          BetterScores(mode, active, scores, activeScores, ties, i, r);
          var j :| 0 <= j < |active| && active[j] == r && j in all;
          assert j in pool * all;
        }
        RankAtPosition(result, active, pool * all, limit, poolSize);
      }
    }
  }

  /** In the lexical and embedding modes the pool is invisible: what is retrieved is the best by that ranking, of all
      chunks that share a term with the query in the one, of all chunks in the other. */
  lemma PoolIsTransparent(lexical: seq<int>, embedding: seq<int>, scores: seq<real>, similarities: seq<real>, ties: seq<int>,
                          poolSize: nat, limit: nat, result: seq<Candidate>, sharing: set<nat>, all: set<nat>)
    requires |lexical| == |embedding| == |scores| == |similarities| && 1 <= limit <= poolSize
    requires forall i: nat :: i in sharing <==> i < |scores| && scores[i] > 0.0
    requires forall i: nat :: i in all <==> i < |similarities|
    ensures IsRanking(lexical, scores, ties) &&
            TopOf(result, lexical, Pool(Lexical, lexical, embedding, poolSize) * Scoring(Lexical, scores), limit) ==>
              TopOf(result, lexical, sharing, limit)
    ensures IsRanking(embedding, similarities, ties) &&
            TopOf(result, embedding, Pool(Embedding, lexical, embedding, poolSize) * Scoring(Embedding, scores), limit) ==>
              TopOf(result, embedding, all, limit)
  {
    hide IsRanking, TopOf;
    assert Scoring(Lexical, scores) == sharing && Scoring(Embedding, scores) == all;
    if IsRanking(lexical, scores, ties) &&
       TopOf(result, lexical, Pool(Lexical, lexical, embedding, poolSize) * Scoring(Lexical, scores), limit) {
      OneModeTransparent(Lexical, lexical, embedding, lexical, scores, scores, ties, poolSize, limit, result);
    }
    if IsRanking(embedding, similarities, ties) &&
       TopOf(result, embedding, Pool(Embedding, lexical, embedding, poolSize) * Scoring(Embedding, scores), limit) {
      OneModeTransparent(Embedding, lexical, embedding, embedding, scores, similarities, ties, poolSize, limit, result);
    }
  }

  /** Which chunks may be retrieved: in the lexical mode those of the first ranks that share a term with the query, in the
      embedding mode those of the first ranks, in the hybrid mode those of the first ranks of either kind. */
  lemma EligibleIff(lexical: seq<int>, embedding: seq<int>, scores: seq<real>, poolSize: nat, i: nat)
    requires |lexical| == |embedding| == |scores|
    ensures i in Pool(Lexical, lexical, embedding, poolSize) * Scoring(Lexical, scores)
            <==> i < |lexical| && lexical[i] <= poolSize && scores[i] > 0.0
    ensures i in Pool(Embedding, lexical, embedding, poolSize) * Scoring(Embedding, scores)
            <==> i < |lexical| && embedding[i] <= poolSize
    ensures i in Pool(Hybrid, lexical, embedding, poolSize) * Scoring(Hybrid, scores)
            <==> i < |lexical| && (lexical[i] <= poolSize || embedding[i] <= poolSize)
  {
  }

  /** How many are retrieved: what the plan asks for, but at least one and no more than top_k; top_k when it asks for
      nothing or for zero. */
  lemma CutIs(n: int, topK: nat)
    requires topK > 0
    ensures Cut(None, topK) == topK && Cut(Some(0), topK) == topK
    ensures n < 0 ==> Cut(Some(n), topK) == 1
    ensures 1 <= n <= topK ==> Cut(Some(n), topK) == n
    ensures n > topK ==> Cut(Some(n), topK) == topK
  {
  }

  /** Equal scores are ordered by message id, the greater first; a chunk without an id, or with id 0, counts as -1, and
      among equals the earlier chunk is first. */
  lemma TiesAre(chunks: seq<Chunk>, scores: seq<real>, ranks: seq<int>, i: nat, j: nat)
    requires IsRanking(ranks, scores, StableIds(chunks)) && i < |chunks| && j < |chunks|
    ensures |ranks| == |scores| == |chunks|
    ensures scores[i] > scores[j] ==> ranks[i] < ranks[j]
    ensures var a, b := chunks[i].messageId, chunks[j].messageId;
            scores[i] == scores[j] ==>
              && (a.Some? && b.Some? && a.value > b.value && a.value != 0 && b.value != 0 ==> ranks[i] < ranks[j])
              && (a.Some? && a.value > 0 && (b.None? || b.value == 0) ==> ranks[i] < ranks[j])
              && (a.Some? && a.value < -1 && (b.None? || b.value == 0) ==> ranks[j] < ranks[i])
              && (a == b && i < j ==> ranks[i] < ranks[j])
  {
  }

  /** Every better rank is held by a chunk that also scores. */
  lemma BetterScores(mode: Mode, active: seq<int>, scores: seq<real>, activeScores: seq<real>, ties: seq<int>, i: nat,
                     r: int)
    requires |active| == |scores| == |activeScores| && (mode.Lexical? ==> activeScores == scores)
    requires IsRanking(active, activeScores, ties) && i in Scoring(mode, scores) && 1 <= r < active[i]
    ensures exists j: nat :: j < |active| && active[j] == r && j in Scoring(mode, scores)
  {
    assert r in active;
    var j :| 0 <= j < |active| && active[j] == r;
    assert Ahead(Entry(activeScores[j], ties[j], j), Entry(activeScores[i], ties[i], i));
  }
}
