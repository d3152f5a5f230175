/** How large the pool must be for hybrid retrieval to see past it. */
module HybridPool {
  import opened Results
  import opened Rows
  import opened Ranking
  import opened Retrieval
  import opened Terms

  // ---------------------------------------------------------------- counting ranks

  function Below(ranks: seq<int>, p: int): set<nat> {
    set i: nat | i < |ranks| && ranks[i] <= p
  }

  lemma HolderOf(ranks: seq<int>, scores: seq<real>, ties: seq<int>, r: int) returns (i: nat)
    requires IsRanking(ranks, scores, ties) && 1 <= r <= |ranks|
    ensures i < |ranks| && ranks[i] == r
  {
    hide Ahead;
    assert r in ranks;
    i :| i < |ranks| && ranks[i] == r;
  }

  lemma OneRankMore(ranks: seq<int>, i: nat)
    requires i < |ranks| && forall j, k :: 0 <= j < k < |ranks| ==> ranks[j] != ranks[k]
    ensures i !in Below(ranks, ranks[i] - 1) && Below(ranks, ranks[i]) == Below(ranks, ranks[i] - 1) + {i}
  {
  }

  /** Exactly p chunks have one of the first p ranks. */
  lemma {:induction false} BelowCount(ranks: seq<int>, scores: seq<real>, ties: seq<int>, p: nat)
    requires IsRanking(ranks, scores, ties) && p <= |ranks|
    ensures |Below(ranks, p)| == p
    decreases p
  {
    if p == 0 {
      NoneBelow(ranks, scores, ties);
    } else {
      hide IsRanking, Below;
      BelowCount(ranks, scores, ties, p - 1);
      var i := HolderOf(ranks, scores, ties, p);
      RankingsArePositive(ranks, scores, ties);
      OneRankMore(ranks, i);
    }
  }

  lemma NoneBelow(ranks: seq<int>, scores: seq<real>, ties: seq<int>)
    requires IsRanking(ranks, scores, ties)
    ensures Below(ranks, 0) == {}
  {
    hide Ahead;
  }

  /** The order of scores and tie breakers leaves no choice of ranks. */
  lemma RankingUnique(a: seq<int>, b: seq<int>, scores: seq<real>, ties: seq<int>)
    requires IsRanking(a, scores, ties) && IsRanking(b, scores, ties)
    ensures a == b
  {
    forall i | 0 <= i < |a| ensures a[i] == b[i] {
      BelowCount(a, scores, ties, a[i]);
      BelowCount(b, scores, ties, b[i]);
      RankingsArePositive(a, scores, ties);
      RankingsArePositive(b, scores, ties);
      hide IsRanking;
      forall j: nat | j < |a| ensures a[j] <= a[i] <==> b[j] <= b[i] {
        SameSide(a, b, scores, ties, i, j);
      }
      assert Below(a, a[i]) == Below(b, b[i]);
    }
  }

  lemma SameSide(a: seq<int>, b: seq<int>, scores: seq<real>, ties: seq<int>, i: nat, j: nat)
    requires IsRanking(a, scores, ties) && IsRanking(b, scores, ties) && i < |a| && j < |a|
    ensures a[j] <= a[i] <==> b[j] <= b[i]
  {
    hide Ahead;
    assert a[i] < a[j] <==> Ahead(Entry(scores[i], ties[i], i), Entry(scores[j], ties[j], j));
    assert b[i] < b[j] <==> Ahead(Entry(scores[i], ties[i], i), Entry(scores[j], ties[j], j));
  }

  // ---------------------------------------------------------------- when the pool is invisible

  /** A full result in increasing rank order cannot lie below its own length. */
  lemma {:induction false} RankAtLeast(result: seq<Candidate>, ranks: seq<int>, eligible: set<nat>, limit: nat, k: nat)
    requires TopOf(result, ranks, eligible, limit) && k < |result| && forall i :: i in eligible ==> ranks[i] >= 1
    ensures result[k].rank >= k + 1
    decreases k
  {
    hide Chosen, Beats;
    assert result[k] in result;
    if k > 0 {
      RankAtLeast(result, ranks, eligible, limit, k - 1);
    }
  }

  /** All the first `limit` ranks lie in the pool. */
  ghost predicate BestInPool(lexical: seq<int>, embedding: seq<int>, hybrid: seq<int>, poolSize: nat, limit: nat)
    requires |lexical| == |embedding| == |hybrid|
  {
    forall i: nat :: i < |hybrid| && hybrid[i] <= limit ==> i in Pool(Hybrid, lexical, embedding, poolSize)
  }

  lemma BestAreChosen(result: seq<Candidate>, ranks: seq<int>, eligible: set<nat>, limit: nat, i: nat)
    requires TopOf(result, ranks, eligible, limit) && forall j :: j in eligible ==> ranks[j] >= 1
    requires i in eligible && ranks[i] <= limit
    ensures Chosen(result, i)
  {
    if |result| == limit {
      RankAtLeast(result, ranks, eligible, limit, limit - 1);
      assert result[limit - 1] in result;
    }
  }

  /** What is retrieved is the best of all chunks exactly when the best of all chunks are in the pool. */
  lemma TransparentIff(lexical: seq<int>, embedding: seq<int>, hybrid: seq<int>, fused: seq<real>, ties: seq<int>,
                       poolSize: nat, limit: nat, result: seq<Candidate>, scores: seq<real>)
    requires |lexical| == |embedding| == |scores| == |hybrid| && IsRanking(hybrid, fused, ties) && limit >= 1
    requires TopOf(result, hybrid, Pool(Hybrid, lexical, embedding, poolSize) * Scoring(Hybrid, scores), limit)
    ensures TopOf(result, hybrid, Scoring(Hybrid, scores), limit)
            <==> BestInPool(lexical, embedding, hybrid, poolSize, limit)
  {
    hide IsRanking, InPool;
    var pool := Pool(Hybrid, lexical, embedding, poolSize);
    var eligible := pool * Scoring(Hybrid, scores);
    RankingsArePositive(hybrid, fused, ties);
    if BestInPool(lexical, embedding, hybrid, poolSize, limit) {
      forall i | i in Scoring(Hybrid, scores) && i !in pool ensures |result| == limit && Beats(result, hybrid[i]) {
        FilledByBest(result, hybrid, fused, ties, eligible, limit, i);
      }
    } else {
      var i: nat :| i < |hybrid| && hybrid[i] <= limit && i !in pool;
      if TopOf(result, hybrid, Scoring(Hybrid, scores), limit) {
        BestAreChosen(result, hybrid, Scoring(Hybrid, scores), limit, i);
        assert false;
      }
    }
  }

  lemma RankInRange(ranks: seq<int>, scores: seq<real>, ties: seq<int>, i: nat)
    requires IsRanking(ranks, scores, ties) && i < |ranks|
    ensures 1 <= ranks[i] <= |ranks|
  {
    hide Ahead;
  }

  /** When the first `limit` ranks are eligible, nothing behind them is in the result. */
  lemma FilledByBest(result: seq<Candidate>, hybrid: seq<int>, fused: seq<real>, ties: seq<int>, eligible: set<nat>,
                     limit: nat, i: nat)
    requires IsRanking(hybrid, fused, ties) && TopOf(result, hybrid, eligible, limit) && limit >= 1
    requires forall j: nat :: j < |hybrid| && hybrid[j] <= limit ==> j in eligible
    requires i < |hybrid| && i !in eligible
    ensures |result| == limit && Beats(result, hybrid[i])
  {
    hide IsRanking, Chosen;
    RankingsArePositive(hybrid, fused, ties);
    RankInRange(hybrid, fused, ties, i);
    assert hybrid[i] > limit;
    forall r | 1 <= r <= limit ensures RankChosen(result, hybrid, r) {
      var j := HolderOf(hybrid, fused, ties, r);
      BestAreChosen(result, hybrid, eligible, limit, j);
    }
    RankAtPosition(result, hybrid, eligible, limit, limit);
    var k :| limit - 1 <= k < |result| && result[k].rank == limit;
    forall c | c in result ensures c.rank < hybrid[i] {
      var m :| 0 <= m < |result| && result[m] == c;
    }
  }

  // ---------------------------------------------------------------- settings that suffice

  /** A chunk outside both pools is behind every chunk that leads one of the rankings. */
  lemma LeadersBeat(poolSize: nat, limit: nat, a: int, b: int, a': int, b': int)
    requires poolSize >= 59 + 2 * limit
    requires 1 <= a <= limit && b >= 1 && a' > poolSize && b' > poolSize
    ensures Fused(a', b') < Fused(a, b)
  {
    FusedFalls(poolSize + 1, poolSize + 1, a', b');
    FusedFalls(a, b, limit, b);
    ReciprocalFalls(1, RANK_CONSTANT + b);
    ReciprocalFalls(2 * (RANK_CONSTANT + limit), RANK_CONSTANT + poolSize + 1);
    HalfOf((RANK_CONSTANT + limit) as real);
    var p := 1.0 / (RANK_CONSTANT + limit) as real + 1.0 / (RANK_CONSTANT + b) as real;
    var q := 1.0 / (RANK_CONSTANT + poolSize + 1) as real + 1.0 / (RANK_CONSTANT + poolSize + 1) as real;
    assert (2 * (RANK_CONSTANT + limit)) as real == 2.0 * (RANK_CONSTANT + limit) as real;
    DividedOrder(p, q, 2.0 / (RANK_CONSTANT + 1) as real);
  }

  lemma HalfOf(x: real)
    requires x > 0.0
    ensures 1.0 / (2.0 * x) + 1.0 / (2.0 * x) == 1.0 / x
  {
    var h, w := 1.0 / (2.0 * x), 1.0 / x;
    assert h * (2.0 * x) == 1.0 && w * x == 1.0;
    assert (h + h - w) * x == 0.0;
  }

  /** A pool of 59 + 2 * limit chunks is large enough, whatever the query and however long the replay. */
  lemma SettingsSuffice(chunks: seq<Chunk>, lexicalScores: seq<real>, embeddingScores: seq<real>, lexical: seq<int>,
                        embedding: seq<int>, hybrid: seq<int>, poolSize: nat, limit: nat)
    requires Ranked(chunks, lexicalScores, embeddingScores, lexical, embedding, hybrid) && |lexical| == |hybrid|
    requires poolSize >= 59 + 2 * limit && |embedding| == |hybrid|
    ensures BestInPool(lexical, embedding, hybrid, poolSize, limit)
  {
    hide IsRanking, ReciprocalRankFusion, Ranks;
    var fused := ReciprocalRankFusion(lexical, embedding).value;
    var ids := StableIds(chunks);
    forall i: nat | i < |hybrid| && hybrid[i] <= limit ensures i in Pool(Hybrid, lexical, embedding, poolSize) {
      if i !in Pool(Hybrid, lexical, embedding, poolSize) {
        RankInRange(lexical, lexicalScores, ids, i);
        RankInRange(hybrid, fused, ids, i);
        BelowCount(lexical, lexicalScores, ids, limit);
        BelowCount(hybrid, fused, ids, hybrid[i] - 1);
        forall j | j in Below(lexical, limit) ensures j in Below(hybrid, hybrid[i] - 1) {
          LeaderAhead(chunks, lexicalScores, embeddingScores, lexical, embedding, hybrid, poolSize, limit, i, j);
        }
        SubsetSize(Below(lexical, limit), Below(hybrid, hybrid[i] - 1));
        assert false;
      }
    }
  }

  /** ... so that the result is the best of all chunks, for every limit up to the one the pool is made for. */
  lemma SettingsTransparent(chunks: seq<Chunk>, lexicalScores: seq<real>, embeddingScores: seq<real>, lexical: seq<int>,
                            embedding: seq<int>, hybrid: seq<int>, poolSize: nat, limit: nat, result: seq<Candidate>)
    requires Ranked(chunks, lexicalScores, embeddingScores, lexical, embedding, hybrid)
    requires |lexical| == |embedding| == |hybrid| == |lexicalScores|
    requires 1 <= limit && poolSize >= 59 + 2 * limit
    requires TopOf(result, hybrid, Pool(Hybrid, lexical, embedding, poolSize) * Scoring(Hybrid, lexicalScores), limit)
    ensures TopOf(result, hybrid, Scoring(Hybrid, lexicalScores), limit)
  {
    hide TopOf, BestInPool, Pool, Scoring, IsRanking;
    SettingsSuffice(chunks, lexicalScores, embeddingScores, lexical, embedding, hybrid, poolSize, limit);
    TransparentIff(lexical, embedding, hybrid, ReciprocalRankFusion(lexical, embedding).value, StableIds(chunks), poolSize,
                   limit, result, lexicalScores);
  }

  lemma LeaderAhead(chunks: seq<Chunk>, lexicalScores: seq<real>, embeddingScores: seq<real>, lexical: seq<int>,
                    embedding: seq<int>, hybrid: seq<int>, poolSize: nat, limit: nat, i: nat, j: nat)
    requires Ranked(chunks, lexicalScores, embeddingScores, lexical, embedding, hybrid)
    requires |lexical| == |embedding| == |hybrid| && i < |hybrid| && j < |hybrid|
    requires poolSize >= 59 + 2 * limit && i !in Pool(Hybrid, lexical, embedding, poolSize)
    requires lexical[j] <= limit
    ensures hybrid[j] < hybrid[i]
  {
    LeadersBeat(poolSize, limit, lexical[j], embedding[j], lexical[i], embedding[i]);
    hide Fused;
    var fused, ids := ReciprocalRankFusion(lexical, embedding).value, StableIds(chunks);
    assert Ahead(Entry(fused[j], ids[j], j), Entry(fused[i], ids[i], i));
  }

  // ---------------------------------------------------------------- settings that do not suffice

  /** A replay on which a pool of P < 59 + 2 * L chunks hides one of the best L.  Chunk L - 1 is next behind the
      pool in both rankings; the L - 1 chunks before it lead both; P - L + 1 chunks complete the lexical pool and
      are last by embedding, as many the other way round; the rest keeps the two groups apart. */
  datatype Replay = Replay(pool: nat, limit: nat)

  predicate Hiding(x: Replay) {
    1 <= x.limit <= x.pool < 59 + 2 * x.limit
  }

  function Group(x: Replay): nat
    requires Hiding(x)
  {
    x.pool - x.limit + 1
  }

  function Rest(x: Replay): nat {
    (RANK_CONSTANT + 1 + x.pool) * (RANK_CONSTANT + x.limit)
  }

  function Size(x: Replay): (n: nat)
    requires Hiding(x)
    ensures n >= x.pool + 1
  {
    x.pool + 1 + Rest(x) + Group(x)
  }

  function LexicalRank(x: Replay, i: nat): int
    requires Hiding(x)
  {
    if i < x.limit - 1 then i + 1
    else if i == x.limit - 1 then x.pool + 1
    else if i <= x.pool then i
    else if i <= x.pool + Group(x) then Size(x) - Group(x) + i - x.pool
    else i + 1 - Group(x)
  }

  function EmbeddingRank(x: Replay, i: nat): int
    requires Hiding(x)
  {
    if i < x.limit - 1 then i + 1
    else if i == x.limit - 1 then x.pool + 1
    else if i <= x.pool then Size(x) - Group(x) + 1 + i - x.limit
    else if i <= x.pool + Group(x) then i - Group(x)
    else i + 1 - Group(x)
  }

  function LexicalHolder(x: Replay, r: int): (i: nat)
    requires Hiding(x) && 1 <= r <= Size(x)
    ensures i < Size(x) && LexicalRank(x, i) == r
  {
    if r < x.limit then r - 1
    else if r <= x.pool then r
    else if r == x.pool + 1 then x.limit - 1
    else if r <= Size(x) - Group(x) then r - 1 + Group(x)
    else r - Size(x) + Group(x) + x.pool
  }

  function EmbeddingHolder(x: Replay, r: int): (i: nat)
    requires Hiding(x) && 1 <= r <= Size(x)
    ensures i < Size(x) && EmbeddingRank(x, i) == r
  {
    if r < x.limit then r - 1
    else if r <= x.pool then r + Group(x)
    else if r == x.pool + 1 then x.limit - 1
    else if r <= Size(x) - Group(x) then r - 1 + Group(x)
    else r - Size(x) + Group(x) - 1 + x.limit
  }

  lemma RanksApart(x: Replay, i: nat, j: nat)
    requires Hiding(x) && i < Size(x) && j < Size(x) && i != j
    ensures LexicalRank(x, i) != LexicalRank(x, j) && EmbeddingRank(x, i) != EmbeddingRank(x, j)
    ensures 1 <= LexicalRank(x, i) <= Size(x) && 1 <= EmbeddingRank(x, i) <= Size(x)
  {
    hide Rest;
  }

  function LexicalRanks(x: Replay): (ranks: seq<int>)
    requires Hiding(x)
    ensures |ranks| == Size(x) && forall i :: 0 <= i < Size(x) ==> ranks[i] == LexicalRank(x, i)
  {
    seq(Size(x), i requires 0 <= i < Size(x) => LexicalRank(x, i))
  }

  function EmbeddingRanks(x: Replay): (ranks: seq<int>)
    requires Hiding(x)
    ensures |ranks| == Size(x) && forall i :: 0 <= i < Size(x) ==> ranks[i] == EmbeddingRank(x, i)
  {
    seq(Size(x), i requires 0 <= i < Size(x) => EmbeddingRank(x, i))
  }

  /** Scores in (0, 1] that put the chunks in the order of the ranks. */
  function ScoresFor(ranks: seq<int>): (scores: seq<real>)
    ensures |scores| == |ranks|
    ensures forall i :: 0 <= i < |ranks| ==> scores[i] == (|ranks| + 1 - ranks[i]) as real / |ranks| as real
  {
    seq(|ranks|, i requires 0 <= i < |ranks| => (|ranks| + 1 - ranks[i]) as real / |ranks| as real)
  }

  lemma ScoreOrder(n: int, a: int, b: int)
    requires n > 0
    ensures (n + 1 - a) as real / n as real > (n + 1 - b) as real / n as real <==> a < b
  {
    var p, q := (n + 1 - a) as real, (n + 1 - b) as real;
    if a < b {
      DividedOrder(p, q, n as real);
    } else {
      DividedOrder(q, p, n as real);
    }
  }

  lemma ScoresRank(ranks: seq<int>, ties: seq<int>)
    requires |ties| == |ranks|
    requires forall i :: 0 <= i < |ranks| ==> 1 <= ranks[i] <= |ranks|
    requires forall r :: 1 <= r <= |ranks| ==> r in ranks
    requires forall i, j :: 0 <= i < j < |ranks| ==> ranks[i] != ranks[j]
    ensures IsRanking(ranks, ScoresFor(ranks), ties)
  {
    hide ScoresFor;
    var scores := ScoresFor(ranks);
    forall i, j | 0 <= i < |ranks| && 0 <= j < |ranks|
      ensures ranks[i] < ranks[j] <==> Ahead(Entry(scores[i], ties[i], i), Entry(scores[j], ties[j], j))
    {
      ScoreOrder(|ranks|, ranks[i], ranks[j]);
      ScoreOrder(|ranks|, ranks[j], ranks[i]);
    }
  }

  lemma ReplayRanks(x: Replay, ties: seq<int>)
    requires Hiding(x) && |ties| == Size(x)
    ensures IsRanking(LexicalRanks(x), ScoresFor(LexicalRanks(x)), ties)
    ensures IsRanking(EmbeddingRanks(x), ScoresFor(EmbeddingRanks(x)), ties)
  {
    hide LexicalRank, EmbeddingRank, LexicalRanks, EmbeddingRanks, IsRanking, ScoresFor, Size, LexicalHolder, EmbeddingHolder;
    var lexical, embedding := LexicalRanks(x), EmbeddingRanks(x);
    forall i, j | 0 <= i < Size(x) && 0 <= j < Size(x) && i != j
      ensures lexical[i] != lexical[j] && embedding[i] != embedding[j]
      ensures 1 <= lexical[i] <= Size(x) && 1 <= embedding[i] <= Size(x)
    {
      RanksApart(x, i, j);
    }
    forall r | 1 <= r <= Size(x) ensures r in lexical && r in embedding {
      assert lexical[LexicalHolder(x, r)] == r && embedding[EmbeddingHolder(x, r)] == r;
    }
    assert Size(x) >= 2;
    forall i | 0 <= i < Size(x) ensures 1 <= lexical[i] <= Size(x) && 1 <= embedding[i] <= Size(x) {
      RanksApart(x, i, if i == 0 then 1 else 0);
    }
    ScoresRank(lexical, ties);
    ScoresRank(embedding, ties);
  }

  /** 1/x + 1/z is less than 2/y when y < 2x and z is large enough. */
  lemma FarRankIsWeak(x: real, y: real, z: real)
    requires x > 0.0 && y > 0.0 && y + 1.0 <= 2.0 * x && z > x * y
    ensures 1.0 / x + 1.0 / z < 2.0 / y
  {
    var p, q, r := 1.0 / x, 1.0 / y, 1.0 / z;
    assert p * x == 1.0 && q * y == 1.0 && r * z == 1.0;
    assert (p * q) * (x * y) == (p * x) * (q * y) == 1.0;
    TimesMonotone(x * y, z, r);
    if r >= p * q {
      TimesMonotone(p * q, r, x * y);
      assert false;
    }
    assert 2.0 * q - p == p * q * (2.0 * x - y) by {
      assert p * q * (2.0 * x) == 2.0 * q * (p * x);
      assert p * q * y == p * (q * y);
    }
    TimesMonotone(1.0, 2.0 * x - y, p * q);
    assert 2.0 / y == 2.0 * q;
  }

  /** Leading one ranking from place L on does not make up for a place at the end of the other. */
  lemma LastIsWeak(x: Replay)
    requires Hiding(x)
    ensures Fused(x.limit, x.pool + 2 + Rest(x)) < Fused(x.pool + 1, x.pool + 1)
  {
    var a, b, c := RANK_CONSTANT + x.limit, RANK_CONSTANT + x.pool + 1, RANK_CONSTANT + x.pool + 2 + Rest(x);
    assert Rest(x) == b * a;
    assert (b * a) as real == a as real * b as real;
    FarRankIsWeak(a as real, b as real, c as real);
    DividedOrder(1.0 / b as real + 1.0 / b as real, 1.0 / a as real + 1.0 / c as real, 2.0 / (RANK_CONSTANT + 1) as real);
  }

  lemma FusedSymmetric(a: int, b: int)
    requires a >= 1 && b >= 1
    ensures Fused(a, b) == Fused(b, a)
  {
  }

  /** Every chunk behind the first L loses to chunk L - 1. */
  lemma BehindHidden(x: Replay, i: nat)
    requires Hiding(x) && x.limit <= i < Size(x)
    ensures LexicalRank(x, i) >= 1 && EmbeddingRank(x, i) >= 1
    ensures Fused(LexicalRank(x, i), EmbeddingRank(x, i)) < Fused(x.pool + 1, x.pool + 1)
  {
    hide Fused, Rest;
    var far := x.pool + 2 + Rest(x);
    LastIsWeak(x);
    FusedSymmetric(x.limit, far);
    if i <= x.pool {
      FusedFalls(x.limit, far, LexicalRank(x, i), EmbeddingRank(x, i));
    } else if i <= x.pool + Group(x) {
      FusedFalls(far, x.limit, LexicalRank(x, i), EmbeddingRank(x, i));
    } else {
      FusedFalls(x.pool + 1, x.pool + 1, LexicalRank(x, i), EmbeddingRank(x, i));
    }
  }

  /** Chunk L - 1 is among the best L and outside the pool. */
  lemma HiddenIsBest(x: Replay, hybrid: seq<int>, ties: seq<int>)
    requires Hiding(x) && Ranks(LexicalRanks(x)) && Ranks(EmbeddingRanks(x))
    requires IsRanking(hybrid, ReciprocalRankFusion(LexicalRanks(x), EmbeddingRanks(x)).value, ties)
    ensures |hybrid| == Size(x) && !BestInPool(LexicalRanks(x), EmbeddingRanks(x), hybrid, x.pool, x.limit)
  {
    hide Fused, Rest, Size, IsRanking, Group, Ahead;
    var lexical, embedding := LexicalRanks(x), EmbeddingRanks(x);
    var fused := ReciprocalRankFusion(lexical, embedding).value;
    var h := x.limit - 1;
    RankingLength(hybrid, fused, ties);
    RankInRange(hybrid, fused, ties, h);
    BelowCount(hybrid, fused, ties, hybrid[h]);
    var first := First(x.limit);
    forall j | j in Below(hybrid, hybrid[h]) ensures j in first {
      if j >= x.limit {
        BehindHidden(x, j);
        BetterFused(hybrid, fused, ties, h, j);
      }
    }
    SubsetSize(Below(hybrid, hybrid[h]), first);
    assert !InPool(Hybrid, lexical, embedding, x.pool, h);
  }

  lemma RankingLength(ranks: seq<int>, scores: seq<real>, ties: seq<int>)
    requires IsRanking(ranks, scores, ties)
    ensures |ranks| == |scores| == |ties|
  {
    hide Ahead;
  }

  lemma BetterFused(hybrid: seq<int>, fused: seq<real>, ties: seq<int>, i: nat, j: nat)
    requires IsRanking(hybrid, fused, ties) && i < |hybrid| && j < |hybrid| && fused[i] > fused[j]
    ensures hybrid[i] < hybrid[j]
  {
  }

  function First(n: nat): (r: set<nat>)
    ensures |r| == n && forall i: nat :: i in r <==> i < n
  {
    if n == 0 then {} else First(n - 1) + {n - 1}
  }

  /** The replay as chunks: each holds as many words of the query as its lexical rank asks for. */
  function ReplayChunks(x: Replay): (chunks: seq<Chunk>)
    requires Hiding(x)
    ensures |chunks| == Size(x)
  {
    seq(Size(x), i requires 0 <= i < Size(x) =>
      LexicalHoldersRank(x, i);
      Chunk(Some(i + 1), TextOf(2, Size(x) + 1 - LexicalRank(x, i))))
  }

  lemma LexicalHoldersRank(x: Replay, i: nat)
    requires Hiding(x) && i < Size(x)
    ensures 1 <= LexicalRank(x, i) <= Size(x)
  {
    RanksApart(x, i, if i == 0 then 1 else 0);
  }

  /** The query is all the words. */
  function ReplayQuery(x: Replay): string
    requires Hiding(x)
  {
    TextOf(2, Size(x))
  }

  /** The lexical scores of that query are those the ranks ask for. */
  lemma ReplayScores(x: Replay)
    requires Hiding(x)
    ensures LexicalTerms(ReplayQuery(x)) != {}
    ensures LexicalScores(ReplayChunks(x), ReplayQuery(x)) == ScoresFor(LexicalRanks(x))
  {
    hide Size, LexicalRank, LexicalTerms, LexicalScore, TextOf;
    var chunks, scores := ReplayChunks(x), LexicalScores(ReplayChunks(x), ReplayQuery(x));
    ScoreOfText(Size(x), 0);
    forall i: nat | i < Size(x) ensures scores[i] == ScoresFor(LexicalRanks(x))[i] {
      LexicalHoldersRank(x, i);
      ScoreOfText(Size(x), Size(x) + 1 - LexicalRank(x, i));
    }
  }

  /** For all other settings there are a replay and a query on which what is retrieved is not the best. */
  method RetrieveHiding(topK: nat, poolSize: nat)
      returns (retriever: RawReplayRetriever, r: Result<seq<Candidate>, string>, ghost lexical: seq<int>,
               ghost embedding: seq<int>, ghost hybrid: seq<int>, query: string, similarities: seq<real>)
    requires 1 <= topK <= poolSize < 59 + 2 * topK
    ensures fresh(retriever) && retriever.topK == topK && retriever.poolSize == poolSize && retriever.mode.Hybrid?
    ensures LexicalTerms(query) != {} && forall s :: s in similarities ==> 0.0 < s <= 1.0
    ensures r.Ok? && Ranked(retriever.chunks, LexicalScores(retriever.chunks, query), similarities, lexical, embedding, hybrid)
    ensures |lexical| == |embedding|
    ensures var scores := LexicalScores(retriever.chunks, query);
            && TopOf(r.value, hybrid, Pool(Hybrid, lexical, embedding, poolSize) * Scoring(Hybrid, scores), topK)
            && !TopOf(r.value, hybrid, Scoring(Hybrid, scores), topK)
  {
    hide Size, LexicalRanks, EmbeddingRanks, ScoresFor, IsRanking, ReciprocalRankFusion, TopOf, Pool, Scoring, Diagnosed,
         StableIds, ScoredBy, BestInPool, Ranks, LexicalTerms, LexicalScores, ReplayChunks, ReplayQuery;
    var x := Replay(poolSize, topK);
    var chunks := ReplayChunks(x);
    query, similarities := ReplayQuery(x), ScoresFor(EmbeddingRanks(x));
    ScoresInRange(x);
    ReplayScores(x);
    retriever := new RawReplayRetriever(chunks, topK, Hybrid, true, poolSize);
    r, lexical, embedding, hybrid := retriever.Retrieve(query, similarities, None);
    var ids := StableIds(chunks);
    ReplayRanks(x, ids);
    RankingUnique(lexical, LexicalRanks(x), LexicalScores(chunks, query), ids);
    RankingUnique(embedding, EmbeddingRanks(x), similarities, ids);
    HiddenIsBest(x, hybrid, ids);
    TransparentIff(lexical, embedding, hybrid, ReciprocalRankFusion(lexical, embedding).value, ids, poolSize, topK, r.value,
                   LexicalScores(chunks, query));
  }

  lemma ScoresInRange(x: Replay)
    requires Hiding(x)
    ensures forall s :: s in ScoresFor(LexicalRanks(x)) || s in ScoresFor(EmbeddingRanks(x)) ==> 0.0 < s <= 1.0
  {
    hide ScoresFor, LexicalRank, EmbeddingRank, LexicalRanks, EmbeddingRanks, Size;
    var n := Size(x);
    assert n >= 2;
    forall i | 0 <= i < n
      ensures 1 <= LexicalRanks(x)[i] <= n && 1 <= EmbeddingRanks(x)[i] <= n
      ensures 0.0 < ScoresFor(LexicalRanks(x))[i] <= 1.0 && 0.0 < ScoresFor(EmbeddingRanks(x))[i] <= 1.0
    {
      RanksApart(x, i, if i == 0 then 1 else 0);
      ScoreInRange(n, LexicalRank(x, i));
      ScoreInRange(n, EmbeddingRank(x, i));
    }
  }

  lemma ScoreInRange(n: int, r: int)
    requires 1 <= r <= n
    ensures 0.0 < (n + 1 - r) as real / n as real <= 1.0
  {
    DividedOrder((n + 1 - r) as real, 0.0, n as real);
    DividedOrder(n as real, (n + 1 - r) as real, n as real);
  }
}
