/**
 What the Home ranker's numbers mean: how similarity and relevance trade off in the diversity pass, what
 each personal signal does to a row's relevance, and what the index, the pool and the reasons say.
 */
module RankingLaws {
  import opened Common
  import opened Mmr
  import opened Recommendations

  // ---- similarity ------------------------------------------------------------------------------

  predicate SharesArtist(a: Entry, b: Entry) {
    a.simArtist == b.simArtist != ""
  }

  predicate SharesKind(a: Entry, b: Entry) {
    a.simKind == b.simKind != ""
  }

  /** Sharing an artist is the most similar two rows can be, sharing a kind is less, sharing neither nothing. */
  lemma SimilarityRanks(a: Entry, b: Entry, c: Entry, d: Entry)
    ensures Similarity(a, b) == Similarity(b, a) && Similarity(a, b) >= 0.0
    ensures SharesArtist(a, b) ==> Similarity(a, b) >= Similarity(c, d)
    ensures SharesArtist(a, b) && !SharesArtist(c, d) ==> Similarity(a, b) > Similarity(c, d)
    ensures !SharesArtist(a, b) && SharesKind(a, b) && !SharesKind(c, d) && !SharesArtist(c, d) ==>
              Similarity(a, b) > Similarity(c, d)
    ensures !SharesArtist(a, b) && !SharesKind(a, b) ==> Similarity(a, b) == 0.0
  {
  }

  /** The redundancy of a row is the greatest similarity to anything chosen, zero when nothing is. */
  lemma {:induction false} MaxSimilarityIsMax(c: Entry, pool: seq<Entry>, chosen: seq<nat>)
    requires InRange(pool, chosen)
    ensures forall k :: 0 <= k < |chosen| ==> Similarity(c, pool[chosen[k]]) <= MaxSimilarity(c, pool, chosen)
    ensures if chosen == [] then MaxSimilarity(c, pool, chosen) == 0.0
            else exists k :: 0 <= k < |chosen| && MaxSimilarity(c, pool, chosen) == Similarity(c, pool[chosen[k]])
  {
    if chosen != [] {
      var n := |chosen| - 1;
      var front := chosen[..n];
      MaxSimilarityIsMax(c, pool, front);
      SimilarityRanks(c, pool[chosen[n]], c, c);
      hide Similarity;
      var last := Similarity(c, pool[chosen[n]]);
      if MaxSimilarity(c, pool, chosen) == last {
        assert MaxSimilarity(c, pool, chosen) == Similarity(c, pool[chosen[n]]);
      } else {
        var k :| 0 <= k < |front| && MaxSimilarity(c, pool, front) == Similarity(c, pool[front[k]]);
        assert MaxSimilarity(c, pool, chosen) == Similarity(c, pool[chosen[k]]);
      }
    }
  }

  lemma RedundancyIsBounded(c: Entry, pool: seq<Entry>, chosen: seq<nat>)
    requires InRange(pool, chosen)
    ensures 0.0 <= MaxSimilarity(c, pool, chosen) <= SIM_ARTIST
  {
    MaxSimilarityIsMax(c, pool, chosen);
  }

  // ---- the trade-off ---------------------------------------------------------------------------

  /** Diversity survives: a near-tie by an artist already chosen yields to a row like nothing chosen. */
  lemma FreshArtistWins(x: Entry, y: Entry, pool: seq<Entry>, chosen: seq<nat>, k: nat)
    requires InRange(pool, chosen) && k < |chosen| && SharesArtist(x, pool[chosen[k]])
    requires forall i :: 0 <= i < |chosen| ==> !SharesArtist(y, pool[chosen[i]]) && !SharesKind(y, pool[chosen[i]])
    requires 18.0 * (x.rel - y.rel) < 7.0
    ensures Better(y, x, pool, chosen)
  {
    MaxSimilarityIsMax(x, pool, chosen);
    MaxSimilarityIsMax(y, pool, chosen);
    assert MaxSimilarity(y, pool, chosen) == 0.0;
    assert MaxSimilarity(x, pool, chosen) >= SIM_ARTIST;
  }

  /** Relevance survives: a much stronger row wins whatever has been chosen. */
  lemma StrongRowWins(x: Entry, y: Entry, pool: seq<Entry>, chosen: seq<nat>)
    requires InRange(pool, chosen) && 18.0 * (x.rel - y.rel) > 7.0
    ensures Better(x, y, pool, chosen)
  {
    RedundancyIsBounded(x, pool, chosen);
    RedundancyIsBounded(y, pool, chosen);
  }

  /** Equal scores are settled by relevance, then by the earlier rank, then by the smaller id. */
  lemma TiesSettle(x: Entry, y: Entry, pool: seq<Entry>, chosen: seq<nat>)
    requires InRange(pool, chosen) && Mmr.Mmr(x, pool, chosen) == Mmr.Mmr(y, pool, chosen)
    ensures x.rel > y.rel ==> Better(x, y, pool, chosen)
    ensures x.rel == y.rel && x.rank < y.rank ==> Better(x, y, pool, chosen)
    ensures x.rel == y.rel && x.rank == y.rank && StringLess(x.item.id, y.item.id) ==> Better(x, y, pool, chosen)
  {
    hide Mmr.Mmr;
  }

  /** Ids compare as words in a dictionary do: at the first difference, and a beginning comes first. */
  lemma {:induction false} IdsCompare(common: string, a: char, b: char, x: string, y: string)
    requires a < b
    ensures StringLess(common + ([a] + x), common + ([b] + y)) && StringLess(common, common + ([a] + x))
  {
    if common == "" {
      assert common + ([a] + x) == [a] + x && common + ([b] + y) == [b] + y;
    } else {
      IdsCompare(common[1..], a, b, x, y);
      assert (common + ([a] + x))[1..] == common[1..] + ([a] + x);
      assert (common + ([b] + y))[1..] == common[1..] + ([b] + y);
    }
  }

  /** The first row chosen is the most relevant, the earliest of equals. */
  lemma FirstIsMostRelevant(pool: seq<Entry>, limit: nat, i: nat)
    requires limit > 0 && i < |pool|
    ensures var first := Greedy(pool, limit);
            first != [] && (pool[first[0]].rel > pool[i].rel ||
                            (pool[first[0]].rel == pool[i].rel && pool[first[0]].rank <= pool[i].rank))
  {
    GreedyIsGreedy(pool, limit);
    var chosen := Greedy(pool, limit);
    assert IsArgmax(pool, chosen[..0], |pool|, chosen[0]);
    hide Greedy;
  }

  /** Of two rows alike in artist and kind, the more relevant one is chosen before the other. */
  lemma RelevantComesFirst(pool: seq<Entry>, limit: nat, i: nat, j: nat, k: nat)
    requires i < |pool| && j < |pool| && k < |Greedy(pool, limit)| && Greedy(pool, limit)[k] == j
    requires pool[i].simArtist == pool[j].simArtist && pool[i].simKind == pool[j].simKind
    requires pool[i].rel > pool[j].rel
    ensures i in Greedy(pool, limit)[..k]
  {
    GreedyIsGreedy(pool, limit);
    var chosen := Greedy(pool, limit);
    assert IsArgmax(pool, chosen[..k], |pool|, chosen[k]);
    AlikeRedundancy(pool[i], pool[j], pool, chosen[..k]);
    hide Greedy, MaxSimilarity;
  }

  lemma {:induction false} AlikeRedundancy(x: Entry, y: Entry, pool: seq<Entry>, chosen: seq<nat>)
    requires InRange(pool, chosen) && x.simArtist == y.simArtist && x.simKind == y.simKind
    ensures MaxSimilarity(x, pool, chosen) == MaxSimilarity(y, pool, chosen)
  {
    if chosen != [] {
      AlikeRedundancy(x, y, pool, chosen[..|chosen| - 1]);
    }
  }

  // ---- what each signal does -------------------------------------------------------------------

  /** Decay lies between one, just now, and zero, and falls as time goes by. */
  ghost predicate Decays(env: Env) {
    && (forall elapsed, half :: 0.0 <= env.decay(elapsed, half) <= 1.0)
    && (forall a, b, half :: a <= b ==> env.decay(a, half) >= env.decay(b, half))
  }

  function Rel(env: Env, item: Item, rank: nat, idx: Index, now: int): real {
    Score(env, item, rank, idx, now).rel
  }

  /** Relevance is the prior and the signals shown with the row, less the penalties. */
  lemma RelevanceAddsUp(env: Env, item: Item, rank: nat, idx: Index, now: int)
    ensures var e := Score(env, item, rank, idx, now);
            e.rel == 0.45 * Prior(rank) + e.parts.affinity + e.parts.recency + e.parts.pick
                     - 0.70 * e.parts.fatigue - (if item.thumbnail == "" then 0.30 else 0.0)
    ensures Score(env, item, rank, idx, now).item == item && Score(env, item, rank, idx, now).rank == rank
  {
    hide KnownArtist, AffinityKeyOf;
  }

  /** The most each signal can give: the most played artist, one just heard, a shortcut's artist, a song just played. */
  lemma SignalsAtMost(env: Env, item: Item, rank: nat, idx: Index, now: int)
    requires Decays(env) && idx.maxCount > 0
    requires KnownArtist(env, item, idx).Some? ==> 0 < KnownArtist(env, item, idx).value.count <= idx.maxCount
    ensures var p, known := Score(env, item, rank, idx, now).parts, KnownArtist(env, item, idx);
            && 0.0 <= p.affinity <= 0.40 && 0.0 <= p.recency <= 0.20 && (p.pick == 0.0 || p.pick == 0.15)
            && 0.0 <= p.fatigue <= 1.0
            && (known.Some? && known.value.count == idx.maxCount ==> p.affinity == 0.40)
            && (known.Some? && known.value.lastPlayedAt == now > 0 && env.decay(0, 1_209_600_000) == 1.0 ==>
                  p.recency == 0.20)
            && (item.id in idx.recentAt && idx.recentAt[item.id] == now && env.decay(0, 259_200_000) == 1.0 ==>
                  p.fatigue == 1.0)
  {
    var known := KnownArtist(env, item, idx);
    if known.Some? {
      ShareIsPart(known.value.count, idx.maxCount);
      var heard := env.decay(now - known.value.lastPlayedAt, RECENCY_HALF_LIFE_MS);
      assert 0.0 <= heard <= 1.0;
    }
    if item.id in idx.recentAt {
      assert 0.0 <= env.decay(now - idx.recentAt[item.id], FATIGUE_HALF_LIFE_MS) <= 1.0;
    }
    hide KnownArtist, AffinityKeyOf, Decays;
  }

  lemma ShareIsPart(count: int, max: int)
    requires 0 < count <= max
    ensures 0.0 < count as real / max as real <= 1.0 && (count == max ==> count as real / max as real == 1.0)
  {
  }

  /** Half-lives: an artist heard two weeks ago and a song played three days ago weigh half. */
  lemma HalfLives(env: Env, item: Item, rank: nat, idx: Index, now: int)
    requires forall half :: env.decay(half, half) == 0.5
    requires KnownArtist(env, item, idx).Some? && KnownArtist(env, item, idx).value.lastPlayedAt > 0
    requires now - KnownArtist(env, item, idx).value.lastPlayedAt == 14 * 24 * 3_600_000
    ensures Score(env, item, rank, idx, now).parts.recency == 0.10
    ensures item.id in idx.recentAt && now - idx.recentAt[item.id] == 3 * 24 * 3_600_000 ==>
              Score(env, item, rank, idx, now).parts.fatigue == 0.5
  {
    assert env.decay(RECENCY_HALF_LIFE_MS, RECENCY_HALF_LIFE_MS) == 0.5;
    assert env.decay(FATIGUE_HALF_LIFE_MS, FATIGUE_HALF_LIFE_MS) == 0.5;
    hide KnownArtist, AffinityKeyOf;
  }

  /** The prior falls off slowly: the fifty-first row has a quarter of the first's. */
  lemma PriorFallsSlowly()
    ensures Prior(0) == 1.0 && Prior(50) == 0.25
  {
  }

  /** An earlier place in the provider's feed is always worth more. */
  lemma EarlierIsBetter(env: Env, item: Item, r: nat, r': nat, idx: Index, now: int)
    requires r < r'
    ensures Rel(env, item, r, idx, now) > Rel(env, item, r', idx, now)
  {
    PriorFalls(r, r');
    hide KnownArtist, AffinityKeyOf;
  }

  function Prior(rank: nat): real {
    1.0 / (1.0 + RANK_DECAY * rank as real)
  }

  lemma PriorFalls(r: nat, r': nat)
    requires r < r'
    ensures 0.0 < Prior(r') < Prior(r) <= 1.0
  {
    var a, b := 1.0 + RANK_DECAY * r as real, 1.0 + RANK_DECAY * r' as real;
    assert 1.0 <= a < b;
    Reciprocals(a, b);
  }

  lemma Reciprocals(a: real, b: real)
    requires 1.0 <= a < b
    ensures 0.0 < 1.0 / b < 1.0 / a <= 1.0
  {
  }

  /** A row played before is worth less than were it not, the less the fresher the play. */
  lemma PlayedIsWorse(env: Env, item: Item, rank: nat, idx: Index, now: int)
    requires item.id in idx.recentAt
    ensures var at := idx.recentAt[item.id];
            Rel(env, item, rank, idx, now) <= Rel(env, item, rank, idx.(recentAt := idx.recentAt - {item.id}), now)
            <==> env.decay(now - at, FATIGUE_HALF_LIFE_MS) >= 0.0
    ensures var at := idx.recentAt[item.id];
            Rel(env, item, rank, idx, now) < Rel(env, item, rank, idx.(recentAt := idx.recentAt - {item.id}), now)
            <==> env.decay(now - at, FATIGUE_HALF_LIFE_MS) > 0.0
  {
    assert KnownArtist(env, item, idx.(recentAt := idx.recentAt - {item.id})) == KnownArtist(env, item, idx);
    hide KnownArtist, AffinityKeyOf;
  }

  lemma FresherPlayIsWorse(env: Env, item: Item, rank: nat, idx: Index, at: int, at': int, now: int)
    requires Decays(env) && at <= at'
    ensures Rel(env, item, rank, idx.(recentAt := idx.recentAt[item.id := at']), now)
            <= Rel(env, item, rank, idx.(recentAt := idx.recentAt[item.id := at]), now)
  {
    var older := idx.(recentAt := idx.recentAt[item.id := at]);
    var fresher := idx.(recentAt := idx.recentAt[item.id := at']);
    assert KnownArtist(env, item, older) == KnownArtist(env, item, fresher);
    assert env.decay(now - at', FATIGUE_HALF_LIFE_MS) >= env.decay(now - at, FATIGUE_HALF_LIFE_MS);
    hide KnownArtist, AffinityKeyOf, Decays;
  }

  /** A row just played falls behind any row alike that was not, wherever either stands in the feed. */
  lemma JustPlayedFallsBehind(env: Env, item: Item, r: nat, r': nat, idx: Index, now: int)
    requires item.id in idx.recentAt && env.decay(now - idx.recentAt[item.id], FATIGUE_HALF_LIFE_MS) == 1.0
    ensures Rel(env, item, r, idx, now) < Rel(env, item, r', idx.(recentAt := idx.recentAt - {item.id}), now)
  {
    assert KnownArtist(env, item, idx.(recentAt := idx.recentAt - {item.id})) == KnownArtist(env, item, idx);
    PriorFalls(r, r + 1);
    PriorFalls(r', r' + 1);
    hide KnownArtist, AffinityKeyOf;
  }

  /** Indices that score alike but for what they know of artists. */
  ghost predicate SameOtherwise(idx: Index, idx': Index) {
    idx.recentAt == idx'.recentAt && idx.pickArtists == idx'.pickArtists && idx.maxCount == idx'.maxCount
  }

  /** A known artist played more often is worth more. */
  lemma RegularIsBetter(env: Env, item: Item, rank: nat, idx: Index, idx': Index, now: int)
    requires SameOtherwise(idx, idx') && idx.maxCount > 0
    requires KnownArtist(env, item, idx).Some? && KnownArtist(env, item, idx').Some?
    requires var a, a' := KnownArtist(env, item, idx).value, KnownArtist(env, item, idx').value;
             a' == a.(count := a'.count) && a.count < a'.count
    ensures Rel(env, item, rank, idx, now) < Rel(env, item, rank, idx', now)
  {
    var a, a' := KnownArtist(env, item, idx).value, KnownArtist(env, item, idx').value;
    Shares(a.count, a'.count, idx.maxCount);
    hide KnownArtist, AffinityKeyOf;
  }

  lemma Shares(a: int, b: int, max: int)
    requires a < b && max > 0
    ensures a as real / max as real < b as real / max as real
  {
  }

  /** A known artist heard later is worth at least as much. */
  lemma RecentArtistIsBetter(env: Env, item: Item, rank: nat, idx: Index, idx': Index, now: int)
    requires Decays(env) && SameOtherwise(idx, idx')
    requires KnownArtist(env, item, idx).Some? && KnownArtist(env, item, idx').Some?
    requires var a, a' := KnownArtist(env, item, idx).value, KnownArtist(env, item, idx').value;
             a' == a.(lastPlayedAt := a'.lastPlayedAt) && a.lastPlayedAt <= a'.lastPlayedAt
    ensures Rel(env, item, rank, idx, now) <= Rel(env, item, rank, idx', now)
    ensures var a, a' := KnownArtist(env, item, idx).value, KnownArtist(env, item, idx').value;
            a.lastPlayedAt <= 0 < a'.lastPlayedAt && env.decay(now - a'.lastPlayedAt, RECENCY_HALF_LIFE_MS) > 0.0 ==>
              Rel(env, item, rank, idx, now) < Rel(env, item, rank, idx', now)
  {
    var a, a' := KnownArtist(env, item, idx).value, KnownArtist(env, item, idx').value;
    var since, since' := now - a.lastPlayedAt, now - a'.lastPlayedAt;
    assert env.decay(since', RECENCY_HALF_LIFE_MS) >= env.decay(since, RECENCY_HALF_LIFE_MS) >= 0.0;
    hide KnownArtist, AffinityKeyOf, Decays;
  }

  /** An artist heard of is worth at least as much as one never heard of, more when played at all. */
  lemma KnownIsBetter(env: Env, item: Item, rank: nat, idx: Index, idx': Index, now: int)
    requires Decays(env) && SameOtherwise(idx, idx') && idx.maxCount > 0
    requires KnownArtist(env, item, idx).None? && KnownArtist(env, item, idx').Some?
    requires KnownArtist(env, item, idx').value.count > 0
    ensures Rel(env, item, rank, idx, now) < Rel(env, item, rank, idx', now)
  {
    var a := KnownArtist(env, item, idx').value;
    Shares(0, a.count, idx.maxCount);
    assert env.decay(now - a.lastPlayedAt, RECENCY_HALF_LIFE_MS) >= 0.0;
    hide KnownArtist, AffinityKeyOf, Decays;
  }

  /** A shortcut by the same artist raises a row. */
  lemma ShortcutIsBetter(env: Env, item: Item, rank: nat, idx: Index, now: int)
    requires var key := AffinityKeyOf(env, item); key != "" && key !in idx.pickArtists
    ensures Rel(env, item, rank, idx, now)
            < Rel(env, item, rank, idx.(pickArtists := idx.pickArtists + {AffinityKeyOf(env, item)}), now)
  {
    var idx' := idx.(pickArtists := idx.pickArtists + {AffinityKeyOf(env, item)});
    assert KnownArtist(env, item, idx') == KnownArtist(env, item, idx);
    hide KnownArtist, AffinityKeyOf;
  }

  /** A row with no artwork is worth less. */
  lemma ThinIsWorse(env: Env, item: Item, rank: nat, idx: Index, now: int)
    requires item.thumbnail != ""
    ensures Rel(env, item.(thumbnail := ""), rank, idx, now) < Rel(env, item, rank, idx, now)
  {
    assert KnownArtist(env, item.(thumbnail := ""), idx) == KnownArtist(env, item, idx);
    assert AffinityKeyOf(env, item.(thumbnail := "")) == AffinityKeyOf(env, item);
    hide KnownArtist, AffinityKeyOf;
  }

  predicate Named(env: Env, artist: Option<Artist>) {
    artist.Some? && artist.value.name != "" && env.lower(env.lead(artist.value.name)) != ""
  }

  predicate SameKey(env: Env, a: Item, b: Item) {
    AffinityKeyOf(env, a) == AffinityKeyOf(env, b) && env.lower(AffinityKeyOf(env, a)) != ""
  }

  /** Rows by one artist count as similar, whether it is known by name or only by its key; so do rows of a kind. */
  lemma SameArtistIsSimilar(env: Env, a: Item, b: Item, r: nat, r': nat, idx: Index, now: int)
    ensures var x, y := Score(env, a, r, idx, now), Score(env, b, r', idx, now);
            var known := KnownArtist(env, a, idx);
            && (known == KnownArtist(env, b, idx) && Named(env, known) ==>
                  SharesArtist(x, y) && x.artistName == known.value.name)
            && (known.None? && KnownArtist(env, b, idx).None? && SameKey(env, a, b) ==> SharesArtist(x, y))
            && (known.None? ==> x.artistName == env.lead(a.subtitle))
            && (a.kind == b.kind != "" ==> SharesKind(x, y))
  {
    hide KnownArtist, AffinityKeyOf;
  }

  // ---- the shelf as a whole --------------------------------------------------------------------

  /** Two rows that differ in nothing a score looks at but their id. */
  ghost predicate Twins(env: Env, a: Item, b: Item) {
    && AffinityKeyOf(env, a) == AffinityKeyOf(env, b) && a.subtitle == b.subtitle
    && a.kind == b.kind && (a.thumbnail != "" <==> b.thumbnail != "")
  }

  /** Of two rows alike, the earlier one that was not played comes before the one that was. */
  lemma FreshComesFirst(env: Env, pool: seq<Item>, idx: Index, now: int, i: nat, j: nat, k: nat)
    requires Decays(env) && i < j < |pool| && Twins(env, pool[i], pool[j]) && pool[i].id !in idx.recentAt
    requires var entries := Scored(env, pool, idx, now);
             k < |Greedy(entries, OUT_MAX)| && Greedy(entries, OUT_MAX)[k] == j
    ensures i in Greedy(Scored(env, pool, idx, now), OUT_MAX)[..k]
  {
    var entries := Scored(env, pool, idx, now);
    TwinScores(env, pool, idx, now, i, j);
    RelevantComesFirst(entries, OUT_MAX, i, j, k);
  }

  lemma TwinScores(env: Env, pool: seq<Item>, idx: Index, now: int, i: nat, j: nat)
    requires Decays(env) && i < j < |pool| && Twins(env, pool[i], pool[j]) && pool[i].id !in idx.recentAt
    ensures var x, y := Scored(env, pool, idx, now)[i], Scored(env, pool, idx, now)[j];
            x.rel > y.rel && x.simArtist == y.simArtist && x.simKind == y.simKind
  {
    var a, b := pool[i], pool[j];
    assert KnownArtist(env, a, idx) == KnownArtist(env, b, idx);
    PriorFalls(i, j);
    if b.id in idx.recentAt {
      assert env.decay(now - idx.recentAt[b.id], FATIGUE_HALF_LIFE_MS) >= 0.0;
    }
    hide KnownArtist, AffinityKeyOf, Decays;
  }
}
