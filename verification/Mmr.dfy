/**
 The diversity pass of the Home ranker (`rerank` in client/lib/recommendations.js): the naive greedy
 definition of Maximal Marginal Relevance, and the incremental pass that refines it. Scores are reals.
 */
module Mmr {
  import opened Common

  // ---- data ------------------------------------------------------------------------------------

  datatype Item = Item(
    id: string, title: string, kind: string, subtitle: string,
    artistId: string, artistRuns: seq<string>, thumbnail: string)

  datatype Parts = Parts(affinity: real, recency: real, pick: real, fatigue: real)

  datatype Entry = Entry(
    item: Item, rank: nat, rel: real, parts: Parts, simArtist: string, simKind: string, artistName: string)

  const MMR_LAMBDA := 0.72
  const SIM_ARTIST := 1.0
  const SIM_KIND := 0.28

  // ---- the diversity pass ----------------------------------------------------------------------

  function Similarity(a: Entry, b: Entry): real {
    if a.simArtist != "" && b.simArtist != "" && a.simArtist == b.simArtist then SIM_ARTIST
    else if a.simKind != "" && b.simKind != "" && a.simKind == b.simKind then SIM_KIND
    else 0.0
  }

  function MaxReal(a: real, b: real): real {
    if a >= b then a else b
  }

  predicate StringLess(a: string, b: string) {
    if b == "" then false
    else if a == "" then true
    else a[0] < b[0] || (a[0] == b[0] && StringLess(a[1..], b[1..]))
  }

  /** `beforeByRelevance(x, y) < 0`. */
  predicate Before(x: Entry, y: Entry) {
    x.rel > y.rel ||
    (x.rel == y.rel &&
     (x.rank < y.rank || (x.rank == y.rank && StringLess(x.item.id, y.item.id))))
  }

  /** Redundancy against everything chosen so far, recomputed from scratch. */
  function MaxSimilarity(c: Entry, pool: seq<Entry>, chosen: seq<nat>): real
    requires InRange(pool, chosen)
  {
    if chosen == [] then 0.0
    else MaxReal(MaxSimilarity(c, pool, chosen[..|chosen| - 1]), Similarity(c, pool[chosen[|chosen| - 1]]))
  }

  predicate InRange(pool: seq<Entry>, chosen: seq<nat>) {
    forall k :: 0 <= k < |chosen| ==> chosen[k] < |pool|
  }

  function Mmr(c: Entry, pool: seq<Entry>, chosen: seq<nat>): real
    requires InRange(pool, chosen)
  {
    MMR_LAMBDA * c.rel - (1.0 - MMR_LAMBDA) * MaxSimilarity(c, pool, chosen)
  }

  predicate Better(x: Entry, y: Entry, pool: seq<Entry>, chosen: seq<nat>)
    requires InRange(pool, chosen)
  {
    var mx, my := Mmr(x, pool, chosen), Mmr(y, pool, chosen);
    mx > my || (mx == my && Before(x, y))
  }

  /** The best index below `n` not chosen yet, first one wins a full tie. */
  function Best(pool: seq<Entry>, chosen: seq<nat>, n: nat): (best: Option<nat>)
    requires InRange(pool, chosen) && n <= |pool|
    ensures best.Some? ==> best.value < n && best.value !in chosen
    ensures best.None? ==> forall i :: 0 <= i < n ==> i in chosen
  {
    if n == 0 then None
    else
      var best := Best(pool, chosen, n - 1);
      if n - 1 in chosen then best
      else if best.None? || Better(pool[n - 1], pool[best.value], pool, chosen) then Some(n - 1)
      else best
  }

  /** Naive greedy MMR: quadratic in the number chosen, nothing carried between steps. */
  function Greedy(pool: seq<Entry>, limit: nat): (chosen: seq<nat>)
    ensures InRange(pool, chosen)
  {
    if limit == 0 then []
    else
      var chosen := Greedy(pool, limit - 1);
      match Best(pool, chosen, |pool|)
      case Some(i) => chosen + [i]
      case None => chosen
  }

  lemma StringLessOrder(a: string, b: string, c: string)
    ensures StringLess(a, b) ==> !StringLess(b, a)
    ensures StringLess(a, b) && StringLess(b, c) ==> StringLess(a, c)
    ensures a == b || StringLess(a, b) || StringLess(b, a)
  {
    if a != "" && b != "" {
      StringLessOrder(a[1..], b[1..], if c == "" then c else c[1..]);
      assert a == [a[0]] + a[1..] && b == [b[0]] + b[1..];
    }
  }

  /** The comparison is a strict weak order, so a single scan finds a maximum. */
  lemma BetterIsStrictWeak(x: Entry, y: Entry, z: Entry, pool: seq<Entry>, chosen: seq<nat>)
    requires InRange(pool, chosen)
    ensures Better(x, y, pool, chosen) ==> !Better(y, x, pool, chosen)
    ensures Better(x, y, pool, chosen) && !Better(z, y, pool, chosen) ==> Better(x, z, pool, chosen)
    ensures x.rank != y.rank ==> Better(x, y, pool, chosen) || Better(y, x, pool, chosen)
  {
    StringLessOrder(x.item.id, y.item.id, z.item.id);
    StringLessOrder(x.item.id, z.item.id, y.item.id);
    StringLessOrder(y.item.id, z.item.id, x.item.id);
    StringLessOrder(z.item.id, y.item.id, x.item.id);
  }

  /** `i` beats every other remaining candidate, or fully ties with it and comes first. */
  ghost predicate IsArgmax(pool: seq<Entry>, chosen: seq<nat>, n: nat, i: nat)
    requires InRange(pool, chosen) && n <= |pool|
  {
    && i < n && i !in chosen
    && forall j: nat :: j < n && j !in chosen && j != i ==>
         if j < i then Better(pool[i], pool[j], pool, chosen) else !Better(pool[j], pool[i], pool, chosen)
  }

  lemma {:induction false} BestIsArgmax(pool: seq<Entry>, chosen: seq<nat>, n: nat)
    requires InRange(pool, chosen) && n <= |pool|
    ensures Best(pool, chosen, n).Some? ==> IsArgmax(pool, chosen, n, Best(pool, chosen, n).value)
  {
    if n > 0 && Best(pool, chosen, n).Some? {
      BestIsArgmax(pool, chosen, n - 1);
      var best := Best(pool, chosen, n - 1);
      if n - 1 !in chosen && best.Some? && Better(pool[n - 1], pool[best.value], pool, chosen) {
        forall j: nat | j < n - 1 && j !in chosen
          ensures Better(pool[n - 1], pool[j], pool, chosen)
        {
          BetterIsStrictWeak(pool[n - 1], pool[best.value], pool[j], pool, chosen);
          BetterIsStrictWeak(pool[best.value], pool[j], pool[j], pool, chosen);
        }
      }
    }
  }

  /** Every pick is the maximum of the MMR score over what was still left when it was made. */
  ghost predicate IsGreedy(pool: seq<Entry>, chosen: seq<nat>)
    requires InRange(pool, chosen)
  {
    forall k :: 0 <= k < |chosen| ==> IsArgmax(pool, chosen[..k], |pool|, chosen[k])
  }

  lemma {:induction false} GreedyIsGreedy(pool: seq<Entry>, limit: nat)
    ensures var chosen := Greedy(pool, limit);
            |chosen| == Min(limit, |pool|) && Distinct(chosen) && IsGreedy(pool, chosen)
  {
    hide IsArgmax, Best;
    if limit > 0 {
      GreedyIsGreedy(pool, limit - 1);
      var front, chosen := Greedy(pool, limit - 1), Greedy(pool, limit);
      BestIsArgmax(pool, front, |pool|);
      DistinctFillsRange(front, |pool|);
      if chosen != front {
        assert chosen[..|front|] == front;
        assert forall k :: 0 <= k < |front| ==> chosen[..k] == front[..k];
        DistinctFillsRange(chosen, |pool|);
      }
    }
  }

  lemma GreedyUnfolds(pool: seq<Entry>, limit: nat)
    requires limit > 0
    ensures var front := Greedy(pool, limit - 1);
            |front| == Min(limit - 1, |pool|) &&
            if limit <= |pool|
            then Best(pool, front, |pool|).Some? &&
                 Greedy(pool, limit) == front + [Best(pool, front, |pool|).value]
            else Greedy(pool, limit) == front
  {
    GreedyIsGreedy(pool, limit - 1);
    GreedyIsGreedy(pool, limit);
  }

  function Entries(pool: seq<Entry>, chosen: seq<nat>): (e: seq<Entry>)
    requires InRange(pool, chosen)
  {
    seq(|chosen|, k requires 0 <= k < |chosen| => pool[chosen[k]])
  }

  ghost predicate DistinctRanks(pool: seq<Entry>) {
    forall i, j :: 0 <= i < j < |pool| ==> pool[i].rank != pool[j].rank
  }

  lemma MaxSimilarityByEntries(c: Entry, p: seq<Entry>, a: seq<nat>, q: seq<Entry>, b: seq<nat>)
    requires InRange(p, a) && InRange(q, b) && Entries(p, a) == Entries(q, b)
    ensures MaxSimilarity(c, p, a) == MaxSimilarity(c, q, b)
  {
    assert |a| == |Entries(p, a)| == |Entries(q, b)| == |b|;
    if a != [] {
      var n := |a| - 1;
      assert Entries(p, a)[n] == Entries(q, b)[n];
      assert Entries(p, a[..n]) == Entries(p, a)[..n] == Entries(q, b)[..n] == Entries(q, b[..n]);
      MaxSimilarityByEntries(c, p, a[..n], q, b[..n]);
    }
  }

  /** An argmax of one list is not beaten, in the other list's terms, by that list's argmax. */
  lemma ArgmaxBeats(p: seq<Entry>, a: seq<nat>, i: nat, q: seq<Entry>, b: seq<nat>, j: nat)
    requires InRange(p, a) && InRange(q, b) && Entries(p, a) == Entries(q, b)
    requires multiset(p) == multiset(q) && DistinctRanks(p)
    requires IsArgmax(p, a, |p|, i) && j < |q| && j !in b && DistinctRanks(q)
    ensures p[i] == q[j] || Better(p[i], q[j], p, a)
  {
    assert q[j] in multiset(p);
    var j' :| 0 <= j' < |p| && p[j'] == q[j];
    forall k | 0 <= k < |a| ensures a[k] != j' {
      assert Entries(p, a)[k] == Entries(q, b)[k];
    }
    if j' != i {
      BetterIsStrictWeak(p[i], p[j'], p[i], p, a);
    }
  }

  /** One greedy step over two lists with the same rows picks the same row. */
  lemma StepIgnoresOrder(p: seq<Entry>, a: seq<nat>, q: seq<Entry>, b: seq<nat>)
    requires InRange(p, a) && InRange(q, b) && Entries(p, a) == Entries(q, b)
    requires multiset(p) == multiset(q) && DistinctRanks(p) && DistinctRanks(q)
    requires Best(p, a, |p|).Some? && Best(q, b, |q|).Some?
    ensures p[Best(p, a, |p|).value] == q[Best(q, b, |q|).value]
  {
    var i, j := Best(p, a, |p|).value, Best(q, b, |q|).value;
    BestIsArgmax(p, a, |p|);
    BestIsArgmax(q, b, |q|);
    ArgmaxBeats(p, a, i, q, b, j);
    ArgmaxBeats(q, b, j, p, a, i);
    MaxSimilarityByEntries(p[i], p, a, q, b);
    MaxSimilarityByEntries(q[j], p, a, q, b);
    BetterIsStrictWeak(p[i], q[j], p[i], p, a);
  }

  /** With pairwise distinct ranks the shelf does not depend on the order of the list. */
  lemma {:induction false} GreedyIgnoresOrder(p: seq<Entry>, q: seq<Entry>, limit: nat)
    requires multiset(p) == multiset(q) && DistinctRanks(p) && DistinctRanks(q)
    ensures Entries(p, Greedy(p, limit)) == Entries(q, Greedy(q, limit))
  {
    assert |p| == |multiset(p)| == |multiset(q)| == |q|;
    if limit > 0 {
      GreedyIgnoresOrder(p, q, limit - 1);
      GreedyUnfolds(p, limit);
      GreedyUnfolds(q, limit);
      if limit <= |p| {
        StepIgnoresOrder(p, Greedy(p, limit - 1), q, Greedy(q, limit - 1));
        EntriesAppend(p, Greedy(p, limit - 1), Best(p, Greedy(p, limit - 1), |p|).value);
        EntriesAppend(q, Greedy(q, limit - 1), Best(q, Greedy(q, limit - 1), |q|).value);
      }
    }
  }

  lemma EntriesAppend(pool: seq<Entry>, chosen: seq<nat>, i: nat)
    requires InRange(pool, chosen) && i < |pool|
    ensures InRange(pool, chosen + [i]) && Entries(pool, chosen + [i]) == Entries(pool, chosen) + [pool[i]]
  {
  }

  // ---- the incremental pass --------------------------------------------------------------------

  /** A candidate as the ranker mutates it. */
  class Candidate {
    const entry: Entry
    var maxSimilarity: real
    var selected: bool

    constructor (entry: Entry)
      ensures this.entry == entry
    {
      this.entry := entry;
      maxSimilarity := 0.0;
      selected := false;
    }
  }

  ghost predicate AllDistinct(scored: seq<Candidate>) {
    forall i, j :: 0 <= i < j < |scored| ==> scored[i] != scored[j]
  }

  ghost function Pool(scored: seq<Candidate>): seq<Entry> {
    seq(|scored|, i requires 0 <= i < |scored| => scored[i].entry)
  }

  ghost predicate Marks(scored: seq<Candidate>, picks: seq<nat>)
    reads scored
  {
    forall i: nat :: i < |scored| ==> (scored[i].selected <==> i in picks)
  }

  /** The running maxima of the candidates in `lo..hi` not picked yet are those against `seen`. */
  ghost predicate Running(scored: seq<Candidate>, lo: nat, hi: nat, picks: seq<nat>, seen: seq<nat>)
    requires hi <= |scored| && InRange(Pool(scored), seen)
    reads scored
  {
    forall i: nat :: lo <= i < hi && i !in picks ==>
      scored[i].maxSimilarity == MaxSimilarity(scored[i].entry, Pool(scored), seen)
  }

  /** All picks but the last: what the running maxima account for when a new pass starts. */
  ghost function Earlier(picks: seq<nat>): seq<nat> {
    if picks == [] then [] else picks[..|picks| - 1]
  }

  lemma BestStep(pool: seq<Entry>, chosen: seq<nat>, n: nat)
    requires InRange(pool, chosen) && n < |pool|
    ensures Best(pool, chosen, 0) == None
    ensures var best := Best(pool, chosen, n);
            Best(pool, chosen, n + 1) ==
            if n in chosen then best
            else if best.None? then Some(n)
            else
              var mx, my := Mmr(pool[n], pool, chosen), Mmr(pool[best.value], pool, chosen);
              if mx > my || (mx == my && Before(pool[n], pool[best.value])) then Some(n) else best
  {
    hide Mmr, Before;
  }

  /** One pass over the pool: bring the maxima up to date with the last pick, and find the best. */
  method NextBest(scored: seq<Candidate>, chosen: seq<Candidate>, ghost picks: seq<nat>)
    returns (best: Option<nat>)
    requires AllDistinct(scored) && InRange(Pool(scored), picks) && Marks(scored, picks)
    requires |chosen| == |picks| && (chosen != [] ==> chosen[|chosen| - 1] == scored[picks[|picks| - 1]])
    requires Running(scored, 0, |scored|, picks, Earlier(picks))
    modifies scored
    ensures Marks(scored, picks) && Running(scored, 0, |scored|, picks, picks)
    ensures best == Best(Pool(scored), picks, |scored|)
  {
    hide Before, Similarity, Best, Better;
    ghost var pool := Pool(scored);
    best := None;
    assert Best(pool, picks, 0) == None by {
      if pool != [] {
        BestStep(pool, picks, 0);
      }
    }
    var bestScore := 0.0;
    var j := 0;
    while j < |scored|
      invariant 0 <= j <= |scored|
      invariant Marks(scored, picks)
      invariant Running(scored, 0, j, picks, picks)
      invariant Running(scored, j, |scored|, picks, Earlier(picks))
      invariant best == Best(pool, picks, j)
      invariant best.Some? ==> bestScore == Mmr(pool[best.value], pool, picks)
    {
      var candidate := scored[j];
      assert candidate.entry == pool[j];
      BestStep(pool, picks, j);
      if !candidate.selected {
        if chosen != [] {
          candidate.maxSimilarity :=
            MaxReal(candidate.maxSimilarity, Similarity(candidate.entry, chosen[|chosen| - 1].entry));
        }
        assert candidate.maxSimilarity == MaxSimilarity(pool[j], pool, picks);
        var mmr := MMR_LAMBDA * candidate.entry.rel - (1.0 - MMR_LAMBDA) * candidate.maxSimilarity;
        assert mmr == Mmr(pool[j], pool, picks);
        if best.None? || mmr > bestScore
           || (mmr == bestScore && Before(candidate.entry, scored[best.value].entry)) {
          best, bestScore := Some(j), mmr;
        }
      }
      j := j + 1;
    }
  }

  method Reset(scored: seq<Candidate>)
    modifies scored
    ensures Marks(scored, []) && Running(scored, 0, |scored|, [], [])
  {
    var k := 0;
    while k < |scored|
      invariant 0 <= k <= |scored|
      invariant forall i :: 0 <= i < k ==> scored[i].maxSimilarity == 0.0 && !scored[i].selected
    {
      scored[k].maxSimilarity := 0.0;
      scored[k].selected := false;
      k := k + 1;
    }
  }

  method Select(scored: seq<Candidate>, ghost picks: seq<nat>, i: nat)
    requires AllDistinct(scored) && InRange(Pool(scored), picks) && i < |scored|
    requires Marks(scored, picks) && Running(scored, 0, |scored|, picks, picks)
    modifies scored[i]
    ensures Marks(scored, picks + [i]) && Running(scored, 0, |scored|, picks + [i], picks)
  {
    scored[i].selected := true;
  }

  /** The candidates as the loop keeps them between two picks. */
  ghost predicate Ready(scored: seq<Candidate>, picks: seq<nat>)
    reads scored
  {
    && InRange(Pool(scored), picks) && Marks(scored, picks)
    && Running(scored, 0, |scored|, picks, Earlier(picks))
  }

  /** What the loop has chosen so far is the naive selection. */
  ghost predicate Selected(scored: seq<Candidate>, chosen: seq<Candidate>, picks: seq<nat>)
    reads scored
  {
    Ready(scored, picks) && chosen == Take(scored, picks) && picks == Greedy(Pool(scored), |picks|)
  }

  /** Choose one more: the next of the naive selection. */
  method PickNext(scored: seq<Candidate>, chosen: seq<Candidate>, ghost picks: seq<nat>) returns (best: Option<nat>)
    requires AllDistinct(scored) && Selected(scored, chosen, picks) && |picks| < |scored|
    modifies scored
    ensures best.Some? && best.value < |scored|
    ensures Selected(scored, chosen + [scored[best.value]], picks + [best.value])
  {
    LastTaken(scored, picks);
    GreedyUnfolds(Pool(scored), |picks| + 1);
    hide Greedy, Best, Marks, Running, Take, AllDistinct;
    best := NextBest(scored, chosen, picks);
    Select(scored, picks, best.value);
    assert Earlier(picks + [best.value]) == picks;
    TakeAppend(scored, picks, best.value);
  }

  lemma StartSelected(scored: seq<Candidate>)
    requires Marks(scored, []) && Running(scored, 0, |scored|, [], [])
    ensures Selected(scored, [], [])
  {
    assert Earlier([]) == [];
  }

  lemma ChosenAre(scored: seq<Candidate>, limit: nat, chosen: seq<Candidate>, picks: seq<nat>)
    requires AllDistinct(scored) && Selected(scored, chosen, picks)
    requires |picks| <= limit && |picks| <= |scored| && (|picks| == limit || |picks| == |scored|)
    ensures |chosen| == Min(limit, |scored|) && AllDistinct(chosen)
            && (forall c :: c in chosen ==> c in scored)
            && Pool(chosen) == Entries(Pool(scored), Greedy(Pool(scored), limit))
  {
    GreedySaturates(Pool(scored), limit, |picks|);
    TakenAreDistinct(scored, limit);
    hide Greedy, AllDistinct, Entries;
  }

  /** One running maximum per candidate, updated against the last pick only. */
  method Rerank(scored: seq<Candidate>, limit: nat) returns (chosen: seq<Candidate>)
    requires AllDistinct(scored)
    modifies scored
    ensures |chosen| == Min(limit, |scored|) && AllDistinct(chosen)
    ensures forall c :: c in chosen ==> c in scored
    ensures Pool(chosen) == Entries(Pool(scored), Greedy(Pool(scored), limit))
  {
    Reset(scored);
    ghost var picks: seq<nat> := [];
    chosen := [];
    StartSelected(scored);
    hide *;
    while |chosen| < limit && |chosen| < |scored|
      invariant Selected(scored, chosen, picks) && |picks| == |chosen| && |chosen| <= limit && |chosen| <= |scored|
    {
      var best := PickNext(scored, chosen, picks);
      if best.None? {
        break;
      }
      chosen := chosen + [scored[best.value]];
      picks := picks + [best.value];
    }
    ChosenAre(scored, limit, chosen, picks);
  }

  function Take(scored: seq<Candidate>, picks: seq<nat>): seq<Candidate>
    requires forall k :: 0 <= k < |picks| ==> picks[k] < |scored|
  {
    seq(|picks|, k requires 0 <= k < |picks| => scored[picks[k]])
  }

  lemma LastTaken(scored: seq<Candidate>, picks: seq<nat>)
    requires InRange(Pool(scored), picks)
    ensures |Take(scored, picks)| == |picks|
    ensures picks != [] ==> Take(scored, picks)[|picks| - 1] == scored[picks[|picks| - 1]]
  {
  }

  lemma TakeAppend(scored: seq<Candidate>, picks: seq<nat>, i: nat)
    requires i < |scored| && forall k :: 0 <= k < |picks| ==> picks[k] < |scored|
    ensures Take(scored, picks + [i]) == Take(scored, picks) + [scored[i]]
  {
  }

  lemma TakenAreDistinct(scored: seq<Candidate>, limit: nat)
    requires AllDistinct(scored)
    ensures var pool := Pool(scored);
            var chosen := Take(scored, Greedy(pool, limit));
            AllDistinct(chosen) && (forall c :: c in chosen ==> c in scored) &&
            Pool(chosen) == Entries(pool, Greedy(pool, limit))
  {
    GreedyIsGreedy(Pool(scored), limit);
  }

  lemma {:induction false} GreedySaturates(pool: seq<Entry>, limit: nat, n: nat)
    requires Min(limit, |pool|) == n <= limit
    ensures Greedy(pool, limit) == Greedy(pool, n)
  {
    if limit > n {
      GreedyUnfolds(pool, limit);
      GreedySaturates(pool, limit - 1, n);
    }
  }
}
