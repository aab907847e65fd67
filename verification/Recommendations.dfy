/**
 The Home discovery ranker (client/lib/recommendations.js, client/lib/ids.js): folding the personal
 blob into lookups, the candidate pool, scoring, and the whole `build`.

 The text functions, the decay curve and the credit splitting are taken as given (`Env`). JavaScript
 objects used as dictionaries are entry lists in enumeration order.
 */
module Recommendations {
  import opened Common
  import opened Mmr

  datatype Env = Env(
    decay: (int, int) -> real,
    lead: string -> string,
    lower: string -> string,
    trim: string -> string)

  datatype Artist = Artist(count: int, lastPlayedAt: int, name: string)

  datatype Blob = Blob(recent: seq<(string, int)>, artists: seq<(string, Artist)>, picks: seq<Item>)

  const OUT_MAX: nat := 12
  const POOL_MAX: nat := 300
  const RECENCY_HALF_LIFE_MS := 14 * 86_400_000
  const FATIGUE_HALF_LIFE_MS := 3 * 86_400_000
  const RANK_DECAY := 0.06
  const W_RANK := 0.45
  const W_ARTIST := 0.40
  const W_RECENCY := 0.20
  const W_PICK := 0.15
  const W_FATIGUE := 0.70
  const W_META := 0.30

  // ---- ids -------------------------------------------------------------------------------------

  function ProviderOf(id: string): string {
    if id == "" then ""
    else if "LOCAL:" <= id || "LOCALALBUM:" <= id || "LOCALARTIST:" <= id then "local"
    else if "RYOTUNES_RADIO:" <= id then "radio"
    else if "spotify:" <= id then "spotify"
    else if "sc:" <= id then "soundcloud"
    else if "tidal:" <= id then "tidal"
    else "youtube"
  }

  predicate Own(id: string, provider: string) {
    ProviderOf(id) == provider
  }

  function FirstRun(runs: seq<string>): string {
    if runs == [] then "" else if runs[0] != "" then runs[0] else FirstRun(runs[1..])
  }

  function AffinityKeyOf(env: Env, item: Item): string {
    if item.artistId != "" then item.artistId
    else if FirstRun(item.artistRuns) != "" then FirstRun(item.artistRuns)
    else if item.kind == "artist" then item.id
    else env.lead(item.subtitle)
  }

  predicate Usable(env: Env, item: Item) {
    item.id != "" && env.trim(item.title) != "" && item.kind in ["song", "album", "playlist", "artist"]
  }

  // ---- the personal index ----------------------------------------------------------------------

  datatype Index = Index(
    recentAt: map<string, int>,
    artists: map<string, Artist>,
    artistNames: map<string, Artist>,
    maxCount: int,
    pickIds: set<string>,
    pickArtists: set<string>,
    personalized: bool)

  const EMPTY_INDEX := Index(map[], map[], map[], 0, {}, {}, false)

  function AddRecent(idx: Index, row: (string, int), provider: string): Index {
    if !Own(row.0, provider) then idx
    else idx.(recentAt := idx.recentAt[row.0 := row.1], personalized := true)
  }

  function AddArtist(env: Env, idx: Index, row: (string, Artist), provider: string): Index {
    var (key, a) := row;
    if !Own(key, provider) || a.count <= 0 then idx
    else
      var nameKey := env.lower(env.lead(a.name));
      idx.(artists := idx.artists[key := a],
           artistNames :=
             if nameKey != "" && (nameKey in idx.artistNames ==> idx.artistNames[nameKey].count < a.count)
             then idx.artistNames[nameKey := a] else idx.artistNames,
           maxCount := Max(idx.maxCount, a.count),
           personalized := true)
  }

  function AddPick(env: Env, idx: Index, p: Item, provider: string): Index {
    var idx' := idx.(pickIds := idx.pickIds + {p.id});
    if !Own(p.id, provider) then idx'
    else
      var key := AffinityKeyOf(env, p);
      idx'.(pickArtists := if key != "" then idx.pickArtists + {key} else idx.pickArtists,
            personalized := true)
  }

  function RecentIndex(rows: seq<(string, int)>, provider: string): Index {
    if rows == [] then EMPTY_INDEX
    else AddRecent(RecentIndex(rows[..|rows| - 1], provider), rows[|rows| - 1], provider)
  }

  function ArtistIndex(env: Env, idx: Index, rows: seq<(string, Artist)>, provider: string): Index {
    if rows == [] then idx
    else AddArtist(env, ArtistIndex(env, idx, rows[..|rows| - 1], provider), rows[|rows| - 1], provider)
  }

  function PickIndex(env: Env, idx: Index, rows: seq<Item>, provider: string): Index {
    if rows == [] then idx
    else AddPick(env, PickIndex(env, idx, rows[..|rows| - 1], provider), rows[|rows| - 1], provider)
  }

  function IndexOf(env: Env, blob: Blob, provider: string): Index {
    PickIndex(env,
      ArtistIndex(env, RecentIndex(blob.recent, provider), blob.artists, provider), blob.picks, provider)
  }

  // ---- the candidate pool ----------------------------------------------------------------------

  function Flatten(sections: seq<seq<Item>>): seq<Item> {
    if sections == [] then [] else Flatten(sections[..|sections| - 1]) + sections[|sections| - 1]
  }

  /** The ids of the usable rows met so far. */
  function Seen(env: Env, rows: seq<Item>): set<string> {
    if rows == [] then {}
    else
      var front, it := Seen(env, rows[..|rows| - 1]), rows[|rows| - 1];
      if Usable(env, it) then front + {it.id} else front
  }

  /** The first usable row of each own id that is no shortcut, in feed order, up to the cap. */
  function PoolItems(env: Env, rows: seq<Item>, provider: string, pickIds: set<string>): (pool: seq<Item>)
    ensures |pool| <= POOL_MAX
  {
    if rows == [] then []
    else
      var front, it := rows[..|rows| - 1], rows[|rows| - 1];
      var pool := PoolItems(env, front, provider, pickIds);
      if |pool| < POOL_MAX && Usable(env, it) && it.id !in Seen(env, front)
         && Own(it.id, provider) && it.id !in pickIds
      then pool + [it] else pool
  }

  // ---- scoring ---------------------------------------------------------------------------------

  function KnownArtist(env: Env, item: Item, idx: Index): Option<Artist> {
    var key, name := AffinityKeyOf(env, item), env.lower(env.lead(item.subtitle));
    if key in idx.artists then Some(idx.artists[key])
    else if name in idx.artistNames then Some(idx.artistNames[name])
    else None
  }

  function Score(env: Env, item: Item, rank: nat, idx: Index, now: int): Entry {
    var key := AffinityKeyOf(env, item);
    var art := KnownArtist(env, item, idx);
    var affinity := if art.Some? && idx.maxCount > 0
                    then art.value.count as real / idx.maxCount as real else 0.0;
    var recency := if art.Some? && art.value.lastPlayedAt > 0
                   then env.decay(now - art.value.lastPlayedAt, RECENCY_HALF_LIFE_MS) else 0.0;
    var pick := if key != "" && key in idx.pickArtists then 1.0 else 0.0;
    var fatigue := if item.id in idx.recentAt
                   then env.decay(now - idx.recentAt[item.id], FATIGUE_HALF_LIFE_MS) else 0.0;
    var thin := if item.thumbnail != "" then 0.0 else 1.0;
    var rel := W_RANK * (1.0 / (1.0 + RANK_DECAY * rank as real)) + W_ARTIST * affinity
               + W_RECENCY * recency + W_PICK * pick - W_FATIGUE * fatigue - W_META * thin;
    var named := art.Some? && art.value.name != "";
    Entry(item, rank, rel,
          Parts(W_ARTIST * affinity, W_RECENCY * recency, W_PICK * pick, fatigue),
          if named then env.lower(env.lead(art.value.name)) else env.lower(key),
          item.kind,
          if named then art.value.name else env.lead(item.subtitle))
  }

  function Scored(env: Env, pool: seq<Item>, idx: Index, now: int): (entries: seq<Entry>)
    ensures |entries| == |pool|
    ensures forall i :: 0 <= i < |pool| ==> entries[i].item == pool[i] && entries[i].rank == i
  {
    seq(|pool|, i requires 0 <= i < |pool| => Score(env, pool[i], i, idx, now))
  }

  // ---- presentation ----------------------------------------------------------------------------

  function ProviderLabel(provider: string): string {
    if provider == "youtube" then "YouTube Music"
    else if provider == "spotify" then "Spotify"
    else if provider == "soundcloud" then "SoundCloud"
    else "your feed"
  }

  function ReasonFor(e: Entry, provider: string): string {
    var p, named := e.parts, e.artistName != "";
    if named && p.affinity >= p.recency && p.affinity >= p.pick && p.affinity > 0.0 then
      "More from " + e.artistName + ", one of your regulars"
    else if named && p.recency >= p.pick && p.recency > 0.0 then
      "You've had " + e.artistName + " on lately"
    else if named && p.pick > 0.0 then "Close to your shortcut " + e.artistName
    else "From " + ProviderLabel(provider) + "'s recommendations"
  }

  const NOTHING_NEW := "Nothing new to surface here yet — this fills in as your "
  const FEED_GROWS := " feed grows."
  const FOR_YOU :=
    "Based on your recent listening and shortcuts, with room for different artists. Ranked on your device."
  const VARIED := "A varied selection from "
  const WILL_SHAPE := ". Your listening will help shape future picks."

  function Explain(personalized: bool, provider: string, count: nat): string {
    if count == 0 then NOTHING_NEW + ProviderLabel(provider) + FEED_GROWS
    else if personalized then FOR_YOU
    else VARIED + ProviderLabel(provider) + WILL_SHAPE
  }

  datatype Shown = Shown(item: Item, reason: string)
  datatype Shelf = Shelf(items: seq<Shown>, explanation: string)

  function Present(chosen: seq<Entry>, provider: string): (shown: seq<Shown>)
  {
    seq(|chosen|, i requires 0 <= i < |chosen| => Shown(chosen[i].item, ReasonFor(chosen[i], provider)))
  }

  function ShelfOf(env: Env, pool: seq<Item>, idx: Index, provider: string, now: int): Shelf {
    var entries := Scored(env, pool, idx, now);
    var chosen := Entries(entries, Greedy(entries, OUT_MAX));
    Shelf(Present(chosen, provider), Explain(idx.personalized, provider, |chosen|))
  }

  function ActiveProvider(provider: string): string {
    if provider != "" then provider else "youtube"
  }

  /** The whole feature as a function of the feed, the blob, the provider and the clock. */
  function Build(env: Env, sections: seq<seq<Item>>, blob: Blob, provider: string, now: int): Shelf {
    var prov := ActiveProvider(provider);
    var idx := IndexOf(env, blob, prov);
    ShelfOf(env, PoolItems(env, Flatten(sections), prov, idx.pickIds), idx, prov, now)
  }

  // ---- provider boundaries ---------------------------------------------------------------------

  function Keep<T>(rows: seq<T>, keep: T -> bool): seq<T> {
    if rows == [] then []
    else
      var front, last := Keep(rows[..|rows| - 1], keep), rows[|rows| - 1];
      if keep(last) then front + [last] else front
  }

  function OwnItems(rows: seq<Item>, provider: string): seq<Item> {
    Keep(rows, (it: Item) => Own(it.id, provider))
  }

  /** The blob with every row of another provider deleted. */
  function OwnBlob(blob: Blob, provider: string): Blob {
    Blob(Keep(blob.recent, (row: (string, int)) => Own(row.0, provider)),
         Keep(blob.artists, (row: (string, Artist)) => Own(row.0, provider)),
         OwnItems(blob.picks, provider))
  }

  /** Equal up to shortcut ids of other providers. */
  ghost predicate SameIndex(a: Index, b: Index, provider: string) {
    && a.(pickIds := {}) == b.(pickIds := {})
    && forall id :: Own(id, provider) ==> (id in a.pickIds <==> id in b.pickIds)
  }

  lemma {:induction false} RecentIgnoresForeign(rows: seq<(string, int)>, provider: string)
    ensures RecentIndex(rows, provider)
            == RecentIndex(Keep(rows, (row: (string, int)) => Own(row.0, provider)), provider)
  {
    if rows != [] {
      RecentIgnoresForeign(rows[..|rows| - 1], provider);
    }
  }

  lemma {:induction false} ArtistsIgnoreForeign(env: Env, idx: Index, rows: seq<(string, Artist)>, provider: string)
    ensures ArtistIndex(env, idx, rows, provider)
            == ArtistIndex(env, idx, Keep(rows, (row: (string, Artist)) => Own(row.0, provider)), provider)
  {
    if rows != [] {
      ArtistsIgnoreForeign(env, idx, rows[..|rows| - 1], provider);
    }
  }

  lemma {:induction false} PicksIgnoreForeign(env: Env, idx: Index, rows: seq<Item>, provider: string)
    ensures SameIndex(PickIndex(env, idx, rows, provider),
                      PickIndex(env, idx, OwnItems(rows, provider), provider), provider)
  {
    hide Own, AffinityKeyOf;
    if rows != [] {
      PicksIgnoreForeign(env, idx, rows[..|rows| - 1], provider);
    }
  }

  lemma {:induction false} SeenIgnoresForeign(env: Env, rows: seq<Item>, provider: string, id: string)
    requires Own(id, provider)
    ensures id in Seen(env, rows) <==> id in Seen(env, OwnItems(rows, provider))
  {
    if rows != [] {
      SeenIgnoresForeign(env, rows[..|rows| - 1], provider, id);
    }
  }

  lemma {:induction false} PoolIgnoresForeign(
    env: Env, rows: seq<Item>, provider: string, ids: set<string>, ids': set<string>)
    requires forall id :: Own(id, provider) ==> (id in ids <==> id in ids')
    ensures PoolItems(env, rows, provider, ids) == PoolItems(env, OwnItems(rows, provider), provider, ids')
  {
    if rows != [] {
      var front, last := rows[..|rows| - 1], rows[|rows| - 1];
      PoolIgnoresForeign(env, front, provider, ids, ids');
      if Own(last.id, provider) {
        SeenIgnoresForeign(env, front, provider, last.id);
        assert OwnItems(rows, provider)[..|OwnItems(front, provider)|] == OwnItems(front, provider);
      }
    }
  }

  /** The feed with every row of another provider deleted from its section. */
  function OwnSections(sections: seq<seq<Item>>, provider: string): seq<seq<Item>> {
    seq(|sections|, i requires 0 <= i < |sections| => OwnItems(sections[i], provider))
  }

  lemma {:induction false} KeepConcat<T>(a: seq<T>, b: seq<T>, keep: T -> bool)
    ensures Keep(a + b, keep) == Keep(a, keep) + Keep(b, keep)
  {
    if b == [] {
      assert a + b == a;
    } else {
      var front := b[..|b| - 1];
      KeepConcat(a, front, keep);
      assert (a + b)[..|a + b| - 1] == a + front;
      if keep(b[|b| - 1]) {
        Regroup(Keep(a, keep), Keep(front, keep), [b[|b| - 1]]);
      }
    }
  }

  lemma {:induction false} FlattenOwn(sections: seq<seq<Item>>, provider: string)
    ensures Flatten(OwnSections(sections, provider)) == OwnItems(Flatten(sections), provider)
  {
    if sections != [] {
      var front, last := sections[..|sections| - 1], sections[|sections| - 1];
      FlattenOwn(front, provider);
      var own := OwnSections(sections, provider);
      assert own[..|own| - 1] == OwnSections(front, provider) && own[|own| - 1] == OwnItems(last, provider);
      hide OwnSections;
      KeepConcat(Flatten(front), last, (it: Item) => Own(it.id, provider));
    }
  }

  /** Provider non-interference: the shelf is what it is with every row of another provider deleted. */
  lemma ForeignRowsNeverMatter(env: Env, provider: string, now: int, sections: seq<seq<Item>>, blob: Blob)
    ensures var prov := ActiveProvider(provider);
            Build(env, sections, blob, provider, now)
            == Build(env, OwnSections(sections, prov), OwnBlob(blob, prov), provider, now)
  {
    var prov := ActiveProvider(provider);
    FlattenOwn(sections, prov);
    DeletingForeignRows(env, prov, now, Flatten(sections), blob);
    hide ShelfOf, PoolItems, IndexOf, OwnBlob, OwnItems, Flatten, ActiveProvider, OwnSections;
  }

  /** Two runs that agree on the active provider's rows show the same shelf. */
  lemma OwnRowsDecide(env: Env, provider: string, now: int,
                      sections: seq<seq<Item>>, blob: Blob, sections': seq<seq<Item>>, blob': Blob)
    ensures var prov := ActiveProvider(provider);
            OwnItems(Flatten(sections), prov) == OwnItems(Flatten(sections'), prov)
            && OwnBlob(blob, prov) == OwnBlob(blob', prov)
            ==> Build(env, sections, blob, provider, now) == Build(env, sections', blob', provider, now)
  {
    var prov := ActiveProvider(provider);
    DeletingForeignRows(env, prov, now, Flatten(sections), blob);
    DeletingForeignRows(env, prov, now, Flatten(sections'), blob');
    hide ShelfOf, PoolItems, IndexOf, OwnBlob, OwnItems, Flatten, ActiveProvider;
  }

  /** Scoring never reads the shortcut ids. */
  lemma ShelfIgnoresPickIds(env: Env, pool: seq<Item>, idx: Index, prov: string, now: int)
    ensures ShelfOf(env, pool, idx, prov, now) == ShelfOf(env, pool, idx.(pickIds := {}), prov, now)
  {
    var idx' := idx.(pickIds := {});
    forall i | 0 <= i < |pool|
      ensures Score(env, pool[i], i, idx, now) == Score(env, pool[i], i, idx', now)
    {
      assert KnownArtist(env, pool[i], idx) == KnownArtist(env, pool[i], idx');
    }
    assert Scored(env, pool, idx, now) == Scored(env, pool, idx', now);
  }

  lemma IndexIgnoresForeign(env: Env, blob: Blob, prov: string)
    ensures SameIndex(IndexOf(env, blob, prov), IndexOf(env, OwnBlob(blob, prov), prov), prov)
  {
    RecentIgnoresForeign(blob.recent, prov);
    ArtistsIgnoreForeign(env, RecentIndex(blob.recent, prov), blob.artists, prov);
    PicksIgnoreForeign(env, ArtistIndex(env, RecentIndex(blob.recent, prov), blob.artists, prov),
                       blob.picks, prov);
  }

  lemma DeletingForeignRows(env: Env, prov: string, now: int, rows: seq<Item>, blob: Blob)
    ensures var idx, own := IndexOf(env, blob, prov), IndexOf(env, OwnBlob(blob, prov), prov);
            ShelfOf(env, PoolItems(env, rows, prov, idx.pickIds), idx, prov, now)
            == ShelfOf(env, PoolItems(env, OwnItems(rows, prov), prov, own.pickIds), own, prov, now)
  {
    IndexIgnoresForeign(env, blob, prov);
    var idx, own := IndexOf(env, blob, prov), IndexOf(env, OwnBlob(blob, prov), prov);
    PoolIgnoresForeign(env, rows, prov, idx.pickIds, own.pickIds);
    var pool := PoolItems(env, rows, prov, idx.pickIds);
    ShelfIgnoresPickIds(env, pool, idx, prov, now);
    ShelfIgnoresPickIds(env, pool, own, prov, now);
  }

  // ---- what the shelf holds --------------------------------------------------------------------

  ghost predicate Offerable(env: Env, rows: seq<Item>, provider: string, blob: Blob, it: Item) {
    && it in rows && Usable(env, it) && Own(it.id, provider)
    && forall p :: p in blob.picks ==> p.id != it.id
  }

  lemma {:induction false} PickIdsAreShortcuts(env: Env, idx: Index, rows: seq<Item>, provider: string)
    ensures forall p :: p in rows ==> p.id in PickIndex(env, idx, rows, provider).pickIds
  {
    if rows != [] {
      PickIdsAreShortcuts(env, idx, rows[..|rows| - 1], provider);
      assert rows == rows[..|rows| - 1] + [rows[|rows| - 1]];
    }
  }

  ghost predicate SoundPool(env: Env, rows: seq<Item>, provider: string, ids: set<string>, pool: seq<Item>) {
    && (forall i :: 0 <= i < |pool| ==>
          pool[i] in rows && pool[i].id in Seen(env, rows) &&
          Usable(env, pool[i]) && Own(pool[i].id, provider) && pool[i].id !in ids)
    && (forall i, j :: 0 <= i < j < |pool| ==> pool[i].id != pool[j].id)
  }

  lemma {:induction false} PoolIsSound(env: Env, rows: seq<Item>, provider: string, ids: set<string>)
    ensures SoundPool(env, rows, provider, ids, PoolItems(env, rows, provider, ids))
  {
    if rows != [] {
      var front := rows[..|rows| - 1];
      PoolIsSound(env, front, provider, ids);
      var pool := PoolItems(env, front, provider, ids);
      assert SoundPool(env, front, provider, ids, pool);
      assert rows == front + [rows[|rows| - 1]];
      assert SoundPool(env, rows, provider, ids, pool);
    }
  }

  /**
   At most twelve rows, each a usable row of the feed from the active provider and not a shortcut,
   no id twice; and the order does not depend on the order of the scored list, its ranks being distinct.
   */
  lemma ShelfIsSound(env: Env, sections: seq<seq<Item>>, blob: Blob, provider: string, now: int)
    ensures var shelf := Build(env, sections, blob, provider, now);
            var prov := ActiveProvider(provider);
            && |shelf.items|
               == Min(OUT_MAX, |PoolItems(env, Flatten(sections), prov, IndexOf(env, blob, prov).pickIds)|)
            && (forall i :: 0 <= i < |shelf.items| ==>
                  Offerable(env, Flatten(sections), prov, blob, shelf.items[i].item))
            && (forall i, j :: 0 <= i < j < |shelf.items| ==> shelf.items[i].item.id != shelf.items[j].item.id)
  {
    hide Score, PoolItems, Usable, Own, RecentIndex, ArtistIndex, PickIndex, IsGreedy, Greedy;
    var prov := ActiveProvider(provider);
    var idx := IndexOf(env, blob, prov);
    var pool := PoolItems(env, Flatten(sections), prov, idx.pickIds);
    PoolIsSound(env, Flatten(sections), prov, idx.pickIds);
    PickIdsAreShortcuts(env, ArtistIndex(env, RecentIndex(blob.recent, prov), blob.artists, prov), blob.picks, prov);
    var entries := Scored(env, pool, idx, now);
    GreedyIsGreedy(entries, OUT_MAX);
    var picks := Greedy(entries, OUT_MAX);
    var shelf := Build(env, sections, blob, provider, now);
    assert |shelf.items| == |picks|;
    forall i | 0 <= i < |shelf.items|
      ensures shelf.items[i].item == pool[picks[i]]
    {
    }
  }

  /** Whatever order the scored pool is listed in, the shelf shows the same rows in the same order. */
  lemma ShelfIgnoresPoolOrder(env: Env, pool: seq<Item>, idx: Index, now: int, shuffled: seq<Entry>)
    requires multiset(shuffled) == multiset(Scored(env, pool, idx, now))
    ensures Entries(shuffled, Greedy(shuffled, OUT_MAX))
            == Entries(Scored(env, pool, idx, now), Greedy(Scored(env, pool, idx, now), OUT_MAX))
  {
    var entries := Scored(env, pool, idx, now);
    DistinctRanksShuffle(entries, shuffled);
    GreedyIgnoresOrder(shuffled, entries, OUT_MAX);
  }

  lemma DistinctRanksShuffle(p: seq<Entry>, q: seq<Entry>)
    requires multiset(p) == multiset(q) && DistinctRanks(p)
    ensures DistinctRanks(q)
  {
    forall i, j | 0 <= i < j < |q| ensures q[i].rank != q[j].rank {
      if q[i] == q[j] {
        OccursTwice(q, i, j);
        OccursOnce(p, q[i]);
      } else {
        assert q[i] in multiset(p) && q[j] in multiset(p);
      }
    }
  }

  lemma OccursTwice(q: seq<Entry>, i: nat, j: nat)
    requires i < j < |q| && q[i] == q[j]
    ensures multiset(q)[q[i]] >= 2
  {
    assert q == q[..i] + [q[i]] + q[i + 1..j] + [q[j]] + q[j + 1..];
  }

  lemma {:induction false} OccursOnce(p: seq<Entry>, e: Entry)
    requires DistinctRanks(p)
    ensures multiset(p)[e] <= 1
  {
    if p != [] {
      OccursOnce(p[..|p| - 1], e);
      assert p == p[..|p| - 1] + [p[|p| - 1]];
      if p[|p| - 1] == e {
        assert e !in p[..|p| - 1];
      }
    }
  }

  // ---- the ranker as it runs -------------------------------------------------------------------

  method BuildIndex(env: Env, blob: Blob, provider: string) returns (idx: Index)
    ensures idx == IndexOf(env, blob, provider)
  {
    hide AddArtist, AddPick, Own;
    idx := EMPTY_INDEX;
    var i := 0;
    while i < |blob.recent|
      invariant 0 <= i <= |blob.recent| && idx == RecentIndex(blob.recent[..i], provider)
    {
      assert blob.recent[..i + 1][..i] == blob.recent[..i];
      var (id, at) := blob.recent[i];
      if Own(id, provider) {
        idx := idx.(recentAt := idx.recentAt[id := at], personalized := true);
      }
      i := i + 1;
    }
    assert blob.recent[..i] == blob.recent;
    ghost var base := idx;
    i := 0;
    while i < |blob.artists|
      invariant 0 <= i <= |blob.artists| && idx == ArtistIndex(env, base, blob.artists[..i], provider)
    {
      assert blob.artists[..i + 1][..i] == blob.artists[..i];
      idx := AddArtist(env, idx, blob.artists[i], provider);
      i := i + 1;
    }
    assert blob.artists[..i] == blob.artists;
    base := idx;
    i := 0;
    while i < |blob.picks|
      invariant 0 <= i <= |blob.picks| && idx == PickIndex(env, base, blob.picks[..i], provider)
    {
      assert blob.picks[..i + 1][..i] == blob.picks[..i];
      idx := AddPick(env, idx, blob.picks[i], provider);
      i := i + 1;
    }
    assert blob.picks[..i] == blob.picks;
  }

  lemma PoolAppend(env: Env, rows: seq<Item>, it: Item, provider: string, pickIds: set<string>)
    ensures Seen(env, rows + [it]) == Seen(env, rows) + (if Usable(env, it) then {it.id} else {})
    ensures var pool := PoolItems(env, rows, provider, pickIds);
            PoolItems(env, rows + [it], provider, pickIds) ==
            if |pool| < POOL_MAX && Usable(env, it) && it.id !in Seen(env, rows)
               && Own(it.id, provider) && it.id !in pickIds
            then pool + [it] else pool
  {
    assert (rows + [it])[..|rows + [it]| - 1] == rows;
  }

  /** One section's rows, with the ids met so far; the pool stops growing at its cap. */
  method PoolSection(env: Env, ghost before: seq<Item>, items: seq<Item>, provider: string, pickIds: set<string>,
                     pool0: seq<Item>, seen0: set<string>) returns (pool: seq<Item>, seen: set<string>)
    requires pool0 == PoolItems(env, before, provider, pickIds)
    requires |pool0| < POOL_MAX ==> seen0 == Seen(env, before)
    ensures pool == PoolItems(env, before + items, provider, pickIds)
    ensures |pool| < POOL_MAX ==> seen == Seen(env, before + items)
  {
    hide PoolItems, Seen, Usable, Own;
    pool, seen := pool0, seen0;
    ghost var all := before + items;
    var i := 0;
    ghost var rows := before;
    while i < |items| && |pool| < POOL_MAX
      invariant 0 <= i <= |items| && rows == all[..|before| + i]
      invariant pool == PoolItems(env, rows, provider, pickIds)
      invariant |pool| < POOL_MAX ==> seen == Seen(env, rows)
    {
      var it := items[i];
      PoolAppend(env, rows, it, provider, pickIds);
      if Usable(env, it) && it.id !in seen {
        seen := seen + {it.id};
        if Own(it.id, provider) && it.id !in pickIds {
          pool := pool + [it];
        }
      }
      PrefixStep(all, |before| + i);
      i := i + 1;
      rows := rows + [it];
    }
    PrefixRest(all, |before| + i);
    FullPoolStays(env, rows, all[|before| + i..], provider, pickIds);
  }

  lemma {:induction false} FullPoolStays(
    env: Env, rows: seq<Item>, more: seq<Item>, provider: string, pickIds: set<string>)
    requires more == [] || |PoolItems(env, rows, provider, pickIds)| >= POOL_MAX
    ensures PoolItems(env, rows + more, provider, pickIds) == PoolItems(env, rows, provider, pickIds)
  {
    if more == [] {
      assert rows + more == rows;
    } else {
      FullPoolStays(env, rows, more[..|more| - 1], provider, pickIds);
      assert (rows + more)[..|rows + more| - 1] == rows + more[..|more| - 1];
    }
  }

  lemma FlattenStep(sections: seq<seq<Item>>, s: nat)
    requires s < |sections|
    ensures Flatten(sections[..s + 1]) == Flatten(sections[..s]) + sections[s]
  {
    assert sections[..s + 1][..s] == sections[..s];
  }

  lemma {:induction false} FlattenRest(sections: seq<seq<Item>>, s: nat) returns (more: seq<Item>)
    requires s <= |sections|
    ensures Flatten(sections) == Flatten(sections[..s]) + more && (s == |sections| ==> more == [])
    decreases |sections| - s
  {
    assert sections[..|sections|] == sections;
    if s == |sections| {
      more := [];
    } else {
      var later := FlattenRest(sections, s + 1);
      FlattenStep(sections, s);
      hide Flatten;
      Regroup(Flatten(sections[..s]), sections[s], later);
      more := sections[s] + later;
    }
  }

  method PoolFrom(env: Env, sections: seq<seq<Item>>, provider: string, idx: Index) returns (pool: seq<Item>)
    ensures pool == PoolItems(env, Flatten(sections), provider, idx.pickIds)
  {
    pool := [];
    var seen: set<string> := {};
    var s := 0;
    assert sections[..0] == [] && Flatten([]) == [];
    hide Flatten, Usable, Own;
    while s < |sections| && |pool| < POOL_MAX
      invariant 0 <= s <= |sections|
      invariant pool == PoolItems(env, Flatten(sections[..s]), provider, idx.pickIds)
      invariant |pool| < POOL_MAX ==> seen == Seen(env, Flatten(sections[..s]))
    {
      hide PoolItems, Seen;
      FlattenStep(sections, s);
      pool, seen := PoolSection(env, Flatten(sections[..s]), sections[s], provider, idx.pickIds, pool, seen);
      s := s + 1;
    }
    hide PoolItems, Seen;
    ghost var more := FlattenRest(sections, s);
    FullPoolStays(env, Flatten(sections[..s]), more, provider, idx.pickIds);
  }

  method Candidates(env: Env, pool: seq<Item>, idx: Index, now: int) returns (scored: seq<Candidate>)
    ensures AllDistinct(scored) && fresh(set c | c in scored)
    ensures Pool(scored) == Scored(env, pool, idx, now)
  {
    scored := [];
    var i := 0;
    while i < |pool|
      invariant 0 <= i <= |pool| && |scored| == i
      invariant fresh(set c | c in scored) && AllDistinct(scored)
      invariant forall k :: 0 <= k < i ==> scored[k].entry == Score(env, pool[k], k, idx, now)
    {
      var c := new Candidate(Score(env, pool[i], i, idx, now));
      scored := scored + [c];
      i := i + 1;
    }
  }

  method PresentAll(chosen: seq<Candidate>, prov: string) returns (items: seq<Shown>)
    ensures items == Present(Pool(chosen), prov)
  {
    items := [];
    var i := 0;
    while i < |chosen|
      invariant 0 <= i <= |chosen| && |items| == i
      invariant forall k :: 0 <= k < i ==> items[k] == Shown(chosen[k].entry.item, ReasonFor(chosen[k].entry, prov))
    {
      items := items + [Shown(chosen[i].entry.item, ReasonFor(chosen[i].entry, prov))];
      i := i + 1;
    }
  }

  /** The entry point, over freshly allocated candidates. */
  method BuildShelf(env: Env, sections: seq<seq<Item>>, blob: Blob, provider: string, now: int)
    returns (shelf: Shelf)
    ensures shelf == Build(env, sections, blob, provider, now)
  {
    var prov := ActiveProvider(provider);
    var idx := BuildIndex(env, blob, prov);
    var pool := PoolFrom(env, sections, prov, idx);
    if pool == [] {
      return Shelf([], Explain(idx.personalized, prov, 0));
    }
    var scored := Candidates(env, pool, idx, now);
    var chosen := Rerank(scored, OUT_MAX);
    var items := PresentAll(chosen, prov);
    shelf := Shelf(items, Explain(idx.personalized, prov, |items|));
  }
}
