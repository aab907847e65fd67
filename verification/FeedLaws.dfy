/**
 What the personal index holds, which feed rows are offered, and what the ranker says about them.
 */
module FeedLaws {
  import opened Common
  import opened Mmr
  import opened Recommendations

  // ---- ids -------------------------------------------------------------------------------------

  const PREFIXES := ["LOCAL:", "LOCALALBUM:", "LOCALARTIST:", "RYOTUNES_RADIO:", "spotify:", "sc:", "tidal:"]
  const OWNERS := ["local", "local", "local", "radio", "spotify", "soundcloud", "tidal"]

  /** A namespaced id belongs to its namespace, any other nonempty id to YouTube. */
  lemma NamespacesOwn(id: string)
    ensures forall i :: 0 <= i < |PREFIXES| && PREFIXES[i] <= id ==> ProviderOf(id) == OWNERS[i]
    ensures (forall i :: 0 <= i < |PREFIXES| ==> !(PREFIXES[i] <= id)) ==>
              ProviderOf(id) == if id == "" then "" else "youtube"
  {
    forall i | 0 <= i < |PREFIXES| && PREFIXES[i] <= id ensures ProviderOf(id) == OWNERS[i] {
      NamespaceOwns(id, i);
    }
    if forall i :: 0 <= i < |PREFIXES| ==> !(PREFIXES[i] <= id) {
      assert !(PREFIXES[0] <= id) && !(PREFIXES[1] <= id) && !(PREFIXES[2] <= id) && !(PREFIXES[3] <= id);
      assert !(PREFIXES[4] <= id) && !(PREFIXES[5] <= id) && !(PREFIXES[6] <= id);
    }
  }

  lemma NamespaceOwns(id: string, i: nat)
    requires i < |PREFIXES| && PREFIXES[i] <= id
    ensures ProviderOf(id) == OWNERS[i]
  {
    assert PREFIXES[i][0] == id[0] && PREFIXES[i][1] == id[1];
  }

  // ---- the personal index ----------------------------------------------------------------------

  /** No later row has the id of row `i`. */
  ghost predicate LastOf(rows: seq<(string, int)>, i: nat) {
    i < |rows| && forall j :: i < j < |rows| ==> rows[j].0 != rows[i].0
  }

  /** The last row of an own id decides when it was played; nothing else is remembered as played. */
  lemma {:induction false} RecentIsTrue(rows: seq<(string, int)>, provider: string)
    ensures var idx := RecentIndex(rows, provider);
            && (forall id :: id in idx.recentAt
                  <==> Own(id, provider) && exists i :: 0 <= i < |rows| && rows[i].0 == id)
            && (forall i :: 0 <= i < |rows| && Own(rows[i].0, provider) && LastOf(rows, i) ==>
                  idx.recentAt[rows[i].0] == rows[i].1)
            && idx == EMPTY_INDEX.(recentAt := idx.recentAt, personalized := idx.recentAt != map[])
  {
    hide Own;
    if rows != [] {
      var n := |rows| - 1;
      RecentIsTrue(rows[..n], provider);
      var idx, front := RecentIndex(rows, provider), RecentIndex(rows[..n], provider);
      forall id ensures id in idx.recentAt <==> Own(id, provider) && exists i :: 0 <= i < |rows| && rows[i].0 == id {
        if i :| 0 <= i < |rows| && rows[i].0 == id {
          assert i < n ==> rows[..n][i].0 == id;
        }
        if id in front.recentAt {
          var i :| 0 <= i < n && rows[..n][i].0 == id;
          assert rows[i].0 == id;
        }
      }
      forall i | 0 <= i < |rows| && Own(rows[i].0, provider) && LastOf(rows, i)
        ensures idx.recentAt[rows[i].0] == rows[i].1
      {
        if i < n {
          assert rows[..n][i] == rows[i] && rows[n].0 != rows[i].0 && LastOf(rows[..n], i);
        }
      }
    }
  }

  /** The artist rows that count: own, and played at all. */
  predicate Counts(row: (string, Artist), provider: string) {
    Own(row.0, provider) && row.1.count > 0
  }

  /** Row `i` counts. */
  ghost predicate CountsAt(rows: seq<(string, Artist)>, provider: string, i: nat) {
    i < |rows| && Counts(rows[i], provider)
  }

  lemma ArtistStep(env: Env, rows: seq<(string, Artist)>, provider: string)
    requires rows != []
    ensures var before := ArtistIndex(env, EMPTY_INDEX, rows[..|rows| - 1], provider);
            var idx := ArtistIndex(env, EMPTY_INDEX, rows, provider);
            var (key, a) := rows[|rows| - 1];
            if !Counts(rows[|rows| - 1], provider) then idx == before
            else
              && idx.artists == before.artists[key := a]
              && idx.maxCount == Max(before.maxCount, a.count) && idx.personalized
  {
    hide Own;
  }

  lemma CountsBefore(rows: seq<(string, Artist)>, provider: string, n: nat)
    requires n < |rows|
    ensures forall i: nat :: CountsAt(rows[..n], provider, i) <==> i < n && CountsAt(rows, provider, i)
  {
  }

  /** Every artist that counts is known by its key, with a row of its own. */
  lemma {:induction false} ArtistsAreTrue(env: Env, rows: seq<(string, Artist)>, provider: string)
    ensures var idx := ArtistIndex(env, EMPTY_INDEX, rows, provider);
            && (forall i: nat :: CountsAt(rows, provider, i) ==> rows[i].0 in idx.artists)
            && (forall k :: k in idx.artists ==>
                  exists i: nat :: CountsAt(rows, provider, i) && rows[i] == (k, idx.artists[k]))
  {
    hide Own, Counts;
    if rows != [] {
      var n := |rows| - 1;
      ArtistsAreTrue(env, rows[..n], provider);
      ArtistStep(env, rows, provider);
      CountsBefore(rows, provider, n);
      hide ArtistIndex;
      var before := ArtistIndex(env, EMPTY_INDEX, rows[..n], provider);
      var idx := ArtistIndex(env, EMPTY_INDEX, rows, provider);
      forall k | k in idx.artists
        ensures exists i: nat :: CountsAt(rows, provider, i) && rows[i] == (k, idx.artists[k])
      {
        if Counts(rows[n], provider) && k == rows[n].0 {
          assert CountsAt(rows, provider, n) && rows[n] == (k, idx.artists[k]);
        } else {
          var i: nat :| CountsAt(rows[..n], provider, i) && rows[..n][i] == (k, before.artists[k]);
          assert CountsAt(rows, provider, i) && rows[i] == rows[..n][i];
        }
      }
    }
  }

  /** The greatest count is that of an artist that counts; without one it is zero and nothing is personal. */
  lemma {:induction false} GreatestCountIsTrue(env: Env, rows: seq<(string, Artist)>, provider: string)
    ensures var idx := ArtistIndex(env, EMPTY_INDEX, rows, provider);
            && (forall i: nat :: CountsAt(rows, provider, i) ==> rows[i].1.count <= idx.maxCount && idx.personalized)
            && (idx.maxCount != 0 || idx.personalized ==>
                  exists i: nat :: CountsAt(rows, provider, i) && rows[i].1.count == idx.maxCount > 0)
  {
    hide Own;
    if rows != [] {
      var n := |rows| - 1;
      GreatestCountIsTrue(env, rows[..n], provider);
      ArtistStep(env, rows, provider);
      CountsBefore(rows, provider, n);
      hide ArtistIndex;
      var before := ArtistIndex(env, EMPTY_INDEX, rows[..n], provider);
      var idx := ArtistIndex(env, EMPTY_INDEX, rows, provider);
      if before.maxCount != 0 && idx.maxCount == before.maxCount {
        var i: nat :| CountsAt(rows[..n], provider, i) && rows[..n][i].1.count == before.maxCount;
        assert CountsAt(rows, provider, i) && rows[i] == rows[..n][i];
      } else if Counts(rows[n], provider) {
        assert CountsAt(rows, provider, n);
      }
    }
  }

  function NameKey(env: Env, a: Artist): string {
    env.lower(env.lead(a.name))
  }

  /** A name finds an artist that counts and bears it, the most played of those. */
  ghost predicate NamesTrue(env: Env, rows: seq<(string, Artist)>, provider: string, idx: Index) {
    && (forall i :: 0 <= i < |rows| && Counts(rows[i], provider) && NameKey(env, rows[i].1) != "" ==>
          NameKey(env, rows[i].1) in idx.artistNames &&
          idx.artistNames[NameKey(env, rows[i].1)].count >= rows[i].1.count)
    && (forall name :: name in idx.artistNames ==>
          name != "" && NameKey(env, idx.artistNames[name]) == name &&
          exists i :: 0 <= i < |rows| && Counts(rows[i], provider) && rows[i].1 == idx.artistNames[name])
  }

  lemma {:induction false} NamesAreTrue(env: Env, rows: seq<(string, Artist)>, provider: string)
    ensures NamesTrue(env, rows, provider, ArtistIndex(env, EMPTY_INDEX, rows, provider))
  {
    hide Own;
    if rows != [] {
      var n := |rows| - 1;
      var front := rows[..n];
      NamesAreTrue(env, front, provider);
      var before, idx := ArtistIndex(env, EMPTY_INDEX, front, provider), ArtistIndex(env, EMPTY_INDEX, rows, provider);
      assert !Counts(rows[n], provider) ==> idx == before;
      forall i | 0 <= i < |rows| && Counts(rows[i], provider) && NameKey(env, rows[i].1) != ""
        ensures NameKey(env, rows[i].1) in idx.artistNames
        ensures idx.artistNames[NameKey(env, rows[i].1)].count >= rows[i].1.count
      {
        assert i < n ==> front[i] == rows[i];
      }
      forall name | name in idx.artistNames
        ensures name != "" && NameKey(env, idx.artistNames[name]) == name
        ensures exists i :: 0 <= i < |rows| && Counts(rows[i], provider) && rows[i].1 == idx.artistNames[name]
      {
        if name in before.artistNames && idx.artistNames[name] == before.artistNames[name] {
          var i :| 0 <= i < n && Counts(front[i], provider) && front[i].1 == before.artistNames[name];
          assert rows[i] == front[i];
        } else {
          assert rows[n].1 == idx.artistNames[name];
        }
      }
    }
  }

  /** The keys of own shortcuts. */
  ghost function OwnKeys(env: Env, rows: seq<Item>, provider: string): set<string> {
    set p | p in rows && Own(p.id, provider) && AffinityKeyOf(env, p) != "" :: AffinityKeyOf(env, p)
  }

  lemma OneMore<T>(rows: seq<T>)
    requires rows != []
    ensures forall x :: x in rows <==> x in rows[..|rows| - 1] || x == rows[|rows| - 1]
  {
    assert rows == rows[..|rows| - 1] + [rows[|rows| - 1]];
  }

  lemma KeysAdd(env: Env, rows: seq<Item>, provider: string)
    requires rows != []
    ensures var front, p := rows[..|rows| - 1], rows[|rows| - 1];
            OwnKeys(env, rows, provider) == OwnKeys(env, front, provider)
              + if Own(p.id, provider) && AffinityKeyOf(env, p) != "" then {AffinityKeyOf(env, p)} else {}
    ensures (set p | p in rows :: p.id) == (set p | p in rows[..|rows| - 1] :: p.id) + {rows[|rows| - 1].id}
  {
    OneMore(rows);
    hide Own, AffinityKeyOf;
  }

  lemma PickStep(env: Env, idx: Index, rows: seq<Item>, provider: string)
    requires rows != []
    ensures PickIndex(env, idx, rows, provider)
            == AddPick(env, PickIndex(env, idx, rows[..|rows| - 1], provider), rows[|rows| - 1], provider)
  {
  }

  lemma PickAdds(env: Env, idx: Index, p: Item, provider: string)
    ensures var idx', key := AddPick(env, idx, p, provider), AffinityKeyOf(env, p);
            && idx' == idx.(pickIds := idx'.pickIds, pickArtists := idx'.pickArtists, personalized := idx'.personalized)
            && idx'.pickIds == idx.pickIds + {p.id}
            && idx'.pickArtists == idx.pickArtists + (if Own(p.id, provider) && key != "" then {key} else {})
            && (idx'.personalized <==> idx.personalized || Own(p.id, provider))
  {
    hide Own, AffinityKeyOf;
  }

  /** Every shortcut id is known; the keys of own shortcuts are, and nothing else is added. */
  lemma {:induction false} PicksAreTrue(env: Env, idx: Index, rows: seq<Item>, provider: string)
    ensures var idx' := PickIndex(env, idx, rows, provider);
            && idx'.pickIds == idx.pickIds + (set p | p in rows :: p.id)
            && idx'.pickArtists == idx.pickArtists + OwnKeys(env, rows, provider)
            && (idx'.personalized <==> idx.personalized || exists p :: p in rows && Own(p.id, provider))
            && idx'.recentAt == idx.recentAt && idx'.artists == idx.artists
            && idx'.artistNames == idx.artistNames && idx'.maxCount == idx.maxCount
  {
    hide Own, AffinityKeyOf;
    if rows != [] {
      var n := |rows| - 1;
      PicksAreTrue(env, idx, rows[..n], provider);
      OneMore(rows);
      hide PickIndex, OwnKeys, AddPick;
      PickAdds(env, PickIndex(env, idx, rows[..n], provider), rows[n], provider);
      PickStep(env, idx, rows, provider);
      KeysAdd(env, rows, provider);
    }
  }

  /** The artist of a row goes by its linked id, else the first nonempty run, else itself, else its credit. */
  lemma ArtistKeys(env: Env, item: Item, i: nat)
    ensures item.artistId != "" ==> AffinityKeyOf(env, item) == item.artistId
    ensures item.artistId == "" && i < |item.artistRuns| && item.artistRuns[i] != ""
            && (forall j :: 0 <= j < i ==> item.artistRuns[j] == "") ==>
              AffinityKeyOf(env, item) == item.artistRuns[i]
    ensures item.artistId == "" && (forall j :: 0 <= j < |item.artistRuns| ==> item.artistRuns[j] == "") ==>
              AffinityKeyOf(env, item) == if item.kind == "artist" then item.id else env.lead(item.subtitle)
  {
    if i < |item.artistRuns| && item.artistRuns[i] != "" && (forall j :: 0 <= j < i ==> item.artistRuns[j] == "") {
      RunsSkip(item.artistRuns, i);
    }
    if forall j :: 0 <= j < |item.artistRuns| ==> item.artistRuns[j] == "" {
      NoRun(item.artistRuns);
    }
  }

  lemma {:induction false} RunsSkip(runs: seq<string>, i: nat)
    requires i < |runs| && runs[i] != "" && forall j :: 0 <= j < i ==> runs[j] == ""
    ensures FirstRun(runs) == runs[i]
  {
    if i > 0 {
      RunsSkip(runs[1..], i - 1);
    }
  }

  lemma {:induction false} NoRun(runs: seq<string>)
    requires forall j :: 0 <= j < |runs| ==> runs[j] == ""
    ensures FirstRun(runs) == ""
  {
    if runs != [] {
      NoRun(runs[1..]);
    }
  }

  /**
   What the ranker knows of a row's artist is a row of the blob that counts: one with the artist's key if
   there is any, else the most played one of that name, else nothing.
   */
  lemma KnownArtistIsARow(env: Env, item: Item, blob: Blob, provider: string)
    ensures var known, key := KnownArtist(env, item, IndexOf(env, blob, provider)), AffinityKeyOf(env, item);
            var name := env.lower(env.lead(item.subtitle));
            if exists i: nat :: CountsAt(blob.artists, provider, i) && blob.artists[i].0 == key
            then
              known.Some? &&
              exists i: nat :: CountsAt(blob.artists, provider, i) && blob.artists[i] == (key, known.value)
            else if name != "" &&
                    exists i: nat :: CountsAt(blob.artists, provider, i) && NameKey(env, blob.artists[i].1) == name
            then known.Some? && NameKey(env, known.value) == name &&
                 forall i: nat :: CountsAt(blob.artists, provider, i) && NameKey(env, blob.artists[i].1) == name ==>
                   blob.artists[i].1.count <= known.value.count
            else known.None?
  {
    IndexKnows(env, blob, provider);
    ArtistsAreTrue(env, blob.artists, provider);
    NamesAreTrue(env, blob.artists, provider);
    hide ArtistIndex, AffinityKeyOf, Counts, IndexOf;
    var idx := IndexOf(env, blob, provider);
    var name := env.lower(env.lead(item.subtitle));
    if i: nat :| CountsAt(blob.artists, provider, i) && name != "" && NameKey(env, blob.artists[i].1) == name {
      assert name in idx.artistNames;
    }
  }

  /** The whole index knows the artists the rows alone make known. */
  lemma IndexKnows(env: Env, blob: Blob, provider: string)
    ensures var idx, alone := IndexOf(env, blob, provider), ArtistIndex(env, EMPTY_INDEX, blob.artists, provider);
            idx.artists == alone.artists && idx.artistNames == alone.artistNames && idx.maxCount == alone.maxCount
  {
    var recent := RecentIndex(blob.recent, provider);
    RecentIsTrue(blob.recent, provider);
    ArtistsApart(env, recent, blob.artists, provider);
    PicksAreTrue(env, ArtistIndex(env, recent, blob.artists, provider), blob.picks, provider);
    hide RecentIndex, ArtistIndex, PickIndex;
  }

  /** Folding in the artists does not depend on what was folded in before, if it knew no artist. */
  lemma {:induction false} ArtistsApart(env: Env, idx: Index, rows: seq<(string, Artist)>, provider: string)
    requires idx.artists == map[] && idx.artistNames == map[] && idx.maxCount == 0
    ensures var from, alone := ArtistIndex(env, idx, rows, provider), ArtistIndex(env, EMPTY_INDEX, rows, provider);
            && from.artists == alone.artists && from.artistNames == alone.artistNames && from.maxCount == alone.maxCount
            && from.recentAt == idx.recentAt && from.pickIds == idx.pickIds && from.pickArtists == idx.pickArtists
            && (from.personalized <==> idx.personalized || alone.personalized)
  {
    hide Own;
    if rows != [] {
      ArtistsApart(env, idx, rows[..|rows| - 1], provider);
    }
  }

  /** A shelf is personal exactly when the active provider has a recent play, a counted artist or a shortcut. */
  lemma PersonalMeansOwnRows(env: Env, blob: Blob, provider: string)
    ensures IndexOf(env, blob, provider).personalized
            <==> (exists i :: 0 <= i < |blob.recent| && Own(blob.recent[i].0, provider))
                 || (exists i: nat :: CountsAt(blob.artists, provider, i))
                 || (exists p :: p in blob.picks && Own(p.id, provider))
  {
    var recent := RecentIndex(blob.recent, provider);
    RecentIsTrue(blob.recent, provider);
    ArtistsApart(env, recent, blob.artists, provider);
    GreatestCountIsTrue(env, blob.artists, provider);
    PicksAreTrue(env, ArtistIndex(env, recent, blob.artists, provider), blob.picks, provider);
    hide Own, RecentIndex, ArtistIndex, PickIndex, Counts;
    if i :| 0 <= i < |blob.recent| && Own(blob.recent[i].0, provider) {
      assert blob.recent[i].0 in recent.recentAt;
    }
  }

  // ---- which rows are offered ------------------------------------------------------------------

  /** What makes a row worth showing at all. */
  predicate Real(env: Env, it: Item) {
    it.id != "" && env.trim(it.title) != "" &&
    (it.kind == "song" || it.kind == "album" || it.kind == "playlist" || it.kind == "artist")
  }

  /** Until the cap is reached, the pool holds exactly the first real row of each own id that is no shortcut. */
  lemma {:induction false} PoolIsComplete(env: Env, rows: seq<Item>, provider: string, ids: set<string>, i: nat)
    requires i < |rows| && |PoolItems(env, rows, provider, ids)| < 300
    requires Real(env, rows[i]) && ProviderOf(rows[i].id) == provider && rows[i].id !in ids
    requires forall j :: 0 <= j < i && Real(env, rows[j]) ==> rows[j].id != rows[i].id
    ensures rows[i] in PoolItems(env, rows, provider, ids)
  {
    hide PoolItems, Seen, ProviderOf, Real;
    var n := |rows| - 1;
    PoolGrows(env, rows, provider, ids);
    if i < n {
      PoolIsComplete(env, rows[..n], provider, ids, i);
    } else {
      SeenIsReal(env, rows[..n]);
      LastIsOffered(env, rows, provider, ids);
    }
  }

  lemma LastIsOffered(env: Env, rows: seq<Item>, provider: string, ids: set<string>)
    requires rows != [] && |PoolItems(env, rows, provider, ids)| < 300
    requires var last := rows[|rows| - 1];
             && Real(env, last) && ProviderOf(last.id) == provider && last.id !in ids
             && last.id !in Seen(env, rows[..|rows| - 1])
    ensures rows[|rows| - 1] in PoolItems(env, rows, provider, ids)
  {
    hide ProviderOf, Seen;
  }

  lemma PoolGrows(env: Env, rows: seq<Item>, provider: string, ids: set<string>)
    requires rows != []
    ensures PoolItems(env, rows[..|rows| - 1], provider, ids) <= PoolItems(env, rows, provider, ids)
  {
  }

  lemma {:induction false} SeenIsReal(env: Env, rows: seq<Item>)
    ensures forall id :: id in Seen(env, rows)
              <==> exists j :: 0 <= j < |rows| && Real(env, rows[j]) && rows[j].id == id
  {
    if rows != [] {
      var n := |rows| - 1;
      SeenIsReal(env, rows[..n]);
      forall id
        ensures id in Seen(env, rows) <==> exists j :: 0 <= j < |rows| && Real(env, rows[j]) && rows[j].id == id
      {
        if j :| 0 <= j < |rows| && Real(env, rows[j]) && rows[j].id == id {
          assert j < n ==> rows[..n][j] == rows[j];
        }
        if id in Seen(env, rows[..n]) {
          var j :| 0 <= j < n && Real(env, rows[..n][j]) && rows[..n][j].id == id;
          assert rows[j] == rows[..n][j];
        }
      }
    }
  }

  /** The pool never exceeds three hundred rows, the shelf never twelve, and it is full when the pool allows. */
  lemma ShelfFills(env: Env, sections: seq<seq<Item>>, blob: Blob, provider: string, now: int)
    ensures var prov := if provider == "" then "youtube" else provider;
            var pool := PoolItems(env, Flatten(sections), prov, IndexOf(env, blob, prov).pickIds);
            |pool| <= 300 && |Build(env, sections, blob, provider, now).items| == Min(12, |pool|)
  {
    ShelfIsSound(env, sections, blob, provider, now);
    hide Build, PoolItems, IndexOf, Flatten;
  }

  /** Everything on the shelf is real, of the active provider, and no shortcut. */
  lemma ShownIsReal(env: Env, sections: seq<seq<Item>>, blob: Blob, provider: string, now: int, i: nat)
    requires i < |Build(env, sections, blob, provider, now).items|
    ensures var it := Build(env, sections, blob, provider, now).items[i].item;
            && Real(env, it) && ProviderOf(it.id) == (if provider == "" then "youtube" else provider)
            && forall p :: p in blob.picks ==> p.id != it.id
  {
    ShelfIsSound(env, sections, blob, provider, now);
    hide Build, Flatten;
  }

  // ---- what is said about them -----------------------------------------------------------------

  /** A signal is there only if its cause is: a known artist for the first two, a shortcut's artist for the third. */
  lemma SignalsHaveCauses(env: Env, item: Item, rank: nat, idx: Index, now: int)
    ensures var e := Score(env, item, rank, idx, now);
            var art, key := KnownArtist(env, item, idx), AffinityKeyOf(env, item);
            && (e.parts.affinity > 0.0 ==> art.Some? && art.value.count > 0)
            && (e.parts.recency > 0.0 ==> art.Some? && art.value.lastPlayedAt > 0)
            && (e.parts.pick > 0.0 ==> key != "" && key in idx.pickArtists)
  {
  }

  /** The reason names the strongest signal of a named row, and the provider when there is none. */
  lemma ReasonNamesStrongest(e: Entry, provider: string)
    ensures var p, most := e.parts, MaxReal(e.parts.affinity, MaxReal(e.parts.recency, e.parts.pick));
            var reason := ReasonFor(e, provider);
            && (e.artistName == "" || most <= 0.0 ==>
                  reason == "From " + ProviderLabel(provider) + "'s recommendations")
            && (e.artistName != "" && most > 0.0 && p.affinity == most ==>
                  reason == "More from " + e.artistName + ", one of your regulars")
            && (e.artistName != "" && most > 0.0 && p.affinity < most && p.recency == most ==>
                  reason == "You've had " + e.artistName + " on lately")
            && (e.artistName != "" && most > 0.0 && p.affinity < most && p.recency < most ==>
                  reason == "Close to your shortcut " + e.artistName)
  {
  }

  /** The rows shown are the chosen ones in order, each with the reason that is its own. */
  lemma ReasonsBelong(env: Env, sections: seq<seq<Item>>, blob: Blob, provider: string, now: int, i: nat)
    requires i < |Build(env, sections, blob, provider, now).items|
    ensures var prov := if provider == "" then "youtube" else provider;
            var idx := IndexOf(env, blob, prov);
            var entries := Scored(env, PoolItems(env, Flatten(sections), prov, idx.pickIds), idx, now);
            var chosen := Greedy(entries, OUT_MAX);
            i < |chosen| && Build(env, sections, blob, provider, now).items[i]
                            == Shown(entries[chosen[i]].item, ReasonFor(entries[chosen[i]], prov))
  {
    hide Score, PoolItems, Greedy, Explain, IndexOf, Flatten, ReasonFor;
  }

  lemma LabelsNameProviders()
    ensures ProviderLabel("youtube") == "YouTube Music" && ProviderLabel("spotify") == "Spotify"
    ensures ProviderLabel("soundcloud") == "SoundCloud"
    ensures forall p :: p !in {"youtube", "spotify", "soundcloud"} ==> ProviderLabel(p) == "your feed"
  {
  }

  /** The explanation goes by whether there is anything, and whether it was chosen from the listener's own rows. */
  lemma ExplanationFits(env: Env, sections: seq<seq<Item>>, blob: Blob, provider: string, now: int)
    ensures var shelf := Build(env, sections, blob, provider, now);
            var prov := if provider == "" then "youtube" else provider;
            shelf.explanation == Explain(IndexOf(env, blob, prov).personalized, prov, |shelf.items|)
  {
    hide Score, PoolItems, Greedy, Explain, IndexOf, Flatten;
  }

  /** Nothing to show says so, a personal shelf says why, and any other shelf names the provider. */
  lemma ExplanationsSay(personal: bool, provider: string, count: nat)
    ensures Explain(personal, provider, 0) == NOTHING_NEW + ProviderLabel(provider) + FEED_GROWS
    ensures count > 0 ==> Explain(true, provider, count) == FOR_YOU
    ensures count > 0 ==> Explain(false, provider, count) == VARIED + ProviderLabel(provider) + WILL_SHAPE
  {
    hide ProviderLabel, NOTHING_NEW, FEED_GROWS, FOR_YOU, VARIED, WILL_SHAPE;
  }
}
