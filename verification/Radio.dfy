/**
 The bounded recency cache of radio stations (crates/core/src/radio.rs), against the unbounded history
 of every station remembered.
 */
module Radio {
  import opened Common

  const STATION_CACHE_MAX: nat := 256

  /** `id` is the station's uuid; the rest of the record is one value. */
  datatype Station = Station(id: string, record: string)

  // ---- the history -----------------------------------------------------------------------------

  /** The latest record under an id: what an unbounded last-write map would answer. */
  function LastWrite(history: seq<Station>, id: string): Option<Station> {
    if history == [] then None
    else if history[|history| - 1].id == id then Some(history[|history| - 1])
    else LastWrite(history[..|history| - 1], id)
  }

  function Without(stations: seq<Station>, id: string): (r: seq<Station>)
    ensures |r| <= |stations|
    ensures forall s :: s in r <==> s in stations && s.id != id
  {
    if stations == [] then []
    else
      var front, last := Without(stations[..|stations| - 1], id), stations[|stations| - 1];
      assert stations == stations[..|stations| - 1] + [last];
      if last.id == id then front else front + [last]
  }

  /** Each id once, at its latest mention, in the order of those mentions. */
  function Recent(history: seq<Station>): seq<Station> {
    if history == [] then []
    else
      var last := history[|history| - 1];
      Without(Recent(history[..|history| - 1]), last.id) + [last]
  }

  function Newest(stations: seq<Station>, n: nat): seq<Station> {
    if |stations| <= n then stations else stations[|stations| - n..]
  }

  ghost predicate DistinctIds(stations: seq<Station>) {
    forall i, j :: 0 <= i < j < |stations| ==> stations[i].id != stations[j].id
  }

  lemma {:induction false} WithoutKeepsDistinct(stations: seq<Station>, id: string)
    requires DistinctIds(stations)
    ensures DistinctIds(Without(stations, id))
  {
    if stations != [] {
      var front, last := stations[..|stations| - 1], stations[|stations| - 1];
      WithoutKeepsDistinct(front, id);
      if last.id != id {
        forall i | 0 <= i < |Without(front, id)| ensures Without(front, id)[i].id != last.id {
          assert Without(front, id)[i] in front;
        }
      }
    }
  }

  lemma {:induction false} WithoutAbsent(stations: seq<Station>, id: string)
    requires forall s :: s in stations ==> s.id != id
    ensures Without(stations, id) == stations
  {
    if stations != [] {
      var front, last := stations[..|stations| - 1], stations[|stations| - 1];
      assert stations == front + [last] && last in stations;
      assert forall s :: s in front ==> s in stations;
      WithoutAbsent(front, id);
    }
  }

  /** What `Recent` holds: exactly the ids ever mentioned, each with its latest record. */
  lemma {:induction false} RecentHolds(history: seq<Station>, s: Station)
    ensures DistinctIds(Recent(history))
    ensures s in Recent(history) <==> LastWrite(history, s.id) == Some(s)
  {
    if history != [] {
      var front, last := history[..|history| - 1], history[|history| - 1];
      RecentHolds(front, s);
      WithoutKeepsDistinct(Recent(front), last.id);
    }
  }

  // ---- one more station ------------------------------------------------------------------------

  /** The newest `n` survive a removal and an addition as they would if nothing had been dropped. */
  lemma NewestWithout(stations: seq<Station>, id: string, n: nat)
    requires DistinctIds(stations) && n > 0
    ensures Newest(Without(Newest(stations, n), id), n - 1) == Newest(Without(stations, id), n - 1)
  {
    if |stations| > n {
      var dropped, kept := stations[..|stations| - n], stations[|stations| - n..];
      assert dropped + kept == stations;
      NewestWithoutParts(dropped, kept, id);
      WithoutConcat(dropped, kept, id);
      NewestOfConcat(Without(dropped, id), Without(kept, id), n - 1);
    }
  }

  lemma NewestWithoutParts(dropped: seq<Station>, kept: seq<Station>, id: string)
    requires DistinctIds(dropped + kept)
    ensures |Without(kept, id)| >= |kept| - 1
  {
    if exists s :: s in kept && s.id == id {
      DistinctTail(dropped, kept);
      WithoutOnce(kept, id);
    } else {
      WithoutAbsent(kept, id);
    }
  }

  lemma DistinctTail(a: seq<Station>, b: seq<Station>)
    requires DistinctIds(a + b)
    ensures DistinctIds(b)
  {
    forall i, j | 0 <= i < j < |b| ensures b[i].id != b[j].id {
      assert (a + b)[|a| + i] == b[i] && (a + b)[|a| + j] == b[j];
    }
  }

  lemma {:induction false} WithoutConcat(a: seq<Station>, b: seq<Station>, id: string)
    ensures Without(a + b, id) == Without(a, id) + Without(b, id)
  {
    if b == [] {
      assert a + b == a;
    } else {
      var front, last := b[..|b| - 1], b[|b| - 1];
      WithoutConcat(a, front, id);
      JoinedLast(a, b);
      WithoutLast(a + b, id);
      WithoutLast(b, id);
      hide Without;
      Regroup(Without(a, id), Without(front, id), [last]);
    }
  }

  lemma JoinedLast(a: seq<Station>, b: seq<Station>)
    requires b != []
    ensures a + b != [] && (a + b)[..|a + b| - 1] == a + b[..|b| - 1] && (a + b)[|a + b| - 1] == b[|b| - 1]
  {
  }

  lemma WithoutLast(stations: seq<Station>, id: string)
    requires stations != []
    ensures var front, last := stations[..|stations| - 1], stations[|stations| - 1];
            Without(stations, id) == if last.id == id then Without(front, id) else Without(front, id) + [last]
  {
  }

  lemma {:induction false} WithoutOnce(stations: seq<Station>, id: string)
    requires DistinctIds(stations) && exists s :: s in stations && s.id == id
    ensures |Without(stations, id)| == |stations| - 1
  {
    var front, last := stations[..|stations| - 1], stations[|stations| - 1];
    assert stations == front + [last];
    if last.id == id {
      forall s | s in front ensures s.id != id {
        var i :| 0 <= i < |front| && front[i] == s;
        assert stations[i] == s;
      }
      WithoutAbsent(front, id);
    } else {
      WithoutOnce(front, id);
    }
  }

  lemma NewestOfConcat(a: seq<Station>, b: seq<Station>, n: nat)
    requires n <= |b|
    ensures Newest(a + b, n) == Newest(b, n)
  {
  }

  // ---- the cache as it runs --------------------------------------------------------------------

  class StationCache {
    const max: nat
    var cache: seq<Station>
    ghost var history: seq<Station>

    /** The cache is the newest `max` of the distinct stations remembered. */
    ghost predicate Valid()
      reads this
    {
      max > 0 && cache == Newest(Recent(history), max)
    }

    constructor ()
      ensures Valid() && history == [] && max == 256
    {
      max, cache, history := STATION_CACHE_MAX, [], [];
    }

    method Retain(id: string)
      modifies this`cache
      ensures cache == Without(old(cache), id)
    {
      var kept: seq<Station> := [];
      var i := 0;
      while i < |cache|
        invariant 0 <= i <= |cache| && cache == old(cache) && kept == Without(cache[..i], id)
      {
        PrefixStep(cache, i);
        if cache[i].id != id {
          kept := kept + [cache[i]];
        }
        i := i + 1;
      }
      assert cache[..i] == cache;
      cache := kept;
    }

    method DropOldest()
      modifies this`cache
      ensures cache == Newest(old(cache), max)
    {
      while |cache| > max
        invariant |cache| <= |old(cache)| && (|cache| >= max || cache == old(cache))
        invariant cache == old(cache)[|old(cache)| - |cache|..]
      {
        cache := cache[1..];
      }
    }

    method RememberOne(station: Station)
      requires Valid()
      modifies this
      ensures Valid() && history == old(history) + [station]
    {
      hide Newest, Without;
      Retain(station.id);
      cache := cache + [station];
      DropOldest();
      OneMore(history, station, max);
      history := history + [station];
    }

    method Remember(stations: seq<Station>)
      requires Valid()
      modifies this
      ensures Valid() && history == old(history) + stations
    {
      var i := 0;
      while i < |stations|
        invariant 0 <= i <= |stations| && Valid() && history == old(history) + stations[..i]
      {
        RememberOne(stations[i]);
        PrefixStep(stations, i);
        i := i + 1;
      }
      assert stations[..i] == stations;
    }

    /** Newest first; the answer is the last write while the station is among the newest, else nothing. */
    method Cached(id: string) returns (r: Option<Station>)
      requires Valid()
      ensures r == if exists s :: s in Newest(Recent(history), max) && s.id == id
                   then LastWrite(history, id) else None
    {
      hide Newest, Recent;
      var i := |cache|;
      while i > 0
        invariant 0 <= i <= |cache| && forall k :: i <= k < |cache| ==> cache[k].id != id
      {
        i := i - 1;
        if cache[i].id == id {
          NewestAreRecent(history, max, cache[i]);
          return Some(cache[i]);
        }
      }
      r := None;
    }
  }

  lemma ShortCacheIsWhole(recent: seq<Station>, id: string, n: nat)
    requires DistinctIds(recent) && |Without(Newest(recent, n), id)| < n - 1
    ensures Newest(recent, n) == recent
  {
    if |recent| > n {
      var dropped, kept := NewestParts(recent, n);
      hide Newest, DistinctIds, Without;
      NewestWithoutParts(dropped, kept, id);
    }
  }

  lemma NewestParts(stations: seq<Station>, n: nat) returns (dropped: seq<Station>, kept: seq<Station>)
    requires |stations| > n
    ensures dropped + kept == stations && |kept| == n && kept == Newest(stations, n)
  {
    dropped, kept := stations[..|stations| - n], Newest(stations, n);
  }

  lemma PushNewest(kept: seq<Station>, all: seq<Station>, station: Station, n: nat)
    requires n > 0 && Newest(kept, n - 1) == Newest(all, n - 1) && (|kept| < n - 1 ==> kept == all)
    ensures Newest(kept + [station], n) == Newest(all + [station], n)
  {
    if kept != all {
      NewestPushed(kept, station, n);
      if |all| >= n - 1 {
        NewestPushed(all, station, n);
      }
      hide Newest;
    }
  }

  lemma NewestPushed(stations: seq<Station>, station: Station, n: nat)
    requires n > 0 && |stations| >= n - 1
    ensures Newest(stations + [station], n) == Newest(stations, n - 1) + [station]
  {
  }

  lemma NewestAreRecent(history: seq<Station>, n: nat, s: Station)
    ensures s in Newest(Recent(history), n) ==> LastWrite(history, s.id) == Some(s)
  {
    RecentHolds(history, s);
  }

  /** Remembering one more station, on the cache and on the history, comes to the same. */
  lemma OneMore(history: seq<Station>, station: Station, n: nat)
    requires n > 0
    ensures Newest(Without(Newest(Recent(history), n), station.id) + [station], n)
            == Newest(Recent(history + [station]), n)
  {
    var recent := Recent(history);
    assert (history + [station])[..|history + [station]| - 1] == history;
    RecentHolds(history, station);
    NewestWithout(recent, station.id, n);
    var kept := Without(Newest(recent, n), station.id);
    if |kept| < n - 1 {
      ShortCacheIsWhole(recent, station.id, n);
    }
    hide Without;
    PushNewest(kept, Without(recent, station.id), station, n);
  }
}
