/**
 Tables of the application database (crates/core/src/db.rs): the stream URL cache with its expiry
 sweep, device playlists stored by position, and the membership index.

 A table is a map or a set of rows and a statement is its meaning on it; a transaction that fails
 leaves the tables as they were.
 */
module Database {
  import opened Common

  // ---- stream URL cache ------------------------------------------------------------------------

  datatype Stream = Stream(url: string, expiresAt: int, details: string)

  type Streams = map<string, Stream>

  datatype StreamOp =
    | Put(id: string, row: Stream, now: int)
    | Evict(id: string)
    | Clear

  function Live(t: Streams, now: int): Streams {
    map id | id in t && t[id].expiresAt > now :: t[id]
  }

  /** The cache as it is: every insert also drops what has expired. */
  function Swept(t: Streams, op: StreamOp): Streams {
    match op
    case Put(id, row, now) => Live(t[id := row], now)
    case Evict(id) => t - {id}
    case Clear => map[]
  }

  /** The cache without the sweep. */
  function Unswept(t: Streams, op: StreamOp): Streams {
    match op
    case Put(id, row, _) => t[id := row]
    case Evict(id) => t - {id}
    case Clear => map[]
  }

  function RunSwept(ops: seq<StreamOp>): Streams {
    if ops == [] then map[] else Swept(RunSwept(ops[..|ops| - 1]), ops[|ops| - 1])
  }

  function RunUnswept(ops: seq<StreamOp>): Streams {
    if ops == [] then map[] else Unswept(RunUnswept(ops[..|ops| - 1]), ops[|ops| - 1])
  }

  /** The time of the last insert, if any. */
  function Clock(ops: seq<StreamOp>): Option<int> {
    if ops == [] then None
    else if ops[|ops| - 1].Put? then Some(ops[|ops| - 1].now)
    else Clock(ops[..|ops| - 1])
  }

  predicate Timely(ops: seq<StreamOp>) {
    ops != [] ==>
      var front, last := ops[..|ops| - 1], ops[|ops| - 1];
      Timely(front) && (last.Put? && Clock(front).Some? ==> Clock(front).value <= last.now)
  }

  function Lookup(t: Streams, id: string, now: int): Option<Stream> {
    if id in t && t[id].expiresAt > now then Some(t[id]) else None
  }

  lemma LookupStep(a: Streams, b: Streams, op: StreamOp, id: string, now: int)
    requires Lookup(a, id, now) == Lookup(b, id, now) && (op.Put? ==> op.now <= now)
    ensures Lookup(Swept(a, op), id, now) == Lookup(Unswept(b, op), id, now)
  {
  }

  /** No lookup at or after the last insert can tell that expired rows were swept. */
  lemma {:induction false} SweepIsInvisible(ops: seq<StreamOp>, id: string, now: int)
    requires Timely(ops) && (Clock(ops).Some? ==> Clock(ops).value <= now)
    ensures Lookup(RunSwept(ops), id, now) == Lookup(RunUnswept(ops), id, now)
  {
    if ops != [] {
      var front, last := ops[..|ops| - 1], ops[|ops| - 1];
      SweepIsInvisible(front, id, now);
      LookupStep(RunSwept(front), RunUnswept(front), last, id, now);
    }
  }

  /** After an insert nothing expired is left, so the table holds live rows only. */
  lemma PutLeavesLiveRows(ops: seq<StreamOp>, id: string, row: Stream, now: int)
    ensures var t := RunSwept(ops + [Put(id, row, now)]); Live(t, now) == t
  {
    assert (ops + [Put(id, row, now)])[..|ops|] == ops;
  }

  /** The sweep takes exactly the rows whose time has come, the one just put included. */
  lemma SweepTakesExpired(ops: seq<StreamOp>, id: string, row: Stream, now: int, other: string)
    ensures var before, after := RunSwept(ops), RunSwept(ops + [Put(id, row, now)]);
            && (id in after <==> row.expiresAt > now) && (id in after ==> after[id] == row)
            && (other != id ==> (other in after <==> other in before && before[other].expiresAt > now))
            && (other != id && other in after ==> after[other] == before[other])
  {
    assert (ops + [Put(id, row, now)])[..|ops|] == ops;
  }

  // ---- device playlists ------------------------------------------------------------------------

  datatype Meta = Meta(title: string, createdAt: int, updatedAt: int)
  datatype Track = Track(position: int, json: string)

  /** Playlist id and track id: the primary key. */
  type Rows = map<(string, string), Track>

  datatype Result<+T> = Ok(value: T) | NoRows | Conflict

  /** A playlist as its users see it: track ids with their payloads, in order. */
  type Listing = seq<(string, string)>

  /** `list` is the playlist `p` read in position order: each row once, positions strictly rising. */
  ghost predicate Lists(rows: Rows, p: string, list: Listing) {
    && (forall i :: 0 <= i < |list| ==> (p, list[i].0) in rows && rows[(p, list[i].0)].json == list[i].1)
    && (forall v :: (p, v) in rows ==> exists i :: 0 <= i < |list| && list[i].0 == v)
    && (forall i, j :: 0 <= i < j < |list| ==>
          rows[(p, list[i].0)].position < rows[(p, list[j].0)].position)
  }

  /** Position order leaves no choice: a playlist has one listing. */
  lemma ListingIsUnique(rows: Rows, p: string, a: Listing, b: Listing)
    requires Lists(rows, p, a) && Lists(rows, p, b)
    ensures a == b
  {
    ListingsAgree(rows, p, a, b, |a|);
    ListingsAgree(rows, p, b, a, |b|);
  }

  lemma {:induction false} ListingsAgree(rows: Rows, p: string, a: Listing, b: Listing, n: nat)
    requires Lists(rows, p, a) && Lists(rows, p, b) && n <= |a|
    ensures n <= |b| && a[..n] == b[..n]
  {
    if n > 0 {
      ListingsAgree(rows, p, a, b, n - 1);
      var k := n - 1;
      var j := PlaceOf(rows, p, a, b, k);
      assert b[..k] == a[..k];
      var i := PlaceOf(rows, p, b, a, k);
      NeverFalls(rows, p, a, k, i);
      NeverFalls(rows, p, b, k, j);
    }
  }

  /** Positions along a listing do not fall, and two entries at one position are the same entry. */
  lemma NeverFalls(rows: Rows, p: string, list: Listing, i: nat, j: nat)
    requires Lists(rows, p, list) && i <= j < |list|
    ensures (p, list[i].0) in rows && (p, list[j].0) in rows
    ensures rows[(p, list[i].0)].position <= rows[(p, list[j].0)].position
    ensures rows[(p, list[i].0)].position == rows[(p, list[j].0)].position ==> i == j
  {
  }

  /** Where entry `k` of one listing stands in the other, once they agree before `k`. */
  lemma PlaceOf(rows: Rows, p: string, a: Listing, b: Listing, k: nat) returns (j: nat)
    requires Lists(rows, p, a) && Lists(rows, p, b) && k < |a| && k <= |b| && a[..k] == b[..k]
    ensures k <= j < |b| && b[j].0 == a[k].0
  {
    assert (p, a[k].0) in rows;
    j :| 0 <= j < |b| && b[j].0 == a[k].0;
    forall m | 0 <= m < k ensures b[m].0 != a[k].0 {
      assert a[..k][m] == b[..k][m] && rows[(p, a[m].0)].position < rows[(p, a[k].0)].position;
    }
  }

  function Drop(list: Listing, v: string): Listing {
    if list == [] then []
    else if list[0].0 == v then Drop(list[1..], v)
    else [list[0]] + Drop(list[1..], v)
  }

  predicate Holds(list: Listing, v: string) {
    exists i :: 0 <= i < |list| && list[i].0 == v
  }

  ghost predicate Rising(rows: Rows, p: string, list: Listing) {
    && (forall i :: 0 <= i < |list| ==> (p, list[i].0) in rows)
    && (forall i, j :: 0 <= i < j < |list| ==>
          rows[(p, list[i].0)].position < rows[(p, list[j].0)].position)
  }

  lemma {:induction false} DropMembers(list: Listing, v: string)
    ensures forall e :: e in Drop(list, v) <==> e in list && e.0 != v
  {
    if list != [] {
      DropMembers(list[1..], v);
      assert list == [list[0]] + list[1..];
    }
  }

  lemma {:induction false} DropRises(rows: Rows, p: string, list: Listing, v: string)
    requires Rising(rows, p, list)
    ensures Rising(rows, p, Drop(list, v))
  {
    if list != [] {
      var tail := list[1..];
      DropRises(rows, p, tail, v);
      DropMembers(tail, v);
      var d := Drop(tail, v);
      if list[0].0 != v {
        forall i | 0 <= i < |d| ensures Below(rows, p, list[0].0, d[i].0) {
          assert d[i] in tail;
          var k :| 0 <= k < |tail| && tail[k] == d[i];
          assert list[k + 1] == d[i];
        }
        RisesFrom(rows, p, list[0], d);
      }
    }
  }

  ghost predicate Below(rows: Rows, p: string, u: string, v: string) {
    (p, u) in rows && (p, v) in rows && rows[(p, u)].position < rows[(p, v)].position
  }

  lemma RisesFrom(rows: Rows, p: string, first: (string, string), list: Listing)
    requires Rising(rows, p, list) && (p, first.0) in rows
    requires forall i :: 0 <= i < |list| ==> Below(rows, p, first.0, list[i].0)
    ensures Rising(rows, p, [first] + list)
  {
    var all := [first] + list;
    forall i, j | 0 <= i < j < |all| ensures Below(rows, p, all[i].0, all[j].0) {
      if i > 0 {
        assert all[i] == list[i - 1] && all[j] == list[j - 1];
      }
    }
  }

  /** Deleting a row takes the track out and keeps the order of the rest. */
  lemma DeleteDrops(rows: Rows, p: string, list: Listing, v: string)
    requires Lists(rows, p, list)
    ensures Lists(rows - {(p, v)}, p, Drop(list, v))
  {
    hide Drop;
    var rows', d := rows - {(p, v)}, Drop(list, v);
    DropMembers(list, v);
    DropRises(rows, p, list, v);
    forall i | 0 <= i < |d| ensures (p, d[i].0) in rows' && rows'[(p, d[i].0)].json == d[i].1 {
      assert d[i] in list;
    }
    forall u | (p, u) in rows' ensures exists i :: 0 <= i < |d| && d[i].0 == u {
      var k :| 0 <= k < |list| && list[k].0 == u;
      assert list[k] in d;
    }
  }

  /** A row past every position goes to the end. */
  lemma InsertAppends(rows: Rows, p: string, list: Listing, v: string, t: Track)
    requires Lists(rows, p, list) && (p, v) !in rows
    requires forall u :: (p, u) in rows ==> rows[(p, u)].position < t.position
    ensures Lists(rows[(p, v) := t], p, list + [(v, t.json)])
  {
    var rows', list' := rows[(p, v) := t], list + [(v, t.json)];
    forall u | (p, u) in rows' ensures exists i :: 0 <= i < |list'| && list'[i].0 == u {
      if u == v {
        assert list'[|list|].0 == v;
      } else {
        var i :| 0 <= i < |list| && list[i].0 == u;
        assert list'[i].0 == u;
      }
    }
  }

  /** `lists` holds the listing of every playlist in `metas`, and no row belongs to a missing playlist. */
  ghost predicate Catalogue(rows: Rows, metas: map<string, Meta>, lists: map<string, Listing>) {
    && lists.Keys == metas.Keys
    && (forall p :: p in lists ==> Lists(rows, p, lists[p]))
    && (forall p, v :: (p, v) in rows ==> p in metas)
  }

  lemma Appended(rows: Rows, metas: map<string, Meta>, lists: map<string, Listing>,
                 p: string, v: string, t: Track, meta: Meta)
    requires Catalogue(rows, metas, lists) && p in metas && (p, v) !in rows
    requires forall u :: (p, u) in rows ==> rows[(p, u)].position < t.position
    ensures Catalogue(rows[(p, v) := t], metas[p := meta], lists[p := lists[p] + [(v, t.json)]])
  {
    InsertAppends(rows, p, lists[p], v, t);
  }

  lemma Removed(rows: Rows, metas: map<string, Meta>, lists: map<string, Listing>,
                p: string, v: string, meta: Meta)
    requires Catalogue(rows, metas, lists) && p in metas
    ensures Catalogue(rows - {(p, v)}, metas[p := meta], lists[p := Drop(lists[p], v)])
  {
    DeleteDrops(rows, p, lists[p], v);
    hide Drop;
  }

  function WithoutPlaylist(rows: Rows, p: string): Rows {
    map key | key in rows && key.0 != p :: rows[key]
  }

  lemma Deleted(rows: Rows, metas: map<string, Meta>, lists: map<string, Listing>, p: string)
    requires Catalogue(rows, metas, lists)
    ensures Catalogue(WithoutPlaylist(rows, p), metas - {p}, lists - {p})
  {
  }

  /** A track that no row holds is not in the listing, and dropping it changes nothing. */
  lemma HoldsItsRows(rows: Rows, p: string, list: Listing, v: string)
    requires Lists(rows, p, list)
    ensures Holds(list, v) <==> (p, v) in rows
    ensures (p, v) !in rows ==> Drop(list, v) == list
  {
    if !Holds(list, v) {
      DropAbsent(list, v);
    }
  }

  lemma {:induction false} DropAbsent(list: Listing, v: string)
    requires !Holds(list, v)
    ensures Drop(list, v) == list
  {
    if list != [] {
      assert list[0].0 != v && forall i :: 0 <= i < |list| - 1 ==> list[1..][i] == list[i + 1];
      DropAbsent(list[1..], v);
    }
  }

  /** The keys of a listing from place `n` on. */
  ghost function KeysFrom(p: string, list: Listing, n: nat): set<(string, string)> {
    set i | n <= i < |list| :: (p, list[i].0)
  }

  lemma KeysRunOut(p: string, list: Listing, n: nat)
    requires n <= |list|
    ensures KeysFrom(p, list, n) == {} <==> n == |list|
  {
    if n < |list| {
      assert (p, list[n].0) in KeysFrom(p, list, n);
    }
  }

  lemma LowestComesNext(rows: Rows, p: string, list: Listing, n: nat, key: (string, string))
    requires Lists(rows, p, list) && key in KeysFrom(p, list, n) && n < |list|
    requires forall other :: other in KeysFrom(p, list, n) ==>
               key in rows && other in rows && rows[key].position <= rows[other].position
    ensures key == (p, list[n].0)
    ensures KeysFrom(p, list, n) - {key} == KeysFrom(p, list, n + 1)
  {
    assert (p, list[n].0) in KeysFrom(p, list, n);
    var i :| n <= i < |list| && key == (p, list[i].0);
    NeverFalls(rows, p, list, n, i);
    forall j | n < j < |list| ensures list[j].0 != list[n].0 {
      NeverFalls(rows, p, list, n, j);
    }
  }

  lemma SomeLowest(rows: Rows, p: string, list: Listing, n: nat)
    requires Lists(rows, p, list) && n < |list|
    ensures var first := (p, list[n].0);
            first in KeysFrom(p, list, n) && first in rows &&
            forall other :: other in KeysFrom(p, list, n) ==>
              other in rows && rows[first].position <= rows[other].position
  {
  }

  class Playlists {
    var metas: map<string, Meta>
    var rows: Rows
    ghost var lists: map<string, Listing>

    ghost predicate Valid()
      reads this
    {
      Catalogue(rows, metas, lists)
    }

    constructor ()
      ensures Valid() && lists == map[]
    {
      metas, rows, lists := map[], map[], map[];
    }

    method Create(id: string, title: string, now: int) returns (r: Result<()>)
      requires Valid()
      modifies this
      ensures Valid()
      ensures r == if id in old(metas) then Conflict else Ok(())
      ensures lists == if id in old(metas) then old(lists) else old(lists)[id := []]
      ensures metas == if id in old(metas) then old(metas) else old(metas)[id := Meta(title, now, now)]
    {
      if id in metas {
        return Conflict;
      }
      metas := metas[id := Meta(title, now, now)];
      lists := lists[id := []];
      r := Ok(());
    }

    method Rename(id: string, title: string, now: int) returns (r: Result<()>)
      requires Valid()
      modifies this`metas
      ensures Valid()
      ensures r == if id in old(metas) then Ok(()) else NoRows
      ensures metas == if id in old(metas) then old(metas)[id := Meta(title, old(metas)[id].createdAt, now)]
                       else old(metas)
    {
      if id !in metas {
        return NoRows;
      }
      metas := metas[id := metas[id].(title := title, updatedAt := now)];
      r := Ok(());
    }

    method Delete(id: string) returns (r: Result<()>)
      requires Valid()
      modifies this
      ensures Valid()
      ensures r == if id in old(metas) then Ok(()) else NoRows
      ensures lists == old(lists) - {id} && metas == old(metas) - {id}
    {
      if id !in metas {
        return NoRows;
      }
      Deleted(rows, metas, lists, id);
      hide Catalogue, WithoutPlaylist;
      rows := WithoutPlaylist(rows, id);
      metas := metas - {id};
      lists := lists - {id};
      r := Ok(());
    }

    /** One past the highest position, zero for an empty playlist. */
    method NextPosition(p: string) returns (n: int)
      ensures forall v :: (p, v) in rows ==> rows[(p, v)].position < n
      ensures if exists v :: (p, v) in rows then exists v :: (p, v) in rows && rows[(p, v)].position == n - 1
              else n == 0
    {
      var highest: Option<int> := None;
      var rest := rows.Keys;
      while rest != {}
        invariant rest <= rows.Keys
        invariant forall v :: (p, v) in rows && (p, v) !in rest ==>
                    highest.Some? && rows[(p, v)].position <= highest.value
        invariant highest.Some? ==> exists v :: (p, v) in rows && rows[(p, v)].position == highest.value
        decreases |rest|
      {
        var key :| key in rest;
        rest := rest - {key};
        if key.0 == p && (highest.None? || rows[key].position > highest.value) {
          highest := Some(rows[key].position);
          assert (p, key.1) in rows && rows[(p, key.1)].position == highest.value;
        }
      }
      n := if highest.Some? then highest.value + 1 else 0;
    }

    /** Add at the tail; false when the playlist already holds the track. */
    method AddTrack(p: string, v: string, json: string, now: int) returns (r: Result<bool>)
      requires Valid()
      modifies this
      ensures Valid()
      ensures r == if p !in old(metas) then NoRows else Ok(!Holds(old(lists)[p], v))
      ensures lists == if p in old(metas) && !Holds(old(lists)[p], v)
                       then old(lists)[p := old(lists)[p] + [(v, json)]] else old(lists)
      ensures metas == if p in old(metas) && !Holds(old(lists)[p], v)
                       then old(metas)[p := old(metas)[p].(updatedAt := now)] else old(metas)
    {
      assert p in metas <==> p in lists;
      if p !in metas {
        return NoRows;
      }
      HoldsItsRows(rows, p, lists[p], v);
      hide Catalogue, Holds;
      var position := NextPosition(p);
      if (p, v) in rows {
        return Ok(false);
      }
      var meta := metas[p].(updatedAt := now);
      Appended(rows, metas, lists, p, v, Track(position, json), meta);
      rows := rows[(p, v) := Track(position, json)];
      metas := metas[p := meta];
      lists := lists[p := lists[p] + [(v, json)]];
      r := Ok(true);
    }

    method RemoveTrack(p: string, v: string, now: int)
      requires Valid()
      modifies this
      ensures Valid()
      ensures lists == if p in old(lists) then old(lists)[p := Drop(old(lists)[p], v)] else old(lists)
      ensures metas == if p in old(lists) && Holds(old(lists)[p], v)
                       then old(metas)[p := old(metas)[p].(updatedAt := now)] else old(metas)
    {
      assert (p, v) in rows ==> p in metas;
      assert p in metas <==> p in lists;
      if p in lists {
        HoldsItsRows(rows, p, lists[p], v);
      }
      hide Catalogue, Holds, Drop;
      if (p, v) in rows {
        var meta := metas[p].(updatedAt := now);
        Removed(rows, metas, lists, p, v, meta);
        rows := rows - {(p, v)};
        metas := metas[p := meta];
        lists := lists[p := Drop(lists[p], v)];
      }
      assert metas == if p in old(lists) && Holds(old(lists)[p], v)
                       then old(metas)[p := old(metas)[p].(updatedAt := now)] else old(metas);
    }

    /** The payloads in position order. */
    method TrackJson(p: string) returns (out: seq<string>)
      requires Valid()
      ensures |out| == if p in lists then |lists[p]| else 0
      ensures forall i :: 0 <= i < |out| ==> out[i] == lists[p][i].1
    {
      out := PayloadsInOrder(rows, p, if p in lists then lists[p] else []);
    }
  }

  method PayloadsInOrder(rows: Rows, p: string, ghost list: Listing) returns (out: seq<string>)
    requires Lists(rows, p, list)
    ensures |out| == |list|
    ensures forall i :: 0 <= i < |out| ==> out[i] == list[i].1
  {
    hide Lists, KeysFrom;
    out := [];
    var rest := set key | key in rows && key.0 == p;
    AllKeys(rows, p, list);
    while rest != {}
      invariant |out| <= |list| && rest == KeysFrom(p, list, |out|)
      invariant forall i :: 0 <= i < |out| ==> out[i] == list[i].1
      decreases |rest|
    {
      KeysRunOut(p, list, |out|);
      var key := LowestRow(rows, p, list, |out|, rest);
      out := out + [rows[key].json];
      rest := rest - {key};
    }
    KeysRunOut(p, list, |out|);
  }

  /** The row a query in position order yields after `n` others. */
  method LowestRow(rows: Rows, ghost p: string, ghost list: Listing, ghost n: nat, rest: set<(string, string)>)
    returns (key: (string, string))
    requires Lists(rows, p, list) && n < |list| && rest == KeysFrom(p, list, n)
    ensures key in rest && key in rows && rows[key].json == list[n].1
    ensures rest - {key} == KeysFrom(p, list, n + 1)
  {
    SomeLowest(rows, p, list, n);
    hide Lists, KeysFrom;
    key :| key in rest && key in rows &&
           forall other :: other in rest ==> other in rows && rows[key].position <= rows[other].position;
    LowestComesNext(rows, p, list, n, key);
    Payload(rows, p, list, n);
  }

  lemma AllKeys(rows: Rows, p: string, list: Listing)
    requires Lists(rows, p, list)
    ensures (set key | key in rows && key.0 == p) == KeysFrom(p, list, 0)
  {
    forall key | key in rows && key.0 == p ensures key in KeysFrom(p, list, 0) {
      var i :| 0 <= i < |list| && list[i].0 == key.1;
      assert key == (p, list[i].0);
    }
  }

  lemma Payload(rows: Rows, p: string, list: Listing, n: nat)
    requires Lists(rows, p, list) && n < |list|
    ensures (p, list[n].0) in rows && rows[(p, list[n].0)].json == list[n].1
  {
  }

  // ---- membership index ------------------------------------------------------------------------

  /** How often a playlist is listed under a track. */
  function Listed(out: map<string, seq<string>>, v: string, p: string): nat {
    if v in out then multiset(out[v])[p] else 0
  }

  function Note(out: map<string, seq<string>>, v: string, p: string): map<string, seq<string>> {
    if v in out then out[v := out[v] + [p]] else out[v := [p]]
  }

  lemma NoteCounts(out: map<string, seq<string>>, v: string, p: string)
    ensures forall u, q :: Listed(Note(out, v, p), u, q) == Listed(out, u, q) + if u == v && q == p then 1 else 0
  {
  }

  /** Add each (playlist, track) pair of a table to the index. */
  method NoteAll(table: set<(string, string)>, start: map<string, seq<string>>)
    returns (out: map<string, seq<string>>)
    ensures forall v, p :: Listed(out, v, p) == Listed(start, v, p) + if (p, v) in table then 1 else 0
  {
    out := start;
    var rest := table;
    while rest != {}
      invariant rest <= table
      invariant forall v, p :: Listed(out, v, p) == Listed(start, v, p) + if (p, v) in table - rest then 1 else 0
      decreases |rest|
    {
      var pair :| pair in rest;
      var (p, v) := pair;
      NoteCounts(out, v, p);
      out := Note(out, v, p);
      rest := rest - {(p, v)};
    }
  }

  /**
   The index is the exact inverse of the account's and the device's tables: a playlist is listed under
   a track once for each table that holds the pair, and under nothing else.
   */
  method Memberships(remote: set<(string, string)>, rows: Rows) returns (out: map<string, seq<string>>)
    ensures forall v, p :: Listed(out, v, p) ==
              (if (p, v) in remote then 1 else 0) + (if (p, v) in rows then 1 else 0)
  {
    out := NoteAll(remote, map[]);
    out := NoteAll(rows.Keys, out);
  }
}
