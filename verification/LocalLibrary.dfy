/**
 The local music library (crates/core/src/local.rs): the incremental scan against a full rescan, the
 ids a scan reports as removed, and the list of watched folders.

 The table of tracks is a map from path to row. What the walk finds and what the tag reader answers
 are inputs (`Disk`); `primary` stands for the rule that cuts a credit to its first artist.
 */
module LocalLibrary {
  import opened Common

  const SONG_PREFIX := "LOCAL:"
  const ALBUM_PREFIX := "LOCALALBUM:"
  const ARTIST_PREFIX := "LOCALARTIST:"
  const SCAN_VERSION := "5"

  datatype Tags = Tags(title: string, artist: string, album: string, albumKey: string)
  datatype Row = Row(tags: Tags, mtime: int)
  type Table = map<string, Row>

  /** The audio files under the watched folders, and what reading one would answer now. */
  datatype Disk = Disk(mtimes: map<string, int>, read: string -> Tags)

  // ---- what a scan should leave ----------------------------------------------------------------

  /** The table built by reading every file. */
  function FullScan(disk: Disk): Table {
    map p | p in disk.mtimes :: Row(disk.read(p), disk.mtimes[p])
  }

  /** A stored row is trusted when the rules that made it are current and its file has not moved on. */
  predicate Trusted(table: Table, version: Option<string>, disk: Disk, p: string) {
    version == Some(SCAN_VERSION) && p in table && p in disk.mtimes && table[p].mtime == disk.mtimes[p]
  }

  function IncrementalScan(table: Table, version: Option<string>, disk: Disk): Table {
    map p | p in disk.mtimes ::
      if Trusted(table, version, disk, p) then table[p] else Row(disk.read(p), disk.mtimes[p])
  }

  /** The incremental scan agrees with a full one exactly when every row it trusted is still true. */
  lemma IncrementalIffTrustedRowsHold(table: Table, version: Option<string>, disk: Disk)
    ensures IncrementalScan(table, version, disk) == FullScan(disk)
            <==> forall p :: Trusted(table, version, disk, p) ==> table[p].tags == disk.read(p)
  {
    var inc, full := IncrementalScan(table, version, disk), FullScan(disk);
    forall p | Trusted(table, version, disk, p)
      ensures inc[p] == full[p] <==> table[p].tags == disk.read(p)
    {
    }
    if forall p :: Trusted(table, version, disk, p) ==> table[p].tags == disk.read(p) {
      assert forall p :: p in disk.mtimes ==> inc[p] == full[p];
    } else {
      var p :| Trusted(table, version, disk, p) && table[p].tags != disk.read(p);
      assert inc[p] != full[p];
    }
  }

  // ---- runs ------------------------------------------------------------------------------------

  /** `Forget` drops one file whose playback found nothing there. */
  datatype Op = Scan(disk: Disk) | Forget(path: string)

  datatype Store = Store(table: Table, version: Option<string>)

  function Step(s: Store, op: Op): Store {
    match op
    case Scan(disk) => Store(IncrementalScan(s.table, s.version, disk), Some(SCAN_VERSION))
    case Forget(path) => s.(table := s.table - {path})
  }

  function Run(s: Store, ops: seq<Op>): Store {
    if ops == [] then s else Step(Run(s, ops[..|ops| - 1]), ops[|ops| - 1])
  }

  /** Tags are a function of a file's path and modification time. */
  ghost predicate ReadsBy(tagsOf: (string, int) -> Tags, op: Op) {
    op.Scan? ==> forall p :: p in op.disk.mtimes ==> op.disk.read(p) == tagsOf(p, op.disk.mtimes[p])
  }

  ghost predicate Sound(s: Store, tagsOf: (string, int) -> Tags) {
    s.version == Some(SCAN_VERSION) ==>
      forall p :: p in s.table ==> s.table[p].tags == tagsOf(p, s.table[p].mtime)
  }

  /** Forgetting drops that file's row and no other, and the next scan finds the file again if it is there. */
  lemma ForgettingDropsOne(s: Store, path: string, disk: Disk)
    ensures var s' := Step(s, Forget(path));
            && path !in s'.table && s'.version == s.version
            && (forall p :: p != path ==>
                  (p in s'.table <==> p in s.table) && (p in s.table ==> s'.table[p] == s.table[p]))
            && (path in disk.mtimes ==> path in Step(s', Scan(disk)).table &&
                                        Step(s', Scan(disk)).table[path] == Row(disk.read(path), disk.mtimes[path]))
  {
  }

  /** After any run that ends with a scan, the table is the one a full rescan of that disk would build. */
  lemma {:induction false} ScansNeverGoStale(s: Store, ops: seq<Op>, tagsOf: (string, int) -> Tags)
    requires Sound(s, tagsOf) && forall i :: 0 <= i < |ops| ==> ReadsBy(tagsOf, ops[i])
    ensures Sound(Run(s, ops), tagsOf)
    ensures ops != [] && ops[|ops| - 1].Scan? ==> Run(s, ops).table == FullScan(ops[|ops| - 1].disk)
  {
    if ops != [] {
      var front, op := ops[..|ops| - 1], ops[|ops| - 1];
      ScansNeverGoStale(s, front, tagsOf);
      assert ReadsBy(tagsOf, op);
      if op.Scan? {
        var before := Run(s, front);
        IncrementalIffTrustedRowsHold(before.table, before.version, op.disk);
      }
    }
  }

  // ---- ids on screen ---------------------------------------------------------------------------

  function SongIds(table: Table): set<string> {
    set p | p in table :: SONG_PREFIX + p
  }

  function CardIds(primary: string -> string, table: Table): set<string> {
    (set p | p in table :: ALBUM_PREFIX + table[p].tags.albumKey) +
    (set p | p in table :: ARTIST_PREFIX + primary(table[p].tags.artist))
  }

  function AllIds(primary: string -> string, table: Table): set<string> {
    SongIds(table) + CardIds(primary, table)
  }

  lemma SongsAreNotCards(primary: string -> string, a: Table, b: Table)
    ensures SongIds(a) !! CardIds(primary, b)
  {
    forall id | id in SongIds(a) ensures id !in CardIds(primary, b) {
      assert id[5] == ':';
    }
  }

  /** A song is on screen exactly while its file is in the table. */
  lemma SongsAreFiles(primary: string -> string, table: Table, path: string)
    ensures "LOCAL:" + path in AllIds(primary, table) <==> path in table
  {
    if "LOCAL:" + path in SongIds(table) {
      var p :| p in table && SONG_PREFIX + p == "LOCAL:" + path;
      assert (SONG_PREFIX + p)[6..] == p && ("LOCAL:" + path)[6..] == path;
    }
    SongsAreNotCards(primary, map[path := Row(Tags("", "", "", ""), 0)], table);
    assert "LOCAL:" + path in SongIds(map[path := Row(Tags("", "", "", ""), 0)]);
  }

  /** An album's card is on screen exactly while a track of it is, and an artist's exactly while one of theirs is. */
  lemma CardsAreTracks(primary: string -> string, table: Table, key: string)
    ensures "LOCALALBUM:" + key in AllIds(primary, table) <==> exists p :: p in table && table[p].tags.albumKey == key
    ensures "LOCALARTIST:" + key in AllIds(primary, table)
            <==> exists p :: p in table && primary(table[p].tags.artist) == key
  {
    var album, artist := "LOCALALBUM:" + key, "LOCALARTIST:" + key;
    assert album[5] == 'A' && album[6] == 'L' && artist[5] == 'A' && artist[6] == 'R';
    assert album[11..] == key && artist[12..] == key;
    if album in AllIds(primary, table) {
      Unprefixed(primary, table, album);
    }
    if artist in AllIds(primary, table) {
      Unprefixed(primary, table, artist);
    }
    if p :| p in table && table[p].tags.albumKey == key {
      assert ALBUM_PREFIX + table[p].tags.albumKey == album;
    }
    if p :| p in table && primary(table[p].tags.artist) == key {
      assert ARTIST_PREFIX + primary(table[p].tags.artist) == artist;
    }
  }

  lemma Unprefixed(primary: string -> string, table: Table, id: string)
    requires id in AllIds(primary, table) && |id| > 6 && id[5] == 'A'
    ensures id[6] == 'L' ==> |id| >= 11 && exists p :: p in table && table[p].tags.albumKey == id[11..]
    ensures id[6] == 'R' ==> |id| >= 12 && exists p :: p in table && primary(table[p].tags.artist) == id[12..]
  {
    forall p ensures SONG_PREFIX + p != id {
      assert (SONG_PREFIX + p)[5] == ':';
    }
    if p :| p in table && id == ALBUM_PREFIX + table[p].tags.albumKey {
      assert id[6] == 'L' && id[11..] == table[p].tags.albumKey;
    } else {
      var p :| p in table && id == ARTIST_PREFIX + primary(table[p].tags.artist);
      assert id[6] == 'R' && id[12..] == primary(table[p].tags.artist);
    }
  }

  // ---- the scan as it runs ---------------------------------------------------------------------

  /** A set listed in some order, each element once. */
  method Listed<T(==)>(s: set<T>) returns (list: seq<T>)
    ensures Distinct(list) && forall x :: x in list <==> x in s
  {
    list := [];
    var rest := s;
    while rest != {}
      invariant rest <= s && Distinct(list)
      invariant forall x :: x in list <==> x in s - rest
      decreases |rest|
    {
      var x :| x in rest;
      assert x !in list;
      DistinctConcat(list, [x]);
      rest := rest - {x};
      list := list + [x];
    }
  }

  /** `files` is what the walk met, in its order; the same path may come up more than once. */
  ghost predicate Walked(disk: Disk, files: seq<string>) {
    forall p :: p in files <==> p in disk.mtimes
  }

  function Paths(rows: seq<(string, Row)>): set<string> {
    set i | 0 <= i < |rows| :: rows[i].0
  }

  /** The batch upsert: later rows win. */
  function Upsert(table: Table, rows: seq<(string, Row)>): Table {
    if rows == [] then table
    else Upsert(table, rows[..|rows| - 1])[rows[|rows| - 1].0 := rows[|rows| - 1].1]
  }

  lemma {:induction false} UpsertAnswers(table: Table, rows: seq<(string, Row)>, disk: Disk)
    requires forall i :: 0 <= i < |rows| ==> rows[i].0 in disk.mtimes && rows[i].1 == FullScan(disk)[rows[i].0]
    ensures Upsert(table, rows).Keys == table.Keys + Paths(rows)
    ensures forall p :: p in Upsert(table, rows) ==>
              Upsert(table, rows)[p] == if p in Paths(rows) then FullScan(disk)[p] else table[p]
  {
    if rows != [] {
      var front, last := rows[..|rows| - 1], rows[|rows| - 1];
      UpsertAnswers(table, front, disk);
      PathsAppend(front, last);
      assert rows == front + [last];
    }
  }

  lemma PathsAppend(rows: seq<(string, Row)>, row: (string, Row))
    ensures Paths(rows + [row]) == Paths(rows) + {row.0}
  {
    var all := rows + [row];
    assert all[|rows|] == row;
    forall p | p in Paths(rows) ensures p in Paths(all) {
      var i :| 0 <= i < |rows| && rows[i].0 == p;
      assert all[i].0 == p;
    }
  }

  class Library {
    var table: Table
    var version: Option<string>
    const primary: string -> string

    constructor (primary: string -> string)
      ensures this.primary == primary && table == map[] && version == None
    {
      this.primary, table, version := primary, map[], None;
    }

    method PutTracks(rows: seq<(string, Row)>)
      modifies this`table
      ensures table == Upsert(old(table), rows)
    {
      var i := 0;
      while i < |rows|
        invariant 0 <= i <= |rows| && table == Upsert(old(table), rows[..i])
      {
        PrefixStep(rows, i);
        table := table[rows[i].0 := rows[i].1];
        i := i + 1;
      }
      assert rows[..i] == rows;
    }

    /** Visit every file the walk met; read the ones whose stored row cannot be trusted. */
    method Visit(disk: Disk, files: seq<string>) returns (found: set<string>, reread: seq<(string, Row)>)
      requires Walked(disk, files)
      ensures found == disk.mtimes.Keys
      ensures forall i :: 0 <= i < |reread| ==>
                reread[i].0 in disk.mtimes && reread[i].1 == FullScan(disk)[reread[i].0]
      ensures Paths(reread) == set p | p in disk.mtimes && !Trusted(table, version, disk, p)
    {
      found, reread := {}, [];
      var i := 0;
      while i < |files|
        invariant 0 <= i <= |files|
        invariant forall p :: p in found <==> p in files[..i]
        invariant forall i :: 0 <= i < |reread| ==>
                    reread[i].0 in disk.mtimes && reread[i].1 == FullScan(disk)[reread[i].0]
        invariant Paths(reread) == set p | p in found && !Trusted(table, version, disk, p)
      {
        var path := files[i];
        assert path in files;
        var mtime := disk.mtimes[path];
        PrefixStep(files, i);
        found := found + {path};
        if version != Some(SCAN_VERSION) || path !in table || table[path].mtime != mtime {
          var row := (path, Row(disk.read(path), mtime));
          PathsAppend(reread, row);
          reread := reread + [row];
        }
        i := i + 1;
      }
      assert files[..i] == files;
    }

    /**
     Re-read what changed, drop what is gone. `removed` lists, once each, exactly the song, album and
     artist ids that were on screen before and are not after; `reread` is what had to be read.
     */
    method Rescan(disk: Disk, files: seq<string>) returns (removed: seq<string>, reread: seq<(string, Row)>)
      requires Walked(disk, files)
      modifies this
      ensures Store(table, version) == Step(old(Store(table, version)), Scan(disk))
      ensures Paths(reread) == set p | p in disk.mtimes && !Trusted(old(table), old(version), disk, p)
      ensures Distinct(removed)
      ensures forall id :: id in removed <==> id in old(AllIds(primary, table)) - AllIds(primary, table)
    {
      hide Upsert, CardIds;
      var known, before := table, CardIds(primary, table);
      var found;
      found, reread := Visit(disk, files);
      PutTracks(reread);
      UpsertAnswers(known, reread, disk);
      version := Some(SCAN_VERSION);
      var gone := known.Keys - found;
      table := table - gone;
      assert table == IncrementalScan(known, old(version), disk);
      var after := CardIds(primary, table);
      var goneSongs := Listed(set p | p in gone :: SONG_PREFIX + p);
      var lostCards := Listed(before - after);
      SongsAreNotCards(primary, known, known);
      SongsAreNotCards(primary, known, table);
      SongsAreNotCards(primary, table, known);
      GoneSongs(known, table, gone);
      assert forall id :: id in goneSongs ==> id !in lostCards;
      DistinctConcat(goneSongs, lostCards);
      removed := goneSongs + lostCards;
    }
  }

  lemma GoneSongs(known: Table, table: Table, gone: set<string>)
    requires gone == known.Keys - table.Keys
    ensures (set p | p in gone :: SONG_PREFIX + p) == SongIds(known) - SongIds(table)
  {
    forall p, q: string ensures SONG_PREFIX + p == SONG_PREFIX + q ==> p == q {
      assert (SONG_PREFIX + p)[6..] == p && (SONG_PREFIX + q)[6..] == q;
    }
  }

  /** Scanning an unchanged disk again trusts every row: nothing is read and nothing is removed. */
  lemma RescanIsQuiet(s: Store, disk: Disk, primary: string -> string)
    ensures var s1 := Step(s, Scan(disk));
            && Step(s1, Scan(disk)) == s1 && s1.version == Some("5")
            && (forall p :: p in disk.mtimes ==> Trusted(s1.table, s1.version, disk, p))
            && AllIds(primary, s1.table) - AllIds(primary, Step(s1, Scan(disk)).table) == {}
  {
    var s1 := Step(s, Scan(disk));
    assert IncrementalScan(s1.table, s1.version, disk) == s1.table;
  }

  // ---- watched folders -------------------------------------------------------------------------

  /** The components of a path. Two spellings of a folder may have the same components. */
  type Parts = string -> seq<string>

  /** No watched folder is listed twice, under any spelling, or lies inside another. */
  ghost predicate Antichain(parts: Parts, list: seq<string>) {
    Distinct(list) && forall f, g :: f in list && g in list && parts(f) <= parts(g) ==> f == g
  }

  /** A folder covers whatever its components begin. */
  ghost predicate Covered(parts: Parts, list: seq<string>, file: seq<string>) {
    exists f :: f in list && parts(f) <= file
  }

  /** With no nesting, no file is reached through two watched folders. */
  lemma CoveredOnce(parts: Parts, list: seq<string>, file: seq<string>, f: string, g: string)
    requires Antichain(parts, list) && f in list && g in list && parts(f) <= file && parts(g) <= file
    ensures f == g
  {
    PrefixesCompare(parts(f), parts(g), file);
  }

  lemma PrefixesCompare(f: seq<string>, g: seq<string>, file: seq<string>)
    requires f <= file && g <= file
    ensures f <= g || g <= f
  {
    assert f == file[..|f|] && g == file[..|g|];
  }

  /** The list without the folders a predicate names, in the same order. */
  method Retain(ghost parts: Parts, list: seq<string>, drop: string -> bool) returns (kept: seq<string>)
    requires Antichain(parts, list)
    ensures Antichain(parts, kept) && forall f :: f in kept <==> f in list && !drop(f)
  {
    kept := [];
    var i := 0;
    while i < |list|
      invariant 0 <= i <= |list|
      invariant Distinct(kept) && forall f :: f in kept <==> f in list[..i] && !drop(f)
    {
      PrefixStep(list, i);
      if !drop(list[i]) {
        assert list[i] !in list[..i];
        DistinctConcat(kept, [list[i]]);
        kept := kept + [list[i]];
      }
      i := i + 1;
    }
    assert list[..i] == list;
  }

  class Folders {
    const parts: Parts
    var list: seq<string>

    constructor (parts: Parts)
      ensures this.parts == parts && list == []
    {
      this.parts, list := parts, [];
    }

    /** Adding a folder covers its tree and nothing else new; what was covered stays covered. */
    method Add(path: string)
      requires Antichain(parts, list)
      modifies this
      ensures Antichain(parts, list)
      ensures forall file :: Covered(parts, list, file) <==> Covered(parts, old(list), file) || parts(path) <= file
    {
      var i := 0;
      while i < |list|
        invariant 0 <= i <= |list|
        invariant forall k :: 0 <= k < i ==> !(parts(list[k]) <= parts(path))
      {
        if parts(list[i]) <= parts(path) {
          AlreadyCovered(parts, list, list[i], path);
          return;
        }
        i := i + 1;
      }
      var kept := Retain(parts, list, f => parts(path) <= parts(f));
      DistinctConcat(kept, [path]);
      Supersedes(parts, list, kept, path);
      list := kept + [path];
    }

    /** Removal goes by spelling: it uncovers the tree of the folder listed as `path`, if one is. */
    method Remove(path: string)
      requires Antichain(parts, list)
      modifies this
      ensures Antichain(parts, list) && forall f :: f in list <==> f in old(list) && f != path
      ensures forall file :: Covered(parts, list, file)
                <==> Covered(parts, old(list), file) && !(path in old(list) && parts(path) <= file)
    {
      var kept := Retain(parts, list, f => f == path);
      Uncovers(parts, list, kept, path);
      list := kept;
    }
  }

  lemma AlreadyCovered(parts: Parts, list: seq<string>, f: string, path: string)
    requires f in list && parts(f) <= parts(path)
    ensures forall file :: parts(path) <= file ==> Covered(parts, list, file)
  {
    forall file | parts(path) <= file ensures Covered(parts, list, file) {
      assert parts(f) <= file;
    }
  }

  lemma Supersedes(parts: Parts, list: seq<string>, kept: seq<string>, path: string)
    requires forall f :: f in kept <==> f in list && !(parts(path) <= parts(f))
    ensures forall file :: Covered(parts, kept + [path], file) <==> Covered(parts, list, file) || parts(path) <= file
  {
    forall file ensures Covered(parts, kept + [path], file) <==> Covered(parts, list, file) || parts(path) <= file {
      assert path in kept + [path];
      if Covered(parts, list, file) {
        var f :| f in list && parts(f) <= file;
        if parts(path) <= parts(f) {
          assert parts(path) <= file;
        } else {
          assert f in kept + [path];
        }
      }
    }
  }

  lemma Uncovers(parts: Parts, list: seq<string>, kept: seq<string>, path: string)
    requires Antichain(parts, list) && forall f :: f in kept <==> f in list && f != path
    ensures forall file :: Covered(parts, kept, file)
              <==> Covered(parts, list, file) && !(path in list && parts(path) <= file)
  {
    forall file
      ensures Covered(parts, kept, file) <==> Covered(parts, list, file) && !(path in list && parts(path) <= file)
    {
      if Covered(parts, list, file) {
        var f :| f in list && parts(f) <= file;
        if path in list && parts(path) <= file {
          CoveredOnce(parts, list, file, f, path);
          forall g | g in kept && parts(g) <= file ensures false {
            CoveredOnce(parts, list, file, g, path);
          }
        } else {
          assert f in kept;
        }
      }
    }
  }
}
