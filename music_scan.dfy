/**
 * The library scan (`ScanLibraryInBackground`): the walk over the music
 * folder, which imports new audio files with their album, and the pruning of
 * tracks whose file is gone. The file system, the tag reader, ffprobe and the
 * database are given as the outcomes they report for each path.
 */
module MusicScan {
  import opened Wrappers
  import opened MusicFiles
  import MusicMeta

  /** The stored album with a track's album name and artist: its id, none, or a failed query. */
  datatype AlbumLookup = Found(id: string) | Missing | LookupFailed

  /** One call of the walk callback, with what the scanner's own calls report for that path. */
  datatype WalkEntry = WalkEntry(
    path: string,
    isDir: bool,
    /** the walk could not access the path */
    accessError: bool,
    /** opening the file and probing it with ffprobe succeed */
    probed: bool,
    /** the tags, None when they cannot be read */
    meta: Option<Meta>,
    album: AlbumLookup,
    /** the id a newly created album receives, None when creating it fails */
    newAlbumId: Option<string>,
    /** the album's most common genre, None when that query fails */
    albumGenre: Option<string>,
    /** inserting the track succeeds */
    createOk: bool)

  /**
   * The columns of a new track this model keeps: the path, the names from the
   * tags, the album, the genre and the suffix. The cover path, the audio
   * properties and the remaining tag columns the scan also writes are not part
   * of this model.
   */
  datatype Track = Track(fileUrl: string, title: string, artist: string, albumArtist: string,
                         albumId: string, genre: string, suffix: string)

  datatype ScanResult = ScanResult(scannedFiles: nat, added: nat, removed: nat)

  /** The lookup of the `SYSTEM` user: found, missing (and whether creating it succeeds), or a failed query. */
  datatype SystemUser = SystemFound | SystemMissing(createOk: bool) | SystemQueryFailed

  /** The `SYSTEM` user exists once the first step of the transaction is done. */
  predicate SystemReady(system: SystemUser) {
    system == SystemFound || system == SystemMissing(true)
  }

  predicate IsFile(e: WalkEntry) {
    !e.accessError && !e.isDir
  }

  /** A file the scan goes on to import: an audio file whose path no stored track has. */
  predicate IsNew(e: WalkEntry, known: set<string>) {
    IsFile(e) && IsSupportedFileType(e.path) && e.path !in known
  }

  /** A new file that opens and probes: its album is resolved and its track built. */
  predicate Reaches(e: WalkEntry, known: set<string>) {
    IsNew(e, known) && e.probed
  }

  predicate Imports(e: WalkEntry, known: set<string>) {
    Reaches(e, known) && e.createOk
  }

  /** The runtime's message for a method called on a nil interface value. */
  const NilDereference := "invalid memory address or nil pointer dereference"

  /**
   * The genre argument of `getOrInferGenre` as written: `meta.Genre()` is
   * called even when the tag read failed and left `meta` nil, which panics.
   * The scan runs in a goroutine of its own and nothing recovers from the
   * panic, so it ends the whole server process.
   */
  function GenreArgAsWritten(meta: Option<Meta>): (r: Result<string, string>)
    ensures r.Err? <==> meta.None?
    ensures r.Err? ==> r.error == NilDereference
    ensures r.Ok? ==> meta.Some? && r.value == meta.value.genre
  {
    match meta
    case None => Err(NilDereference)
    case Some(m) => Ok(m.genre)
  }

  /** The genre tag as the other tag reads take it: only when the tag reader exists, "" otherwise. */
  function GenreTag(meta: Option<Meta>): string {
    if meta.Some? then meta.value.genre else ""
  }

  /** The album name of the tags, "" when they cannot be read. */
  function AlbumTag(meta: Option<Meta>): string {
    if meta.Some? then meta.value.album else ""
  }

  /** The paths of the files the walk visits, in order. */
  function Files(entries: seq<WalkEntry>): (r: seq<string>)
    ensures |r| <= |entries|
  {
    if entries == [] then []
    else
      var front := entries[..|entries| - 1];
      var last := entries[|entries| - 1];
      Files(front) + (if IsFile(last) then [last.path] else [])
  }

  /** The paths found are exactly the paths of the files among the entries. */
  lemma {:induction false} FilesMembership(entries: seq<WalkEntry>, p: string)
    ensures p in Files(entries) <==> exists i :: 0 <= i < |entries| && IsFile(entries[i]) && entries[i].path == p
  {
    if entries != [] {
      var front := entries[..|entries| - 1];
      FilesMembership(front, p);
      assert forall i :: 0 <= i < |front| ==> front[i] == entries[i];
    }
  }

  /** The entries whose track is inserted, in order. */
  function ImportedEntries(entries: seq<WalkEntry>, known: set<string>): (r: seq<WalkEntry>)
    ensures |r| <= |entries|
  {
    if entries == [] then []
    else
      var front := entries[..|entries| - 1];
      var last := entries[|entries| - 1];
      ImportedEntries(front, known) + (if Imports(last, known) then [last] else [])
  }

  /** An entry is imported exactly when it is one of the entries and its insertion goes through. */
  lemma {:induction false} ImportedMembership(entries: seq<WalkEntry>, known: set<string>, e: WalkEntry)
    ensures e in ImportedEntries(entries, known) <==> e in entries && Imports(e, known)
  {
    if entries != [] {
      var front := entries[..|entries| - 1];
      ImportedMembership(front, known, e);
      assert entries == front + [entries[|entries| - 1]];
    }
  }

  /** The existing paths the pruning deletes: those the walk did not see, apart from failed deletes. */
  function Pruned(existing: seq<string>, found: set<string>, deleteFails: set<string>): (r: seq<string>)
    ensures |r| <= |existing|
  {
    if existing == [] then []
    else
      var front := existing[..|existing| - 1];
      var last := existing[|existing| - 1];
      Pruned(front, found, deleteFails) + (if last !in found && last !in deleteFails then [last] else [])
  }

  /** A stored path is deleted exactly when the walk did not find it and its delete does not fail. */
  lemma {:induction false} PrunedMembership(existing: seq<string>, found: set<string>, deleteFails: set<string>, p: string)
    ensures p in Pruned(existing, found, deleteFails) <==> p in existing && p !in found && p !in deleteFails
  {
    if existing != [] {
      var front := existing[..|existing| - 1];
      PrunedMembership(front, found, deleteFails, p);
      assert existing == front + [existing[|existing| - 1]];
    }
  }

  /** The album cache key of a track, None when it has no album name. */
  function KeyOf(e: WalkEntry): Option<string> {
    if e.meta.Some? && e.meta.value.album != "" then
      Some(AlbumKey(e.meta.value.album, AlbumArtistName(e.meta.value)))
    else None
  }

  /** The album id a cache miss yields: the stored album's, else the new album's. */
  function Resolved(e: WalkEntry): Option<string> {
    match e.album
    case Found(id) => Some(id)
    case Missing => e.newAlbumId
    case LookupFailed => None
  }

  /** The album id a track receives, given the album cache before it. */
  function AlbumIdFor(e: WalkEntry, cache: map<string, string>): string {
    match KeyOf(e)
    case None => ""
    case Some(k) => if k in cache then cache[k] else if Resolved(e).Some? then Resolved(e).value else ""
  }

  /** The album cache after a track that reaches creation. */
  function CacheAfter(e: WalkEntry, cache: map<string, string>): map<string, string> {
    match KeyOf(e)
    case None => cache
    case Some(k) => if k in cache then cache else if Resolved(e).Some? then cache[k := Resolved(e).value] else cache
  }

  /**
   * The track created for an entry, given its album id: the path, the names
   * taken from the tags or the file name, the lower-cased extension, and a
   * genre chosen as `getOrInferGenre` does.
   */
  predicate Describes(t: Track, e: WalkEntry) {
    var names := NewTrackNames(e.path, e.meta);
    t.fileUrl == e.path && t.title == names.title && t.artist == names.artist
    && t.albumArtist == names.albumArtist && t.suffix == Suffix(e.path)
    && t.genre in MusicMeta.AllowedGenres(GenreTag(e.meta), t.albumId, e.albumGenre, AlbumTag(e.meta))
  }

  /** The track created for an entry when the album cache is `cache`. */
  predicate TrackFits(t: Track, e: WalkEntry, cache: map<string, string>) {
    Describes(t, e) && t.albumId == AlbumIdFor(e, cache)
  }

  /** The scan's working state. */
  class Scanner {
    /** The paths of the tracks stored before the scan. */
    const known: set<string>
    var foundPaths: set<string>
    var albumCache: map<string, string>
    var scannedFiles: nat
    var added: nat
    var removed: nat
    /** The tracks inserted, in order. */
    var created: seq<Track>
    /** The paths whose tracks were deleted, in order. */
    var deleted: seq<string>

    constructor (existingPaths: seq<string>)
      ensures known == set i | 0 <= i < |existingPaths| :: existingPaths[i]
      ensures foundPaths == {} && albumCache == map[] && scannedFiles == 0 && added == 0 && removed == 0
      ensures created == [] && deleted == []
    {
      known := set i | 0 <= i < |existingPaths| :: existingPaths[i];
      foundPaths := {};
      albumCache := map[];
      scannedFiles := 0;
      added := 0;
      removed := 0;
      created := [];
      deleted := [];
    }

    /**
     * The walk callback for one entry: a file is recorded as found and counted;
     * an audio file not yet stored is probed, its album looked up in the cache,
     * then in the database or created, and its track inserted.
     */
    method Visit(e: WalkEntry) returns (track: Option<Track>)
      modifies this
      ensures foundPaths == old(foundPaths) + (if IsFile(e) then {e.path} else {})
      ensures scannedFiles == old(scannedFiles) + (if IsFile(e) then 1 else 0)
      ensures albumCache == (if Reaches(e, known) then CacheAfter(e, old(albumCache)) else old(albumCache))
      ensures track.Some? <==> Imports(e, known)
      ensures track.Some? ==> TrackFits(track.value, e, old(albumCache))
      ensures created == old(created) + (if track.Some? then [track.value] else [])
      ensures added == old(added) + (if track.Some? then 1 else 0)
      ensures removed == old(removed) && deleted == old(deleted)
    {
      track := None;
      if e.accessError || e.isDir {
        return;
      }
      foundPaths := foundPaths + {e.path};
      scannedFiles := scannedFiles + 1;
      if !IsSupportedFileType(e.path) || e.path in known || !e.probed {
        return;
      }
      track := ImportFile(e);
    }

    /** A new, probed audio file: its album is resolved, its track built and inserted. */
    method ImportFile(e: WalkEntry) returns (track: Option<Track>)
      modifies this
      ensures albumCache == CacheAfter(e, old(albumCache))
      ensures track.Some? <==> e.createOk
      ensures track.Some? ==> TrackFits(track.value, e, old(albumCache))
      ensures created == old(created) + (if track.Some? then [track.value] else [])
      ensures added == old(added) + (if track.Some? then 1 else 0)
      ensures foundPaths == old(foundPaths) && scannedFiles == old(scannedFiles)
      ensures removed == old(removed) && deleted == old(deleted)
    {
      track := None;
      var albumId := ResolveAlbum(e);
      var t := BuildTrack(e, albumId);
      if e.createOk {
        Insert(t);
        track := Some(t);
      }
    }

    /** The insert of a new track, counted in `added`. */
    method Insert(t: Track)
      modifies this
      ensures created == old(created) + [t] && added == old(added) + 1
      ensures albumCache == old(albumCache) && foundPaths == old(foundPaths) && scannedFiles == old(scannedFiles)
      ensures removed == old(removed) && deleted == old(deleted)
    {
      created := created + [t];
      added := added + 1;
    }

    /** The track of a new file in album `albumId`, its genre chosen by `getOrInferGenre`. */
    static method BuildTrack(e: WalkEntry, albumId: string) returns (t: Track)
      ensures Describes(t, e) && t.albumId == albumId
    {
      var names := NewTrackNames(e.path, e.meta);
      var genre := MusicMeta.GetOrInferGenre(GenreTag(e.meta), albumId, e.albumGenre, AlbumTag(e.meta));
      t := Track(e.path, names.title, names.artist, names.albumArtist, albumId, genre, Suffix(e.path));
    }

    /** The album of a new track: the cached id, else the stored or newly created album's, recorded in the cache. */
    method ResolveAlbum(e: WalkEntry) returns (albumId: string)
      modifies this
      ensures albumId == AlbumIdFor(e, old(albumCache)) && albumCache == CacheAfter(e, old(albumCache))
      ensures foundPaths == old(foundPaths) && scannedFiles == old(scannedFiles) && added == old(added)
      ensures removed == old(removed) && created == old(created) && deleted == old(deleted)
    {
      albumId := "";
      if e.meta.Some? && e.meta.value.album != "" {
        var key := AlbumKey(e.meta.value.album, AlbumArtistName(e.meta.value));
        if key in albumCache {
          albumId := albumCache[key];
        } else {
          match e.album
          case Found(id) =>
            albumCache := albumCache[key := id];
            albumId := id;
          case Missing =>
            if e.newAlbumId.Some? {
              albumCache := albumCache[key := e.newAlbumId.value];
              albumId := e.newAlbumId.value;
            }
          case LookupFailed =>
        }
      }
    }

    /** The walk over the music folder, from a fresh scanner. */
    method Walk(entries: seq<WalkEntry>)
      requires foundPaths == {} && albumCache == map[] && scannedFiles == 0 && added == 0 && created == []
      modifies this
      ensures scannedFiles == |Files(entries)| && foundPaths == set p | p in Files(entries)
      ensures added == |created| == |ImportedEntries(entries, known)|
      ensures SameAlbumSameId(created, ImportedEntries(entries, known))
      ensures forall k :: 0 <= k < |created| ==> Describes(created[k], ImportedEntries(entries, known)[k])
      ensures removed == old(removed) && deleted == old(deleted)
    {
      var i := 0;
      while i < |entries|
        invariant 0 <= i <= |entries|
        invariant WalkedUpTo(entries, i)
        invariant removed == old(removed) && deleted == old(deleted)
      {
        WalkOne(entries, i);
        i := i + 1;
      }
      assert entries[..|entries|] == entries;
    }

    /** What the walk has done once it has visited the first `i` entries. */
    ghost predicate WalkedUpTo(entries: seq<WalkEntry>, i: nat)
      reads this
    {
      i <= |entries| &&
      scannedFiles == |Files(entries[..i])| &&
      foundPaths == (set p | p in Files(entries[..i])) &&
      added == |created| == |ImportedEntries(entries[..i], known)| &&
      ScanInv(created, ImportedEntries(entries[..i], known), albumCache)
    }

    /** One step of the walk: the visit of entry `i`. */
    method WalkOne(entries: seq<WalkEntry>, i: nat)
      requires i < |entries|
      requires WalkedUpTo(entries, i)
      modifies this
      ensures WalkedUpTo(entries, i + 1)
      ensures removed == old(removed) && deleted == old(deleted)
    {
      var e := entries[i];
      ghost var before := albumCache;
      ghost var imported := ImportedEntries(entries[..i], known);
      ghost var createdBefore := created;
      ImportedSnoc(entries, i, known);
      FilesSnoc(entries, i);
      var track := Visit(e);
      WalkStep(createdBefore, imported, before, e, track, Reaches(e, known),
               created, ImportedEntries(entries[..i + 1], known), albumCache);
    }

    /** The pruning: every existing path the walk did not find is deleted; `removed` counts the deletes that succeed. */
    method Prune(existingPaths: seq<string>, deleteFails: set<string>)
      modifies this
      ensures deleted == old(deleted) + Pruned(existingPaths, foundPaths, deleteFails)
      ensures removed == old(removed) + |Pruned(existingPaths, foundPaths, deleteFails)|
      ensures foundPaths == old(foundPaths) && albumCache == old(albumCache)
      ensures scannedFiles == old(scannedFiles) && added == old(added) && created == old(created)
    {
      var i := 0;
      while i < |existingPaths|
        invariant 0 <= i <= |existingPaths|
        invariant deleted == old(deleted) + Pruned(existingPaths[..i], foundPaths, deleteFails)
        invariant removed == old(removed) + |Pruned(existingPaths[..i], foundPaths, deleteFails)|
        invariant foundPaths == old(foundPaths) && albumCache == old(albumCache)
        invariant scannedFiles == old(scannedFiles) && added == old(added) && created == old(created)
      {
        var path := existingPaths[i];
        assert existingPaths[..i + 1][..i] == existingPaths[..i];
        if path !in foundPaths && path !in deleteFails {
          deleted := deleted + [path];
          removed := removed + 1;
        }
        i := i + 1;
      }
      assert existingPaths[..|existingPaths|] == existingPaths;
    }
  }

  /** Every created track sharing an album key with an earlier one that has an album id shares that id. */
  predicate SameAlbumSameId(created: seq<Track>, imported: seq<WalkEntry>)
    requires |created| == |imported|
  {
    forall i, j ::
      (0 <= i < j < |created| && KeyOf(imported[i]).Some? && KeyOf(imported[i]) == KeyOf(imported[j])
       && created[i].albumId != "") ==> created[j].albumId == created[i].albumId
  }

  /** Every created track with an album id has it recorded in the cache under its key. */
  predicate CacheHolds(created: seq<Track>, imported: seq<WalkEntry>, cache: map<string, string>)
    requires |created| == |imported|
  {
    forall i :: 0 <= i < |created| && KeyOf(imported[i]).Some? && created[i].albumId != "" ==>
      KeyOf(imported[i]).value in cache && cache[KeyOf(imported[i]).value] == created[i].albumId
  }

  /** A cache that only gains keys keeps what it recorded. */
  lemma CacheGrows(created: seq<Track>, imported: seq<WalkEntry>, e: WalkEntry, cache: map<string, string>)
    requires |created| == |imported| && CacheHolds(created, imported, cache)
    ensures CacheHolds(created, imported, CacheAfter(e, cache))
  {
  }

  /** Adding a track built from the cache keeps both album properties. */
  lemma AlbumStep(created: seq<Track>, imported: seq<WalkEntry>, cache: map<string, string>, e: WalkEntry, t: Track)
    requires |created| == |imported|
    requires CacheHolds(created, imported, cache) && SameAlbumSameId(created, imported)
    requires t.albumId == AlbumIdFor(e, cache)
    ensures CacheHolds(created + [t], imported + [e], CacheAfter(e, cache))
    ensures SameAlbumSameId(created + [t], imported + [e])
  {
    CacheGrows(created, imported, e, cache);
    var c2 := created + [t];
    var i2 := imported + [e];
    forall i, j | 0 <= i < j < |c2| && KeyOf(i2[i]).Some? && KeyOf(i2[i]) == KeyOf(i2[j]) && c2[i].albumId != ""
      ensures c2[j].albumId == c2[i].albumId
    {
      if j == |created| {
        assert c2[i] == created[i] && i2[i] == imported[i];
      } else {
        assert c2[i] == created[i] && c2[j] == created[j] && i2[i] == imported[i] && i2[j] == imported[j];
      }
    }
  }

  /** Every created track is built from its entry. */
  predicate AllDescribed(created: seq<Track>, imported: seq<WalkEntry>) {
    |created| == |imported| && forall k :: 0 <= k < |created| ==> Describes(created[k], imported[k])
  }

  /** What the walk keeps true of the tracks it created and the album cache. */
  predicate ScanInv(created: seq<Track>, imported: seq<WalkEntry>, cache: map<string, string>) {
    AllDescribed(created, imported) && CacheHolds(created, imported, cache) && SameAlbumSameId(created, imported)
  }

  /** The walk's invariant survives the import of one more track. */
  lemma StepImports(created: seq<Track>, imported: seq<WalkEntry>, cache: map<string, string>, e: WalkEntry, t: Track,
                    created': seq<Track>, imported': seq<WalkEntry>, cache': map<string, string>)
    requires ScanInv(created, imported, cache)
    requires TrackFits(t, e, cache)
    requires created' == created + [t] && imported' == imported + [e] && cache' == CacheAfter(e, cache)
    ensures ScanInv(created', imported', cache')
  {
    AlbumStep(created, imported, cache, e, t);
  }

  /** The walk's invariant survives a track whose insertion fails, though its album entered the cache. */
  lemma StepSkips(created: seq<Track>, imported: seq<WalkEntry>, cache: map<string, string>, e: WalkEntry,
                  cache': map<string, string>)
    requires ScanInv(created, imported, cache)
    requires cache' == CacheAfter(e, cache)
    ensures ScanInv(created, imported, cache')
  {
    CacheGrows(created, imported, e, cache);
  }

  /** The walk's invariant survives one walk step, whether it imports a track, only caches an album, or neither. */
  lemma WalkStep(created: seq<Track>, imported: seq<WalkEntry>, cache: map<string, string>, e: WalkEntry,
                 track: Option<Track>, reaches: bool,
                 created': seq<Track>, imported': seq<WalkEntry>, cache': map<string, string>)
    requires ScanInv(created, imported, cache)
    requires track.Some? ==> TrackFits(track.value, e, cache) && reaches
    requires created' == created + (if track.Some? then [track.value] else [])
    requires imported' == imported + (if track.Some? then [e] else [])
    requires cache' == (if reaches then CacheAfter(e, cache) else cache)
    ensures ScanInv(created', imported', cache')
  {
    if track.Some? {
      StepImports(created, imported, cache, e, track.value, created', imported', cache');
    } else if reaches {
      assert created' == created && imported' == imported;
      StepSkips(created, imported, cache, e, cache');
    } else {
      assert created' == created && imported' == imported;
    }
  }

  /**
   * The whole scan, one database transaction: it first makes sure the
   * `SYSTEM` user exists, then walks over `entries` and prunes the stored
   * paths. `deleteFails` are the paths whose deletion fails. When the
   * `SYSTEM` step fails the transaction returns its error and is rolled
   * back before anything else happens: nothing is counted, created or
   * deleted.
   */
  method Scan(system: SystemUser, existingPaths: seq<string>, entries: seq<WalkEntry>, deleteFails: set<string>)
    returns (result: ScanResult, created: seq<Track>, deleted: seq<string>, systemCreated: bool)
    ensures systemCreated <==> system == SystemMissing(true)
    ensures !SystemReady(system) ==> result == ScanResult(0, 0, 0) && created == [] && deleted == []
    ensures SystemReady(system) ==> var known := set i | 0 <= i < |existingPaths| :: existingPaths[i];
      var imported := ImportedEntries(entries, known);
      result.scannedFiles == |Files(entries)| && result.added == |imported| == |created|
    ensures SystemReady(system) ==> var known := set i | 0 <= i < |existingPaths| :: existingPaths[i];
      var imported := ImportedEntries(entries, known);
      |created| == |imported| && SameAlbumSameId(created, imported)
    ensures SystemReady(system) ==> var known := set i | 0 <= i < |existingPaths| :: existingPaths[i];
      var imported := ImportedEntries(entries, known);
      forall i :: 0 <= i < |created| && i < |imported| ==> Describes(created[i], imported[i])
    ensures SystemReady(system) ==> var found := set p | p in Files(entries);
      deleted == Pruned(existingPaths, found, deleteFails) && result.removed == |deleted|
  {
    systemCreated := system == SystemMissing(true);
    if !SystemReady(system) {
      return ScanResult(0, 0, 0), [], [], false;
    }
    var s := new Scanner(existingPaths);
    s.Walk(entries);
    s.Prune(existingPaths, deleteFails);
    result := ScanResult(s.scannedFiles, s.added, s.removed);
    created := s.created;
    deleted := s.deleted;
  }

  lemma ImportedSnoc(entries: seq<WalkEntry>, i: int, known: set<string>)
    requires 0 <= i < |entries|
    ensures ImportedEntries(entries[..i + 1], known)
      == ImportedEntries(entries[..i], known) + (if Imports(entries[i], known) then [entries[i]] else [])
  {
    assert entries[..i + 1][..i] == entries[..i];
  }

  lemma FilesSnoc(entries: seq<WalkEntry>, i: int)
    requires 0 <= i < |entries|
    ensures Files(entries[..i + 1]) == Files(entries[..i]) + (if IsFile(entries[i]) then [entries[i].path] else [])
  {
    assert entries[..i + 1][..i] == entries[..i];
  }

  /** When no delete fails, the pruning deletes exactly the stored paths of which the walk found no file. */
  lemma PrunedIffUnseen(existingPaths: seq<string>, entries: seq<WalkEntry>, p: string)
    ensures var found := set q | q in Files(entries);
      p in Pruned(existingPaths, found, {}) <==>
        p in existingPaths && !exists i :: 0 <= i < |entries| && IsFile(entries[i]) && entries[i].path == p
  {
    FilesMembership(entries, p);
    PrunedMembership(existingPaths, set q | q in Files(entries), {}, p);
  }

  /** A file is imported only when it is an audio file whose path no stored track has. */
  lemma ImportedAreNewAudio(entries: seq<WalkEntry>, known: set<string>, e: WalkEntry)
    requires e in ImportedEntries(entries, known)
    ensures IsSupportedFileType(e.path) && e.path !in known && !e.isDir
  {
    ImportedMembership(entries, known, e);
  }
  /**
   * A track built for a file whose tags cannot be read: titled after its file
   * name, credited to the unknown artist, in no album, of genre "Unknown".
   */
  lemma UntaggedTrackFits(t: Track, e: WalkEntry, cache: map<string, string>)
    requires e.meta.None?
    ensures TrackFits(t, e, cache) <==>
      t == Track(e.path, DefaultTitle(e.path), UnknownArtist, UnknownArtist, "", MusicMeta.Unknown, Suffix(e.path))
  {
    assert KeyOf(e).None? && AlbumIdFor(e, cache) == "";
    assert GenreTag(e.meta) == "" && AlbumTag(e.meta) == "";
    UntaggedGenres(e.albumGenre);
    var names := NewTrackNames(e.path, e.meta);
    assert names == TrackNames(DefaultTitle(e.path), UnknownArtist, UnknownArtist);
  }

  /** Without tags there is no genre, no album and no album name, so the genre is "Unknown". */
  lemma UntaggedGenres(albumGenre: Option<string>)
    ensures MusicMeta.AllowedGenres("", "", albumGenre, "") == {MusicMeta.Unknown}
  {
    MusicMeta.NamelessAlbumMatchesNothing();
  }

  /**
   * A new audio file `dir/stem.e` that opens and probes but has no readable
   * tags: as written the scan reaches `meta.Genre()` on the nil reader and
   * panics; with the tag reads guarded it is imported, titled `stem`, by the
   * unknown artist, of genre "Unknown".
   */
  lemma {:induction false} UntaggedFileCrashesScan(e: WalkEntry, t: Track, known: set<string>,
                                                   dir: string, stem: string, ext: string)
    requires '/' !in stem && ext != "" && forall i :: 0 <= i < |ext| ==> ext[i] != '.' && ext[i] != '/'
    requires e.path == dir + "/" + stem + "." + ext && e.path !in known && IsSupportedFileType(e.path)
    requires !e.isDir && !e.accessError && e.probed && e.meta.None? && e.createOk
    requires TrackFits(t, e, map[])
    ensures Reaches(e, known) && GenreArgAsWritten(e.meta) == Err(NilDereference)
    ensures Imports(e, known) && t.title == stem && t.artist == UnknownArtist && t.genre == MusicMeta.Unknown
  {
    DefaultTitleIsStem(dir, stem, ext);
    UntaggedTrackFits(t, e, map[]);
  }

  /** `music/x.MP3`, a file of the kind above: an audio file with a plain stem and extension. */
  lemma ExampleUntaggedFile()
    ensures IsSupportedFileType("music" + "/" + "x" + "." + "MP3")
    ensures '/' !in "x" && forall i :: 0 <= i < |"MP3"| ==> "MP3"[i] != '.' && "MP3"[i] != '/'
  {
    UpperCaseAudioSupported("music" + "/" + "x", "MP3");
  }
}
