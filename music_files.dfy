/**
 * The file rules of the music handler: which files the scanner imports, which
 * are images, where a track's lyrics file lives, how an embedded cover is
 * named, where a directory's cover is looked for, the per-directory cover
 * cache, and the defaults a newly scanned track receives.
 */
module MusicFiles {
  import opened Wrappers
  import opened Text
  import GoPath

  const SupportedExts := [".mp3", ".m4a", ".flac", ".ogg", ".wav"]
  const ImageExts := [".jpg", ".jpeg", ".png", ".gif", ".bmp", ".webp"]

  /** The early-return search over a list of extensions both filters use. */
  function Member(x: string, xs: seq<string>): (b: bool)
    ensures b <==> x in xs
  {
    if xs == [] then false
    else if xs[0] == x then true
    else
      assert x in xs <==> x in xs[1..] by {
        assert xs == [xs[0]] + xs[1..];
      }
      Member(x, xs[1..])
  }

  /** `isImageFile`: the extension is one of the image extensions, compared as given. */
  function IsImageFile(ext: string): (b: bool)
    ensures b <==> ext in ImageExts
  {
    Member(ext, ImageExts)
  }

  /** The image test does not fold case: callers lower-case the extension first. */
  lemma ImageTestIsCaseSensitive()
    ensures IsImageFile(".png") && !IsImageFile(".PNG")
  {
    assert ".PNG" != ".png" && ".PNG" != ".jpg" && ".PNG" != ".jpeg";
  }

  /** `isSupportedFileType`: the lower-cased extension of the path is an audio extension. */
  function IsSupportedFileType(path: string): (b: bool)
    ensures b <==> GoLower(GoPath.Ext(path)) in SupportedExts
  {
    Member(GoLower(GoPath.Ext(path)), SupportedExts)
  }

  /** A path ending in `.e`, with `e` free of dots and slashes, is imported exactly when `.e` lower-cased is an audio extension. */
  lemma SupportedBySuffix(front: string, e: string)
    requires forall i :: 0 <= i < |e| ==> e[i] != '.' && e[i] != '/'
    ensures IsSupportedFileType(front + "." + e) <==> GoLower("." + e) in SupportedExts
  {
    GoPath.ExtOfSuffix(front, e);
  }

  lemma Mp3IsAudio(e: string)
    requires e == "MP3"
    ensures GoLower("." + e) in SupportedExts
  {
    assert "." + e == ".MP3";
    assert GoLower(".MP3") == ".mp3";
  }

  lemma TxtIsNotAudio(e: string)
    requires e == "txt"
    ensures GoLower("." + e) !in SupportedExts
  {
    assert "." + e == ".txt";
    assert GoLower(".txt") == ".txt";
  }

  /** Upper-case audio extensions are imported. */
  lemma UpperCaseAudioSupported(front: string, e: string)
    requires e == "MP3"
    ensures IsSupportedFileType(front + "." + e)
  {
    SupportedBySuffix(front, e);
    Mp3IsAudio(e);
  }

  /** A text file is not imported. */
  lemma TextFileNotSupported(front: string, e: string)
    requires e == "txt"
    ensures !IsSupportedFileType(front + "." + e)
  {
    SupportedBySuffix(front, e);
    TxtIsNotAudio(e);
  }

  /** The path without its extension. */
  function Stem(p: string): (s: string)
    ensures s + GoPath.Ext(p) == p
  {
    GoPath.ExtSplits(p);
    TrimSuffix(p, GoPath.Ext(p))
  }

  /** The lyrics file of a track: its path with the extension replaced by `.lrc`. */
  function LyricsPath(p: string): (r: string)
    ensures r == Stem(p) + ".lrc"
  {
    TrimSuffix(p, GoPath.Ext(p)) + ".lrc"
  }

  /** The lyrics path has extension `.lrc`, and a lyrics file is its own lyrics path. */
  lemma LyricsPathProperties(p: string)
    ensures GoPath.Ext(LyricsPath(p)) == ".lrc"
    ensures LyricsPath(LyricsPath(p)) == LyricsPath(p)
  {
    var s := Stem(p);
    var e := "lrc";
    assert "." + e == ".lrc";
    GoPath.ExtOfSuffix(s, e);
    LyricsOfSuffix(s, e);
    assert s + "." + e == LyricsPath(p);
  }

  /** The last occurrence of `c` is unchanged by appending text free of `c`. */
  lemma LastIndexOfAppend(s: string, t: string, c: char)
    requires c !in t
    ensures LastIndexOf(s + t, c) == LastIndexOf(s, c)
  {
    var u := s + t;
    var k1 := LastIndexOf(u, c);
    var k2 := LastIndexOf(s, c);
    if k2 >= 0 {
      assert u[k2] == c;
    }
    if 0 <= k1 < |s| {
      assert s[k1] == c;
    }
  }

  /** The lyrics file lies in the track's own directory. */
  lemma LyricsBesideTrack(p: string)
    ensures GoPath.Dir(LyricsPath(p)) == GoPath.Dir(p)
  {
    ExtHasNoSlash(p);
    LrcHasNoSlash(".lrc");
    SameDirAfterSuffix(Stem(p), GoPath.Ext(p), ".lrc");
  }

  lemma ExtHasNoSlash(p: string)
    ensures '/' !in GoPath.Ext(p)
  {
  }

  lemma LrcHasNoSlash(e: string)
    requires e == ".lrc"
    ensures '/' !in e
  {
  }

  /** Appending either of two slash-free suffixes to `s` leaves the directory unchanged. */
  lemma SameDirAfterSuffix(s: string, e1: string, e2: string)
    requires '/' !in e1 && '/' !in e2
    ensures GoPath.Dir(s + e1) == GoPath.Dir(s + e2)
  {
    LastIndexOfAppend(s, e1, '/');
    LastIndexOfAppend(s, e2, '/');
    var k := LastIndexOf(s, '/');
    assert (s + e1)[..k + 1] == s[..k + 1] == (s + e2)[..k + 1];
  }

  /**
   * Tracks that differ only in their extension (`front.e1`, `front.e2`, such as
   * `a.mp3` and `a.flac`) share the lyrics file `front.lrc`.
   */
  lemma SharedLyricsFile(front: string, e1: string, e2: string)
    requires forall i :: 0 <= i < |e1| ==> e1[i] != '.' && e1[i] != '/'
    requires forall i :: 0 <= i < |e2| ==> e2[i] != '.' && e2[i] != '/'
    ensures LyricsPath(front + "." + e1) == LyricsPath(front + "." + e2) == front + ".lrc"
  {
    LyricsOfSuffix(front, e1);
    LyricsOfSuffix(front, e2);
  }

  /** The lyrics path of `front.e`, with `e` free of dots and slashes, is `front.lrc`. */
  lemma LyricsOfSuffix(front: string, e: string)
    requires forall i :: 0 <= i < |e| ==> e[i] != '.' && e[i] != '/'
    ensures LyricsPath(front + "." + e) == front + ".lrc"
  {
    GoPath.ExtOfSuffix(front, e);
    assert Stem(front + "." + e) + ("." + e) == front + "." + e;
  }

  /** The extension an embedded cover is saved with: a dot is added when missing, and nothing means JPEG. */
  function CoverExt(ext: string): (r: string)
    ensures r != "" && r[0] == '.'
    ensures ext == "" ==> r == ".jpg"
    ensures StartsWith(ext, ".") ==> r == ext
    ensures ext != "" && !StartsWith(ext, ".") ==> r == "." + ext
  {
    var e := if ext != "" && !StartsWith(ext, ".") then "." + ext else ext;
    if e == "" then ".jpg" else e
  }

  /** Normalising an already normalised extension changes nothing. */
  lemma CoverExtIdempotent(ext: string)
    ensures CoverExt(CoverExt(ext)) == CoverExt(ext)
  {
  }

  const CoversDirName := ".covers"

  /**
   * `saveCoverImage`. `digestHex` is the hexadecimal MD5 of the image data;
   * `mkdirOk`, `stored` (a file of that name already exists) and `writeOk` are
   * the outcomes of the file-system calls. "" means no cover.
   */
  function SaveCoverImage(imageData: seq<bv8>, ext: string, musicFolder: string, digestHex: string,
                          mkdirOk: bool, stored: bool, writeOk: bool): (r: string)
    ensures imageData == [] || !mkdirOk ==> r == ""
    ensures imageData != [] && mkdirOk && (stored || writeOk) ==>
      r == GoPath.Join2(GoPath.Join2(musicFolder, CoversDirName), digestHex + CoverExt(ext))
    ensures imageData != [] && mkdirOk && !stored && !writeOk ==> r == ""
  {
    if |imageData| == 0 then ""
    else
      var coversDir := GoPath.Join2(musicFolder, CoversDirName);
      if !mkdirOk then ""
      else
        var coverPath := GoPath.Join2(coversDir, digestHex + CoverExt(ext));
        if stored then coverPath
        else if !writeOk then ""
        else coverPath
  }

  /** The cover file names tried first, in order; each is also tried upper-cased. */
  const CoverNames := ["cover.jpg", "cover.jpeg", "cover.png",
                       "folder.jpg", "folder.jpeg", "folder.png",
                       "album.jpg", "album.jpeg", "album.png",
                       "front.jpg", "front.jpeg", "front.png"]

  /** One cover name in `dir`: the name as given when it exists, else its upper-cased form when that exists. */
  function Candidate(dir: string, name: string, existing: set<string>): (r: Option<string>)
    ensures r.Some? ==> r.value in existing
  {
    var plain := GoPath.Join2(dir, name);
    var upper := GoPath.Join2(dir, GoUpper(name));
    if plain in existing then Some(plain)
    else if upper in existing then Some(upper)
    else None
  }

  /** Name `i` is the first whose candidate exists, and `r` is that candidate. */
  predicate FoundAt(dir: string, names: seq<string>, existing: set<string>, i: int, r: Option<string>) {
    0 <= i < |names| && Candidate(dir, names[i], existing) == r &&
    forall j :: 0 <= j < i ==> Candidate(dir, names[j], existing).None?
  }

  /** A name found in the rest of the list is found in the whole list when the head has no candidate. */
  lemma FoundAfterHead(dir: string, names: seq<string>, existing: set<string>, i: int, r: Option<string>)
    requires names != [] && Candidate(dir, names[0], existing).None?
    requires FoundAt(dir, names[1..], existing, i, r)
    ensures FoundAt(dir, names, existing, i + 1, r)
  {
    assert forall j :: 0 < j <= i ==> names[j] == names[1..][j - 1];
  }

  /** The first of the names (each as given, then upper-cased) that exists in `dir`. */
  function FirstExisting(dir: string, names: seq<string>, existing: set<string>): (r: Option<string>)
    ensures r.Some? ==> r.value in existing
    ensures r.Some? ==> exists i :: FoundAt(dir, names, existing, i, r)
    ensures r.None? ==> forall i :: 0 <= i < |names| ==> Candidate(dir, names[i], existing).None?
  {
    if names == [] then None
    else
      var head := Candidate(dir, names[0], existing);
      if head.Some? then
        assert FoundAt(dir, names, existing, 0, head);
        head
      else
        var tail := names[1..];
        var r := FirstExisting(dir, tail, existing);
        assert r.Some? ==> exists i :: FoundAt(dir, names, existing, i, r) by {
          if r.Some? {
            var i :| FoundAt(dir, tail, existing, i, r);
            FoundAfterHead(dir, names, existing, i, r);
          }
        }
        assert forall i :: 1 <= i < |names| ==> names[i] == tail[i - 1];
        r
  }

  datatype DirEntry = DirEntry(name: string, isDir: bool)

  predicate IsImageEntry(e: DirEntry) {
    !e.isDir && IsImageFile(GoLower(GoPath.Ext(e.name)))
  }

  /** Entry `i` is the first image entry, and `path` is it joined to `dir`. */
  predicate ImageAt(dir: string, entries: seq<DirEntry>, i: int, path: string) {
    0 <= i < |entries| && IsImageEntry(entries[i]) && path == GoPath.Join2(dir, entries[i].name) &&
    forall j :: 0 <= j < i ==> !IsImageEntry(entries[j])
  }

  /** An image found in the rest of the entries is the first of all of them when the head is no image. */
  lemma ImageAfterHead(dir: string, entries: seq<DirEntry>, i: int, path: string)
    requires entries != [] && !IsImageEntry(entries[0])
    requires ImageAt(dir, entries[1..], i, path)
    ensures ImageAt(dir, entries, i + 1, path)
  {
    assert forall j :: 0 < j <= i ==> entries[j] == entries[1..][j - 1];
  }

  /** The first entry that is an image file by its lower-cased extension, joined to `dir`. */
  function FirstImage(dir: string, entries: seq<DirEntry>): (r: Option<string>)
    ensures r.Some? ==> exists i :: ImageAt(dir, entries, i, r.value)
    ensures r.None? ==> forall i :: 0 <= i < |entries| ==> !IsImageEntry(entries[i])
  {
    if entries == [] then None
    else if IsImageEntry(entries[0]) then
      assert ImageAt(dir, entries, 0, GoPath.Join2(dir, entries[0].name));
      Some(GoPath.Join2(dir, entries[0].name))
    else
      var r := FirstImage(dir, entries[1..]);
      assert r.Some? ==> exists i :: ImageAt(dir, entries, i, r.value) by {
        if r.Some? {
          var i :| ImageAt(dir, entries[1..], i, r.value);
          ImageAfterHead(dir, entries, i, r.value);
        }
      }
      assert forall i :: 1 <= i < |entries| ==> entries[i] == entries[1..][i - 1];
      r
  }


  /**
   * `findCoverImageInDirectory`. `existing` is the set of paths `os.Stat` finds;
   * `entries` is the directory listing, or None when it cannot be read.
   */
  function FindCoverImage(dir: string, existing: set<string>, entries: Option<seq<DirEntry>>): (r: string)
    ensures FirstExisting(dir, CoverNames, existing).Some? ==> r == FirstExisting(dir, CoverNames, existing).value
    ensures FirstExisting(dir, CoverNames, existing).None? && entries.Some? && FirstImage(dir, entries.value).Some? ==>
      r == FirstImage(dir, entries.value).value
    ensures FirstExisting(dir, CoverNames, existing).None? && (entries.None? || FirstImage(dir, entries.value).None?) ==>
      r == ""
  {
    match FirstExisting(dir, CoverNames, existing)
    case Some(p) => p
    case None =>
      if entries.None? then ""
      else match FirstImage(dir, entries.value)
        case Some(p) => p
        case None => ""
  }

  /** A `cover.jpg` in the directory wins over every other candidate. */
  lemma CoverJpgFirst(dir: string, existing: set<string>, entries: Option<seq<DirEntry>>)
    requires GoPath.Join2(dir, "cover.jpg") in existing
    ensures FindCoverImage(dir, existing, entries) == GoPath.Join2(dir, "cover.jpg")
  {
  }

  /**
   * The per-directory cover cache of one scan (`extractAlbumCover`). Only
   * found covers are cached, so a directory without one is searched again.
   */
  class CoverCache {
    var entries: map<string, string>

    predicate Valid()
      reads this
    {
      forall d :: d in entries ==> entries[d] != ""
    }

    constructor ()
      ensures entries == map[] && Valid()
    {
      entries := map[];
    }

    /**
     * The cover of the directory holding `musicPath`: the cached one when there
     * is one; otherwise `embedded` (what saving the file's own picture gave,
     * "" when it has none) or else `inDirectory` (what the directory search
     * gave), cached when not empty.
     */
    method Extract(musicPath: string, embedded: string, inDirectory: string) returns (cover: string)
      requires Valid()
      modifies this
      ensures Valid()
      ensures var dir := GoPath.Dir(musicPath);
        dir in old(entries) ==> cover == old(entries)[dir] && entries == old(entries)
      ensures var dir := GoPath.Dir(musicPath);
        dir !in old(entries) ==> cover == (if embedded != "" then embedded else inDirectory)
      ensures var dir := GoPath.Dir(musicPath);
        dir !in old(entries) ==> entries == (if cover != "" then old(entries)[dir := cover] else old(entries))
      ensures cover != "" ==> GoPath.Dir(musicPath) in entries && entries[GoPath.Dir(musicPath)] == cover
    {
      var dir := GoPath.Dir(musicPath);
      if dir in entries {
        return entries[dir];
      }
      if embedded != "" {
        entries := entries[dir := embedded];
        return embedded;
      }
      cover := inDirectory;
      if cover != "" {
        entries := entries[dir := cover];
      }
    }
  }

  /** Once a directory's cover is found, every later track of that directory gets the same cover. */
  method ExtractTwice(cache: CoverCache, p1: string, p2: string,
                      embedded1: string, inDirectory1: string, embedded2: string, inDirectory2: string)
    returns (c1: string, c2: string)
    requires cache.Valid() && GoPath.Dir(p1) == GoPath.Dir(p2)
    modifies cache
    ensures c1 != "" ==> c2 == c1
  {
    c1 := cache.Extract(p1, embedded1, inDirectory1);
    c2 := cache.Extract(p2, embedded2, inDirectory2);
  }

  /** The tag values the scanner reads; an absent tag reads as "". */
  datatype Meta = Meta(title: string, artist: string, albumArtist: string, album: string, genre: string)

  const UnknownArtist := "未知艺术家"

  /**
   * The title of a track without a title tag: its file name without the
   * extension, so never a directory name with a separator in it.
   */
  function DefaultTitle(path: string): (r: string)
    ensures r == "/" || '/' !in r
  {
    TrimSuffix(GoPath.Base(path), GoPath.Ext(path))
  }

  /** The last slash of `dir + "/" + w`, for `w` free of slashes, is the one after `dir`. */
  lemma LastSlashBeforeName(dir: string, w: string)
    requires '/' !in w
    ensures LastIndexOf(dir + "/" + w, '/') == |dir|
  {
    LastIndexOfAppend(dir + "/", w, '/');
    assert LastIndexOf(dir + "/", '/') == |dir|;
  }

  /** The base name of `dir + "/" + name`, for a name free of slashes, is the name. */
  lemma BaseOfName(dir: string, name: string)
    requires '/' !in name && name != ""
    ensures GoPath.Base(dir + "/" + name) == name
  {
    var p := dir + "/" + name;
    assert p[|p| - 1] == name[|name| - 1];
    assert GoPath.StripTrailingSlashes(p) == p;
    LastSlashBeforeName(dir, name);
    assert p[|dir| + 1..] == name;
  }

  lemma TrimOwnSuffix(stem: string, suffix: string)
    ensures TrimSuffix(stem + suffix, suffix) == stem
  {
    assert (stem + suffix)[|stem|..] == suffix;
  }

  /** A file `stem.e` in a directory gets `stem` as its default title. */
  lemma DefaultTitleIsStem(dir: string, stem: string, e: string)
    requires '/' !in stem && e != ""
    requires forall i :: 0 <= i < |e| ==> e[i] != '.' && e[i] != '/'
    ensures DefaultTitle(dir + "/" + stem + "." + e) == stem
  {
    NoSlashInExtension(e);
    BaseOfFile(dir, stem, e);
    ExtOfFile(dir, stem, e);
    Regroup(stem, e);
    StemFromParts(dir + "/" + stem + "." + e, stem, stem + "." + e, "." + e);
  }

  lemma Regroup(stem: string, e: string)
    ensures stem + "." + e == stem + ("." + e)
  {
  }

  /** A path whose base name is `stem` followed by its extension has `stem` as its default title. */
  lemma StemFromParts(p: string, stem: string, name: string, ext: string)
    requires GoPath.Base(p) == name && GoPath.Ext(p) == ext && name == stem + ext
    ensures DefaultTitle(p) == stem
  {
    TitleOf(p, name, ext);
    TrimOwnSuffix(stem, ext);
  }

  lemma BaseOfFile(dir: string, stem: string, e: string)
    requires '/' !in stem && '/' !in e
    ensures GoPath.Base(dir + "/" + stem + "." + e) == stem + "." + e
  {
    NoSlashInName(stem, e);
    assert dir + "/" + stem + "." + e == dir + "/" + (stem + "." + e);
    BaseOfName(dir, stem + "." + e);
  }

  lemma ExtOfFile(dir: string, stem: string, e: string)
    requires forall i :: 0 <= i < |e| ==> e[i] != '.' && e[i] != '/'
    ensures GoPath.Ext(dir + "/" + stem + "." + e) == "." + e
  {
    GoPath.ExtOfSuffix(dir + "/" + stem, e);
  }

  lemma NoSlashInExtension(e: string)
    requires forall i :: 0 <= i < |e| ==> e[i] != '.' && e[i] != '/'
    ensures '/' !in e
  {
  }

  lemma NoSlashInName(stem: string, e: string)
    requires '/' !in stem && '/' !in e
    ensures '/' !in stem + "." + e
  {
  }

  lemma TitleOf(p: string, name: string, ext: string)
    requires GoPath.Base(p) == name && GoPath.Ext(p) == ext
    ensures DefaultTitle(p) == TrimSuffix(name, ext)
  {
  }

  /** The names a new track is stored with. */
  datatype TrackNames = TrackNames(title: string, artist: string, albumArtist: string)

  /**
   * The defaults of a new track: no title tag means the file name without its
   * extension, no artist means the unknown artist, and no album artist means
   * the artist.
   */
  function NewTrackNames(path: string, meta: Option<Meta>): (t: TrackNames)
    ensures meta.Some? && meta.value.title != "" ==> t.title == meta.value.title
    ensures meta.None? || meta.value.title == "" ==> t.title == DefaultTitle(path)
    ensures meta.Some? && meta.value.artist != "" ==> t.artist == meta.value.artist
    ensures meta.None? || meta.value.artist == "" ==> t.artist == UnknownArtist
    ensures meta.Some? && meta.value.albumArtist != "" ==> t.albumArtist == meta.value.albumArtist
    ensures meta.None? || meta.value.albumArtist == "" ==> t.albumArtist == t.artist
    ensures t.artist != "" && t.albumArtist != ""
  {
    var title := if meta.Some? then meta.value.title else "";
    var artist := if meta.Some? then meta.value.artist else "";
    var albumArtist := if meta.Some? then meta.value.albumArtist else "";
    var title' := if title == "" then DefaultTitle(path) else title;
    var artist' := if artist == "" then UnknownArtist else artist;
    TrackNames(title', artist', if albumArtist == "" then artist' else albumArtist)
  }

  /** An untagged file is named after its file name and credited to the unknown artist on both artist fields. */
  lemma UntaggedTrackNames(dir: string, stem: string, e: string)
    requires '/' !in stem && e != ""
    requires forall i :: 0 <= i < |e| ==> e[i] != '.' && e[i] != '/'
    ensures NewTrackNames(dir + "/" + stem + "." + e, None) == TrackNames(stem, UnknownArtist, UnknownArtist)
  {
    DefaultTitleIsStem(dir, stem, e);
  }

  /** The artist an album is filed under: album artist, else artist, else the unknown artist. */
  function AlbumArtistName(meta: Meta): (a: string)
    ensures a != ""
    ensures meta.albumArtist != "" ==> a == meta.albumArtist
    ensures meta.albumArtist == "" && meta.artist != "" ==> a == meta.artist
    ensures meta.albumArtist == "" && meta.artist == "" ==> a == UnknownArtist
  {
    if meta.albumArtist != "" then meta.albumArtist
    else if meta.artist != "" then meta.artist
    else UnknownArtist
  }

  /** The key of the scan's album cache: `album::artist`, the album name first. */
  function AlbumKey(albumName: string, artistName: string): (k: string)
    ensures |k| == |albumName| + 2 + |artistName|
    ensures k[..|albumName|] == albumName && k[|albumName|..|albumName| + 2] == "::"
    ensures k[|albumName| + 2..] == artistName
  {
    albumName + "::" + artistName
  }

  /** For album names without a colon the key determines album and artist. */
  lemma AlbumKeyInjective(a1: string, r1: string, a2: string, r2: string)
    requires ':' !in a1 && ':' !in a2
    requires AlbumKey(a1, r1) == AlbumKey(a2, r2)
    ensures a1 == a2 && r1 == r2
  {
    var k := AlbumKey(a1, r1);
    assert k[|a1|] == ':' && k[|a2|] == ':';
    assert ':' !in k[..|a1|] && ':' !in k[..|a2|] by {
      assert k[..|a1|] == a1;
      assert k[..|a2|] == a2;
    }
    assert a1 == k[..|a1|] == a2;
    assert r1 == k[|a1| + 2..] == r2;
  }

  /** With "::" inside names, different albums share a key. */
  lemma AlbumKeyCollision()
    ensures AlbumKey("a::b", "c") == AlbumKey("a", "b::c")
  {
  }

  /** The `suffix` column: the lower-cased extension without its dot. */
  function Suffix(path: string): (s: string)
    ensures GoPath.Ext(path) != "" ==> "." + s == GoLower(GoPath.Ext(path))
    ensures GoPath.Ext(path) == "" ==> s == ""
  {
    var e := GoLower(GoPath.Ext(path));
    if StartsWith(e, ".") then e[1..] else e
  }
}
