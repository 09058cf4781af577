/**
 * Saving lyrics and translated lyrics next to a track: the files go to a
 * `lyrics` sub-directory of the track's directory, named after the track with
 * the extension replaced by `.lrc` or `.zh.lrc`. The file system is a set of
 * directories and a map from file path to content; whether creating the
 * directory and writing the file succeed are parameters.
 */
module FileUtil {
  import opened Wrappers
  import opened Text
  import opened GoPath

  const LyricsSuffix := ".lrc"
  const TranslationSuffix := ".zh.lrc"

  const LyricsDirFailed := "创建歌词目录失败"
  const LyricsWriteFailed := "保存歌词文件失败"
  const TranslationDirFailed := "创建翻译歌词目录失败"
  const TranslationWriteFailed := "保存翻译歌词文件失败"

  /**
   * `filepath.Join(filepath.Dir(musicPath), "lyrics")`: never empty, and rooted
   * exactly when the track's directory is.
   */
  function LyricsDir(musicPath: string): (r: string)
    ensures r != "" && (r[0] == '/' <==> Dir(musicPath)[0] == '/')
  {
    Join2(Dir(musicPath), "lyrics")
  }

  /**
   * The track's file name with its extension replaced by `suffix`: the name ends
   * in `suffix`, and what comes before it, followed by the track's extension,
   * is the track's file name.
   */
  function SiblingName(musicPath: string, suffix: string): (name: string)
    ensures EndsWith(name, suffix)
    ensures name[..|name| - |suffix|] + Ext(Base(musicPath)) == Base(musicPath)
  {
    var file := Base(musicPath);
    var name := TrimSuffix(file, Ext(file)) + suffix;
    assert name[|name| - |suffix|..] == suffix;
    assert name[..|name| - |suffix|] == TrimSuffix(file, Ext(file));
    assert EndsWith(file, Ext(file)) by {
      if Ext(file) == "" { assert file[|file|..] == ""; }
    }
    name
  }

  /** Where the file is written: inside the lyrics directory, so rooted exactly when the track's directory is. */
  function AbsolutePath(musicPath: string, suffix: string): (r: string)
    ensures r != "" && (r[0] == '/' <==> Dir(musicPath)[0] == '/')
  {
    Join2(LyricsDir(musicPath), SiblingName(musicPath, suffix))
  }

  /**
   * The path returned: the track directory's own name, `lyrics`, the file name;
   * rooted only for a track that sits in the root directory itself.
   */
  function RelativePath(musicPath: string, suffix: string): (r: string)
    ensures r != "" && (r[0] == '/' <==> Base(Dir(musicPath)) == "/")
  {
    var top := Base(Dir(musicPath));
    var joined := top + "/" + "lyrics" + "/" + SiblingName(musicPath, suffix);
    assert joined[0] == top[0];
    assert top[0] == '/' <==> top == "/" by {
      if top[0] == '/' { assert '/' in top; }
    }
    assert Join3(top, "lyrics", SiblingName(musicPath, suffix)) == Clean(joined);
    Join3(top, "lyrics", SiblingName(musicPath, suffix))
  }

  /** A lyrics file and a translation file of the same track never share a name. */
  lemma LyricsAndTranslationNamesDiffer(musicPath: string)
    ensures SiblingName(musicPath, LyricsSuffix) != SiblingName(musicPath, TranslationSuffix)
  {
    var stem := TrimSuffix(Base(musicPath), Ext(Base(musicPath)));
    assert |stem + LyricsSuffix| == |stem| + 4;
    assert |stem + TranslationSuffix| == |stem| + 7;
  }

  /** Any text followed by `mid + "." + e` has extension `"." + e` when `e` has no dot or slash. */
  lemma ExtAfterStem(stem: string, mid: string, e: string)
    requires forall i :: 0 <= i < |e| ==> e[i] != '.' && e[i] != '/'
    ensures Ext(stem + (mid + "." + e)) == "." + e
  {
    var front := stem + mid;
    assert stem + (mid + "." + e) == front + "." + e;
    ExtOfSuffix(front, e);
  }

  /** A name made with the suffix `mid + "." + e` has extension `"." + e`. */
  lemma SiblingExt(musicPath: string, mid: string, e: string)
    requires forall i :: 0 <= i < |e| ==> e[i] != '.' && e[i] != '/'
    ensures Ext(SiblingName(musicPath, mid + "." + e)) == "." + e
  {
    ExtAfterStem(TrimSuffix(Base(musicPath), Ext(Base(musicPath))), mid, e);
  }

  /** Both the lyrics file and the translation file carry the extension `.lrc`. */
  lemma SiblingNamesAreLrc(musicPath: string)
    ensures Ext(SiblingName(musicPath, LyricsSuffix)) == LyricsSuffix
    ensures Ext(SiblingName(musicPath, TranslationSuffix)) == LyricsSuffix
  {
    var e := "lrc";
    assert LyricsSuffix == "" + "." + e;
    assert TranslationSuffix == ".zh" + "." + e;
    SiblingExt(musicPath, "", e);
    SiblingExt(musicPath, ".zh", e);
  }

  class Disk {
    var dirs: set<string>
    var files: map<string, string>

    constructor (dirs: set<string>, files: map<string, string>)
      ensures this.dirs == dirs && this.files == files
    {
      this.dirs := dirs;
      this.files := files;
    }

    /**
     * The shared steps of both savers: nothing for empty content; otherwise
     * create the directory, write the file and return its relative path, or
     * the error of the step that failed and an empty path.
     */
    method SaveBeside(musicPath: string, content: string, suffix: string, dirFailed: string, writeFailed: string,
                      mkdirOk: bool, writeOk: bool)
      returns (rel: string, err: Option<string>)
      modifies this
      ensures content == "" ==> rel == "" && err == None && dirs == old(dirs) && files == old(files)
      ensures content != "" && !mkdirOk ==> rel == "" && err == Some(dirFailed) && dirs == old(dirs) && files == old(files)
      ensures content != "" && mkdirOk ==> dirs == old(dirs) + {LyricsDir(musicPath)}
      ensures content != "" && mkdirOk && !writeOk ==> rel == "" && err == Some(writeFailed) && files == old(files)
      ensures content != "" && mkdirOk && writeOk ==>
        err == None && rel == RelativePath(musicPath, suffix) &&
        files == old(files)[AbsolutePath(musicPath, suffix) := content]
    {
      if content == "" {
        return "", None;
      }
      var lyricsDir := LyricsDir(musicPath);
      var made := MkdirAll(lyricsDir, mkdirOk);
      if !made {
        return "", Some(dirFailed);
      }
      var path := AbsolutePath(musicPath, suffix);
      var written := WriteFile(path, content, writeOk);
      if !written {
        return "", Some(writeFailed);
      }
      rel, err := RelativePath(musicPath, suffix), None;
    }

    /** `os.MkdirAll`: the directory exists afterwards unless the call fails. */
    method MkdirAll(dir: string, ok: bool) returns (made: bool)
      modifies this
      ensures made == ok
      ensures dirs == if ok then old(dirs) + {dir} else old(dirs)
      ensures files == old(files)
    {
      if ok {
        dirs := dirs + {dir};
      }
      made := ok;
    }

    /** `os.WriteFile`: the file holds the content afterwards unless the call fails. */
    method WriteFile(path: string, content: string, ok: bool) returns (written: bool)
      modifies this
      ensures written == ok
      ensures files == if ok then old(files)[path := content] else old(files)
      ensures dirs == old(dirs)
    {
      if ok {
        files := files[path := content];
      }
      written := ok;
    }

    /** `SaveLyricsToFile`. */
    method SaveLyricsToFile(musicPath: string, lyrics: string, mkdirOk: bool, writeOk: bool)
      returns (rel: string, err: Option<string>)
      modifies this
      ensures lyrics == "" ==> rel == "" && err == None && dirs == old(dirs) && files == old(files)
      ensures lyrics != "" && !mkdirOk ==>
        rel == "" && err == Some(LyricsDirFailed) && dirs == old(dirs) && files == old(files)
      ensures lyrics != "" && mkdirOk && !writeOk ==>
        rel == "" && err == Some(LyricsWriteFailed) && dirs == old(dirs) + {LyricsDir(musicPath)} && files == old(files)
      ensures lyrics != "" && mkdirOk && writeOk ==>
        err == None && rel == RelativePath(musicPath, LyricsSuffix) &&
        dirs == old(dirs) + {LyricsDir(musicPath)} &&
        files == old(files)[AbsolutePath(musicPath, LyricsSuffix) := lyrics]
    {
      rel, err := SaveBeside(musicPath, lyrics, LyricsSuffix, LyricsDirFailed, LyricsWriteFailed, mkdirOk, writeOk);
    }

    /** `SaveTranslationLyricsToFile`. */
    method SaveTranslationLyricsToFile(musicPath: string, translation: string, mkdirOk: bool, writeOk: bool)
      returns (rel: string, err: Option<string>)
      modifies this
      ensures translation == "" ==> rel == "" && err == None && dirs == old(dirs) && files == old(files)
      ensures translation != "" && !mkdirOk ==>
        rel == "" && err == Some(TranslationDirFailed) && dirs == old(dirs) && files == old(files)
      ensures translation != "" && mkdirOk && !writeOk ==>
        rel == "" && err == Some(TranslationWriteFailed) && dirs == old(dirs) + {LyricsDir(musicPath)} &&
        files == old(files)
      ensures translation != "" && mkdirOk && writeOk ==>
        err == None && rel == RelativePath(musicPath, TranslationSuffix) &&
        dirs == old(dirs) + {LyricsDir(musicPath)} &&
        files == old(files)[AbsolutePath(musicPath, TranslationSuffix) := translation]
    {
      rel, err := SaveBeside(musicPath, translation, TranslationSuffix, TranslationDirFailed, TranslationWriteFailed,
                             mkdirOk, writeOk);
    }
  }
}
