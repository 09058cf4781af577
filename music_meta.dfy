/**
 * Metadata choices of the music handler: the genre a scanned track is given
 * when its tags carry none, and the lyrics the lrc.cx search result supplies.
 */
module MusicMeta {
  import opened Wrappers
  import opened Text

  /** The keyword table of the genre inference, genre by genre. */
  const GenreKeywords: seq<(string, seq<string>)> := [
    ("Classical", ["classical", "symphony", "concerto", "sonata", "古典"]),
    ("Pop", ["pop", "流行"]),
    ("Rock", ["rock", "摇滚"]),
    ("Jazz", ["jazz", "爵士"]),
    ("Electronic", ["electronic", "edm", "techno", "house", "电子"]),
    ("Hip Hop", ["hip hop", "rap", "说唱"]),
    ("Country", ["country", "乡村"]),
    ("R&B", ["r&b", "soul"]),
    ("Metal", ["metal", "金属"]),
    ("Folk", ["folk", "民谣"]),
    ("Soundtrack", ["soundtrack", "ost", "原声"]),
    ("Anime", ["anime", "动漫", "アニメ"]),
    ("Game", ["game", "游戏", "ゲーム"])
  ]

  const Unknown := "Unknown"

  predicate MentionsAny(text: string, keywords: seq<string>) {
    exists k :: 0 <= k < |keywords| && Contains(text, keywords[k])
  }

  /** The genres one of whose keywords occurs in the lower-cased album name. */
  function MatchingGenres(albumName: string): (r: set<string>)
    ensures forall g :: g in r ==> exists i :: 0 <= i < |GenreKeywords| && GenreKeywords[i].0 == g
    ensures Unknown !in r
  {
    UnknownNotAGenre();
    set i | 0 <= i < |GenreKeywords| && MentionsAny(GoLower(albumName), GenreKeywords[i].1) :: GenreKeywords[i].0
  }

  /** "Unknown" is not a genre of the table, so it never stands for a match. */
  lemma UnknownNotAGenre()
    ensures forall i :: 0 <= i < |GenreKeywords| ==> GenreKeywords[i].0 != Unknown
  {
  }

  /**
   * The genres `getOrInferGenre` may return: a non-empty given genre unchanged;
   * else, for a track of an album, the album's most common genre when there is
   * one; else a genre whose keyword occurs in the album name, or "Unknown"
   * exactly when there is none.
   */
  predicate GenreAllowed(currentGenre: string, albumId: string, albumGenre: Option<string>, albumName: string,
                         genre: string) {
    if currentGenre != "" then genre == currentGenre
    else if albumId != "" && albumGenre.Some? && albumGenre.value != "" then genre == albumGenre.value
    else (genre == Unknown <==> MatchingGenres(albumName) == {}) && (genre != Unknown ==> genre in MatchingGenres(albumName))
  }

  /** The same choices as a set: the one genre kept or taken from the album, else the matches or `{Unknown}`. */
  function AllowedGenres(currentGenre: string, albumId: string, albumGenre: Option<string>, albumName: string)
    : (r: set<string>)
    ensures r != {}
  {
    if currentGenre != "" then {currentGenre}
    else if albumId != "" && albumGenre.Some? && albumGenre.value != "" then {albumGenre.value}
    else if MatchingGenres(albumName) == {} then {Unknown}
    else MatchingGenres(albumName)
  }

  /** A genre is in the set exactly when `getOrInferGenre` may return it. */
  lemma AllowedGenresIff(currentGenre: string, albumId: string, albumGenre: Option<string>, albumName: string,
                         genre: string)
    ensures genre in AllowedGenres(currentGenre, albumId, albumGenre, albumName) <==>
      GenreAllowed(currentGenre, albumId, albumGenre, albumName, genre)
  {
  }

  /**
   * `getOrInferGenre`. `albumGenre` is the most common non-empty genre among
   * the album's tracks, or None when that query fails. Go visits the keyword
   * table in an unspecified order, so among several matching genres any one
   * may be chosen.
   */
  method GetOrInferGenre(currentGenre: string, albumId: string, albumGenre: Option<string>, albumName: string)
    returns (genre: string)
    ensures GenreAllowed(currentGenre, albumId, albumGenre, albumName, genre)
    ensures genre in AllowedGenres(currentGenre, albumId, albumGenre, albumName)
  {
    if currentGenre != "" {
      return currentGenre;
    }
    if albumId != "" && albumGenre.Some? && albumGenre.value != "" {
      return albumGenre.value;
    }
    var matches := MatchingGenres(albumName);
    if matches == {} {
      genre := Unknown;
    } else {
      UnknownNotAGenre();
      genre :| genre in matches;
    }
  }

  /** No keyword is empty, so an album without a name has no genre match. */
  lemma NamelessAlbumMatchesNothing()
    ensures MatchingGenres("") == {}
  {
    forall i | 0 <= i < |GenreKeywords| ensures !MentionsAny(GoLower(""), GenreKeywords[i].1) {
      assert forall k :: 0 <= k < |GenreKeywords[i].1| ==> GenreKeywords[i].1[k] != "";
    }
  }

  /** `sub` starting at position `i` of `s` is contained in `s`. */
  lemma {:induction false} ContainsAt(s: string, sub: string, i: nat)
    requires i + |sub| <= |s| && s[i..i + |sub|] == sub
    ensures Contains(s, sub)
    decreases i
  {
    if i > 0 {
      assert s[1..][i - 1..i - 1 + |sub|] == sub;
      ContainsAt(s[1..], sub, i - 1);
    }
  }

  /** "Rock OST" names two genres, so which the scanner records is not determined. */
  lemma AmbiguousAlbumName()
    ensures "Rock" in MatchingGenres("Rock OST") && "Soundtrack" in MatchingGenres("Rock OST")
  {
    var lower := GoLower("Rock OST");
    assert lower == "rock ost";
    ContainsAt(lower, "rock", 0);
    ContainsAt(lower, "ost", 5);
    assert GenreKeywords[2].1[0] == "rock";
    assert MentionsAny(lower, GenreKeywords[2].1);
    assert GenreKeywords[10].1[1] == "ost";
    assert MentionsAny(lower, GenreKeywords[10].1);
  }

  /** One item of an lrc.cx search result: its LRC text and its match score. */
  datatype LrcItem = LrcItem(lrc: string, score: real)

  /**
   * Item `k` has the highest score, and every earlier item a lower one: among
   * the items sharing the highest score it is the first.
   */
  predicate IsBest(items: seq<LrcItem>, k: int): (b: bool)
    ensures b ==> 0 <= k < |items|
    ensures b ==> forall j :: 0 <= j < |items| && items[j].score >= items[k].score ==> k <= j
  {
    0 <= k < |items|
    && (forall j :: 0 <= j < |items| ==> items[j].score <= items[k].score)
    && (forall j :: 0 <= j < k ==> items[j].score < items[k].score)
  }

  /** At most one item is best: ties go to the first. */
  lemma BestUnique(items: seq<LrcItem>, k1: int, k2: int)
    requires IsBest(items, k1) && IsBest(items, k2)
    ensures k1 == k2
  {
    assert items[k1].score == items[k2].score;
  }

  /** The selection loop: the first item kept, and replaced only by a strictly higher score. */
  method BestItem(items: seq<LrcItem>) returns (best: nat)
    requires |items| > 0
    ensures IsBest(items, best)
  {
    best := 0;
    var i := 1;
    while i < |items|
      invariant 1 <= i <= |items| && best < i
      invariant forall j :: 0 <= j < i ==> items[j].score <= items[best].score
      invariant forall j :: 0 <= j < best ==> items[j].score < items[best].score
    {
      if items[i].score > items[best].score {
        best := i;
      }
      i := i + 1;
    }
  }

  const NoItems := "lrc.cx 未返回歌词项"
  const EmptyLrc := "选中的歌词项不包含 LRC 内容"

  /** The lyrics taken from a decoded lrc.cx result: the best item's LRC text, which must not be empty. */
  method SelectLyrics(items: seq<LrcItem>) returns (r: Result<string, string>)
    ensures items == [] ==> r == Err(NoItems)
    ensures items != [] ==>
      exists k :: IsBest(items, k) && r == (if items[k].lrc == "" then Err(EmptyLrc) else Ok(items[k].lrc))
  {
    if |items| == 0 {
      return Err(NoItems);
    }
    var best := BestItem(items);
    if items[best].lrc == "" {
      return Err(EmptyLrc);
    }
    return Ok(items[best].lrc);
  }

  /** Of two items with the top score the first wins. */
  method TestTieKeepsFirst() returns (r: Result<string, string>)
    ensures r == Ok("b")
  {
    var items := [LrcItem("a", 1.0), LrcItem("b", 2.0), LrcItem("c", 2.0)];
    r := SelectLyrics(items);
    assert IsBest(items, 1);
    forall k | IsBest(items, k) ensures k == 1 {
      BestUnique(items, k, 1);
    }
  }
}
