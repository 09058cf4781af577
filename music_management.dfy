/**
 * The music management page: the genre list offered as filters, the tracks
 * of the selected genre, the count and total time shown beside them, the
 * like button, and the request the page makes for its current filter. A
 * field the server left out is None; durations are whole seconds.
 */
module MusicManagement {
  import opened Wrappers
  import opened Text
  import opened StringOrder
  import opened Numeric

  datatype Music = Music(id: string, genre: Option<string>, duration: Option<int>, likeCount: Option<int>)

  const AllGenres := "all"
  const UnknownGenre := "Unknown"

  /** A genre that appears in the filter list: present, not empty and not `Unknown`. */
  predicate Listed(m: Music) {
    m.genre.Some? && m.genre.value != "" && m.genre.value != UnknownGenre
  }

  /**
   * `genres`: each listed genre is added to a set in the order the tracks
   * come (a JavaScript set keeps insertion order), and the set's elements are
   * then sorted.
   */
  method Genres(musics: seq<Music>) returns (genres: seq<string>)
    ensures forall g :: g in genres <==> g in ListedGenres(musics)
    ensures StrictlySortedBy(genres, Id)
  {
    var inserted: seq<string> := [];
    var i := 0;
    while i < |musics|
      invariant 0 <= i <= |musics|
      invariant forall g :: g in inserted <==> g in ListedGenres(musics[..i])
      invariant Distinct(inserted)
    {
      var m := musics[i];
      assert musics[..i + 1][..i] == musics[..i];
      if m.genre.Some? && m.genre.value != "" && m.genre.value != UnknownGenre && m.genre.value !in inserted {
        inserted := inserted + [m.genre.value];
      }
      i := i + 1;
    }
    assert musics[..i] == musics;
    genres := SortBy(inserted, Id);
    SortByProperties(inserted, Id);
    PermutationDistinct(inserted, genres);
    assert forall g :: g in genres <==> g in multiset(inserted);
    SortedDistinctStrict(genres, Id);
  }

  /** The listed genres of the tracks, as a set. */
  function ListedGenres(musics: seq<Music>): (r: set<string>)
    ensures forall g :: g in r ==> g != "" && g != UnknownGenre
  {
    if musics == [] then {}
    else
      var m := musics[|musics| - 1];
      ListedGenres(musics[..|musics| - 1]) + (if Listed(m) then {m.genre.value} else {})
  }

  /** A genre is in the set exactly when some track lists it. */
  lemma {:induction false} ListedGenresIff(musics: seq<Music>, g: string)
    ensures g in ListedGenres(musics) <==> exists i :: 0 <= i < |musics| && Listed(musics[i]) && musics[i].genre.value == g
    decreases |musics|
  {
    if musics != [] {
      var front := musics[..|musics| - 1];
      ListedGenresIff(front, g);
      if exists i :: 0 <= i < |musics| && Listed(musics[i]) && musics[i].genre.value == g {
        var i :| 0 <= i < |musics| && Listed(musics[i]) && musics[i].genre.value == g;
        if i < |front| {
          assert front[i] == musics[i];
        }
      }
      if exists i :: 0 <= i < |front| && Listed(front[i]) && front[i].genre.value == g {
        var i :| 0 <= i < |front| && Listed(front[i]) && front[i].genre.value == g;
        assert musics[i] == front[i];
      }
    }
  }

  /** The genre list is determined by the set of listed genres: any two runs agree. */
  lemma GenresDetermined(a: seq<string>, b: seq<string>, musics: seq<Music>)
    requires forall g :: g in a <==> g in ListedGenres(musics)
    requires forall g :: g in b <==> g in ListedGenres(musics)
    requires StrictlySortedBy(a, Id) && StrictlySortedBy(b, Id)
    ensures a == b
  {
    forall i | 0 <= i < |a| ensures a[i] in b {
      assert a[i] in a;
    }
    forall j | 0 <= j < |b| ensures b[j] in a {
      assert b[j] in b;
    }
    StrictlySortedUnique(a, b);
  }

  /** `filteredMusics`: every track for `all`, otherwise the tracks of exactly that genre, in order. */
  function Filtered(musics: seq<Music>, selected: string): (r: seq<Music>)
    ensures selected == AllGenres ==> r == musics
    ensures selected != AllGenres ==> forall m :: m in r <==> m in musics && m.genre == Some(selected)
    ensures |r| <= |musics|
  {
    if selected == AllGenres then musics else WithGenre(musics, selected)
  }

  function WithGenre(musics: seq<Music>, g: string): (r: seq<Music>)
    ensures forall m :: m in r <==> m in musics && m.genre == Some(g)
    ensures |r| <= |musics|
  {
    if musics == [] then []
    else
      var rest := WithGenre(musics[1..], g);
      assert forall m :: m in musics <==> m == musics[0] || m in musics[1..];
      if musics[0].genre == Some(g) then [musics[0]] + rest else rest
  }

  /** Filtering keeps the order: it filters each part of a list separately. */
  lemma {:induction false} WithGenreAppend(a: seq<Music>, b: seq<Music>, g: string)
    ensures WithGenre(a + b, g) == WithGenre(a, g) + WithGenre(b, g)
    decreases |a|
  {
    if a != [] {
      assert (a + b)[1..] == a[1..] + b;
      WithGenreAppend(a[1..], b, g);
    } else {
      assert a + b == b;
    }
  }

  /** `m.duration || 0`. */
  function Seconds(m: Music): int {
    if m.duration.Some? then m.duration.value else 0
  }

  /** The summed duration of a list: not negative when no track has a negative duration. */
  function TotalSeconds(musics: seq<Music>): (r: int)
    ensures (forall k :: 0 <= k < |musics| ==> Seconds(musics[k]) >= 0) ==> r >= 0
  {
    SumNonNegative(musics, Seconds);
    Sum(musics, Seconds)
  }

  datatype Stats = Stats(count: int, minutes: int, hours: int)

  /** `stats`: the number of tracks and the whole minutes and hours of their total duration. */
  function StatsOf(filtered: seq<Music>): (s: Stats)
    ensures s.count == |filtered|
    ensures s.minutes * 60 <= TotalSeconds(filtered) < (s.minutes + 1) * 60
    ensures s.hours * 3600 <= TotalSeconds(filtered) < (s.hours + 1) * 3600
  {
    var t := TotalSeconds(filtered);
    FloorBounds(t, 60);
    FloorBounds(t, 3600);
    Stats(|filtered|, t / 60, t / 3600)
  }

  /** The hours are the whole hours of the minutes, so hours and leftover minutes add back up. */
  lemma HoursOfMinutes(filtered: seq<Music>)
    ensures StatsOf(filtered).hours == StatsOf(filtered).minutes / 60
    ensures StatsOf(filtered).hours * 60 + StatsOf(filtered).minutes % 60 == StatsOf(filtered).minutes
  {
    var s := StatsOf(filtered);
    var t := TotalSeconds(filtered);
    var h := s.minutes / 60;
    FloorBounds(s.minutes, 60);
    assert h * 3600 <= t by {
      assert h * 60 <= s.minutes;
      assert h * 3600 == (h * 60) * 60;
      assert (h * 60) * 60 <= s.minutes * 60;
    }
    assert t < (h + 1) * 3600 by {
      assert s.minutes + 1 <= (h + 1) * 60;
      assert (h + 1) * 3600 == ((h + 1) * 60) * 60;
      assert (s.minutes + 1) * 60 <= ((h + 1) * 60) * 60;
    }
    Floor3600Unique(t, s.hours, h);
    assert s.minutes == h * 60 + s.minutes % 60;
  }

  lemma Floor3600Unique(t: int, a: int, b: int)
    requires a * 3600 <= t < (a + 1) * 3600
    requires b * 3600 <= t < (b + 1) * 3600
    ensures a == b
  {
  }

  /** The total-time label: `Hh Mm` from an hour on, `Mm` below. */
  function DurationLabel(s: Stats): (r: string)
    ensures |r| >= 2 && r[|r| - 1] == 'm'
    ensures 'h' in r <==> s.hours > 0
  {
    if s.hours > 0 then
      var h, m := IntToString(s.hours), IntToString(s.minutes % 60);
      var r := h + "h " + m + "m";
      assert r[|h|] == 'h';
      r
    else
      var m := IntToString(s.minutes);
      NoLetterInNumber(s.minutes);
      assert forall i :: 0 <= i < |m| ==> (m + "m")[i] == m[i];
      m + "m"
  }

  /** A number's decimal text has no letter `h`. */
  lemma NoLetterInNumber(n: int)
    ensures 'h' !in IntToString(n)
  {
    var t := IntToString(n);
    if n >= 0 {
      assert AllDigits(t);
    } else {
      assert t == "-" + NatToString(-n);
      assert AllDigits(t[1..]);
    }
  }

  /**
   * The label shows the total minutes: split into whole hours and the
   * minutes left over once the total reaches an hour, as they are below it.
   */
  lemma DurationLabelShowsMinutes(filtered: seq<Music>)
    ensures var s := StatsOf(filtered);
      (s.minutes >= 60 ==> DurationLabel(s) == IntToString(s.minutes / 60) + "h " + IntToString(s.minutes % 60) + "m") &&
      (s.minutes < 60 ==> DurationLabel(s) == IntToString(s.minutes) + "m")
  {
    HoursOfMinutes(filtered);
  }

  /** The view the page chooses. */
  datatype ViewMode = List | Card | AlbumCards | AlbumInfo

  /**
   * The page's filter state: a filter name, or one of JavaScript's two
   * empty values. The album-cards button passes `FilterType.ALBUM_CARDS`, a
   * key the filter enumeration does not define, so it sets `undefined`;
   * choosing an album sets `null`.
   */
  datatype Filter = Named(name: string) | Undefined | Null

  const AllFilter := Named("all")
  const LikedFilter := Named("liked")

  /** The filter the album-cards button sets: `FilterType.ALBUM_CARDS` reads as `undefined`. */
  const AlbumCardsButton := Undefined

  /** The filter choosing an album sets, next to the album's id. */
  const AlbumChosen := Null

  /** The list request: page 1 of 100, favourites only for `liked`, or one album's tracks. */
  datatype ListParams = ListParams(page: int, pageSize: int, favorited: bool, albumId: Option<string>)

  /** The heading the page shows above the tracks. */
  datatype Header = Header(name: string, artistName: string)

  const LikedHeader := Header("我喜欢的音乐", "多位艺术家")
  const AllHeader := Header("全部音乐", "多位艺术家")

  /** What `fetchMusics` does for a filter and an album: the request, the view, the heading, and the album it loads. */
  datatype Plan = Plan(params: ListParams, view: ViewMode, header: Option<Header>, loadAlbum: Option<string>)

  /**
   * `fetchMusics`: `liked` lists favourites under its own heading; the
   * filter `undefined` (compared with the equally undefined
   * `FilterType.ALBUM_CARDS`) switches to the album cards and leaves the
   * heading alone; a chosen album lists that album's tracks and loads the
   * album; anything else lists all tracks. Every branch requests page 1 of 100.
   */
  function FetchPlan(filter: Filter, albumId: Option<string>): (p: Plan)
    ensures p.params.page == 1 && p.params.pageSize == 100
    ensures p.params.favorited <==> filter == LikedFilter
    ensures p.view == AlbumCards <==> filter == Undefined
    ensures p.view != AlbumCards ==> p.view == AlbumInfo
    ensures filter == Undefined ==> p.header.None? && p.loadAlbum.None? && p.params.albumId.None?
    ensures p.loadAlbum.Some? <==>
      filter != LikedFilter && filter != Undefined && albumId.Some? && albumId.value != ""
    ensures p.loadAlbum.Some? ==> p.params.albumId == albumId && p.header.None?
    ensures p.loadAlbum.None? && filter != Undefined ==>
      p.params.albumId.None? && p.header == Some(if filter == LikedFilter then LikedHeader else AllHeader)
  {
    if filter == LikedFilter then
      Plan(ListParams(1, 100, true, None), AlbumInfo, Some(LikedHeader), None)
    else if filter == Undefined then
      Plan(ListParams(1, 100, false, None), AlbumCards, None, None)
    else if albumId.Some? && albumId.value != "" then
      Plan(ListParams(1, 100, false, albumId), AlbumInfo, None, albumId)
    else
      Plan(ListParams(1, 100, false, None), AlbumInfo, Some(AllHeader), None)
  }

  /** What `renderContent` shows. */
  datatype Content = NoMatches | NoData | CardGrid | TrackList | AlbumTrackList | AlbumGrid

  /**
   * `renderContent`: with no tracks to show, the empty state (its message
   * says no track matches whenever a filter or a genre is set); otherwise
   * the component of the view. The empty test comes first, in every view.
   */
  function Render(view: ViewMode, filter: Filter, selectedGenre: string, shown: nat): (c: Content)
    ensures shown == 0 <==> c == NoMatches || c == NoData
    ensures c == NoData <==> shown == 0 && filter == AllFilter && selectedGenre == AllGenres
    ensures c == AlbumGrid <==> shown > 0 && view == AlbumCards
  {
    if shown == 0 then
      if filter != AllFilter || selectedGenre != AllGenres then NoMatches else NoData
    else
      match view
      case Card => CardGrid
      case List => TrackList
      case AlbumInfo => AlbumTrackList
      case AlbumCards => AlbumGrid
  }

  /**
   * The album-cards button: whatever album was chosen before, the page
   * requests the plain track list, keeps its heading and switches to the
   * album cards, which it shows once the track list is not empty.
   */
  lemma AlbumCardsButtonShowsAlbums(albumId: Option<string>, selectedGenre: string, shown: nat)
    ensures var p := FetchPlan(AlbumCardsButton, albumId);
      p.view == AlbumCards && p.loadAlbum.None? && p.header.None? &&
      p.params == ListParams(1, 100, false, None) &&
      (shown > 0 ==> Render(p.view, AlbumCardsButton, selectedGenre, shown) == AlbumGrid) &&
      (shown == 0 ==> Render(p.view, AlbumCardsButton, selectedGenre, shown) == NoMatches)
  {
  }

  /**
   * Choosing an album card sets the album and the `null` filter: the page
   * then loads the album and lists its tracks, under the album's own heading.
   */
  lemma ChosenAlbumListsItsTracks(id: string, selectedGenre: string, shown: nat)
    requires id != ""
    ensures var p := FetchPlan(AlbumChosen, Some(id));
      p.loadAlbum == Some(id) && p.params.albumId == Some(id) && !p.params.favorited && p.view == AlbumInfo &&
      (shown > 0 ==> Render(p.view, AlbumChosen, selectedGenre, shown) == AlbumTrackList)
  {
  }

  /** `(music.likeCount || 0) + 1`. */
  function Liked(m: Music): (n: Music)
    ensures n.id == m.id && n.genre == m.genre && n.duration == m.duration
    ensures n.likeCount == Some((if m.likeCount.Some? then m.likeCount.value else 0) + 1)
  {
    m.(likeCount := Some((if m.likeCount.Some? then m.likeCount.value else 0) + 1))
  }

  class Page {
    var musics: seq<Music>

    constructor ()
      ensures musics == []
    {
      musics := [];
    }

    /** A list reply with data replaces the tracks (an absent list gives none); any other reply changes nothing. */
    method ReceiveList(data: Option<Option<seq<Music>>>)
      modifies this
      ensures data.Some? && data.value.Some? ==> musics == data.value.value
      ensures data.Some? && data.value.None? ==> musics == []
      ensures data.None? ==> musics == old(musics)
    {
      if data.Some? {
        musics := if data.value.Some? then data.value.value else [];
      }
    }

    /**
     * `handleLike`: once the server accepts the like, the tracks with that id
     * count one like more and every other track stays as it was.
     */
    method HandleLike(musicId: string, accepted: bool)
      modifies this
      ensures |musics| == |old(musics)|
      ensures forall i :: 0 <= i < |musics| ==>
        musics[i] == (if accepted && old(musics)[i].id == musicId then Liked(old(musics)[i]) else old(musics)[i])
    {
      if accepted {
        var prev := musics;
        musics := seq(|prev|, i requires 0 <= i < |prev| => if prev[i].id == musicId then Liked(prev[i]) else prev[i]);
      }
    }
  }
}
