/**
 * `ListMusics`: the music list with its search filters, pagination and the
 * favourite flag of the requesting user, as the handler computes it, and the
 * listing it evidently means to compute when only favourites are asked for.
 */
module MusicListing {
  import opened Wrappers
  import opened Text
  import opened Paging
  import opened Numeric
  import opened SqlLike

  /** The columns of a `music` row the listing reads, in the order the database returns rows. */
  datatype Music = Music(id: string, title: string, artist: string, albumArtist: string, albumId: string)

  /** One item of `data`: the row and whether it is among the user's favourites. */
  datatype ListEntry = ListEntry(music: Music, favorited: bool)

  datatype MusicPage = MusicPage(data: seq<ListEntry>, total: int, page: int, totalPages: int)

  const Unauthenticated := "未认证的用户"
  const CountFailed := "获取音乐总数失败"
  const FindFailed := "获取音乐列表失败"

  /** The query's conditions: the album when one is given, and `LIKE %q%` on title, artist or album artist. */
  function Selected(m: Music, albumId: string, q: string): (b: bool)
    ensures b ==> (albumId == "" || m.albumId == albumId)
    ensures q == "" ==> (b <==> (albumId == "" || m.albumId == albumId))
  {
    (albumId == "" || m.albumId == albumId)
    && (q == "" || Search(m.title, q) || Search(m.artist, q) || Search(m.albumArtist, q))
  }

  /**
   * For a search text without wildcards, a track is selected exactly when
   * its title, artist or album artist contains the text, ignoring ASCII case.
   */
  lemma SelectedByFoldedText(m: Music, albumId: string, q: string)
    requires Literal(q) && q != ""
    ensures Selected(m, albumId, q) <==>
      (albumId == "" || m.albumId == albumId) &&
      (ContainsFolded(m.title, q) || ContainsFolded(m.artist, q) || ContainsFolded(m.albumArtist, q))
  {
    SearchIsFoldedContains(m.title, q);
    SearchIsFoldedContains(m.artist, q);
    SearchIsFoldedContains(m.albumArtist, q);
  }

  /** The rows of `s` that satisfy `p`, in their order. */
  function Filter(s: seq<Music>, p: Music -> bool): (r: seq<Music>)
    ensures |r| <= |s|
    ensures forall x :: x in r <==> x in s && p(x)
  {
    if s == [] then []
    else
      var rest := Filter(s[1..], p);
      assert forall x :: x in s <==> x == s[0] || x in s[1..];
      if p(s[0]) then [s[0]] + rest else rest
  }

  /** The favourite ids: those of the user's favourites playlist, none when the user has none. */
  function FavouriteSet(favouriteIds: Option<seq<string>>): (r: set<string>)
    ensures favouriteIds.None? ==> r == {}
    ensures favouriteIds.Some? ==> forall id :: id in r <==> id in favouriteIds.value
  {
    match favouriteIds
    case None => {}
    case Some(ids) => set i | 0 <= i < |ids| :: ids[i]
  }

  lemma SingleFavourite(id: string)
    ensures FavouriteSet(Some([id])) == {id}
  {
    var ids := [id];
    assert ids[0] == id;
    assert forall x :: x in FavouriteSet(Some(ids)) <==> x == id;
  }

  function EntryFor(m: Music, favourites: set<string>): ListEntry {
    ListEntry(m, m.id in favourites)
  }

  /** The entries the handler builds from a page of rows: non-favourites skipped when only favourites are asked for. */
  function Annotate(rows: seq<Music>, favourites: set<string>, onlyFavourites: bool): (r: seq<ListEntry>)
    ensures |r| <= |rows|
    ensures forall k :: 0 <= k < |r| ==> (r[k].favorited <==> r[k].music.id in favourites)
    ensures onlyFavourites ==> forall k :: 0 <= k < |r| ==> r[k].favorited
  {
    if rows == [] then []
    else
      var front := Annotate(rows[..|rows| - 1], favourites, onlyFavourites);
      var last := rows[|rows| - 1];
      if onlyFavourites && last.id !in favourites then front
      else front + [EntryFor(last, favourites)]
  }

  predicate IsFavourite(favourites: set<string>, m: Music) {
    m.id in favourites
  }

  /** Without the favourites filter every row gets an entry, in order, flagged exactly when it is a favourite. */
  lemma {:induction false} AnnotateAll(rows: seq<Music>, favourites: set<string>)
    ensures |Annotate(rows, favourites, false)| == |rows|
    ensures forall i :: 0 <= i < |rows| ==>
      Annotate(rows, favourites, false)[i] == ListEntry(rows[i], rows[i].id in favourites)
  {
    if rows != [] {
      AnnotateAll(rows[..|rows| - 1], favourites);
    }
  }

  /** With the favourites filter the entries are the page's favourites, in order, all flagged. */
  lemma {:induction false} AnnotateFavourites(rows: seq<Music>, favourites: set<string>)
    ensures var f := Filter(rows, m => IsFavourite(favourites, m));
      |Annotate(rows, favourites, true)| == |f| &&
      forall i :: 0 <= i < |f| ==> Annotate(rows, favourites, true)[i] == ListEntry(f[i], true)
  {
    if rows != [] {
      var front := rows[..|rows| - 1];
      AnnotateFavourites(front, favourites);
      FilterSnoc(front, rows[|rows| - 1], m => IsFavourite(favourites, m));
      assert front + [rows[|rows| - 1]] == rows;
    }
  }

  lemma {:induction false} FilterSnoc(s: seq<Music>, x: Music, p: Music -> bool)
    ensures Filter(s + [x], p) == Filter(s, p) + (if p(x) then [x] else [])
    decreases |s|
  {
    if s != [] {
      FilterSnoc(s[1..], x, p);
      assert (s + [x])[1..] == s[1..] + [x];
    }
  }

  /**
   * The listing as the handler computes it, once the user, the count and the
   * page query have succeeded; a zero page size panics at the page count.
   */
  function ListingAsWritten(page: int, pageSize: int, albumId: string, onlyFavourites: bool, q: string,
                            table: seq<Music>, favouriteIds: Option<seq<string>>): (r: Result<MusicPage, string>)
    ensures r.Err? <==> pageSize == 0
    ensures r.Err? ==> r.error == DivideByZero
  {
    var rows := Filter(table, m => Selected(m, albumId, q));
    var window := Window(rows, Offset(page, pageSize), pageSize);
    match TotalPages(|rows|, pageSize)
    case Err(e) => Err(e)
    case Ok(n) => Ok(MusicPage(Annotate(window, FavouriteSet(favouriteIds), onlyFavourites), |rows|, page, n))
  }

  /**
   * `ListMusics`. `userId` is the authenticated user (None when the request
   * carries none); `countOk` and `findOk` are the outcomes of the two queries;
   * `favouriteIds` the music ids of the user's favourites playlist, None when
   * the user has no such playlist. When only favourites are asked for, the
   * favourites condition joins the query's conditions before counting and
   * paging (see `FavouritesLostByPaging` for the handler as written).
   */
  method ListMusics(userId: Option<string>, page: int, pageSize: int, albumId: string, onlyFavourites: bool,
                    q: string, table: seq<Music>, countOk: bool, findOk: bool,
                    favouriteIds: Option<seq<string>>)
    returns (r: Result<MusicPage, string>)
    ensures userId.None? || userId.value == "" ==> r == Err(Unauthenticated)
    ensures userId.Some? && userId.value != "" && !countOk ==> r == Err(CountFailed)
    ensures userId.Some? && userId.value != "" && countOk && !findOk ==> r == Err(FindFailed)
    ensures userId.Some? && userId.value != "" && countOk && findOk && !onlyFavourites ==>
      r == ListingAsWritten(page, pageSize, albumId, false, q, table, favouriteIds)
    ensures userId.Some? && userId.value != "" && countOk && findOk && onlyFavourites ==>
      r == FavouriteListingCorrected(page, pageSize, albumId, q, table, favouriteIds)
    ensures userId.Some? && userId.value != "" && countOk && findOk && pageSize == 0 ==> r == Err(DivideByZero)
  {
    if userId.None? || userId.value == "" {
      return Err(Unauthenticated);
    }
    var favourites := FavouriteSet(favouriteIds);
    var rows;
    if onlyFavourites {
      rows := Filter(table, m => Selected(m, albumId, q) && m.id in favourites);
    } else {
      rows := Filter(table, m => Selected(m, albumId, q));
    }
    if !countOk {
      return Err(CountFailed);
    }
    var musics := Window(rows, Offset(page, pageSize), pageSize);
    if !findOk {
      return Err(FindFailed);
    }
    var responses: seq<ListEntry> := [];
    var i := 0;
    while i < |musics|
      invariant 0 <= i <= |musics|
      invariant responses == Annotate(musics[..i], favourites, onlyFavourites)
    {
      assert musics[..i + 1][..i] == musics[..i];
      if !(onlyFavourites && musics[i].id !in favourites) {
        responses := responses + [ListEntry(musics[i], musics[i].id in favourites)];
      }
      i := i + 1;
    }
    assert musics[..|musics|] == musics;
    if onlyFavourites {
      FavouriteWindow(table, albumId, q, favourites, Offset(page, pageSize), pageSize);
    }
    match TotalPages(|rows|, pageSize) {
      case Err(e) =>
        r := Err(e);
      case Ok(n) =>
        r := Ok(MusicPage(responses, |rows|, page, n));
    }
  }

  /** A page of favourites loses nothing to the favourites flag. */
  lemma FavouriteWindow(table: seq<Music>, albumId: string, q: string, favourites: set<string>, offset: int, limit: int)
    ensures var w := Window(Filter(table, m => Selected(m, albumId, q) && m.id in favourites), offset, limit);
      Annotate(w, favourites, true) == Annotate(w, favourites, false)
  {
    var rows := Filter(table, m => Selected(m, albumId, q) && m.id in favourites);
    var w := Window(rows, offset, limit);
    forall i | 0 <= i < |w| ensures w[i].id in favourites {
      assert w[i] in rows;
    }
    AnnotateKeepsFavourites(w, favourites);
  }

  /** On rows that are all favourites the favourites flag skips nothing. */
  lemma {:induction false} AnnotateKeepsFavourites(rows: seq<Music>, favourites: set<string>)
    requires forall i :: 0 <= i < |rows| ==> rows[i].id in favourites
    ensures Annotate(rows, favourites, true) == Annotate(rows, favourites, false)
  {
    if rows != [] {
      AnnotateKeepsFavourites(rows[..|rows| - 1], favourites);
    }
  }

  /** A listing without the favourites filter: every selected row on its page, flagged by membership. */
  lemma PlainListingFlags(page: int, pageSize: int, albumId: string, q: string,
                          table: seq<Music>, favouriteIds: Option<seq<string>>)
    requires page >= 1 && pageSize > 0
    ensures var rows := Filter(table, m => Selected(m, albumId, q));
      var l := ListingAsWritten(page, pageSize, albumId, false, q, table, favouriteIds).value;
      var w := Window(rows, Offset(page, pageSize), pageSize);
      l.total == |rows| && l.totalPages == CeilDiv(|rows|, pageSize) &&
      |l.data| == |w| &&
      forall i :: 0 <= i < |w| ==> l.data[i] == ListEntry(w[i], w[i].id in FavouriteSet(favouriteIds))
  {
    var rows := Filter(table, m => Selected(m, albumId, q));
    AnnotateAll(Window(rows, Offset(page, pageSize), pageSize), FavouriteSet(favouriteIds));
  }

  /** With the favourites filter the handler keeps only the favourites of the page it already cut. */
  lemma FavouriteListingKeepsPageFavourites(page: int, pageSize: int, albumId: string, q: string,
                                            table: seq<Music>, favouriteIds: Option<seq<string>>)
    requires pageSize != 0
    ensures var rows := Filter(table, m => Selected(m, albumId, q));
      var l := ListingAsWritten(page, pageSize, albumId, true, q, table, favouriteIds).value;
      var f := Filter(Window(rows, Offset(page, pageSize), pageSize), m => IsFavourite(FavouriteSet(favouriteIds), m));
      |l.data| == |f| && forall i :: 0 <= i < |f| ==> l.data[i] == ListEntry(f[i], true)
  {
    var rows := Filter(table, m => Selected(m, albumId, q));
    AnnotateFavourites(Window(rows, Offset(page, pageSize), pageSize), FavouriteSet(favouriteIds));
  }

  /**
   * Two tracks, the second a favourite, one per page: the favourites list of
   * page 1 comes back empty, yet it reports two tracks on two pages.
   */
  lemma FavouritesLostByPaging()
    ensures var table := [Music("1", "a", "x", "x", ""), Music("2", "b", "x", "x", "")];
      var l := ListingAsWritten(1, 1, "", true, "", table, Some(["2"])).value;
      l.data == [] && l.total == 2 && l.totalPages == 2
  {
    var table := [Music("1", "a", "x", "x", ""), Music("2", "b", "x", "x", "")];
    var p := (m: Music) => Selected(m, "", "");
    assert Filter(table, p) == table by {
      assert table[1..][1..] == [];
      assert Filter(table[1..], p) == table[1..];
    }
    assert Window(table, Offset(1, 1), 1) == table[..1];
    SingleFavourite("2");
    assert Annotate(table[..1], {"2"}, true) == [] by {
      assert table[..1][..0] == [];
    }
  }

  /**
   * The favourites listing evidently meant: the favourites filter belongs in
   * the query, before counting and paging, like the other conditions.
   */
  function FavouriteListingCorrected(page: int, pageSize: int, albumId: string, q: string,
                                     table: seq<Music>, favouriteIds: Option<seq<string>>): (l: Result<MusicPage, string>)
    ensures l.Err? <==> pageSize == 0
    ensures l.Err? ==> l.error == DivideByZero
  {
    var favourites := FavouriteSet(favouriteIds);
    var rows := Filter(table, m => Selected(m, albumId, q) && m.id in favourites);
    var window := Window(rows, Offset(page, pageSize), pageSize);
    match TotalPages(|rows|, pageSize)
    case Err(e) => Err(e)
    case Ok(n) => Ok(MusicPage(Annotate(window, favourites, false), |rows|, page, n))
  }

  /**
   * In the corrected listing the total counts the selected favourites, a page
   * has entries exactly when its number is at most the page count, and every
   * selected favourite appears, flagged, on its page.
   */
  lemma CorrectedListingShowsEveryFavourite(page: int, pageSize: int, albumId: string, q: string,
                                            table: seq<Music>, favouriteIds: Option<seq<string>>, m: Music)
    requires page >= 1 && pageSize > 0
    ensures var favourites := FavouriteSet(favouriteIds);
      var rows := Filter(table, m => Selected(m, albumId, q) && m.id in favourites);
      var l := FavouriteListingCorrected(page, pageSize, albumId, q, table, favouriteIds).value;
      l.total == |rows| && (l.data != [] <==> page <= l.totalPages) &&
      (forall e :: e in l.data ==> e.favorited && e.music in table && Selected(e.music, albumId, q)) &&
      (m in table && Selected(m, albumId, q) && m.id in favourites ==>
        exists k :: 0 <= k < |rows| && rows[k] == m &&
          ListEntry(m, true) in FavouriteListingCorrected(k / pageSize + 1, pageSize, albumId, q, table, favouriteIds).value.data)
  {
    var favourites := FavouriteSet(favouriteIds);
    var rows := Filter(table, m => Selected(m, albumId, q) && m.id in favourites);
    var w := Window(rows, Offset(page, pageSize), pageSize);
    AnnotateAll(w, favourites);
    PageNonEmptyIff(rows, page, pageSize);
    PageContents(rows, page, pageSize);
    forall e | e in FavouriteListingCorrected(page, pageSize, albumId, q, table, favouriteIds).value.data
      ensures e.favorited && e.music in table && Selected(e.music, albumId, q)
    {
      var i :| 0 <= i < |w| && e == ListEntry(w[i], w[i].id in favourites);
      assert w[i] in rows;
    }
    if m in table && Selected(m, albumId, q) && m.id in favourites {
      assert m in rows;
      var k :| 0 <= k < |rows| && rows[k] == m;
      var p := k / pageSize + 1;
      EveryRowOnItsPage(rows, pageSize, k);
      var wk := Window(rows, Offset(p, pageSize), pageSize);
      AnnotateAll(wk, favourites);
      assert Annotate(wk, favourites, false)[k % pageSize] == ListEntry(m, true);
    }
  }

  /** On the two-track example the corrected listing shows the favourite on page 1 of 1. */
  lemma CorrectedFindsTheFavourite()
    ensures var table := [Music("1", "a", "x", "x", ""), Music("2", "b", "x", "x", "")];
      FavouriteListingCorrected(1, 1, "", "", table, Some(["2"])) ==
        Ok(MusicPage([ListEntry(Music("2", "b", "x", "x", ""), true)], 1, 1, 1))
  {
    var table := [Music("1", "a", "x", "x", ""), Music("2", "b", "x", "x", "")];
    var favourites := FavouriteSet(Some(["2"]));
    SingleFavourite("2");
    var p := (m: Music) => Selected(m, "", "") && m.id in favourites;
    assert Filter(table, p) == [table[1]] by {
      assert table[1..][1..] == [];
    }
    assert Window([table[1]], Offset(1, 1), 1) == [table[1]];
    assert [table[1]][..0] == [];
    assert TotalPages(|[table[1]]|, 1) == Ok(1);
    assert Annotate([table[1]], favourites, false) == [ListEntry(table[1], true)];
  }
}
