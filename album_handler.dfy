/**
 * The album handlers: creating an album, reading one, updating the fields a
 * request fills in, and listing albums page by page. The `album` table is a
 * field of a store, its rows in the order the database returns them. A
 * release date is an opaque value; only whether it is present matters.
 */
module AlbumHandler {
  import opened Wrappers
  import opened Text
  import opened Paging
  import opened Numeric
  import opened SqlLike

  const NameRequired := "专辑名称不能为空"
  const CreateFailed := "创建专辑失败"
  const BodyParseFailed := "请求参数解析失败"
  /** SQLite's message for an insert whose primary key is taken. */
  const DuplicateKey := "UNIQUE constraint failed: album.id"
  const AlbumMissing := "专辑不存在"
  const QueryFailed := "查询专辑失败"
  const UpdateFailed := "更新专辑失败"
  const CountFailed := "获取专辑总数失败"
  const FindFailed := "获取专辑列表失败"

  /** The keys of the list reply; the page count is `totalPages` here, not `total_pages`. */
  const PageKeys := ["data", "total", "page", "totalPages"]

  type Date = string

  datatype Album = Album(id: string, name: string, artistName: string, coverUrl: string,
                         releaseDate: Option<Date>, genre: string)

  /** The body of a create or update request. */
  datatype AlbumRequest = AlbumRequest(name: string, artistName: string, coverUrl: string, releaseDate: Option<Date>)

  datatype AlbumPage = AlbumPage(data: seq<Album>, total: int, page: int, totalPages: int)

  /** A value of the `updates` map: a text column or the release date. */
  datatype Column = Text(text: string) | ReleaseDate(date: Date)

  /** What an update means: each non-empty text field and a present date replace the stored one. */
  function Merge(a: Album, req: AlbumRequest): (r: Album)
    ensures r.id == a.id && r.genre == a.genre
    ensures (req.name != "" ==> r.name == req.name) && (req.name == "" ==> r.name == a.name)
    ensures (req.artistName != "" ==> r.artistName == req.artistName) && (req.artistName == "" ==> r.artistName == a.artistName)
    ensures (req.coverUrl != "" ==> r.coverUrl == req.coverUrl) && (req.coverUrl == "" ==> r.coverUrl == a.coverUrl)
    ensures r.releaseDate == (if req.releaseDate.Some? then req.releaseDate else a.releaseDate)
  {
    Album(a.id,
          if req.name != "" then req.name else a.name,
          if req.artistName != "" then req.artistName else a.artistName,
          if req.coverUrl != "" then req.coverUrl else a.coverUrl,
          if req.releaseDate.Some? then req.releaseDate else a.releaseDate,
          a.genre)
  }

  /** A request that fills nothing in changes nothing, and applying a request twice is applying it once. */
  lemma MergeProperties(a: Album, req: AlbumRequest)
    ensures req == AlbumRequest("", "", "", None) ==> Merge(a, req) == a
    ensures Merge(Merge(a, req), req) == Merge(a, req)
    ensures Merge(a, req).id == a.id && Merge(a, req).genre == a.genre
  {
  }

  /** `Updates(updates)` on a row: each column named in the map takes its value. */
  function Apply(a: Album, updates: map<string, Column>): (r: Album)
    ensures r.id == a.id && r.genre == a.genre
    ensures "name" !in updates ==> r.name == a.name
    ensures "artist_name" !in updates ==> r.artistName == a.artistName
    ensures "cover_url" !in updates ==> r.coverUrl == a.coverUrl
    ensures "release_date" !in updates ==> r.releaseDate == a.releaseDate
    ensures updates == map[] ==> r == a
  {
    Album(a.id,
          if "name" in updates && updates["name"].Text? then updates["name"].text else a.name,
          if "artist_name" in updates && updates["artist_name"].Text? then updates["artist_name"].text else a.artistName,
          if "cover_url" in updates && updates["cover_url"].Text? then updates["cover_url"].text else a.coverUrl,
          if "release_date" in updates && updates["release_date"].ReleaseDate? then Some(updates["release_date"].date)
          else a.releaseDate,
          a.genre)
  }

  predicate HasId(rows: seq<Album>, id: string) {
    exists i :: 0 <= i < |rows| && rows[i].id == id
  }

  /** `First(&album, "id = ?", id)`: the index of the first row with that id. */
  function FirstWithId(rows: seq<Album>, id: string): (r: Option<nat>)
    ensures r.Some? ==> r.value < |rows| && rows[r.value].id == id
    ensures r.None? <==> !HasId(rows, id)
  {
    if rows == [] then None
    else if rows[0].id == id then Some(0)
    else match FirstWithId(rows[1..], id)
      case None =>
        assert forall i :: 1 <= i < |rows| ==> rows[i] == rows[1..][i - 1];
        None
      case Some(k) => Some(k + 1)
  }

  /**
   * `name LIKE %q% OR artist_name LIKE %q%`, no condition for an empty `q`;
   * for a text without wildcards, the name or the artist contains it up to
   * ASCII case.
   */
  function Matches(a: Album, q: string): (b: bool)
    ensures q == "" ==> b
    ensures Literal(q) && q != "" ==> (b <==> ContainsFolded(a.name, q) || ContainsFolded(a.artistName, q))
  {
    assert Literal(q) ==> (Search(a.name, q) <==> ContainsFolded(a.name, q)) &&
                          (Search(a.artistName, q) <==> ContainsFolded(a.artistName, q)) by {
      if Literal(q) {
        SearchIsFoldedContains(a.name, q);
        SearchIsFoldedContains(a.artistName, q);
      }
    }
    q == "" || Search(a.name, q) || Search(a.artistName, q)
  }

  function Matching(rows: seq<Album>, q: string): (r: seq<Album>)
    ensures |r| <= |rows|
    ensures forall a :: a in r <==> a in rows && Matches(a, q)
  {
    if rows == [] then []
    else
      var rest := Matching(rows[1..], q);
      assert forall a :: a in rows <==> a == rows[0] || a in rows[1..];
      if Matches(rows[0], q) then [rows[0]] + rest else rest
  }

  class Store {
    var albums: seq<Album>

    constructor (albums: seq<Album>)
      ensures this.albums == albums
    {
      this.albums := albums;
    }

    /**
     * `CreateAlbum`: the body must parse (`bodyOk`) and a name is required.
     * `freshId` is the identifier the creation hook draws; one already in use
     * makes the insert fail with the unique-key message, and `createError` is
     * any other error of the insert, whose text the reply carries.
     */
    method CreateAlbum(bodyOk: bool, req: AlbumRequest, freshId: string, createError: Option<string>)
      returns (r: Result<Album, string>)
      modifies this
      ensures !bodyOk ==> r == Err(BodyParseFailed)
      ensures bodyOk && req.name == "" ==> r == Err(NameRequired)
      ensures bodyOk && req.name != "" && createError.Some? ==> r == Err(CreateFailed + ": " + createError.value)
      ensures bodyOk && req.name != "" && createError.None? && HasId(old(albums), freshId) ==>
        r == Err(CreateFailed + ": " + DuplicateKey)
      ensures r.Err? ==> albums == old(albums)
      ensures r.Ok? <==> bodyOk && req.name != "" && createError.None? && !HasId(old(albums), freshId)
      ensures r.Ok? ==>
        r.value == Album(freshId, req.name, req.artistName, req.coverUrl, req.releaseDate, "") &&
        albums == old(albums) + [r.value]
    {
      if !bodyOk {
        return Err(BodyParseFailed);
      }
      if req.name == "" {
        return Err(NameRequired);
      }
      if createError.Some? {
        return Err(CreateFailed + ": " + createError.value);
      }
      if HasId(albums, freshId) {
        return Err(CreateFailed + ": " + DuplicateKey);
      }
      var a := Album(freshId, req.name, req.artistName, req.coverUrl, req.releaseDate, "");
      albums := albums + [a];
      r := Ok(a);
    }

    /** `GetAlbum`; `queryOk` is false when the query fails for another reason than a missing row. */
    function GetAlbum(id: string, queryOk: bool): (r: Result<Album, string>)
      reads this
      ensures !queryOk ==> r == Err(QueryFailed)
      ensures queryOk ==> (r == Err(AlbumMissing) <==> !HasId(albums, id))
      ensures r.Ok? ==> r.value in albums && r.value.id == id
    {
      if !queryOk then Err(QueryFailed)
      else match FirstWithId(albums, id)
        case None => Err(AlbumMissing)
        case Some(k) => Ok(albums[k])
    }

    /**
     * `UpdateAlbum`: the album is looked up first, and any failure of that
     * lookup (`findOk` false, or no row) answers that the album does not
     * exist; then the body must parse (`bodyOk`). The request's non-empty
     * text fields and a present release date are collected in `updates`,
     * which is applied to the row; `updateOk` is the outcome of that write.
     */
    method UpdateAlbum(id: string, findOk: bool, bodyOk: bool, req: AlbumRequest, updateOk: bool)
      returns (r: Result<Album, string>)
      modifies this
      ensures !findOk || !HasId(old(albums), id) ==> r == Err(AlbumMissing)
      ensures findOk && HasId(old(albums), id) && !bodyOk ==> r == Err(BodyParseFailed)
      ensures findOk && HasId(old(albums), id) && bodyOk && !updateOk ==> r == Err(UpdateFailed)
      ensures r.Err? ==> albums == old(albums)
      ensures r.Ok? <==> findOk && HasId(old(albums), id) && bodyOk && updateOk
      ensures r.Ok? ==>
        var k := FirstWithId(old(albums), id).value;
        r.value == Merge(old(albums)[k], req) && albums == old(albums)[k := r.value]
    {
      var found := FirstWithId(albums, id);
      if !findOk || found.None? {
        return Err(AlbumMissing);
      }
      if !bodyOk {
        return Err(BodyParseFailed);
      }
      var k := found.value;
      var updates: map<string, Column> := map[];
      if req.name != "" {
        updates := updates["name" := Text(req.name)];
      }
      if req.artistName != "" {
        updates := updates["artist_name" := Text(req.artistName)];
      }
      if req.coverUrl != "" {
        updates := updates["cover_url" := Text(req.coverUrl)];
      }
      if req.releaseDate.Some? {
        updates := updates["release_date" := ReleaseDate(req.releaseDate.value)];
      }
      if !updateOk {
        return Err(UpdateFailed);
      }
      var a := Apply(albums[k], updates);
      albums := albums[k := a];
      r := Ok(a);
    }

    /**
     * `ListAlbums`: the albums whose name or artist contains `q`, the page
     * from offset `(page - 1) * pageSize`, and the page count rounded up. A
     * zero page size panics at the page count, after both queries.
     */
    function ListAlbums(page: int, pageSize: int, q: string, countOk: bool, findOk: bool): (r: Result<AlbumPage, string>)
      reads this
      ensures !countOk ==> r == Err(CountFailed)
      ensures countOk && !findOk ==> r == Err(FindFailed)
      ensures countOk && findOk && pageSize == 0 ==> r == Err(DivideByZero)
      ensures countOk && findOk && pageSize != 0 ==> r.Ok? && r.value.page == page && r.value.total == |Matching(albums, q)|
      ensures countOk && findOk && pageSize > 0 && page >= 1 ==>
        r.value.totalPages == CeilDiv(|Matching(albums, q)|, pageSize) &&
        IsPage(r.value.data, Matching(albums, q), page, pageSize)
    {
      if !countOk then Err(CountFailed)
      else if !findOk then Err(FindFailed)
      else
        var rows := Matching(albums, q);
        WindowIsPage(rows, page, pageSize);
        match TotalPages(|rows|, pageSize)
        case Err(e) => Err(e)
        case Ok(n) => Ok(AlbumPage(Window(rows, Offset(page, pageSize), pageSize), |rows|, page, n))
    }
  }
}
