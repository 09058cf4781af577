/**
 * The playlist handlers: creating and listing playlists, toggling a track in
 * a playlist, and toggling it in the user's favourites playlist "我的喜爱",
 * which is created on first use. The tables are fields of a store: the
 * `music` table as each track's `like_count`, the `playlists` rows in the
 * order the database returns them, and `playlist_musics` as a set of
 * (playlist id, music id) pairs.
 */
module PlaylistHandler {
  import opened Wrappers
  import opened Text
  import opened Paging
  import opened Numeric
  import opened SqlLike

  const FavouritesName := "我的喜爱"
  const FavouritesDescription := "我喜欢的音乐"

  const NameRequired := "播放列表名称不能为空"
  const CreateFailed := "创建播放列表失败"
  const Unauthenticated := "未认证的用户"
  const MusicMissing := "音乐不存在"
  const PlaylistMissing := "播放列表不存在"
  const CountFailed := "获取播放列表总数失败"
  const FindFailed := "获取播放列表列表失败"

  datatype Playlist = Playlist(id: string, name: string, description: string, userId: string)

  /** A row of `playlist_musics`: playlist id, music id. */
  type Link = (string, string)

  datatype Action = Added | Removed

  /** The favourites reply: the playlist, the track and whether it is now a favourite. */
  datatype FavouriteReply = FavouriteReply(playlistId: string, musicId: string, favorited: bool)

  datatype PlaylistPage = PlaylistPage(data: seq<Playlist>, total: int, page: int, totalPages: int)

  /** Deletes the pair when it is present, inserts it otherwise. */
  function Toggle(links: set<Link>, pair: Link): (r: set<Link>)
    ensures pair in r <==> pair !in links
    ensures forall p :: p != pair ==> (p in r <==> p in links)
  {
    if pair in links then links - {pair} else links + {pair}
  }

  /** Toggling the same pair twice restores the association set. */
  lemma ToggleTwice(links: set<Link>, pair: Link)
    ensures Toggle(Toggle(links, pair), pair) == links
  {
    var once := Toggle(links, pair);
    assert forall p :: p in Toggle(once, pair) <==> p in links;
  }

  /** `like_count` after `AddMusicToPlaylist`, as written: one less whether the pair was removed or added. */
  function LikeCountAsWritten(count: int, wasLinked: bool): (r: int)
    ensures r < count && count - r == 1
  {
    count - 1
  }

  /** Adding a track to a playlist lowers its count, and an add followed by a removal loses two likes. */
  lemma AsWrittenAddLowersLikes(count: int)
    ensures LikeCountAsWritten(count, false) < count
    ensures LikeCountAsWritten(LikeCountAsWritten(count, false), true) == count - 2
  {
  }

  /** `like_count` as the comments mean it: one more when the pair is added, one less when it is removed. */
  function LikeCountCorrected(count: int, wasLinked: bool): (r: int)
    ensures wasLinked ==> r < count
    ensures !wasLinked ==> r > count
  {
    if wasLinked then count - 1 else count + 1
  }

  /** With the corrected count, adding and then removing (or the reverse) restores the count. */
  lemma CorrectedToggleRestoresLikes(count: int, wasLinked: bool)
    ensures LikeCountCorrected(LikeCountCorrected(count, wasLinked), !wasLinked) == count
  {
  }

  /**
   * The first step of a toggle request that fails, if any: parsing the
   * body, the track query, the playlist query, the association count, and
   * the writes (the delete or the insert, which carry the driver's error
   * text, the like-count update, and creating the favourites playlist).
   */
  datatype Fault = NoFault | BodyFault | MusicQueryFault | PlaylistQueryFault | LinkCountFault
                 | DeleteFault(text: string) | LikeUpdateFault | InsertFault(text: string) | CreateFault(text: string)

  const BodyParseFailed := "请求参数解析失败"
  const MusicQueryFailed := "查询音乐失败"
  const PlaylistQueryFailed := "查询播放列表失败"
  const LinkCountFailed := "检查关联失败"
  const RemoveFailed := "移除音乐失败: "
  const UnfavouriteFailed := "取消喜爱失败: "
  const LikeFailed := "点赞失败"
  const InsertFailed := "添加音乐到播放列表失败: "
  /** SQLite's message for an insert whose primary key is taken. */
  const DuplicateKey := "UNIQUE constraint failed: playlists.id"

  /** A fault before the track is known to exist. */
  predicate EarlyFault(f: Fault) {
    f == BodyFault || f == MusicQueryFault
  }

  /** A fault of the writes a toggle makes: the delete and the count for a removal, the count and the insert for an addition. */
  predicate ToggleFails(f: Fault, wasLinked: bool) {
    if wasLinked then f.DeleteFault? || f == LikeUpdateFault else f == LikeUpdateFault || f.InsertFault?
  }

  /** `AddMusicToPlaylist` finds the track and the playlist. */
  predicate BothFound(f: Fault, musicId: string, playlistId: string, likes: map<string, int>, rows: seq<Playlist>) {
    !EarlyFault(f) && f != PlaylistQueryFault && musicId in likes && HasId(rows, playlistId)
  }

  /** `AddMusicToPlaylist` gets past its lookups and its association count to the writes. */
  predicate ToggleReached(f: Fault, musicId: string, playlistId: string, likes: map<string, int>, rows: seq<Playlist>) {
    BothFound(f, musicId, playlistId, likes, rows) && f != LinkCountFault
  }

  /** `AddToFavoritePlaylist` gets to the favourites playlist: the body parses and the track exists. */
  predicate FavouritesLookedUp(f: Fault, musicId: string, likes: map<string, int>) {
    !EarlyFault(f) && f != PlaylistQueryFault && musicId in likes
  }

  /** The user has no favourites playlist and creating it succeeds. */
  predicate Creates(userId: string, f: Fault, musicId: string, freshId: string, likes: map<string, int>, rows: seq<Playlist>) {
    userId != "" && FavouritesLookedUp(f, musicId, likes) && FirstFavourites(rows, userId).None? &&
    !f.CreateFault? && !HasId(rows, freshId)
  }

  /** `AddToFavoritePlaylist` has its favourites playlist, found or created. */
  predicate FavouritesReached(userId: string, f: Fault, musicId: string, freshId: string, likes: map<string, int>, rows: seq<Playlist>) {
    userId != "" && FavouritesLookedUp(f, musicId, likes) &&
    (FirstFavourites(rows, userId).Some? || Creates(userId, f, musicId, freshId, likes, rows))
  }

  /** The id of the user's favourites playlist: the first one stored, or the new one. */
  function FavouritesId(userId: string, freshId: string, rows: seq<Playlist>): string {
    match FirstFavourites(rows, userId)
    case Some(k) => rows[k].id
    case None => freshId
  }

  predicate HasId(rows: seq<Playlist>, id: string) {
    exists i :: 0 <= i < |rows| && rows[i].id == id
  }

  predicate IsFavouritesOf(p: Playlist, userId: string) {
    p.name == FavouritesName && p.userId == userId
  }

  /** `First` on `name = "我的喜爱" AND user_id = userId`: the index of the first such row, if any. */
  function FirstFavourites(rows: seq<Playlist>, userId: string): (r: Option<nat>)
    ensures r.Some? ==>
      r.value < |rows| && IsFavouritesOf(rows[r.value], userId) &&
      forall j :: 0 <= j < r.value ==> !IsFavouritesOf(rows[j], userId)
    ensures r.None? ==> forall j :: 0 <= j < |rows| ==> !IsFavouritesOf(rows[j], userId)
  {
    if rows == [] then None
    else if IsFavouritesOf(rows[0], userId) then Some(0)
    else match FirstFavourites(rows[1..], userId)
      case None => None
      case Some(k) => Some(k + 1)
  }

  /** Appending a row that is no favourites playlist of `userId` does not change which one is found first. */
  lemma {:induction false} FirstFavouritesSnoc(rows: seq<Playlist>, p: Playlist, userId: string)
    ensures FirstFavourites(rows + [p], userId) ==
      match FirstFavourites(rows, userId)
      case Some(k) => Some(k)
      case None => if IsFavouritesOf(p, userId) then Some(|rows|) else None
  {
    if rows != [] {
      assert (rows + [p])[1..] == rows[1..] + [p];
      FirstFavouritesSnoc(rows[1..], p, userId);
    }
  }

  /** The playlists whose name is `LIKE %q%` (every playlist for an empty `q`), in order. */
  function Matching(rows: seq<Playlist>, q: string): (r: seq<Playlist>)
    ensures |r| <= |rows|
    ensures forall p :: p in r <==> p in rows && (q == "" || Search(p.name, q))
  {
    if rows == [] then []
    else
      var rest := Matching(rows[1..], q);
      assert forall p :: p in rows <==> p == rows[0] || p in rows[1..];
      if q == "" || Search(rows[0].name, q) then [rows[0]] + rest else rest
  }

  lemma {:induction false} MatchingEverything(rows: seq<Playlist>)
    ensures Matching(rows, "") == rows
  {
    if rows != [] {
      MatchingEverything(rows[1..]);
    }
  }

  class Store {
    /** The `music` table: each track's `like_count`. */
    var likes: map<string, int>
    var playlists: seq<Playlist>
    var links: set<Link>

    constructor (likes: map<string, int>, playlists: seq<Playlist>, links: set<Link>)
      ensures this.likes == likes && this.playlists == playlists && this.links == links
    {
      this.likes := likes;
      this.playlists := playlists;
      this.links := links;
    }

    /**
     * `CreatePlaylist`: the body must parse (`bodyOk`) and the playlist needs
     * a name. `freshId` is the identifier the creation hook draws; one already
     * in use makes the insert fail with the unique-key message, and
     * `createError` is any other error of the insert, whose text the reply
     * carries.
     */
    method CreatePlaylist(bodyOk: bool, name: string, description: string, freshId: string, createError: Option<string>)
      returns (r: Result<Playlist, string>)
      modifies this
      ensures !bodyOk ==> r == Err(BodyParseFailed)
      ensures bodyOk && name == "" ==> r == Err(NameRequired)
      ensures bodyOk && name != "" && createError.Some? ==> r == Err(CreateFailed + ": " + createError.value)
      ensures bodyOk && name != "" && createError.None? && HasId(old(playlists), freshId) ==>
        r == Err(CreateFailed + ": " + DuplicateKey)
      ensures r.Err? ==> playlists == old(playlists)
      ensures r.Ok? <==> bodyOk && name != "" && createError.None? && !HasId(old(playlists), freshId)
      ensures r.Ok? ==>
        r.value == Playlist(freshId, name, description, "") && playlists == old(playlists) + [r.value]
      ensures likes == old(likes) && links == old(links)
    {
      if !bodyOk {
        return Err(BodyParseFailed);
      }
      if name == "" {
        return Err(NameRequired);
      }
      if createError.Some? {
        return Err(CreateFailed + ": " + createError.value);
      }
      if HasId(playlists, freshId) {
        return Err(CreateFailed + ": " + DuplicateKey);
      }
      var p := Playlist(freshId, name, description, "");
      playlists := playlists + [p];
      r := Ok(p);
    }

    /**
     * `ListPlaylists`: the playlists whose name contains `q`, the page from
     * offset `(page - 1) * pageSize`, and the page count rounded up. `countOk`
     * and `findOk` are the outcomes of the two queries. A zero page size
     * panics at the page count, after both queries.
     */
    function ListPlaylists(page: int, pageSize: int, q: string, countOk: bool, findOk: bool): (r: Result<PlaylistPage, string>)
      reads this
      ensures !countOk ==> r == Err(CountFailed)
      ensures countOk && !findOk ==> r == Err(FindFailed)
      ensures countOk && findOk && pageSize == 0 ==> r == Err(DivideByZero)
      ensures countOk && findOk && pageSize != 0 ==> r.Ok? && r.value.page == page && r.value.total == |Matching(playlists, q)|
      ensures countOk && findOk && pageSize > 0 && page >= 1 ==>
        r.value.totalPages == CeilDiv(|Matching(playlists, q)|, pageSize) &&
        IsPage(r.value.data, Matching(playlists, q), page, pageSize)
    {
      if !countOk then Err(CountFailed)
      else if !findOk then Err(FindFailed)
      else
        var rows := Matching(playlists, q);
        WindowIsPage(rows, page, pageSize);
        match TotalPages(|rows|, pageSize)
        case Err(e) => Err(e)
        case Ok(n) => Ok(PlaylistPage(Window(rows, Offset(page, pageSize), pageSize), |rows|, page, n))
    }

    /**
     * `AddMusicToPlaylist`: the request body must parse, and the track and
     * the playlist must exist; the pair is then removed when present and
     * inserted when absent. `like_count` goes down by one on a removal and up
     * by one on an insertion, as the comments of the handler say (it lowers
     * the count in both cases; see `AsWrittenAddLowersLikes`). `fault` is the
     * first step that fails. The two writes of a toggle are separate
     * statements, not a transaction: when the second fails, the first stays.
     */
    method AddMusicToPlaylist(playlistId: string, musicId: string, fault: Fault) returns (r: Result<Action, string>)
      modifies this
      ensures fault == BodyFault ==> r == Err(BodyParseFailed)
      ensures fault == MusicQueryFault ==> r == Err(MusicQueryFailed)
      ensures !EarlyFault(fault) && musicId !in old(likes) ==> r == Err(MusicMissing)
      ensures fault == PlaylistQueryFault && musicId in old(likes) ==> r == Err(PlaylistQueryFailed)
      ensures (!EarlyFault(fault) && fault != PlaylistQueryFault && musicId in old(likes) &&
               !HasId(old(playlists), playlistId)) ==> r == Err(PlaylistMissing)
      ensures BothFound(fault, musicId, playlistId, old(likes), old(playlists)) && fault == LinkCountFault ==>
        r == Err(LinkCountFailed)
      ensures r.Ok? <==>
        ToggleReached(fault, musicId, playlistId, old(likes), old(playlists)) &&
        !ToggleFails(fault, (playlistId, musicId) in old(links))
      ensures r.Ok? ==>
        r.value == (if (playlistId, musicId) in old(links) then Removed else Added) &&
        links == Toggle(old(links), (playlistId, musicId)) &&
        likes == old(likes)[musicId := LikeCountCorrected(old(likes)[musicId], (playlistId, musicId) in old(links))]
      ensures var pair := (playlistId, musicId);
        ToggleReached(fault, musicId, playlistId, old(likes), old(playlists)) && pair in old(links) ==>
        (fault.DeleteFault? ==> r == Err(RemoveFailed + fault.text) && links == old(links) && likes == old(likes)) &&
        (fault == LikeUpdateFault ==> r == Err(LikeFailed) && links == old(links) - {pair} && likes == old(likes))
      ensures var pair := (playlistId, musicId);
        ToggleReached(fault, musicId, playlistId, old(likes), old(playlists)) && pair !in old(links) ==>
        (fault == LikeUpdateFault ==> r == Err(LikeFailed) && links == old(links) && likes == old(likes)) &&
        (fault.InsertFault? ==>
           r == Err(InsertFailed + fault.text) && links == old(links) &&
           likes == old(likes)[musicId := old(likes)[musicId] + 1])
      ensures !ToggleReached(fault, musicId, playlistId, old(likes), old(playlists)) ==>
        r.Err? && likes == old(likes) && links == old(links)
      ensures playlists == old(playlists)
    {
      if fault == BodyFault {
        return Err(BodyParseFailed);
      }
      if fault == MusicQueryFault {
        return Err(MusicQueryFailed);
      }
      if musicId !in likes {
        return Err(MusicMissing);
      }
      if fault == PlaylistQueryFault {
        return Err(PlaylistQueryFailed);
      }
      if !HasId(playlists, playlistId) {
        return Err(PlaylistMissing);
      }
      if fault == LinkCountFault {
        return Err(LinkCountFailed);
      }
      var pair := (playlistId, musicId);
      if pair in links {
        if fault.DeleteFault? {
          return Err(RemoveFailed + fault.text);
        }
        links := links - {pair};
        if fault == LikeUpdateFault {
          return Err(LikeFailed);
        }
        likes := likes[musicId := likes[musicId] - 1];
        return Ok(Removed);
      }
      if fault == LikeUpdateFault {
        return Err(LikeFailed);
      }
      likes := likes[musicId := likes[musicId] + 1];
      if fault.InsertFault? {
        return Err(InsertFailed + fault.text);
      }
      links := links + {pair};
      r := Ok(Added);
    }

    /**
     * `AddToFavoritePlaylist`: an authenticated user's toggle of a track in
     * the playlist "我的喜爱", created (with identifier `freshId`) when the user
     * has none. `like_count` is never touched. `fault` is the first step that
     * fails; a playlist created before a later failure stays.
     */
    method AddToFavoritePlaylist(userId: Option<string>, musicId: string, freshId: string, fault: Fault)
      returns (r: Result<FavouriteReply, string>)
      modifies this
      ensures userId.None? || userId.value == "" ==> r == Err(Unauthenticated)
      ensures userId.Some? && userId.value != "" ==>
        (fault == BodyFault ==> r == Err(BodyParseFailed)) &&
        (fault == MusicQueryFault ==> r == Err(MusicQueryFailed)) &&
        (!EarlyFault(fault) && musicId !in old(likes) ==> r == Err(MusicMissing)) &&
        (fault == PlaylistQueryFault && musicId in old(likes) ==> r == Err(PlaylistQueryFailed))
      ensures userId.Some? && userId.value != "" && FavouritesLookedUp(fault, musicId, old(likes)) &&
              FirstFavourites(old(playlists), userId.value).None? ==>
        (fault.CreateFault? ==> r == Err(CreateFailed + ": " + fault.text)) &&
        (!fault.CreateFault? && HasId(old(playlists), freshId) ==> r == Err(CreateFailed + ": " + DuplicateKey))
      ensures likes == old(likes)
      ensures playlists == (if userId.Some? && Creates(userId.value, fault, musicId, freshId, old(likes), old(playlists))
                            then old(playlists) + [Playlist(freshId, FavouritesName, FavouritesDescription, userId.value)]
                            else old(playlists))
      ensures userId.Some? && userId.value != "" && FavouritesReached(userId.value, fault, musicId, freshId, old(likes), old(playlists)) ==>
        var pair := (FavouritesId(userId.value, freshId, old(playlists)), musicId);
        (fault == LinkCountFault ==> r == Err(LinkCountFailed)) &&
        (fault.DeleteFault? && pair in old(links) ==> r == Err(UnfavouriteFailed + fault.text)) &&
        (fault.InsertFault? && pair !in old(links) ==> r == Err(InsertFailed + fault.text)) &&
        (r.Ok? <==> fault != LinkCountFault && !(fault.DeleteFault? && pair in old(links)) &&
                    !(fault.InsertFault? && pair !in old(links)))
      ensures r.Err? ==> links == old(links)
      ensures r.Ok? ==>
        userId.Some? && userId.value != "" &&
        FavouritesReached(userId.value, fault, musicId, freshId, old(likes), old(playlists)) &&
        r.value.playlistId == FavouritesId(userId.value, freshId, old(playlists)) &&
        r.value.musicId == musicId &&
        r.value.favorited == ((r.value.playlistId, musicId) !in old(links)) &&
        links == Toggle(old(links), (r.value.playlistId, musicId))
      ensures r.Ok? ==> var k := FirstFavourites(playlists, userId.value);
        k.Some? && playlists[k.value].id == r.value.playlistId
    {
      if userId.None? || userId.value == "" {
        return Err(Unauthenticated);
      }
      var uid := userId.value;
      if fault == BodyFault {
        return Err(BodyParseFailed);
      }
      if fault == MusicQueryFault {
        return Err(MusicQueryFailed);
      }
      if musicId !in likes {
        return Err(MusicMissing);
      }
      if fault == PlaylistQueryFault {
        return Err(PlaylistQueryFailed);
      }
      var pid: string;
      var found := FirstFavourites(playlists, uid);
      if found.Some? {
        pid := playlists[found.value].id;
      } else {
        if fault.CreateFault? {
          return Err(CreateFailed + ": " + fault.text);
        }
        if HasId(playlists, freshId) {
          return Err(CreateFailed + ": " + DuplicateKey);
        }
        var p := Playlist(freshId, FavouritesName, FavouritesDescription, uid);
        FirstFavouritesSnoc(playlists, p, uid);
        playlists := playlists + [p];
        pid := freshId;
      }
      if fault == LinkCountFault {
        return Err(LinkCountFailed);
      }
      var pair := (pid, musicId);
      if pair in links {
        if fault.DeleteFault? {
          return Err(UnfavouriteFailed + fault.text);
        }
        links := links - {pair};
        return Ok(FavouriteReply(pid, musicId, false));
      }
      if fault.InsertFault? {
        return Err(InsertFailed + fault.text);
      }
      links := links + {pair};
      r := Ok(FavouriteReply(pid, musicId, true));
    }
  }

  /** Two toggles of a track in a playlist leave the associations and the track's like count as they were. */
  method AddTwice(s: Store, playlistId: string, musicId: string)
    returns (r1: Result<Action, string>, r2: Result<Action, string>)
    modifies s
    ensures r1.Ok? ==> r2.Ok? && r1.value != r2.value && s.links == old(s.links) && s.likes == old(s.likes)
    ensures r1.Err? ==> r2 == r1 && s.links == old(s.links) && s.likes == old(s.likes)
  {
    var pair := (playlistId, musicId);
    var count, wasLinked := if musicId in s.likes then s.likes[musicId] else 0, pair in s.links;
    r1 := s.AddMusicToPlaylist(playlistId, musicId, NoFault);
    ghost var between, linksBetween := s.likes, s.links;
    r2 := s.AddMusicToPlaylist(playlistId, musicId, NoFault);
    if r1.Ok? {
      assert (pair in linksBetween) == !wasLinked;
      ToggleTwice(old(s.links), pair);
      CorrectedToggleRestoresLikes(count, wasLinked);
      assert between[musicId] == LikeCountCorrected(count, wasLinked);
      assert s.likes == old(s.likes)[musicId := count];
    }
  }

  /** Two favourite toggles of the same track by the same user leave the association set as it was. */
  method FavouriteTwice(s: Store, userId: string, musicId: string, fresh1: string, fresh2: string)
    returns (r1: Result<FavouriteReply, string>, r2: Result<FavouriteReply, string>)
    requires userId != "" && musicId in s.likes
    modifies s
    ensures r1.Ok? ==> r2.Ok? && r1.value.favorited != r2.value.favorited && s.links == old(s.links)
    ensures s.likes == old(s.likes)
  {
    r1 := s.AddToFavoritePlaylist(Some(userId), musicId, fresh1, NoFault);
    if r1.Ok? {
      r2 := s.AddToFavoritePlaylist(Some(userId), musicId, fresh2, NoFault);
      ToggleTwice(old(s.links), (r1.value.playlistId, musicId));
    } else {
      r2 := r1;
    }
  }
}
