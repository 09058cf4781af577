# A verified model of a music-library server and its web front end

The system is a personal music-library server written in Go (Fiber for HTTP,
GORM for the database) with a React single-page front end. The server scans a
music directory into tracks and albums, serves listings, playlists, favourites
and lyrics over a JSON API, and also speaks the Subsonic API (version
`1.16.1`) for third-party players. The front end has a shared audio player
with a play queue, a synchronised lyrics panel, a lyrics editor, and pages
for tracks, albums and users.

This project models the parts of both that can be stated precisely, one Dafny
module per source file:

- the Subsonic layer: request authentication (`u`/`p`/`c`/`v` parameters and
  the `enc:` hex password), the artist index of `getArtists` (id
  normalisation, de-duplication, `A`–`Z`, `0-9` and `#` buckets, ordering), albums,
  random songs, cover art and streaming (`SubsonicAuth`, `SubsonicHandler`);
- the music handler's rules: file-type filters, the `.lrc` path beside a track,
  cover images, default titles and artists, genre inference, the choice of
  a fetched lyric, the listing with its favourite filter and pages, and the
  library scan with its skip set and pruning (`MusicFiles`, `MusicMeta`,
  `MusicListing`, `MusicScan`, `Paging`);
- playlists and the favourite toggle, albums, lyrics files, authentication
  middleware, roles, users and password hashing, and the response builder
  (`PlaylistHandler`, `AlbumHandler`, `FileUtil`, `AuthMiddleware`,
  `EntityRole`, `EntityUser`, `ResponseDto`);
- the front end: the LRC parser and active-line locator (`LyricsDisplay`),
  the lyric text normaliser (`LyricsEditModal`), the player queue
  (`PlayerContext`), the full-screen player (`FullPlayer`), the persisted
  user store (`UserStore`), the forms (`LoginForm`, `UserForm`), the list
  pages (`MusicManagement`, `MusicList`, `AlbumList`, `UsersManagement`),
  the pager (`Pagination`) and the URL helper (`FileUrl`).

Code that works by changing state is modelled as classes whose methods state
their whole new state (`PlayerContext.Player`, `UserStore.Store`,
`PlaylistHandler.Store`, `MusicScan.Scanner`, the page classes); loops are
methods with invariants proved against a specification function; pure code is
functions and lemmas. The database is an in-memory value (sequences of rows, a
set of playlist links, a map of like counts) passed to or held by the
handlers. A table's sequence of rows is in the order the rows were inserted,
which is the rowid order in which SQLite answers an unordered `Find` (the
listings with `Offset`/`Limit`). GORM's `First` adds `ORDER BY id LIMIT 1`,
and the ids are random (the upper-cased first eight characters of a UUID), so
`SubsonicAuth.FirstMatch` picks, of the users whose name or e-mail is the one
given, the one with the least id (`FirstMatchLeastId`), not the earliest
inserted. `FirstWithId` looks a row up by its unique id, and
`FirstFavourites` looks for a user's `我的喜爱` playlist, of which there is at
most one: only `AddToFavoritePlaylist` creates one, when the user has none,
and `CreatePlaylist` leaves the owner empty. For those two the earliest
matching row is the only one, so storage order does not matter. Searches use
`SqlLike`, SQLite's `LIKE`: `%` and `_` are wildcards and ASCII letters
match either case. Go strings are bytes; `Utf8` gives the encoding of text.
Shared helpers live in `Text` (JavaScript and Go white space, trim,
ASCII case mapping, split and join, numerals), `StringOrder` (the byte order
on strings and a stable insertion sort), `GoPath` (`filepath.Ext`, `Base`,
`Dir`, `Clean`, `Join`), `Numeric` and `Wrappers`.

Where the code and its own description in comments or documentation differ,
the model follows the code. The exceptions are the operations under
"## Findings": there the main member models the evidently intended reading,
and the code as written has a member of its own beside it. Otherwise:

- an LRC tag with a one-digit fraction such as `[00:01.5]` is not a tag, so
  the line is dropped (`LyricsDisplay.OneDigitFractionDropped`); the dot
  before the fraction is optional (`LyricsDisplay.FractionWithoutDot`); the
  minutes take any number of digits from two up;
- of several lines with the same time, the locator makes the last one active,
  not the first (`LyricsDisplay.TiedLinesHighlightLast`);
- the lyrics panel has no translation alignment and no translation opacity,
  so neither is modelled.

## Model

| member | source | states |
|---|---|---|
| EntityRole.AllRoles | internal/entity/role.go:42-45 | the role list is `admin`, `user`, `guest` in that order: three entries, no repeats, exactly the valid roles |
| EntityRole.RoleFromString | internal/entity/role.go:47-54 | the result is always a valid role: a valid input is kept and anything else becomes `user` |
| EntityRole.RoleTestsExclusive | internal/entity/role.go:17-40 | no role passes two of the admin, user and guest tests, and a role is valid exactly when it passes one |
| EntityRole.RoleFromStringIdempotent | internal/entity/role.go:47-54 | normalising a role twice gives the same role as normalising it once |
| EntityRole.IsValid | internal/entity/role.go:17-25 | a role is valid exactly when it is one of the three named values admin, user and guest |
| EntityRole.IsAdmin | internal/entity/role.go:27-30 | only the text `admin` passes, and it is a valid role |
| EntityRole.IsUser | internal/entity/role.go:32-35 | only the text `user` passes; it is a valid role and not the admin role |
| EntityRole.IsGuest | internal/entity/role.go:37-40 | only the text `guest` passes; it is a valid role and neither of the others |
| EntityUser.BcryptHash | internal/entity/user.go:45-53 | the stand-in hash is the bcrypt prefix, a 22-character salt and a digest as long as the password |
| EntityUser.BcryptHashMatches | internal/entity/user.go:55-59 | a hash matches the password it was made from, and matches no other text |
| EntityUser.BcryptBytesAgree | internal/entity/user.go:55-59 | comparing a stored hash with the UTF-8 bytes of a text is comparing it with the text itself |
| Utf8.DecodeEncode | internal/subsonic/auth.go:36 | the UTF-8 bytes of any text decode back to that text, so bytes compared with an encoding identify one text |
| EntityUser.FreshId | internal/entity/user.go:28-30 | the new identifier has 8 characters and no lower-case ASCII letter |
| EntityUser.User.constructor | internal/entity/user.go:13-24 | a user record starts with the given fields and an empty avatar |
| EntityUser.User.BeforeCreate | internal/entity/user.go:26-43 | every user but SYSTEM gets a fresh identifier; an empty role becomes `user`; a non-empty password is replaced by its hash; nothing else changes |
| EntityUser.User.HashPassword | internal/entity/user.go:45-53 | the stored password becomes the hash of the given text, and no other field changes |
| EntityUser.User.CheckPassword | internal/entity/user.go:55-59 | the check passes exactly when the stored value is a bcrypt hash (prefix and salt) whose digest is the given password under the salt it carries |
| EntityUser.User.IsActive | internal/entity/user.go:66-69 | a user is active exactly when its status is 1; status 0 (disabled) and every other value are not |
| EntityUser.User.IsAdmin | internal/entity/user.go:61-64 | a user is an admin exactly when its role is `admin`, which is a valid role |
| EntityUser.HashThenCheck | internal/entity/user.go:45-59 | after hashing a password, the password check accepts it and rejects every other text |
| EntityUser.RegisterAsWritten | internal/handler/user.go:42-57 | registration as written hashes the password in the handler and again in the creation hook |
| EntityUser.StoredAsWritten | internal/handler/user.go:50-57 | the stored column after that registration is the hash of the hash |
| EntityUser.RegisteredPasswordRejected | internal/handler/user.go:50-57 | after the as-written registration the chosen password never passes the check, while the first hash does |
| EntityUser.RegisterCorrected | internal/entity/user.go:26-43 | registration that leaves the hashing to the hook accepts the chosen password and rejects every other one |
| AuthMiddleware.SplitFirstSpace | internal/middleware/auth.go:25 | splitting at the first space gives one part exactly when there is no space; two parts join back to the header with a space, and the first part holds no space |
| AuthMiddleware.Authenticate | internal/middleware/auth.go:11-52 | an empty header is refused as missing; every refusal is a 401; an accepted request carries a valid role |
| AuthMiddleware.BearerFormat | internal/middleware/auth.go:24-48 | a non-empty header passes the format test exactly when it starts with `Bearer `; the rest of it is the token handed to the parser, and its claims are stored with a normalised role |
| AuthMiddleware.AdminGate | internal/middleware/auth.go:54-76 | the admin gate as written lets every request with a role through; without a role it answers 403 |
| AuthMiddleware.RoleGate | internal/middleware/auth.go:78-103 | without a role the answer is 403 `无法获取用户角色`; otherwise the request goes on exactly when its role is in the allowed list, and is refused with 403 `权限不足` otherwise |
| ResponseDto.Response.constructor | internal/dto/response.go:10-13 | a new body is a success without message or data |
| ResponseDto.Response.Ok | internal/dto/response.go:15-20 | the body becomes a success with the message, keeps its data, and is returned itself |
| ResponseDto.Response.WithData | internal/dto/response.go:22-26 | only the data is replaced, and the body is returned itself |
| ResponseDto.Response.Fail | internal/dto/response.go:28-34 | the body becomes an error with the message, its data is cleared, and it is returned itself |
| ResponseDto.Success | internal/dto/response.go:36-42 | a fresh success body with the message and no data |
| ResponseDto.SuccessWithData | internal/dto/response.go:44-51 | a fresh success body with the message and the data |
| ResponseDto.Error | internal/dto/response.go:53-59 | a fresh error body with the message and no data |
| ResponseDto.Chaining | internal/dto/response.go:15-34 | chained calls act on one body: after `Ok`, `WithData` and `Fail` it is an error with the last message and no data |
| SubsonicAuth.Get | internal/subsonic/auth.go:24-27 | a query parameter reads as its first value, or as empty when it is missing or has no value |
| SubsonicAuth.HexDecode | internal/subsonic/auth.go:35 | hex decoding succeeds exactly on an even number of hex digits of either case, giving one byte per pair |
| SubsonicAuth.HexEncode | internal/subsonic/auth.go:32-37 | the encoding has two characters per byte |
| SubsonicAuth.HexRoundTrip | internal/subsonic/auth.go:32-37 | decoding the hex encoding of any bytes gives back those bytes |
| SubsonicAuth.DecodePassword | internal/subsonic/auth.go:32-38 | the password is bytes, as a Go string is: after `enc:` and valid hex they are the decoded bytes, kept as they are by `string(b)`, with two hex digits per byte; a password without `enc:`, or with invalid hex after it, is the UTF-8 bytes of the text as sent |
| SubsonicAuth.ParseAuth | internal/subsonic/auth.go:22-46 | parsing fails with `missing required auth params (u,p)` exactly when the trimmed user name or the untrimmed password is empty; otherwise `u`, `c` and `v` are trimmed and the password is decoded |
| SubsonicAuth.FromFiber | internal/subsonic/auth.go:48-53 | each query parameter of the framework becomes a one-value entry, so it reads back as the same value |
| SubsonicAuth.ParseAuthFromFiber | internal/subsonic/auth.go:48-55 | parsing the framework's query fails exactly when its trimmed `u` or its `p` is empty or missing |
| SubsonicAuth.EncodedPasswordRoundTrip | internal/subsonic/auth.go:32-38 | for every password, `enc:` followed by the hex of its UTF-8 bytes reads as exactly those bytes, the same bytes as the password sent in the clear |
| SubsonicAuth.NonAsciiPasswordDecodes | internal/subsonic/auth.go:32-38 | `enc:c3a9` reads as the UTF-8 bytes of the one-character password `é` |
| SubsonicAuth.TestPasswordDecodes | internal/subsonic/subsonic_test.go:76 | the tests' `enc:74657374` reads as the bytes of `test` |
| SubsonicAuth.TestQueryParses | internal/subsonic/subsonic_test.go:76 | the tests' query authenticates user `test` with password `test`, client `test` and version `1.16.1` |
| SubsonicAuth.InvalidHexKept | internal/subsonic/auth.go:33-38 | `enc:zz` is not valid hex, so the password stays `enc:zz`, prefix included |
| SubsonicAuth.FirstMatch | internal/subsonic/auth.go:64-65 | the lookup finds a row whose user name or e-mail is the given name, or none exactly when no row matches |
| SubsonicAuth.FirstMatchLeastId | internal/subsonic/auth.go:64-65 | `First` orders by id: every other matching row has a greater id, so the user found is the matching one with the least id, wherever it was inserted |
| SubsonicAuth.NameAndMailClash | internal/subsonic/auth.go:64-65 | a user named as another user's e-mail: the smaller id is found in either storage order |
| SubsonicAuth.ValidateAuth | internal/subsonic/auth.go:57-79 | the missing auth, lookup errors, missing user, disabled user and wrong password are refused in that order, with their messages; the check succeeds exactly for an active first match whose hash matches the password's bytes, and returns that row |
| SubsonicAuth.ValidateAuthFromFiber | internal/subsonic/auth.go:81-88 | a query that does not parse is refused with the parse error; an accepted request belongs to an active user of the table named or mailed as the trimmed `u` |
| SubsonicAuth.DisabledBeforePassword | internal/subsonic/auth.go:71-76 | a disabled account is refused as disabled even when its password would match |
| SubsonicAuth.ValidatedUserMatches | internal/subsonic/auth.go:63-78 | a successful check returns an active row of the table, named or mailed as asked, whose hash matches the password |
| SubsonicAuth.EncodedPasswordSignsIn | internal/subsonic/auth.go:57-79 | an active user whose hash was made from a password, of any characters, is let in with a hex-encoded password exactly when it is that password, and a different one is refused as `invalid credentials` |
| SubsonicHandler.Ping | internal/subsonic/handler.go:26-39 | a ping answers `ok` exactly when the credentials parse, and otherwise `failed` with the required-parameter code and the parse message; the version is always 1.16.1 |
| SubsonicHandler.TestPingOk | internal/subsonic/subsonic_test.go:76 | the tests' ping with user `test` succeeds |
| SubsonicHandler.PingWithoutCredentialsFails | internal/subsonic/handler.go:34-37 | a ping without credentials fails |
| SubsonicHandler.License | internal/subsonic/handler.go:41-49 | the licence is always reported valid, with status `ok` |
| SubsonicHandler.MakeId | internal/subsonic/handler.go:67-70 | an artist identifier is as long as the trimmed name and holds no space and no upper-case ASCII letter |
| SubsonicHandler.MakeIdOfLower | internal/subsonic/handler.go:67-70 | for a trimmed name the identifier is the lower-cased name with spaces replaced by `-` |
| SubsonicHandler.SameLowerSameId | internal/subsonic/handler.go:67-70 | two names equal after trimming and lower-casing get the same identifier |
| SubsonicHandler.SpaceAndDashShareId | internal/subsonic/handler.go:67-70 | a space and a dash are not told apart: `x y` and `x-y` share an identifier |
| SubsonicHandler.BucketOfTrimmed | internal/subsonic/handler.go:88-100 | an artist's index bucket depends only on the trimmed name |
| SubsonicHandler.Bucket | internal/subsonic/handler.go:88-100 | every index bucket is `#`, `0-9` or a single upper-case ASCII letter |
| SubsonicHandler.BucketCases | internal/subsonic/handler.go:88-100 | the bucket is an upper-case ASCII letter, `0-9` or `#`: a blank name or a non-ASCII first letter goes to `#`, a digit to `0-9` and a letter to its upper case |
| SubsonicHandler.Collected | internal/subsonic/handler.go:72-84 | the deduplication loop collects at most one artist per name |
| SubsonicHandler.CollectedStep | internal/subsonic/handler.go:73-84 | each name is skipped when blank or when its identifier was seen, and is otherwise added trimmed |
| SubsonicHandler.CollectedWellFormed | internal/subsonic/handler.go:73-84 | every collected artist has a non-blank trimmed name and that name's identifier |
| SubsonicHandler.CollectedIdsDistinct | internal/subsonic/handler.go:72-84 | the collected artists have pairwise distinct identifiers |
| SubsonicHandler.CollectedCovers | internal/subsonic/handler.go:73-84 | the identifier of every non-blank name is collected |
| SubsonicHandler.CollectedFromFirst | internal/subsonic/handler.go:73-84 | every collected artist comes from the first name with its identifier |
| SubsonicHandler.FirstIsCollected | internal/subsonic/handler.go:73-84 | the first name with each identifier is collected, trimmed |
| SubsonicHandler.FirstCollectedAt | internal/subsonic/handler.go:71-84 | a non-blank name that is the first with its id is collected as its trimmed name with that id |
| SubsonicHandler.CollectedLowerInjective | internal/subsonic/handler.go:114-116 | collected artists are distinct and have distinct lower-cased names, so the in-bucket order is total |
| SubsonicHandler.LowerName | internal/subsonic/handler.go:114-116 | the in-bucket sort key is as long as the name and has no upper-case ASCII letter |
| SubsonicHandler.CollectArtists | internal/subsonic/handler.go:71-84 | the deduplication loop yields exactly the collected artists |
| SubsonicHandler.InBucketMembers | internal/subsonic/handler.go:87-102 | a bucket's artists are the artists whose name falls in that bucket |
| SubsonicHandler.InBucketDistinct | internal/subsonic/handler.go:87-102 | a bucket of distinct artists holds distinct artists |
| SubsonicHandler.GroupByBucket | internal/subsonic/handler.go:87-102 | the grouping loop makes one group per bucket that occurs, holding its artists in order |
| SubsonicHandler.SortedKeys | internal/subsonic/handler.go:104-109 | the bucket names are every key of the grouping, in strictly increasing byte order |
| SubsonicHandler.SortedBucket | internal/subsonic/handler.go:112-116 | sorting one bucket by lower-cased name gives a permutation of it in strictly increasing order |
| SubsonicHandler.IndexMembership | internal/subsonic/handler.go:111-121 | an artist is in an index exactly when the index's bucket is the artist's |
| SubsonicHandler.BuildIndexes | internal/subsonic/handler.go:111-121 | one index per key, in key order, each a sorted permutation of its bucket |
| SubsonicHandler.BucketsOfFirsts | internal/subsonic/handler.go:73-102 | the buckets that occur are exactly the buckets of the first names with each identifier |
| SubsonicHandler.GetArtists | internal/subsonic/handler.go:51-130 | the index names are the occurring buckets in strictly increasing order; each index is a permutation of its bucket, sorted by lower-cased name; every artist is in exactly the index of its bucket |
| SubsonicHandler.HandleGetArtists | internal/subsonic/handler.go:51-130 | a failed artist query answers a generic `db error`; otherwise the reply is `ok` with the index: its names are the occurring buckets in strictly increasing order, each index is a permutation of its bucket sorted by lower-cased name, and every artist is in exactly the index of its bucket |
| SubsonicHandler.SumDurationsAppend | internal/subsonic/handler.go:160-174 | the total duration of an album splits over any split of its songs |
| SubsonicHandler.SumDurations | internal/subsonic/handler.go:160-173 | the album's total duration is the sum over its songs, not negative when no song is |
| SubsonicHandler.CoverId | internal/subsonic/handler.go:211-222 | a non-blank cover URL is its own cover id; otherwise the id is `cover-` followed by the album's cover URL, or just `cover-` when the album is not found |
| SubsonicHandler.SongOf | internal/subsonic/handler.go:163-185 | a song entry carries the track's id and duration, the requested id as parent, the album's name, and a cover reference that is never empty |
| SubsonicHandler.GetAlbum | internal/subsonic/handler.go:132-209 | a missing id, an unknown album and a database error fail with their messages; a found album answers its fields, its song count, its summed duration and one song entry per track in order |
| SubsonicHandler.AlbumSongs | internal/subsonic/handler.go:160-186 | the song loop makes one entry per track in order and sums their durations |
| SubsonicHandler.TestAlbumTotals | internal/subsonic/subsonic_test.go:52-54 | the tests' album of 240, 200 and 180 seconds has 3 songs and 620 seconds |
| SubsonicHandler.Atoi | internal/subsonic/handler.go:226 | `strconv.Atoi` gives a 64-bit value, 0 for empty text, and the value of a number of digits in range |
| SubsonicHandler.AtoiIntToString | internal/subsonic/handler.go:226 | reading back the decimal text of any 64-bit integer gives that integer |
| SubsonicHandler.AtoiRejects | internal/subsonic/handler.go:226 | text that is not a number, such as `abc`, `-` or `1x`, reads as 0 |
| SubsonicHandler.RandomSongsSize | internal/subsonic/handler.go:226-229 | the size is the parsed parameter when positive, and 10 otherwise |
| SubsonicHandler.RandomSongsSizeDefaults | internal/subsonic/handler.go:226-229 | a missing, unparsable, zero or negative size means 10 songs, and `2` means 2 |
| SubsonicHandler.MissingColumn | internal/subsonic/handler.go:231-234 | the first selected column the table lacks: none exactly when every selected column is in the table, otherwise one in the table's absence preceded only by columns it has |
| SubsonicHandler.RandomSongsAsWritten | internal/subsonic/handler.go:224-246 | as written, a size above 2^41 panics, and only such a size; every other request answers `db error: no such column: music.parent`, because `Find` into `[]Song` selects Song's own columns |
| SubsonicHandler.SongColumnsMissParent | internal/subsonic/handler.go:231-234 | `parent` is the first column of a `Song` that the `music` table (internal/entity/music.go:11-45) does not have |
| SubsonicHandler.ChosenColumnsExist | internal/subsonic/handler.go:231-234 | id, title, artist and duration are all columns of the `music` table |
| SubsonicHandler.RandomSongsNeverSucceed | internal/subsonic/handler.go:231-246 | below the capacity bound the handler as written never lists a song even when the database works, while the corrected query lists the tracks of a non-empty table |
| SubsonicHandler.RandomSongs | internal/subsonic/handler.go:224-246 | with the query corrected to select the four columns a song shares with the table: a size above 2^41 panics, and only such a size; otherwise a failed query answers `db error`, and a successful one the first `size` rows of the shuffled table (all when there are fewer), each with its id, title, artist and duration and every other field empty |
| SubsonicHandler.HugeSizePanics | internal/subsonic/handler.go:226-230 | every size from just above 2^41 up to the 64-bit maximum, which `strconv.Atoi` also gives for larger numerals, makes the handler panic, as written and corrected |
| SubsonicHandler.FullPath | internal/subsonic/handler.go:282-287 | a stored path starting with `/` is used as is; any other is joined under the base directory |
| SubsonicHandler.FullPathRooted | internal/subsonic/handler.go:282-287 | under an absolute base directory every served path is absolute |
| SubsonicHandler.ImageType | internal/subsonic/handler.go:269-277 | the cover's lower-cased extension picks png, webp, or jpeg for anything else |
| SubsonicHandler.AudioType | internal/subsonic/handler.go:312-320 | the song's lower-cased extension picks FLAC, WAV, or MPEG for anything else |
| SubsonicHandler.ExtensionCaseIgnored | internal/subsonic/handler.go:269-312 | upper-case extensions are recognised: `.PNG` is a PNG image and `.FLAC` a FLAC stream |
| SubsonicHandler.CoverArt | internal/subsonic/handler.go:248-289 | a missing id is 400; a failed lookup and a blank cover URL are 404 with their messages; otherwise the file at the served path is sent with its image type |
| SubsonicHandler.UnknownCoverIs404 | internal/subsonic/subsonic_test.go:120 | the tests' unknown album 999 has no cover, so the answer is 404 |
| SubsonicHandler.ServeStream | internal/subsonic/handler.go:291-332 | a missing id is 400; a failed lookup and a blank path are 404 with their messages; otherwise the file is sent with its audio type |
| SubsonicHandler.PluckColumn | internal/subsonic/handler.go:298-303 | plucking a column of a song gives that column, and an empty value when there is no such song |
| SubsonicHandler.Stream | internal/subsonic/handler.go:291-332 | a stream that reads the file column sends the song's file, and answers 404 for an unknown song (corrected; see "## Findings") |
| SubsonicHandler.StreamAsWrittenSendsCover | internal/subsonic/handler.go:298-301 | as written, a song with a cover is streamed from its cover image's path |
| SubsonicHandler.StreamAsWritten | internal/subsonic/handler.go:298-305 | as written a found song with a non-blank cover path is sent from that cover path, and one with a blank cover path is refused with 404 `music file path not set`, whatever its file path |
| SubsonicHandler.StreamReadsWrongColumn | internal/subsonic/handler.go:298-305 | a song with a file and no cover gets 404 `music file path not set` as written, and the file with the file column |
| MusicFiles.Member | internal/handler/music.go:777-782 | the early-return search over an extension list answers exactly list membership |
| MusicFiles.IsImageFile | internal/handler/music.go:774-783 | an extension is an image extension exactly when it is one of the six listed, compared as given |
| MusicFiles.ImageTestIsCaseSensitive | internal/handler/music.go:774-783 | the image test itself is case-sensitive: `.png` passes and `.PNG` does not |
| MusicFiles.IsSupportedFileType | internal/handler/music.go:785-795 | a file is imported exactly when its lower-cased extension is one of the five audio extensions |
| MusicFiles.SupportedBySuffix | internal/handler/music.go:785-795 | for a name ending in `.e` the test depends only on the lower-cased `.e` |
| MusicFiles.UpperCaseAudioSupported | internal/handler/music.go:787 | `x.MP3` is imported: the extension is lower-cased first |
| MusicFiles.TextFileNotSupported | internal/handler/music.go:785-795 | `x.txt` is not imported |
| MusicFiles.Stem | internal/handler/music.go:249-250 | the stem followed by the extension is the whole path |
| MusicFiles.LyricsPath | internal/handler/music.go:247-250 | a track's lyrics file is its path with the extension replaced by `.lrc` |
| MusicFiles.LyricsPathProperties | internal/handler/music.go:247-250 | the lyrics path has extension `.lrc`, and deriving it again changes nothing |
| MusicFiles.LyricsBesideTrack | internal/handler/music.go:247-253 | the lyrics file lies in the track's own directory |
| MusicFiles.SharedLyricsFile | internal/handler/music.go:247-250 | two tracks that differ only in their extension share one lyrics file |
| MusicFiles.LyricsOfSuffix | internal/handler/music.go:247-250 | the lyrics file of `front.e` is `front.lrc` |
| MusicFiles.CoverExt | internal/handler/music.go:704-711 | the cover extension always starts with a dot: an empty one becomes `.jpg`, one without a dot gets one, and one with a dot is kept |
| MusicFiles.CoverExtIdempotent | internal/handler/music.go:704-711 | normalising an extension twice is normalising it once |
| MusicFiles.SaveCoverImage | internal/handler/music.go:688-730 | an empty image or a failed directory yields no path; otherwise the path is the covers directory joined with the digest and the extension, returned when the file exists already or was written, and empty when writing fails |
| MusicFiles.FirstExisting | internal/handler/music.go:742-753 | a found cover is the candidate of the earliest name whose candidate exists (the name as given when that file exists, else its upper-cased form), so no earlier name has either file; none found means no name has either |
| MusicFiles.FirstImage | internal/handler/music.go:761-769 | the fallback is the earliest directory entry that is a file with an image extension in any case, joined to the directory, with no image entry before it; none when there is no such entry |
| MusicFiles.FindCoverImage | internal/handler/music.go:732-772 | the named covers are tried first, then the first image of the directory listing; an unreadable directory or no image gives an empty path |
| MusicFiles.CoverJpgFirst | internal/handler/music.go:735-747 | when `cover.jpg` exists it is the cover, whatever else the directory holds |
| MusicFiles.CoverCache.constructor | internal/handler/music.go:658-686 | the per-directory cover cache starts empty |
| MusicFiles.CoverCache.Extract | internal/handler/music.go:657-686 | a cached directory returns its cover unchanged; otherwise the embedded cover wins over one found in the directory, and only a non-empty cover is cached |
| MusicFiles.ExtractTwice | internal/handler/music.go:657-686 | two tracks of one directory get the same cover once the first found one |
| MusicFiles.DefaultTitleIsStem | internal/handler/music.go:607-609 | an untagged file `dir/stem.e` is titled `stem` |
| MusicFiles.DefaultTitle | internal/handler/music.go:607-609 | the title of an untitled track is its file name without the extension, so it never holds a directory separator |
| MusicFiles.TitleOf | internal/handler/music.go:608 | the default title is the base name without its extension |
| MusicFiles.NewTrackNames | internal/handler/music.go:599-615 | tagged title, artist and album artist are kept; an empty title falls back to the file's stem, an empty artist to `未知艺术家`, an empty album artist to the artist |
| MusicFiles.UntaggedTrackNames | internal/handler/music.go:599-615 | an untagged file is titled by its stem and credited to `未知艺术家` as artist and album artist |
| MusicFiles.AlbumArtistName | internal/handler/music.go:506-513 | the album's artist is the album artist, else the artist, else `未知艺术家`, and never empty |
| MusicFiles.AlbumKeyInjective | internal/handler/music.go:515-516 | album keys of names without `:` tell different albums apart |
| MusicFiles.AlbumKeyCollision | internal/handler/music.go:515-516 | with `::` inside names, two different albums share one cache key |
| MusicFiles.AlbumKey | internal/handler/music.go:515-516 | the cache key is the album name, `::`, then the artist name |
| MusicFiles.Suffix | internal/handler/music.go:586 | the stored suffix is the lower-cased extension without its dot, or empty |
| GoPath.Ext | internal/handler/music.go:249 | the extension is the suffix from the last dot of the last path element, or empty |
| GoPath.ExtOfSuffix | internal/handler/music.go:787 | a name ending in `.e`, where `e` has no dot or slash, has extension `.e` |
| GoPath.CleanIsClean | internal/utils/FileUtil.go:23 | the cleaned path has no doubled slash, no trailing slash other than the root itself, no `.` element unless it is `.` itself, no `..` in a rooted path, and in a relative path only leading `..` elements |
| MusicMeta.UnknownNotAGenre | internal/handler/music.go:823-847 | no genre of the keyword table is called `Unknown`, so the fallback is told apart from every inferred genre |
| MusicMeta.MatchingGenres | internal/handler/music.go:839-845 | every matching genre is a genre of the keyword table, so the fallback `Unknown` is never among them |
| MusicMeta.GetOrInferGenre | internal/handler/music.go:797-848 | a track's own genre is kept; otherwise the album's most common genre when the album is known and the query gives one; otherwise a genre whose keyword occurs in the lower-cased album name, and `Unknown` exactly when no keyword occurs |
| MusicMeta.AllowedGenres | internal/handler/music.go:797-848 | the genres the lookup may return, never none: the track's own genre, else the album's stored genre, else the genres whose keyword occurs in the album name, else only `Unknown` |
| MusicMeta.AllowedGenresIff | internal/handler/music.go:797-848 | a genre is in that set exactly when the lookup's case analysis allows it |
| MusicMeta.NamelessAlbumMatchesNothing | internal/handler/music.go:820-847 | an empty album name matches no keyword, so the inference gives `Unknown` |
| MusicMeta.AmbiguousAlbumName | internal/handler/music.go:839-845 | `Rock OST` matches both Rock and Soundtrack, so the map order decides which one is returned |
| MusicMeta.BestUnique | internal/handler/music.go:1011-1017 | the best item, the highest score first reached, is unique |
| MusicMeta.IsBest | internal/handler/music.go:1011-1017 | the chosen item is inside the list and is the first of those with the highest score |
| MusicMeta.BestItem | internal/handler/music.go:1011-1017 | the selection loop returns the item with the highest score, the earliest among ties |
| MusicMeta.SelectLyrics | internal/handler/music.go:1007-1034 | an empty result is an error; otherwise the best item's LRC text, or an error when it is empty |
| MusicMeta.TestTieKeepsFirst | internal/handler/music.go:1012-1017 | of two items with equal top scores the first one is taken |
| MusicListing.Filter | internal/handler/music.go:130-137 | the album and search conditions keep exactly the rows that satisfy them, never more rows than the table has |
| MusicListing.SingleFavourite | internal/handler/music.go:153-166 | one favourite id gives the favourite set holding exactly that id |
| MusicListing.FavouriteSet | internal/handler/music.go:150-167 | the favourite ids are exactly the ids of the favourites playlist, none when the user has no such playlist |
| MusicListing.AnnotateAll | internal/handler/music.go:169-179 | without the favourites flag every fetched row is returned in order, marked favourite exactly when its id is in the favourites |
| MusicListing.AnnotateFavourites | internal/handler/music.go:170-179 | with the favourites flag the reply holds, in order, the fetched rows that are favourites, each marked as one |
| MusicListing.Annotate | internal/handler/music.go:169-179 | at most one entry per row; an entry is flagged exactly when its track is a favourite, and with the favourites filter every entry is flagged |
| MusicListing.FilterSnoc | internal/handler/music.go:170-179 | filtering a list with one more row appends that row exactly when it passes |
| MusicListing.ListMusics | internal/handler/music.go:112-190 | an unauthenticated caller, a failed count and a failed fetch each give their own error; a zero page size, once both queries succeed, is the integer-division panic; otherwise the page of the plain listing, or of the corrected favourites listing when only favourites are asked for (corrected; see "## Findings") |
| MusicListing.SelectedByFoldedText | internal/handler/music.go:134-136 | for a search text without wildcards, a track of the album is listed exactly when its title, artist or album artist contains the text up to ASCII case |
| MusicListing.Selected | internal/handler/music.go:130-137 | a listed track is always on the requested album, and with no search text the tracks of that album (every track when none is given) are exactly the listed ones |
| MusicListing.ListingAsWritten | internal/handler/music.go:143-181 | the listing as written fails exactly when the page size is zero, with Go's divide-by-zero panic |
| MusicListing.FavouriteListingCorrected | internal/handler/music.go:143-181 | the corrected favourites listing fails exactly when the page size is zero, with Go's divide-by-zero panic |
| MusicListing.AnnotateKeepsFavourites | internal/handler/music.go:170-179 | on rows that are all favourites, the skip of non-favourites drops nothing |
| MusicListing.PlainListingFlags | internal/handler/music.go:139-187 | a plain listing reports the matching count, the pages rounded up, and the page's window of rows, each flagged by the favourites |
| MusicListing.FavouriteListingKeepsPageFavourites | internal/handler/music.go:143-179 | the favourites listing returns only the favourites inside the page fetched before filtering |
| MusicListing.FavouritesLostByPaging | internal/handler/music.go:143-181 | two tracks, the second a favourite, page size one: page one is empty although the total says two |
| MusicListing.CorrectedListingShowsEveryFavourite | internal/handler/music.go:112-190 | with the favourite condition applied before paging, the total counts the favourites, a page is empty exactly past the last, and every matching favourite appears on its page |
| MusicListing.CorrectedFindsTheFavourite | internal/handler/music.go:143-181 | the same two tracks under the corrected listing show the favourite on page one |
| MusicScan.FilesMembership | internal/handler/music.go:338-348 | a path is counted as found exactly when the walk reports it as an accessible file |
| MusicScan.ImportedMembership | internal/handler/music.go:343-385 | an entry is imported exactly when it is an accessible new audio file that opens and probes |
| MusicScan.PrunedMembership | internal/handler/music.go:633-638 | a stored path is removed exactly when the walk did not find it and its deletion succeeds |
| MusicScan.Scanner.constructor | internal/handler/music.go:324-335 | the known paths are the stored file URLs; every cache, counter and list starts empty |
| MusicScan.Scanner.Visit | internal/handler/music.go:338-626 | one walk step: a file is counted and found, and exactly a new openable audio file is imported, with a track built from its path, tags and album; this is the corrected step of its "## Findings" row, which also imports a file whose tags cannot be read |
| MusicScan.Scanner.ImportFile | internal/handler/music.go:503-624 | the album is resolved through the cache, the track takes the tags with their defaults, and it is added exactly when the insert succeeds |
| MusicScan.Scanner.BuildTrack | internal/handler/music.go:570-618 | the new track describes its entry in the modelled columns (its path, the tag fields with their defaults, the suffix, the inferred genre) and belongs to the given album |
| MusicScan.Scanner.Insert | internal/handler/music.go:620-624 | a created track is appended to the created rows and counted in `Added`; nothing else changes |
| MusicScan.Scanner.ResolveAlbum | internal/handler/music.go:506-568 | the album id of a track: a cached key gives its album; otherwise the stored album or a newly created one, which enters the cache; a failed creation or query gives no album |
| MusicScan.Scanner.Walk | internal/handler/music.go:338-626 | over the whole walk, the count and the found set are the files, the imports are the new audio files, each track describes its entry, and tracks of the same album key share one album id |
| MusicScan.Scanner.WalkOne | internal/handler/music.go:338-626 | one visit of the walk keeps the walk's invariant: the counts, the found paths, the created rows and the album cache describe one more entry |
| MusicScan.Scanner.Prune | internal/handler/music.go:632-639 | the stored paths not found are deleted in order, and the removed count is their number |
| MusicScan.CacheGrows | internal/handler/music.go:519-567 | recording an album in the cache never forgets a cached key |
| MusicScan.AlbumStep | internal/handler/music.go:515-567 | importing one more track keeps the cache consistent with the imported tracks and keeps one album id per album key |
| MusicScan.StepImports | internal/handler/music.go:570-624 | an imported track keeps the scan invariant |
| MusicScan.StepSkips | internal/handler/music.go:338-385 | a skipped entry keeps the scan invariant |
| MusicScan.Scan | internal/handler/music.go:292-642 | a failed lookup or creation of the `SYSTEM` user rolls the transaction back with nothing counted, created or deleted, and the user is created exactly when missing and creatable; otherwise the result counts the files scanned, the tracks added and the paths removed, the created tracks describe the imported entries and share album ids per album key, and the deleted paths are the unseen stored ones |
| MusicScan.ImportedSnoc | internal/handler/music.go:338-385 | one more walk entry adds itself to the imports exactly when it is imported |
| MusicScan.FilesSnoc | internal/handler/music.go:343-348 | one more walk entry adds its path to the files exactly when it is a file |
| MusicScan.PrunedIffUnseen | internal/handler/music.go:633-634 | when deletion never fails, a stored path is removed exactly when no file of the walk has that path |
| MusicScan.ImportedAreNewAudio | internal/handler/music.go:343-356 | an imported entry is a supported audio file, not a directory, and was not stored before |
| MusicScan.GenreArgAsWritten | internal/handler/music.go:618 | as written, the genre argument is read from the tag reader even when the tag read failed: a file without readable tags panics with a nil dereference, any other gives its genre tag |
| MusicScan.UntaggedTrackFits | internal/handler/music.go:599-618 | with the genre read guarded like the other tags, a file without readable tags gets exactly the track titled by its file name, by `未知艺术家` on both artist fields, in no album, of genre `Unknown` |
| MusicScan.UntaggedGenres | internal/handler/music.go:821-847 | with no genre tag, no album and no album name the only genre left is `Unknown` |
| MusicScan.UntaggedFileCrashesScan | internal/handler/music.go:366-369 | a new audio file `dir/stem.e` that opens and probes without readable tags reaches the nil dereference as written, and is imported as `stem` by `未知艺术家` of genre `Unknown` when corrected |
| MusicScan.ExampleUntaggedFile | internal/handler/music.go:786-795 | `music/x.MP3` is such a file: a supported audio type with a plain stem and extension |
| PlaylistHandler.Toggle | internal/handler/playlist.go:168-205 | the pair is present afterwards exactly when it was absent before, and every other pair is unchanged |
| PlaylistHandler.ToggleTwice | internal/handler/playlist.go:168-205 | toggling a pair twice restores the association table |
| PlaylistHandler.LikeCountAsWritten | internal/handler/playlist.go:179-193 | as written the like count drops by exactly one whether the call removed the pair or added it |
| PlaylistHandler.AsWrittenAddLowersLikes | internal/handler/playlist.go:192-196 | as written, adding a track lowers its like count, and an add followed by a removal loses two likes |
| PlaylistHandler.LikeCountCorrected | internal/handler/playlist.go:178-196 | a removal lowers the count and an addition raises it |
| PlaylistHandler.CorrectedToggleRestoresLikes | internal/handler/playlist.go:178-196 | with the corrected count, an addition and a removal of the same pair cancel out |
| PlaylistHandler.FirstFavourites | internal/handler/playlist.go:287-288 | the index of the first playlist named `我的喜爱` owned by the user, and none exactly when no such playlist exists |
| PlaylistHandler.FirstFavouritesSnoc | internal/handler/playlist.go:287-288 | a playlist added at the end becomes the first favourites playlist only when there was none before |
| PlaylistHandler.Matching | internal/handler/playlist.go:102-107 | the search keeps exactly the playlists whose name is `LIKE %q%` (case-insensitive for ASCII, the text's own `%` and `_` acting as wildcards), all of them for an empty text |
| PlaylistHandler.MatchingEverything | internal/handler/playlist.go:104-107 | an empty search keeps every playlist, in order |
| PlaylistHandler.Store.constructor | internal/handler/playlist.go:20-23 | the store holds the given tables |
| PlaylistHandler.Store.CreatePlaylist | internal/handler/playlist.go:25-43 | an unparsable body, an empty name and a failed insert are errors that change nothing, in that order; the insert fails with the driver's text appended to the message, a taken id giving SQLite's unique-key text; otherwise the new playlist is appended and returned |
| PlaylistHandler.Store.ListPlaylists | internal/handler/playlist.go:94-127 | a failed count and a failed fetch are errors; a zero page size after both is the integer-division panic; otherwise the matching count, the pages rounded up and the page's window of matching playlists |
| PlaylistHandler.Store.AddMusicToPlaylist | internal/handler/playlist.go:130-214 | an unparsable body, a failed query, a missing track or playlist and a failed association count are errors that change nothing; otherwise the pair is toggled, the reply says which way and the like count moves by the corrected rule, unless a write fails: a failed delete or a failed count before the insert changes nothing, a failed count after the delete leaves the pair removed, and a failed insert leaves the count raised (corrected; see "## Findings") |
| PlaylistHandler.Store.AddToFavoritePlaylist | internal/handler/playlist.go:259-364 | an unauthenticated user, an unparsable body, a failed query and a missing track are errors; the user's first favourites playlist is used, or created unless the insert fails (a taken id gives SQLite's unique-key message); a failed association count, delete or insert is an error that keeps a created playlist but no association change; otherwise the pair is toggled, the reply says whether the track is now a favourite, and like counts never change |
| PlaylistHandler.AddTwice | internal/handler/playlist.go:130-214 | two successful toggles of the same pair give opposite actions and restore the associations and the like count |
| PlaylistHandler.FavouriteTwice | internal/handler/playlist.go:259-364 | two successful favourite toggles give opposite states and restore the associations |
| AlbumHandler.MergeProperties | internal/handler/album.go:77-92 | an update that fills nothing in changes nothing, applying it twice equals applying it once, and the id and genre are never touched |
| AlbumHandler.Merge | internal/handler/album.go:77-92 | an update keeps the id and genre, takes each non-empty text field and a present release date from the request, and keeps the stored value of every field the request leaves empty |
| AlbumHandler.Apply | internal/handler/album.go:92 | applying the update map keeps the id and genre and every column the map does not name, so an empty map changes nothing |
| AlbumHandler.FirstWithId | internal/handler/album.go:53 | the first row with the id, and none exactly when no row has it |
| AlbumHandler.Matches | internal/handler/album.go:119-124 | an empty search keeps every album; for a text without wildcards an album is kept exactly when its name or artist contains the text up to ASCII case |
| AlbumHandler.Matching | internal/handler/album.go:119-124 | the search keeps exactly the albums whose name or artist is `LIKE %q%`, in the SQLite sense of the operator |
| AlbumHandler.Store.constructor | internal/handler/album.go:18-20 | the store holds the given album table |
| AlbumHandler.Store.CreateAlbum | internal/handler/album.go:23-45 | an unparsable body, an empty name and a failed insert are errors that change nothing, in that order; the insert fails with the driver's text appended to the message, a taken id giving SQLite's unique-key text; otherwise the album built from the request is appended and returned |
| AlbumHandler.Store.GetAlbum | internal/handler/album.go:48-61 | a failed query and a missing id are errors; otherwise a stored album with that id |
| AlbumHandler.Store.UpdateAlbum | internal/handler/album.go:64-97 | any failure of the lookup, whether the row is missing or the query fails, answers that the album does not exist; then an unparsable body and a failed write are errors; every error changes nothing; otherwise the stored row takes the request's non-empty fields and present date, and is returned |
| AlbumHandler.Store.ListAlbums | internal/handler/album.go:111-144 | a failed count and a failed fetch are errors; a zero page size after both is the integer-division panic; otherwise the matching count, the pages rounded up and the page's window of matching albums |
| FileUtil.SiblingName | internal/utils/FileUtil.go:29-30 | the lyrics file name ends in the suffix, and what precedes the suffix, followed by the music file's extension, is the music file's base name |
| FileUtil.LyricsDir | internal/utils/FileUtil.go:20-23 | the lyrics directory is never empty and is rooted exactly when the track's directory is |
| FileUtil.AbsolutePath | internal/utils/FileUtil.go:29-31 | the file's path is never empty and is rooted exactly when the track's directory is |
| FileUtil.RelativePath | internal/utils/FileUtil.go:41 | the returned path is never empty and is rooted only for a track in the root directory itself |
| FileUtil.LyricsAndTranslationNamesDiffer | internal/utils/FileUtil.go:30-65 | the lyrics file and the translation file of one track never share a name |
| FileUtil.SiblingNamesAreLrc | internal/utils/FileUtil.go:30-65 | both the `.lrc` and the `.zh.lrc` names have the extension `.lrc` |
| FileUtil.Disk.constructor | internal/utils/FileUtil.go:14-78 | the disk holds the given directories and files |
| FileUtil.Disk.MkdirAll | internal/utils/FileUtil.go:24 | a successful call adds the directory, a failed one changes nothing; files are untouched |
| FileUtil.Disk.WriteFile | internal/utils/FileUtil.go:34 | a successful write sets the file's content, a failed one changes nothing; directories are untouched |
| FileUtil.Disk.SaveBeside | internal/utils/FileUtil.go:14-43 | empty content does nothing; a failed mkdir or write returns its error and writes nothing; otherwise the `lyrics` directory exists, the file holds the content and the relative path is returned |
| FileUtil.Disk.SaveLyricsToFile | internal/utils/FileUtil.go:14-43 | the lyrics are saved as `<stem>.lrc` in the `lyrics` directory beside the track; a failed step returns the source's message prefix, without the wrapped OS error, and the directory set is the one that step left |
| FileUtil.Disk.SaveTranslationLyricsToFile | internal/utils/FileUtil.go:49-78 | the translation is saved as `<stem>.zh.lrc` in the same directory; a failed step returns the source's message prefix, without the wrapped OS error, and the directory set is the one that step left |
| LyricsDisplay.DigitRunEnd | frontend/src/components/common/LyricsDisplay.jsx:15 | the greedy `\d` run from a position: all digits up to the returned index, and no digit at it |
| LyricsDisplay.FractionAt | frontend/src/components/common/LyricsDisplay.jsx:15-30 | after an optional dot, three digits or two digits padded to three, then `]`; a fraction is below 1000 milliseconds and ends inside the text |
| LyricsDisplay.DecimalBound | frontend/src/components/common/LyricsDisplay.jsx:28-30 | a numeral of n digits is below 10 to the n |
| LyricsDisplay.TagAt | frontend/src/components/common/LyricsDisplay.jsx:15 | a tag match starting at a position ends after it and inside the text |
| LyricsDisplay.TagTimes | frontend/src/components/common/LyricsDisplay.jsx:15-21 | the times of the tags found left to right without overlap; each tag takes at least the seven characters of `[mm:ss]`, so a line of length L holds at most L/7 of them |
| LyricsDisplay.StripTags | frontend/src/components/common/LyricsDisplay.jsx:24 | the line with every tag removed is never longer than the line |
| LyricsDisplay.LineEntries | frontend/src/components/common/LyricsDisplay.jsx:17-36 | blank and ID-tag lines give no entry; a line with text left after removing its tags gives one entry per tag, in tag order with the tag's time, each with that trimmed text |
| LyricsDisplay.Entries | frontend/src/components/common/LyricsDisplay.jsx:12-37 | the entries of all lines in line order; every entry has a non-blank text |
| LyricsDisplay.InsertMultiset | frontend/src/components/common/LyricsDisplay.jsx:39 | insertion adds exactly the one line |
| LyricsDisplay.Insert | frontend/src/components/common/LyricsDisplay.jsx:39 | the insertion step of the stable sort makes the list one entry longer; `InsertMultiset` and `InsertSorted` state which entries it holds and that it keeps the order |
| LyricsDisplay.SortByTime | frontend/src/components/common/LyricsDisplay.jsx:39 | the sort keeps the number of entries; `SortByTimeProperties` adds order, permutation and stability |
| LyricsDisplay.InsertSorted | frontend/src/components/common/LyricsDisplay.jsx:39 | insertion into a time-ordered list keeps it ordered |
| LyricsDisplay.InsertAbove | frontend/src/components/common/LyricsDisplay.jsx:39 | insertion keeps a lower bound on the times |
| LyricsDisplay.ConsSorted | frontend/src/components/common/LyricsDisplay.jsx:39 | a line no later than an ordered rest heads an ordered list |
| LyricsDisplay.InsertWithTime | frontend/src/components/common/LyricsDisplay.jsx:39 | insertion puts a line after the lines of equal time, so the order among lines of one time is kept |
| LyricsDisplay.SortByTimeProperties | frontend/src/components/common/LyricsDisplay.jsx:39 | the stable sort by time gives an ordered permutation that keeps the order of the lines of each time |
| LyricsDisplay.ParsedLyrics | frontend/src/components/common/LyricsDisplay.jsx:39 | the parsed lines are ordered by time and are exactly the timed entries of the text, those of one time in their order in the text |
| LyricsDisplay.PushEntries | frontend/src/components/common/LyricsDisplay.jsx:27-36 | each tag of a line appends one line of the tag's time with the line's text, in tag order |
| LyricsDisplay.ParseLyrics | frontend/src/components/common/LyricsDisplay.jsx:10-40 | the parse is the entries of every kept line, sorted by time: ordered, a permutation of the unsorted entries, stable for equal times |
| LyricsDisplay.Field | frontend/src/components/common/LyricsDisplay.jsx:28-30 | a zero-padded numeral of at least the width that reads back as the number |
| LyricsDisplay.LeadingZeros | frontend/src/components/common/LyricsDisplay.jsx:28-30 | leading zeros do not change a numeral's value |
| LyricsDisplay.ShortNumeral | frontend/src/components/common/LyricsDisplay.jsx:28-30 | a number below 10 to the width has at most that many digits |
| LyricsDisplay.DigitRunEndAt | frontend/src/components/common/LyricsDisplay.jsx:15 | a digit run followed by a non-digit ends exactly there |
| LyricsDisplay.TagOfFields | frontend/src/components/common/LyricsDisplay.jsx:15-33 | a `[mm:ss.fff]` tag at the start reads as the minutes, seconds and milliseconds it spells |
| LyricsDisplay.SplitMilliseconds | frontend/src/components/common/LyricsDisplay.jsx:33 | minutes, seconds and milliseconds of a time add back to the time |
| LyricsDisplay.FormatTag | frontend/src/components/common/LyricsDisplay.jsx:15-33 | the tag of a time is at least `[mm:ss.xxx]` long, opens with `[` and closes with `]`; `FormatTagRoundTrip` reads it back |
| LyricsDisplay.TagTextRead | frontend/src/components/common/LyricsDisplay.jsx:15-33 | a tag written from fields in range is read back as its time, ending at its `]` |
| LyricsDisplay.FormatTagRoundTrip | frontend/src/components/common/LyricsDisplay.jsx:15-33 | any time written as a tag is read back as the same time |
| LyricsDisplay.NoTagsWithoutBracket | frontend/src/components/common/LyricsDisplay.jsx:21-24 | text without `[` carries no tags and is left as it is by the tag removal |
| LyricsDisplay.DigitTagNotMetadata | frontend/src/components/common/LyricsDisplay.jsx:19 | a line whose bracket starts with a digit is not an ID tag line |
| LyricsDisplay.FormattedLineEntries | frontend/src/components/common/LyricsDisplay.jsx:17-36 | a line written as a tag and a text without brackets yields exactly one timed line with the trimmed text |
| LyricsDisplay.OneDigitFractionDropped | frontend/src/components/common/LyricsDisplay.jsx:15-22 | a tag with a one-digit fraction is not a tag, so the line yields nothing |
| LyricsDisplay.FractionWithoutDot | frontend/src/components/common/LyricsDisplay.jsx:15 | the dot is optional: `[00:0150]` reads as 1.5 seconds |
| LyricsDisplay.MetadataLineDropped | frontend/src/components/common/LyricsDisplay.jsx:19 | an ID tag line is skipped whatever the case of its key |
| LyricsDisplay.StartedPrefix | frontend/src/components/common/LyricsDisplay.jsx:53-57 | the number of leading lines that have started by the current time |
| LyricsDisplay.LocateLine | frontend/src/components/common/LyricsDisplay.jsx:50-60 | the locating loop returns the last line of the started prefix, or -1 |
| LyricsDisplay.StartedPrefixIs | frontend/src/components/common/LyricsDisplay.jsx:53-57 | the started prefix is the unique split between started and unstarted lines |
| LyricsDisplay.ActiveIndexSorted | frontend/src/components/common/LyricsDisplay.jsx:53-57 | on ordered lines, every line up to the active one has started and none after it has |
| LyricsDisplay.ActiveIndex | frontend/src/components/common/LyricsDisplay.jsx:53-57 | the highlighted index is -1 or a line index, every line up to it has started, and the line after it has not |
| LyricsDisplay.ActiveIndexMonotone | frontend/src/components/common/LyricsDisplay.jsx:53-57 | a later playback time never moves the active line back |
| LyricsDisplay.TiedLinesHighlightLast | frontend/src/components/common/LyricsDisplay.jsx:53-57 | of two lines of the same time, the later one is the active line |
| LyricsDisplay.LyricsView.constructor | frontend/src/components/common/LyricsDisplay.jsx:4-5 | no lines, and no active line |
| LyricsDisplay.LyricsView.SetLyrics | frontend/src/components/common/LyricsDisplay.jsx:43-60 | new lyrics are parsed, and the active line is located in them unless there are none |
| LyricsDisplay.LyricsView.Tick | frontend/src/components/common/LyricsDisplay.jsx:50-60 | a new playback time relocates the active line, unless there are no lines |
| LyricsDisplay.ScrollTarget | frontend/src/components/common/LyricsDisplay.jsx:63-88 | no container does nothing, no active line scrolls to the top; otherwise the target centres the active line, clamped to the scroll range |
| LyricsDisplay.LineOpacity | frontend/src/components/common/LyricsDisplay.jsx:127-132 | full opacity exactly on the active line, 75% exactly one line away on either side, 45% exactly two away, and 25% for every line further off |
| LyricsDisplay.OpacityFades | frontend/src/components/common/LyricsDisplay.jsx:127-132 | lines further from the active one are never brighter |
| LyricsDisplay.LineScale | frontend/src/components/common/LyricsDisplay.jsx:150 | the active line is scaled to 125%, every other line to 100% |
| LyricsEditModal.HasStampFromIff | frontend/src/components/common/LyricsEditModal.jsx:34 | a timestamp is found from a position exactly when one starts at or after it |
| LyricsEditModal.MetaScanIff | frontend/src/components/common/LyricsEditModal.jsx:36 | the scan for `^\[.*:.*\]` succeeds exactly when a `]` follows a colon on the first line |
| LyricsEditModal.ScanEndLater | frontend/src/components/common/LyricsEditModal.jsx:36 | a match found from a position does not cross a line end and continues from the next position |
| LyricsEditModal.ScanEndEarlier | frontend/src/components/common/LyricsEditModal.jsx:36 | a match from the next position extends back over a character that is not a line end |
| LyricsEditModal.IsBracketMetadataIff | frontend/src/components/common/LyricsEditModal.jsx:36 | the scanning test agrees with the pattern: `[`, then a colon and a later `]` on the same line |
| LyricsEditModal.KeptLines | frontend/src/components/common/LyricsEditModal.jsx:27-42 | the kept lines are exactly the input lines that pass the filter, none added; a single line is kept exactly when it passes |
| LyricsEditModal.KeptLinesAppend | frontend/src/components/common/LyricsEditModal.jsx:27-42 | the filter of two runs of lines is the concatenation of their filters, so order and repeated lines are kept |
| LyricsEditModal.KeepLine | frontend/src/components/common/LyricsEditModal.jsx:28-42 | a kept line is never blank; a line without `:` or with a `[dd:dd.dd]` timestamp is kept exactly when it is not blank |
| LyricsEditModal.KeptLinesNotBlank | frontend/src/components/common/LyricsEditModal.jsx:29-31 | every kept line has a character that is not white space |
| LyricsEditModal.StampLineKept | frontend/src/components/common/LyricsEditModal.jsx:34 | a line with a full timestamp is kept |
| LyricsEditModal.StampedLineHasStamp | frontend/src/components/common/LyricsEditModal.jsx:34 | `[00:12.34]x` carries a timestamp |
| LyricsEditModal.FractionlessTagLineDropped | frontend/src/components/common/LyricsEditModal.jsx:34-38 | a `[mm:ss]` line without fraction counts as metadata and is dropped |
| LyricsEditModal.FractionlessTagNoStamp | frontend/src/components/common/LyricsEditModal.jsx:34 | `[00:12]x` carries no timestamp |
| LyricsEditModal.FractionlessTagMetadata | frontend/src/components/common/LyricsEditModal.jsx:36 | `[00:12]x` has the metadata shape |
| LyricsEditModal.TitleTagDropped | frontend/src/components/common/LyricsEditModal.jsx:34-38 | an ID tag line such as `[ti:Song]` is dropped |
| LyricsEditModal.TitleTagNoStamp | frontend/src/components/common/LyricsEditModal.jsx:34 | `[ti:Song]` carries no timestamp |
| LyricsEditModal.TitleTagMetadata | frontend/src/components/common/LyricsEditModal.jsx:36 | `[ti:Song]` has the metadata shape |
| LyricsEditModal.CreditLineKept | frontend/src/components/common/LyricsEditModal.jsx:34-41 | a credit line with a colon but no brackets is kept |
| LyricsEditModal.ExpandEscapes | frontend/src/components/common/LyricsEditModal.jsx:45 | turning each backslash-`n` pair into a newline never makes the text longer |
| LyricsEditModal.NoEscapeLeft | frontend/src/components/common/LyricsEditModal.jsx:45 | after the expansion no backslash-`n` pair is left |
| LyricsEditModal.ExpandWithoutEscapes | frontend/src/components/common/LyricsEditModal.jsx:45 | a text without a backslash-`n` pair is unchanged |
| LyricsEditModal.BreakTagsHead | frontend/src/components/common/LyricsEditModal.jsx:48 | the tag break keeps the first character |
| LyricsEditModal.BreakTagsSpacePrefix | frontend/src/components/common/LyricsEditModal.jsx:48 | white space before any `]` passes through the tag break unchanged |
| LyricsEditModal.BreakTagsNoNewMatch | frontend/src/components/common/LyricsEditModal.jsx:48 | a `[` after only white space in the output was there in the input |
| LyricsEditModal.BrokenTail | frontend/src/components/common/LyricsEditModal.jsx:48 | in a broken text, a `]` then white space then `[` is exactly `]\n[` |
| LyricsEditModal.BrokenAfterMatch | frontend/src/components/common/LyricsEditModal.jsx:48 | a replaced match followed by a broken text is broken |
| LyricsEditModal.BrokenAfterCopy | frontend/src/components/common/LyricsEditModal.jsx:48 | a copied character that is not `]` keeps a broken text broken |
| LyricsEditModal.BrokenAfterLoneBracket | frontend/src/components/common/LyricsEditModal.jsx:48 | a `]` not followed by white space and `[` keeps a broken text broken |
| LyricsEditModal.BreakTagsBroken | frontend/src/components/common/LyricsEditModal.jsx:48 | after the tag break every `]` followed by white space and `[` is followed by exactly one newline and the `[` |
| LyricsEditModal.SkipStartAt | frontend/src/components/common/LyricsEditModal.jsx:48 | the white-space skip stops at the first character that is not white space |
| LyricsEditModal.BreakTagsWithoutBracket | frontend/src/components/common/LyricsEditModal.jsx:48 | a text without `]` is unchanged by the tag break |
| LyricsEditModal.BreakTags | frontend/src/components/common/LyricsEditModal.jsx:48 | `]`, white space, `[` becomes `]\n[`; text without `[` is left unchanged |
| LyricsEditModal.NoTripleAfterRun | frontend/src/components/common/LyricsEditModal.jsx:51 | at most two newlines before a text without three newlines, that does not start with one, make no run of three |
| LyricsEditModal.CollapseAtRun | frontend/src/components/common/LyricsEditModal.jsx:51 | at a maximal run of newlines the collapse emits two newlines for a run of three or more and the run itself otherwise, then goes on after the run |
| LyricsEditModal.CollapseRun | frontend/src/components/common/LyricsEditModal.jsx:51 | a whole run of three or more newlines becomes exactly two, so one blank line is kept |
| LyricsEditModal.CollapseShortRun | frontend/src/components/common/LyricsEditModal.jsx:51 | a run of one or two newlines is left as it is |
| LyricsEditModal.CollapseNewlines | frontend/src/components/common/LyricsEditModal.jsx:51 | runs of three or more newlines become two, so the text never grows and is empty exactly when it was |
| LyricsEditModal.CollapseNoTriple | frontend/src/components/common/LyricsEditModal.jsx:51 | after the collapse no three newlines follow each other |
| LyricsEditModal.CollapseWithoutTriple | frontend/src/components/common/LyricsEditModal.jsx:51 | a text without three newlines in a row is unchanged by the collapse |
| LyricsEditModal.WithoutNewlines | frontend/src/components/common/LyricsEditModal.jsx:51 | the text with its newlines removed has none |
| LyricsEditModal.WithoutNewlinesConcat | frontend/src/components/common/LyricsEditModal.jsx:51 | removing newlines works on each part of a text separately |
| LyricsEditModal.WithoutNewlinesOfRun | frontend/src/components/common/LyricsEditModal.jsx:51 | a run of newlines removes to nothing |
| LyricsEditModal.CollapseOnlyRemovesNewlines | frontend/src/components/common/LyricsEditModal.jsx:51 | the collapse removes newlines and nothing else |
| LyricsEditModal.NoTripleSlice | frontend/src/components/common/LyricsEditModal.jsx:53 | a slice of a text without three newlines in a row has none either |
| LyricsEditModal.FormatLyrics | frontend/src/components/common/LyricsEditModal.jsx:23-54 | empty text formats to empty; the result starts and ends with no white space and has no three newlines in a row |
| LyricsEditModal.KeptLinesIdempotent | frontend/src/components/common/LyricsEditModal.jsx:28-42 | filtering lines that already passed the filter keeps every one of them |
| LyricsEditModal.FormatLyricsOfKeptLines | frontend/src/components/common/LyricsEditModal.jsx:23-53 | the formatted text depends only on the kept lines: none kept gives the empty text, and otherwise formatting the kept lines alone, joined by newlines, gives the same text |
| LyricsEditModal.NonBlankCount | frontend/src/components/common/LyricsEditModal.jsx:203 | the count of non-blank lines, zero exactly when every line is blank |
| LyricsEditModal.AllSpaceConcat | frontend/src/components/common/LyricsEditModal.jsx:203 | a concatenation is blank exactly when both parts are |
| LyricsEditModal.AllSpaceJoin | frontend/src/components/common/LyricsEditModal.jsx:203 | lines joined by newlines are blank exactly when every line is |
| LyricsEditModal.LineCount | frontend/src/components/common/LyricsEditModal.jsx:203 | the footer counts at most one line per newline-separated part, and no lines exactly when the text trims to nothing |
| LyricsEditModal.Open | frontend/src/components/common/LyricsEditModal.jsx:12-20 | opening formats both current texts (missing ones as empty), clears the error and keeps the tab |
| LyricsEditModal.FormatActive | frontend/src/components/common/LyricsEditModal.jsx:56-64 | the format button formats the active tab's text and leaves the other text and the error alone |
| LyricsEditModal.HandleSave | frontend/src/components/common/LyricsEditModal.jsx:66-92 | the save with `api.lyrics.saveLyrics`: no music id, nothing sent and the incomplete-music error; otherwise the lyrics first, the translation only when non-empty and the lyrics saved; closes exactly when every request succeeded, else the retry message (corrected; see "## Findings") |
| LyricsEditModal.HandleSaveAsWritten | frontend/src/components/common/LyricsEditModal.jsx:66-92 | the save as written sends no request for any track and always ends with an error: the incomplete-music one without an id, the retry message with one |
| LyricsEditModal.SaveAlwaysFails | frontend/src/components/common/LyricsEditModal.jsx:77 | for every track id the save as written stays open with the retry message, whereas the corrected one, with the server accepting, sends the lyrics and closes |
| PlayerContext.At | frontend/src/contexts/PlayerContext.jsx:145 | `playlist[index]`: a track exactly for an index inside the list, and then the track at it |
| PlayerContext.FindIndex | frontend/src/contexts/PlayerContext.jsx:158 | `findIndex`: the first position with the id, or -1 when no track has it |
| PlayerContext.NextMode | frontend/src/contexts/PlayerContext.jsx:246-259 | the mode button always gives a known mode, a different one for a known mode, and `loop` for an unknown one |
| PlayerContext.NextModeCycle | frontend/src/contexts/PlayerContext.jsx:246-259 | three presses of the mode button return to the mode one started from |
| PlayerContext.LoopStepsInverse | frontend/src/contexts/PlayerContext.jsx:200-231 | in loop mode the next and previous steps stay in the list and undo each other |
| PlayerContext.LoopNextValue | frontend/src/contexts/PlayerContext.jsx:200 | the loop step is the next position, wrapping to the first after the last |
| PlayerContext.LoopNext | frontend/src/contexts/PlayerContext.jsx:200 | loop mode forward stays inside the list from any index at or after -1 |
| PlayerContext.LoopPrevious | frontend/src/contexts/PlayerContext.jsx:231 | loop mode backward stays inside the list, and one step forward from its result is the index it started from |
| PlayerContext.Removed | frontend/src/contexts/PlayerContext.jsx:271 | removing an index inside the list drops exactly that track and keeps the order of the others; any other index changes nothing |
| PlayerContext.RemovalKeepsCurrent | frontend/src/contexts/PlayerContext.jsx:270-289 | removing another track keeps the current track current; removing the current one moves to its successor, or its predecessor at the end |
| PlayerContext.ShuffleDraw | frontend/src/contexts/PlayerContext.jsx:185-190 | the shuffle draw gives a position in the list, other than the current one when there are two or more tracks |
| PlayerContext.RemovalValid | frontend/src/contexts/PlayerContext.jsx:270-289 | removing a track keeps the queue consistent: the current index is -1 or in the list, and the current music is the track at it |
| PlayerContext.IndexAfterRemoval | frontend/src/contexts/PlayerContext.jsx:274-288 | after a removal the current index is -1 when the list is now empty and inside the shorter list otherwise |
| PlayerContext.MusicAfterRemoval | frontend/src/contexts/PlayerContext.jsx:274-288 | removing another track keeps the current track; removing the current one leaves no current track exactly when it was the only one |
| PlayerContext.Player.constructor | frontend/src/contexts/PlayerContext.jsx:14-27 | nothing playing, `loop` mode, an empty list, index -1, time and duration 0, full volume, not muted |
| PlayerContext.Player.PlayMusicAtIndex | frontend/src/contexts/PlayerContext.jsx:144-150 | an index inside the list plays that track; any other index changes nothing |
| PlayerContext.Player.PlayMusic | frontend/src/contexts/PlayerContext.jsx:153-166 | the track plays; a track not in the list is appended and becomes current, a listed one becomes current where it is |
| PlayerContext.Player.SetPlaylistAndPlay | frontend/src/contexts/PlayerContext.jsx:169-176 | a non-empty list replaces the queue and plays from the start index, 0 when none is given; an empty one changes nothing |
| PlayerContext.Player.NextIndex | frontend/src/contexts/PlayerContext.jsx:182-202 | the next position: a different random one in shuffle mode, the same in single mode, the following one with wrap-around otherwise |
| PlayerContext.Player.PreviousIndex | frontend/src/contexts/PlayerContext.jsx:213-233 | the previous position: a different random one in shuffle mode, the same in single mode, the preceding one with wrap-around otherwise |
| PlayerContext.Player.PlayNext | frontend/src/contexts/PlayerContext.jsx:179-207 | nothing for an empty list; otherwise the next position by mode becomes current and plays, the list and mode unchanged |
| PlayerContext.Player.PlayPrevious | frontend/src/contexts/PlayerContext.jsx:210-238 | nothing for an empty list; otherwise the previous position by mode becomes current and plays, the list and mode unchanged |
| PlayerContext.Player.TogglePlay | frontend/src/contexts/PlayerContext.jsx:241-243 | playing flips; the queue, the current track, the play mode and the sound state are unchanged |
| PlayerContext.Player.TogglePlayMode | frontend/src/contexts/PlayerContext.jsx:246-259 | the mode moves to the next one; the queue, the current track, the playing flag and the sound state are unchanged |
| PlayerContext.Player.ClearPlaylist | frontend/src/contexts/PlayerContext.jsx:262-267 | the list is emptied, nothing is current and nothing plays |
| PlayerContext.Player.RemoveFromPlaylist | frontend/src/contexts/PlayerContext.jsx:270-289 | the track is removed, the current index and music follow it, playing stops only when the current and last track is removed, and the queue stays consistent |
| PlayerContext.Player.SeekTo | frontend/src/contexts/PlayerContext.jsx:69-74 | with an audio element, both the element's and the shown time become the target; without one nothing changes |
| PlayerContext.Player.ChangeVolume | frontend/src/contexts/PlayerContext.jsx:77-87 | the volume is set (on the element too, when there is one) and muted exactly when it is zero |
| PlayerContext.Player.ToggleMute | frontend/src/contexts/PlayerContext.jsx:90-99 | unmuting restores the volume, or one half when it was zero; muting silences the element and keeps the volume |
| PlayerContext.Player.HandleEnded | frontend/src/contexts/PlayerContext.jsx:57-66 | single mode rewinds the element to the start and changes nothing else, neither the queue nor the shown time, duration, volume or mute; any other mode plays the next one: the loop's successor, or in shuffle another index in range whenever there are two tracks or more; an empty queue stays as it is |
| PlayerContext.Player.HandleTimeUpdate | frontend/src/contexts/PlayerContext.jsx:45-49 | the shown time follows the audio element's position, when there is an element, and nothing else changes |
| PlayerContext.Player.HandleLoadedMetadata | frontend/src/contexts/PlayerContext.jsx:51-55 | the duration follows the audio element's length, when there is an element, and nothing else changes |
| PlayerContext.Player.OnMusicChanged | frontend/src/contexts/PlayerContext.jsx:102-117 | a new track with an audio element restarts from zero and keeps playing only if playback starts |
| PlayerContext.Player.OnPlayingChanged | frontend/src/contexts/PlayerContext.jsx:118-133 | with an element, the playing flag stays set only when `play()` succeeds, and a cleared flag stays cleared; without one nothing changes; the track, the queue and the sound state are never touched |
| PlayerContext.MuteRoundTrip | frontend/src/contexts/PlayerContext.jsx:90-99 | muting and unmuting a non-zero volume restores it |
| UserStore.TokenText | frontend/src/utils/store.js:29 | `setItem` stores the token's text, and a missing token as `null` |
| UserStore.RoleOf | frontend/src/utils/store.js:49 | the user's role exactly when there is a user with a non-empty role |
| UserStore.Store.constructor | frontend/src/utils/store.js:76-82 | the user and the token are those of the persisted snapshot, or empty without one; not signed in either way, and the store agrees with what it persists |
| UserStore.Reload | frontend/src/utils/store.js:76-82 | a reload brings back the user and the token the store last persisted, with the authenticated flag, which is not persisted, false |
| UserStore.Store.SetUser | frontend/src/utils/store.js:14 | the user is set and signed in exactly when there is one; token and storage unchanged |
| UserStore.Store.SetToken | frontend/src/utils/store.js:17-24 | the token is set, signed in exactly when it is non-empty, stored then and removed from storage otherwise |
| UserStore.Store.Login | frontend/src/utils/store.js:27-31 | user and token are set and signed in; storage holds the token and the serialised user |
| UserStore.Store.Logout | frontend/src/utils/store.js:34-38 | user and token are cleared, signed out, and both storage keys removed |
| UserStore.Store.UpdateUser | frontend/src/utils/store.js:41-45 | the new user has every field of the updates, and the old user's other fields; the serialised user is stored |
| UserStore.Store.GetRole | frontend/src/utils/store.js:48-50 | the user's role, or `guest` when there is none; never empty |
| UserStore.Store.IsAdmin | frontend/src/utils/store.js:53-55 | an administrator exactly when the user's role is `admin` |
| UserStore.Store.AdminRoleAgrees | frontend/src/utils/store.js:48-55 | the administrator test agrees with the role getter |
| UserStore.Store.CheckAuth | frontend/src/utils/store.js:58-74 | without a stored token and user nothing changes and the result is false; a parsable user restores the session; an unparsable one signs out |
| UserStore.LoginThenCheckAuth | frontend/src/utils/store.js:27-74 | a session saved by login is restored by the check |
| UserStore.LogoutThenCheckAuth | frontend/src/utils/store.js:34-74 | after logout the check finds no session |
| LoginForm.SetField | frontend/src/components/login/Login.jsx:20-27 | a change sets exactly the named field, and an unknown name changes nothing |
| LoginForm.EmailPatternIff | frontend/src/components/login/Login.jsx:40 | the scanning e-mail test agrees with `^[^\s@]+@[^\s@]+\.[^\s@]+$`: a non-empty local part, one `@`, a non-empty domain with a dot followed by a non-empty part, no white space |
| LoginForm.PatternGivesSplit | frontend/src/components/login/Login.jsx:40 | a text the scan accepts has the e-mail shape |
| LoginForm.SplitGivesPattern | frontend/src/components/login/Login.jsx:40 | a text of the e-mail shape is accepted by the scan |
| LoginForm.ShortEmailAccepted | frontend/src/components/login/Login.jsx:40 | `a@b.c` has the e-mail shape |
| LoginForm.SplitAllPlain | frontend/src/components/login/Login.jsx:40 | in an e-mail, every character but the `@` is neither white space nor `@` |
| LoginForm.EmailRejects | frontend/src/components/login/Login.jsx:40 | a text with white space or with two `@` is not an e-mail |
| LoginForm.FirstProblemNoneIff | frontend/src/components/login/Login.jsx:29-61 | the form passes exactly when the username is set, the password has six characters or more, and for registration the e-mail is valid and the passwords match |
| LoginForm.FirstProblem | frontend/src/components/login/Login.jsx:29-61 | the reported error is one of the six form messages, and signing in never reports the e-mail or repeated-password errors, which only registration checks |
| LoginForm.LoginIgnoresRegistrationFields | frontend/src/components/login/Login.jsx:35-58 | signing in does not look at the e-mail or the confirmation |
| LoginForm.UsernameFirst | frontend/src/components/login/Login.jsx:30-33 | a missing username is reported first, and only then |
| LoginForm.Login.constructor | frontend/src/components/login/Login.jsx:8-16 | sign-in mode, an empty form, no error, not loading |
| LoginForm.Login.HandleInputChange | frontend/src/components/login/Login.jsx:20-27 | the field is set and the error cleared |
| LoginForm.Login.SwitchMode | frontend/src/components/login/Login.jsx:107-116 | the mode flips, the form empties and the error clears |
| LoginForm.Login.ValidateForm | frontend/src/components/login/Login.jsx:29-61 | passes exactly when there is no problem; otherwise shows the first problem |
| LoginForm.Login.HandleSubmit | frontend/src/components/login/Login.jsx:63-105 | an invalid form sends nothing and leaves the store alone; otherwise the sign-in or registration request with the form's fields is sent, a reply with data signs in, and a failure shows its message or the fallback |
| UserForm.Coalesce | frontend/src/components/users/UserForm.jsx:16-19 | `a ?? b`: the first value when it is present, even empty, and the second otherwise |
| UserForm.InitialForm | frontend/src/components/users/UserForm.jsx:8-24 | the blank form without a user; for a user, the name or else the user name, the password only when given, the e-mail, the role or else `user`, and no status |
| UserForm.Incomplete | frontend/src/components/users/UserForm.jsx:35 | a form can be submitted exactly when both the user name and the e-mail are present and non-empty |
| UserForm.NewFormIncomplete | frontend/src/components/users/UserForm.jsx:8-35 | the blank form cannot be submitted as it is |
| UserForm.EditFormComplete | frontend/src/components/users/UserForm.jsx:13-35 | a loaded user with a name and an e-mail can be submitted as loaded |
| UserForm.Dialog.constructor | frontend/src/components/users/UserForm.jsx:10-11 | the blank form, not saving |
| UserForm.Dialog.Load | frontend/src/components/users/UserForm.jsx:13-24 | the form is reloaded from the user being edited, or blanked |
| UserForm.Dialog.HandleChange | frontend/src/components/users/UserForm.jsx:28-31 | the named field takes the value and every other field stays |
| UserForm.Dialog.HandleSubmit | frontend/src/components/users/UserForm.jsx:33-41 | exactly an incomplete form raises the alert and is not handed on; otherwise saving starts and the form is handed on unchanged |
| UserForm.Dialog.Settle | frontend/src/components/users/UserForm.jsx:40 | saving ends whatever the callback did |
| MusicManagement.Genres | frontend/src/components/musics/MusicManagement.jsx:153-161 | the genre list holds exactly the listed genres of the tracks, each once, in ascending order |
| MusicManagement.ListedGenres | frontend/src/components/musics/MusicManagement.jsx:155-158 | no listed genre is empty or `Unknown` |
| MusicManagement.ListedGenresIff | frontend/src/components/musics/MusicManagement.jsx:155-158 | a genre is listed exactly when some track has it, non-empty and not `Unknown` |
| MusicManagement.GenresDetermined | frontend/src/components/musics/MusicManagement.jsx:160 | two strictly ordered lists of the same genres are equal, so the genre list does not depend on the order of insertion |
| MusicManagement.Filtered | frontend/src/components/musics/MusicManagement.jsx:168-177 | `all` keeps every track; any other genre keeps exactly the tracks of that genre, never more than there were |
| MusicManagement.WithGenre | frontend/src/components/musics/MusicManagement.jsx:173 | the tracks of the genre, none added |
| MusicManagement.WithGenreAppend | frontend/src/components/musics/MusicManagement.jsx:173 | the genre filter keeps the order of the tracks |
| MusicManagement.StatsOf | frontend/src/components/musics/MusicManagement.jsx:184-191 | the count of the tracks, and the whole minutes and whole hours of their total duration, a missing duration counting as zero |
| MusicManagement.TotalSeconds | frontend/src/components/musics/MusicManagement.jsx:185 | the total duration, a missing duration counting 0, is not negative when no track's duration is |
| MusicManagement.HoursOfMinutes | frontend/src/components/musics/MusicManagement.jsx:188-189 | the whole hours are the whole hours of the whole minutes |
| MusicManagement.DurationLabel | frontend/src/components/musics/MusicManagement.jsx:484-486 | the total-time label always ends in `m` and shows an hours part exactly when there is at least one whole hour |
| MusicManagement.DurationLabelShowsMinutes | frontend/src/components/musics/MusicManagement.jsx:484-486 | the label shows hours and minutes left over once the total reaches an hour, and the minutes below |
| MusicManagement.FetchPlan | frontend/src/components/musics/MusicManagement.jsx:107-132 | page 1 of 100 in every case; favourites only and their heading for `liked`; the album-cards view exactly for the `undefined` filter, with no heading change and no album load; a chosen album lists and loads that album; anything else lists everything under the all-music heading |
| MusicManagement.Render | frontend/src/components/musics/MusicManagement.jsx:266-325 | no tracks give the empty state, whose message says nothing matches unless both the filter and the genre are `all`; otherwise the album cards exactly in the album-cards view |
| MusicManagement.AlbumCardsButtonShowsAlbums | frontend/src/components/musics/MusicManagement.jsx:353-357 | the 全部专辑 button sets the undefined filter, and the page then switches to the album cards whatever album was chosen, requesting the plain list and keeping its heading |
| MusicManagement.ChosenAlbumListsItsTracks | frontend/src/components/musics/MusicManagement.jsx:255-258 | choosing an album sets its id and the `null` filter, after which the page loads that album and lists its tracks |
| MusicManagement.Liked | frontend/src/components/musics/MusicManagement.jsx:205 | one like more, a missing count counting as zero; the other fields unchanged |
| MusicManagement.Page.constructor | frontend/src/components/musics/MusicManagement.jsx:40 | no tracks |
| MusicManagement.Page.ReceiveList | frontend/src/components/musics/MusicManagement.jsx:137-139 | a reply with data replaces the tracks, an absent list giving none; any other reply changes nothing |
| MusicManagement.Page.HandleLike | frontend/src/components/musics/MusicManagement.jsx:199-211 | once the like is accepted every track with the id counts one more and the rest stay; a failure changes nothing |
| MusicList.Pad2Digits | frontend/src/components/musics/MusicList.jsx:28 | a number below 100 is padded to exactly two digits that read back as the number |
| MusicList.Pad2 | frontend/src/components/musics/MusicList.jsx:28 | the padded numeral has at least two characters and ends with the numeral itself |
| MusicList.FormatDuration | frontend/src/components/musics/MusicList.jsx:24-29 | a missing or zero duration is `00:00`; a duration under 100 minutes is shown as `mm:ss` with seconds below 60, reading back as the duration |
| MusicList.Tracks | frontend/src/components/musics/MusicList.jsx:40-45 | the list handed to the player has one track per row, in order |
| MusicList.Flipped | frontend/src/components/musics/MusicList.jsx:59 | the favourite flag flips and nothing else changes |
| MusicList.Table.constructor | frontend/src/components/musics/MusicList.jsx:9 | the rows given, or none |
| MusicList.Table.Totals | frontend/src/components/musics/MusicList.jsx:78-79 | the summed durations and sizes, where a missing value adds nothing |
| MusicList.Table.HandleLike | frontend/src/components/musics/MusicList.jsx:50-66 | once the call is accepted, every row with the id flips its favourite flag and the others stay; a failure changes nothing |
| MusicList.Table.HandlePlay | frontend/src/components/musics/MusicList.jsx:38-41 | a non-empty list is handed to the player and plays from the clicked row; an empty one changes nothing |
| MusicList.Table.HandlePlayAll | frontend/src/components/musics/MusicList.jsx:43-47 | a non-empty list is handed to the player and plays from the first row; an empty one leaves the player alone |
| MusicList.LikeTwice | frontend/src/components/musics/MusicList.jsx:57-61 | two accepted likes of the same track restore the rows |
| MusicList.ShowAlbumColumn | frontend/src/components/musics/MusicList.jsx:190-240 | the album column is shown exactly when there is no album name |
| AlbumList.DatePart | frontend/src/components/album/AlbumList.jsx:77 | the text before the first `T`, or all of it: a prefix without `T`, followed by `T` when shorter |
| AlbumList.DatePartIdempotent | frontend/src/components/album/AlbumList.jsx:77 | cutting at `T` twice is cutting once |
| AlbumList.FormOf | frontend/src/components/album/AlbumList.jsx:73-78 | each field of the album or empty, and the release date without its time |
| AlbumList.TotalPages | frontend/src/components/album/AlbumList.jsx:160 | the ceiling of the total over the page size of 20: at least one page when there are albums, none when there are none |
| AlbumList.PagerShownIff | frontend/src/components/album/AlbumList.jsx:295-296 | the pager, drawn when the page count of line 160 exceeds one, is drawn exactly when there are more than 20 albums |
| AlbumList.Page.constructor | frontend/src/components/album/AlbumList.jsx:7-20 | no albums, page 1, no total, no search, the dialog closed with an empty form |
| AlbumList.Page.Params | frontend/src/components/album/AlbumList.jsx:39-45 | the request carries the page, the page size and the search text exactly when there is one |
| AlbumList.Page.ReceiveList | frontend/src/components/album/AlbumList.jsx:47-51 | a reply without error replaces the albums and the total, missing ones giving none and zero; a failure changes nothing |
| AlbumList.Page.HandleSearch | frontend/src/components/album/AlbumList.jsx:64-67 | the search text is taken and the list starts again from page 1 |
| AlbumList.Page.PreviousPage | frontend/src/components/album/AlbumList.jsx:300 | one page back, never below the first, and a page in range stays in range |
| AlbumList.Page.NextPage | frontend/src/components/album/AlbumList.jsx:312 | one page on, never beyond the last, and a page in range stays in range |
| AlbumList.Page.HandleOpenModal | frontend/src/components/album/AlbumList.jsx:70-89 | the dialog opens on the album's form, or an empty form for a new album |
| AlbumList.Page.HandleCloseModal | frontend/src/components/album/AlbumList.jsx:92-101 | the dialog closes and forgets the album and the form |
| AlbumList.Page.HandleSubmit | frontend/src/components/album/AlbumList.jsx:104-134 | a blank name alerts and sends nothing; a date that does not convert throws before the call and alerts that the save failed; otherwise the fields are sent with an empty date as null, as an update exactly when an album is being edited; success closes the dialog with the matching message, and every failure keeps the dialog, the edited album and the form as they were |
| AlbumList.BackAndForth | frontend/src/components/album/AlbumList.jsx:300-312 | one page back and one on returns to the page, from any page after the first |
| UsersManagement.ParseAsWritten | frontend/src/components/users/UsersManagement.jsx:29-38 | an array gives its rows and length; an object with a `data` array gives the object itself and its `total`; anything else gives nothing |
| UsersManagement.AsWrittenDropsRows | frontend/src/components/users/UsersManagement.jsx:34-37 | as written, a reply `{data: [...], total}` never yields an array of rows, and without `total` no total |
| UsersManagement.Parse | frontend/src/components/users/UsersManagement.jsx:29-38 | an array gives its rows and length; an object's `data` array gives its rows and the object's total, else their number; anything else gives nothing (corrected; see "## Findings") |
| UsersManagement.ParseAgreesOffObjects | frontend/src/components/users/UsersManagement.jsx:29-38 | the corrected reading agrees with the written one on everything but the object shape |
| UsersManagement.TotalPages | frontend/src/components/users/UsersManagement.jsx:19 | never below one page, the ceiling of the total over 10 when there are users |
| UsersManagement.Label | frontend/src/components/users/UsersManagement.jsx:153-158 | the text of the first option with the value, falling back when there is none or its text is empty |
| UsersManagement.Page.constructor | frontend/src/components/users/UsersManagement.jsx:10-15 | no users, no total, page 1, no query |
| UsersManagement.Page.PreviousDisabled | frontend/src/components/users/UsersManagement.jsx:176 | disabled exactly from the first page down |
| UsersManagement.Page.NextDisabled | frontend/src/components/users/UsersManagement.jsx:183 | disabled exactly from the last page up |
| UsersManagement.Page.PreviousPage | frontend/src/components/users/UsersManagement.jsx:174-180 | one page back unless disabled, keeping a page in range in range |
| UsersManagement.Page.NextPage | frontend/src/components/users/UsersManagement.jsx:181-187 | one page on unless disabled, keeping a page in range in range |
| UsersManagement.Page.SearchSettled | frontend/src/components/users/UsersManagement.jsx:60-71 | the settled query is taken and the list starts again from page 1 |
| UsersManagement.Page.ReceiveUsers | frontend/src/components/users/UsersManagement.jsx:21-51 | a reply is parsed into the rows and the total; a failed call clears both (corrected; see "## Findings") |
| Pagination.View | frontend/src/components/common/Loading.jsx:81-104 | the page count is the ceiling of the total over the page size; the range starts after the earlier pages and ends at the page's end or the total, whichever is first; previous is disabled exactly from page 1 down and next exactly from the last page up |
| Pagination.RangeOnAPage | frontend/src/components/common/Loading.jsx:82-84 | on an existing page of a non-empty list the range is not empty, holds at most one page, is full on every page but the last and ends at the total on the last |
| Pagination.EveryItemInARange | frontend/src/components/common/Loading.jsx:82-84 | every item lies in the range of its page |
| Pagination.PreviousClick | frontend/src/components/common/Loading.jsx:93-94 | the page before, exactly when the button is enabled |
| Pagination.NextClick | frontend/src/components/common/Loading.jsx:103-104 | the page after, exactly when the button is enabled, never beyond the last page |
| FileUrl.FullUrl | frontend/src/services/fileUtil.js:1-19 | no URL exactly for a missing or empty path; an absolute address is kept, and so is any path outside development or without a base; otherwise the development base is put in front; the result always ends with the path |
| FileUrl.SchemeOfPrefix | frontend/src/services/fileUtil.js:3 | text after an absolute address keeps it absolute |
| FileUrl.FullUrlIdempotent | frontend/src/services/fileUtil.js:1-19 | with an absolute or no base, applying the helper twice is applying it once |
| FileUrl.ProductionKeepsPaths | frontend/src/services/fileUtil.js:13-18 | outside development, or without a base, a path is used as it is |
| FullPlayer.FullUrl | frontend/src/components/common/FullPlayer.jsx:40-49 | the shared URL helper in development with the server's fixed address as its base |
| FullPlayer.FullUrlAbsolute | frontend/src/components/common/FullPlayer.jsx:40-49 | every URL produced is absolute, and applying the helper again changes nothing |
| FullPlayer.AudioUrl | frontend/src/components/common/FullPlayer.jsx:52-55 | no source exactly without a path; otherwise the full URL of the path |
| FullPlayer.Trunc | frontend/src/components/common/FullPlayer.jsx:67 | truncation toward zero of a real |
| FullPlayer.Minutes | frontend/src/components/common/FullPlayer.jsx:66 | the minutes are the whole minutes in the time: sixty times them is at most the time, and sixty more exceeds it |
| FullPlayer.SecondsPart | frontend/src/components/common/FullPlayer.jsx:67 | for a time that is not negative the seconds are between 0 and 59 |
| FullPlayer.TimeLabel | frontend/src/components/common/FullPlayer.jsx:68 | the label starts with the minutes' numeral followed by a colon and at least two characters of seconds |
| FullPlayer.MinutesAndSeconds | frontend/src/components/common/FullPlayer.jsx:66-67 | for a positive time the minutes and the seconds below 60 add back to the whole seconds |
| FullPlayer.TimeLabelReadsBack | frontend/src/components/common/FullPlayer.jsx:68 | `m:ss` with two-digit seconds reads back as the time it shows |
| FullPlayer.FormatTime | frontend/src/components/common/FullPlayer.jsx:64-69 | a missing or zero time is `0:00`; a positive time is shown as the label of its whole seconds |
| FullPlayer.ModeIcon | frontend/src/components/common/FullPlayer.jsx:94-105 | the shuffle icon exactly for shuffle, the repeat icon for every other mode |
| FullPlayer.ModeTitle | frontend/src/components/common/FullPlayer.jsx:108-119 | the title of shuffle and single, and the list-loop title for every other mode |
| FullPlayer.SingleBadge | frontend/src/components/common/FullPlayer.jsx:413 | the `1` badge exactly in single mode |
| FullPlayer.ModesDistinguishable | frontend/src/components/common/FullPlayer.jsx:94-119 | the three modes show three different icon and badge pairs (the badge is drawn at line 413) and three different titles |
| FullPlayer.UnknownModeLooksLikeLoop | frontend/src/components/common/FullPlayer.jsx:94-119 | an unknown mode looks like loop mode |
| FullPlayer.Progress | frontend/src/components/common/FullPlayer.jsx:185 | a share of the track in percent when there is a duration, between 0 and 100 inside the track, 100 at its end, and 0 without a duration |
| FullPlayer.SeekTarget | frontend/src/components/common/FullPlayer.jsx:72-77 | no seek without a duration; otherwise the point at the clicked share, inside the track for a share inside the bar |
| FullPlayer.SeekShowsShare | frontend/src/components/common/FullPlayer.jsx:72-77 | after a seek the progress bar (its share is computed at line 185) shows the clicked share |
| FullPlayer.HandleSeek | frontend/src/components/common/FullPlayer.jsx:72-78 | without a duration nothing changes; otherwise the player seeks to the clicked share of the track |
| FullPlayer.ReplyLyrics | frontend/src/components/common/FullPlayer.jsx:128-133 | the reply's lyrics when non-empty, else its data's lyrics, else empty; a failed call gives empty |
| FullPlayer.ReplyLyricsSource | frontend/src/components/common/FullPlayer.jsx:128 | the lyrics shown are empty or come from the reply |
| FullPlayer.LyricsPanel.constructor | frontend/src/components/common/FullPlayer.jsx:34-35 | no lyrics, not loading |
| FullPlayer.LyricsPanel.FetchLyrics | frontend/src/components/common/FullPlayer.jsx:122-137 | without a music id nothing changes; otherwise the reply's lyrics are shown and loading ends |
| FullPlayer.LyricsPanel.OnMusicChanged | frontend/src/components/common/FullPlayer.jsx:161-167 | a new track's lyrics are fetched, and the lyrics are cleared without a track |
| FullPlayer.LyricsPanel.HandleSaveLyrics | frontend/src/components/common/FullPlayer.jsx:152-158 | the saved lyrics are shown, then fetched again when there is a track |
| FullPlayer.LyricsPanel.ApplyLyrics | frontend/src/components/common/FullPlayer.jsx:139-143 | the applied text is shown, or nothing without one; the text is uploaded for the current track, and nothing is sent without one (corrected; see "## Findings") |
| FullPlayer.LyricsPanel.ApplyLyricsAsWritten | frontend/src/components/common/FullPlayer.jsx:139-143 | the applied text is shown, or nothing without one, and nothing is uploaded, whatever the text |
| Paging.TotalPages | internal/handler/album.go:135 | a zero page size, and only that, is Go's integer divide-by-zero panic; for a positive page size and a non-negative total, the truncating `(total + pageSize - 1) / pageSize` is the ceiling of the quotient |
| Paging.PageContents | internal/handler/album.go:130-131 | the rows of a page are the rows from its offset on, as many as fit on a page or are left |
| Paging.WindowIsPage | internal/handler/album.go:130-131 | the window of offset and limit is the page |
| SqlLike.PercentMatchesAll | internal/handler/music.go:135 | a lone `%` matches every text |
| SqlLike.LeadingPercent | internal/handler/music.go:135 | a leading `%` matches exactly when the rest of the pattern matches some suffix of the text |
| SqlLike.LiteralHead | internal/handler/music.go:135 | a wildcard-free head of a pattern matches exactly as many characters, equal up to ASCII case |
| SqlLike.SearchIsFoldedContains | internal/handler/music.go:134-136 | for a search text without wildcards, the handlers' `LIKE %q%` holds exactly when the value contains the text ignoring ASCII case |
| SqlLike.SearchIgnoresCase | internal/handler/music.go:134-136 | `beat` finds `The BEATLES` |
| SqlLike.UnderscoreSearchMatchesAny | internal/handler/music.go:134-136 | a search for `_` keeps every non-empty value: the user's underscore is a wildcard |
| SqlLike.Like | internal/handler/music.go:136 | SQLite's `LIKE` with `%`, `_` and ASCII case folding; a pattern without `%` only matches text of exactly its own length |
| SqlLike.Search | internal/handler/music.go:134-136 | the condition `col LIKE '%q%'`; an empty search text keeps every value, as the handler's skipped condition does |
| Paging.PageNonEmptyIff | internal/handler/album.go:130-135 | a page has rows exactly when it is at most the page count |
| Paging.EveryRowOnItsPage | internal/handler/album.go:130-131 | every row appears on page `k / pageSize + 1`, at position `k % pageSize` |

## Left out

- `MusicScan.Scanner.BuildTrack`: only the track's path, title, artist, album artist, album id, genre and suffix are modelled. The scan also writes the cover path found by `extractAlbumCover` (music.go:571), the duration, track and disc numbers, year, release date, size, bit rate, sample rate, bit depth, channel count, cover flag, performer, composer, label, copyright, ISRC, UPC and the owner `SYSTEM` (music.go:573-605); these come from ffprobe and tag fields the model does not read. The stream and cover-art handlers take a stored row's `cover_url` as they find it.
- `MusicScan.Scanner.ResolveAlbum`: only the album id is modelled. A new album's genre tag (music.go:527-531), its release date from the year (534-537) and its cover (540-543) are not written by the model, nor is the cover a stored album without one receives (553-560). `MusicFiles.CoverCache.Extract` models the cover lookup on its own.
- `SubsonicHandler.RandomSongsAsWritten`: the error text is SQLite's (`no such column: music.parent`). Under MySQL the query fails as well, since `RANDOM()` is not a MySQL function and the columns are missing there too, but with MySQL's own message.
- I/O of every kind is a parameter: the database rows, query results and their errors, the file system, `localStorage`, the HTTP replies the front end receives, and whether a call fails.
- External libraries are not modelled: JWT parsing is an oracle passed in, bcrypt is an abstract injective hash, JSON is text maps, and XML output is not modelled.
- The Fiber context is a map of query parameters.
- Clocks, timers and the debounce in `UsersManagement.jsx`, the scroll easing animation in `LyricsDisplay.jsx`, DOM layout, `navigate`, `console` output and `alert` dialogs are not modelled. An alert is recorded as the text it shows.
- Random choices are nondeterministic inputs. This covers the shuffle draw and the UUIDs of new rows.
- Go map iteration order is not modelled. When several genres match an album name, `MusicMeta.GetOrInferGenre` picks one of them nondeterministically (a `:|` choice), since the source's pick depends on the map's iteration order.
- Floating-point arithmetic is not modelled. LRC times are whole milliseconds, durations are whole seconds, playback times and the scroll target are reals, and `NaN` is not modelled. `formatFileSize` in `MusicList.jsx` is not modelled because it is built on `Math.log` and `toFixed`.
- `SubsonicHandler.MakeId`, `SubsonicHandler.LowerName`: the case mapping (`Text.GoLowerChar`, `Text.GoUpperChar`) covers the ASCII letters and the four code points whose other case is ASCII. Go's `strings.ToLower` maps every Unicode letter (`É` to `é`), so names that differ only in the case of a non-ASCII letter share an identifier and sort together in Go, but not in the model. The index bucket is exact, since it only looks for an ASCII result.
- `EntityUser.User.HashPassword`: bcrypt is a total function here, so the error return of `GenerateFromPassword` (user.go:47-50), which the registration handler reports as `密码加密失败`, is not modelled.
- `FileUtil.Disk.SaveLyricsToFile`, `FileUtil.Disk.SaveTranslationLyricsToFile`: an error is the source's message prefix only; the wrapped OS error that `%w` appends is not modelled.
- `SqlLike.Like` is SQLite's operator, for the default database type. Under MySQL, which the configuration can select, the default collation also ignores accents and non-ASCII case; that is not modelled.
- `StringOrder` compares code points. JavaScript's default `sort` compares UTF-16 code units, so the two differ only for characters outside the Basic Multilingual Plane.
- `Pagination.View` requires a positive page size. JavaScript would divide by zero and show `Infinity`.
- `UsersManagement.Label` takes the role and status option lists as a parameter. `frontend/src/const/codeList.js`, where they live, is not part of this model.
- `MusicList.Table` models the rows it starts from. It does not model the later effect that replaces them when the `musics` prop changes (MusicList.jsx:68-71).
- `PlayerContext.jsx`'s own `getFullUrl` and `audioUrl` (lines 33-42) are the same code as `FullPlayer.jsx`'s and are modelled once, as `FullPlayer.FullUrl` and `FullPlayer.AudioUrl`. `Player.jsx` repeats `FullPlayer.jsx`'s helpers line for line and is modelled through them.
- These are not part of this model:
  - `lyrics.go`, an HTTP proxy to a lyrics site whose path rule is the one `FileUtil` models;
  - `api.js`;
  - the user handlers in `handler/user.go`, apart from registration and pagination;
  - `AudioVisualizer.jsx`;
  - the lyric search scripts;
  - the routers, configuration and database bootstrap;
  - the UI-only components.
- The network fetch of lyrics is not modelled. Only the choice among the fetched items is.
- `SubsonicHandler.RandomSongs`: a size below the capacity bound whose slice, 128 bytes per song, is larger than the memory the machine can give makes the Go runtime abort with an out-of-memory error. The machine's memory is not modelled, so the model answers such a size normally.
- `ErrRequiredParam`, `ErrGeneric` and `config.AppConfig.AppBasePath` are not defined in the source files. They are opaque constants and a parameter.

## Findings

| source | as written | input that shows it | evidently intended | confidence | as-written member | corrected member |
|---|---|---|---|---|---|---|
| internal/handler/user.go:50-55, internal/entity/user.go:38-40 | registration hashes the password in the handler and again in the `BeforeCreate` hook, so the stored hash is of the hash | any registration, then a login with the same password | the password is hashed once, so it can sign in | not executed | EntityUser.RegisterAsWritten, EntityUser.RegisteredPasswordRejected | EntityUser.RegisterCorrected |
| internal/subsonic/handler.go:298-305 | `stream` reads the `cover_url` column and serves that file | a track whose cover and file paths differ | the track's own file (`file_url`) is streamed | not executed | SubsonicHandler.StreamAsWrittenSendsCover, SubsonicHandler.StreamReadsWrongColumn | SubsonicHandler.Stream |
| internal/handler/music.go:143-181 | with `favorited` set, the page is cut first and the favourites are filtered from that page | page size 1 and a favourite that is the second matching track | the page is taken from the favourites alone | not executed | MusicListing.ListingAsWritten, MusicListing.FavouritesLostByPaging | MusicListing.FavouriteListingCorrected, MusicListing.CorrectedListingShowsEveryFavourite (used by MusicListing.ListMusics) |
| internal/handler/playlist.go:192-196 | adding a track to a playlist decrements its `like_count`, as removal does | adding a track with 0 likes gives -1 | adding counts one like more, so that adding and removing cancel out | not executed | PlaylistHandler.LikeCountAsWritten, PlaylistHandler.AsWrittenAddLowersLikes | PlaylistHandler.LikeCountCorrected, PlaylistHandler.CorrectedToggleRestoresLikes (used by PlaylistHandler.Store.AddMusicToPlaylist) |
| frontend/src/components/users/UsersManagement.jsx:34-37 | for a reply `{data: [...], total}` the users become the object itself, not its `data` array | a reply `{data: [u1], total: 1}` | the rows are the object's `data` array | not executed | UsersManagement.ParseAsWritten, UsersManagement.AsWrittenDropsRows | UsersManagement.Parse, UsersManagement.ParseAgreesOffObjects (used by UsersManagement.Page.ReceiveUsers) |
| frontend/src/components/common/LyricsEditModal.jsx:77 | the dialog saves with `api.musics.saveLyrics`, which `api.js` does not define (it is `api.lyrics.saveLyrics`, services/api.js:152-155) | any track with an id: the call throws a TypeError, no request is sent and the dialog shows 保存失败，请重试, so `onSave` (FullPlayer's `handleSaveLyrics`) is never reached | `api.lyrics.saveLyrics(music.id, lyrics)`: the lyrics are posted, then the translation, and the dialog closes | not executed | LyricsEditModal.HandleSaveAsWritten, LyricsEditModal.SaveAlwaysFails | LyricsEditModal.HandleSave |
| frontend/src/components/common/FullPlayer.jsx:142 | applying searched lyrics uploads them with the same undefined `api.musics.saveLyrics` | any applied lyrics: they are shown but the call throws and nothing reaches the server | `api.lyrics.saveLyrics(currentMusic.id, text)` stores them for the track | not executed | FullPlayer.LyricsPanel.ApplyLyricsAsWritten | FullPlayer.LyricsPanel.ApplyLyrics |
| internal/handler/music.go:366-369, internal/handler/music.go:618 | when the tags of a file cannot be read, `meta` is nil; the other tag reads are guarded by `meta != nil`, but the genre passed to `getOrInferGenre` is `meta.Genre()`, which panics, and the scan goroutine has no `recover`, so the server process ends | a new `music/x.MP3` without tags that ffprobe accepts | the genre tag is read only when `meta` is not nil, as the other tags are, so the file is imported with its defaults | not executed | MusicScan.GenreArgAsWritten, MusicScan.UntaggedFileCrashesScan | MusicScan.UntaggedTrackFits (used by MusicScan.Scanner.Visit) |
| internal/subsonic/handler.go:230-234 | `Find(&songs)` into `[]Song` from `Model(&entity.Music{})` makes GORM select the `Song` fields' columns, and the `music` table (internal/entity/music.go:11-45) has no `parent`, `album`, `track`, `cover_art` or `type` column | any `getRandomSongs` request with a size up to 2^41: it answers `failed` with `db error: no such column: music.parent` | the query selects the columns a song shares with the table, `Select("id, title, artist, duration")`, and lists the random tracks | not executed | SubsonicHandler.RandomSongsAsWritten, SubsonicHandler.RandomSongsNeverSucceed | SubsonicHandler.RandomSongs |
