/**
 * The Subsonic REST handlers (API version 1.16.1): ping, licence, the artist
 * index, album details, random songs, cover art and streaming. Database
 * queries are parameters: the rows or the error a query returns.
 */
module SubsonicHandler {
  import opened Wrappers
  import opened Text
  import opened StringOrder
  import GoPath
  import SubsonicAuth

  const ApiVersion := "1.16.1"

  /** The two error codes the handlers report; their numeric values are not part of this model. */
  datatype ErrorCode = RequiredParam | Generic

  datatype ApiError = ApiError(code: ErrorCode, message: string)

  datatype Artist = Artist(id: string, name: string)

  datatype ArtistIndex = ArtistIndex(name: string, artists: seq<Artist>)

  datatype Song = Song(id: string, parent: string, title: string, artist: string, album: string,
                       track: int, duration: int, coverArt: string, kind: string)

  datatype AlbumInfo = AlbumInfo(id: string, name: string, artist: string, coverArt: string,
                                 songCount: int, duration: int)

  datatype Body =
    | Empty
    | PingBody
    | LicenseBody(valid: bool)
    | ArtistsBody(index: seq<ArtistIndex>)
    | AlbumBody(album: AlbumInfo, songs: seq<Song>)
    | SongsBody(songs: seq<Song>)

  /** A `subsonic-response` document: status, version, optional error, and its element. */
  datatype Response = Response(status: string, version: string, error: Option<ApiError>, body: Body)

  function Failed(code: ErrorCode, message: string): Response {
    Response("failed", ApiVersion, Some(ApiError(code, message)), Empty)
  }

  function Succeeded(body: Body): Response {
    Response("ok", ApiVersion, None, body)
  }

  // ---------------------------------------------------------------- ping, licence

  /** `HandlePing`: "ok" exactly when the query's credentials parse; otherwise "failed" with the parse error. */
  function Ping(queries: map<string, string>): (r: Response)
    ensures r.version == ApiVersion && r.body == PingBody
    ensures r.status == "ok" <==> SubsonicAuth.ParseAuthFromFiber(queries).Ok?
    ensures r.status == "ok" ==> r.error.None?
    ensures r.status != "ok" ==> r.status == "failed"
                                 && r.error == Some(ApiError(RequiredParam, SubsonicAuth.MissingParams))
  {
    match SubsonicAuth.ParseAuthFromFiber(queries)
    case Ok(_) => Succeeded(PingBody)
    case Err(e) => Response("failed", ApiVersion, Some(ApiError(RequiredParam, e)), PingBody)
  }

  /** The ping of the handler tests succeeds. */
  lemma TestPingOk()
    ensures Ping(map["u" := "test", "p" := "enc:74657374", "v" := "1.16.1", "c" := "test"]).status == "ok"
  {
    var m := map["u" := "test", "p" := "enc:74657374", "v" := "1.16.1", "c" := "test"];
    assert m["u"] == "test" && m["p"] == "enc:74657374";
    SubsonicAuth.TrimmedAlready("test");
  }

  /** A ping without credentials fails. */
  lemma PingWithoutCredentialsFails()
    ensures Ping(map[]).status == "failed"
  {
  }

  /** `HandleGetLicense`: always a valid licence. */
  function License(): (r: Response)
    ensures r.status == "ok" && r.version == ApiVersion && r.error.None?
    ensures r.body.LicenseBody? && r.body.valid
  {
    Succeeded(LicenseBody(true))
  }

  // ---------------------------------------------------------------- artist index

  /**
   * The artist identifier: the trimmed name with spaces replaced by `-`,
   * lower-cased. It is as long as the trimmed name and holds no space and no
   * upper-case ASCII letter.
   */
  function MakeId(name: string): (id: string)
    ensures |id| == |TrimGo(name)|
    ensures forall i :: 0 <= i < |id| ==> id[i] != ' ' && !IsAsciiUpper(id[i])
  {
    GoLower(ReplaceChar(TrimGo(name), ' ', '-'))
  }

  /** For a trimmed name, the identifier depends on the lower-cased name only. */
  lemma MakeIdOfLower(n: string)
    requires TrimGo(n) == n
    ensures MakeId(n) == ReplaceChar(GoLower(n), ' ', '-')
  {
    var a := MakeId(n);
    var b := ReplaceChar(GoLower(n), ' ', '-');
    forall i | 0 <= i < |n| ensures a[i] == b[i] {
      assert GoLowerChar(n[i]) == ' ' <==> n[i] == ' ';
    }
  }

  /** Names that agree after trimming and lower-casing get one identifier. */
  lemma SameLowerSameId(a: string, b: string)
    requires GoLower(TrimGo(a)) == GoLower(TrimGo(b))
    ensures MakeId(a) == MakeId(b)
  {
    TrimIdempotent(a, GoSpaces);
    TrimIdempotent(b, GoSpaces);
    MakeIdOfLower(TrimGo(a));
    MakeIdOfLower(TrimGo(b));
    assert MakeId(TrimGo(a)) == MakeId(a);
    assert MakeId(TrimGo(b)) == MakeId(b);
  }

  /** A space and a dash are not told apart: "Sigur Ros" and "Sigur-Ros" share an identifier. */
  lemma SpaceAndDashShareId(x: string, y: string)
    requires x != "" && y != "" && !IsGoSpace(x[0]) && !IsGoSpace(y[|y| - 1])
    ensures MakeId(x + " " + y) == MakeId(x + "-" + y)
  {
    var s1, s2 := x + " " + y, x + "-" + y;
    SubsonicAuth.TrimmedAlready(s1);
    SubsonicAuth.TrimmedAlready(s2);
    assert forall i :: 0 <= i < |s1| && i != |x| ==> s1[i] == s2[i];
    assert ReplaceChar(s1, ' ', '-') == ReplaceChar(s2, ' ', '-');
  }

  /**
   * The index bucket of a name: the upper-cased first character of the trimmed
   * name when that is an ASCII letter, "0-9" for a digit, and "#" for anything
   * else (other characters, and the empty name).
   */
  function Bucket(name: string): (k: string)
    ensures k == "#" || k == "0-9" || (|k| == 1 && IsAsciiUpper(k[0]))
  {
    var t := TrimGo(name);
    if t == "" then "#"
    else
      var up := GoUpperChar(t[0]);
      if IsAsciiUpper(up) then [up] else if IsDigit(up) then "0-9" else "#"
  }

  lemma BucketOfTrimmed(name: string)
    ensures Bucket(TrimGo(name)) == Bucket(name)
  {
    TrimIdempotent(name, GoSpaces);
  }

  /** The bucket cases: an upper-case ASCII letter, "0-9" or "#", decided by the trimmed name's first character. */
  lemma BucketCases(name: string)
    ensures var k := Bucket(name); var t := TrimGo(name);
      (t == "" ==> k == "#") &&
      (t != "" && IsAsciiUpper(t[0]) ==> k == [t[0]]) &&
      (t != "" && IsAsciiLower(t[0]) ==> k == [(t[0] as int - 32) as char]) &&
      (t != "" && IsDigit(t[0]) ==> k == "0-9") &&
      (t != "" && t[0] as int >= 128 && t[0] != '\U{0131}' && t[0] != '\U{017F}' ==> k == "#")
  {
  }

  /** The set of identifiers of `s`. */
  function Ids(s: seq<Artist>): set<string> {
    set a | a in s :: a.id
  }

  lemma IdsSnoc(s: seq<Artist>, a: Artist)
    ensures Ids(s + [a]) == Ids(s) + {a.id}
  {
    assert forall x :: x in s + [a] <==> x in s || x == a;
  }

  /** `names[k]` is non-blank after trimming and the first name with its identifier. */
  predicate IsFirstOf(names: seq<string>, k: int)
    requires 0 <= k < |names|
  {
    TrimGo(names[k]) != "" &&
    forall j :: 0 <= j < k ==> TrimGo(names[j]) == "" || MakeId(names[j]) != MakeId(names[k])
  }

  /** The artists the deduplication loop collects from `names`, in order. */
  function Collected(names: seq<string>): (r: seq<Artist>)
    ensures |r| <= |names|
    decreases |names|
  {
    if names == [] then []
    else
      var prev := Collected(names[..|names| - 1]);
      var n := TrimGo(names[|names| - 1]);
      if n == "" || MakeId(n) in Ids(prev) then prev else prev + [Artist(MakeId(n), n)]
  }

  /** Unfolds one step of `Collected`, with the identifier of the trimmed name written on the raw name. */
  lemma CollectedStep(names: seq<string>)
    requires names != []
    ensures var prev := Collected(names[..|names| - 1]);
      var last := names[|names| - 1];
      Collected(names) ==
        if TrimGo(last) == "" || MakeId(last) in Ids(prev) then prev
        else prev + [Artist(MakeId(last), TrimGo(last))]
  {
    var last := names[|names| - 1];
    TrimIdempotent(last, GoSpaces);
    assert MakeId(TrimGo(last)) == MakeId(last);
  }

  /** Every collected artist has a non-blank trimmed name and the identifier of that name. */
  lemma {:induction false} CollectedWellFormed(names: seq<string>)
    ensures forall a :: a in Collected(names) ==>
      a.name != "" && TrimGo(a.name) == a.name && a.id == MakeId(a.name)
    decreases |names|
  {
    if names != [] {
      var last := names[|names| - 1];
      CollectedWellFormed(names[..|names| - 1]);
      CollectedStep(names);
      TrimIdempotent(last, GoSpaces);
      assert MakeId(TrimGo(last)) == MakeId(last);
    }
  }

  /** The collected identifiers are pairwise distinct. */
  lemma {:induction false} CollectedIdsDistinct(names: seq<string>)
    ensures var c := Collected(names); forall i, j :: 0 <= i < j < |c| ==> c[i].id != c[j].id
    decreases |names|
  {
    if names != [] {
      var prev := Collected(names[..|names| - 1]);
      CollectedIdsDistinct(names[..|names| - 1]);
      CollectedStep(names);
      var c := Collected(names);
      if c != prev {
        forall i, j | 0 <= i < j < |c| ensures c[i].id != c[j].id {
          if j == |prev| {
            assert c[i] in prev;
          }
        }
      }
    }
  }

  /** The identifier of every non-blank name is collected. */
  lemma {:induction false} CollectedCovers(names: seq<string>)
    ensures forall k :: 0 <= k < |names| && TrimGo(names[k]) != "" ==> MakeId(names[k]) in Ids(Collected(names))
    decreases |names|
  {
    if names != [] {
      var front := names[..|names| - 1];
      CollectedCovers(front);
      IdsGrow(names);
      forall k | 0 <= k < |names| - 1 && TrimGo(names[k]) != ""
        ensures MakeId(names[k]) in Ids(Collected(names))
      {
        assert names[k] == front[k];
      }
    }
  }

  /** One more name keeps every identifier collected so far and adds its own, when it is not blank. */
  lemma IdsGrow(names: seq<string>)
    requires names != []
    ensures Ids(Collected(names[..|names| - 1])) <= Ids(Collected(names))
    ensures TrimGo(names[|names| - 1]) != "" ==> MakeId(names[|names| - 1]) in Ids(Collected(names))
  {
    var prev := Collected(names[..|names| - 1]);
    var last := names[|names| - 1];
    var a := Artist(MakeId(last), TrimGo(last));
    CollectedStep(names);
    IdsSnoc(prev, a);
  }

  /** Every collected artist is the artist of the first name with its identifier. */
  lemma {:induction false} CollectedFromFirst(names: seq<string>)
    ensures forall a :: a in Collected(names) ==>
      exists k :: 0 <= k < |names| && IsFirstOf(names, k) && a == Artist(MakeId(names[k]), TrimGo(names[k]))
    decreases |names|
  {
    if names != [] {
      var m := |names| - 1;
      var front := names[..m];
      CollectedFromFirst(front);
      CollectedStep(names);
      FirstsKept(names);
      NewLastIsFirst(names);
    }
  }

  /** A first name among the earlier names stays first when a name is appended. */
  lemma FirstsKept(names: seq<string>)
    requires names != []
    ensures forall k :: 0 <= k < |names| - 1 && IsFirstOf(names[..|names| - 1], k) ==>
      IsFirstOf(names, k) && names[k] == names[..|names| - 1][k]
  {
  }

  /** An appended name whose identifier is new is the first name with it. */
  lemma NewLastIsFirst(names: seq<string>)
    requires names != []
    ensures var last := names[|names| - 1];
      TrimGo(last) != "" && MakeId(last) !in Ids(Collected(names[..|names| - 1])) ==> IsFirstOf(names, |names| - 1)
  {
    var m := |names| - 1;
    var front := names[..m];
    CollectedCovers(front);
    assert forall k :: 0 <= k < m ==> names[k] == front[k];
  }

  /** A name whose identifier was already collected from earlier names is not the first with it. */
  lemma CollectedIdNotFirst(names: seq<string>)
    requires names != []
    requires MakeId(names[|names| - 1]) in Ids(Collected(names[..|names| - 1]))
    ensures !IsFirstOf(names, |names| - 1)
  {
    var m := |names| - 1;
    var front := names[..m];
    var a := IdWitness(Collected(front), MakeId(names[m]));
    var k := FirstOfCollected(front, a);
    assert names[k] == front[k];
    assert TrimGo(names[k]) != "" && MakeId(names[k]) == MakeId(names[m]);
  }

  /** An artist of `s` with a given identifier of `s`. */
  lemma IdWitness(s: seq<Artist>, id: string) returns (a: Artist)
    requires id in Ids(s)
    ensures a in s && a.id == id
  {
    a :| a in s && a.id == id;
  }

  /** The first name a collected artist comes from. */
  lemma FirstOfCollected(names: seq<string>, a: Artist) returns (k: nat)
    requires a in Collected(names)
    ensures k < |names| && IsFirstOf(names, k) && a == Artist(MakeId(names[k]), TrimGo(names[k]))
  {
    CollectedFromFirst(names);
    k :| 0 <= k < |names| && IsFirstOf(names, k) && a == Artist(MakeId(names[k]), TrimGo(names[k]));
  }

  /** The first name with each identifier is collected. */
  lemma FirstIsCollected(names: seq<string>)
    ensures forall k :: 0 <= k < |names| && IsFirstOf(names, k) ==>
      Artist(MakeId(names[k]), TrimGo(names[k])) in Collected(names)
  {
    forall k | 0 <= k < |names| && IsFirstOf(names, k)
      ensures Artist(MakeId(names[k]), TrimGo(names[k])) in Collected(names)
    {
      FirstCollectedAt(names, k);
    }
  }

  /** The name at `k`, the first with its identifier, is collected. */
  lemma {:induction false} FirstCollectedAt(names: seq<string>, k: nat)
    requires k < |names| && IsFirstOf(names, k)
    ensures Artist(MakeId(names[k]), TrimGo(names[k])) in Collected(names)
    decreases |names|
  {
    var m := |names| - 1;
    var front := names[..m];
    CollectedStep(names);
    if k < m {
      FirstOfFront(names, k);
      FirstCollectedAt(front, k);
      assert front[k] == names[k];
    } else if MakeId(names[m]) in Ids(Collected(front)) {
      CollectedIdNotFirst(names);
    }
  }

  /** The first name with its identifier before the last name is also first among the names before the last. */
  lemma FirstOfFront(names: seq<string>, k: nat)
    requires k < |names| - 1 && IsFirstOf(names, k)
    ensures IsFirstOf(names[..|names| - 1], k)
  {
    var front := names[..|names| - 1];
    assert forall j :: 0 <= j <= k ==> front[j] == names[j];
  }

  /** The name an artist is ordered by inside its bucket. */
  function LowerName(a: Artist): (n: string)
    ensures |n| == |a.name|
    ensures forall i :: 0 <= i < |n| ==> !IsAsciiUpper(n[i])
  {
    GoLower(a.name)
  }

  /** Collected artists are distinct with pairwise distinct lower-cased names, so the in-bucket order is total. */
  lemma CollectedLowerInjective(names: seq<string>)
    ensures Distinct(Collected(names))
    ensures KeyInjective(Collected(names), LowerName)
  {
    var c := Collected(names);
    CollectedWellFormed(names);
    CollectedIdsDistinct(names);
    forall x, y | x in c && y in c && LowerName(x) == LowerName(y) ensures x == y {
      SameLowerSameId(x.name, y.name);
      SameIdSameArtist(c, x, y);
    }
  }

  /** In a sequence with pairwise distinct identifiers an identifier names one artist. */
  lemma SameIdSameArtist(c: seq<Artist>, x: Artist, y: Artist)
    requires forall i, j :: 0 <= i < j < |c| ==> c[i].id != c[j].id
    requires x in c && y in c && x.id == y.id
    ensures x == y
  {
    var i :| 0 <= i < |c| && c[i] == x;
    var j :| 0 <= j < |c| && c[j] == y;
    assert i == j;
  }

  /** The deduplication loop: blank names skipped, one artist per identifier, the first kept. */
  method CollectArtists(names: seq<string>) returns (all: seq<Artist>)
    ensures all == Collected(names)
  {
    all := [];
    var seen: set<string> := {};
    var i := 0;
    while i < |names|
      invariant 0 <= i <= |names|
      invariant all == Collected(names[..i])
      invariant seen == Ids(all)
    {
      var n := TrimGo(names[i]);
      assert names[..i + 1][..i] == names[..i];
      if n != "" {
        var id := MakeId(n);
        if id !in seen {
          IdsSnoc(all, Artist(id, n));
          seen := seen + {id};
          all := all + [Artist(id, n)];
        }
      }
      i := i + 1;
    }
    assert names[..|names|] == names;
  }

  /** The buckets that occur among `s`. */
  function Buckets(s: seq<Artist>): set<string> {
    set a | a in s :: Bucket(a.name)
  }

  lemma BucketsSnoc(s: seq<Artist>, a: Artist)
    ensures Buckets(s + [a]) == Buckets(s) + {Bucket(a.name)}
  {
    assert forall x :: x in s + [a] <==> x in s || x == a;
  }

  /** The artists of `s` in bucket `k`, in the order of `s`. */
  function InBucket(s: seq<Artist>, k: string): seq<Artist>
    decreases |s|
  {
    if s == [] then []
    else
      var last := s[|s| - 1];
      InBucket(s[..|s| - 1], k) + (if Bucket(last.name) == k then [last] else [])
  }

  /** The artists of a bucket are the artists of `s` whose name falls in it. */
  lemma {:induction false} InBucketMembers(s: seq<Artist>, k: string)
    ensures forall a :: a in InBucket(s, k) <==> a in s && Bucket(a.name) == k
    decreases |s|
  {
    if s != [] {
      InBucketMembers(s[..|s| - 1], k);
      assert s == s[..|s| - 1] + [s[|s| - 1]];
    }
  }

  lemma InBucketSnoc(s: seq<Artist>, a: Artist, k: string)
    ensures InBucket(s + [a], k) == InBucket(s, k) + (if Bucket(a.name) == k then [a] else [])
  {
    assert (s + [a])[..|s|] == s;
  }

  lemma InBucketNone(s: seq<Artist>, k: string)
    requires k !in Buckets(s)
    ensures InBucket(s, k) == []
  {
    InBucketMembers(s, k);
  }

  lemma {:induction false} InBucketDistinct(s: seq<Artist>, k: string)
    requires Distinct(s)
    ensures Distinct(InBucket(s, k))
    decreases |s|
  {
    if s != [] {
      var front := s[..|s| - 1];
      var last := s[|s| - 1];
      assert forall i :: 0 <= i < |front| ==> front[i] == s[i];
      InBucketDistinct(front, k);
      InBucketMembers(front, k);
      assert last !in front;
    }
  }

  /** `groups` maps each bucket occurring in `done` to that bucket's artists, in order. */
  predicate Grouped(groups: map<string, seq<Artist>>, done: seq<Artist>) {
    groups.Keys == Buckets(done) && forall k :: k in groups ==> groups[k] == InBucket(done, k)
  }

  /** Appending one artist to its bucket's group keeps the groups those of the artists seen so far. */
  lemma GroupStep(all: seq<Artist>, i: int, groups: map<string, seq<Artist>>, b: string, cur: seq<Artist>,
                  next: map<string, seq<Artist>>)
    requires 0 <= i < |all| && Grouped(groups, all[..i])
    requires b == Bucket(all[i].name) && cur == (if b in groups then groups[b] else [])
    requires next == groups[b := cur + [all[i]]]
    ensures Grouped(next, all[..i + 1])
  {
    assert all[..i + 1] == all[..i] + [all[i]];
    GroupSnoc(all[..i], all[i], groups, next);
  }

  lemma GroupSnoc(done: seq<Artist>, a: Artist, groups: map<string, seq<Artist>>, next: map<string, seq<Artist>>)
    requires Grouped(groups, done)
    requires var b := Bucket(a.name);
      next == groups[b := (if b in groups then groups[b] else []) + [a]]
    ensures Grouped(next, done + [a])
  {
    assert next.Keys == groups.Keys + {Bucket(a.name)};
    GroupKeysStep(done, a, groups, next);
    GroupValuesStep(done, a, groups, next);
  }

  lemma GroupKeysStep(done: seq<Artist>, a: Artist, groups: map<string, seq<Artist>>, next: map<string, seq<Artist>>)
    requires groups.Keys == Buckets(done)
    requires next.Keys == groups.Keys + {Bucket(a.name)}
    ensures next.Keys == Buckets(done + [a])
  {
    BucketsSnoc(done, a);
  }

  lemma GroupValuesStep(done: seq<Artist>, a: Artist, groups: map<string, seq<Artist>>, next: map<string, seq<Artist>>)
    requires Grouped(groups, done)
    requires var b := Bucket(a.name);
      next == groups[b := (if b in groups then groups[b] else []) + [a]]
    ensures forall k :: k in next ==> next[k] == InBucket(done + [a], k)
  {
    var b := Bucket(a.name);
    if b !in groups {
      InBucketNone(done, b);
    }
    forall k | k in next ensures next[k] == InBucket(done + [a], k) {
      InBucketSnoc(done, a, k);
    }
  }

  /** The grouping loop: one group per occurring bucket, holding that bucket's artists in order. */
  method GroupByBucket(all: seq<Artist>) returns (groups: map<string, seq<Artist>>)
    ensures Grouped(groups, all)
  {
    groups := map[];
    var i := 0;
    while i < |all|
      invariant 0 <= i <= |all|
      invariant Grouped(groups, all[..i])
    {
      var b := Bucket(all[i].name);
      var cur := if b in groups then groups[b] else [];
      var next := groups[b := cur + [all[i]]];
      GroupStep(all, i, groups, b, cur, next);
      groups := next;
      i := i + 1;
    }
    assert all[..i] == all;
  }

  /** The keys of the grouping map, gathered in some order and then sorted. */
  method SortedKeys(groups: map<string, seq<Artist>>) returns (keys: seq<string>)
    ensures forall k :: k in keys <==> k in groups
    ensures StrictlySortedBy(keys, Id)
  {
    var remaining := groups.Keys;
    var gathered: seq<string> := [];
    while remaining != {}
      invariant forall k :: k in groups <==> k in gathered || k in remaining
      invariant forall i :: 0 <= i < |gathered| ==> gathered[i] !in remaining
      invariant Distinct(gathered)
      decreases |remaining|
    {
      var k :| k in remaining;
      gathered := gathered + [k];
      remaining := remaining - {k};
    }
    keys := SortBy(gathered, Id);
    SortByProperties(gathered, Id);
    PermutationDistinct(gathered, keys);
    assert forall k :: k in keys <==> k in multiset(gathered);
    SortedDistinctStrict(keys, Id);
  }

  /** One bucket's artists sorted by lower-cased name: a strictly increasing permutation. */
  lemma SortedBucket(all: seq<Artist>, k: string)
    requires Distinct(all) && KeyInjective(all, LowerName)
    ensures multiset(SortBy(InBucket(all, k), LowerName)) == multiset(InBucket(all, k))
    ensures StrictlySortedBy(SortBy(InBucket(all, k), LowerName), LowerName)
  {
    var g := InBucket(all, k);
    var sorted := SortBy(g, LowerName);
    SortByProperties(g, LowerName);
    InBucketDistinct(all, k);
    InBucketMembers(all, k);
    PermutationDistinct(g, sorted);
    assert forall a :: a in sorted ==> a in g by {
      forall a | a in sorted ensures a in g {
        assert a in multiset(sorted);
      }
    }
    InjectiveDistinctStrict(sorted, LowerName);
  }

  function IndexNames(indexes: seq<ArtistIndex>): (names: seq<string>)
    ensures |names| == |indexes| && forall i :: 0 <= i < |indexes| ==> names[i] == indexes[i].name
  {
    seq(|indexes|, i requires 0 <= i < |indexes| => indexes[i].name)
  }

  /** An artist is in an index exactly when the index's artists are a permutation of its bucket and the bucket is the artist's. */
  lemma IndexMembership(all: seq<Artist>, ix: ArtistIndex, a: Artist)
    requires multiset(ix.artists) == multiset(InBucket(all, ix.name)) && a in all
    ensures a in ix.artists <==> ix.name == Bucket(a.name)
  {
    InBucketMembers(all, ix.name);
    assert a in ix.artists <==> a in multiset(ix.artists);
    assert a in InBucket(all, ix.name) <==> a in multiset(InBucket(all, ix.name));
  }

  /**
   * `HandleGetArtists` on the artist values of the music table: the index names
   * are the occurring buckets in byte order, each index holds exactly the
   * collected artists of its bucket ordered by lower-cased name, and so every
   * collected artist appears in exactly one index, the one of its bucket.
   */
  method GetArtists(names: seq<string>) returns (indexes: seq<ArtistIndex>)
    ensures StrictlySortedBy(IndexNames(indexes), Id)
    ensures forall k :: k in IndexNames(indexes) <==> k in Buckets(Collected(names))
    ensures forall i :: 0 <= i < |indexes| ==>
      multiset(indexes[i].artists) == multiset(InBucket(Collected(names), indexes[i].name)) &&
      StrictlySortedBy(indexes[i].artists, LowerName)
    ensures forall a, i :: a in Collected(names) && 0 <= i < |indexes| ==>
      (a in indexes[i].artists <==> indexes[i].name == Bucket(a.name))
  {
    var all := CollectArtists(names);
    CollectedLowerInjective(names);
    var groups := GroupByBucket(all);
    var keys := SortedKeys(groups);
    indexes := BuildIndexes(all, groups, keys);
    forall a, j | a in all && 0 <= j < |indexes|
      ensures a in indexes[j].artists <==> indexes[j].name == Bucket(a.name)
    {
      assert IndexHolds(all, indexes[j]);
      IndexMembership(all, indexes[j], a);
    }
    assert forall j :: 0 <= j < |indexes| ==> IndexHolds(all, indexes[j]);
  }

  /** The reply of `HandleGetArtists`: a failed query is a generic database error, otherwise the artist index. */
  method HandleGetArtists(query: Result<seq<string>, string>) returns (r: Response)
    ensures query.Err? ==> r == Failed(Generic, "db error: " + query.error)
    ensures query.Ok? ==> r.status == "ok" && r.version == ApiVersion && r.error.None? && r.body.ArtistsBody?
    ensures query.Ok? ==>
      StrictlySortedBy(IndexNames(r.body.index), Id) &&
      forall k :: k in IndexNames(r.body.index) <==> k in Buckets(Collected(query.value))
    ensures query.Ok? ==> forall i :: 0 <= i < |r.body.index| ==>
      multiset(r.body.index[i].artists) == multiset(InBucket(Collected(query.value), r.body.index[i].name)) &&
      StrictlySortedBy(r.body.index[i].artists, LowerName)
    ensures query.Ok? ==> forall a, i :: a in Collected(query.value) && 0 <= i < |r.body.index| ==>
      (a in r.body.index[i].artists <==> r.body.index[i].name == Bucket(a.name))
  {
    if query.Err? {
      return Failed(Generic, "db error: " + query.error);
    }
    var indexes := GetArtists(query.value);
    r := Succeeded(ArtistsBody(indexes));
  }

  /** An index holds a permutation of its bucket's artists, strictly ordered by lower-cased name. */
  predicate IndexHolds(all: seq<Artist>, ix: ArtistIndex) {
    multiset(ix.artists) == multiset(InBucket(all, ix.name)) && StrictlySortedBy(ix.artists, LowerName)
  }

  predicate AllIndexesHold(all: seq<Artist>, indexes: seq<ArtistIndex>) {
    forall j :: 0 <= j < |indexes| ==> IndexHolds(all, indexes[j])
  }

  lemma IndexesSnoc(all: seq<Artist>, keys: seq<string>, i: int, indexes: seq<ArtistIndex>, ix: ArtistIndex)
    requires 0 <= i < |keys| && IndexNames(indexes) == keys[..i] && AllIndexesHold(all, indexes)
    requires ix.name == keys[i] && IndexHolds(all, ix)
    ensures IndexNames(indexes + [ix]) == keys[..i + 1] && AllIndexesHold(all, indexes + [ix])
  {
    var next := indexes + [ix];
    assert forall j :: 0 <= j < |indexes| ==> next[j] == indexes[j];
  }

  /** The index loop of `HandleGetArtists`: one index per key, in key order, with its group sorted by lower-cased name. */
  method BuildIndexes(all: seq<Artist>, groups: map<string, seq<Artist>>, keys: seq<string>)
    returns (indexes: seq<ArtistIndex>)
    requires Grouped(groups, all) && Distinct(all) && KeyInjective(all, LowerName)
    requires forall k :: k in keys ==> k in groups
    ensures IndexNames(indexes) == keys
    ensures AllIndexesHold(all, indexes)
  {
    indexes := [];
    var i := 0;
    while i < |keys|
      invariant 0 <= i <= |keys|
      invariant IndexNames(indexes) == keys[..i]
      invariant AllIndexesHold(all, indexes)
    {
      var k := keys[i];
      var sorted := SortBy(groups[k], LowerName);
      SortedBucket(all, k);
      IndexesSnoc(all, keys, i, indexes, ArtistIndex(k, sorted));
      indexes := indexes + [ArtistIndex(k, sorted)];
      i := i + 1;
    }
    assert keys[..i] == keys;
  }

  /** The buckets of the collected artists are the buckets of the first names with each identifier. */
  lemma BucketsOfFirsts(names: seq<string>)
    ensures forall k :: k in Buckets(Collected(names)) <==>
      exists i :: 0 <= i < |names| && IsFirstOf(names, i) && Bucket(names[i]) == k
  {
    var c := Collected(names);
    FirstIsCollected(names);
    forall k | k in Buckets(c)
      ensures exists i :: 0 <= i < |names| && IsFirstOf(names, i) && Bucket(names[i]) == k
    {
      var a :| a in c && Bucket(a.name) == k;
      var i := FirstOfCollected(names, a);
      BucketOfTrimmed(names[i]);
      assert IsFirstOf(names, i) && Bucket(names[i]) == k;
    }
    forall k | exists i :: 0 <= i < |names| && IsFirstOf(names, i) && Bucket(names[i]) == k
      ensures k in Buckets(c)
    {
      var i :| 0 <= i < |names| && IsFirstOf(names, i) && Bucket(names[i]) == k;
      var a := Artist(MakeId(names[i]), TrimGo(names[i]));
      BucketOfTrimmed(names[i]);
      assert a in c && Bucket(a.name) == k;
    }
  }

  // ---------------------------------------------------------------- albums

  /** A row of the music table, the columns the handlers read. */
  datatype MusicRow = MusicRow(id: string, title: string, artist: string, trackNumber: int,
                               duration: int, coverUrl: string, fileUrl: string)

  /** A row of the album table with its songs preloaded. */
  datatype AlbumRow = AlbumRow(id: string, name: string, artistName: string, coverUrl: string,
                               musics: seq<MusicRow>)

  /** The outcome of looking a row up by primary key. */
  datatype Lookup<T> = Found(row: T) | NotFound | DbError(message: string)

  /** The album's total duration: the sum over its songs, never negative when no song is. */
  function SumDurations(ms: seq<MusicRow>): (r: int)
    ensures (forall k :: 0 <= k < |ms| ==> ms[k].duration >= 0) ==> r >= 0
    decreases |ms|
  {
    if ms == [] then 0 else SumDurations(ms[..|ms| - 1]) + ms[|ms| - 1].duration
  }

  /** The total of an album's songs splits at any point. */
  lemma {:induction false} SumDurationsAppend(a: seq<MusicRow>, b: seq<MusicRow>)
    ensures SumDurations(a + b) == SumDurations(a) + SumDurations(b)
    decreases |b|
  {
    if b == [] {
      assert a + b == a;
    } else {
      assert (a + b)[..|a + b| - 1] == a + b[..|b| - 1];
      assert (a + b)[|a + b| - 1] == b[|b| - 1];
      SumDurationsAppend(a, b[..|b| - 1]);
    }
  }

  lemma SumDurationsSnoc(ms: seq<MusicRow>, m: MusicRow)
    ensures SumDurations(ms + [m]) == SumDurations(ms) + m.duration
  {
    assert (ms + [m])[..|ms|] == ms;
  }

  /**
   * `coverIDFromURLOrAlbum`: a cover URL with a non-blank character is the
   * reference itself; otherwise "cover-" followed by the stored cover URL of the
   * album looked up again (nothing when that lookup fails).
   */
  function CoverId(url: string, albumCover: Option<string>): (r: string)
    ensures TrimGo(url) != "" ==> r == url
    ensures TrimGo(url) == "" && albumCover.None? ==> r == "cover-"
    ensures TrimGo(url) == "" && albumCover.Some? ==> r == "cover-" + albumCover.value
  {
    if TrimGo(url) != "" then url
    else "cover-" + (match albumCover case Some(c) => c case None => "")
  }

  /**
   * The song entry of track `m` of album `a`, requested as album `id`: the track's
   * own id, the requested id as parent, the album's name, and a cover reference
   * that is never empty.
   */
  function SongOf(m: MusicRow, id: string, a: AlbumRow): (r: Song)
    ensures r.id == m.id && r.parent == id && r.album == a.name && r.duration == m.duration
    ensures r.coverArt != ""
  {
    Song(m.id, id, m.title, m.artist, a.name, m.trackNumber, m.duration, CoverId(m.coverUrl, Some(a.coverUrl)), "music")
  }

  /**
   * `HandleGetAlbum`: a missing id is a required-parameter error, a missing
   * album and a database error are generic errors; otherwise the album's song
   * count and total duration with one song per track, each pointing back at the
   * requested id. The second lookup of the cover helper finds the same album.
   */
  method GetAlbum(id: string, lookup: Lookup<AlbumRow>) returns (r: Response)
    ensures id == "" ==> r == Failed(RequiredParam, "missing id")
    ensures id != "" && lookup.NotFound? ==> r == Failed(Generic, "album not found")
    ensures id != "" && lookup.DbError? ==> r == Failed(Generic, "db error: " + lookup.message)
    ensures id != "" && lookup.Found? ==>
      var a := lookup.row;
      r.status == "ok" && r.version == ApiVersion && r.error.None? && r.body.AlbumBody? &&
      r.body.album == AlbumInfo(a.id, a.name, a.artistName, CoverId(a.coverUrl, Some(a.coverUrl)),
                                |a.musics|, SumDurations(a.musics)) &&
      |r.body.songs| == |a.musics| &&
      forall i :: 0 <= i < |a.musics| ==> r.body.songs[i] == SongOf(a.musics[i], id, a)
  {
    if id == "" {
      return Failed(RequiredParam, "missing id");
    }
    match lookup
    case NotFound =>
      r := Failed(Generic, "album not found");
    case DbError(msg) =>
      r := Failed(Generic, "db error: " + msg);
    case Found(a) =>
      var songs, total := AlbumSongs(id, a);
      var info := AlbumInfo(a.id, a.name, a.artistName, CoverId(a.coverUrl, Some(a.coverUrl)), |songs|, total);
      r := Succeeded(AlbumBody(info, songs));
  }

  /** `songs` are the song entries of `ms`, one per track, in order. */
  predicate SongsOf(songs: seq<Song>, ms: seq<MusicRow>, id: string, a: AlbumRow) {
    |songs| == |ms| && forall i :: 0 <= i < |ms| ==> songs[i] == SongOf(ms[i], id, a)
  }

  lemma SongsSnoc(songs: seq<Song>, ms: seq<MusicRow>, m: MusicRow, id: string, a: AlbumRow)
    requires SongsOf(songs, ms, id, a)
    ensures SongsOf(songs + [SongOf(m, id, a)], ms + [m], id, a)
  {
    var s', ms' := songs + [SongOf(m, id, a)], ms + [m];
    assert forall i :: 0 <= i < |ms| ==> s'[i] == songs[i] && ms'[i] == ms[i];
  }

  /** The song loop of `HandleGetAlbum`: one song per track, in order, and the summed duration. */
  method AlbumSongs(id: string, a: AlbumRow) returns (songs: seq<Song>, total: int)
    ensures total == SumDurations(a.musics)
    ensures SongsOf(songs, a.musics, id, a)
  {
    total := 0;
    songs := [];
    var ms := a.musics;
    var i := 0;
    while i < |ms|
      invariant 0 <= i <= |ms|
      invariant total == SumDurations(ms[..i])
      invariant SongsOf(songs, ms[..i], id, a)
    {
      AlbumSongsStep(songs, total, ms, i, id, a);
      total := total + ms[i].duration;
      songs := songs + [SongOf(ms[i], id, a)];
      i := i + 1;
    }
    assert ms[..i] == ms;
  }

  /** One turn of the song loop keeps its invariant. */
  lemma AlbumSongsStep(songs: seq<Song>, total: int, ms: seq<MusicRow>, i: int, id: string, a: AlbumRow)
    requires 0 <= i < |ms|
    requires total == SumDurations(ms[..i]) && SongsOf(songs, ms[..i], id, a)
    ensures total + ms[i].duration == SumDurations(ms[..i + 1])
    ensures SongsOf(songs + [SongOf(ms[i], id, a)], ms[..i + 1], id, a)
  {
    TakeOneMore(ms, i);
    SumDurationsSnoc(ms[..i], ms[i]);
    SongsSnoc(songs, ms[..i], ms[i], id, a);
  }

  lemma TakeOneMore(ms: seq<MusicRow>, i: int)
    requires 0 <= i < |ms|
    ensures ms[..i + 1] == ms[..i] + [ms[i]]
  {
  }

  /** The album of the handler tests: three songs of 240, 200 and 180 seconds total 620. */
  method TestAlbumTotals() returns (count: int, duration: int)
    ensures count == 3 && duration == 620
  {
    var cover := "/uploads/covers/test.jpg";
    var ms := [MusicRow("1", "Song 1", "Artist A", 1, 240, cover, "/music/song1.mp3"),
               MusicRow("2", "Song 2", "Band B", 2, 200, cover, "/music/song2.mp3"),
               MusicRow("3", "Song 3", "3 Doors Down", 3, 180, cover, "/music/song3.mp3")];
    assert ms[..2][..1] == ms[..1] && ms[..1][..0] == [];
    assert ms[..|ms| - 1] == ms[..2] && ms[..2][..|ms[..2]| - 1] == ms[..1];
    assert SumDurations(ms[..1]) == 240;
    assert SumDurations(ms[..2]) == 440;
    assert SumDurations(ms) == 620;
    var r := GetAlbum("1", Found(AlbumRow("1", "Test Album", "Artist A", cover, ms)));
    count := r.body.album.songCount;
    duration := r.body.album.duration;
  }

  // ---------------------------------------------------------------- random songs

  const MaxInt64 := 0x7fff_ffff_ffff_ffff
  const MinInt64 := -0x8000_0000_0000_0000

  /**
   * `strconv.Atoi` with its error ignored: an optional sign and at least one
   * decimal digit, clamped to the 64-bit range; anything else reads as 0.
   */
  function Atoi(s: string): (n: int)
    ensures MinInt64 <= n <= MaxInt64
    ensures s == "" ==> n == 0
    ensures AllDigits(s) && s != "" && DecimalValue(s) <= MaxInt64 ==> n == DecimalValue(s)
  {
    var signed := |s| > 0 && (s[0] == '+' || s[0] == '-');
    var digits := if signed then s[1..] else s;
    if digits == "" || !AllDigits(digits) then 0
    else
      var v: int := if signed && s[0] == '-' then 0 - DecimalValue(digits) else DecimalValue(digits);
      if v > MaxInt64 then MaxInt64 else if v < MinInt64 then MinInt64 else v
  }

  /** Reading back the decimal rendering of a 64-bit integer gives the integer. */
  lemma AtoiIntToString(n: int)
    requires MinInt64 <= n <= MaxInt64
    ensures Atoi(IntToString(n)) == n
  {
    var s := IntToString(n);
    if n < 0 {
      assert s[1..] == NatToString(-n);
    }
  }

  /** Text that is not a number reads as 0. */
  lemma AtoiRejects()
    ensures Atoi("abc") == 0 && Atoi("-") == 0 && Atoi("1x") == 0
  {
    assert !IsDigit('a') && !IsDigit('x');
  }

  /** `HandleGetRandomSongs`'s size: the parsed parameter when positive, otherwise 10. */
  function RandomSongsSize(size: string): (n: int)
    ensures n >= 1
    ensures Atoi(size) > 0 ==> n == Atoi(size)
    ensures Atoi(size) <= 0 ==> n == 10
  {
    var n := Atoi(size);
    if n <= 0 then 10 else n
  }

  /** A missing, unparsable, zero or negative size means 10 songs. */
  lemma RandomSongsSizeDefaults()
    ensures RandomSongsSize("") == 10 && RandomSongsSize("abc") == 10
    ensures RandomSongsSize("0") == 10 && RandomSongsSize("-5") == 10
    ensures RandomSongsSize("2") == 2
  {
    AtoiRejects();
    assert "-5"[1..] == "5";
  }

  /**
   * The largest capacity `make([]Song, 0, n)` accepts on a 64-bit system: a
   * `Song` is seven strings and two ints, 128 bytes, and Go refuses a slice
   * of more than 2^48 bytes.
   */
  const MaxSongsCapacity := 0x200_0000_0000

  /** The panic of `make` for a larger capacity; nothing recovers from it, so it ends the server process. */
  const CapOutOfRange := "runtime error: makeslice: cap out of range"

  /**
   * The columns of the `music` table: GORM's snake-case names of the fields of
   * `entity.Music`, in groups that follow the struct. The associations `Album`
   * and `User` have no column.
   */
  function MusicColumns(): seq<string> {
    NameColumns() + NumberColumns() + FileColumns() + AudioColumns() + RightsColumns() + BookColumns()
  }

  function NameColumns(): seq<string> {
    ["id", "title", "artist", "album_artist", "album_id", "genre", "composer", "performer"]
  }

  function NumberColumns(): seq<string> {
    ["year", "release_date", "track_number", "disc_number", "duration"]
  }

  function FileColumns(): seq<string> {
    ["file_url", "cover_url", "size", "suffix"]
  }

  function AudioColumns(): seq<string> {
    ["bit_rate", "sample_rate", "bit_depth", "channels", "has_cover_art"]
  }

  function RightsColumns(): seq<string> {
    ["label", "copyright", "isrc", "upc"]
  }

  function BookColumns(): seq<string> {
    ["play_count", "like_count", "user_id", "created_at", "updated_at"]
  }

  /**
   * The columns GORM selects when `Find` fills a `[]Song` from
   * `Model(&entity.Music{})`: the destination is not the model, so the query asks
   * for the destination's own fields, in their order.
   */
  function SongColumns(): seq<string> {
    ["id", "parent", "title", "artist", "album", "track", "duration", "cover_art", "type"]
  }

  /** The columns of the corrected query, `Select("id, title, artist, duration")`. */
  function ChosenColumns(): seq<string> { ["id", "title", "artist", "duration"] }

  /** The first selected column the table does not have, if any. */
  function MissingColumn(selected: seq<string>, table: seq<string>): (r: Option<string>)
    ensures r.None? <==> forall k :: 0 <= k < |selected| ==> selected[k] in table
    ensures r.Some? ==> exists k :: 0 <= k < |selected| && selected[k] == r.value && r.value !in table
                                    && forall j :: 0 <= j < k ==> selected[j] in table
    decreases |selected|
  {
    if selected == [] then None
    else if selected[0] !in table then Some(selected[0])
    else
      var r := MissingColumn(selected[1..], table);
      assert r.Some? ==> exists k :: 1 <= k < |selected| && selected[k] == r.value && r.value !in table
                                    && forall j :: 0 <= j < k ==> selected[j] in table by {
        if r.Some? {
          var k :| 0 <= k < |selected[1..]| && selected[1..][k] == r.value && r.value !in table
                   && forall j :: 0 <= j < k ==> selected[1..][j] in table;
          assert forall j :: 0 <= j < k + 1 ==> selected[j] in table by {
            forall j | 0 <= j < k + 1 ensures selected[j] in table {
              if j > 0 { assert selected[j] == selected[1..][j - 1]; }
            }
          }
        }
      }
      r
  }

  /** A `Song` read from a row: a field whose column was not selected stays empty. */
  function SongFromRow(m: MusicRow, selected: seq<string>): Song {
    Song(if "id" in selected then m.id else "", "",
         if "title" in selected then m.title else "",
         if "artist" in selected then m.artist else "", "", 0,
         if "duration" in selected then m.duration else 0, "", "")
  }

  /**
   * `Model(&entity.Music{}).Order("RANDOM()").Limit(n).Find(&songs)` asking for
   * `selected`: SQLite refuses a statement that names a column the table lacks,
   * reporting the first such column; otherwise the query gives the first `n` rows
   * of the random order `shuffled`, unless the database fails with `failure`.
   */
  function FindSongs(selected: seq<string>, shuffled: seq<MusicRow>, n: nat,
                     failure: Option<string>): Result<seq<Song>, string>
  {
    match MissingColumn(selected, MusicColumns())
    case Some(c) => Err("no such column: music." + c)
    case None =>
      if failure.Some? then Err(failure.value)
      else
        var rows := if |shuffled| < n then shuffled else shuffled[..n];
        Ok(seq(|rows|, i requires 0 <= i < |rows| => SongFromRow(rows[i], selected)))
  }

  /**
   * The reply to a request for `size` songs given the query's outcome: the result
   * slice is made with capacity `size` before the query, so a size above
   * `MaxSongsCapacity` panics (the `Err` outcome) whatever the query gives.
   */
  function RandomSongsReply(size: string, found: Result<seq<Song>, string>): Result<Response, string> {
    if RandomSongsSize(size) > MaxSongsCapacity then Err(CapOutOfRange)
    else match found
      case Err(e) => Ok(Failed(Generic, "db error: " + e))
      case Ok(songs) => Ok(Succeeded(SongsBody(songs)))
  }

  /**
   * `HandleGetRandomSongs` as written: `Find` into `[]Song` selects Song's
   * columns, and the first of them the `music` table lacks is `parent`, so every
   * request that does not panic answers a generic `db error`.
   */
  function RandomSongsAsWritten(size: string, shuffled: seq<MusicRow>, failure: Option<string>)
    : (r: Result<Response, string>)
    ensures r.Err? <==> RandomSongsSize(size) > MaxSongsCapacity
    ensures r.Err? ==> r.error == CapOutOfRange
    ensures r.Ok? ==> r.value == Failed(Generic, "db error: " + NoParentColumn)
  {
    SongColumnsMissParent();
    var found := FindSongs(SongColumns(), shuffled, RandomSongsSize(size), failure);
    MissingRefused(SongColumns(), shuffled, RandomSongsSize(size), failure, "parent");
    NoParentColumnSplit();
    RandomSongsReply(size, found)
  }

  /** SQLite's error for the first missing column of a `Song`. */
  const NoParentColumn := "no such column: music.parent"

  lemma NoParentColumnSplit()
    ensures "no such column: music." + "parent" == NoParentColumn
  {
  }

  /** `parent` is the first column of a `Song` that the `music` table does not have. */
  lemma SongColumnsMissParent()
    ensures MissingColumn(SongColumns(), MusicColumns()) == Some("parent")
  {
    assert "id" in MusicColumns() by { assert NameColumns()[0] == "id"; }
    assert SongColumns()[0] == "id" && SongColumns()[1..][0] == "parent";
    assert "parent" !in NameColumns() && "parent" !in NumberColumns() && "parent" !in FileColumns();
    assert "parent" !in AudioColumns() && "parent" !in RightsColumns() && "parent" !in BookColumns();
  }

  /** Every column of the corrected query is a column of the `music` table. */
  lemma ChosenColumnsExist()
    ensures MissingColumn(ChosenColumns(), MusicColumns()).None?
  {
    assert NameColumns()[0] == "id" && NameColumns()[1] == "title" && NameColumns()[2] == "artist";
    assert NumberColumns()[4] == "duration";
    assert forall k :: 0 <= k < |ChosenColumns()| ==> ChosenColumns()[k] in MusicColumns();
  }

  /** A query naming a column the table lacks is refused with that column, whatever the rows. */
  lemma MissingRefused(selected: seq<string>, shuffled: seq<MusicRow>, n: nat, failure: Option<string>, c: string)
    requires MissingColumn(selected, MusicColumns()) == Some(c)
    ensures FindSongs(selected, shuffled, n, failure) == Err("no such column: music." + c)
  {
  }

  /** A query whose columns all exist gives the first `n` rows, read through its columns, unless the database fails. */
  lemma FoundRows(selected: seq<string>, shuffled: seq<MusicRow>, n: nat, failure: Option<string>)
    requires MissingColumn(selected, MusicColumns()).None?
    ensures var found := FindSongs(selected, shuffled, n, failure);
      (failure.Some? ==> found == Err(failure.value)) &&
      (failure.None? ==>
        found.Ok? && |found.value| == (if |shuffled| < n then |shuffled| else n) &&
        forall i :: 0 <= i < |found.value| ==> found.value[i] == SongFromRow(shuffled[i], selected))
  {
  }

  /** A row read through the corrected query's columns keeps its four shared columns and nothing else. */
  function ChosenSong(m: MusicRow): (r: Song)
    ensures r == SongFromRow(m, ChosenColumns())
  {
    assert ChosenColumns()[0] == "id" && ChosenColumns()[1] == "title";
    assert ChosenColumns()[2] == "artist" && ChosenColumns()[3] == "duration";
    Song(m.id, "", m.title, m.artist, "", 0, m.duration, "", "")
  }

  /** The corrected query: the rows read through its columns, unless the database fails. */
  lemma ChosenRows(shuffled: seq<MusicRow>, n: nat, failure: Option<string>)
    ensures var found := FindSongs(ChosenColumns(), shuffled, n, failure);
      (failure.Some? ==> found == Err(failure.value)) &&
      (failure.None? ==>
        found.Ok? && |found.value| == (if |shuffled| < n then |shuffled| else n) &&
        forall i :: 0 <= i < |found.value| ==> found.value[i] == ChosenSong(shuffled[i]))
  {
    ChosenColumnsExist();
    FoundRows(ChosenColumns(), shuffled, n, failure);
  }

  /**
   * `HandleGetRandomSongs` with the query selecting the four columns a `Song`
   * shares with the table: a failed query answers `db error`, and a successful
   * one the first `size` rows of the shuffled table (all of them when there are
   * fewer), each with its id, title, artist and duration and every other field
   * empty, so the XML attributes marked `omitempty` are left out.
   */
  function RandomSongs(size: string, shuffled: seq<MusicRow>, failure: Option<string>)
    : (r: Result<Response, string>)
    ensures r.Err? <==> RandomSongsSize(size) > MaxSongsCapacity
    ensures r.Err? ==> r.error == CapOutOfRange
    ensures r.Ok? && failure.Some? ==> r.value == Failed(Generic, "db error: " + failure.value)
    ensures r.Ok? && failure.None? ==>
      r.value.status == "ok" && r.value.error.None? && r.value.body.SongsBody?
    ensures r.Ok? && failure.None? ==>
      var songs, want := r.value.body.songs, RandomSongsSize(size);
      |songs| == (if |shuffled| < want then |shuffled| else want) &&
      forall i :: 0 <= i < |songs| ==>
        songs[i] == Song(shuffled[i].id, "", shuffled[i].title, shuffled[i].artist, "", 0,
                         shuffled[i].duration, "", "")
  {
    ChosenRows(shuffled, RandomSongsSize(size), failure);
    RandomSongsReply(size, FindSongs(ChosenColumns(), shuffled, RandomSongsSize(size), failure))
  }

  /**
   * Below the capacity bound the handler as written never lists a song, even
   * when the database works and holds tracks, while the corrected query lists
   * them.
   */
  lemma RandomSongsNeverSucceed(size: string, shuffled: seq<MusicRow>)
    requires RandomSongsSize(size) <= MaxSongsCapacity
    ensures RandomSongsAsWritten(size, shuffled, None) == Ok(Failed(Generic, "db error: " + NoParentColumn))
    ensures shuffled != [] ==> RandomSongs(size, shuffled, None).Ok?
                               && |RandomSongs(size, shuffled, None).value.body.songs| > 0
  {
  }

  /** A size written out in decimal above the capacity bound, up to the 64-bit maximum, makes the handler panic. */
  lemma HugeSizePanics(n: int, shuffled: seq<MusicRow>, failure: Option<string>)
    requires MaxSongsCapacity < n <= MaxInt64
    ensures RandomSongsAsWritten(IntToString(n), shuffled, failure) == Err(CapOutOfRange)
    ensures RandomSongs(IntToString(n), shuffled, failure) == Err(CapOutOfRange)
  {
    AtoiIntToString(n);
  }

  // ---------------------------------------------------------------- files

  /** A file endpoint's reply: an error status with a text body, or a file sent with a content type. */
  datatype FileReply = Failure(status: int, message: string) | SendFile(contentType: string, path: string)

  /** `filepath.Join(base)`: the cleaned base, or "" for an empty base. */
  function JoinOne(base: string): string {
    if base == "" then "" else GoPath.Clean(base)
  }

  /** A stored path that starts with `/` is used as is; any other is joined under `baseDir`. */
  function FullPath(stored: string, baseDir: string): (p: string)
    ensures StartsWith(stored, "/") ==> p == stored
    ensures !StartsWith(stored, "/") ==> p == GoPath.Join2(baseDir, stored)
  {
    if StartsWith(stored, "/") then stored else GoPath.Join2(baseDir, stored)
  }

  /** A relative stored path under an absolute base directory resolves to an absolute path. */
  lemma FullPathRooted(stored: string, baseDir: string)
    requires baseDir != "" && baseDir[0] == '/'
    ensures FullPath(stored, baseDir) != "" && FullPath(stored, baseDir)[0] == '/'
  {
  }

  /** The image type for a cover path, by lower-cased extension. */
  function ImageType(path: string): (t: string)
    ensures GoLower(GoPath.Ext(path)) == ".png" ==> t == "png"
    ensures GoLower(GoPath.Ext(path)) == ".webp" ==> t == "webp"
    ensures GoLower(GoPath.Ext(path)) != ".png" && GoLower(GoPath.Ext(path)) != ".webp" ==> t == "jpeg"
  {
    var ext := GoLower(GoPath.Ext(path));
    if ext == ".png" then "png" else if ext == ".webp" then "webp" else "jpeg"
  }

  /** The audio type for a music path, by lower-cased extension; MP3 when unknown. */
  function AudioType(path: string): (t: string)
    ensures GoLower(GoPath.Ext(path)) == ".flac" ==> t == "audio/flac"
    ensures GoLower(GoPath.Ext(path)) == ".wav" ==> t == "audio/wav"
    ensures GoLower(GoPath.Ext(path)) != ".flac" && GoLower(GoPath.Ext(path)) != ".wav" ==> t == "audio/mpeg"
  {
    var ext := GoLower(GoPath.Ext(path));
    if ext == ".flac" then "audio/flac" else if ext == ".wav" then "audio/wav" else "audio/mpeg"
  }

  /** Upper-case extensions are recognised: a `.PNG` file is a PNG image and a `.FLAC` file a FLAC stream. */
  lemma ExtensionCaseIgnored(front: string, png: string, flac: string)
    requires png == "PNG" && flac == "FLAC"
    ensures ImageType(front + "." + png) == "png" && AudioType(front + "." + flac) == "audio/flac"
  {
    GoPath.ExtOfSuffix(front, png);
    GoPath.ExtOfSuffix(front, flac);
    UpperExtensionsLower(png, flac);
  }

  lemma UpperExtensionsLower(png: string, flac: string)
    requires png == "PNG" && flac == "FLAC"
    ensures GoLower("." + png) == ".png" && GoLower("." + flac) == ".flac"
  {
    assert "." + png == ".PNG" && "." + flac == ".FLAC";
  }

  /**
   * `HandleGetCoverArt`. `coverUrl` is the album's `cover_url` as plucked: ""
   * when no album has the id, an error when the query fails.
   */
  function CoverArt(id: string, coverUrl: Result<string, string>, basePath: string): (r: FileReply)
    ensures id == "" ==> r == Failure(400, "missing id")
    ensures id != "" && coverUrl.Err? ==> r == Failure(404, "cover art not found")
    ensures id != "" && coverUrl.Ok? && TrimGo(coverUrl.value) == "" ==> r == Failure(404, "cover art not set")
    ensures id != "" && coverUrl.Ok? && TrimGo(coverUrl.value) != "" ==>
      r == SendFile(ImageType(coverUrl.value), FullPath(coverUrl.value, basePath))
  {
    if id == "" then Failure(400, "missing id")
    else match coverUrl
      case Err(_) => Failure(404, "cover art not found")
      case Ok(url) =>
        if TrimGo(url) == "" then Failure(404, "cover art not set")
        else SendFile(ImageType(url), FullPath(url, basePath))
  }

  /** An unknown album id is answered with 404. */
  lemma UnknownCoverIs404(basePath: string)
    ensures CoverArt("999", Ok(""), basePath) == Failure(404, "cover art not set")
  {
  }

  /**
   * The core of `HandleStream` after the path column is read: `plucked` is that
   * column (or "" when no song has the id), or the query's error.
   */
  function ServeStream(id: string, plucked: Result<string, string>, basePath: string): (r: FileReply)
    ensures id == "" ==> r == Failure(400, "missing id")
    ensures id != "" && plucked.Err? ==> r == Failure(404, "music not found")
    ensures id != "" && plucked.Ok? && TrimGo(plucked.value) == "" ==> r == Failure(404, "music file path not set")
    ensures id != "" && plucked.Ok? && TrimGo(plucked.value) != "" ==>
      r == SendFile(AudioType(plucked.value), FullPath(plucked.value, JoinOne(basePath)))
  {
    if id == "" then Failure(400, "missing id")
    else match plucked
      case Err(_) => Failure(404, "music not found")
      case Ok(p) =>
        if TrimGo(p) == "" then Failure(404, "music file path not set")
        else SendFile(AudioType(p), FullPath(p, JoinOne(basePath)))
  }

  /** The value `Pluck(column)` leaves for the song with the id: "" when there is none. */
  function PluckColumn(row: Result<Option<MusicRow>, string>, fileColumn: bool): (r: Result<string, string>)
    ensures row.Err? ==> r == Err(row.error)
    ensures row.Ok? && row.value.None? ==> r == Ok("")
    ensures row.Ok? && row.value.Some? ==>
      r == Ok(if fileColumn then row.value.value.fileUrl else row.value.value.coverUrl)
  {
    match row
    case Err(e) => Err(e)
    case Ok(None) => Ok("")
    case Ok(Some(m)) => Ok(if fileColumn then m.fileUrl else m.coverUrl)
  }

  /** `HandleStream` as written: it plucks the song's cover column, not its file column. */
  function StreamAsWritten(id: string, row: Result<Option<MusicRow>, string>, basePath: string): (r: FileReply)
    ensures id != "" && row.Ok? && row.value.Some? && TrimGo(row.value.value.coverUrl) != "" ==>
      r == SendFile(AudioType(row.value.value.coverUrl), FullPath(row.value.value.coverUrl, JoinOne(basePath)))
    ensures id != "" && row.Ok? && row.value.Some? && TrimGo(row.value.value.coverUrl) == "" ==>
      r == Failure(404, "music file path not set")
  {
    ServeStream(id, PluckColumn(row, false), basePath)
  }

  /** `HandleStream` reading the file column, as its comments and error messages intend. */
  function Stream(id: string, row: Result<Option<MusicRow>, string>, basePath: string): (r: FileReply)
    ensures id != "" && row.Ok? && row.value.Some? && TrimGo(row.value.value.fileUrl) != "" ==>
      r == SendFile(AudioType(row.value.value.fileUrl), FullPath(row.value.value.fileUrl, JoinOne(basePath)))
    ensures id != "" && row.Ok? && row.value.None? ==> r == Failure(404, "music file path not set")
  {
    ServeStream(id, PluckColumn(row, true), basePath)
  }

  /** As written, a song with a cover is streamed from its cover image's path. */
  lemma StreamAsWrittenSendsCover(id: string, m: MusicRow, basePath: string)
    requires id != "" && TrimGo(m.coverUrl) != ""
    ensures StreamAsWritten(id, Ok(Some(m)), basePath).SendFile?
    ensures StreamAsWritten(id, Ok(Some(m)), basePath).path == FullPath(m.coverUrl, JoinOne(basePath))
  {
  }

  /**
   * A song with a file and no cover: as written the stream is refused with 404;
   * reading the file column sends the MP3.
   */
  lemma StreamReadsWrongColumn()
    ensures StreamAsWritten("1", Ok(Some(MusicRow("1", "Song 1", "Artist A", 1, 240, "", "/music/a.mp3"))), "")
            == Failure(404, "music file path not set")
    ensures Stream("1", Ok(Some(MusicRow("1", "Song 1", "Artist A", 1, 240, "", "/music/a.mp3"))), "")
            == SendFile("audio/mpeg", "/music/a.mp3")
  {
    SubsonicAuth.TrimmedAlready("/music/a.mp3");
    GoPath.ExtOfSuffix("/music/a", "mp3");
    assert "/music/a" + "." + "mp3" == "/music/a.mp3";
    assert StartsWith("/music/a.mp3", "/");
  }
}
