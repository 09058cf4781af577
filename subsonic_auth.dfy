/**
 * Subsonic request authentication: reading `u`, `p`, `c` and `v` from the query
 * (with the `enc:` hexadecimal password form), and checking the credentials
 * against the user table.
 */
module SubsonicAuth {
  import opened Wrappers
  import opened Text
  import opened Utf8
  import EntityUser
  import StringOrder

  /** `url.Values`: every key maps to its values in order. */
  type Query = map<string, seq<string>>

  /** `q.Get(key)`: the first value, or "" when there is none. */
  function Get(q: Query, key: string): (v: string)
    ensures key !in q || q[key] == [] ==> v == ""
    ensures key in q && q[key] != [] ==> v == q[key][0]
  {
    if key in q && q[key] != [] then q[key][0] else ""
  }

  function HexValue(c: char): Option<byte> {
    if '0' <= c <= '9' then Some((c as int - '0' as int) as byte)
    else if 'a' <= c <= 'f' then Some((c as int - 'a' as int + 10) as byte)
    else if 'A' <= c <= 'F' then Some((c as int - 'A' as int + 10) as byte)
    else None
  }

  predicate IsHexDigit(c: char) { HexValue(c).Some? }

  /**
   * `hex.DecodeString`: upper- or lower-case digit pairs, one byte each; an odd
   * length or any other character is an error.
   */
  function HexDecode(s: string): (r: Option<seq<byte>>)
    ensures r.Some? <==> |s| % 2 == 0 && forall i :: 0 <= i < |s| ==> IsHexDigit(s[i])
    ensures r.Some? ==> 2 * |r.value| == |s|
    decreases |s|
  {
    if |s| == 0 then Some([])
    else if |s| == 1 then None
    else
      var hi := HexValue(s[0]);
      var lo := HexValue(s[1]);
      var rest := HexDecode(s[2..]);
      if hi.Some? && lo.Some? && rest.Some? then
        var b: seq<byte> := [(hi.value as int * 16 + lo.value as int) as byte];
        Some(b + rest.value)
      else
        assert forall i :: 0 <= i < |s| - 2 ==> s[2..][i] == s[i + 2];
        None
  }

  function LowerHexDigit(d: nat): (c: char)
    requires d < 16
    ensures HexValue(c) == Some(d as byte)
  {
    if d < 10 then ('0' as int + d) as char else ('a' as int + d - 10) as char
  }

  /** `hex.EncodeToString`: two lower-case digits per byte. */
  function HexEncode(b: seq<byte>): (s: string)
    ensures |s| == 2 * |b|
  {
    if b == [] then ""
    else [LowerHexDigit(b[0] as int / 16), LowerHexDigit(b[0] as int % 16)] + HexEncode(b[1..])
  }

  /** Decoding an encoding gives back the bytes. */
  lemma {:induction false} HexRoundTrip(b: seq<byte>)
    ensures HexDecode(HexEncode(b)) == Some(b)
  {
    if b != [] {
      var s := HexEncode(b);
      HexRoundTrip(b[1..]);
      assert s[2..] == HexEncode(b[1..]);
      assert b == [b[0]] + b[1..];
    }
  }

  /** The parsed parameters. The password is a Go string, that is bytes: those of the parameter's text, or the decoded ones. */
  datatype Auth = Auth(username: string, password: seq<byte>, client: string, version: string)

  const MissingParams := "missing required auth params (u,p)"

  /**
   * The password parameter: `enc:` followed by valid hex gives the decoded
   * bytes, which `string(b)` keeps as they are; anything else is the text
   * itself, that is its UTF-8 bytes.
   */
  function DecodePassword(p: string): (pw: seq<byte>)
    ensures !StartsWith(p, "enc:") ==> pw == Encode(p)
    ensures StartsWith(p, "enc:") && HexDecode(p[4..]).None? ==> pw == Encode(p)
    ensures StartsWith(p, "enc:") && HexDecode(p[4..]).Some? ==> pw == HexDecode(p[4..]).value && 2 * |pw| == |p| - 4
  {
    if StartsWith(p, "enc:") then
      match HexDecode(p[4..])
      case Some(b) => b
      case None => Encode(p)
    else Encode(p)
  }

  /**
   * `ParseAuth`: `u`, `c` and `v` are trimmed and `p` is not; an empty user
   * name or password is an error; the password is decoded.
   */
  function ParseAuth(q: Query): (r: Result<Auth, string>)
    ensures r.Err? <==> TrimGo(Get(q, "u")) == "" || Get(q, "p") == ""
    ensures r.Err? ==> r.error == MissingParams
    ensures r.Ok? ==> r.value.username == TrimGo(Get(q, "u")) && r.value.client == TrimGo(Get(q, "c"))
                      && r.value.version == TrimGo(Get(q, "v"))
                      && r.value.password == DecodePassword(Get(q, "p"))
  {
    var username := TrimGo(Get(q, "u"));
    var password := Get(q, "p");
    if username == "" || password == "" then Err(MissingParams)
    else Ok(Auth(username, DecodePassword(password), TrimGo(Get(q, "c")), TrimGo(Get(q, "v"))))
  }

  /** `ParseAuthFromFiber`: Fiber's single-valued query map turned into query values, then parsed. */
  function FromFiber(queries: map<string, string>): (q: Query)
    ensures forall key :: Get(q, key) == (if key in queries then queries[key] else "")
  {
    map key | key in queries :: [queries[key]]
  }

  function ParseAuthFromFiber(queries: map<string, string>): (r: Result<Auth, string>)
    ensures r.Err? <==> TrimGo(if "u" in queries then queries["u"] else "") == ""
                        || !("p" in queries) || queries["p"] == ""
    ensures r == ParseAuth(FromFiber(queries))
  {
    ParseAuth(FromFiber(queries))
  }

  /**
   * A password sent as `enc:` and the hex of its UTF-8 bytes reads as the same
   * bytes as the password sent in the clear, for every password.
   */
  lemma EncodedPasswordRoundTrip(pw: string)
    ensures DecodePassword("enc:" + HexEncode(Encode(pw))) == Encode(pw)
    ensures !StartsWith(pw, "enc:") ==> DecodePassword("enc:" + HexEncode(Encode(pw))) == DecodePassword(pw)
  {
    var p := "enc:" + HexEncode(Encode(pw));
    assert p[..4] == "enc:";
    assert p[4..] == HexEncode(Encode(pw));
    HexRoundTrip(Encode(pw));
  }

  /** The one-character password `é`, whose UTF-8 bytes are C3 A9, is sent as `enc:c3a9`. */
  lemma NonAsciiPasswordDecodes()
    ensures DecodePassword("enc:c3a9") == Encode("\U{e9}")
  {
    var bytes: seq<byte> := [0xC3, 0xA9];
    NonAsciiBytes("\U{e9}", bytes);
    NonAsciiHex(bytes, "c3a9");
    EncodedAs("enc:c3a9", "c3a9", bytes, "\U{e9}");
  }

  lemma NonAsciiBytes(w: string, bytes: seq<byte>)
    requires w == "\U{e9}" && bytes == [0xC3, 0xA9]
    ensures Encode(w) == bytes
  {
    assert w[1..] == "";
  }

  lemma NonAsciiHex(bytes: seq<byte>, hex: string)
    requires bytes == [0xC3, 0xA9] && hex == "c3a9"
    ensures HexEncode(bytes) == hex
  {
    assert HexEncode(bytes[1..]) == "a9";
  }

  /** `enc:` and the hex of a text's bytes decode to those bytes. */
  lemma EncodedAs(p: string, hex: string, bytes: seq<byte>, w: string)
    requires p == "enc:" + hex && HexEncode(bytes) == hex && Encode(w) == bytes
    ensures DecodePassword(p) == Encode(w)
  {
    assert p[..4] == "enc:" && p[4..] == hex;
    HexRoundTrip(bytes);
  }

  lemma TestPasswordDecodes()
    ensures DecodePassword("enc:74657374") == Encode("test")
  {
    var bytes: seq<byte> := [0x74, 0x65, 0x73, 0x74];
    TestHexEncodes(bytes, "74657374");
    TestBytesSpell(bytes, "test");
    EncodedAs("enc:74657374", "74657374", bytes, "test");
  }

  lemma TestHexEncodes(bytes: seq<byte>, hex: string)
    requires bytes == [0x74, 0x65, 0x73, 0x74] && hex == "74657374"
    ensures HexEncode(bytes) == hex
  {
    assert HexEncode(bytes[3..]) == "74";
    assert HexEncode(bytes[2..]) == "7374";
    assert HexEncode(bytes[1..]) == "657374";
  }

  lemma TestBytesSpell(bytes: seq<byte>, w: string)
    requires bytes == [0x74, 0x65, 0x73, 0x74] && w == "test"
    ensures Encode(w) == bytes
  {
    AsciiEncodes(w);
  }

  lemma TrimmedAlready(s: string)
    requires |s| > 0 && !IsGoSpace(s[0]) && !IsGoSpace(s[|s| - 1])
    ensures TrimGo(s) == s
  {
    assert SkipStart(s, GoSpaces, 0) == 0;
    assert SkipEnd(s, GoSpaces, 0, |s|) == |s|;
  }

  /** The query of the handler tests authenticates as user "test" with password "test". */
  lemma TestQueryParses()
    ensures ParseAuth(map["u" := ["test"], "p" := ["enc:74657374"], "v" := ["1.16.1"], "c" := ["test"]])
            == Ok(Auth("test", Encode("test"), "test", "1.16.1"))
  {
    var q: Query := map["u" := ["test"], "p" := ["enc:74657374"], "v" := ["1.16.1"], "c" := ["test"]];
    TestQueryFields(q);
    TestPasswordDecodes();
    TestFieldsTrimmed();
    ParsedFields(q, "test", "enc:74657374", "test", "1.16.1");
  }

  lemma TestFieldsTrimmed()
    ensures TrimGo("test") == "test" && TrimGo("1.16.1") == "1.16.1"
  {
    TrimmedAlready("test");
    TrimmedAlready("1.16.1");
  }

  lemma TestQueryFields(q: Query)
    requires q == map["u" := ["test"], "p" := ["enc:74657374"], "v" := ["1.16.1"], "c" := ["test"]]
    ensures Get(q, "u") == "test" && Get(q, "c") == "test"
    ensures Get(q, "p") == "enc:74657374" && Get(q, "v") == "1.16.1"
  {
  }

  /** A query whose fields are already trimmed and carry a password parses to exactly those fields. */
  lemma ParsedFields(q: Query, u: string, p: string, c: string, v: string)
    requires Get(q, "u") == u && Get(q, "p") == p && Get(q, "c") == c && Get(q, "v") == v
    requires TrimGo(u) == u && u != "" && p != "" && TrimGo(c) == c && TrimGo(v) == v
    ensures ParseAuth(q) == Ok(Auth(u, DecodePassword(p), c, v))
  {
  }

  /** A password of the `enc:` form with invalid hex is kept, prefix included. */
  lemma InvalidHexKept()
    ensures DecodePassword("enc:zz") == Encode("enc:zz")
  {
    assert "enc:zz"[4..] == "zz";
    assert !IsHexDigit('z');
  }

  /** A row of the user table; the table's rows are in the order they were inserted. */
  datatype UserRow = UserRow(id: string, username: string, email: string, password: string, status: int)

  predicate NamedOrMailed(row: UserRow, name: string) {
    row.username == name || row.email == name
  }

  /**
   * The index of the row that `Where("username = ? OR email = ?").First`
   * returns: `First` orders by the primary key, so of the rows whose user name
   * or e-mail equals `name` it is the one with the least id (the earliest
   * inserted among equal ids, which the primary key rules out), or -1 when no
   * row matches.
   */
  function FirstMatch(rows: seq<UserRow>, name: string): (k: int)
    ensures -1 <= k < |rows|
    ensures k >= 0 ==> NamedOrMailed(rows[k], name)
    ensures k < 0 ==> forall j :: 0 <= j < |rows| ==> !NamedOrMailed(rows[j], name)
  {
    if rows == [] then -1
    else
      var t := FirstMatch(rows[1..], name);
      if !NamedOrMailed(rows[0], name) then (if t < 0 then -1 else t + 1)
      else if t >= 0 && StringOrder.Less(rows[t + 1].id, rows[0].id) then t + 1
      else 0
  }

  /** Every other matching row has a greater id, or the same id and a later place. */
  lemma {:induction false} FirstMatchLeastId(rows: seq<UserRow>, name: string, j: nat)
    requires j < |rows| && NamedOrMailed(rows[j], name)
    ensures var k := FirstMatch(rows, name);
      k >= 0 && (j == k || StringOrder.Less(rows[k].id, rows[j].id) || (rows[k].id == rows[j].id && k < j))
    decreases |rows|
  {
    var k := FirstMatch(rows, name);
    var t := FirstMatch(rows[1..], name);
    if j > 0 {
      FirstMatchLeastId(rows[1..], name, j - 1);
      if k == 0 && t + 1 != j {
        // rows[0].id is not above rows[t + 1].id, which is not above rows[j].id
        StringOrder.LessTotal(rows[t + 1].id, rows[0].id);
        if StringOrder.Less(rows[0].id, rows[t + 1].id) && StringOrder.Less(rows[t + 1].id, rows[j].id) {
          StringOrder.LessTransitive(rows[0].id, rows[t + 1].id, rows[j].id);
        }
      } else if k == 0 {
        StringOrder.LessTotal(rows[t + 1].id, rows[0].id);
      }
    } else if k != 0 {
      assert t >= 0 && StringOrder.Less(rows[t + 1].id, rows[0].id);
    }
  }

  /**
   * A user whose name is another user's e-mail: `First` answers with the
   * smaller id, wherever the two rows stand in the table.
   */
  lemma NameAndMailClash()
    ensures var a := UserRow("B0000000", "a@b.co", "a@x.co", "", 1);
      var b := UserRow("A0000000", "b", "a@b.co", "", 1);
      FirstMatch([a, b], "a@b.co") == 1 && FirstMatch([b, a], "a@b.co") == 0
  {
    var a := UserRow("B0000000", "a@b.co", "a@x.co", "", 1);
    var b := UserRow("A0000000", "b", "a@b.co", "", 1);
    assert [a, b][1..] == [b] && [b, a][1..] == [a];
    assert StringOrder.Less(b.id, a.id);
    assert !StringOrder.Less(a.id, b.id) by { StringOrder.LessTotal(a.id, b.id); }
  }

  const AuthMissing := "auth missing"
  const UserNotFound := "user not found"
  const UserDisabled := "user disabled"
  const InvalidCredentials := "invalid credentials"

  /**
   * `ValidateAuth`: the user whose name or e-mail equals the request's user
   * name, the one with the least id when there are several, must exist, be active (status 1), and have a password hash that
   * matches; the checks run in that order. `dbError` is a lookup failure other
   * than "not found".
   */
  function ValidateAuth(a: Option<Auth>, rows: seq<UserRow>, dbError: Option<string>): (r: Result<UserRow, string>)
    ensures a.None? ==> r == Err(AuthMissing)
    ensures a.Some? && dbError.Some? ==> r == Err(dbError.value)
    ensures a.Some? && dbError.None? ==>
      var k := FirstMatch(rows, a.value.username);
      (k < 0 ==> r == Err(UserNotFound)) &&
      (k >= 0 && rows[k].status != 1 ==> r == Err(UserDisabled)) &&
      (k >= 0 && rows[k].status == 1 && !EntityUser.BcryptMatchesBytes(rows[k].password, a.value.password) ==>
        r == Err(InvalidCredentials)) &&
      (r.Ok? <==> k >= 0 && rows[k].status == 1 && EntityUser.BcryptMatchesBytes(rows[k].password, a.value.password)) &&
      (r.Ok? ==> r.value == rows[k])
  {
    if a.None? then Err(AuthMissing)
    else if dbError.Some? then Err(dbError.value)
    else
      var k := FirstMatch(rows, a.value.username);
      if k < 0 then Err(UserNotFound)
      else if rows[k].status != 1 then Err(UserDisabled)
      else if !EntityUser.BcryptMatchesBytes(rows[k].password, a.value.password) then Err(InvalidCredentials)
      else Ok(rows[k])
  }

  /**
   * `ValidateAuthFromFiber`: a request whose parameters do not parse is
   * refused with the parse error; a request that is let through belongs to an
   * active user named (or mailed) as the trimmed `u` parameter.
   */
  function ValidateAuthFromFiber(queries: map<string, string>, rows: seq<UserRow>, dbError: Option<string>): (r: Result<UserRow, string>)
    ensures ParseAuthFromFiber(queries).Err? ==> r == Err(MissingParams)
    ensures r.Ok? ==>
      r.value in rows && r.value.status == 1 &&
      (r.value.username == TrimGo(Get(FromFiber(queries), "u")) || r.value.email == TrimGo(Get(FromFiber(queries), "u")))
  {
    match ParseAuthFromFiber(queries)
    case Err(e) => Err(e)
    case Ok(a) => ValidateAuth(Some(a), rows, dbError)
  }

  /**
   * An active user whose stored hash was made from `pw` is let in with `other`
   * sent hex-encoded behind `enc:` exactly when `other` is `pw`, whatever its
   * characters; a wrong one is refused as invalid credentials.
   */
  lemma EncodedPasswordSignsIn(name: string, rows: seq<UserRow>, salt: string, pw: string, other: string)
    requires |salt| == EntityUser.SaltLength
    requires FirstMatch(rows, name) >= 0
    requires rows[FirstMatch(rows, name)].status == 1
    requires rows[FirstMatch(rows, name)].password == EntityUser.BcryptHash(salt, pw)
    ensures var a := Auth(name, DecodePassword("enc:" + HexEncode(Encode(other))), "", "");
      (ValidateAuth(Some(a), rows, None).Ok? <==> other == pw) &&
      (other != pw ==> ValidateAuth(Some(a), rows, None) == Err(InvalidCredentials))
  {
    EncodedPasswordRoundTrip(other);
    EntityUser.BcryptBytesAgree(EntityUser.BcryptHash(salt, pw), other);
    EntityUser.BcryptHashMatches(salt, pw, other);
  }

  /** A disabled account is refused as disabled even when the password is right. */
  lemma DisabledBeforePassword(a: Auth, rows: seq<UserRow>)
    requires FirstMatch(rows, a.username) >= 0
    requires rows[FirstMatch(rows, a.username)].status != 1
    ensures ValidateAuth(Some(a), rows, None) == Err(UserDisabled)
  {
  }

  /** A successful check returns an active user whose hash matches and whose name or e-mail is the one asked for. */
  lemma ValidatedUserMatches(a: Auth, rows: seq<UserRow>)
    requires ValidateAuth(Some(a), rows, None).Ok?
    ensures var u := ValidateAuth(Some(a), rows, None).value;
      u in rows && u.status == 1 && (u.username == a.username || u.email == a.username)
      && EntityUser.BcryptMatchesBytes(u.password, a.password)
  {
  }
}
