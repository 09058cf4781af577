/**
 * The authentication middleware and the two role gates. The token check of
 * the JWT library is a parameter: `parse(token)` is the claims of a valid
 * token and None for any other.
 */
module AuthMiddleware {
  import opened Wrappers
  import EntityRole
  import Text

  const Unauthorized := 401
  const Forbidden := 403

  const NoToken := "未提供认证令牌"
  const BadFormat := "认证令牌格式错误"
  const BadToken := "无效的认证令牌"
  const NoRole := "无法获取用户角色"
  const NotAllowed := "权限不足"

  const BearerScheme := "Bearer"

  datatype Claims = Claims(userId: string, username: string, email: string, role: string)

  /** What the middleware stores in the request context for the handlers after it. */
  datatype Locals = Locals(userId: string, username: string, email: string, role: string)

  /** The request goes on to the next handler, or is answered with a status and a message. */
  datatype Decision = Next | Reject(status: int, message: string)

  datatype AuthOutcome = Authenticated(locals: Locals) | Refused(status: int, message: string)

  /** `strings.SplitN(s, " ", 2)`: split at the first space, or `[s]` when there is none. */
  function SplitFirstSpace(s: string): (parts: seq<string>)
    ensures 1 <= |parts| <= 2
    ensures |parts| == 1 <==> ' ' !in s
    ensures |parts| == 1 ==> parts[0] == s
    ensures |parts| == 2 ==> s == parts[0] + " " + parts[1] && ' ' !in parts[0]
  {
    if ' ' in s then
      var k := Text.IndexOf(s, ' ');
      assert s == s[..k] + " " + s[k + 1..];
      [s[..k], s[k + 1..]]
    else [s]
  }

  /** `AuthMiddleware`: the `Authorization` header must read `Bearer <token>` with a token `parse` accepts. */
  function Authenticate(header: string, parse: string -> Option<Claims>): (r: AuthOutcome)
    ensures header == "" ==> r == Refused(Unauthorized, NoToken)
    ensures r.Refused? ==> r.status == Unauthorized
    ensures r.Authenticated? ==> EntityRole.IsValid(r.locals.role)
  {
    if header == "" then Refused(Unauthorized, NoToken)
    else
      var parts := SplitFirstSpace(header);
      if |parts| != 2 || parts[0] != BearerScheme then Refused(Unauthorized, BadFormat)
      else match parse(parts[1])
        case None => Refused(Unauthorized, BadToken)
        case Some(c) => Authenticated(Locals(c.userId, c.username, c.email, EntityRole.RoleFromString(c.role)))
  }

  /** A non-empty header is well formed exactly when it starts with "Bearer "; the token is the rest. */
  lemma BearerFormat(header: string, parse: string -> Option<Claims>)
    requires header != ""
    ensures Authenticate(header, parse) != Refused(Unauthorized, BadFormat) <==>
      |header| >= 7 && header[..7] == BearerScheme + " "
    ensures |header| >= 7 && header[..7] == BearerScheme + " " ==>
      Authenticate(header, parse) ==
        match parse(header[7..])
        case None => Refused(Unauthorized, BadToken)
        case Some(c) => Authenticated(Locals(c.userId, c.username, c.email, EntityRole.RoleFromString(c.role)))
  {
    var parts := SplitFirstSpace(header);
    var prefix := BearerScheme + " ";
    assert |prefix| == 7 && prefix[6] == ' ' && ' ' !in prefix[..6];
    if |parts| == 2 && parts[0] == BearerScheme {
      assert header == prefix + parts[1];
      assert header[..7] == prefix;
    }
    if |header| >= 7 && header[..7] == prefix {
      assert header[6] == ' ';
      assert ' ' in header;
      var k := Text.IndexOf(header, ' ');
      assert header[..6] == BearerScheme;
      assert k == 6;
      assert parts[0] == BearerScheme && parts[1] == header[7..];
    }
  }

  /**
   * `AdminMiddleware` as written: it only needs a role in the context; the
   * rejection of non-admin roles is commented out, so every stored role passes.
   */
  function AdminGate(role: Option<string>): (d: Decision)
    ensures d == Next <==> role.Some?
    ensures d != Next ==> d == Reject(Forbidden, NoRole)
  {
    if role.None? then Reject(Forbidden, NoRole) else Next
  }

  /** `RoleMiddleware(allowed...)`: scans the allowed roles and lets the request through on the first match. */
  method RoleGate(role: Option<string>, allowed: seq<string>) returns (d: Decision)
    ensures role.None? ==> d == Reject(Forbidden, NoRole)
    ensures role.Some? ==> (d == Next <==> role.value in allowed)
    ensures role.Some? && role.value !in allowed ==> d == Reject(Forbidden, NotAllowed)
  {
    if role.None? {
      return Reject(Forbidden, NoRole);
    }
    var i := 0;
    while i < |allowed|
      invariant 0 <= i <= |allowed|
      invariant role.value !in allowed[..i]
    {
      if role.value == allowed[i] {
        return Next;
      }
      i := i + 1;
    }
    assert allowed[..i] == allowed;
    d := Reject(Forbidden, NotAllowed);
  }
}
