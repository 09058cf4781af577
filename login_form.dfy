/**
 * The sign-in and registration form: four text fields, a mode flag, an error
 * line and a loading flag. Validation runs a fixed sequence of checks and
 * stops at the first that fails; only a form that passes them all is sent.
 * The server's reply is a parameter of the submit operation.
 */
module LoginForm {
  import opened Wrappers
  import opened Text
  import UserStore

  const UsernameRequired := "请输入用户名"
  const EmailRequired := "请输入邮箱"
  const EmailInvalid := "请输入有效的邮箱地址"
  const PasswordRequired := "请输入密码"
  const PasswordTooShort := "密码至少需要6个字符"
  const PasswordsDiffer := "两次输入的密码不一致"
  const ReplyFallback := "操作失败，请重试"
  const NetworkFallback := "网络错误，请稍后重试"

  const MinPasswordLength := 6

  datatype Form = Form(username: string, email: string, password: string, confirmPassword: string)

  const EmptyForm := Form("", "", "", "")

  /** `handleInputChange`: the named field takes the value; other names leave the four fields alone. */
  function SetField(f: Form, name: string, value: string): (g: Form)
    ensures name == "username" ==> g == f.(username := value)
    ensures name == "email" ==> g == f.(email := value)
    ensures name == "password" ==> g == f.(password := value)
    ensures name == "confirmPassword" ==> g == f.(confirmPassword := value)
    ensures name !in {"username", "email", "password", "confirmPassword"} ==> g == f
  {
    match name
    case "username" => f.(username := value)
    case "email" => f.(email := value)
    case "password" => f.(password := value)
    case "confirmPassword" => f.(confirmPassword := value)
    case _ => f
  }

  /** A character `[^\s@]` matches. */
  predicate Plain(c: char) {
    !IsJsSpace(c) && c != '@'
  }

  predicate AllPlain(t: string) {
    forall k :: 0 <= k < |t| ==> Plain(t[k])
  }

  /**
   * `s` is `a@b.c` with `a`, `b`, `c` non-empty runs of `[^\s@]`: the `@` at
   * `i` and the `.` at `j`. This is the language of `^[^\s@]+@[^\s@]+\.[^\s@]+$`.
   */
  predicate EmailSplit(s: string, i: int, j: int) {
    0 < i && i + 1 < j && j + 1 < |s| && s[i] == '@' && s[j] == '.' &&
    AllPlain(s[..i]) && AllPlain(s[i + 1..j]) && AllPlain(s[j + 1..])
  }

  ghost predicate EmailShape(s: string) {
    exists i, j :: EmailSplit(s, i, j)
  }

  /**
   * A direct test of the pattern: the text before the first `@` is a
   * non-empty plain run, and the rest is plain with a `.` strictly inside it.
   */
  predicate EmailPattern(s: string) {
    '@' in s &&
    var i := IndexOf(s, '@');
    var rest := s[i + 1..];
    0 < i && AllPlain(s[..i]) && AllPlain(rest) && |rest| >= 3 && '.' in rest[1..|rest| - 1]
  }

  /** The direct test accepts exactly the addresses the pattern describes. */
  lemma EmailPatternIff(s: string)
    ensures EmailPattern(s) <==> EmailShape(s)
  {
    if EmailPattern(s) {
      PatternGivesSplit(s);
    }
    if EmailShape(s) {
      var i, j :| EmailSplit(s, i, j);
      SplitGivesPattern(s, i, j);
    }
  }

  lemma PatternGivesSplit(s: string)
    requires EmailPattern(s)
    ensures EmailShape(s)
  {
    var i := IndexOf(s, '@');
    var rest := s[i + 1..];
    var d := IndexOf(rest[1..|rest| - 1], '.');
    var j := i + 2 + d;
    assert s[j] == rest[1 + d];
    assert s[i + 1..j] == rest[..1 + d];
    assert s[j + 1..] == rest[2 + d..];
    assert EmailSplit(s, i, j);
  }

  lemma SplitGivesPattern(s: string, i: int, j: int)
    requires EmailSplit(s, i, j)
    ensures EmailPattern(s)
  {
    assert '@' !in s[..i];
    assert IndexOf(s, '@') == i;
    var rest := s[i + 1..];
    forall k | 0 <= k < |rest|
      ensures Plain(rest[k])
    {
      if i + 1 + k < j {
        assert rest[k] == s[i + 1..j][k];
      } else if i + 1 + k > j {
        assert rest[k] == s[j + 1..][k - (j - i)];
      }
    }
    assert rest[1..|rest| - 1][j - i - 2] == '.';
  }

  /** A one-letter address is accepted. */
  lemma ShortEmailAccepted(s: string)
    requires s == "a@b.c"
    ensures EmailShape(s)
  {
    assert EmailSplit(s, 1, 3);
  }

  /** Every character of an address except its `@` is plain. */
  lemma SplitAllPlain(s: string, i: int, j: int, k: int)
    requires EmailSplit(s, i, j) && 0 <= k < |s| && k != i
    ensures Plain(s[k])
  {
    if k < i {
      assert s[k] == s[..i][k];
    } else if k < j {
      assert s[k] == s[i + 1..j][k - i - 1];
    } else if k > j {
      assert s[k] == s[j + 1..][k - j - 1];
    }
  }

  /** An address with white space, or with a second `@`, is rejected. */
  lemma EmailRejects(s: string, k: int, k2: int)
    requires 0 <= k < k2 < |s|
    ensures IsJsSpace(s[k]) || IsJsSpace(s[k2]) ==> !EmailShape(s)
    ensures s[k] == '@' && s[k2] == '@' ==> !EmailShape(s)
  {
    if EmailShape(s) {
      var i, j :| EmailSplit(s, i, j);
      if k != i {
        SplitAllPlain(s, i, j, k);
      }
      if k2 != i {
        SplitAllPlain(s, i, j, k2);
      }
    }
  }

  /**
   * The error `validateForm` reports, in the order it checks: user name,
   * e-mail present and well formed (registration only), password present and
   * long enough, and the repeated password (registration only).
   */
  function FirstProblem(isLogin: bool, f: Form): (r: Option<string>)
    ensures r.Some? ==>
      r.value in {UsernameRequired, EmailRequired, EmailInvalid, PasswordRequired, PasswordTooShort, PasswordsDiffer}
    ensures isLogin ==> r != Some(EmailRequired) && r != Some(EmailInvalid) && r != Some(PasswordsDiffer)
  {
    if f.username == "" then Some(UsernameRequired)
    else if !isLogin && f.email == "" then Some(EmailRequired)
    else if !isLogin && !EmailPattern(f.email) then Some(EmailInvalid)
    else if f.password == "" then Some(PasswordRequired)
    else if JsLength(f.password) < MinPasswordLength then Some(PasswordTooShort)
    else if !isLogin && f.password != f.confirmPassword then Some(PasswordsDiffer)
    else None
  }

  /** A form passes exactly when every check holds. */
  lemma FirstProblemNoneIff(isLogin: bool, f: Form)
    ensures FirstProblem(isLogin, f) == None <==>
      f.username != "" && JsLength(f.password) >= MinPasswordLength &&
      (!isLogin ==> EmailShape(f.email) && f.password == f.confirmPassword)
  {
    EmailPatternIff(f.email);
    if f.password == "" {
      assert JsLength(f.password) == 0;
    }
  }

  /** Signing in never looks at the e-mail or the repeated password. */
  lemma LoginIgnoresRegistrationFields(f: Form, email: string, confirm: string)
    ensures FirstProblem(true, f) == FirstProblem(true, f.(email := email, confirmPassword := confirm))
  {
  }

  /** A missing user name is reported first, whatever else is wrong. */
  lemma UsernameFirst(isLogin: bool, f: Form)
    ensures f.username == "" <==> FirstProblem(isLogin, f) == Some(UsernameRequired)
  {
  }

  /** What is sent: the sign-in or the registration body. */
  datatype Request =
    | LoginRequest(username: string, password: string)
    | RegisterRequest(username: string, email: string, password: string)

  /** The outcome of the call: a reply with data, a reply with only a message, or a thrown error. */
  datatype Reply =
    | Data(user: Option<UserStore.User>, token: Option<string>)
    | NoData(message: string)
    | Thrown(message: string)

  class Login {
    var isLogin: bool
    var form: Form
    var error: string
    var loading: bool

    constructor ()
      ensures isLogin && form == EmptyForm && error == "" && !loading
    {
      isLogin := true;
      form := EmptyForm;
      error := "";
      loading := false;
    }

    /** `handleInputChange`: one field changes and the error line is cleared. */
    method HandleInputChange(name: string, value: string)
      modifies this
      ensures form == SetField(old(form), name, value) && error == ""
      ensures isLogin == old(isLogin) && loading == old(loading)
    {
      form := SetField(form, name, value);
      error := "";
    }

    /** `switchMode`: the other mode, an empty form and no error. */
    method SwitchMode()
      modifies this
      ensures isLogin == !old(isLogin) && form == EmptyForm && error == ""
      ensures loading == old(loading)
    {
      isLogin := !isLogin;
      error := "";
      form := EmptyForm;
    }

    /** `validateForm`: the checks in order; the first that fails sets the error line. */
    method ValidateForm() returns (ok: bool)
      modifies this
      ensures ok <==> FirstProblem(isLogin, form) == None
      ensures !ok ==> error == FirstProblem(isLogin, form).value
      ensures ok ==> error == old(error)
      ensures isLogin == old(isLogin) && form == old(form) && loading == old(loading)
    {
      if form.username == "" {
        error := UsernameRequired;
        return false;
      }
      if !isLogin && form.email == "" {
        error := EmailRequired;
        return false;
      }
      if !isLogin && !EmailPattern(form.email) {
        error := EmailInvalid;
        return false;
      }
      if form.password == "" {
        error := PasswordRequired;
        return false;
      }
      if JsLength(form.password) < MinPasswordLength {
        error := PasswordTooShort;
        return false;
      }
      if !isLogin && form.password != form.confirmPassword {
        error := PasswordsDiffer;
        return false;
      }
      return true;
    }

    /**
     * `handleSubmit`: nothing is sent for an invalid form. Otherwise the body
     * for the current mode is sent; a reply with data signs the user in, any
     * other outcome shows its message or a fallback.
     */
    method HandleSubmit(store: UserStore.Store, reply: Request -> Reply, stringify: Option<UserStore.User> -> string)
      returns (sent: Option<Request>)
      modifies this, store
      ensures sent.None? <==> FirstProblem(old(isLogin), old(form)) != None
      ensures sent.None? ==>
        error == FirstProblem(old(isLogin), old(form)).value &&
        store.user == old(store.user) && store.token == old(store.token) &&
        store.isAuthenticated == old(store.isAuthenticated) && store.storage == old(store.storage)
      ensures sent.Some? && old(isLogin) ==> sent.value == LoginRequest(old(form).username, old(form).password)
      ensures sent.Some? && !old(isLogin) ==>
        sent.value == RegisterRequest(old(form).username, old(form).email, old(form).password)
      ensures sent.Some? && reply(sent.value).Data? ==>
        store.user == reply(sent.value).user && store.token == reply(sent.value).token &&
        store.isAuthenticated && error == ""
      ensures sent.Some? && reply(sent.value).NoData? ==>
        error == (if reply(sent.value).message != "" then reply(sent.value).message else ReplyFallback)
      ensures sent.Some? && reply(sent.value).Thrown? ==>
        error == (if reply(sent.value).message != "" then reply(sent.value).message else NetworkFallback)
      ensures sent.None? ==> loading == old(loading)
      ensures sent.Some? ==> !loading
      ensures isLogin == old(isLogin) && form == old(form)
    {
      var ok := ValidateForm();
      if !ok {
        return None;
      }
      loading := true;
      error := "";
      var request := if isLogin then LoginRequest(form.username, form.password)
                     else RegisterRequest(form.username, form.email, form.password);
      match reply(request) {
        case Data(user, token) =>
          store.Login(user, token, stringify);
        case NoData(message) =>
          error := if message != "" then message else ReplyFallback;
        case Thrown(message) =>
          error := if message != "" then message else NetworkFallback;
      }
      loading := false;
      sent := Some(request);
    }
  }
}
