/**
 * The dialog that adds or edits a user. The form is a JavaScript object,
 * modelled as a map from field name to text: a key that is absent is an
 * undefined field. The submit callback is the caller's; what is handed to it
 * is returned.
 */
module UserForm {
  import opened Wrappers

  type Form = map<string, string>

  const FillInNameAndEmail := "请填写姓名和邮箱"

  /** The blank form: empty texts, the ordinary user role and status "0". */
  const NewUser: Form := map["username" := "", "password" := "", "email" := "", "role" := "user", "status" := "0"]

  /** The fields of the user being edited that the form reads; None is null or undefined. */
  datatype Initial = Initial(name: Option<string>, username: Option<string>, password: Option<string>,
                             email: Option<string>, role: Option<string>)

  /** The first present value, as `a ?? b` picks it: an empty text counts as present. */
  function Coalesce(a: Option<string>, b: string): (r: string)
    ensures a.Some? ==> r == a.value
    ensures a.None? ==> r == b
  {
    if a.Some? then a.value else b
  }

  /**
   * The form the dialog starts from: the blank form without a user; for a
   * user, the name (or else the user name), the password as given, the
   * e-mail and the role (or else `user`), and no status at all.
   */
  function InitialForm(initial: Option<Initial>): (f: Form)
    ensures initial.None? ==> f == NewUser
    ensures initial.Some? ==>
      "status" !in f && f.Keys == {"username", "email", "role"} + (if initial.value.password.Some? then {"password"} else {}) &&
      f["username"] == Coalesce(initial.value.name, Coalesce(initial.value.username, "")) &&
      f["email"] == Coalesce(initial.value.email, "") &&
      f["role"] == Coalesce(initial.value.role, "user") &&
      (initial.value.password.Some? ==> f["password"] == initial.value.password.value)
  {
    match initial
    case None => NewUser
    case Some(u) =>
      var f := map["username" := Coalesce(u.name, Coalesce(u.username, "")),
                   "email" := Coalesce(u.email, ""),
                   "role" := Coalesce(u.role, "user")];
      if u.password.Some? then f["password" := u.password.value] else f
  }

  /** `!form.username || !form.email`: either is missing or empty. */
  function Incomplete(f: Form): (b: bool)
    ensures !b <==> (forall k :: k in ["username", "email"] ==> k in f && f[k] != "")
  {
    "username" !in f || f["username"] == "" || "email" !in f || f["email"] == ""
  }

  /** The blank form cannot be submitted until both fields are filled in. */
  lemma NewFormIncomplete()
    ensures Incomplete(NewUser)
  {
    assert NewUser["username"] == "";
  }

  /** An edited user with a name and an e-mail can be submitted as loaded. */
  lemma EditFormComplete(u: Initial)
    requires u.name.Some? && u.name.value != "" && u.email.Some? && u.email.value != ""
    ensures !Incomplete(InitialForm(Some(u)))
  {
  }

  class Dialog {
    var form: Form
    var saving: bool
    /** The text of the last alert shown, if any. */
    var alerted: Option<string>

    constructor ()
      ensures form == NewUser && !saving && alerted == None
    {
      form := NewUser;
      saving := false;
      alerted := None;
    }

    /** The effect on `initial`: the form is reloaded from the user being edited, or blanked. */
    method Load(initial: Option<Initial>)
      modifies this
      ensures form == InitialForm(initial)
      ensures saving == old(saving) && alerted == old(alerted)
    {
      form := InitialForm(initial);
    }

    /** `handleChange`: the named field takes the value and every other field stays. */
    method HandleChange(name: string, value: string)
      modifies this
      ensures name in form && form[name] == value
      ensures forall k :: k != name ==> (k in form <==> k in old(form)) && (k in form ==> form[k] == old(form)[k])
      ensures saving == old(saving) && alerted == old(alerted)
    {
      form := form[name := value];
    }

    /**
     * `handleSubmit`: an incomplete form raises the alert and is not handed
     * on; otherwise saving starts and the form is handed to the callback.
     */
    method HandleSubmit() returns (submitted: Option<Form>)
      modifies this
      ensures submitted.None? <==> Incomplete(old(form))
      ensures submitted.None? ==> alerted == Some(FillInNameAndEmail) && saving == old(saving)
      ensures submitted.Some? ==> submitted.value == old(form) && saving && alerted == old(alerted)
      ensures form == old(form)
    {
      if "username" !in form || form["username"] == "" || "email" !in form || form["email"] == "" {
        alerted := Some(FillInNameAndEmail);
        return None;
      }
      saving := true;
      submitted := Some(form);
    }

    /** The callback has settled, either way: saving ends. */
    method Settle()
      modifies this
      ensures !saving && form == old(form) && alerted == old(alerted)
    {
      saving := false;
    }
  }
}
