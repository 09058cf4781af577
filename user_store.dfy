/**
 * The signed-in user as the front end keeps it: a store with the user, the
 * token and an authenticated flag, mirrored under the `token` and `user` keys
 * of the browser's local storage. The persistence layer keeps a snapshot of
 * the user and the token (and nothing else) after every update. A user object
 * is a map from field name to a text value; `JSON.stringify` and `JSON.parse`
 * are parameters, a failed parse being None.
 */
module UserStore {
  import opened Wrappers

  type User = map<string, string>

  const TokenKey := "token"
  const UserKey := "user"
  const GuestRole := "guest"
  const AdminRole := "admin"

  /** What `localStorage.setItem` stores for a token: `String(null)` for a missing one. */
  function TokenText(token: Option<string>): (t: string)
    ensures token.Some? ==> t == token.value
    ensures token.None? ==> t == "null"
  {
    if token.Some? then token.value else "null"
  }

  /** JavaScript truthiness of a token: present and not empty. */
  predicate Truthy(token: Option<string>) {
    token.Some? && token.value != ""
  }

  /** The role a user object names: its `role` field when that is a non-empty text. */
  function RoleOf(user: Option<User>): (r: Option<string>)
    ensures r.Some? <==> user.Some? && "role" in user.value && user.value["role"] != ""
    ensures r.Some? ==> r.value == user.value["role"]
  {
    if user.Some? && "role" in user.value && user.value["role"] != "" then Some(user.value["role"]) else None
  }

  /** Both keys are stored and neither is empty (an empty text is falsy). */
  predicate StoredSession(storage: map<string, string>) {
    TokenKey in storage && storage[TokenKey] != "" && UserKey in storage && storage[UserKey] != ""
  }

  /** The persisted part of the state. */
  datatype Snapshot = Snapshot(user: Option<User>, token: Option<string>)

  class Store {
    var user: Option<User>
    var token: Option<string>
    var isAuthenticated: bool
    /** The `token` and `user` keys of local storage, and any others. */
    var storage: map<string, string>
    /** What the persistence layer saved last. */
    var saved: Snapshot

    /** The persisted snapshot always holds the current user and token. */
    predicate Persisted()
      reads this
    {
      saved == Snapshot(user, token)
    }

    /**
     * The initial state, rehydrated: the user and the token come from the
     * snapshot the persistence layer saved under `user-storage` (`persisted`,
     * None when there is none or it does not parse), and are empty without
     * one. The authenticated flag is not part of the snapshot, so it starts
     * false even when a user and a token are restored.
     */
    constructor (storage: map<string, string>, persisted: Option<Snapshot>)
      ensures persisted.Some? ==> user == persisted.value.user && token == persisted.value.token
      ensures persisted.None? ==> user == None && token == None
      ensures !isAuthenticated && this.storage == storage
      ensures Persisted()
    {
      if persisted.Some? {
        user := persisted.value.user;
        token := persisted.value.token;
      } else {
        user := None;
        token := None;
      }
      isAuthenticated := false;
      this.storage := storage;
      saved := Snapshot(user, token);
    }

    /** `setUser`: the flag follows whether there is a user. */
    method SetUser(u: Option<User>)
      modifies this
      ensures user == u && isAuthenticated == u.Some?
      ensures token == old(token) && storage == old(storage)
      ensures Persisted()
    {
      user := u;
      isAuthenticated := u.Some?;
      saved := Snapshot(user, token);
    }

    /** `setToken`: the flag follows the token; a truthy token is stored, any other removes the key. */
    method SetToken(t: Option<string>)
      modifies this
      ensures token == t && isAuthenticated == Truthy(t)
      ensures user == old(user)
      ensures Truthy(t) ==> storage == old(storage)[TokenKey := t.value]
      ensures !Truthy(t) ==> storage == old(storage) - {TokenKey}
      ensures Persisted()
    {
      token := t;
      isAuthenticated := Truthy(t);
      saved := Snapshot(user, token);
      if Truthy(t) {
        storage := storage[TokenKey := t.value];
      } else {
        storage := storage - {TokenKey};
      }
    }

    /** `login`: both are set, the flag is raised, and both keys are written. */
    method Login(u: Option<User>, t: Option<string>, stringify: Option<User> -> string)
      modifies this
      ensures user == u && token == t && isAuthenticated
      ensures storage == old(storage)[TokenKey := TokenText(t)][UserKey := stringify(u)]
      ensures Persisted()
    {
      user, token, isAuthenticated := u, t, true;
      saved := Snapshot(user, token);
      storage := storage[TokenKey := TokenText(t)];
      storage := storage[UserKey := stringify(u)];
    }

    /** `logout`: everything is cleared and both keys are removed. */
    method Logout()
      modifies this
      ensures user == None && token == None && !isAuthenticated
      ensures storage == old(storage) - {TokenKey, UserKey}
      ensures Persisted()
    {
      user, token, isAuthenticated := None, None, false;
      saved := Snapshot(user, token);
      storage := storage - {TokenKey};
      storage := storage - {UserKey};
    }

    /** `updateUser`: the updates are spread over the current user (a missing one spreads as nothing) and saved. */
    method UpdateUser(updates: User, stringify: Option<User> -> string)
      modifies this
      ensures user.Some?
      ensures forall f :: f in user.value <==> f in updates || (old(user).Some? && f in old(user).value)
      ensures forall f :: f in updates ==> user.value[f] == updates[f]
      ensures forall f :: old(user).Some? && f in old(user).value && f !in updates ==>
        user.value[f] == old(user).value[f]
      ensures token == old(token) && isAuthenticated == old(isAuthenticated)
      ensures storage == old(storage)[UserKey := stringify(user)]
      ensures Persisted()
    {
      var current: User := if user.Some? then user.value else map[];
      var merged := current + updates;
      user := Some(merged);
      saved := Snapshot(user, token);
      storage := storage[UserKey := stringify(user)];
    }

    /** `getRole`: the user's role, or guest when there is none. */
    function GetRole(): (r: string)
      reads this
      ensures r != ""
      ensures RoleOf(user).Some? ==> r == RoleOf(user).value
      ensures RoleOf(user).None? ==> r == GuestRole
    {
      match RoleOf(user)
      case Some(role) => role
      case None => GuestRole
    }

    /** `isAdmin`: the user's role field is exactly admin. */
    function IsAdmin(): (b: bool)
      reads this
      ensures b <==> user.Some? && "role" in user.value && user.value["role"] == AdminRole
    {
      user.Some? && "role" in user.value && user.value["role"] == AdminRole
    }

    /** The two role queries agree: the role reads admin exactly for an admin. */
    lemma AdminRoleAgrees()
      ensures IsAdmin() <==> GetRole() == AdminRole
    {
    }

    /**
     * `checkAuth`: with both keys present and non-empty, a user that parses
     * signs in again with the stored token; a user that does not parse signs
     * out. Without both keys nothing changes.
     */
    method CheckAuth(parse: string -> Option<Option<User>>) returns (ok: bool)
      modifies this
      ensures !StoredSession(old(storage)) ==>
        !ok && user == old(user) && token == old(token) && isAuthenticated == old(isAuthenticated) &&
        storage == old(storage) && saved == old(saved)
      ensures ok ==>
        TokenKey in old(storage) && UserKey in old(storage) && parse(old(storage)[UserKey]).Some? &&
        user == parse(old(storage)[UserKey]).value && token == Some(old(storage)[TokenKey]) &&
        isAuthenticated && storage == old(storage)
      ensures !ok && StoredSession(old(storage)) ==>
        parse(old(storage)[UserKey]).None? &&
        user == None && token == None && !isAuthenticated && storage == old(storage) - {TokenKey, UserKey}
      ensures old(Persisted()) ==> Persisted()
    {
      var t := if TokenKey in storage then storage[TokenKey] else "";
      var s := if UserKey in storage then storage[UserKey] else "";
      if t != "" && s != "" {
        var parsed := parse(s);
        if parsed.Some? {
          user, token, isAuthenticated := parsed.value, Some(t), true;
          saved := Snapshot(user, token);
          return true;
        }
        Logout();
        return false;
      }
      return false;
    }
  }

  /**
   * A reload rehydrates what the store persisted last: the user and the
   * token come back, while the authenticated flag starts false until the
   * stored keys are checked again.
   */
  method Reload(s: Store) returns (r: Store)
    requires s.Persisted()
    ensures fresh(r)
    ensures r.user == s.user && r.token == s.token && !r.isAuthenticated && r.storage == s.storage
  {
    r := new Store(s.storage, Some(s.saved));
  }

  /**
   * Signing in and then checking the stored keys restores the same user and
   * token, whenever the stored user text parses back to the user.
   */
  method LoginThenCheckAuth(s: Store, u: Option<User>, t: string, stringify: Option<User> -> string,
                            parse: string -> Option<Option<User>>)
    returns (ok: bool)
    requires t != "" && stringify(u) != "" && parse(stringify(u)) == Some(u)
    modifies s
    ensures ok && s.user == u && s.token == Some(t) && s.isAuthenticated && s.Persisted()
  {
    s.Login(u, Some(t), stringify);
    assert s.storage[TokenKey] == t && s.storage[UserKey] == stringify(u);
    ok := s.CheckAuth(parse);
  }

  /** After signing out, checking the stored keys finds nobody. */
  method LogoutThenCheckAuth(s: Store, parse: string -> Option<Option<User>>) returns (ok: bool)
    modifies s
    ensures !ok && s.user == None && s.token == None && !s.isAuthenticated
  {
    s.Logout();
    ok := s.CheckAuth(parse);
  }
}
