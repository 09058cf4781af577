/**
 * The user entity: its creation hook (identifier, default role, password
 * hashing), password hashing and checking, and the status and role tests.
 *
 * bcrypt is modelled by an injective stand-in: a hash is the prefix "$2a$10$"
 * (algorithm and cost 10), a 22-character salt, then a digest that determines
 * the password. Here the digest is the password itself, which keeps the one
 * property the code relies on: a hash matches exactly the password it was made
 * from.
 */
module EntityUser {
  import opened Text
  import EntityRole
  import Utf8

  const BcryptPrefix := "$2a$10$"
  const SaltLength := 22
  /** Length of prefix plus salt: where the digest starts. */
  const DigestStart := 29

  function BcryptHash(salt: string, password: string): (h: string)
    requires |salt| == SaltLength
    ensures |h| == DigestStart + |password|
  {
    BcryptPrefix + salt + password
  }

  /** `bcrypt.CompareHashAndPassword(hash, password) == nil`. */
  predicate BcryptMatches(hash: string, password: string) {
    |hash| >= DigestStart && hash[..7] == BcryptPrefix && hash[DigestStart..] == password
  }

  /**
   * The same comparison for a password given as bytes (a Go string that need
   * not come from text): the bytes must be the UTF-8 encoding of the digest.
   */
  predicate BcryptMatchesBytes(hash: string, password: seq<Utf8.byte>) {
    |hash| >= DigestStart && hash[..7] == BcryptPrefix && Utf8.Encode(hash[DigestStart..]) == password
  }

  /** Comparing a text's UTF-8 bytes is comparing the text. */
  lemma BcryptBytesAgree(hash: string, password: string)
    ensures BcryptMatchesBytes(hash, Utf8.Encode(password)) <==> BcryptMatches(hash, password)
  {
    if |hash| >= DigestStart {
      Utf8.EncodeInjective(hash[DigestStart..], password);
    }
  }

  /** A hash matches the password it was made from and no other. */
  lemma BcryptHashMatches(salt: string, password: string, other: string)
    requires |salt| == SaltLength
    ensures BcryptMatches(BcryptHash(salt, password), password)
    ensures BcryptMatches(BcryptHash(salt, password), other) <==> other == password
  {
    var h := BcryptHash(salt, password);
    assert h[..7] == BcryptPrefix;
    assert h[DigestStart..] == password;
  }

  /** The identifier the creation hook assigns: the first 8 characters of a fresh UUID, upper-cased. */
  function FreshId(uuid: string): (id: string)
    requires |uuid| >= 8
    ensures |id| == 8
    ensures forall i :: 0 <= i < 8 ==> !IsAsciiLower(id[i])
  {
    GoUpper(uuid[..8])
  }

  const SystemId := "SYSTEM"

  class User {
    var id: string
    var username: string
    var email: string
    var password: string
    var avatar: string
    var role: string
    var status: int

    constructor (id: string, username: string, email: string, password: string, role: string, status: int)
      ensures this.id == id && this.username == username && this.email == email
      ensures this.password == password && avatar == "" && this.role == role && this.status == status
    {
      this.id := id;
      this.username := username;
      this.email := email;
      this.password := password;
      avatar := "";
      this.role := role;
      this.status := status;
    }

    /**
     * `BeforeCreate`: every user but SYSTEM gets a fresh identifier, an empty
     * role becomes "user", and a non-empty password is replaced by its hash.
     */
    method BeforeCreate(uuid: string, salt: string)
      requires |uuid| >= 8 && |salt| == SaltLength
      modifies this
      ensures id == (if old(id) == SystemId then SystemId else FreshId(uuid))
      ensures role == (if old(role) == "" then EntityRole.User else old(role))
      ensures password == (if old(password) != "" then BcryptHash(salt, old(password)) else "")
      ensures username == old(username) && email == old(email)
      ensures avatar == old(avatar) && status == old(status)
    {
      if id != SystemId {
        id := FreshId(uuid);
      }
      if role == "" {
        role := EntityRole.User;
      }
      if password != "" {
        HashPassword(password, salt);
      }
    }

    /** `HashPassword`: the stored password becomes the hash of `pw`; nothing else changes. */
    method HashPassword(pw: string, salt: string)
      requires |salt| == SaltLength
      modifies this
      ensures password == BcryptHash(salt, pw)
      ensures id == old(id) && username == old(username) && email == old(email)
      ensures avatar == old(avatar) && role == old(role) && status == old(status)
    {
      password := BcryptHash(salt, pw);
    }

    /**
     * `CheckPassword`: the stored hash matches `pw`, that is, it is the hash
     * of `pw` under the salt it carries itself.
     */
    function CheckPassword(pw: string): (b: bool)
      reads this
      ensures b <==> (|password| >= DigestStart && password[..7] == BcryptPrefix &&
                      password == BcryptHash(password[7..DigestStart], pw))
    {
      var ok := BcryptMatches(password, pw);
      assert ok ==> password == BcryptHash(password[7..DigestStart], pw) by {
        if ok {
          assert password == password[..7] + password[7..DigestStart] + password[DigestStart..];
        }
      }
      ok
    }

    /** `IsActive`: status 1 means active; 0 and every other status are disabled. */
    function IsActive(): (b: bool)
      reads this
      ensures b <==> status == 1
      ensures status == 0 ==> !b
    {
      status == 1
    }

    /** `IsAdmin`: delegates to the role test, so only a user with the valid role "admin" passes. */
    function IsAdmin(): (b: bool)
      reads this
      ensures b <==> role == EntityRole.Admin
      ensures b ==> EntityRole.IsValid(role)
    {
      EntityRole.IsAdmin(role)
    }
  }

  /** After hashing `pw`, the user's password check accepts `pw` and rejects every other text. */
  method HashThenCheck(u: User, pw: string, salt: string, other: string)
    requires |salt| == SaltLength
    modifies u
    ensures u.CheckPassword(pw)
    ensures other != pw ==> !u.CheckPassword(other)
  {
    u.HashPassword(pw, salt);
    BcryptHashMatches(salt, pw, other);
  }

  /**
   * Registration as the handler writes it: the password is hashed by the
   * handler, and the creation hook then hashes the hash.
   */
  method RegisterAsWritten(username: string, email: string, pw: string,
                           uuid: string, salt1: string, salt2: string) returns (u: User)
    requires |uuid| >= 8 && |salt1| == SaltLength && |salt2| == SaltLength
    ensures fresh(u)
    ensures u.password == StoredAsWritten(pw, salt1, salt2)
    ensures u.role == EntityRole.User && u.status == 1 && u.id == FreshId(uuid)
  {
    u := new User("", username, email, "", EntityRole.User, 1);
    u.HashPassword(pw, salt1);
    u.BeforeCreate(uuid, salt2);
  }

  /** The password column after the as-written registration. */
  function StoredAsWritten(pw: string, salt1: string, salt2: string): (h: string)
    requires |salt1| == SaltLength && |salt2| == SaltLength
    ensures h == BcryptHash(salt2, BcryptHash(salt1, pw))
  {
    BcryptHash(salt2, BcryptHash(salt1, pw))
  }

  /** After the as-written registration, logging in with the chosen password fails for every password. */
  lemma RegisteredPasswordRejected(pw: string, salt1: string, salt2: string)
    requires |salt1| == SaltLength && |salt2| == SaltLength
    ensures !BcryptMatches(StoredAsWritten(pw, salt1, salt2), pw)
    ensures BcryptMatches(StoredAsWritten(pw, salt1, salt2), BcryptHash(salt1, pw))
  {
    BcryptHashMatches(salt2, BcryptHash(salt1, pw), pw);
  }

  /** Registration with the plain password left for the creation hook to hash, once. */
  method RegisterCorrected(username: string, email: string, pw: string,
                           uuid: string, salt: string) returns (u: User)
    requires |uuid| >= 8 && |salt| == SaltLength
    ensures fresh(u)
    ensures pw != "" ==> u.CheckPassword(pw)
    ensures forall other :: other != pw ==> !u.CheckPassword(other)
    ensures u.role == EntityRole.User && u.status == 1 && u.id == FreshId(uuid)
  {
    u := new User("", username, email, pw, EntityRole.User, 1);
    u.BeforeCreate(uuid, salt);
    if pw != "" {
      forall other ensures BcryptMatches(u.password, other) <==> other == pw {
        BcryptHashMatches(salt, pw, other);
      }
    }
  }
}
