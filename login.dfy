/** `POST /api/auth/login`: look the username up in the fixed user table, check
    the password against the stored hash, and on success sign the payload
    `{id, username, role}` for eight hours. Hash checking (`bcrypt.compareSync`)
    and signing (`jwt.sign`) are the parameters `check` and `sign`; the table's
    hashes, computed once at start-up with a random salt, are parameters too. */
module Login {
  import opened Text

  datatype User = User(id: int, username: string, passwordHash: string, role: string)

  /** The claims handed to `jwt.sign`. */
  datatype Payload = Payload(id: int, username: string, role: string)

  datatype LoginResponse =
    | LoggedIn(token: string, role: string, username: string)
    | Rejected(status: int, error: string)
      /** `bcrypt.compareSync` threw (no password in the body); Express then
          answers 500. */
    | ServerError

  const InvalidCredentials := Rejected(401, "Invalid credentials")

  /** `expiresIn: "8h"`, in seconds. */
  const TokenLifetime := 8 * 60 * 60

  /** `bcrypt.compareSync(password, hash)` */
  type HashCheck = (string, string) -> bool

  /** `jwt.sign(payload, key, { expiresIn })` */
  type Signer = (Payload, string, int) -> string

  predicate DistinctUsernames(users: seq<User>) {
    forall i, j :: 0 <= i < j < |users| ==> users[i].username != users[j].username
  }

  /** The two demo accounts. */
  function DemoUsers(adminHash: string, userHash: string): (users: seq<User>)
    ensures DistinctUsernames(users)
    ensures forall u :: u in users ==> u.role in {"admin", "user"}
  {
    [User(1, "admin", adminHash, "admin"), User(2, "user", userHash, "user")]
  }

  /** `users.find(u => u.username === username)`: the first record with that
      username; a missing username (`undefined`) matches nothing. */
  function Find(users: seq<User>, username: Option<string>): (found: Option<User>)
    ensures found.Some? ==> found.value in users && username == Some(found.value.username)
    ensures found.None? ==> forall u :: u in users ==> username != Some(u.username)
    decreases |users|
  {
    if |users| == 0 then None
    else if username == Some(users[0].username) then Some(users[0])
    else Find(users[1..], username)
  }

  /** Usernames are unique, so the record found is the only one with that
      name. */
  lemma {:induction false} FindUnique(users: seq<User>, u: User)
    requires DistinctUsernames(users)
    requires u in users
    ensures Find(users, Some(u.username)) == Some(u)
    decreases |users|
  {
    if users[0] != u {
      assert u in users[1..];
      var k :| 0 <= k < |users| && users[k] == u;
      assert users[0].username != u.username by {
        assert k > 0;
      }
      FindUnique(users[1..], u);
    }
  }

  /** The login handler. */
  function HandleLogin(users: seq<User>, username: Option<string>, password: Option<string>,
                       key: string, check: HashCheck, sign: Signer): (r: LoginResponse)
    ensures r.LoggedIn? ==>
              exists u :: u in users && username == Some(u.username) && password.Some?
                && check(password.value, u.passwordHash)
                && r == LoggedIn(sign(Payload(u.id, u.username, u.role), key, TokenLifetime),
                                 u.role, u.username)
    ensures r.ServerError? ==> password.None?
    ensures r.Rejected? ==> r == InvalidCredentials
  {
    match Find(users, username)
    case None => InvalidCredentials
    case Some(user) =>
      if password.None? then ServerError
      else if !check(password.value, user.passwordHash) then InvalidCredentials
      else
        var payload := Payload(user.id, user.username, user.role);
        var token := sign(payload, key, TokenLifetime);
        LoggedIn(token, user.role, user.username)
  }

  /** An unknown username is answered 401 "Invalid credentials", whatever the
      password. */
  lemma UnknownUserRejected(users: seq<User>, username: Option<string>, password: Option<string>,
                            key: string, check: HashCheck, sign: Signer)
    requires forall u :: u in users ==> username != Some(u.username)
    ensures HandleLogin(users, username, password, key, check, sign) == InvalidCredentials
  {
  }

  /** A known username with a password that does not match is answered with
      the very same response. */
  lemma WrongPasswordRejected(users: seq<User>, u: User, password: string,
                              key: string, check: HashCheck, sign: Signer)
    requires DistinctUsernames(users) && u in users
    requires !check(password, u.passwordHash)
    ensures HandleLogin(users, Some(u.username), Some(password), key, check, sign) == InvalidCredentials
  {
    FindUnique(users, u);
  }

  /** The two failure causes cannot be told apart from the response. */
  lemma FailuresIndistinguishable(users: seq<User>, unknown: Option<string>, u: User,
                                  password1: Option<string>, password2: string,
                                  key: string, check: HashCheck, sign: Signer)
    requires DistinctUsernames(users) && u in users
    requires forall v :: v in users ==> unknown != Some(v.username)
    requires !check(password2, u.passwordHash)
    ensures HandleLogin(users, unknown, password1, key, check, sign)
         == HandleLogin(users, Some(u.username), Some(password2), key, check, sign)
  {
    UnknownUserRejected(users, unknown, password1, key, check, sign);
    WrongPasswordRejected(users, u, password2, key, check, sign);
  }

  /** A stored user with a matching password gets a token signed over
      exactly their id, username and role for eight hours, and their role and
      username back. */
  lemma CorrectPasswordAccepted(users: seq<User>, u: User, password: string,
                                key: string, check: HashCheck, sign: Signer)
    requires DistinctUsernames(users) && u in users
    requires check(password, u.passwordHash)
    ensures HandleLogin(users, Some(u.username), Some(password), key, check, sign)
         == LoggedIn(sign(Payload(u.id, u.username, u.role), key, TokenLifetime), u.role, u.username)
  {
    FindUnique(users, u);
  }

  /** Login succeeds exactly for a stored username with a password the hash
      check accepts. */
  lemma LoginSucceedsIff(users: seq<User>, username: Option<string>, password: Option<string>,
                         key: string, check: HashCheck, sign: Signer)
    requires DistinctUsernames(users)
    ensures HandleLogin(users, username, password, key, check, sign).LoggedIn? <==>
              exists u :: u in users && username == Some(u.username) && password.Some?
                && check(password.value, u.passwordHash)
  {
    if exists u :: u in users && username == Some(u.username) && password.Some?
                   && check(password.value, u.passwordHash) {
      var u :| u in users && username == Some(u.username) && password.Some?
               && check(password.value, u.passwordHash);
      CorrectPasswordAccepted(users, u, password.value, key, check, sign);
    }
  }
}
