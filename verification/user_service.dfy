/**
 * UserServiceImpl: accounts, password changes and login. Passwords are
 * stored only as PasswordUtils hashes; the random salt a hash needs is a
 * parameter, as are the codec and digest functions. Every write validates
 * first and is one transaction: on failure nothing is stored. The service
 * keeps usernames and emails unique and every stored username and email
 * as the validator demands.
 */
module UserService {
  import opened Wrappers
  import opened Ledger
  import opened Store
  import Validators
  import PW = PasswordUtils
  import M = Messages

  /**
   * The fields of a User the caller fills in. A null username or email is
   * written "" (the validator treats null and empty alike); the password is
   * an Option because null and "" get different messages.
   */
  datatype UserInput = UserInput(username: string, password: Option<string>, email: string, role: Option<Role>)

  /** UserDao.usernameExists, as the set of usernames in use. */
  function Usernames(users: map<int, UserRow>): (r: set<string>)
    ensures forall id :: id in users ==> users[id].username in r
  {
    set id | id in users :: users[id].username
  }

  /** UserDao.emailExists. */
  function Emails(users: map<int, UserRow>): (r: set<string>)
    ensures forall id :: id in users ==> users[id].email in r
  {
    set id | id in users :: users[id].email
  }

  /** The password check, made on create only: the message it leaves, if any. */
  function PasswordMessage(password: Option<string>, isNew: bool): (m: Option<string>)
    ensures m.Some? <==> isNew && !PW.IsValidPassword(password)
    ensures m.Some? ==> m.value == if password.None? then M.EMPTY_PASSWORD else M.WEAK_PASSWORD
  {
    // "" gets the empty message first and then the policy message over it
    if !isNew then None
    else if password.None? then Some(M.EMPTY_PASSWORD)
    else if !PW.IsValidPassword(password) then Some(M.WEAK_PASSWORD)
    else None
  }

  function UsernameMessage(username: string, names: set<string>): (m: Option<string>)
    ensures m.Some? <==> |username| < 3 || |username| > 50 || username in names
    ensures m.Some? ==> m.value == if username == "" then M.EMPTY_USERNAME
                                   else if |username| < 3 || |username| > 50 then M.USERNAME_LENGTH
                                   else M.USERNAME_EXISTS
  {
    if username == "" then Some(M.EMPTY_USERNAME)
    else if |username| < 3 || |username| > 50 then Some(M.USERNAME_LENGTH)
    else if username in names then Some(M.USERNAME_EXISTS)
    else None
  }

  function EmailMessage(email: string, emails: set<string>): (m: Option<string>)
    ensures m.Some? <==> email == "" || !Validators.IsValidEmail(email) || email in emails
    ensures m.Some? ==> m.value == if email == "" then M.EMPTY_EMAIL
                                   else if !Validators.IsValidEmail(email) then M.INVALID_EMAIL
                                   else M.EMAIL_EXISTS
  {
    if email == "" then Some(M.EMPTY_EMAIL)
    else if !Validators.IsValidEmail(email) then Some(M.INVALID_EMAIL)
    else if email in emails then Some(M.EMAIL_EXISTS)
    else None
  }

  /** Adds `k -> m` to an error map when there is a message. */
  function Put(e: map<string, string>, k: string, m: Option<string>): (r: map<string, string>)
    ensures k in r <==> m.Some? || k in e
    ensures m.Some? ==> r[k] == m.value
    ensures forall j :: j != k ==> (j in r <==> j in e) && (j in e ==> r[j] == e[j])
  {
    if m.Some? then e[k := m.value] else e
  }

  /**
   * validateUser (isNew) and validateUserForUpdate (not isNew): the error
   * map, one entry per failing field. `names` and `emails` are the values
   * that count as used: all of them on create, those of the other users on
   * update.
   */
  function UserErrors(u: UserInput, isNew: bool, names: set<string>, emails: set<string>): (e: map<string, string>)
    ensures M.KEY_PASSWORD in e <==> PasswordMessage(u.password, isNew).Some?
    ensures M.KEY_PASSWORD in e ==> e[M.KEY_PASSWORD] == PasswordMessage(u.password, isNew).value
    ensures M.KEY_USERNAME in e <==> UsernameMessage(u.username, names).Some?
    ensures M.KEY_USERNAME in e ==> e[M.KEY_USERNAME] == UsernameMessage(u.username, names).value
    ensures M.KEY_EMAIL in e <==> EmailMessage(u.email, emails).Some?
    ensures M.KEY_EMAIL in e ==> e[M.KEY_EMAIL] == EmailMessage(u.email, emails).value
    ensures M.KEY_ROLE in e <==> u.role.None?
    ensures M.KEY_ROLE in e ==> e[M.KEY_ROLE] == M.NULL_ROLE
    ensures e.Keys <= {M.KEY_PASSWORD, M.KEY_USERNAME, M.KEY_EMAIL, M.KEY_ROLE}
  {
    KeysDistinct();
    var e1 := Put(map[], M.KEY_PASSWORD, PasswordMessage(u.password, isNew));
    var e2 := Put(e1, M.KEY_USERNAME, UsernameMessage(u.username, names));
    var e3 := Put(e2, M.KEY_EMAIL, EmailMessage(u.email, emails));
    Put(e3, M.KEY_ROLE, if u.role.None? then Some(M.NULL_ROLE) else None)
  }

  /** The four field names differ (their first letters do). */
  lemma KeysDistinct()
    ensures M.KEY_PASSWORD != M.KEY_USERNAME && M.KEY_PASSWORD != M.KEY_EMAIL && M.KEY_PASSWORD != M.KEY_ROLE
    ensures M.KEY_USERNAME != M.KEY_EMAIL && M.KEY_USERNAME != M.KEY_ROLE && M.KEY_EMAIL != M.KEY_ROLE
  {
    assert M.KEY_PASSWORD[0] == 'p' && M.KEY_USERNAME[0] == 'u' && M.KEY_EMAIL[0] == 'e' && M.KEY_ROLE[0] == 'r';
  }

  /** The checks every stored account has passed. */
  predicate Acceptable(row: UserRow)
  {
    3 <= |row.username| <= 50 && Validators.IsValidEmail(row.email)
  }

  /** The unique constraint on users.username. */
  predicate UsernamesUnique(users: map<int, UserRow>)
  {
    forall a, b :: a in users && b in users && a != b ==> users[a].username != users[b].username
  }

  /** The unique constraint on users.email. */
  predicate EmailsUnique(users: map<int, UserRow>)
  {
    forall a, b :: a in users && b in users && a != b ==> users[a].email != users[b].email
  }

  /** The invariant the service keeps over the user table. */
  predicate Accounts(users: map<int, UserRow>)
  {
    UsernamesUnique(users) && EmailsUnique(users) && forall id :: id in users ==> Acceptable(users[id])
  }

  /** The stored row for an account with this password hash and creation time. */
  function RowOf(u: UserInput, password: string, createdAt: Time): UserRow
    requires u.role.Some?
  {
    UserRow(u.username, password, u.email, u.role.value, createdAt)
  }

  /** An input passes validation exactly when its fields are acceptable and its values unused. */
  lemma AcceptedInput(u: UserInput, isNew: bool, names: set<string>, emails: set<string>, password: string, createdAt: Time)
    requires u.role.Some?
    ensures UserErrors(u, isNew, names, emails) == map[] <==>
              (isNew ==> PW.IsValidPassword(u.password))
              && Acceptable(RowOf(u, password, createdAt)) && u.username !in names && u.email !in emails
  {
    var e := UserErrors(u, isNew, names, emails);
    if e != map[] {
      var k :| k in e;
      assert k in {M.KEY_PASSWORD, M.KEY_USERNAME, M.KEY_EMAIL, M.KEY_ROLE};
    }
  }

  /** No user other than `id` has this username or this email. */
  predicate FreeFor(users: map<int, UserRow>, id: int, username: string, email: string)
  {
    forall b :: b in users && b != id ==> users[b].username != username && users[b].email != email
  }

  /** An unused username, or the one `id` already has, belongs to no other user. */
  lemma UsernameFree(users: map<int, UserRow>, id: int, username: string)
    requires UsernamesUnique(users)
    requires (id in users && username == users[id].username) || username !in Usernames(users)
    ensures forall b :: b in users && b != id ==> users[b].username != username
  {
  }

  /** The same for emails. */
  lemma EmailFree(users: map<int, UserRow>, id: int, email: string)
    requires EmailsUnique(users)
    requires (id in users && email == users[id].email) || email !in Emails(users)
    ensures forall b :: b in users && b != id ==> users[b].email != email
  {
  }

  /** Storing an acceptable row under `id` whose username and email are free for it keeps the invariant. */
  lemma StoreKeepsAccounts(users: map<int, UserRow>, id: int, row: UserRow)
    requires Accounts(users) && Acceptable(row)
    requires FreeFor(users, id, row.username, row.email)
    ensures Accounts(users[id := row])
  {
    var q := users[id := row];
    forall a, b | a in q && b in q && a != b
      ensures q[a].username != q[b].username && q[a].email != q[b].email
    {
      if a == id {
        assert q[b] == users[b];
      } else if b == id {
        assert q[a] == users[a];
      }
    }
  }

  /**
   * createUser: validates against every username and email in use, stores
   * the hash of the password (salted with `salt`) instead of the password,
   * and stamps the creation time.
   */
  method CreateUser(db: Store, input: UserInput, salt: PW.Bytes, encode: PW.Bytes -> string,
                    digest: (PW.Bytes, string) -> PW.Bytes, now: Time) returns (r: Outcome<int>)
    modifies db`users
    ensures UserErrors(input, true, Usernames(old(db.users)), Emails(old(db.users))) != map[] ==>
              r == Err(Validation(M.USER_VALIDATION_FAILED, UserErrors(input, true, Usernames(old(db.users)), Emails(old(db.users)))))
              && db.users == old(db.users)
    ensures UserErrors(input, true, Usernames(old(db.users)), Emails(old(db.users))) == map[] ==>
              && input.password.Some? && input.role.Some?
              && r.Ok? && r.value !in old(db.users)
              && db.users == old(db.users)[r.value := RowOf(input, PW.HashPassword(input.password.value, salt, encode, digest), now)]
    ensures Accounts(old(db.users)) ==> Accounts(db.users)
  {
    var names := Usernames(db.users);
    var emails := Emails(db.users);
    var errors := UserErrors(input, true, names, emails);
    if errors != map[] {
      return Err(Validation(M.USER_VALIDATION_FAILED, errors));
    }
    var hash := PW.HashPassword(input.password.value, salt, encode, digest);
    var id := FreshId(db.users.Keys);
    var row := RowOf(input, hash, now);
    AcceptedInput(input, true, names, emails, hash, now);
    if Accounts(db.users) {
      UsernameFree(db.users, id, row.username);
      EmailFree(db.users, id, row.email);
      StoreKeepsAccounts(db.users, id, row);
    }
    db.users := db.users[id := row];
    r := Ok(id);
  }

  /** A value missing from a set once `own` is taken out is `own` or missing from the set. */
  lemma OtherThan<T>(x: T, s: set<T>, own: T)
    requires x !in s - {own}
    ensures x == own || x !in s
  {
  }

  /** What validation for update establishes about the input. */
  lemma UpdateAccepted(users: map<int, UserRow>, id: int, input: UserInput)
    requires id in users
    requires UserErrors(input, false, Usernames(users) - {users[id].username}, Emails(users) - {users[id].email}) == map[]
    ensures input.role.Some? && Acceptable(RowOf(input, users[id].password, users[id].createdAt))
    ensures input.username == users[id].username || input.username !in Usernames(users)
    ensures input.email == users[id].email || input.email !in Emails(users)
  {
    var existing := users[id];
    var names, emails := Usernames(users), Emails(users);
    AcceptedInput(input, false, names - {existing.username}, emails - {existing.email}, existing.password, existing.createdAt);
    OtherThan(input.username, names, existing.username);
    OtherThan(input.email, emails, existing.email);
  }

  /** Replacing a row by an acceptable one whose username and email are its own or unused keeps the invariant. */
  lemma ReplaceKeepsAccounts(users: map<int, UserRow>, id: int, row: UserRow)
    requires id in users && Acceptable(row)
    requires row.username == users[id].username || row.username !in Usernames(users)
    requires row.email == users[id].email || row.email !in Emails(users)
    ensures Accounts(users) ==> Accounts(users[id := row])
  {
    if Accounts(users) {
      UsernameFree(users, id, row.username);
      EmailFree(users, id, row.email);
      StoreKeepsAccounts(users, id, row);
    }
  }

  /**
   * updateUser: the user must exist (a null id fails inside the lookup);
   * the password is not validated and not taken from the input: the stored
   * hash and the creation time are kept. Uniqueness is checked only for a
   * changed username or email.
   */
  method UpdateUser(db: Store, userId: Option<int>, input: UserInput) returns (r: Outcome<UserRow>)
    modifies db`users
    ensures userId.None? ==> r == Err(Service(M.FAILED_UPDATE_USER))
    ensures userId.Some? && userId.value !in old(db.users) ==> r == Err(Service(M.NotFound(M.USER, userId.value)))
    ensures r.Err? ==> db.users == old(db.users)
    ensures userId.Some? && userId.value in old(db.users) ==>
              var existing := old(db.users)[userId.value];
              var errors := UserErrors(input, false, Usernames(old(db.users)) - {existing.username},
                                       Emails(old(db.users)) - {existing.email});
              if errors != map[] then r == Err(Validation(M.USER_VALIDATION_FAILED, errors))
              else
                && input.role.Some?
                && db.users == old(db.users)[userId.value := RowOf(input, existing.password, existing.createdAt)]
                && r == Ok(db.users[userId.value])
    ensures Accounts(old(db.users)) ==> Accounts(db.users)
  {
    if userId.None? {
      return Err(Service(M.FAILED_UPDATE_USER));
    }
    var id := userId.value;
    if id !in db.users {
      return Err(Service(M.NotFound(M.USER, id)));
    }
    var existing := db.users[id];
    var names := Usernames(db.users) - {existing.username};
    var emails := Emails(db.users) - {existing.email};
    var errors := UserErrors(input, false, names, emails);
    if errors != map[] {
      return Err(Validation(M.USER_VALIDATION_FAILED, errors));
    }
    UpdateAccepted(db.users, id, input);
    var row := RowOf(input, existing.password, existing.createdAt);
    ReplaceKeepsAccounts(db.users, id, row);
    db.users := db.users[id := row];
    r := Ok(row);
  }

  /**
   * changePassword's checks that need no lookup, in order: the message of
   * the first that fails, or None.
   */
  function PasswordChangeError(userId: Option<int>, current: Option<string>, newPassword: Option<string>): (r: Option<string>)
    ensures r.None? <==> userId.Some? && current.Some? && current.value != "" && PW.IsValidPassword(newPassword)
    ensures userId.None? ==> r == Some(M.NULL_USER_ID)
    ensures r.Some? && userId.Some? && current.Some? && current.value != "" && newPassword.Some? && newPassword.value != "" ==>
              r == Some(M.WEAK_PASSWORD)
  {
    if userId.None? then Some(M.NULL_USER_ID)
    else if current.None? || current.value == "" then Some(M.EMPTY_CURRENT_PASSWORD)
    else if newPassword.None? || newPassword.value == "" then Some(M.EMPTY_NEW_PASSWORD)
    else if !PW.IsValidPassword(newPassword) then Some(M.WEAK_PASSWORD)
    else None
  }

  /**
   * changePassword: every input and policy check comes before the user is
   * looked up; a current password that does not verify against the stored
   * hash is an authentication failure; otherwise the stored hash becomes
   * the hash of the new password and nothing else changes.
   */
  method ChangePassword(db: Store, userId: Option<int>, current: Option<string>, newPassword: Option<string>,
                        salt: PW.Bytes, decode: string -> Option<PW.Bytes>, encode: PW.Bytes -> string,
                        digest: (PW.Bytes, string) -> PW.Bytes) returns (r: Outcome<bool>)
    modifies db`users
    ensures PasswordChangeError(userId, current, newPassword).Some? ==>
              r == Err(Validation(PasswordChangeError(userId, current, newPassword).value, map[]))
    ensures r.Err? ==> db.users == old(db.users)
    ensures PasswordChangeError(userId, current, newPassword).None? ==>
              var id := userId.value;
              if id !in old(db.users) then r == Err(Service(M.NotFound(M.USER, id)))
              else if !PW.VerifyPassword(current.value, old(db.users)[id].password, decode, encode, digest) then
                r == Err(Authentication(M.WRONG_CURRENT_PASSWORD))
              else
                && r == Ok(true)
                && db.users == old(db.users)[id := old(db.users)[id].(password := PW.HashPassword(newPassword.value, salt, encode, digest))]
    ensures Accounts(old(db.users)) ==> Accounts(db.users)
  {
    var check := PasswordChangeError(userId, current, newPassword);
    if check.Some? {
      return Err(Validation(check.value, map[]));
    }
    var id := userId.value;
    if id !in db.users {
      return Err(Service(M.NotFound(M.USER, id)));
    }
    var user := db.users[id];
    if !PW.VerifyPassword(current.value, user.password, decode, encode, digest) {
      return Err(Authentication(M.WRONG_CURRENT_PASSWORD));
    }
    var row := user.(password := PW.HashPassword(newPassword.value, salt, encode, digest));
    if Accounts(db.users) {
      UsernameFree(db.users, id, row.username);
      EmailFree(db.users, id, row.email);
      StoreKeepsAccounts(db.users, id, row);
    }
    db.users := db.users[id := row];
    r := Ok(true);
  }

  /**
   * After a successful change, the new password verifies against the
   * stored hash (for a codec that inverts on the salt and never writes ':').
   */
  lemma ChangedPasswordVerifies(newPassword: string, salt: PW.Bytes, decode: string -> Option<PW.Bytes>,
                                encode: PW.Bytes -> string, digest: (PW.Bytes, string) -> PW.Bytes)
    requires decode(encode(salt)) == Some(salt)
    requires PW.DELIMITER !in encode(salt) && PW.DELIMITER !in encode(digest(salt, newPassword)) && encode(digest(salt, newPassword)) != ""
    ensures PW.VerifyPassword(newPassword, PW.HashPassword(newPassword, salt, encode, digest), decode, encode, digest)
  {
    PW.VerifyOwnHash(newPassword, salt, decode, encode, digest);
  }

  /** Some account carries this username and a hash this password verifies against. */
  predicate Authenticates(users: map<int, UserRow>, username: string, password: Option<string>,
                          decode: string -> Option<PW.Bytes>, encode: PW.Bytes -> string, digest: (PW.Bytes, string) -> PW.Bytes)
  {
    exists id :: id in users && users[id].username == username && password.Some?
                 && PW.VerifyPassword(password.value, users[id].password, decode, encode, digest)
  }

  /**
   * authenticate: looks the user up by username and verifies the password
   * (a null password fails inside verifyPassword, which answers false).
   * An unknown username and a wrong password give the same message. With
   * usernames unique, it succeeds exactly when the account authenticates.
   */
  method Authenticate(db: Store, username: string, password: Option<string>, decode: string -> Option<PW.Bytes>,
                      encode: PW.Bytes -> string, digest: (PW.Bytes, string) -> PW.Bytes) returns (r: Outcome<UserRow>)
    ensures r.Err? ==> r.failure == Authentication(M.INVALID_CREDENTIALS)
    ensures r.Ok? ==> r.value in db.users.Values && r.value.username == username && password.Some?
                      && PW.VerifyPassword(password.value, r.value.password, decode, encode, digest)
    ensures Accounts(db.users) ==> (r.Ok? <==> Authenticates(db.users, username, password, decode, encode, digest))
  {
    if !exists id :: id in db.users && db.users[id].username == username {
      return Err(Authentication(M.INVALID_CREDENTIALS));
    }
    var id :| id in db.users && db.users[id].username == username;
    var user := db.users[id];
    if password.None? || !PW.VerifyPassword(password.value, user.password, decode, encode, digest) {
      return Err(Authentication(M.INVALID_CREDENTIALS));
    }
    r := Ok(user);
  }
}
