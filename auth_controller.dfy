/**
 * Registration, login and password change over the user table. The table
 * is a map from e-mail address to user record, and a `UserStore` object
 * holds it. Each request handler is specified by a function from the old
 * table to its reply and the new table, and the lemmas are stated about
 * those functions.
 *
 * Four things are abstract here:
 * - bcrypt's `hash` is a function given to the store, and `compare(p, h)` is
 *   `hash(p) == h`;
 * - a token is the payload `jwt.sign` is given, with its expiry;
 * - the database's id generator is a counter;
 * - the clock is a parameter.
 *
 * The `email`, `firstName` and `lastName` a handler receives are the values
 * after the route's sanitizers have rewritten them: on register and login the
 * address has been through `normalizeEmail()` (so two spellings that
 * normalise alike reach the handler as one key), and on register the names
 * have been trimmed. The sanitizers themselves are not part of this model.
 */
module AuthController {
  import opened Wrappers
  import opened JsStrings
  import ErrorHandler

  type AppError = ErrorHandler.AppError

  datatype User = User(
    id: nat,
    email: string,
    password: string,  // the stored hash
    firstName: string,
    lastName: string,
    role: string,
    lastLoginAt: Option<int>)

  /** The user table and the next id the database will hand out. */
  datatype Store = Store(users: map<string, User>, nextId: nat)

  /**
   * Every record is filed under its own e-mail address and has an id
   * already handed out, and no two records share an id.
   */
  predicate ValidStore(s: Store) {
    (forall e :: e in s.users ==> s.users[e].email == e && s.users[e].id < s.nextId)
    && (forall e, f :: e in s.users && f in s.users && s.users[e].id == s.users[f].id ==> e == f)
  }

  /** What `jwt.sign` is given: the payload and `expiresIn`. */
  datatype Token = Token(id: nat, email: string, role: string, expiresIn: string)

  datatype PublicUser = PublicUser(id: nat, email: string, role: string)

  datatype AuthData = AuthData(user: PublicUser, token: Token)

  /** A handler's effect: a `{ success: true, message, data }` answer with a status, or `next(error)`. */
  datatype Reply = Answer(status: int, message: string, data: Option<AuthData>) | Next(error: AppError)

  function AuthError(message: string, status: int): (e: AppError)
    ensures e.message == message && e.statusCode == Some(status)
    ensures e.stack == Some(ErrorHandler.StackHead("Error", message))
  {
    ErrorHandler.NewApiError(message, Some(status), Some(ErrorHandler.StackHead("Error", message)))
  }

  /** The token and public fields for a user, with `JWT_EXPIRE || '24h'` as expiry. */
  function Credentials(u: User, jwtExpire: Option<string>): (d: AuthData)
    ensures d.user == PublicUser(u.id, u.email, u.role)
    ensures d.token.id == u.id && d.token.email == u.email && d.token.role == u.role
    ensures d.token.expiresIn == (if Truthy(jwtExpire) then jwtExpire.value else "24h")
  {
    AuthData(PublicUser(u.id, u.email, u.role), Token(u.id, u.email, u.role, OrElse(jwtExpire, "24h")))
  }

  // ---------------------------------------------------------------- register

  /**
   * `register`: a validation failure is a 400 and an address already in the
   * table a 409, both leaving the table as it was. Otherwise a new user is
   * filed under the address with the next id, the password's hash and the
   * given role or 'RECRUITER', and the answer is a 201 with its credentials.
   */
  function RegisterOutcome(s: Store, hash: string -> string, validationFailed: bool, email: string, password: string,
                           firstName: string, lastName: string, role: Option<string>, jwtExpire: Option<string>)
    : (r: (Reply, Store))
    ensures validationFailed ==> r == (Next(AuthError("Validation failed", 400)), s)
    ensures !validationFailed && email in s.users ==> r == (Next(AuthError("User already exists", 409)), s)
    ensures !validationFailed && email !in s.users ==>
      var u := User(s.nextId, email, hash(password), firstName, lastName, OrElse(role, "RECRUITER"), None);
      r.1 == Store(s.users[email := u], s.nextId + 1)
      && r.0 == Answer(201, "User registered successfully", Some(Credentials(u, jwtExpire)))
    ensures ValidStore(s) ==> ValidStore(r.1)
    ensures forall e :: e in s.users ==> e in r.1.users && r.1.users[e] == s.users[e]
  {
    if validationFailed then (Next(AuthError("Validation failed", 400)), s)
    else if email in s.users then (Next(AuthError("User already exists", 409)), s)
    else
      var u := User(s.nextId, email, hash(password), firstName, lastName, OrElse(role, "RECRUITER"), None);
      (Answer(201, "User registered successfully", Some(Credentials(u, jwtExpire))), Store(s.users[email := u], s.nextId + 1))
  }

  /**
   * A missing or empty role gives 'RECRUITER'; any other role is stored as
   * given. Through the register route the empty role never gets this far:
   * `optional()` skips only an absent field, so `isIn` refuses `""` and the
   * request ends in the 400 for failed validation.
   */
  lemma RoleDefaultsToRecruiter(s: Store, hash: string -> string, email: string, password: string,
                                firstName: string, lastName: string, role: Option<string>, jwtExpire: Option<string>)
    requires email !in s.users
    ensures var after := RegisterOutcome(s, hash, false, email, password, firstName, lastName, role, jwtExpire).1;
      after.users[email].role == (if role == None || role == Some("") then "RECRUITER" else role.value)
  {
  }

  // ---------------------------------------------------------------- login

  const InvalidCredentials := "Invalid credentials"

  /**
   * What bcryptjs rejects with when `compare` or `hash` is handed an
   * `undefined` password: a plain error, so a 500. The second word names the
   * type of the other argument (the stored hash, or the cost 12).
   */
  const CompareMissingError := ErrorHandler.PlainError("Illegal arguments: undefined, string",
    Some(ErrorHandler.StackHead("Error", "Illegal arguments: undefined, string")))
  const HashMissingError := ErrorHandler.PlainError("Illegal arguments: undefined, number",
    Some(ErrorHandler.StackHead("Error", "Illegal arguments: undefined, number")))

  /**
   * `login`: an unknown address and a wrong password both give the same 401
   * and change nothing. A match records the login time on that user only and
   * answers 200 with its credentials. The handler never reads the route's
   * `notEmpty()` result, so a body without `password` reaches
   * `bcrypt.compare` for a registered address and fails there with a 500.
   */
  function LoginOutcome(s: Store, hash: string -> string, email: string, password: Option<string>, now: int,
                        jwtExpire: Option<string>)
    : (r: (Reply, Store))
    ensures email !in s.users ==> r == (Next(AuthError(InvalidCredentials, 401)), s)
    ensures email in s.users && password == None ==> r == (Next(CompareMissingError), s)
    ensures email in s.users && password.Some? && hash(password.value) != s.users[email].password ==>
      r == (Next(AuthError(InvalidCredentials, 401)), s)
    ensures email in s.users && password.Some? && hash(password.value) == s.users[email].password ==>
      r.1 == Store(s.users[email := s.users[email].(lastLoginAt := Some(now))], s.nextId)
      && r.0 == Answer(200, "Login successful", Some(Credentials(s.users[email], jwtExpire)))
    ensures ValidStore(s) ==> ValidStore(r.1)
  {
    if email !in s.users then (Next(AuthError(InvalidCredentials, 401)), s)
    else
      var u := s.users[email];
      match password
      case None => (Next(CompareMissingError), s)
      case Some(p) =>
        if hash(p) != u.password then (Next(AuthError(InvalidCredentials, 401)), s)
        else (Answer(200, "Login successful", Some(Credentials(u, jwtExpire))),
              Store(s.users[email := u.(lastLoginAt := Some(now))], s.nextId))
  }

  /** A caller who sends a password cannot tell an unknown address from a wrong password. */
  lemma UniformLoginError(s: Store, hash: string -> string, unknown: string, p: Option<string>,
                          known: string, wrong: string, now: int, jwtExpire: Option<string>)
    requires unknown !in s.users
    requires known in s.users && hash(wrong) != s.users[known].password
    ensures LoginOutcome(s, hash, unknown, p, now, jwtExpire) == LoginOutcome(s, hash, known, Some(wrong), now, jwtExpire)
  {
  }

  /**
   * Without a password the two cases part: an unknown address is the 401,
   * a registered one the 500 from `bcrypt.compare`, so the status tells
   * which addresses are registered.
   */
  lemma MissingPasswordRevealsAccount(s: Store, hash: string -> string, unknown: string, known: string,
                                      now: int, jwtExpire: Option<string>)
    requires unknown !in s.users && known in s.users
    ensures var a := LoginOutcome(s, hash, unknown, None, now, jwtExpire).0;
      var b := LoginOutcome(s, hash, known, None, now, jwtExpire).0;
      a.Next? && b.Next? && a.error.statusCode == Some(401) && b.error.statusCode == None
      && ErrorHandler.HandleError(b.error, None).status == 500
  {
    ErrorHandler.PlainErrorIs500("Illegal arguments: undefined, string", CompareMissingError.stack, None);
  }

  /** Whoever registers can log in straight away with the same password, and gets the same id and role back. */
  lemma RegisterThenLogin(s: Store, hash: string -> string, email: string, password: string,
                          firstName: string, lastName: string, role: Option<string>, now: int, jwtExpire: Option<string>)
    requires email !in s.users
    ensures var (registered, after) := RegisterOutcome(s, hash, false, email, password, firstName, lastName, role, jwtExpire);
      var (loggedIn, _) := LoginOutcome(after, hash, email, Some(password), now, jwtExpire);
      loggedIn.Answer? && loggedIn.data == registered.data
  {
  }

  // ---------------------------------------------------------------- changePassword

  /** The address of the user with this id, if there is one. */
  ghost function OwnerOf(s: Store, id: nat): (r: Option<string>)
    ensures r.Some? ==> r.value in s.users && s.users[r.value].id == id
    ensures r == None ==> forall e :: e in s.users ==> s.users[e].id != id
  {
    if exists e :: e in s.users && s.users[e].id == id then
      var e :| e in s.users && s.users[e].id == id; Some(e)
    else None
  }

  /** What reading `password` of the `null` that `findUnique` gives for an unknown id throws. */
  const NullUserError := ErrorHandler.PlainError("Cannot read properties of null (reading 'password')",
    Some(ErrorHandler.StackHead("TypeError", "Cannot read properties of null (reading 'password')")))

  /**
   * `changePassword` for the logged-in user's id: a wrong current password is
   * a 401 and keeps the stored hash; a right one replaces it by the new
   * password's hash and touches nothing else. The new password's length is
   * not checked, since the handler never reads the route's validators. A
   * user missing from the table makes the handler throw on `user!.password`,
   * and a missing current or new password makes bcrypt reject; each of these
   * reaches `next` as an error without a status, before the table is written.
   */
  ghost function ChangePasswordOutcome(s: Store, hash: string -> string, userId: nat,
                                       currentPassword: Option<string>, newPassword: Option<string>)
    : (r: (Reply, Store))
    ensures r.0.Next? ==> r.1 == s
    ensures OwnerOf(s, userId) == None ==> r == (Next(NullUserError), s)
    ensures OwnerOf(s, userId).Some? && currentPassword == None ==> r == (Next(CompareMissingError), s)
    ensures OwnerOf(s, userId).Some? && currentPassword.Some?
            && hash(currentPassword.value) != s.users[OwnerOf(s, userId).value].password ==>
      r == (Next(AuthError("Current password is incorrect", 401)), s)
    ensures OwnerOf(s, userId).Some? && currentPassword.Some?
            && hash(currentPassword.value) == s.users[OwnerOf(s, userId).value].password && newPassword == None ==>
      r == (Next(HashMissingError), s)
    ensures OwnerOf(s, userId).Some? && currentPassword.Some?
            && hash(currentPassword.value) == s.users[OwnerOf(s, userId).value].password && newPassword.Some? ==>
      var e := OwnerOf(s, userId).value;
      r == (Answer(200, "Password changed successfully", None),
            Store(s.users[e := s.users[e].(password := hash(newPassword.value))], s.nextId))
    ensures ValidStore(s) ==> ValidStore(r.1)
  {
    match OwnerOf(s, userId)
    case None => (Next(NullUserError), s)
    case Some(e) =>
      var u := s.users[e];
      match currentPassword
      case None => (Next(CompareMissingError), s)
      case Some(current) =>
        if hash(current) != u.password then (Next(AuthError("Current password is incorrect", 401)), s)
        else
          match newPassword
          case None => (Next(HashMissingError), s)
          case Some(p) =>
            (Answer(200, "Password changed successfully", None),
             Store(s.users[e := u.(password := hash(p))], s.nextId))
  }

  /**
   * After a password change the new password logs in; the old one no longer
   * does, unless the two hash alike.
   */
  lemma ChangeThenLogin(s: Store, hash: string -> string, email: string, oldPassword: string, newPassword: string,
                        now: int, jwtExpire: Option<string>)
    requires ValidStore(s) && email in s.users && hash(oldPassword) == s.users[email].password
    ensures var after := ChangePasswordOutcome(s, hash, s.users[email].id, Some(oldPassword), Some(newPassword)).1;
      LoginOutcome(after, hash, email, Some(newPassword), now, jwtExpire).0.Answer?
      && (hash(oldPassword) != hash(newPassword) ==>
            LoginOutcome(after, hash, email, Some(oldPassword), now, jwtExpire).0.Next?)
  {
    var owner := OwnerOf(s, s.users[email].id);
    assert owner == Some(email);
  }

  /** The one-character password the route's validator would refuse is accepted, since the handler never reads its result. */
  lemma ShortNewPasswordAccepted(s: Store, hash: string -> string, email: string, current: string)
    requires ValidStore(s) && email in s.users && hash(current) == s.users[email].password
    ensures ChangePasswordOutcome(s, hash, s.users[email].id, Some(current), Some("x")).0
            == Answer(200, "Password changed successfully", None)
  {
    assert OwnerOf(s, s.users[email].id) == Some(email);
  }

  // ---------------------------------------------------------------- the store object

  /** The user table the handlers update in place. */
  class UserStore {
    var users: map<string, User>
    var nextId: nat
    const hash: string -> string

    function State(): Store
      reads this
    {
      Store(users, nextId)
    }

    ghost predicate Valid()
      reads this
    {
      ValidStore(State())
    }

    constructor (hash: string -> string)
      ensures users == map[] && nextId == 0 && this.hash == hash
      ensures Valid()
    {
      users := map[];
      nextId := 0;
      this.hash := hash;
    }

    method Register(validationFailed: bool, email: string, password: string, firstName: string, lastName: string,
                    role: Option<string>, jwtExpire: Option<string>) returns (reply: Reply)
      requires Valid()
      modifies this
      ensures Valid()
      ensures (reply, State()) == RegisterOutcome(old(State()), hash, validationFailed, email, password,
                                                          firstName, lastName, role, jwtExpire)
    {
      if validationFailed {
        return Next(AuthError("Validation failed", 400));
      }
      if email in users {
        return Next(AuthError("User already exists", 409));
      }
      var hashedPassword := hash(password);
      var user := User(nextId, email, hashedPassword, firstName, lastName, OrElse(role, "RECRUITER"), None);
      users := users[email := user];
      nextId := nextId + 1;
      reply := Answer(201, "User registered successfully", Some(Credentials(user, jwtExpire)));
    }

    method Login(email: string, password: Option<string>, now: int, jwtExpire: Option<string>) returns (reply: Reply)
      requires Valid()
      modifies this
      ensures Valid()
      ensures (reply, State()) == LoginOutcome(old(State()), hash, email, password, now, jwtExpire)
    {
      if email !in users {
        return Next(AuthError(InvalidCredentials, 401));
      }
      var user := users[email];
      if password == None {
        return Next(CompareMissingError);
      }
      if hash(password.value) != user.password {
        return Next(AuthError(InvalidCredentials, 401));
      }
      var data := Credentials(user, jwtExpire);
      users := users[email := user.(lastLoginAt := Some(now))];
      reply := Answer(200, "Login successful", Some(data));
    }

    method ChangePassword(userId: nat, currentPassword: Option<string>, newPassword: Option<string>)
      returns (reply: Reply)
      requires Valid()
      modifies this
      ensures Valid()
      ensures (reply, State()) == ChangePasswordOutcome(old(State()), hash, userId, currentPassword, newPassword)
    {
      if !exists e :: e in users && users[e].id == userId {
        return Next(NullUserError);
      }
      var e :| e in users && users[e].id == userId;
      assert OwnerOf(State(), userId) == Some(e);
      var user := users[e];
      if currentPassword == None {
        return Next(CompareMissingError);
      }
      if hash(currentPassword.value) != user.password {
        return Next(AuthError("Current password is incorrect", 401));
      }
      if newPassword == None {
        return Next(HashMissingError);
      }
      users := users[e := user.(password := hash(newPassword.value))];
      reply := Answer(200, "Password changed successfully", None);
    }
  }
}
