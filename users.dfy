/**
 * The user handlers of src/controllers/users.ts. Read-only handlers are
 * functions of a store snapshot; the handlers that write go through
 * UserStore, whose map stands for the `users` collection.
 */
module Users {
  import opened Wrappers
  import opened Errors
  import opened Store
  import opened Express
  import opened Jwt
  import opened UserModel
  import Auth

  const MSG_USER_NOT_FOUND: string := "Пользователь по указанному _id не найден"
  const MSG_BAD_LOOKUP: string := "Переданы некорректные данные для поиска пользователя"
  const MSG_BAD_SIGNUP: string := "Переданы некорректные данные при создании профиля"
  const MSG_EMAIL_TAKEN: string := "Данный e-mail уже используется"
  const MSG_BAD_PROFILE: string := "Переданы некорректные данные при обновлении профиля"
  const MSG_BAD_AVATAR: string := "Переданы некорректные данные при обновлении аватара"
  const MSG_BAD_CREDENTIALS: string := "Неправильная почта или пароль"
  const MSG_BAD_PASSWORD: string := "Неправильный пароль"
  const MSG_LOGGED_IN: string := "Вы успешно вошли в систему"

  /** The key login signs with. */
  const LOGIN_SECRET: string := "secret"
  const TOKEN_COOKIE: string := "jwt"
  const SALT_ROUNDS: nat := 10

  /** `bcrypt.hash(password, rounds)`, left uninterpreted. */
  type Hasher = (string, nat) -> string

  /** `bcrypt.compare(password, hash)`, left uninterpreted. */
  type HashCheck = (string, string) -> bool

  /** The bodies the user handlers send. */
  datatype Body =
    | UserData(id: Id, user: User)      // { data: user }
    | UsersData(users: map<Id, User>)   // { data: users }
    | IdAndEmail(id: Id, email: string) // { id: user._id, email: user.email }
    | Message(text: string)             // { message }

  // ----- the `.catch` blocks -----

  /** findUserById, findCurrentUserById: a cast failure becomes a validation error, anything else is passed on. */
  function LookupCatch(t: Thrown): (f: Failure)
    ensures f == Typed(Validation(Some(MSG_BAD_LOOKUP))) <==> IsCastError(t)
    ensures !IsCastError(t) ==> f == Raw(t)
  {
    if IsCastError(t) then Typed(NewValidationError(Some(MSG_BAD_LOOKUP))) else Raw(t)
  }

  /** createUser: code 11000 is checked first, then the validation class; anything else is passed on. */
  function SignupCatch(t: Thrown): (f: Failure)
    ensures IsDuplicateKey(t) ==> f == Typed(Conflict(Some(MSG_EMAIL_TAKEN)))
    ensures !IsDuplicateKey(t) && IsValidationError(t) ==> f == Typed(Validation(Some(MSG_BAD_SIGNUP)))
    ensures f.Raw? <==> !IsDuplicateKey(t) && !IsValidationError(t)
    ensures f.Raw? ==> f.thrown == t
  {
    if IsDuplicateKey(t) then Typed(NewConflictError(Some(MSG_EMAIL_TAKEN)))
    else if IsValidationError(t) then Typed(NewValidationError(Some(MSG_BAD_SIGNUP)))
    else Raw(t)
  }

  /** updateUser, updateAvatar: only a Mongoose validation error is translated; a cast failure is passed on as it is. */
  function UpdateCatch(t: Thrown, message: string): (f: Failure)
    ensures f == Typed(Validation(Some(message))) <==> IsValidationError(t)
    ensures !IsValidationError(t) ==> f == Raw(t)
  {
    if IsValidationError(t) then Typed(NewValidationError(Some(message))) else Raw(t)
  }

  // ----- read-only handlers -----

  /** `getUsers`: every stored user with the default status, or the failure passed on unchanged. */
  function GetUsers(users: map<Id, User>, fault: Option<Thrown>): (o: Outcome<Body>)
    ensures o.Respond? <==> fault.None?
    ensures o.Respond? ==> o.response == Response(EXPRESS_DEFAULT, UsersData(users), None)
    ensures fault.Some? ==> o == Next(Raw(fault.value))
  {
    match fault
    case Some(t) => Next(Raw(t))
    case None => Respond(Response(EXPRESS_DEFAULT, UsersData(users), None))
  }

  /** `User.findById(id)` followed by the shared `.then`/`.catch` of the two lookups. */
  function Lookup(users: map<Id, User>, id: Id, fault: Option<Thrown>, status: Status): Outcome<Body> {
    match fault
    case Some(t) => Next(LookupCatch(t))
    case None =>
      if id !in users then Next(Typed(NewNotFoundError(Some(MSG_USER_NOT_FOUND))))
      else Respond(Response(status, UserData(id, users[id]), None))
  }

  /** `findUserById`: the user under `id` with the default status; an unknown id is NotFound. */
  function FindUserById(users: map<Id, User>, id: Id, fault: Option<Thrown>): (o: Outcome<Body>)
    ensures o.Respond? <==> fault.None? && id in users
    ensures o.Respond? ==> o.response == Response(EXPRESS_DEFAULT, UserData(id, users[id]), None)
    ensures fault.None? && id !in users ==> o == Next(Typed(NotFound(Some(MSG_USER_NOT_FOUND))))
    ensures fault.Some? ==> o == Next(LookupCatch(fault.value))
  {
    Lookup(users, id, fault, EXPRESS_DEFAULT)
  }

  /** `findCurrentUserById`: the same lookup on the current user's id, answered with REQUEST_SUCCESS. */
  function FindCurrentUserById(users: map<Id, User>, current: Id, fault: Option<Thrown>): (o: Outcome<Body>)
    ensures o.Respond? <==> fault.None? && current in users
    ensures o.Respond? ==> o.response == Response(REQUEST_SUCCESS, UserData(current, users[current]), None)
    ensures fault.None? && current !in users ==> o == Next(Typed(NotFound(Some(MSG_USER_NOT_FOUND))))
    ensures fault.Some? ==> o == Next(LookupCatch(fault.value))
  {
    Lookup(users, current, fault, REQUEST_SUCCESS)
  }

  // ----- login -----

  /** `User.findOne({ email })`; the unique index makes the answer unique. */
  function FindByEmail(users: map<Id, User>, email: string): (r: Option<Id>)
    requires EmailsUnique(users)
    ensures r.Some? <==> EmailTaken(users, Some(email))
    ensures r.Some? ==> r.value in users && users[r.value].email == Some(email)
  {
    if EmailTaken(users, Some(email)) then
      var id :| id in users && users[id].email == Some(email);
      Some(id)
    else None
  }

  /** The success response of login: the token as an httpOnly `jwt` cookie and a success message. */
  function LoginResponse(token: string): Response<Body> {
    Response(REQUEST_SUCCESS, Message(MSG_LOGGED_IN), Some(Cookie(TOKEN_COOKIE, token, true)))
  }

  /**
   * `login` as written: the stored password is compared with the supplied one
   * by `!==`, an unknown email and a wrong password give different messages,
   * and the token is signed with LOGIN_SECRET.
   */
  function Login(users: map<Id, User>, email: string, password: string, fault: Option<Thrown>, sign: Signer): (o: Outcome<Body>)
    requires EmailsUnique(users)
    ensures fault.Some? ==> o == Next(Raw(fault.value))
    ensures fault.None? && !EmailTaken(users, Some(email)) ==>
      o == Next(Typed(Unauthorized(Some(MSG_BAD_CREDENTIALS))))
    ensures o.Respond? <==>
      fault.None? && exists id | id in users :: users[id].email == Some(email) && users[id].password == Some(password)
    ensures o.Respond? ==>
      exists id | id in users && users[id].email == Some(email) ::
        o.response == LoginResponse(sign(Claims(id), LOGIN_SECRET, EXPIRES_IN))
    ensures fault.None? && EmailTaken(users, Some(email)) && !o.Respond? ==>
      o == Next(Typed(Unauthorized(Some(MSG_BAD_PASSWORD))))
  {
    match fault
    case Some(t) => Next(Raw(t))
    case None =>
      match FindByEmail(users, email)
      case None => Next(Typed(NewUnauthorizedError(Some(MSG_BAD_CREDENTIALS))))
      case Some(id) =>
        if users[id].password != Some(password) then
          Next(Typed(NewUnauthorizedError(Some(MSG_BAD_PASSWORD))))
        else
          LoginRespond(sign, id, LOGIN_SECRET)
  }

  function LoginRespond(sign: Signer, id: Id, secret: string): Outcome<Body> {
    Respond(LoginResponse(sign(Claims(id), secret, EXPIRES_IN)))
  }

  /**
   * `login` made consistent with the rest of the code: bcrypt's own comparison,
   * since createUser stores a bcrypt hash; one message for every credential
   * failure, the "wrong email or password" text the unknown-email branch already
   * uses; and the key the auth gate verifies with.
   */
  function LoginIntended(users: map<Id, User>, email: string, password: string, fault: Option<Thrown>,
                         sign: Signer, compare: HashCheck): (o: Outcome<Body>)
    requires EmailsUnique(users)
    ensures fault.Some? ==> o == Next(Raw(fault.value))
    ensures o.Respond? <==>
      fault.None? && exists id | id in users ::
        users[id].email == Some(email) && users[id].password.Some? && compare(password, users[id].password.value)
    ensures o.Respond? ==>
      exists id | id in users && users[id].email == Some(email) ::
        o.response == LoginResponse(sign(Claims(id), Auth.GATE_SECRET, EXPIRES_IN))
    ensures fault.None? && !o.Respond? ==> o == Next(Typed(Unauthorized(Some(MSG_BAD_CREDENTIALS))))
  {
    match fault
    case Some(t) => Next(Raw(t))
    case None =>
      match FindByEmail(users, email)
      case None => Next(Typed(NewUnauthorizedError(Some(MSG_BAD_CREDENTIALS))))
      case Some(id) =>
        if users[id].password.None? || !compare(password, users[id].password.value) then
          Next(Typed(NewUnauthorizedError(Some(MSG_BAD_CREDENTIALS))))
        else
          LoginRespond(sign, id, Auth.GATE_SECRET)
  }

  // ----- signup -----

  /** The document createUser hands to `User.create`: the body with its password replaced by the bcrypt hash. */
  function SignupRecord(body: User, hash: Hasher): (r: User)
    requires body.password.Some?
    ensures r.password == Some(hash(body.password.value, SALT_ROUNDS))
    ensures r.name == body.name && r.about == body.about && r.avatar == body.avatar && r.email == body.email
  {
    body.(password := Some(hash(body.password.value, SALT_ROUNDS)))
  }

  /**
   * Why `User.create` would refuse a document: the schema validators run first,
   * then the unique indexes on `email` and `_id` (both code 11000). None is success.
   */
  function InsertRefusal(users: map<Id, User>, record: User, newId: Id, isEmail: EmailCheck): (r: Option<Thrown>)
    ensures r.None? <==> ValidUser(record, isEmail) && newId !in users && !EmailTaken(users, record.email)
    ensures r == Some(SCHEMA_REJECTED) <==> !ValidUser(record, isEmail)
  {
    if !ValidUser(record, isEmail) then Some(SCHEMA_REJECTED)
    else if newId in users || EmailTaken(users, record.email) then Some(INDEX_COLLISION)
    else None
  }

  // ----- properties relating several calls -----

  /** After a signup stored `first`, a second signup with the same email is refused as a conflict. */
  lemma SecondSignupConflicts(users: map<Id, User>, first: User, second: User, id1: Id, id2: Id, isEmail: EmailCheck)
    requires InsertRefusal(users, first, id1, isEmail) == None
    requires ValidUser(second, isEmail) && second.email == first.email
    ensures InsertRefusal(users[id1 := first], second, id2, isEmail) == Some(INDEX_COLLISION)
    ensures SignupCatch(INDEX_COLLISION) == Typed(Conflict(Some(MSG_EMAIL_TAKEN)))
  {
    assert users[id1 := first][id1].email == second.email;
  }

  /**
   * As written, a user who has just signed up cannot log in with their own
   * password: the store holds its hash and login compares it to the plaintext.
   */
  lemma SignupThenLoginRejected(users: map<Id, User>, body: User, hash: Hasher, newId: Id, isEmail: EmailCheck, sign: Signer)
    requires EmailsUnique(users) && body.password.Some?
    requires InsertRefusal(users, SignupRecord(body, hash), newId, isEmail) == None
    requires hash(body.password.value, SALT_ROUNDS) != body.password.value
    ensures EmailsUnique(users[newId := SignupRecord(body, hash)])
    ensures Login(users[newId := SignupRecord(body, hash)], body.email.value, body.password.value, None, sign)
      == Next(Typed(Unauthorized(Some(MSG_BAD_PASSWORD))))
  {
    var record := SignupRecord(body, hash);
    var users' := users[newId := record];
    InsertKeepsEmailsUnique(users, newId, record);
    assert users'[newId].email == Some(body.email.value);
    var found := FindByEmail(users', body.email.value);
    EmailNamesOneUser(users', found.value, newId);
  }

  /** With bcrypt's comparison, the same signup is followed by a successful login. */
  lemma SignupThenLoginIntendedSucceeds(users: map<Id, User>, body: User, hash: Hasher, newId: Id, isEmail: EmailCheck,
                                        sign: Signer, compare: HashCheck)
    requires EmailsUnique(users) && body.password.Some?
    requires InsertRefusal(users, SignupRecord(body, hash), newId, isEmail) == None
    requires compare(body.password.value, hash(body.password.value, SALT_ROUNDS))
    ensures EmailsUnique(users[newId := SignupRecord(body, hash)])
    ensures LoginIntended(users[newId := SignupRecord(body, hash)], body.email.value, body.password.value, None, sign, compare)
      == Respond(LoginResponse(sign(Claims(newId), Auth.GATE_SECRET, EXPIRES_IN)))
  {
    var record := SignupRecord(body, hash);
    var users' := users[newId := record];
    InsertKeepsEmailsUnique(users, newId, record);
    assert users'[newId].email == Some(body.email.value);
    var found := FindByEmail(users', body.email.value);
    EmailNamesOneUser(users', found.value, newId);
  }

  /** As written, an unknown email and a wrong password for a known one are told apart. */
  lemma LoginDistinguishesFailures(users: map<Id, User>, known: Id, unknownEmail: string, password: string, sign: Signer)
    requires EmailsUnique(users)
    requires known in users && users[known].email.Some? && users[known].password != Some(password)
    requires !EmailTaken(users, Some(unknownEmail))
    ensures Login(users, unknownEmail, password, None, sign) == Next(Typed(Unauthorized(Some(MSG_BAD_CREDENTIALS))))
    ensures Login(users, users[known].email.value, password, None, sign) == Next(Typed(Unauthorized(Some(MSG_BAD_PASSWORD))))
  {
    var found := FindByEmail(users, users[known].email.value);
    EmailNamesOneUser(users, found.value, known);
  }

  /**
   * As written, the token login issues is refused by the gate: it is signed with
   * LOGIN_SECRET and verified with the gate's key.
   */
  lemma LoginTokenRefusedByGate(users: map<Id, User>, email: string, password: string, sign: Signer, verify: Verifier)
    requires EmailsUnique(users) && KeyBound(sign, verify)
    requires Login(users, email, password, None, sign).Respond?
    ensures Login(users, email, password, None, sign).response.cookie.Some?
    ensures Auth.Gate(Some(Auth.BEARER_PREFIX + Login(users, email, password, None, sign).response.cookie.value.value), verify)
      == Auth.Reject(Unauthorized(Some(Auth.MSG_SIGN_IN)))
  {
    var o := Login(users, email, password, None, sign);
    var id :| id in users && users[id].email == Some(email) &&
      o.response == LoginResponse(sign(Claims(id), LOGIN_SECRET, EXPIRES_IN));
    var token := sign(Claims(id), LOGIN_SECRET, EXPIRES_IN);
    assert |LOGIN_SECRET| != |Auth.GATE_SECRET|;
    assert verify(token, Auth.GATE_SECRET) == None;
    Auth.GateJudgesToken(token, verify);
  }

  /** Signed with the gate's key, the login token passes the gate with the user's id. */
  lemma LoginIntendedTokenPassesGate(users: map<Id, User>, email: string, password: string, sign: Signer,
                                     verify: Verifier, compare: HashCheck)
    requires EmailsUnique(users) && KeyBound(sign, verify)
    requires LoginIntended(users, email, password, None, sign, compare).Respond?
    ensures LoginIntended(users, email, password, None, sign, compare).response.cookie.Some?
    ensures FindByEmail(users, email).Some?
    ensures Auth.Gate(Some(Auth.BEARER_PREFIX + LoginIntended(users, email, password, None, sign, compare).response.cookie.value.value), verify)
      == Auth.Pass(Claims(FindByEmail(users, email).value))
  {
    var o := LoginIntended(users, email, password, None, sign, compare);
    var id :| id in users && users[id].email == Some(email) &&
      o.response == LoginResponse(sign(Claims(id), Auth.GATE_SECRET, EXPIRES_IN));
    EmailNamesOneUser(users, id, FindByEmail(users, email).value);
    var token := sign(Claims(id), Auth.GATE_SECRET, EXPIRES_IN);
    assert verify(token, Auth.GATE_SECRET) == Some(Claims(id));
    Auth.GateJudgesToken(token, verify);
  }

  /** The store kept by the write handlers: the `users` collection and its schema's email check. */
  class UserStore {
    const isEmail: EmailCheck
    var users: map<Id, User>

    /** Every stored document passed the schema, and the unique index on `email` holds. */
    ghost predicate Valid()
      reads this
    {
      (forall id | id in users :: ValidUser(users[id], isEmail)) && EmailsUnique(users)
    }

    constructor (isEmail: EmailCheck)
      ensures Valid() && this.isEmail == isEmail && users == map[]
    {
      this.isEmail := isEmail;
      users := map[];
    }

    /**
     * `createUser`: hash the password, insert the document, answer with its id
     * and email only. `newId` is the ObjectId Mongoose generates for the document.
     */
    method CreateUser(body: User, hash: Hasher, newId: Id, fault: Option<Thrown>) returns (o: Outcome<Body>)
      requires Valid()
      modifies this`users
      ensures Valid()
      ensures body.password.None? ==> o == Next(Raw(HASH_REJECTED)) && users == old(users)
      ensures body.password.Some? && fault.Some? ==> o == Next(SignupCatch(fault.value)) && users == old(users)
      ensures body.password.Some? && fault.None? ==>
        var record := SignupRecord(body, hash);
        match InsertRefusal(old(users), record, newId, isEmail)
        case Some(t) => o == Next(SignupCatch(t)) && users == old(users)
        case None =>
          && users == old(users)[newId := record]
          && o == Respond(Response(CREATED_SUCCESS, IdAndEmail(newId, record.email.value), None))
    {
      if body.password.None? {
        return Next(SignupCatch(HASH_REJECTED));
      }
      var record := SignupRecord(body, hash);
      if fault.Some? {
        return Next(SignupCatch(fault.value));
      }
      var refusal := InsertRefusal(users, record, newId, isEmail);
      if refusal.Some? {
        return Next(SignupCatch(refusal.value));
      }
      InsertKeepsEmailsUnique(users, newId, record);
      users := users[newId := record];
      o := Respond(Response(CREATED_SUCCESS, IdAndEmail(newId, record.email.value), None));
    }

    /**
     * `updateUser`: set `name` and `about` of the current user with the update
     * validators on, and answer with the updated document. The validators run
     * before the document is looked up.
     */
    method UpdateUser(current: Id, name: string, about: string, fault: Option<Thrown>) returns (o: Outcome<Body>)
      requires Valid()
      modifies this`users
      ensures Valid()
      ensures fault.Some? ==> o == Next(UpdateCatch(fault.value, MSG_BAD_PROFILE)) && users == old(users)
      ensures fault.None? && !(ValidName(name) && ValidAbout(about)) ==>
        o == Next(Typed(Validation(Some(MSG_BAD_PROFILE)))) && users == old(users)
      ensures fault.None? && ValidName(name) && ValidAbout(about) && current !in old(users) ==>
        o == Next(Typed(NotFound(Some(MSG_USER_NOT_FOUND)))) && users == old(users)
      ensures fault.None? && ValidName(name) && ValidAbout(about) && current in old(users) ==>
        && users == old(users)[current := old(users)[current].(name := Some(name), about := Some(about))]
        && o == Respond(Response(REQUEST_SUCCESS, UserData(current, users[current]), None))
      ensures users.Keys == old(users).Keys
      ensures forall id | id in old(users) && id != current :: users[id] == old(users)[id]
    {
      if fault.Some? {
        return Next(UpdateCatch(fault.value, MSG_BAD_PROFILE));
      }
      if !(ValidName(name) && ValidAbout(about)) {
        return Next(UpdateCatch(SCHEMA_REJECTED, MSG_BAD_PROFILE));
      }
      if current !in users {
        return Next(Typed(NewNotFoundError(Some(MSG_USER_NOT_FOUND))));
      }
      var updated := users[current].(name := Some(name), about := Some(about));
      ProfileUpdateKeepsValid(users[current], isEmail, name, about);
      ReplaceKeepsEmailsUnique(users, current, updated);
      users := users[current := updated];
      o := Respond(Response(REQUEST_SUCCESS, UserData(current, updated), None));
    }

    /** `updateAvatar`: set `avatar` of the current user; `required` is its only validator. */
    method UpdateAvatar(current: Id, avatar: string, fault: Option<Thrown>) returns (o: Outcome<Body>)
      requires Valid()
      modifies this`users
      ensures Valid()
      ensures fault.Some? ==> o == Next(UpdateCatch(fault.value, MSG_BAD_AVATAR)) && users == old(users)
      ensures fault.None? && avatar == "" ==>
        o == Next(Typed(Validation(Some(MSG_BAD_AVATAR)))) && users == old(users)
      ensures fault.None? && avatar != "" && current !in old(users) ==>
        o == Next(Typed(NotFound(Some(MSG_USER_NOT_FOUND)))) && users == old(users)
      ensures fault.None? && avatar != "" && current in old(users) ==>
        && users == old(users)[current := old(users)[current].(avatar := Some(avatar))]
        && o == Respond(Response(REQUEST_SUCCESS, UserData(current, users[current]), None))
      ensures users.Keys == old(users).Keys
      ensures forall id | id in old(users) && id != current :: users[id] == old(users)[id]
    {
      if fault.Some? {
        return Next(UpdateCatch(fault.value, MSG_BAD_AVATAR));
      }
      if avatar == "" {
        return Next(UpdateCatch(SCHEMA_REJECTED, MSG_BAD_AVATAR));
      }
      if current !in users {
        return Next(Typed(NewNotFoundError(Some(MSG_USER_NOT_FOUND))));
      }
      var updated := users[current].(avatar := Some(avatar));
      AvatarUpdateKeepsValid(users[current], isEmail, avatar);
      ReplaceKeepsEmailsUnique(users, current, updated);
      users := users[current := updated];
      o := Respond(Response(REQUEST_SUCCESS, UserData(current, updated), None));
    }
  }
}
