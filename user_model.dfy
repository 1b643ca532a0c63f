/**
 * The user schema of src/models/user.ts as predicates: a user document is
 * valid when every required field is present and within its bounds, and a
 * store is sound when no two documents share an email (the unique index).
 */
module UserModel {
  import opened Wrappers
  import opened Store

  /** A user document; None is a field that is absent (`undefined`). */
  datatype User = User(
    name: Option<string>,
    about: Option<string>,
    avatar: Option<string>,
    email: Option<string>,
    password: Option<string>)

  /** `validator.isEmail`, left uninterpreted. */
  type EmailCheck = string -> bool

  /** `name`: minlength 2, maxlength 30. */
  predicate ValidName(s: string) { 2 <= |s| <= 30 }

  /** `about`: minlength 2, maxlength 200. */
  predicate ValidAbout(s: string) { 2 <= |s| <= 200 }

  /** Mongoose's `required` on a String path also refuses the empty string. */
  predicate Present(f: Option<string>) { f.Some? && f.value != "" }

  /** The schema's validators, all of them (uniqueness is the index's business, below). */
  predicate ValidUser(u: User, isEmail: EmailCheck) {
    && Present(u.name) && ValidName(u.name.value)
    && Present(u.about) && ValidAbout(u.about.value)
    && Present(u.avatar)
    && Present(u.email) && isEmail(u.email.value)
    && Present(u.password)
  }

  /** The unique index on `email`. */
  ghost predicate EmailsUnique(users: map<Id, User>) {
    forall a, b | a in users && b in users && a != b :: users[a].email != users[b].email
  }

  /** Some stored user already has this email. */
  predicate EmailTaken(users: map<Id, User>, email: Option<string>) {
    exists id | id in users :: users[id].email == email
  }

  /**
   * `findByIdAndUpdate` with `runValidators` checks only the paths it sets. For a
   * valid document, setting `name` and `about` keeps it valid exactly when the two
   * new values pass their own validators.
   */
  lemma ProfileUpdateKeepsValid(u: User, isEmail: EmailCheck, n: string, a: string)
    requires ValidUser(u, isEmail)
    ensures ValidUser(u.(name := Some(n), about := Some(a)), isEmail) <==> ValidName(n) && ValidAbout(a)
  {
  }

  /** Likewise for `avatar`, whose only validator is `required`. */
  lemma AvatarUpdateKeepsValid(u: User, isEmail: EmailCheck, av: string)
    requires ValidUser(u, isEmail)
    ensures ValidUser(u.(avatar := Some(av)), isEmail) <==> av != ""
  {
  }

  /** The store sound before an insert of a fresh id with an unused email stays sound. */
  lemma InsertKeepsEmailsUnique(users: map<Id, User>, id: Id, u: User)
    requires EmailsUnique(users)
    requires id !in users
    requires !EmailTaken(users, u.email)
    ensures EmailsUnique(users[id := u])
  {
    var users' := users[id := u];
    forall a, b | a in users' && b in users' && a != b
      ensures users'[a].email != users'[b].email
    {
      if a == id {
        assert users'[b] == users[b];
      } else if b == id {
        assert users'[a] == users[a];
      }
    }
  }

  /** Replacing a stored document by one with the same email keeps the store sound. */
  lemma ReplaceKeepsEmailsUnique(users: map<Id, User>, id: Id, u: User)
    requires EmailsUnique(users)
    requires id in users && u.email == users[id].email
    ensures EmailsUnique(users[id := u])
  {
    var users' := users[id := u];
    forall a, b | a in users' && b in users' && a != b
      ensures users'[a].email != users'[b].email
    {
      assert users'[a].email == users[a].email;
      assert users'[b].email == users[b].email;
    }
  }

  /** In a sound store an email names at most one user. */
  lemma EmailNamesOneUser(users: map<Id, User>, a: Id, b: Id)
    requires EmailsUnique(users)
    requires a in users && b in users && users[a].email == users[b].email
    ensures a == b
  {
  }
}
