# A Dafny model of the mesto backend's request handling

This project models the core of a small Express + Mongoose REST backend.
The backend serves users and picture "cards". The model covers five pieces:

- the five error classes and the status each one carries;
- the user schema's validators and the unique index on `email`;
- the bearer-token middleware `auth`;
- the user handlers (`getUsers`, `findUserById`, `findCurrentUserById`, `createUser`, `updateUser`, `updateAvatar`, `login`);
- the card handlers (`getCards`, `createCard`, `deleteCardById`, `likeCard`, `dislikeCard`).

A few things are abstracted:

- The document store is a `map<Id, …>` held by a class (`UserStore`, `CardStore`). The handlers that write are methods of that class.
- Mongoose and MongoDB report failures by throwing. The model describes what was thrown as a `Store.Thrown` value: its `code` and its class (CastError, ValidationError, another Mongoose error, or a non-Mongoose error).
  - Some failures follow from the data the model holds, and the model computes them: a schema violation, a duplicate email, a colliding `_id`, bcrypt refusing an `undefined` password.
  - Other failures come from outside: a lost connection, an id that cannot be cast to an ObjectId, the card schema's validators. These come in as the `fault` parameter of each handler.
- Each handler's run is a single value. For the user handlers it is an `Express.Outcome`: either `Respond(response)` (one `res.send`) or `Next(failure)` (one `next(err)`). Because a handler produces exactly one such value, every path sends one response or calls `next` once, never both. The card handlers never call `next`, so they return a `Response` directly.
- The auth middleware changes the request object, so it is a class `Auth.SessionRequest` with an optional `user` field. Its method `Authenticate` is proved against the pure decision `Auth.Gate`.
- jsonwebtoken's `sign`/`verify`, bcrypt's `hash`/`compare` and validator's `isEmail` are uninterpreted function parameters. Where a property needs jsonwebtoken to behave, the lemma takes `Jwt.KeyBound` as a hypothesis: a token verifies under the key it was signed with, and under no other key.
- The numeric status constants are not available. `Errors.Status` names them by their constant names (`REQUEST_SUCCESS`, `VALIDATION_ERROR`, …), which makes them distinct. `EXPRESS_DEFAULT` is the status of a response whose handler never set one (Express sends 200).

`login` is modelled as written. That means a plain `!==` comparison against the stored password, different messages for an unknown email and for a wrong password, and signing with `"secret"`, while the gate verifies with `"some-secret-key"`. `Users.LoginIntended` is login made consistent with the rest of the code, and the findings below compare the two. Each of its changes is justified by the code itself:

- createUser stores a bcrypt hash (src/controllers/users.ts:75-78), so the comparison has to be bcrypt's.
- The unknown-email message already reads "wrong email or password" (src/controllers/users.ts:169), so one message for both failures fits it.
- The gate verifies with "some-secret-key" (src/middlewares/auth.ts:17), so that is the key to sign with.

Four facts about the code shape the model:

- There are five error classes, and no class for internal errors.
- There is no terminal error handler. `next(err)` hands the error to Express's default handler.
- The card handlers write their error responses themselves instead of calling `next`.
- Login compares plaintext and reveals whether an email exists.

## Model

| member | source | states |
|---|---|---|
| Errors.NewValidationError | src/errors/ValidationError.ts:3-9 | construction is total for any message, even undefined (then the error has no own `message`, and `.message` reads ""); a given message is kept unchanged; the status is VALIDATION_ERROR |
| Errors.NewForbiddenError | src/errors/ForbiddenError.ts:3-9 | construction is total; the message is kept; the status is FORBIDDEN_ACTION |
| Errors.NewUnauthorizedError | src/errors/UnauthorizedError.ts:3-9 | construction is total; the message is kept; the status is UNAUTHORIZED |
| Errors.NewConflictError | src/errors/ConflictError.ts:3-9 | construction is total; the message is kept; the status is CONFLICT_ERROR |
| Errors.NewNotFoundError | src/errors/NotFoundError.ts:3-9 | construction is total; the message is kept; the status is DATA_NOT_FOUND |
| Errors.StatusCode | src/errors/ValidationError.ts:8 | each status constant is used by exactly one error class, in both directions, so the status identifies the class |
| Errors.StatusIgnoresMessage | src/errors/ValidationError.ts:6-8 | the status depends only on the class, whatever the message |
| Errors.FieldsDetermineError | src/errors/ValidationError.ts:3-4 | `message` and `statusCode` are the whole error: reading the error back from them gives the same error, and equal fields mean equal errors |
| UserModel.ValidUser | src/models/user.ts:12-42 | the schema's validators: every field present and non-empty; name length 2..30; about length 2..200; email passes isEmail; avatar and password have no other constraint. Its partner is UserStore.Valid, which every write handler preserves |
| UserModel.EmailsUnique | src/models/user.ts:31 | the unique index on `email`: no two stored ids share an email |
| UserModel.ProfileUpdateKeepsValid | src/models/user.ts:13-24 | for a valid document, setting name and about keeps it valid exactly when the new values pass their own validators, which is why update validators on the changed paths suffice |
| UserModel.AvatarUpdateKeepsValid | src/models/user.ts:25-28 | for a valid document, setting avatar keeps it valid exactly when the new avatar is non-empty |
| UserModel.InsertKeepsEmailsUnique | src/models/user.ts:29-32 | inserting a fresh id with an email no stored user has keeps emails unique across the store |
| UserModel.ReplaceKeepsEmailsUnique | src/models/user.ts:31 | replacing a user's document with one that has the same email keeps emails unique |
| UserModel.EmailNamesOneUser | src/models/user.ts:31 | when emails are unique, an email identifies at most one stored user |
| JsString.IndexOf | src/middlewares/auth.ts:14 | the index found is the first occurrence of the pattern at or after the start; None means there is no occurrence |
| JsString.StartsWith | src/middlewares/auth.ts:11 | `startsWith`: the string's first characters are the pattern |
| JsString.ReplaceFirst | src/middlewares/auth.ts:14 | `replace` with a string pattern replaces only the first occurrence |
| JsString.ReplacePrefix | src/middlewares/auth.ts:11-14 | when the string starts with the pattern, `replace` removes exactly that prefix, because the first occurrence is at index 0 |
| Auth.Gate | src/middlewares/auth.ts:9-24 | the gate passes exactly when the header is present, non-empty and starts with "Bearer ", and verify accepts the stripped token under "some-secret-key"; it then passes with the decoded payload; every rejection is Unauthorized; a bad header is rejected with "Необходима авторизация" |
| Auth.HasBearer | src/middlewares/auth.ts:11 | the header test: present, non-empty (truthy) and starting with exactly "Bearer " |
| Auth.TokenOf | src/middlewares/auth.ts:14 | the token is the header after `replace("Bearer ", "")` |
| Auth.TokenIsHeaderTail | src/middlewares/auth.ts:11-14 | the token passed to verify is the header with its first 7 characters dropped |
| Auth.GateJudgesToken | src/middlewares/auth.ts:14-22 | for a header "Bearer " + t: it passes with verify's payload for t, or is rejected with "Авторизуйтесь для выполнения" when verify fails |
| Auth.GateRefusesMalformedHeaders | src/middlewares/auth.ts:10-13 | no header, an empty header, a lower-case "bearer " and "Bearer" without the space are all rejected with "Необходима авторизация" |
| Auth.SessionRequest.Authenticate | src/middlewares/auth.ts:9-24 | next is called once: with no argument when the gate passes, with the gate's error otherwise; req.user is set to the payload only on the pass path and is otherwise left as it was |
| Store.IsCastError | src/controllers/users.ts:36 | `error instanceof mongoose.Error.CastError` (also cards.ts:55,81,109) |
| Store.IsValidationError | src/controllers/users.ts:87 | `instanceof mongoose.Error.ValidationError`, equivalently a mongoose.Error named "ValidationError" (also users.ts:119,151 and cards.ts:30) |
| Store.IsDuplicateKey | src/controllers/users.ts:84 | `error.code === 11000` |
| Users.LookupCatch | src/controllers/users.ts:35-44 | a CastError becomes Validation with the lookup message (only a CastError does); any other error is passed to next unchanged |
| Users.SignupCatch | src/controllers/users.ts:83-95 | code 11000 gives Conflict and wins over a ValidationError; a ValidationError gives Validation; nothing else is translated, and it is passed through unchanged |
| Users.UpdateCatch | src/controllers/users.ts:118-127 | a Mongoose ValidationError becomes Validation with the handler's message (only that error does); everything else, CastError included, is passed through unchanged |
| Users.GetUsers | src/controllers/users.ts:16-19 | sends every stored user under `data` exactly when the store does not fail; a failure goes to next unchanged |
| Users.FindUserById | src/controllers/users.ts:21-45 | sends `{data: user}` exactly when the id is stored and the store does not fail; an absent id gives NotFound; a failure is mapped by LookupCatch |
| Users.FindCurrentUserById | src/controllers/users.ts:47-71 | the same for the current user, answered with REQUEST_SUCCESS |
| Users.FindByEmail | src/controllers/users.ts:166 | findOne by email finds a user exactly when some stored user has that email, and then that user |
| Users.Login | src/controllers/users.ts:162-192 | an unknown email gives Unauthorized "Неправильная почта или пароль"; a known email whose stored password is not the supplied string gives Unauthorized "Неправильный пароль"; login succeeds exactly when the stored value equals the plaintext; on success the response is REQUEST_SUCCESS with the success message and an httpOnly `jwt` cookie holding sign({_id}, "secret", "7d"); a store failure goes to next unchanged |
| Users.LoginResponse | src/controllers/users.ts:181-186 | the success response: the token in an httpOnly `jwt` cookie, status REQUEST_SUCCESS, and the success message |
| Users.LoginIntended | src/controllers/users.ts:166-186 | intended login: succeeds exactly when bcrypt's compare accepts the password against the stored hash; signs with the gate's key; every credential failure is the same Unauthorized "Неправильная почта или пароль" |
| Users.SignupRecord | src/controllers/users.ts:74-78 | the stored document keeps name, about, avatar and email from the body, and its password is hash(password, 10) |
| Users.InsertRefusal | src/controllers/users.ts:78 | User.create succeeds exactly when the document passes the schema, its `_id` is new and its email is unused; it is a schema rejection exactly when the document is invalid |
| Users.SecondSignupConflicts | src/controllers/users.ts:84-86 | after a successful signup, a valid second signup with the same email is refused with Conflict "Данный e-mail уже используется" |
| Users.SignupThenLoginRejected | src/controllers/users.ts:173-174 | as written: right after a successful signup, logging in with the same password fails with "Неправильный пароль" whenever the hash differs from the plaintext |
| Users.SignupThenLoginIntendedSucceeds | src/controllers/users.ts:173-175 | with bcrypt's compare, the same signup is followed by a successful login that issues a token for the new id |
| Users.LoginDistinguishesFailures | src/controllers/users.ts:168-175 | as written: an unknown email and a known email with a wrong password get different messages |
| Users.LoginTokenRefusedByGate | src/controllers/users.ts:178 | as written: when jsonwebtoken binds tokens to their key, every token login issues is rejected by the gate with "Авторизуйтесь для выполнения" |
| Users.LoginIntendedTokenPassesGate | src/controllers/users.ts:178 | signed with the gate's key, the login token passes the gate with the id of the user who logged in |
| Users.UserStore.Valid | src/models/user.ts:12-42 | the store invariant: every stored document passes the schema, and emails are unique |
| Users.UserStore.CreateUser | src/controllers/users.ts:73-96 | an undefined password is rejected by bcrypt and the error passed through; otherwise the store holds the hashed document under the new id and the response is CREATED_SUCCESS with only id and email; a refusal is mapped by SignupCatch and leaves the store unchanged; schema validity and email uniqueness are preserved |
| Users.UserStore.UpdateUser | src/controllers/users.ts:98-128 | invalid name/about gives Validation; an absent current user gives NotFound with the store unchanged; otherwise only that user's name and about change and the updated document is sent with REQUEST_SUCCESS; all other users are untouched |
| Users.UserStore.UpdateAvatar | src/controllers/users.ts:130-160 | the same for avatar, whose only validator is `required` |
| Cards.AddToSet | src/controllers/cards.ts:68 | `$addToSet` gives the old likers plus the current user, and no one else |
| Cards.AddToSetKeepsNoDuplicates | src/controllers/cards.ts:66-69 | liking keeps `likes` free of duplicates, and liking twice gives the same `likes` as liking once |
| Cards.Pull | src/controllers/cards.ts:96 | `$pull`: every occurrence of the user removed, the rest kept in order |
| Cards.PullRemovesOnlyX | src/controllers/cards.ts:96 | `$pull` removes every occurrence of the current user and keeps each other liker as many times as before |
| Cards.PullSubset | src/controllers/cards.ts:96 | `$pull` adds no one to `likes` |
| Cards.PullKeepsNoDuplicates | src/controllers/cards.ts:94-97 | disliking keeps `likes` free of duplicates |
| Cards.PullUndoesAddToSet | src/controllers/cards.ts:66-97 | a dislike after a like is the same as a plain dislike, and it restores `likes` if and only if the user had not liked the card before |
| Cards.CastCatch | src/controllers/cards.ts:80-89 | a CastError gives VALIDATION_ERROR "Неверные данные" (only a CastError does); anything else gives SERVER_ERROR "Внутренняя ошибка сервера" |
| Cards.CreateCatch | src/controllers/cards.ts:29-36 | a Mongoose ValidationError gives VALIDATION_ERROR "Неверные данные" (only that error does); anything else gives SERVER_ERROR |
| Cards.GetCards | src/controllers/cards.ts:14-21 | REQUEST_SUCCESS with all cards exactly when the store does not fail; otherwise SERVER_ERROR "Internal Server Error" |
| Cards.CardStore.Valid | src/controllers/cards.ts:68 | the table invariant: no card lists a liker twice, kept by every card handler |
| Cards.CardStore.CreateCard | src/controllers/cards.ts:23-37 | the new card is owned by the current user, takes name and link from the body, starts with no likes and is answered with CREATED_SUCCESS; failures are mapped by CreateCatch and leave the table unchanged |
| Cards.CardStore.DeleteCardById | src/controllers/cards.ts:39-62 | an absent card gives DATA_NOT_FOUND with the table unchanged; a stored card is removed before the owner check, so the owner gets REQUEST_SUCCESS with the removed card and a non-owner gets FORBIDDEN_ACTION with the card already gone |
| Cards.CardStore.LikeCard | src/controllers/cards.ts:64-90 | only that card's `likes` changes, by `$addToSet` of the current user; an absent card gives DATA_NOT_FOUND "Карточки не существует"; failures go through CastCatch; `likes` stays duplicate-free |
| Cards.CardStore.DislikeCard | src/controllers/cards.ts:92-118 | only that card's `likes` changes, by `$pull` of the current user; the error mapping is the one likeCard uses; `likes` stays duplicate-free |

## Left out

- Process bootstrap in src/app.ts (the Mongo connection, `listen`, body parsers) is not modelled. Note that as written, the stub middleware there always sets `req.user`, and `auth` is never mounted.
- The routing tables in src/routes are not modelled. Handlers take the ids they look up as parameters. Two mismatches are worth knowing:
  - `findUserById` reads `req.params._id`, but its route declares `:userId`.
  - `dislikeCard` reads `req.params.cardId`, but its route declares `:CardId`.
- No terminal error handler exists in the code. Where `next(err)` leads after the handler is not modelled.
- `populate` is not modelled. Card bodies carry ids, not the populated user documents.
- Promise sequencing and `console.error` logging are not modelled. Each handler is one sequential step.
- Exceptions thrown from inside a `.then` callback, such as `res.send` itself failing, are not modelled.
- The cryptography of jsonwebtoken, bcrypt and validator is not modelled, because that code is not part of this model. It stands behind function parameters. Token expiry and the clock are inside the `Verifier` parameter.
- src/types/status, src/types/types, src/validator/validator and src/models/cards are not part of this model. Consequences:
  - Status values are named, not numbered.
  - Card validation arrives as a `fault`.
  - A new card is assumed to start with no likes.
- Requests without `req.user` are not modelled for the user and card handlers. They take the current user's id as given, which is what the app.ts stub always provides.
- Length bounds count Dafny characters. JavaScript counts UTF-16 code units, so the two differ for characters outside the Basic Multilingual Plane.
- Users.Login: the email and password fields are taken as strings. A request body that lacks them, which Mongoose would turn into `findOne({})`, is not modelled.
- Users.UserStore.UpdateUser and Users.UserStore.UpdateAvatar: the body fields are taken as strings. Undefined fields are not modelled, because the request validator that guards these routes is not part of this model.
- Users.FindByEmail and Users.Login require unique emails across the store. The unique index guarantees this; a store that violates it is not modelled.
- Ids are compared as exact strings. Mongoose casts a requested id to an ObjectId, and that cast ignores the case of hex digits. So the upper-case spelling of a stored id finds the document in the code but is absent in the model. This affects `DeleteCardById`, `LikeCard`, `DislikeCard`, `FindUserById`, `FindCurrentUserById`, `Users.UserStore.UpdateUser` and `Users.UserStore.UpdateAvatar`. The last two look the id up through `findByIdAndUpdate` (src/controllers/users.ts:105,137), which does the same cast.
- Result order is not modelled. `getUsers` and `getCards` send the array that `find({})` returns, in the database's natural order. The bodies `UsersData` and `CardDocs` hold a map from id to document, so they keep the documents but not their order.
- A decoded token is only `Claims(id)`. jsonwebtoken's payload also carries `iat` and `exp`, and can be a plain string (`string | JwtPayload`). So `req.user` holds more in the code than the model stores.
- The user bodies carry the whole stored document, password hash included, because the handlers send `{ data: user }` without projection. The model shows this rather than hiding it.

## Findings

| source | as written | input that shows it | evidently intended | confidence | as-written member | corrected member |
|---|---|---|---|---|---|---|
| src/controllers/users.ts:173 | login compares the stored password with the supplied plaintext using `!==`, but createUser stores `bcrypt.hash(password, 10)` | sign up with any password p, then log in with p: the stored value is hash(p), not p, so the result is "Неправильный пароль" | compare with bcrypt's own verification against the stored hash | high, not executed | Users.SignupThenLoginRejected | Users.SignupThenLoginIntendedSucceeds |
| src/controllers/users.ts:169,174 | an unknown email and a wrong password give different messages, which reveals whether an account exists | a store with one user u; log in with an email nobody has, then with u's email and a wrong password | one Unauthorized message, "Неправильная почта или пароль", for both | medium, not executed | Users.LoginDistinguishesFailures | Users.LoginIntended |
| src/controllers/users.ts:178 | login signs tokens with "secret", but the gate verifies with "some-secret-key" (src/middlewares/auth.ts:17) | log in successfully, then send the cookie's token as "Bearer " + token: verify fails under the other key, and the gate answers "Авторизуйтесь для выполнения" | one signing key shared by login and the gate | high, not executed | Users.LoginTokenRefusedByGate | Users.LoginIntendedTokenPassesGate |
