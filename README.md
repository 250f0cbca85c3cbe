# realworldjs users and profiles, modelled in Dafny

This project models the user and social-graph part of a RealWorld ("Conduit")
JSON backend written with Express and Prisma. It covers these parts:

- the `authByToken(required)` middleware, which turns an `Authorization: Token <jwt>`
  header into a 401 answer, an anonymous request, or a request carrying the
  token's email as its credential;
- the request-body validation table (`login`, `register`) and its `validationHandler`;
- the users API: log in, register, and `signJwt`;
- the user API: read and partially update the authenticated user;
- the profiles API: a profile with the viewer-relative `following` flag, follow and unfollow.

The Prisma user table is one in-memory store. It is the class `UserStore.Store`,
with a field `users: map<int, User>` and the next id to hand out. Its abstract
value is the datatype `Db`. Each handler is a module-level method that takes the
store as a parameter and modifies only it. Each method is proved equal to a
specification function on `Db`: `GetProfile` to `Profile`, `UpdateFollowing` to
`Link`, `PostFollow` to `Follow`, `DeleteFollow` to `Unfollow`, `PostLogin` to
`Login`, `PostUsers` to `Register`, `GetUser` to `Current` and `PutUser` to `Put`. The lemmas state what the source promises
about those functions. The foreign libraries are parameters (`Capabilities.Crypto`,
`isEmail`): JWT signing and verification, bcrypt hashing and comparison, and
express-validator's `isEmail`.

Modules and files:

| file | module | source |
|---|---|---|
| http.dfy | `Http` | request options, JavaScript truthiness, response shapes |
| sets.dfy | `SetFacts` | picking a member of a non-empty set |
| capabilities.dfy | `Capabilities` | the JWT and bcrypt functions, with their soundness as predicates |
| user_store.dfy | `UserStore` | the user table, `findUnique` by email and `findFirst` by name |
| auth.dfy | `Auth` | server/middleware/auth.js |
| validator.dfy | `Validator` | server/middleware/validator.js |
| user_api.dfy | `UserApi` | server/api/user.js |
| self_api.dfy | `SelfApi` | server/api/self.js |
| profile_api.dfy | `ProfileApi` | server/api/profile.js |

Modelling choices:

- Emails are unique. The handlers look users up by email with `findUnique`, and
  Prisma only allows that on a unique column. `Consistent` keeps this invariant.
  `PutUser` preserves it: an update to an email another user holds fails with 400,
  as the storage layer's unique constraint makes it fail inside the `try`.
- The model does not make user names unique. This is a modelling choice: the
  storage schema is not part of this model, and the handlers never check a
  name themselves. The profile handlers look names up with `findFirst`. When
  names repeat, the model answers the user with the smallest id among those
  with the name (`FindByName`).
- A handler that throws outside a `try` gives `Response.Unhandled`. The model
  assumes Express 4: the async handler's rejection is not caught by the router,
  and no response is written. This happens on a duplicate registration (server/api/user.js:55-58). It also
  happens with a credential whose email matches no user: in the profile view
  (server/api/profile.js:42) and in the follow updates (server/api/profile.js:71-82, 108-119). What happens to the process after that is under "## Left out".
- JavaScript truthiness decides which PUT fields are written and whether a
  credential counts in the profile view. `Http.Truthy` models it: undefined, null
  and "" are falsy.
- express-validator runs every check of a rule, with no bail. It records one error
  per failing check. An undefined field reaches `isEmail` as "".

Two behaviours of the code are kept as they are. No handler checks that display
names are unique (see "## Left out"). A duplicate email at registration throws and
answers nothing, rather than a conflict. A third, the update calling `bcrypt.hash`
without importing it, is modelled as written only by `SelfApi.UpdateAsWritten`; the
handler `SelfApi.PutUser` performs the corrected update, `SelfApi.Update` (see Findings).

## Model

| member | source | states |
|---|---|---|
| `Auth.TokenOf` | server/middleware/auth.js:6-8 | an absent header gives ""; a header that starts with `Token ` is that prefix followed by the token; any other header is the token unchanged |
| `Auth.TokenOfStripsOnce` | server/middleware/auth.js:7 | `Token ` is removed once only: the token after `Token Token t` is `Token t` |
| `Auth.Authenticate` | server/middleware/auth.js:4-19 | 401 iff `required` and verification fails; otherwise the request goes on with exactly the verified email, or with no credential when verification failed; a required pass always has one; `required` defaults to true |
| `Auth.AuthByToken` | server/middleware/auth.js:4-21 | exactly one of "answer 401 `unauthorized request`" and "call next" happens; 401 iff required and verification fails; the credential becomes the verified email, else stays unset |
| `Validator.RuleErrors` | server/middleware/validator.js:8-15 | the errors of one `body(path)` rule: no more errors than checks, each at the rule's path, for one of its checks, and one that fails |
| `Validator.Errors` | server/middleware/validator.js:7-16 | the errors of a rule list: each one names a check that fails on the body |
| `Validator.Run` | server/middleware/validator.js:18-28 | Express passing the request through a chain: errors are only ever added to, never dropped, and a 422 is only given with a non-empty list |
| `Validator.LoginRules` | server/middleware/validator.js:7-10 | the login rules record no error iff the body has an email that satisfies `isEmail`, and a password |
| `Validator.RegisterRules` | server/middleware/validator.js:12-16 | the register rules record no error iff the body has an email that satisfies `isEmail`, a password and a username |
| `Validator.Registered` | server/middleware/validator.js:7-16 | the table after the two `set` calls: exactly `login` and `register`, rules only, and register is login plus the username rule |
| `Validator.Initialised` | server/middleware/validator.js:28 | the table after the `forEach`: the same names, each chain its registered rules followed by the handler |
| `Validator.ValidationHandler` | server/middleware/validator.js:18-26 | 422 with the error list iff the list is not empty, otherwise next |
| `Validator.RuleErrorsEmpty` | server/middleware/validator.js:8-15 | a rule records no error iff each of its checks passes |
| `Validator.ErrorsEmpty` | server/middleware/validator.js:7-16 | a rule list records no error iff every check of every rule passes |
| `Validator.RunClosedChain` | server/middleware/validator.js:18-28 | rules followed by the handler answer 422 with all recorded errors if there are any, and pass on with none otherwise |
| `Validator.WithHandler` | server/middleware/validator.js:28 | every chain gets the handler appended once, and no name is added or removed |
| `Validator.Lookup` | server/middleware/validator.js:30-32 | the chain registered under the name, and nothing for an unregistered name |
| `Validator.InitialisedShape` | server/middleware/validator.js:4-32 | after loading, exactly `login` and `register` are registered; each chain is rules followed by one handler at the end; `createArticle` finds nothing |
| `Validator.Responds422Iff` | server/middleware/validator.js:7-26 | a registered chain answers 422 iff some check of its rules fails, listing the errors of all its rules |
| `Validator.RegisterValidIsLoginValid` | server/middleware/validator.js:7-16 | a body the register chain passes is one the login chain passes |
| `Validator.LoginPassedHasFields` | server/middleware/validator.js:7-10 | a body the login chain passes has an email that is an email, and a password |
| `Validator.RegisterPassedHasFields` | server/middleware/validator.js:12-16 | a body the register chain passes has an email that is an email, a password and a username |
| `Validator.ValidationTable.constructor` | server/middleware/validator.js:4-16 | the table holds the login and register rule lists |
| `Validator.ValidationTable.AppendHandler` | server/middleware/validator.js:28 | every chain in the table has the handler pushed onto its end |
| `Validator.ValidationTable.Get` | server/middleware/validator.js:30-32 | `validator(method)`: nothing iff the name is not in the table, else its chain |
| `Validator.Load` | server/middleware/validator.js:4-28 | the loaded table is the registered chains, each closed by the handler |
| `UserStore.FindByEmail` | server/api/user.js:15-19 | finds nothing iff no user has the email, else a user with that email |
| `UserStore.FindByName` | server/api/profile.js:10-14 | finds nothing iff no user has the name, else the user with the smallest id among those with the name |
| `UserStore.FindByEmailFindsOwner` | server/api/self.js:12-16 | with unique emails, the email lookup finds exactly the user who owns it |
| `ProfileApi.Profile` | server/api/profile.js:9-55 | 404 `<username> not found` iff no such user; the answered username, bio and image are those of the user the name lookup finds; an anonymous viewer sees `following` false and never fails |
| `ProfileApi.FollowingIsMembership` | server/api/profile.js:26-44 | an authenticated viewer sees `following` iff the target's id is in the viewer's following set |
| `ProfileApi.Relink` | server/api/profile.js:71-82 | connect (and disconnect, as at server/api/profile.js:108-119) on the viewer's row: the target's id is in the new set iff connecting; every other id's membership, every other column and every other user are unchanged |
| `ProfileApi.Follow` | server/api/profile.js:57-92 | 404 iff no user has the name; a failure changes nothing; success answers `following` true, and the target's id is then in the viewer's set |
| `ProfileApi.Unfollow` | server/api/profile.js:94-129 | 404 iff no user has the name; a failure changes nothing; success answers `following` false, and the target's id is then not in the viewer's set |
| `ProfileApi.Link` | server/api/profile.js:57-129 | 404 iff the target is unknown; any failure leaves the store unchanged; success answers `following` true for follow and false for unfollow; only the viewer's following set can change |
| `ProfileApi.LinkEffect` | server/api/profile.js:71-82 | follow inserts the target's id into the viewer's set, unfollow removes it; the answer carries the target's name, bio and image; the store stays consistent |
| `ProfileApi.LinkIdempotent` | server/api/profile.js:71-82 | following twice gives the same state and answer as following once, and so does unfollowing |
| `ProfileApi.UnfollowNotFollowedIsNoOp` | server/api/profile.js:108-119 | unfollowing a user not followed changes nothing |
| `ProfileApi.UnfollowUndoesFollow` | server/api/profile.js:108-119 | unfollow after a follow of a user who was not followed restores the store |
| `ProfileApi.LinkThenProfile` | server/api/profile.js:22-44 | after follow the viewer's profile view says `following`, after unfollow it does not |
| `ProfileApi.SelfFollowAllowed` | server/api/profile.js:57-82 | following oneself succeeds and puts one's own id in one's following set |
| `ProfileApi.GetProfile` | server/api/profile.js:9-55 | the handler, with its local `following` flag, answers `Profile` |
| `ProfileApi.UpdateFollowing` | server/api/profile.js:65-91 | the connect or disconnect update leaves the store and the answer that `Link` gives, and keeps the store consistent |
| `ProfileApi.PostFollow` | server/api/profile.js:57-92 | the follow handler leaves the store and the answer that `Follow` gives |
| `ProfileApi.DeleteFollow` | server/api/profile.js:94-129 | the unfollow handler leaves the store and the answer that `Unfollow` gives |
| `ProfileApi.ProfileRoute` | server/api/profile.js:9 | a token that fails verification gives the anonymous view; a valid one gives the view for its email |
| `ProfileApi.LinkRoute` | server/api/profile.js:57 | a token that fails verification gives 401 and no change; a valid one runs the handler with its email |
| `UserApi.SignJwt` | server/api/user.js:86-90 | the token verifies to the email it was signed for |
| `UserApi.Login` | server/api/user.js:12-44 | only ever 200 or 401; unknown email gives 401 `user <email> not exists`; a wrong password and only that gives 401 `wrong email or password`; success carries a token for the email and the stored name, bio and image |
| `UserApi.LoginSucceedsIff` | server/api/user.js:21-31 | login for a stored email succeeds iff the password matches its digest |
| `UserApi.LoginTokenAuthenticates` | server/api/user.js:33-43 | the login token, sent back as `Token <token>`, authenticates as the email |
| `UserApi.Register` | server/api/user.js:46-84 | a taken email throws and creates nothing; otherwise exactly one user is added under the next id with the email, `name = username` and `hash(password)`, and the answer has bio and image null |
| `UserApi.RegisterAddsOne` | server/api/user.js:65-71 | the new id is fresh, the table grows by one and stays consistent |
| `UserApi.RegisterThenLogin` | server/api/user.js:12-84 | assuming `SoundDigests` (a password matches exactly its own digests, an idealised bcrypt): after registering, login with the same password answers the new user with a token; any other password gets 401 |
| `UserApi.LoginRoute` | server/api/user.js:12 | 422 iff the login chain rejects; otherwise the login handler runs with the validated email and password |
| `UserApi.RegisterRoute` | server/api/user.js:46 | 422 iff the register chain rejects, and then nothing changes; otherwise the register handler runs on the validated fields |
| `UserApi.PostLogin` | server/api/user.js:12-44 | the handler answers `Login`; it only reads the store (it has no `modifies` clause) |
| `UserApi.PostUsers` | server/api/user.js:46-84 | the handler leaves the store and the answer that `Register` gives, and keeps the store consistent |
| `SelfApi.Current` | server/api/self.js:10-35 | 400 `user not found` iff no user has the credential's email; otherwise that user's email, name, bio and image, with the Authorization header as the token |
| `SelfApi.TokenAfter` | server/api/self.js:52-56 | with an email supplied, the answered token verifies to the new email; without one, the answer is the Authorization header as sent |
| `SelfApi.NewTokenAuthenticates` | server/api/self.js:52-56 | the token answered for a new email, sent back as `Token <token>`, authenticates as that email |
| `SelfApi.EchoedTokenKeepsPrefix` | server/api/self.js:52-56 | without an email the answer is the header `Token <jwt>` itself; sent back as `Token <token>`, it reaches verification as `Token <jwt>`, not as the JWT that login and register answer |
| `SelfApi.Put` | server/api/self.js:37-104 | a body without a `user` object gets 400 and changes nothing (after the lookup's `user not found`); a body with one is `Update` |
| `SelfApi.ChangesOf` | server/api/self.js:58-82 | the `data` object: a key is present iff its field is truthy; email, name, bio and image carry the supplied values, and the password its `hash` |
| `SelfApi.Apply` | server/api/self.js:84-89 | the update: every key present in `data` overwrites its column, the others keep theirs; id and following set are kept; empty `data` changes nothing |
| `SelfApi.Update` | server/api/self.js:37-104 | only 200 or 400; a 400 changes nothing, from any store (the catch at server/api/self.js:100-103 runs before any write); a credential that matches no user gets 400 `user not found`; for a stored user the answer is 400 iff the new email is held by another user, and then the message is the unique-constraint error; the answered token is `TokenAfter`; no user is added or removed |
| `SelfApi.UpdateAsWritten` | server/api/self.js:37-104 | a credential that matches no user gets 400 `user not found`; for a stored user, a truthy password gets 400 `bcrypt is not defined` with the store unchanged, whatever the other fields; without a password it is `Update` |
| `SelfApi.PasswordChangeAsWritten` | server/api/self.js:77-82 | as written, a supplied password gives 400 `bcrypt is not defined` and no change; the intended update stores `hash(password)` |
| `SelfApi.UpdateMerges` | server/api/self.js:58-98 | exactly the supplied truthy fields are written (the password as its digest); id and following set are kept; no other user changes; the answer is the updated record; the store stays consistent |
| `SelfApi.UpdateThenCurrent` | server/api/self.js:91-98 | a GET with the new email and returned token answers what the PUT answered |
| `SelfApi.UpdateIdempotent` | server/api/self.js:58-89 | with `hash` and `sign` deterministic functions, as the model takes them: sending the same PUT again changes nothing further (the real bcrypt salts each digest and `jwt.sign` stamps `iat`, so there a repeated password or email gives a new digest or token) |
| `SelfApi.GetUser` | server/api/self.js:10-35 | the handler answers `Current` |
| `SelfApi.PutUser` | server/api/self.js:37-104 | the corrected handler (the password is hashed, see Findings; as written it is `SelfApi.UpdateAsWritten`): builds `data` field by field and leaves the store and answer that `Put` gives, keeping the store consistent |

## Left out

- server/api/article.js and server/api/tag.js are not part of this model. Their handlers are stubs or a bare query, so slugs, favorites, the feed and the article projection have no behaviour to model.
- prisma/seed.js, server/server.js and server/api/index.js are not part of this model. They hold seed data, process start-up and route mounting.
- JWT signing and verification, bcrypt, and `isEmail` are function parameters. Key handling, token expiry, salts and the algorithms are not modelled. `hash` is a function, so the salt's randomness is not modelled. `SoundDigests` idealises bcrypt: the real one compares only the first 72 bytes of a password, so two long passwords that share that prefix both match.
- The outcome after `Response.Unhandled` is not modelled. Express 4 is assumed, and no package manifest fixes the version. Under Node 15 or later an unhandled rejection with no listener ends the process, and server/server.js registers none; under Express 5 the router answers 500. Either way, the three `Unhandled` paths are affected: a duplicate registration (server/api/user.js:55-58), a credential whose email matches no user in the profile view (server/api/profile.js:42), and the same in follow and unfollow (server/api/profile.js:71-82, 108-119).
- Prisma's asynchrony and concurrent requests are not modelled. Handlers run one at a time on the store.
- Storage failures are left out, except the email unique constraint and updating a missing record.
- Library error texts (`NullViewer`, `RecordNotFound`, `EmailInUse`) are representative constants, not the libraries' exact messages.
- Request bodies carry strings only. JSON numbers, booleans and objects in a field, and their truthiness, are not modelled; a null field is treated like an undefined one.
- A validation error keeps only the field path and the failed check. express-validator's `value`, `msg` and `location` are not modelled.
- `SelfApi.GetUser` and `SelfApi.PutUser` start from the credential that `authByToken()` set. Their route wiring is the same required middleware that `ProfileApi.LinkRoute` composes, and it is not repeated.
- Name uniqueness at the storage level is not modelled. If the schema makes `name` unique, a register with a taken name would throw in the create (server/api/user.js:65-71) and answer nothing, and a PUT with a taken username would get 400. The model answers success in both cases.
- UserStore.FindByName: Prisma's `findFirst` without `orderBy` promises no particular user when names repeat. The model commits to the smallest id.

## Findings

| source | as written | input that shows it | evidently intended | confidence | as-written member | corrected member |
|---|---|---|---|---|---|---|
| server/api/self.js:77-82 | `bcrypt.hash` is called, but the file never requires `bcrypt`. The ReferenceError is caught and answered with 400. | PUT `/api/user` with `user.password` "secret" for a stored user (lemma `SelfApi.PasswordChangeAsWritten`) | the new password's digest is stored and the updated user is answered | high; not executed | `SelfApi.UpdateAsWritten` | `SelfApi.Update` |
