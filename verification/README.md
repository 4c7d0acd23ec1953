# Identity and permission core, modelled in Dafny

This project models the three model modules that hold the identity and
permission logic of a Next.js web service:

- **Authorization** (`authorization.dfy`). It holds the closed catalogue of 13
  feature strings and the decision `can(user, feature, resource)`. It also
  holds `filterOutput(user, feature, output)`, which projects a stored record
  onto the fields a feature lets the caller see.
- **Activation tokens** (`activation.dfy`). Single-use tokens live fifteen
  minutes and are kept in a token table. A user who holds
  "read:activation_token" is promoted to "create:session" and
  "read:session".
- **Authentication** (`authentication.dfy`). It looks a user up by email and
  checks the password. An unknown email and a wrong password produce one and
  the same UnauthorizedError.

Two small modules support them. `errors.dfy` holds the error classes and a
`Result` type that stands for "returns or throws". `values.dfy` holds the
part of JavaScript's value model the authorization code depends on:
truthiness, reading a field (`undefined` when it is absent), and the
TypeError raised by reading through `undefined` or `null`.

How the model is built:

- `filterOutput`'s `output` and `can`'s `resource` are arbitrary JavaScript
  values (`JsValues.Value`). So the model keeps the code's behaviour on odd
  input too: a falsy output is an internal error, and a branch whose ownership
  test fails falls off the end and returns `undefined`. A non-list output for
  the migration features throws a TypeError.
- The caller is `Caller(id, features)`. `features` is `None` when the list is
  missing. A missing user is `None`.
- The token table and the user-feature table are maps held by the class
  `Activation.ActivationStore`. Each state-changing method is specified by a
  pure function: `NewToken`, `MarkUsed` and `ActivationOutcome`. The
  properties are proved about those functions.
- The current time is an integer parameter in milliseconds. The id of a new
  token, which the database generates, is also a parameter.
- The user lookup and the password comparison of authentication are function
  parameters. Every property about them holds for all such functions.

Where a reader might expect otherwise, the model follows the code:

- `markTokenAsUsed` updates the row with the given id without a
  `used_at IS NULL` condition (models/activation.js:90-91). Marking a token
  that is already used succeeds again and overwrites `used_at`
  (`Activation.MarkUsedIsNotCompareAndSwap`). The "exactly one concurrent
  consumer succeeds" guarantee is therefore not a property of this code.
  What does hold, for calls made one after another, is that a user is
  promoted at most once (`Activation.AtMostOneActivation`). The reason is the
  "read:activation_token" check, which the promotion itself removes.
- `filterOutput` never returns a `password` field, not even for
  "read:user:self" to the record's owner.
- The outer handler of `getAuthenticatedUser` rewrites every
  UnauthorizedError into the uniform one, including one thrown by the user
  lookup itself. A NotFoundError thrown by the password comparison is not
  rewritten and comes out unchanged.
- Feature lists are ordered lists of strings, not sets. An activated user's
  list is exactly `["create:session", "read:session"]`, in that order.

## Model

| member | source | states |
|---|---|---|
| `Authorization.ParseName` | models/authorization.js:3-26 | every feature's catalogue name parses back to that feature |
| `Authorization.CatalogueIsClosed` | models/authorization.js:3-26 | a string names a feature exactly when it is in the 13-entry catalogue, which has no duplicates, and it is then that feature's name |
| `Authorization.KnownFeature` | models/authorization.js:145-152 | a feature passes validation exactly when it parses to a catalogue feature, whose name it then is |
| `Authorization.Can` | models/authorization.js:28-45 | a missing user or features list is an internal error (`validateUser`, lines 137-143), checked before an unknown feature (`validateFeature`, lines 145-152); otherwise the answer is `feature in features`, except "update:user" with a truthy resource, where it is `user.id == resource.id` or "update:user:others" held, whatever the base grant |
| `Authorization.CanAgreesWithPermits` | models/authorization.js:32-42 | for a valid caller and every catalogue feature, `Can` agrees with the rule `Permits` stated over the set of features held |
| `Authorization.CanGrantsOnlyHeldOrSelf` | models/authorization.js:32-42 | a true answer needs the feature held, or, for "update:user" with a resource, being that resource or holding "update:user:others" |
| `Authorization.BlanketUpdateGrantIsOverridden` | models/authorization.js:37-42 | "update:user" without "update:user:others" does not allow updating another identity |
| `Authorization.ProjectMigrations` | models/authorization.js:99-107 | every migration becomes exactly {path, name, timestamp} taken from it, keeping length and order; an `undefined` or `null` element throws a TypeError |
| `Authorization.FilterOutput` | models/authorization.js:47-50 | a missing user, an unknown feature and a falsy output are internal errors (`validateUser`, `validateFeature` and `validateOutput`, lines 129-152), checked in that order |
| `Authorization.FilterOutputHidesPassword` | models/authorization.js:52-126 | no record or list element that `filterOutput` returns has a `password` field, for any feature, caller or output |
| `Authorization.FilterUserIsPublicView` | models/authorization.js:52-60 | "read:user" and "update:user" give exactly id, username, features, created_at and updated_at from the output, so no email |
| `Authorization.FilterUserSelfIsOwnerOnly` | models/authorization.js:62-73 | "read:user:self" gives the record with its email when `user.id == output.id`, and `undefined` otherwise |
| `Authorization.FilterSessionIsOwnerOnly` | models/authorization.js:75-86 | "read:session" and "delete:session" give the six session fields when `user.id == output.user_id`, and `undefined` otherwise |
| `Authorization.FilterActivationToken` | models/authorization.js:88-97 | "read:activation_token" gives exactly the six token fields |
| `Authorization.FilterMigrationsMapsEachElement` | models/authorization.js:99-107 | the migration features map a list element by element to {path, name, timestamp}; a non-list output or an `undefined`/`null` element throws a TypeError |
| `Authorization.StatusView` | models/authorization.js:109-126 | the status view throws a TypeError exactly when `dependencies` or `dependencies.database` is `undefined` or `null`; otherwise it has updated_at and dependencies, and its database entry has a version exactly when the caller holds "read:status:all" |
| `Authorization.FilterStatusGatesVersion` | models/authorization.js:109-126 | "read:status" gives exactly updated_at and a dependencies object holding only the database entry, with the connection counts, and includes the database version exactly when the caller holds "read:status:all" |
| `Authorization.FilterStatusWithoutDatabaseThrows` | models/authorization.js:114-115 | a status with `undefined` or `null` dependencies or database throws a TypeError |
| `Authorization.FilterOtherFeaturesGiveUndefined` | models/authorization.js:127 | a feature with no branch of its own returns `undefined` |
| `Activation.NewToken` | models/activation.js:8-29 | the inserted row is for the given user, is unused, and expires 900000 ms after `now` |
| `Activation.NewTokenValidUntilExpiry` | models/activation.js:11 | a new token is found valid exactly while `now` is less than creation time plus fifteen minutes; after that it is not found, even though unused |
| `Activation.FindOneValidById` | models/activation.js:47-76 | succeeds exactly when the row with that id is unexpired and unused, and then returns that row; a missing, expired or used token gives one and the same NotFoundError |
| `Activation.Stamp` | models/activation.js:87-89 | the update sets `used_at` and `updated_at` to `now` and keeps id, user_id, expires_at and created_at; it keeps a well-formed row well formed |
| `Activation.MarkUsed` | models/activation.js:78-106 | the row with that id becomes the same row with `used_at` and `updated_at` set to `now`, every other column kept, and is returned; every other row is unchanged; NotFoundError exactly when no row has the id |
| `Activation.MarkedTokenNeverValid` | models/activation.js:60-61 | after a successful mark, `findOneValidById` on that id fails with NotFoundError at any time |
| `Activation.MarkUsedIsNotCompareAndSwap` | models/activation.js:90-91 | marking an already used token succeeds again and overwrites its `used_at` |
| `Activation.MarkUsedKeepsInvariant` | models/activation.js:84-92 | marking keeps every row under its own id, expiring fifteen minutes after creation, with `used_at` equal to `updated_at` once set |
| `Activation.ActivationOutcome` | models/activation.js:108-124 | succeeds exactly when the user exists and holds "read:activation_token", and then gives ["create:session", "read:session"]; otherwise the ForbiddenError, or NotFound for an unknown user |
| `Activation.SecondActivationForbidden` | models/activation.js:112-122 | after a successful activation, activating the same user again is forbidden |
| `Activation.ForbiddenActivationChangesNothing` | models/activation.js:112-117 | a forbidden activation leaves every user's features as they were |
| `Activation.UsedTokenStaysUsed` | models/activation.js:47-124 | after any sequence of create, mark and activate calls, a token that was used is still used and is never found valid |
| `Activation.IneligibleUserStaysIneligible` | models/activation.js:108-124 | a user without "read:activation_token" keeps lacking it through any sequence of calls, and none of them activates the user |
| `Activation.AtMostOneActivation` | models/activation.js:108-124 | in any sequence of calls, at most one call activates a given user successfully |
| `Activation.ActivationStore.Create` | models/activation.js:10-29 | inserts `NewToken` under its fresh id, leaves other rows and all user features unchanged, and keeps the invariant; the new tables are `Step` of the old ones for this call |
| `Activation.ActivationStore.FindValidToken` | models/activation.js:47-76 | the result is `FindOneValidById` on the stored table; since the store's invariant holds, a token found is the row stored under that id and was created less than fifteen minutes before `now` |
| `Activation.ActivationStore.MarkTokenAsUsed` | models/activation.js:78-106 | the new table and the result are those of `MarkUsed`; user features are unchanged; the invariant is kept; the new tables are `Step` of the old ones for this call |
| `Activation.ActivationStore.ActivateUserByUserId` | models/activation.js:108-124 | the result is `ActivationOutcome`; on success the user's features become ["create:session", "read:session"] and are otherwise unchanged; tokens are unchanged; the new tables are `Step` of the old ones for this call |
| `Activation.RegistrationFlow` | tests/integration/_use-cases/registration-flow.test.js:61-80 | a new user's token is found valid and unused, marking and activating give the session features, and afterwards the token is not found and a second activation is forbidden |
| `Authentication.FindUserByEmail` | models/authentication.js:20-34 | succeeds exactly when the lookup finds a user, and returns that user; no NotFoundError leaves it: a failure is the uniform UnauthorizedError or the lookup's own error unchanged |
| `Authentication.ValidatePassword` | models/authentication.js:36-58 | succeeds exactly when the comparison says true; a mismatch, or any UnauthorizedError from the comparison, gives the uniform error |
| `Authentication.GetAuthenticatedUser` | models/authentication.js:5-18 | succeeds exactly when the lookup finds a user whose stored hash matches the password, and then returns that user record unmodified |
| `Authentication.UnknownEmailIsUnauthorized` | models/authentication.js:22-31 | a NotFoundError from the lookup gives UnauthorizedError "Dados de autenticação não conferem." with its action |
| `Authentication.WrongPasswordIsUnauthorized` | models/authentication.js:43-55 | a wrong password gives that same error, so "Senha incorreta." never leaves the function |
| `Authentication.UnknownEmailAndWrongPasswordIndistinguishable` | models/authentication.js:11-16 | an unknown email and a wrong password for an existing email give identical results |
| `Authentication.ErrorsAreUniformOrPropagated` | models/authentication.js:10-17 | every error that escapes is the uniform one, or a non-Unauthorized error passed through unchanged from the lookup (if not a NotFoundError) or from the comparison |
| `Authentication.LookupErrorsPropagate` | models/authentication.js:30 | a lookup error that is neither NotFoundError nor UnauthorizedError comes out unchanged |
| `Authentication.CompareErrorsPropagate` | models/authentication.js:56 | a comparison error that is not an UnauthorizedError comes out unchanged |
| `Authentication.CompareOnlyAfterLookup` | models/authentication.js:7-8 | when the lookup fails, the result does not depend on the password comparison |

## Left out

- `sendEmailToUser` (models/activation.js:31-45): it sends an email, which is I/O.
- The database and its SQL. The tables are maps. A statement's `WHERE`
  clause is a predicate, and `RETURNING *` is the returned row. Any query
  that fails throws a ServiceError (infra/database.js:10-15), for example
  a connection failure, a violated foreign key or uniqueness constraint, or
  an id that is not a well-formed UUID. None of these is modelled: the model
  treats every string as a possible key, and a missing key gives the
  NotFoundError of the code.
- The clocks. JavaScript's `Date.now()` and the database's `NOW()` are one
  `now` parameter. Timestamps are integers in milliseconds.
- The primary-key error of an insert under an id already in use. The store's
  `Create` requires a fresh id, and `Activation.Step` treats a reused id as
  a call that changes nothing.
- Concurrency. Calls run one at a time. The code has no atomic guard on
  token consumption, so there is nothing concurrent to verify.
- Session management (`models/session.js`) is not part of this model, and
  neither are the route handlers that call the models.
- The user model. `user.findOneById`, `user.setFeatures` and
  `user.findOneByEmail` live in models/user.js, which is not part of this
  model. The feature table stands in for the first two, and a function
  parameter stands in for the third. `setFeatures` returns the whole user
  record; the model returns only the new feature list.
- The wording of the NotFoundError for an unknown user id. It comes from
  models/user.js, so `Activation.UnknownUserError` fixes only its kind.
- Password hashing. The comparison is a function parameter.
- JavaScript details: numbers are integers, so NaN and fractions are not
  modelled. Fields inherited from prototypes, such as a string's `length`,
  are not modelled either. `===` between object-valued ids compares
  structure, not identity. A `features` value that is present but not a list
  of strings is not modelled.
- The order of keys in the objects `filterOutput` builds. A record is a map
  from field name to value.
