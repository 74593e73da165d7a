# Refresh-token session engine — a Dafny model

This project models the refresh-token session engine of an Express/MongoDB
JWT authentication service: the service functions that issue a token pair
(`createToken`), rotate a refresh token with reuse detection
(`rotateRefreshToken`), log out one session (`revokeRefreshToken`) and log
out every session of a user (`revokeAllRefreshTokens`), together with the
`RefreshToken` collection they read and write — its fields and defaults, the
unique index on `tokenHash`, the TTL index on `expiresAt` and the derived
`isExpired` / `isActive` predicates.

Layout (one module per file):

- `wrappers.dfy` — `Option` (JavaScript `null`/`undefined`) and `Result`.
- `external.dfy` — the collaborators the engine calls: `hashToken` (SHA-256),
  `verifyRefreshToken` (jsonwebtoken, HS256) and `sanitize-html`, as function
  values in `Services`. The verifier takes the clock: `SignedAt` states that
  a refresh token signed at an instant stops verifying one refresh lifetime
  later. Call sequences assume distinct digests only for the tokens they
  name.
- `refresh_token.dfy` — the stored `Record`, the `Draft` handed to `create`,
  the schema's required fields and defaults (`FromDraft`), `IsExpired`,
  `IsActive`.
- `session_store.dfy` — the collection: what `findOne`, `create`, `save`,
  `updateOne`, `updateMany` and a TTL pass do, as functions over the stored
  sequence, and the class `Store` whose loop-based methods are proved against
  them; `Store.Valid()` is the unique index.
- `auth_service.dfy` — the engine operations as methods on a `Store`, the
  metadata bounding (`SafeUserAgent`, `ClientIp`), the record an issue
  stores, and the error statuses.
- `auth_scenarios.dfy` — call sequences on a fresh collection (issue, rotate,
  replay, reuse, logout, logout-all, purge-then-replay), and a replay after
  rotation on any collection.

The clock is the parameter `now` (milliseconds), one instant per engine call.
The pair the signer returns for a call (a new uuid `jti` every time) is the
parameter `minted`. The refresh lifetime is `ms('7d')` = 604 800 000 ms, the
default of `REFRESH_TOKEN_EXPIRY`.

Details the model takes from the code:

- On rotation the old record's revocation is written by `existing.save()`
  only after the successor has been stored; if issuing the successor fails,
  nothing about the old record is persisted.
- Logout and logout-all revoke every record whose `revoked` is `null`,
  whether expired or not; they do not test `isActive`.
- The stored `ip` is cut to 45 characters and otherwise stored as given.

## Model

| member | source | states |
|---|---|---|
| RefreshTokenModel.FromDraft | src/models/RefreshToken.js:7-41 | an insert is accepted iff `tokenHash`, `user` and `expiresAt` are given; the record then has `createdAt = now`, `revoked = null`, `replacedByHash = null`, and `ip` / `userAgent` as given (`null` when absent) |
| RefreshTokenModel.ActiveCharacterization | src/models/RefreshToken.js:62-68 | a record is active iff it is unrevoked and `now` is strictly before a recorded `expiresAt` |
| RefreshTokenModel.MissingExpiryIsExpired | src/models/RefreshToken.js:62-64 | a missing `expiresAt` counts as time 0, so the record is expired at every instant |
| RefreshTokenModel.ExpiryIsPermanent | src/models/RefreshToken.js:62-64 | a record expired at `t` is expired at every later instant |
| RefreshTokenModel.RevokedIsNeverActive | src/models/RefreshToken.js:66-68 | a record whose `revoked` is set is not active at any time (that `revoked` stays set is `SessionStore.RevokedStaysInactive`) |
| SessionStore.Find | src/services/auth.service.js:90 | the position of the first record with the digest, `None` iff no record has it |
| SessionStore.Store.IndexOf | src/services/auth.service.js:90 | the scan returns exactly `Find` |
| SessionStore.Store.FindOne | src/services/auth.service.js:90 | returns the stored record with the digest, or none iff no record has it |
| SessionStore.Store.Create | src/models/RefreshToken.js:44 | a draft missing a required field is refused, an insert whose digest is already stored is refused with a duplicate-key error, both leaving the store unchanged; otherwise exactly the schema's record is appended; the unique index holds and every revocation is kept |
| SessionStore.AppendFreshKeepsUnique | src/models/RefreshToken.js:44 | appending a record with a digest not yet stored keeps digests unique |
| SessionStore.Store.Save | src/services/auth.service.js:141 | overwrites the stored record with the same digest and nothing else; fails, changing nothing, iff no record has that digest |
| SessionStore.FirstMatch | src/services/auth.service.js:154-162 | the first record the `{revoked: null, ...}` filter selects, `None` iff it selects none |
| SessionStore.Store.UpdateOne | src/services/auth.service.js:154-162 | revokes at `now` only the first unrevoked record with the digest and reports 1, or changes nothing and reports 0; every earlier revocation is kept |
| SessionStore.Store.UpdateMany | src/services/auth.service.js:177-179 | revokes at `now` every unrevoked record of the user, leaves all others as they were, reports how many it selected, and keeps every earlier revocation |
| SessionStore.CountIsCardinality | src/services/auth.service.js:177-181 | the reported modified count equals the number of records the filter selects |
| SessionStore.CountOfNoMatches | src/services/auth.service.js:177-181 | a filter that selects nothing reports 0 |
| SessionStore.RevokeMatchingIsIdempotent | src/services/auth.service.js:171-182 | after a bulk revoke no record is selected any more: a repeat counts 0 and changes nothing |
| SessionStore.RevokeMatchingKeepsUnique | src/models/RefreshToken.js:44 | revoking never breaks digest uniqueness |
| SessionStore.UniqueHashSelectsAtMostOne | src/services/auth.service.js:154-164 | under the unique index a digest filter selects at most one record, so `modifiedCount` is 1 exactly when an unrevoked record with the digest exists |
| SessionStore.RevokeFirstByHashIsRevokeMatching | src/services/auth.service.js:154-164 | under the unique index, the single-record update on a digest revokes exactly the unrevoked records with that digest |
| SessionStore.Store.Purge | src/models/RefreshToken.js:52 | a TTL pass leaves exactly the records not yet due, in order, keeps the unique index, and every digest still stored leads to the record it led to before, revocation included |
| SessionStore.UnexpiredKeepsExactlyUndue | src/models/RefreshToken.js:52 | a TTL pass removes only records whose `expiresAt` has been reached (all of them expired), and keeps every other record unchanged |
| SessionStore.UnexpiredKeepsUnique | src/models/RefreshToken.js:52 | a TTL pass keeps digests unique |
| SessionStore.UnexpiredKeepsRevocations | src/models/RefreshToken.js:52 | a digest still stored after a TTL pass leads to the very record it led to before, its revocation included |
| SessionStore.AppendKeepsRevocations | src/models/RefreshToken.js:44 | storing one more record keeps every earlier record in place, with its digest and its revocation |
| SessionStore.OverwriteKeepsRevocations | src/services/auth.service.js:135-141 | writing back a document with the same digest keeps every revocation, provided it does not change a `revoked` that was set |
| SessionStore.RevokeMatchingKeepsRevocations | src/services/auth.service.js:154-162 | a `{revoked: null, ...}` update never changes a `revoked` that was set, nor any digest or position |
| SessionStore.FindAfterKeep | src/services/auth.service.js:90 | across a change that keeps revocations, a stored digest is still found at the same position |
| SessionStore.RevokedStaysInactive | src/models/RefreshToken.js:66-68 | across a change that keeps revocations, a digest that led to a revoked record still leads to a record with the same `revoked` time, which is not active at any instant |
| AuthService.SafeUserAgent | src/services/auth.service.js:18-27 | `'unknown'` for a missing, non-string or empty user agent; otherwise a prefix of the sanitized text: the whole text when it has at most 255 characters, exactly its first 255 when longer |
| AuthService.ClientIp | src/services/auth.service.js:53 | absent unless the ip is a string; then a prefix of it: the whole ip when it has at most 45 characters, exactly its first 45 when longer |
| AuthService.IssuedRecord | src/services/auth.service.js:45-57 | the issued record passes the schema, carries the refresh token's digest and the user, `revoked = null`, `replacedByHash = null`, expires a refresh lifetime after `now`, is active until then, and has bounded metadata |
| AuthService.CreateToken | src/services/auth.service.js:34-61 | adds exactly one record, the issued record for the digest of the returned refresh token, every earlier record unchanged; a digest already stored is refused with the store unchanged; every revocation is kept |
| AuthService.RotateRefreshToken | src/services/auth.service.js:75-144 | verification at `now` fails: the invalid-token error (answered 500 as written, see Findings), store unchanged; verified but digest unknown: reuse error, and every unrevoked record of a truthy `sub` revoked (others untouched, nothing when `sub` is missing); found but inactive: not-active error, store unchanged; active but the successor's digest already stored: `create` refuses it with a duplicate-key error before the save, store unchanged; active otherwise: returns the new pair, the old record revoked with `replacedByHash` = digest of the new refresh token, and exactly one new active record for the same user appended; in every case every earlier revocation is kept |
| AuthService.RotationRetiresPresentedToken | src/services/auth.service.js:135-143 | after a successful rotation the presented digest still finds the old record, which is never active again, and the successor is the only record with its digest |
| AuthService.RevokeRefreshToken | src/services/auth.service.js:150-165 | returns true iff a record with the digest had `revoked = null`; afterwards that record is revoked, no other record has changed, and every earlier revocation is kept |
| AuthService.RevokeAllRefreshTokens | src/services/auth.service.js:171-182 | returns the number of the user's records with `revoked = null`; afterwards none of the user's records is unrevoked, every other user's record is unchanged, and every earlier revocation is kept |
| AuthService.ResponseStatus | src/middlewares/error.handler.middleware.js:9 | an error is answered with its `status` when that is set and nonzero, else its `statusCode` when set and nonzero, else 500; never 0 |
| AuthService.InvalidTokenAnswers500AsWritten | src/services/auth.service.js:80-85 | as written, a token that fails verification is answered 500, while reuse is answered 401 |
| AuthService.Thrown | src/services/auth.service.js:80-85 | the corrected error objects differ from the written ones only for the invalid-token error |
| AuthService.CredentialFailuresAnswer401 | src/services/auth.service.js:75-131 | with the correction, every credential failure of rotation (invalid, reused, not active) is answered 401 and only those |
| AuthScenarios.IssueRotateReplay | src/services/auth.service.js:75-144 | within the first token's lifetime: issue, rotate: success; presenting the first refresh token again: not active; rotating the successor: success |
| AuthScenarios.ReplayAfterRotationIsNotActive | src/services/auth.service.js:121-143 | on any valid collection, once a token has rotated successfully, presenting it again while its signature verifies is refused as not active |
| AuthScenarios.ReuseRevokesOnlyTheSubject | src/services/auth.service.js:99-118 | a verified but unknown token of a user is reuse, leaves that user no session to revoke, and leaves another user's session in place |
| AuthScenarios.ReuseWithoutSubjectRevokesNothing | src/services/auth.service.js:104-117 | reuse with a payload lacking `sub` fails the call but revokes nothing |
| AuthScenarios.LogoutAllIsIdempotent | src/services/auth.service.js:171-182 | after two issues logout-all reports 2, a second one 0, and neither old refresh token rotates any more (both answer not active) |
| AuthScenarios.LogoutOnce | src/services/auth.service.js:150-165 | logout reports a change once; a repeat or an unknown token reports none; the logged-out token no longer rotates |
| AuthScenarios.PurgedTokenFailsVerification | src/services/auth.service.js:75-86 | a rotated-away token whose record the TTL pass already removed has an expired signature too: the call fails verification, and the successor's session is still there for logout-all to count |

## Findings

| source | as written | input that shows it | evidently intended | confidence | as-written member | corrected member |
|---|---|---|---|---|---|---|
| src/services/auth.service.js:80-85 | the invalid-token error is built as `new Error(message, {cause, status: 401})`; the `Error` constructor's options only carry `cause`, and `Object.assign` with one argument adds nothing, so the thrown error has no `status` and the error handler answers 500 | any refresh token for which `verifyRefreshToken` throws (bad signature, expired, wrong audience) | the error carries `status: 401`, like the reuse and not-active errors | high; not executed | AuthService.InvalidTokenAnswers500AsWritten | AuthService.CredentialFailuresAnswer401 |

The engine itself is unaffected by the status: `RotateRefreshToken` returns
the `InvalidRefreshToken` outcome and leaves the store unchanged either way;
the corrected `Thrown` is what the model uses for statuses.

## Left out

- Cryptography: SHA-256 hashing, HS256 signing and verification (issuer, audience, expiry) and `uuid` are function values or parameters; the model does not check that a minted token verifies or carries the user's `sub`.
- `sanitize-html` is an arbitrary function `string -> string`; `ms` is the constant `RefreshLifetime` for the default `'7d'`.
- Clock: the source reads `Date.now()` / `new Date()` several times per call; the model uses one instant `now` per engine call.
- Concurrency and the atomicity of MongoDB's conditional updates: the model applies one operation at a time.
- The TTL monitor's schedule (it runs about once a minute): `Store.Purge` is one pass at an instant the caller chooses.
- `populate('user')` at src/services/auth.service.js:90: the model assumes the owning user document still exists; if it was deleted, `createToken` fails on `user.email` (src/services/auth.service.js:36), before signing, and nothing is written.
- `SignedAt` only bounds verification from above (no refresh token verifies from one lifetime after its signing on); jsonwebtoken works in whole seconds and rounds `iat` down, so a token can stop verifying up to a second before its record expires, which the model neither requires nor excludes.
- Casting `payload.sub` to an ObjectId in the reuse branch: a truthy `sub` that is not a valid ObjectId makes `updateMany` throw; the model treats every truthy `sub` as a user id.
- Mongoose's `required` also rejects an empty string for `tokenHash`; the model only checks presence (a SHA-256 hex digest is never empty).
- Store failures other than validation and duplicate key (connection loss, timeouts) are not modelled.
- String lengths are counted in Dafny characters; JavaScript's `slice` counts UTF-16 code units.
- Logging (`logger.warn` on reuse) and the HTTP layer, including the rule that logout always answers 200 (src/controllers/auth.controller.js:120-125).
- The failure of `existing.save()` at src/services/auth.service.js:141 (document not found) is not an outcome of rotation: in a sequential store the record found at line 90 is still there when it is saved, and the model proves the save succeeds.
