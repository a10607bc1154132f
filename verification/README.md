# Founder session controller, modelled in Dafny

This project models the session core of the founder back end: the
controller that logs a founder in, logs them out, returns their stored
record, and rotates their token pair (`src/controllers/founder.controller.js`).
Each founder row holds one nullable `refreshToken`. Login and refresh
overwrite it with a newly signed token and logout sets it to null. A refresh
is accepted only when the token presented is exactly the stored one, so any
older token is revoked by mismatch. Every handler ends in one of three ways:
a JSON response with cookie directives, a thrown `ApiError(status, message)`,
or an exception raised by the store.

Layout:

- `wrappers.dfy`: `Option` (a missing or null JavaScript value) and `Result` (a call that may throw).
- `founder_types.dfy` (module `FounderTypes`): the founder row, the table
  (`map<FounderId, Founder>`), the public projection, cookie directives,
  replies, the log of external calls, the message constants, and the two
  store lookups.
- `session_spec.dfy` (module `SessionSpec`): each handler as a function from
  the table and the request to a `Step`. A `Step` holds the reply, the new
  table and the external calls in the order they were made.
- `founder_controller.dfy` (module `FounderController`): class `FounderStore`,
  whose `founders` field is the table. The handlers are methods that check
  step by step with early exits and update the table in place. Each method is
  proved equal to its `SessionSpec` function.
- `session_properties.dfy` (module `SessionProperties`): properties that link
  two calls: logout then refresh, refresh then refresh, login then refresh.
- `session_trace.dfy` (module `SessionTrace`): any sequence of requests, and
  invariants over such sequences, proved by induction.

Three behaviours of the code that a reader might not expect:

- A known username with a wrong password fails with "Invalid Password". An
  unknown username fails with "Invalid username or password". The message
  therefore tells a caller whether the username exists
  (`SessionProperties.LoginRevealsUnknownUsername`).
- Fetching details has no not-found check. An unknown id gives 200 with a
  null body. The body is the whole row as the lookup returns it.
- The handlers never persist the refresh token themselves. The model assumes
  that the store's `SignRefreshToken` extension writes the token it signs to
  the founder's row. `SignRefreshToken` is not part of this model. This write
  is an assumption about code that cannot be seen. `SessionSpec.Issue` and
  `FounderStore.GenerateAccessAndRefreshToken` make it explicitly, and every
  result about supersession and single use depends on it.

## Model

| member | source | states |
|---|---|---|
| FounderTypes.LookupByUsername | src/controllers/founder.controller.js:36-42 | finds the row with the given username; it is `None` exactly when no row has it (usernames are unique) |
| FounderTypes.LookupById | src/controllers/founder.controller.js:94-96 | yields the row filed under the id, and `None` exactly when there is none |
| FounderTypes.SetRefreshToken | src/controllers/founder.controller.js:75-78 | the founder's `refreshToken` becomes the given value and nothing else changes: every other field of that row, every other row and the set of ids stay as they were |
| FounderTypes.Public | src/controllers/founder.controller.js:58 | the projection carries exactly the row's id, name, username and email |
| FounderTypes.PublicHidesSecrets | src/controllers/founder.controller.js:56-59 | two rows that agree on id, name, username and email project alike, so the projection reveals nothing of the password hash, phone, avatar or refresh token |
| FounderTypes.SessionCookies | src/controllers/founder.controller.js:66-69 | two directives that set a cookie: `accessToken` with the access token, then `refreshToken` with the refresh token, both httpOnly and secure |
| FounderTypes.ClearedCookies | src/controllers/founder.controller.js:85-88 | two directives that clear a cookie, `accessToken` then `refreshToken`, both with the httpOnly and secure options |
| SessionSpec.Issue | src/controllers/founder.controller.js:9-26 | succeeds exactly when the founder exists and both signing calls return. It then yields exactly that access/refresh pair and (assumed effect) stores the refresh token. Any failure, including the founder-not-found 404, becomes 500 "Error generating tokens" and writes nothing. The lookup by id is always the first call. Only that founder's token can change |
| SessionSpec.Login | src/controllers/founder.controller.js:29-71 | a missing or empty username or password fails with 400 "Username and Password are required" before any store call. Otherwise the username lookup comes first. An unknown username fails with 400 "Invalid username or password" after that one call. A wrong password fails with 400 "Invalid Password" after lookup and comparison. Accepted credentials with failed signing give 500. A failure sets no cookie and leaves the table unchanged. Success happens exactly when the credentials are accepted and signing completes: 200, body is the projection {id, name, username, email} of the founder, both cookies set httpOnly and secure with the new tokens, and the founder's stored token replaced |
| SessionSpec.Logout | src/controllers/founder.controller.js:74-90 | for a stored caller: their `refreshToken` becomes null, and the reply is 200 with an empty body, clearing both cookies with the same options. Only that row's token changes. For an id that has no row, the store throws and nothing changes |
| SessionSpec.FounderDetail | src/controllers/founder.controller.js:93-101 | always 200 with no cookies and an unchanged table; the body is the caller's row, null exactly when the id has no row |
| SessionSpec.Incoming | src/controllers/founder.controller.js:105 | the cookie token when it is non-empty, otherwise the body token; a usable token exists exactly when either one is non-empty |
| SessionSpec.Rethrown | src/controllers/founder.controller.js:147 | the caught error's message when it is non-empty, and "Invalid refresh token" when it is empty; never empty |
| SessionSpec.RefreshTry | src/controllers/founder.controller.js:111-134 | for a non-empty token, verification is the first call. A failure writes nothing, and every error the block raises itself has a non-empty message. It succeeds exactly when the token verifies, its founder exists, it equals the stored token and signing completes. It then yields the signed pair, and only that founder's stored token is replaced |
| SessionSpec.Refresh | src/controllers/founder.controller.js:104-149 | no non-empty token gives 401 "Unauthorized request" with no verification and no store call. Otherwise verification is the first call. A verification error gives 401 with its message, or the fallback when that message is empty. An unknown id gives 401 "Invalid refresh token". A token different from the stored one (null included) gives 401 "Refresh token is expired or used". Both of these fail after exactly the verification and the lookup by id, with no signing call. Failed signing gives 401 "Error generating tokens". Every failure is 401, sets no cookie and writes nothing. Success happens exactly when the token verifies, its founder exists, it equals the stored token and signing completes: 200, body and both cookies carry the new pair, and the founder's stored token is replaced |
| FounderController.FounderStore.GenerateAccessAndRefreshToken | src/controllers/founder.controller.js:9-26 | the result, the new table and the calls made are those of `SessionSpec.Issue` on the table before the call; the table stays valid |
| FounderController.FounderStore.LoginFounder | src/controllers/founder.controller.js:29-71 | the reply, the new table and the calls made are those of `SessionSpec.Login` on the table before the call |
| FounderController.FounderStore.LogoutFounder | src/controllers/founder.controller.js:74-90 | the reply, the new table and the calls made are those of `SessionSpec.Logout` on the table before the call |
| FounderController.FounderStore.GetFounderDetail | src/controllers/founder.controller.js:93-101 | the reply is that of `SessionSpec.FounderDetail` on the current table |
| FounderController.FounderStore.RefreshAccessToken | src/controllers/founder.controller.js:104-149 | the reply, the new table and the calls made are those of `SessionSpec.Refresh` on the table before the call |
| SessionProperties.LogoutRevokes | src/controllers/founder.controller.js:126-132 | after logout, every refresh whose token verifies to the caller fails with 401 "Refresh token is expired or used" |
| SessionProperties.RefreshTokenIsSingleUse | src/controllers/founder.controller.js:130-134 | after a successful refresh, presenting the same token again fails with 401 "Refresh token is expired or used", provided the signer did not return that same string |
| SessionProperties.LoginSupersedes | src/controllers/founder.controller.js:54 | after a successful login, any other token that verifies to that founder is refused as expired or used |
| SessionProperties.LoginThenRefresh | src/controllers/founder.controller.js:105-145 | the refresh cookie set by a successful login is accepted by the next refresh when it verifies to that founder. That refresh succeeds exactly when the new pair is signed |
| SessionProperties.LoginRevealsUnknownUsername | src/controllers/founder.controller.js:44-52 | with both fields present and the credentials refused, the reply is "Invalid username or password" exactly when the username is unknown, and "Invalid Password" exactly when it is known |
| SessionTrace.Apply | src/controllers/founder.controller.js:152-157 | any handler keeps the table valid and its set of ids, and changes at most the `refreshToken` of each row |
| SessionTrace.Replay | src/controllers/founder.controller.js:152-157 | handling requests in order keeps the table valid and its ids unchanged, and gives one reply per request |
| SessionTrace.CookiesInPairs | src/controllers/founder.controller.js:61-145 | each reply touches no cookie, clears both session cookies, or sets both (`accessToken` then `refreshToken`, httpOnly and secure); never just one |
| SessionTrace.RevokedUntilLogin | src/controllers/founder.controller.js:74-132 | once a founder's stored token is null, in any sequence of requests without a login naming that founder's username, the token stays null and no refresh verifying to that founder succeeds |
| SessionTrace.StaleTokenNeverAccepted | src/controllers/founder.controller.js:104-149 | a token no row holds is refused by every later refresh in any request sequence, and stays unheld, provided no signer returns that string again |

## Left out

- `src/app.js` is not part of this model. It holds the Express set-up (CORS, body limits, static files, cookie parsing) and the routing.
- `jwt.verify` is not modelled; signatures, expiry and the refresh secret live inside it. It is the function `Keys.verifyRefresh`, which yields either the decoded id or the thrown error's message. One fixed function serves every request of a sequence, so tokens that expire between requests are not represented; the sequence lemmas prove only refusals, which expiry could not undo.
- The store's `comparePassword`, `SignAccessToken` and `SignRefreshToken` extensions are not part of this model. `comparePassword` is `Keys.comparePassword` on the found row. What the two signing calls return for a request is the parameter `Signing`, with `None` where a call throws.
- That refresh-token signing persists its token is an assumption, not verified behaviour. A signing call that throws is assumed to persist nothing.
- Two signings are taken to produce different tokens. The lemmas that need this state it as a hypothesis; the signer itself is not modelled.
- Store exceptions are not modelled, except for an update of a missing row in logout, which is `StoreFault`. Every other lookup returns.
- The authentication middleware that sets `req.user` is not part of this model. Logout and detail receive the caller's id; an undefined `req.user` is not modelled.
- Request fields are `Option<string>`. Values that are not strings, and a request with no parsed body, are not modelled.
- The async wrapper, `ApiError` and `ApiResponse` are not part of this model, so the rendering of a thrown error is left abstract as `Fail` and `StoreFault`.
- Concurrent requests on the same row are not modelled. Requests run one at a time.
- FounderController.FounderStore.GetFounderDetail: a function, so it does not return the call log; `SessionSpec.FounderDetail` records its one lookup.
