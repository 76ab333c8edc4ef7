# mern-auth: a verified model of the authentication core

This project models the email/password authentication of a MERN single-page
application and proves properties of the model in Dafny.

- **Backend account state machine** (`AuthController`, `PendingUserModel`).
  There are two collections. `User` holds verified accounts. `PendingUser`
  holds unverified signups. Both are keyed by email, and a User also has an
  id. `signup` stores a pending record with a 6-digit code valid for 24
  hours and emails the code. `verifyEmail` promotes some pending record
  whose code matches and has not expired. `resendVerifyEmail` renews the
  code of an existing User. `login` records the login time and sets a
  session cookie. `forgotPassword` sets a one-hour reset token.
  `resetPassword` consumes that token. `checkAuth` returns the user the
  session names. Sent emails go to a ghost outbox.
- **Encodings** (`Codes`). The decimal text of the verification code and
  the hexadecimal text of the 20-byte reset token, each with its inverse.
- **Collaborators** (`Primitives`). bcrypt hashing and comparison, kept
  symbolic over the 72 key bytes bcryptjs derives from the password: its
  UTF-8 bytes plus a NUL terminator, read cyclically. The session token's payload (user id, `iat`, `exp` seven days
  later).
- **Client auth store** (`AuthStore`). The client's state record, updated by
  shallow merges, plus the cached `token` and `user` in local storage. The
  HTTP outcome, `navigator.onLine`, the clock and the decoded cached token
  are inputs.
- **Offline token check** (`LocalToken`). `verifyTokenLocally` compares the
  JWT `exp` claim (whole seconds, section 4.1.4 of RFC 7519) with the clock
  in integer milliseconds, as `exp * 1000 < nowMs`. It never checks a
  signature.
- **Route guards** (`Routes`). `ProtectedRoute` and
  `RedirectAuthenticatedUser` decide Redirect, Render or Crash (the
  TypeError from reading `user.isVerified` with no user). The route table
  adds two fixed redirects, and redirects are followed step by step. The
  `isCheckingAuth` spinner gate is modelled too.
- **Six-slot code entry** (`CodeEntry`). Paste distribution, with its copy
  loop kept as a loop. Single-character edits, focus movement, the paste
  flag, the auto-submit condition and the disabled button.

Every handler and action is one atomic step. `Date.now()` is a `now`
parameter. The draw behind the code is `r`, in [0, 900000). The reset
token's bytes are a 20-element `seq<byte>`. The bcrypt salt is a number.

Three behaviours of the code to know:

- The JSON bodies of `verify-email` and `login` carry no token. The session
  goes only in the cookie, so the store writes `response.data.token`, which
  is `undefined`. Local storage then holds the text `"undefined"`
  (`AuthStore.StorageText`, `AuthStore.LoginWithoutTokenCachesUndefined`).
- `login` has no branch for federated accounts.
- `resendVerifyEmail` updates a User, not a PendingUser. When no User has
  the email, the field assignment on `null` throws. The handler then
  answers 500 with the runtime's TypeError message.

## Model

| member | source | states |
|---|---|---|
| `Codes.VerificationCode` | backend/controller/auth.controller.js:43-45 | the code for draw r < 900000 is six decimal digits, has no leading zero, and denotes exactly 100000 + r |
| `Codes.DecimalRoundTrip` | backend/controller/auth.controller.js:43-45 | reading back the decimal text of n gives n |
| `Codes.DecimalLength` | backend/controller/auth.controller.js:43-45 | a number with k digits is written with exactly k characters |
| `Codes.VerificationCodeInjective` | backend/controller/auth.controller.js:43-45 | two draws give the same code exactly when they are equal |
| `Codes.ToHex` | backend/controller/auth.controller.js:261 | the token has two lower-case hex characters per byte, so 40 for 20 bytes |
| `Codes.HexRoundTrip` | backend/controller/auth.controller.js:261 | parsing the hex token back recovers the random bytes exactly |
| `Codes.FromHex` | backend/controller/auth.controller.js:261 | the reference inverse of the hex encoding, used by `HexRoundTrip` (the code never parses hex): a successful parse yields one byte per two characters |
| `Primitives.CompareHash` | backend/controller/auth.controller.js:213 | compare accepts a hash for the password it was made from, whatever the salt, and accepts a candidate exactly when both passwords give the same 72 key bytes (UTF-8 bytes plus a NUL terminator, read cyclically) |
| `Primitives.ShortAsciiPasswordsCompareExactly` | backend/controller/auth.controller.js:213 | for ASCII passwords of at most 72 characters containing no U+0000, compare accepts exactly the password that was hashed |
| `Primitives.LongAsciiPasswordsCollide` | backend/controller/auth.controller.js:213 | two ASCII passwords of 72 or more characters that agree on the first 72 are accepted for each other |
| `Primitives.NulTerminatorExample` | backend/controller/auth.controller.js:213 | the password "a\0a" logs in to an account whose password is "a", because both give the key bytes 61 00 61 00 … |
| `Primitives.TruncationExample` | backend/controller/auth.controller.js:213 | the password 72 × 'a' + 'b' logs in to an account whose password is 73 × 'a' |
| `Primitives.IssueSession` | backend/utils/generateTokenAndSetCookie.js:4-6 | the session names the user, `iat` is the current second, and `exp` is seven days after `iat` |
| `PendingUserModel.Save` | backend/models/pending-user.model.js:5-11 | a record missing a required field is refused, a duplicate email is refused, otherwise the record is stored under its email; well-formedness is preserved |
| `PendingUserModel.DeleteByEmailIsExact` | backend/models/pending-user.model.js:6 | under the unique email index, `{email}` matches only the record stored under that email, so deleting it leaves every other record |
| `PendingUserModel.DeletePreservesWellFormed` | backend/models/pending-user.model.js:5-11 | removing a record keeps the collection well formed |
| `PendingUserModel.CodeNotUnique` | backend/models/pending-user.model.js:9 | a well-formed collection can hold two records for different emails with the same code |
| `AuthController.AuthBackend.Signup` | backend/controller/auth.controller.js:14-93 | missing field, existing User, then existing PendingUser (E001) are refused in that order with no change; otherwise one PendingUser with hash(password), a 6-digit code and now + 86 400 000 ms is added, one verification email carries the code, Users are unchanged, and no user or session is returned; keeps the store invariant, including that no email is in both collections |
| `AuthController.AuthBackend.VerifyEmail` | backend/controller/auth.controller.js:95-162 | without a pending record matching the code with expiry strictly after now, answers "Invalid or expired verification code" with no change; otherwise, for whichever matching record is chosen, adds a verified User with its email, hash and name, deletes exactly that record, sends the welcome email, sets the session, and returns the user without its password |
| `AuthController.AuthBackend.ResendVerifyEmail` | backend/controller/auth.controller.js:164-195 | an email with no User, including one that is only pending, gives 500 and no change; otherwise only that User's code (6 digits) and expiry (now + 24 h) change |
| `AuthController.AuthBackend.Login` | backend/controller/auth.controller.js:197-237 | unknown email and wrong password get the identical "Invalid Credentials" answer with no change; on success only `lastLogin` changes, a session is set, and the user is returned without its password |
| `AuthController.Logout` | backend/controller/auth.controller.js:239-242 | answers 200 and clears the session cookie |
| `AuthController.AuthBackend.ForgotPassword` | backend/controller/auth.controller.js:244-282 | a missing email and an unknown email are refused with their messages and no change; otherwise only the reset token (hex of the 20 bytes) and its expiry (now + 3 600 000 ms) change, and the reset link is emailed |
| `AuthController.AuthBackend.ResetPassword` | backend/controller/auth.controller.js:284-317 | succeeds only for a User holding the token with expiry strictly after now; stores hash(new password) and clears both reset fields; otherwise no change |
| `AuthController.AuthBackend.CheckAuth` | backend/controller/auth.controller.js:319-337 | answers 200 with the user without its password exactly when some User has the id, else 400 "User not found"; reads only |
| `AuthScenarios.SignupTwiceReportsPending` | backend/controller/auth.controller.js:32-39 | a second signup for the same email gets E001 and leaves the first pending record in place |
| `AuthScenarios.SignupThenVerify` | backend/controller/auth.controller.js:41-157 | presenting the emailed code before it expires promotes that signup to a verified User with the same name and password, when no other pending record holds that code |
| `AuthScenarios.ExpiredCodeIsRefused` | backend/controller/auth.controller.js:113-123 | a code presented at or after its expiry is refused and the signup stays pending |
| `AuthScenarios.ResetTokenIsSingleUse` | backend/controller/auth.controller.js:261-306 | a fresh reset token works once within the hour, and a second use of the same token fails |
| `LocalToken.VerifyTokenLocally` | frontend/src/utils/verifyTokenLocally.js:3-25 | false for no stored token and for a token that does not decode; true exactly for a decodable token whose `exp` is absent or not before now |
| `LocalToken.ExpiryBoundaryAccepted` | frontend/src/utils/verifyTokenLocally.js:15-18 | `exp` equal to now is accepted; one millisecond later it is refused |
| `LocalToken.AcceptanceIsMonotone` | frontend/src/utils/verifyTokenLocally.js:15-18 | once a token is refused for expiry, it stays refused at every later time |
| `LocalToken.SignatureIsIgnored` | frontend/src/utils/verifyTokenLocally.js:10-12 | two tokens with the same decoded payload get the same answer, so no secret or signature is involved |
| `LocalToken.IssuedSessionLifetime` | frontend/src/utils/verifyTokenLocally.js:14-20 | the payload of a session issued at T passes the offline check at T + 6 days and fails it at T + 8 days |
| `AuthStore.Store.constructor` | frontend/src/store/authStore.js:12-19 | the initial state is no user, not authenticated, no error or code, not loading, checking auth, no message |
| `AuthStore.Store.BeginRequest` | frontend/src/store/authStore.js:22 | the first merge of a request action sets `isLoading` and clears `error`, changing nothing else |
| `AuthStore.Store.Signup` | frontend/src/store/authStore.js:21-42 | success authenticates with the response's user; failure records the message (or the fallback) and the code; both end not loading |
| `AuthStore.Store.VerifyEmail` | frontend/src/store/authStore.js:43-62 | success authenticates and caches token and user, resolving with the response; failure records the message and rejects; both end not loading |
| `AuthStore.Store.ResendVerifyEmail` | frontend/src/store/authStore.js:63-83 | success authenticates and caches the token only; failure records the message; both end not loading |
| `AuthStore.Store.CheckAuth` | frontend/src/store/authStore.js:84-114 | always ends with `isCheckingAuth` false and no error; online, `isAuthenticated` becomes whether the request succeeded; offline, the local token check, restoring the cached user if valid |
| `AuthStore.Store.Login` | frontend/src/store/authStore.js:115-156 | online success authenticates and caches token and user; online failure changes only the error and loading flag; offline, no request is made, and a valid cached token restores the cached user, otherwise "Error logging in" and unauthenticated |
| `AuthStore.Store.Logout` | frontend/src/store/authStore.js:157-171 | success drops user and authentication; failure sets "Error logging out" and keeps both; local storage is untouched |
| `AuthStore.Store.ForgotPassword` | frontend/src/store/authStore.js:172-187 | success shows the server's message; failure records the error; both end not loading |
| `AuthStore.Store.ResetPassword` | frontend/src/store/authStore.js:188-202 | success shows the server's message; failure records the error; both end not loading |
| `AuthStore.Store.ClearErrors` | frontend/src/store/authStore.js:203-205 | only `error` changes |
| `AuthStore.Store.SetUser` | frontend/src/store/authStore.js:206-215 | caches the token and user and authenticates with them |
| `AuthStore.Store.SetErrorMessage` | frontend/src/store/authStore.js:216-223 | sets the error and clears `isAuthenticated`, `isLoading` and `isCheckingAuth`, keeping `user` |
| `AuthStore.LogoutKeepsOfflineSession` | frontend/src/store/authStore.js:157-170 | after `setUser` caches a user and a token and the user logs out, an offline `checkAuth` with a still-valid cached token authenticates again with the cached user |
| `AuthStore.LoginWithoutTokenCachesUndefined` | frontend/src/store/authStore.js:132 | a login response without a `token` field leaves the text "undefined" in the cache |
| `Routes.ProtectedRoute` | frontend/src/App.jsx:18-30 | unauthenticated goes to `/login`; authenticated with no user is an error; unverified goes to `/verify-email`; the page renders exactly for an authenticated, verified user |
| `Routes.RedirectAuthenticatedUser` | frontend/src/App.jsx:33-66 | never errors; an authenticated verified user goes to `/`; an authenticated unverified user goes to `/verify-email` unless already there; it renders exactly for unauthenticated, no-user, or unverified-on-`/verify-email` states |
| `Routes.GuardsExcludeEachOther` | frontend/src/App.jsx:18-55 | no state renders both a protected and a guest page; a state sent to `/verify-email` is let in there |
| `Routes.NoSelfRedirect` | frontend/src/App.jsx:84-136 | no route redirects a path to itself |
| `Routes.DashboardSettles` | frontend/src/App.jsx:84-92 | from `/dashboard`, each kind of state ends on login, dashboard, verification page or the error within two redirects |
| `Routes.DashboardWithinOne` | frontend/src/App.jsx:84-92 | from `/dashboard`, one redirect is enough to stop |
| `Routes.SettlesWithinThreeRedirects` | frontend/src/App.jsx:84-136 | from any path, following redirects stops within three steps, and ends in the error only for an authenticated state without a user |
| `Routes.AppScreen` | frontend/src/App.jsx:75 | the spinner is shown exactly while `isCheckingAuth` is true, whatever the path |
| `Routes.StartupShowsRoutes` | frontend/src/App.jsx:71-75 | once the startup `checkAuth` finishes, the routes replace the spinner |
| `CodeEntry.DistributePaste` | frontend/src/pages/EmailVerificationPage.jsx:24-32 | the loop leaves slot i as the i-th of the first six pasted characters and `""` past the pasted length, with no filtering |
| `CodeEntry.LastFilledIndex` | frontend/src/pages/EmailVerificationPage.jsx:35 | the result is -1 or a non-empty slot, and every later slot is empty |
| `CodeEntry.PasteFocus` | frontend/src/pages/EmailVerificationPage.jsx:35-36 | the focus after a paste is a slot index in 0..5 |
| `CodeEntry.PasteFocusFollowsPaste` | frontend/src/pages/EmailVerificationPage.jsx:35-37 | after a paste, focus is on slot min(pasted length, 5), so 0 when nothing was pasted |
| `CodeEntry.KeyDownFocus` | frontend/src/pages/EmailVerificationPage.jsx:65-69 | Backspace on an empty slot past the first moves focus back one; in every other case focus is unchanged |
| `CodeEntry.AutoSubmit` | frontend/src/pages/EmailVerificationPage.jsx:96-100 | fires exactly when all slots are non-empty, submitting their concatenation |
| `CodeEntry.SubmitEnabledIffAutoSubmit` | frontend/src/pages/EmailVerificationPage.jsx:156 | the button is enabled exactly when not loading and every slot is filled |
| `CodeEntry.JoinSingleChars` | frontend/src/pages/EmailVerificationPage.jsx:83 | one character per slot joins to one character per slot, in order |
| `CodeEntry.PasteThenSubmit` | frontend/src/pages/EmailVerificationPage.jsx:28-32 | pasting six or more characters auto-submits exactly the first six; a shorter paste submits nothing |
| `CodeEntry.CodeEntryPage.constructor` | frontend/src/pages/EmailVerificationPage.jsx:9-11 | six empty slots, no focus, paste flag clear |
| `CodeEntry.CodeEntryPage.HandlePaste` | frontend/src/pages/EmailVerificationPage.jsx:23-38 | replaces all six slots with the paste distribution, sets the paste flag, and focuses slot min(pasted length, 5) |
| `CodeEntry.CodeEntryPage.HandleChange` | frontend/src/pages/EmailVerificationPage.jsx:40-62 | the change after a paste only clears the flag; a value longer than one UTF-16 code unit changes nothing; otherwise only slot `index` changes, and focus advances exactly when the value is non-empty and index < 5 |
| `CodeEntry.CodeEntryPage.HandleKeyDown` | frontend/src/pages/EmailVerificationPage.jsx:65-69 | only focus changes, as `KeyDownFocus` decides |
| `CodeEntry.AtMostOneUnit` | frontend/src/pages/EmailVerificationPage.jsx:50 | `value.length <= 1` holds exactly for the empty value and for one character of the Basic Multilingual Plane |
| `CodeEntry.TypeSixCharacters` | frontend/src/pages/EmailVerificationPage.jsx:50-60 | typing one BMP character into each slot in turn auto-submits the typed text |

## Left out

- Federated login is not modelled. `googleAuthCallback` is imported by the routes but its body is not part of this model. The OAuth client and the Google login button are out too.
- The mail gateway is not modelled: sends are outbox entries only. A failing send is not modelled either; in the code it makes the handler answer 400 or 500 after the record was already saved.
- Database failures are not modelled. Mongo queries are map lookups.
- Primitives.CompareHash: bcrypt is symbolic. A hash remembers its salt and the 72 key bytes bcryptjs reads: the password's UTF-8 bytes with a NUL terminator appended, repeated cyclically. Compare checks those bytes, so distinct passwords with equal key bytes log in for each other. Two examples: passwords that share their first 72 bytes, and "a" against "a\0a". Collisions of the Blowfish digest itself and bcrypt's errors are not modelled; one such error is compare on an account without a password hash. That UTF-8 encoding is injective is not proved, so `ShortAsciiPasswordsCompareExactly` is stated for NUL-free ASCII passwords only.
- JWT signing and verification, the `verifyToken` middleware and the cookie options are not modelled. `checkAuth` takes the user id the middleware decoded. The session token is its payload only.
- Express, CORS and the route wiring are not modelled.
- Concurrency is not modelled. Concurrent signups for one email can race, and async store actions can interleave; here every handler and action is atomic.
- Request body fields are strings, and `""` stands for every falsy value. For `verifyEmail`, `resendVerifyEmail` and `resetPassword`, which do not check their fields, an absent field is not told apart from a string. Mongo's handling of `undefined` in a filter is out.
- The User schema file is not part of this model. The fields come from their uses, and Users are keyed by a unique email. Schema defaults are not modelled (a default `lastLogin`, timestamps): a promoted User starts with no `lastLogin`.
- A failed request without a response is not modelled: the HTTP outcome is `Ok(data)` or `HttpError(data)`. In five actions (`signup`, `verifyEmail`, `resendVerifyEmail`, `forgotPassword`, `resetPassword`) the catch block reads `error.response.data` unguarded, so that case would throw a second time and leave `isLoading` true.
- JSON serialisation of the cached user is identity. Storing an `undefined` user, which becomes the text "undefined" that `JSON.parse` rejects, is not modelled.
- `jwtDecode` is an input (`LocalToken.Decoded`): its parsing of the token text is out, and so are a `null` payload and a non-numeric `exp`.
- React rendering, toasts, navigation after submit, the network call in `handleSubmit`, and `handleResendVerifyEmail` are not modelled. Focus is only what the handlers set; focus changes from user clicks are out.
- React Router's case-insensitive matching, trailing slashes and URL decoding are not modelled. Paths match exactly.
- CodeEntry.DistributePaste, CodeEntry.CodeEntryPage.HandlePaste: pasted text is sliced and split into Dafny characters, while `slice(0, 6).split("")` works on UTF-16 code units. They differ only for characters outside the Basic Multilingual Plane, which the page splits into two lone surrogates that a Dafny `char` cannot hold. CodeEntry.CodeEntryPage.HandleChange does count `value.length` in UTF-16 code units (`Utf16Length`), but stores the value as Dafny characters.
- The sign-up, login and dashboard pages and the input component have no logic beyond calls into the store and are not modelled.
- `Math.random` floating point is not modelled: the draws are integers given as parameters.
