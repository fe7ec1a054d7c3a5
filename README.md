# rc-auth: a Dafny model of the OAuth credential broker

rc-auth is a small Express server. It performs the OAuth2
authorization-code exchange for a browser client and keeps the resulting
token record in a server-held session. Before each protected request it
refreshes the token if it has expired. It then uses the access token to
call the downstream profile API on the user's behalf.

This project models the decision logic of the two core routers:

- `src/auth.js`: the token lifecycle guard `refreshTokenMiddleware` and the routes
  `/login`, `/logout`, `/status` and `/oauth_callback`.
- `src/rc.js`: the request headers, the downstream URLs and error messages, and
  the `/profile` and `/batches/:batchId/profiles` handlers.

Modules:

- `Js` (js.dfy) gives the meaning of the JavaScript built-ins the handlers
  depend on:
  - truthiness of a string that may be `undefined`;
  - `String(v)`;
  - `parseInt(v, 10)`, a prefix parser: it skips whitespace, reads an optional
    sign, then reads digits, and gives NaN when there are no digits;
  - `String.prototype.includes`;
  - the decimal rendering of an integer in a template literal.
- `Http` (http.dfy) holds the shared entities:
  - the token record;
  - the session (`Session`: an optional token and a `destroyed` flag);
  - the request (`Request`: its session, the resolved `accessToken`, and a log
    of the outbound calls it made);
  - the responses, and the middleware outcomes `next()`, `next(err)` and
    "response sent";
  - the configuration values read from the environment;
  - the session store's `destroy`.
- `Auth` (auth.dfy) models the guard and the authentication routes. Each one is
  a method that updates the request and its session in place and returns the
  response it writes.
- `Rc` (rc.dfy) models `rc.js`. The pure parts are functions and lemmas. The two
  handlers and the two downstream helpers are methods over the request.
- `Api` (api.dfy) models the mounting order. The last layer of the
  authentication router runs the guard before every `/api` request, so each
  proxy handler sees only requests the guard let through.

Every call into simple-oauth2, node-fetch or the session store is a
parameter of the method that makes it. For simple-oauth2 this covers
`createToken(…).expired()`, `refresh()`, `getToken()` and `authorizeURL()`.
The parameter's value is the outcome the call settles with:
`Returned(value)` or `Threw(error)`. For `destroy` it is the error the store
reports, if any; for `authorizeURL()` it is a function from the redirect
URI to the URL. Four kinds of call are appended to `Request.calls`:
`refresh()`, `getToken()`, `fetch()` and `destroy()`. So the contracts can
say that there was no refresh, no downstream call, or exactly one refresh
followed by one fetch with given headers. `createToken(…).expired()` and
`authorizeURL()` make no request of their own and are not logged.

Behaviour worth knowing, as the code has it:

- A failed refresh always redirects to `/login`, API requests included. The
  guard has no branch that answers them with 401.
- Destroying the session after a failed refresh reports the store's error
  through `next(err)`. The refresh error is only logged.
- `/profile` calls `destroy()` without a callback. The store's error is
  ignored, and the 401 is written either way.
- The access token checks are JavaScript truthiness tests. An access token
  that is the empty string is rejected like a missing one.
- Both handlers log a property of the downstream body inside their `try`
  block (`profileData.name`, `profiles.length`). A 2xx answer whose body is
  JSON `null` therefore throws a TypeError there. Its message has no '401', so
  `/profile` answers 500 'Could not load profile data' and the batch route
  answers 500 quoting "Cannot read properties of null (reading 'length')".

## Model

| member | source | states |
|---|---|---|
| `Js.TrimStartSpec` | src/rc.js:84-85 | parseInt's whitespace skip drops exactly the leading run of whitespace (every ECMAScript white-space and line-terminator character); what remains is a suffix that does not start with whitespace |
| `Js.DigitRunIsDigits` | src/rc.js:84-85 | the digit run parseInt reads is all digits and is ended by a non-digit or the end of the text |
| `Js.Includes` | src/rc.js:44 | `s.includes(p)` holds exactly when p occurs in s at some index |
| `Js.NatToString` | src/rc.js:60 | the rendering of a natural number is a non-empty string of digits with no leading zero |
| `Js.IntToString` | src/rc.js:60 | the rendering of an integer is its digits, with a leading minus sign when it is negative |
| `Js.NatToStringValue` | src/rc.js:60 | the digits of n denote n |
| `Js.ParseIntOfIntToString` | src/rc.js:84-85 | parseInt reads back every rendered integer, whatever non-digit text follows it (round trip) |
| `Js.IntToStringInjective` | src/rc.js:23 | distinct integers render differently, so each status has its own message |
| `Js.ParseIntSkipsWhitespace` | src/rc.js:84-85 | leading whitespace never changes what parseInt reads |
| `Js.IncludesSkipsPrefix` | src/rc.js:44 | a prefix in which no character can start the pattern hides no occurrence of it |
| `Js.ParseIntReadsNumbers` | src/rc.js:84 | parseInt("0") is 0 and parseInt("-5") is -5 |
| `Js.ParseIntReadsDigitPrefix` | src/rc.js:84 | "12abc" reads as 12, "0x10" as 0 and "1e3" as 1, because radix 10 stops at the first non-digit |
| `Js.ParseIntReadsPlusSign` | src/rc.js:85 | " +7" reads as 7 |
| `Js.ParseIntRejectsNonNumbers` | src/rc.js:85 | "abc", "", "-" and String(undefined) read as NaN |
| `Http.Begin` | src/main.js:29-38 | a request reuses a live session record; a cookie whose record was destroyed gets a new, empty session |
| `Http.Destroy` | src/auth.js:61-68 | on store success the session is destroyed and holds no token; on a store error the record is left unchanged; the access token is untouched either way |
| `Auth.RefreshTokenMiddleware` | src/auth.js:19-45 | the guard's four cases. With no token, `next()` and nothing changes. With a valid token, the token is kept and its access token passed on. With an expired token and a successful refresh, the token is replaced whole and the new access token passed on. Otherwise the session is destroyed, followed by a redirect to /login, or by `next(err)` with the store's error and the token kept; there is no refresh beyond one and no access token is set. `next()` happens exactly when nothing threw |
| `Auth.Login` | src/auth.js:48-55 | the redirect goes to the authorization URL built from the configured redirect URI |
| `Auth.Logout` | src/auth.js:58-69 | one destroy; 200 `{message}` and no token after store success; 500 `{error}` and the session unchanged after a store error |
| `Auth.Status` | src/auth.js:72-80 | the guard runs first, with all its effects. A JSON answer's `loggedIn` is exactly whether the session still holds a token. No token gives `loggedIn: false`, no call and nothing changed. A valid token gives `loggedIn: true` with the token kept and its access token set. A refreshed token gives `loggedIn: true` with the new token stored, its access token set and one refresh logged. A guard that throws logs the destroy and gives the redirect with the session destroyed, or the unhandled store error with the token kept |
| `Auth.OAuthCallback` | src/auth.js:83-104 | a falsy code gives 400 with no call and the session unchanged. Otherwise there is exactly one getToken call with the configured redirect URI, the same value /login uses. Success stores the issued token and redirects to the client origin. Failure gives 500 "Auth failed: …" and keeps the old token |
| `Auth.LogoutTwiceThenStatus` | src/auth.js:58-80 | while the store accepts the destroys, two logouts in a row both answer 200, and /status afterwards reports `loggedIn: false` |
| `Rc.MakeFetchHeaders` | src/rc.js:6-11 | exactly the two headers Authorization and Accept, with Accept `application/json` |
| `Rc.HeadersCarryToken` | src/rc.js:6-11 | reading the Bearer credential from the headers gives back exactly the token they were made from |
| `Rc.BatchUrlCarriesArguments` | src/rc.js:60 | the batch URL is the base and `/profiles?batch_id=`. parseInt on the text that follows reads the batch id, and on the text after `&limit=` reads the limit, so both numbers are passed verbatim |
| `Rc.ReadResponse` | src/rc.js:20-26 | the shaping shared with src/rc.js:66-72. The result is a value exactly when the fetch returned a 2xx answer, and that value is the parsed body unchanged. A non-ok answer throws "Failed to fetch profile: " plus the status. A fetch that throws propagates its own error |
| `Rc.FetchFailureIsAuthIffDigits` | src/rc.js:44 | a failed downstream answer is classified as an authentication failure exactly when its decimal status contains 401 |
| `Rc.FetchFailureIsAuthIff401` | src/rc.js:98 | for three-digit HTTP statuses, the classification holds for status 401 and no other |
| `Rc.QuotedBatchUrlLooksLike401` | src/rc.js:98 | the test reads the whole message, so any error that quotes the URL of a batch whose id contains 401 is classified as an authentication failure, whatever its cause |
| `Rc.BatchIdOf` | src/rc.js:84-89 | a batch id is accepted exactly when parseInt gives a number greater than 0, and then it is that number |
| `Rc.BatchIdOfRendered` | src/rc.js:84-89 | a rendered integer, whatever non-digit text follows it, is accepted as itself exactly when it is positive |
| `Rc.BatchIdSamples` | src/rc.js:84-89 | "0", "-5" and "abc" are refused; "12abc" is accepted as 12 |
| `Rc.LimitOf` | src/rc.js:85 | the limit is never 0. It is the parsed value when that is a non-zero number, and 50 when parsing gives NaN or 0 |
| `Rc.LimitOfRendered` | src/rc.js:85 | every rendered integer except 0 is taken as the limit verbatim, negatives included; 0 gives 50 |
| `Rc.LimitDefaults` | src/rc.js:85 | an absent limit, "notanumber" and "0" give 50 |
| `Rc.LimitPassesThrough` | src/rc.js:85 | "-5" gives -5 and "12abc" gives 12 |
| `Rc.GetProfileData` | src/rc.js:13-27 | one fetch of `<base>/profiles/me` with the token's headers; its result as ReadResponse states |
| `Rc.FetchBatchProfiles` | src/rc.js:56-73 | batch id 0 or an empty token throws the ReferenceError of the undefined `reject`, with no fetch. Otherwise there is one fetch of the batch URL with the token's headers, and its result is as ReadResponse states |
| `Rc.ReadOfNullIsNotAuthFailure` | src/rc.js:40-44 | the TypeError from reading `name` or `length` of null is never classified as an authentication failure |
| `Rc.Profile` | src/rc.js:30-53 | without an access token: 401 'Not authenticated', no call, session untouched. Otherwise there is one fetch. An ok answer with a non-null body gives 200 with the downstream JSON unchanged. An ok answer with a null body gives 500, because logging its `name` throws. An error containing '401' destroys a live session and gives 401. Any other error gives 500 and leaves the session untouched |
| `Rc.BatchProfiles` | src/rc.js:76-104 | the access token is checked before the batch id. An invalid batch id gives 400 with no call. An accepted id leads to one fetch with the parsed batch id and limit. The answer is 200 with a non-null body, 401 for an error containing '401', or 500 naming the batch id and the error message. A null body gives 500 quoting the TypeError of reading its `length`. The session is never modified |
| `Api.ApiProfile` | src/auth.js:107 | the guard runs before /profile. No token gives 401 and no call. A throwing guard ends the request before any fetch, with its redirect or unhandled error; the session is destroyed exactly when the store accepts the destroy. A guard that passes leaves its token (the refreshed one when it refreshed) in the session, and /profile then answers with that token's access token: 401 for an empty one; otherwise one fetch and 200, 401 with the destroy, or 500, as for /profile. In particular an expired token with a good refresh and an ok answer gives one refresh, one fetch with the new token, and 200 with the body unchanged |
| `Api.ApiBatchProfiles` | src/auth.js:107 | the guard runs before the batch route. No token gives 401 whatever the batch id. The session is destroyed exactly when the guard throws and the store accepts the destroy. A throwing guard gives its redirect or unhandled error before any fetch. A guard that passes leaves its token in the session, and the batch route answers with that token's access token: 401 for an empty one, 400 for an invalid batch id, otherwise one fetch and 200, 401 or 500 as for the batch route |

## Left out

- Network I/O and the OAuth library are not modelled. This covers node-fetch,
  simple-oauth2's `createToken`, `expired()`, `refresh()`, `getToken()` and
  `authorizeURL()`, and the session store's persistence. Each call's outcome
  is a parameter, and the model does not compute what the call returns.
- The expiry test depends on the wall clock inside simple-oauth2. It is the
  `expired` parameter.
- Concurrency is not modelled: two requests refreshing the same expired token
  at once, cancellation, and timeouts. The source sets no timeouts.
- Logging (`console.*`) is left out. So are the rendering of `next(err)` by
  Express's default error handler, shown as `Unhandled(err)` (a 500), and
  the text of the downstream error body.
- JSON parsing of downstream bodies: a body is `null` or an opaque value. A
  body that fails to parse is represented by a fetch outcome that throws that parse
  error; the handlers then treat it in the same way. Reading `name` or
  `length` of a value other than null never throws in JavaScript, so no
  other body shape changes an answer.
- `Http.ReadOfNull` uses V8's wording for the TypeError; other engines word
  it differently. Only the batch route's 500 message quotes it.
- `src/main.js` is not modelled, except for how express-session loads a
  session (`Http.Begin`). Left out: CORS, the cookie settings and the 30-day
  rolling expiry, `validateEnv`, the `/` page, and listening.
- express-session's save of a changed session at the end of the response is
  not modelled. The model treats `Session` as the stored record and updates it
  immediately.
- `/profile` does not wait for its `destroy()`. The model applies the destroy
  before the response.
- Query values that Express parses into arrays or objects are passed to
  `LimitOf` as their `String(…)` rendering.
- The default `limit = 50` parameter of `fetchBatchProfiles` is not modelled.
  The route always passes a number.
- The token record's `access_token` is a string in the model. A library token
  without one would make the logging at src/auth.js:98 throw after the token
  is stored; that path is not modelled.
- Js.ParseInt: integers are unbounded. Numbers of 2^53 and more lose
  precision in JavaScript, and very long digit runs read as Infinity; neither
  is modelled. `-0` is represented as 0, which behaves the same in every test
  the routes apply (`<= 0` and `|| 50`).
- Js.IntToString: JavaScript renders numbers of 10^21 and more in
  exponential notation. The model always writes plain digits.
