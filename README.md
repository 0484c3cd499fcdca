# Kargomok frontend: authentication core in Dafny

This project models the decision and transformation logic under the
Kargomok shipping service's web frontend, and proves properties of it. The
pages, the HTTP clients and the session library are not part of the model.
What is modelled:

- **Route guard** (`middleware.ts`, module `Middleware`). For a request
  path and a session state it decides one of three things: pass the request
  through, redirect a signed-in user from an authentication page to
  `/dashboard`, or redirect a visitor without a session to `/giris`. In the
  last case the page asked for is kept in `callbackUrl`. Paths that start
  with the text `/_next` or `/api`, and any path with a `.` in it, are never
  guarded. The public pages (`/giris`, `/kayit`, `/sifremi-unuttum`) match on whole
  path segments.
- **Server API helper** (`lib/api/server.ts`, module `ServerApi`). With no
  access token, no request is made. Otherwise the helper builds the URL
  (one trailing `/` is dropped from the base and a leading `/` is forced on
  the path). It then merges the headers, with the caller's headers winning
  over the defaults. Finally it classifies the status: 401 and 403 become
  `UnauthorizedError`, any other non-2xx status becomes an `ApiError`
  carrying that status, and a 2xx status returns the body.
- **Form rules** (`lib/schema/auth/index.ts`, module `AuthSchema`). These are
  the login and registration rules as functions that return the list of
  issues. Each issue has its field and its Turkish message. Lengths are
  counted the way JavaScript counts them, in UTF-16 code units.
- **Account calls** (`lib/services/auth/index.ts`, module `AuthService`).
  `register` maps the backend's answer to success or failure. The per-field
  error messages are flattened in field order, and a fallback message is
  used when the backend gives none. `getMe` yields the user only when the
  backend says it succeeded.
- **Session configuration** (`lib/auth.ts`, module `Auth`). This covers the
  empty-credentials guard of `authorize` and the mapping from the backend's
  user to the session user (its numeric id is rendered in decimal, see
  module `Decimal`). It also covers the `jwt` and `session` callbacks.
  These two change the objects they are given in place, so they are
  methods on the classes `Token` and `Session`. Each is specified by a pure
  update function of the object's value (`JwtUpdate`, `SessionUpdate`).

Inputs that come from outside the repository are parameters or input
datatypes:
- the session token lookup is a boolean `isAuthenticated`;
- the server session is an `Option<Auth.SessionView>`;
- `fetch` in `serverApi` is a function from the request to the response;
- the login `fetch` and the axios calls are their outcomes;
- the base API URL is a string;
- the validation library's email format test is a predicate parameter.

Modules are given to Dafny together and import each other: `Js` (optional
values, `||`, `??`, string tests), `Decimal`, `AuthTypes` (the backend's
user record), then one module per source file.

Four behaviours of the code are easy to miss, and the model keeps them:
- `middleware.ts:13-18` passes through any path containing a `.` without a
  session check, so not every unsigned request for a protected page is
  redirected.
- `middleware.ts:14-15` tests `/_next` and `/api` as text prefixes, not as
  path segments: `/apiary` and `/api-docs` are passed through as well.
- `lib/api/server.ts:57-59` throws `UnauthorizedError` for 403 as well as
  401. Signing the user out happens in the browser client, which is not
  part of this model.
- `lib/api/server.ts:49-54` replaces the bearer header only when the
  caller's headers contain the key `Authorization`. Headers the caller
  supplies under other keys leave it in place.

## Model

| member | source | states |
|---|---|---|
| `Middleware.AnyUnder` | middleware.ts:7-8 | `some` over the path list holds exactly when one listed path is the pathname or a prefix of it followed by `/` |
| `Middleware.IsPublicAuthPath` | middleware.ts:5-8 | public exactly when the path is `/giris`, `/kayit` or `/sifremi-unuttum`, or starts with one of them followed by `/` |
| `Middleware.Bypassed` | middleware.ts:13-17 | bypassed exactly when the path's first six characters are `/_next`, its first four are `/api`, or it contains a `.` |
| `Middleware.Decide` | middleware.ts:10-45 | passes through exactly when bypassed or when (public and no session) or (protected and session); bypassed paths pass whatever the session; a signed-in redirect goes to `/dashboard` with the query untouched; an unsigned redirect goes to `/giris` with `callbackUrl` set to the original path and the rest of the URL kept |
| `Middleware.OutcomeTable` | middleware.ts:13-44 | every request lands in exactly one of pass-through, dashboard redirect or login redirect, as the five-case table of bypass, public page and session decides; the login redirect's `callbackUrl`, read back from its query, is the path asked for |
| `Middleware.TextPrefixesAreBypassed` | middleware.ts:13-19 | `/apiary`, `/api-docs` and `/_nextjs` are bypassed, and a visitor without a session is let through to `/apiary` |
| `Middleware.DashboardIsProtected` | middleware.ts:5-19 | `/dashboard` is neither bypassed nor public |
| `Middleware.LoginIsPublic` | middleware.ts:5-19 | `/giris` is public and not bypassed |
| `Middleware.SignedInNeverSentToPublicPage` | middleware.ts:28-33 | a redirect of a signed-in user never targets a public authentication page |
| `Middleware.NoRedirectLoop` | middleware.ts:28-42 | the target of any redirect is passed through for the same session state, so there is never a second redirect |
| `Middleware.BelowPublicPathIsPublic` | middleware.ts:7-8 | any page below a public path is public |
| `Middleware.PublicPathIsWholeSegment` | middleware.ts:7-8 | a public path followed by any character other than `/` is not public |
| `Middleware.GirisXIsProtected` | middleware.ts:7-42 | `/girisX` is not public, and a visitor without a session is sent from it to `/giris` with `callbackUrl=/girisX` |
| `ServerApi.StripTrailingSlash` | lib/api/server.ts:42 | exactly one trailing `/` is removed when there is one, and the base is unchanged otherwise |
| `ServerApi.CleanPath` | lib/api/server.ts:43 | the result starts with `/`; an existing leading `/` is kept, a missing one is added |
| `ServerApi.JoinUrl` | lib/api/server.ts:41-44 | in each of the four cases the URL is exactly the base, less its one final `/` if it has one, followed by the path, with one `/` put in front when the path lacks it |
| `ServerApi.StrippedBaseEnd` | lib/api/server.ts:42 | a base that does not end in `//` no longer ends in `/` once stripped |
| `ServerApi.CleanPathSecond` | lib/api/server.ts:43 | a path that does not start with `//` has no `/` right after its leading one once cleaned |
| `ServerApi.JunctionHasOneSlash` | lib/api/server.ts:41-44 | when the base does not end in `//` and the path does not start with `//`, exactly one `/` sits at the joint |
| `ServerApi.DefaultHeaders` | lib/api/server.ts:49-53 | the defaults are exactly the three headers: `Content-Type` and `Accept` are `application/json`, `Authorization` is `Bearer ` plus the token |
| `ServerApi.IsOk` | lib/api/server.ts:61 | ok exactly for a status in the 2xx class, so never for 401 or 403 |
| `ServerApi.MergeHeaders` | lib/api/server.ts:49-54 | the keys are the defaults' and the caller's; every caller header wins; defaults the caller does not name are kept |
| `ServerApi.AuthorizationHeader` | lib/api/server.ts:49-54 | `Authorization` is always sent: the caller's value if given, otherwise the bearer token |
| `ServerApi.BuildRequest` | lib/api/server.ts:41-55 | the request has the joined URL and the merged headers, carries the caller's method and body, and always has caching off |
| `ServerApi.Classify` | lib/api/server.ts:57-68 | 401 or 403 if and only if `UnauthorizedError`; an `ApiError` if and only if some other non-2xx status, carrying that status; success if and only if 2xx, with the body |
| `ServerApi.HasAccessToken` | lib/api/server.ts:37 | a session whose access token is present and not the empty string |
| `ServerApi.Call` | lib/api/server.ts:31-69 | no request and an `UnauthorizedError` exactly when the session has no non-empty access token; otherwise one request built from the session's token, and its response classified |
| `ServerApi.CallErrorName` | lib/api/server.ts:6-66 | a failed call's error is named "UnauthorizedError" exactly when there was no token or the status was 401 or 403, and "ApiError" exactly for any other non-2xx status |
| `ServerApi.CallSendsBearerToken` | lib/api/server.ts:37-55 | when the caller sets no `Authorization` header, the request carries `Bearer ` plus the session's token |
| `AuthSchema.Utf16Length` | lib/schema/auth/index.ts:5 | a string's JavaScript length lies between its character count and twice that |
| `AuthSchema.MinLength` | lib/schema/auth/index.ts:5 | no issue if and only if the length reaches the minimum; otherwise exactly one issue on the field, with the rule's message |
| `AuthSchema.EmailRule` | lib/schema/auth/index.ts:4 | no issue if and only if the format test holds; otherwise exactly one issue with the email message |
| `AuthSchema.ValidateLogin` | lib/schema/auth/index.ts:3-6 | accepted if and only if the email passes and the password has at least 8 units; each failure has its own message; no other issue is reported, and none twice, so there are at most two |
| `AuthSchema.MatchRule` | lib/schema/auth/index.ts:17-20 | no issue if and only if the passwords are equal; otherwise "Şifreler eşleşmiyor" on `password_confirmation` |
| `AuthSchema.RegisterFieldIssues` | lib/schema/auth/index.ts:11-16 | no issue if and only if all four field rules hold; each field's issue appears exactly when its rule fails; no mismatch issue; at most four issues, each one of the registration form's and none listed twice |
| `AuthSchema.ValidateRegister` | lib/schema/auth/index.ts:10-20 | accepted if and only if name has at least 2 units, email passes, password and confirmation have at least 8 units, and they are equal; each rule's issue appears exactly when it fails; at most five issues, none other than the five rules', and none listed twice |
| `AuthSchema.ShortPasswordSameMessage` | lib/schema/auth/index.ts:5-14 | a short password is reported with "Şifre en az 8 karakter olmalıdır" on both forms |
| `AuthSchema.PasswordBoundary` | lib/schema/auth/index.ts:5 | seven characters fail and eight pass; four characters outside the Basic Multilingual Plane count as eight |
| `AuthService.Flatten` | lib/services/auth/index.ts:38 | the flattened list is as long as the lists together |
| `AuthService.FlattenAt` | lib/services/auth/index.ts:36-39 | the `j`-th message of list `i` sits at the offset of all earlier lists plus `j` |
| `AuthService.FlattenFrom` | lib/services/auth/index.ts:36-39 | every flattened message is some message of some list |
| `AuthService.FlattenAppend` | lib/services/auth/index.ts:36-39 | flattening a concatenation is concatenating the flattenings |
| `AuthService.FlatErrors` | lib/services/auth/index.ts:37-39 | field messages are present exactly when the body has an errors dictionary, and they number as many as the lists hold together |
| `AuthService.Register` | lib/services/auth/index.ts:15-53 | success with the backend's user and token exactly on a 2xx success; a 2xx rejection keeps the backend's message and has no field messages; an error body gives its message or "Kayıt sırasında bir hata oluştu", plus its flattened field messages; any other error gives the fallback alone; a call that ends in an error, rather than a 2xx answer, never has an empty message |
| `AuthService.RegisterErrorsInFieldOrder` | lib/services/auth/index.ts:34-45 | the reported field messages are in field order |
| `AuthService.GetMe` | lib/services/auth/index.ts:59-71 | the user if and only if the call answered and the backend says it succeeded, and nothing otherwise |
| `Decimal.NatToString` | lib/auth.ts:44 | the rendering is non-empty, all digits, and starts with `0` only when it is `0` itself |
| `Decimal.IntToString` | lib/auth.ts:44 | a `-` exactly for a negative id, then digits with no leading zero, so zero is `0` and never `-0`; this is `String(id)` for integer ids up to 2^53 in magnitude |
| `Decimal.NatRoundTrip` | lib/auth.ts:44 | reading the digits of a rendered natural number gives it back |
| `Decimal.IntRoundTrip` | lib/auth.ts:44 | parsing `String(id)` gives the id back, negative ids included |
| `Decimal.IntToStringInjective` | lib/auth.ts:44 | distinct ids have distinct string ids |
| `Auth.ToUser` | lib/auth.ts:39-51 | the session user's id is the decimal rendering of the backend's id and parses back to it; image is the avatar; the access token is the login token; name, email, type and status are copied |
| `Auth.HasCredentials` | lib/auth.ts:16 | both the email and the password are present and not the empty string |
| `Auth.TryLogin` | lib/auth.ts:20-51 | a user, built by `ToUser`, exactly when the backend's body says success; a rejection throws an `Error` whose message is the backend's, or "Giriş başarısız" when that is missing or empty, and is never empty; an error from the request propagates unchanged |
| `Auth.RethrownMessage` | lib/auth.ts:52-57 | the rethrown error keeps an `Error`'s message; anything else becomes "Giriş sırasında bir hata oluştu" |
| `Auth.Authorize` | lib/auth.ts:15-58 | `null` if and only if a credential is missing or empty; a user if and only if the backend accepted, mapped by `ToUser`; a rejection fails with the backend's message or "Giriş başarısız"; a failed request fails with its `Error`'s message, or "Giriş sırasında bir hata oluştu" for any other thrown value |
| `Auth.MissingCredentialsIgnoreBackend` | lib/auth.ts:16-18 | without both credentials the result is `null` whatever the backend would have answered |
| `Auth.JwtUpdate` | lib/auth.ts:66-78 | without a user the token is unchanged; with one, the seven fields are the user's; the library's own claims are never touched |
| `Auth.JwtCallback` | lib/auth.ts:66-78 | returns the token it was given, updated in place as `JwtUpdate` says |
| `Auth.SessionUpdate` | lib/auth.ts:79-91 | the session has a user; id, type and status are the token's; name and email are the token's or `""`; image is the token's or `null`; the access token is the token's; the expiry is untouched |
| `Auth.SessionCallback` | lib/auth.ts:79-91 | returns the session it was given, updated in place as `SessionUpdate` says |
| `Auth.LatestSignInWins` | lib/auth.ts:68-76 | a second sign-in leaves the token as if only it had happened |
| `Auth.LaterRequestsKeepToken` | lib/auth.ts:66-78 | any number of later callbacks without a user leave the signed-in token as it was |
| `Auth.SignInReachesSession` | lib/auth.ts:15-91 | an accepted login yields a session whose user is the backend's user (id rendered by `Decimal.IntToString` and parsing back to the backend's id, avatar as image) and whose access token is the backend's token |

## Left out

- Token lookup and session storage: the internals of `getToken`, `getServerSession`, JWT signing and the 30-day expiry belong to the session library. They are inputs here.
- Network and timing: `fetch`, axios, their async sequencing and the environment variables. The base API URL is a plain string; when it is unset, JavaScript would interpolate the text `undefined`, and that case is not modelled.
- Routing configuration: the `config.matcher` pattern of `middleware.ts` is framework configuration. The model guards every path it is given.
- Other request options: `RequestInit` carries the method, the body, the caching mode and the headers. The other `fetch` options that `...init` would pass on unchanged (credentials, mode, signal and the like) are not modelled.
- Email format: what zod's `.email()` accepts is a predicate parameter.
- zod parsing details: values that are not strings (zod aborts before the refinement) and the library's own issue codes are not modelled. Issues are listed in field order, and the confirmation rule follows the field rules; it is checked even when a field rule failed, as zod 3 does for strings.
- Query parameters: they are a map. The order of `URLSearchParams` and repeated keys are not modelled; setting `callbackUrl` replaces any earlier value.
- Header key case: caller headers are merged as a JavaScript object, key by exact spelling. `fetch` joining `Authorization` and `authorization` case-insensitively is not modelled.
- Dictionary order: the errors dictionary is a list of pairs in the order `Object.values` returns them. JavaScript's rule that integer-like keys come first is not modelled.
- `Decimal.IntToString`: it models `String(id)` for integer ids only. Fractional numbers and exponent notation from 1e21 up are not modelled. Integer ids larger than 2^53 in magnitude are not modelled either: JavaScript holds them as doubles, and `String` prints the fewest digits that read back to the same double, padded with zeros (2^60 prints as `1152921504606847000`). The model prints every digit exactly.
- `Auth.ToUser`: its id is `Decimal.IntToString` of the backend's id, so it agrees with `String(id)` only for ids up to 2^53 in magnitude, for the reason above.
- Malformed bodies: backend bodies are typed unions (success with data, or failure with a message). A 2xx body that claims success but lacks `data`, and `response.json()` failing, throw in the source; those paths are not modelled.
- `Auth.SessionUpdate`: `null` and `undefined` are one absent value. The model does not separate a token field that was never set from one set to `null`.
- Page components, the browser axios clients and the interface file: they render, navigate and configure libraries. They contain no logic beyond calling the modelled core.
