# AeroGear Android authentication core, modelled in Dafny

This project models the two stateful components of the AeroGear Android
client's authentication layer:

- `RestAuthenticationModule` (module `RestAuthentication`, with the session
  state in `Session` and the login request body in `LoginPayload`): a session
  against one backend, reached through a base URL and three endpoint paths
  (login, logout, enroll). It holds a token and an authenticated flag, both
  changed only by a completed `login`. Its `Builder` supplies defaults,
  chained setters and a `build` that fails when a resolved URL is malformed.
- `DefaultAuthenticator` (module `DefaultAuthentication`): a mutable map from
  names to modules with `add`, `get` and `remove`. Its `auth` rejects every
  authentication kind except REST and returns a builder whose `add(name)`
  builds a module and registers it.

Collaborators the core only calls are inputs of the model (module
`Collaborators`):
- The HTTP provider's `post` is a function `Post` from (URL, body) to a
  response or an exception.
- `java.net.URL`'s syntax check is a function `UrlSyntax` from a string to
  `bool`. A base URL is represented by its `toString()` text.
- A `null` that the source returns or stores as a result is `None`. This
  covers the token, which is `null` when the response lacks the `Auth-Token`
  header, and `get` or `remove` on an unbound name. Null arguments are not
  modelled (see "Left out").

`login` is modelled as one synchronous step. The outcome it returns is what
the source hands to `callback.onSuccess` or `callback.onFailure`.
`Scenarios` restates the module's unit tests and a registry client as
methods proved from the contracts alone.

The model follows the code in these places, where a reader might expect
otherwise:
- A failed login leaves the token and the flag as they were. It does not
  clear the token.
- The flag does not imply a non-empty token. A success response without the
  header sets the flag and a null token (`Session.AuthenticatedWithoutToken`).
- `enroll` and `logout` throw `UnsupportedOperationException`. The tests
  that expect them to succeed describe behaviour the code does not have.
- The builder's defaults are `/auth/login`, `/auth/logout` and
  `/auth/enroll`. The `build` doc comment says `/login` and so on.
- `auth` calls a `Builder(URL)` constructor and overrides an `add(String)`.
  Neither is in `RestAuthenticationModule.Builder` as shown. The model reads
  this as `new Builder()` followed by `baseURL(url)`.

## Model

| member | source | states |
|---|---|---|
| `LoginPayload.BuildLoginData` | src/org/aerogear/android/authentication/impl/RestAuthenticationModule.java:130-142 | the login body is 25 characters longer than the two credentials: `{'username':`, the username verbatim, `,'password':`, the password verbatim, `}`; the unused length locals play no part |
| `LoginPayload.IndexOf` | src/org/aerogear/android/authentication/impl/RestAuthenticationModule.java:135-138 | finds the first occurrence of a key in a body, or reports that there is none; helper for reading the body back |
| `LoginPayload.FirstPasswordKeyAfterUsername` | src/org/aerogear/android/authentication/impl/RestAuthenticationModule.java:136-137 | when the username holds no comma, the first `,'password':` in the body is the one appended after the username |
| `LoginPayload.ParseBuildRoundTrip` | src/org/aerogear/android/authentication/impl/RestAuthenticationModule.java:130-142 | the body can be read back to exactly the username and password that built it, whenever the username has no comma |
| `LoginPayload.LoginDataNotInjective` | src/org/aerogear/android/authentication/impl/RestAuthenticationModule.java:135-138 | because nothing is escaped, a username that embeds `,'password':` gives the same body as a different, shorter username with a longer password |
| `Session.TokenOf` | src/org/aerogear/android/authentication/impl/RestAuthenticationModule.java:103 | `result.get("Auth-Token")`: the header's value when the response has it, and null exactly when it does not |
| `Session.LoginStep` | src/org/aerogear/android/authentication/impl/RestAuthenticationModule.java:101-108 | one completed login: a successful post sets the flag and stores the response's token; a failed one leaves the session exactly as it was |
| `Session.Replay` | src/org/aerogear/android/authentication/impl/RestAuthenticationModule.java:101-108 | logins completed in order; afterwards the flag is set exactly when it was set before or some post succeeded |
| `Session.LastSuccess` | src/org/aerogear/android/authentication/impl/RestAuthenticationModule.java:101-108 | of a series of post outcomes, the response of the last success, or none exactly when every post failed |
| `Session.ReplayLastSuccess` | src/org/aerogear/android/authentication/impl/RestAuthenticationModule.java:101-108 | after any series of logins, the session is the one it started with if every post failed; otherwise it is the last successful response's token with the flag set (last writer wins) |
| `Session.FailedLoginsKeepSession` | src/org/aerogear/android/authentication/impl/RestAuthenticationModule.java:106-108 | logins whose posts all fail leave the token and the flag unchanged |
| `Session.AuthenticationIsSticky` | src/org/aerogear/android/authentication/impl/RestAuthenticationModule.java:103-104 | once authenticated, a module stays authenticated through any later logins, since nothing in the code clears the flag |
| `Session.UnauthenticatedIffNoSuccess` | src/org/aerogear/android/authentication/impl/RestAuthenticationModule.java:53-54 | a new module that has only seen logins is unauthenticated exactly when every post failed, and it is then in its initial state (empty token, flag false) |
| `Session.AuthenticatedWithoutToken` | src/org/aerogear/android/authentication/impl/RestAuthenticationModule.java:103-104 | a success response without an `Auth-Token` header sets the flag with a null token |
| `RestAuthentication.FirstInvalid` | src/org/aerogear/android/authentication/impl/RestAuthenticationModule.java:62-64 | the first of the resolved login, logout and enroll URLs that is not a URL, in the constructor's order; none exactly when all three are URLs |
| `RestAuthentication.RestAuthenticationModule.State` | src/org/aerogear/android/authentication/impl/RestAuthenticationModule.java:53-54 | the two session fields, `authToken` and `isAuthenticated`, read as one value |
| `RestAuthentication.RestAuthenticationModule.GetBaseURL` | src/org/aerogear/android/authentication/impl/RestAuthenticationModule.java:68-71 | returns the stored base URL, which every resolved URL starts with |
| `RestAuthentication.RestAuthenticationModule.GetLoginEndpoint` | src/org/aerogear/android/authentication/impl/RestAuthenticationModule.java:73-76 | returns the configured login path; the login URL is the base URL followed by it |
| `RestAuthentication.RestAuthenticationModule.GetLogoutEndpoint` | src/org/aerogear/android/authentication/impl/RestAuthenticationModule.java:78-81 | returns the configured logout path; the logout URL is the base URL followed by it |
| `RestAuthentication.RestAuthenticationModule.GetEnrollEndpoint` | src/org/aerogear/android/authentication/impl/RestAuthenticationModule.java:83-86 | returns the configured enroll path; the enroll URL is the base URL followed by it |
| `RestAuthentication.RestAuthenticationModule.GetAuthToken` | src/org/aerogear/android/authentication/impl/RestAuthenticationModule.java:120-122 | returns the session's current token and changes nothing |
| `RestAuthentication.RestAuthenticationModule.IsAuthenticated` | src/org/aerogear/android/authentication/impl/RestAuthenticationModule.java:124-126 | returns the session's current flag and changes nothing |
| `RestAuthentication.RestAuthenticationModule.constructor` | src/org/aerogear/android/authentication/impl/RestAuthenticationModule.java:53-65 | stores the base URL and endpoints, resolves each URL as base plus endpoint, and starts with token `""` and flag false |
| `RestAuthentication.RestAuthenticationModule.Create` | src/org/aerogear/android/authentication/impl/RestAuthenticationModule.java:56-65 | the constructor including its exception: it throws MalformedURLException for the first resolved URL that is malformed, and otherwise yields a new module in its initial state |
| `RestAuthentication.RestAuthenticationModule.Enroll` | src/org/aerogear/android/authentication/impl/RestAuthenticationModule.java:88-91 | always throws UnsupportedOperationException("Not supported yet.") and changes nothing |
| `RestAuthentication.RestAuthenticationModule.Logout` | src/org/aerogear/android/authentication/impl/RestAuthenticationModule.java:115-118 | always throws UnsupportedOperationException("Not supported yet.") and changes nothing |
| `RestAuthentication.RestAuthenticationModule.Login` | src/org/aerogear/android/authentication/impl/RestAuthenticationModule.java:93-113 | posts the login body to the login URL; on success it stores the response's `Auth-Token` and sets the flag, then reports the response; on failure it reports the exception and leaves the session unchanged |
| `RestAuthentication.Builder.constructor` | src/org/aerogear/android/authentication/impl/RestAuthenticationModule.java:145-154 | a new builder has base URL `http://localhost:80` and endpoints `/auth/login`, `/auth/logout`, `/auth/enroll` |
| `RestAuthentication.Builder.BaseURL` | src/org/aerogear/android/authentication/impl/RestAuthenticationModule.java:156-159 | replaces the base URL, keeps the three endpoints, returns the same builder |
| `RestAuthentication.Builder.LoginEndpoint` | src/org/aerogear/android/authentication/impl/RestAuthenticationModule.java:161-164 | replaces the login endpoint, keeps the other fields, returns the same builder |
| `RestAuthentication.Builder.LogoutEndpoint` | src/org/aerogear/android/authentication/impl/RestAuthenticationModule.java:166-169 | replaces the logout endpoint, keeps the other fields, returns the same builder |
| `RestAuthentication.Builder.EnrollEndpoint` | src/org/aerogear/android/authentication/impl/RestAuthenticationModule.java:171-174 | replaces the enroll endpoint, keeps the other fields, returns the same builder |
| `RestAuthentication.Builder.Build` | src/org/aerogear/android/authentication/impl/RestAuthenticationModule.java:192-203 | succeeds exactly when base plus each endpoint is a URL; then it yields a new, unauthenticated module whose accessors return the configured strings and whose URLs are their concatenations; otherwise it throws IllegalArgumentException wrapping the MalformedURLException of the first bad URL |
| `DefaultAuthentication.Lookup` | src/org/aerogear/android/authentication/impl/DefaultAuthenticator.java:51 | `Map.get`: the bound module, and none exactly when the name is unbound |
| `DefaultAuthentication.DefaultAuthenticator.constructor` | src/org/aerogear/android/authentication/impl/DefaultAuthenticator.java:34 | a new registry is empty |
| `DefaultAuthentication.DefaultAuthenticator.Add` | src/org/aerogear/android/authentication/impl/DefaultAuthenticator.java:40-43 | binds the name to the module, overwriting any earlier binding, and returns the module; every other name keeps its binding |
| `DefaultAuthentication.DefaultAuthenticator.Get` | src/org/aerogear/android/authentication/impl/DefaultAuthenticator.java:50-52 | returns the bound module, or none exactly when the name is unbound; the map is not changed |
| `DefaultAuthentication.DefaultAuthenticator.Remove` | src/org/aerogear/android/authentication/impl/DefaultAuthenticator.java:58-60 | returns the previous binding or none, leaves the name unbound and every other binding as it was; on an unbound name it changes nothing, so a second remove is a no-op |
| `DefaultAuthentication.DefaultAuthenticator.Auth` | src/org/aerogear/android/authentication/impl/DefaultAuthenticator.java:66-77 | a kind other than REST throws IllegalArgumentException("Unsupported Auth Type passed"); REST yields a new builder over the given base URL with default endpoints, bound to this registry; the registry is not touched |
| `DefaultAuthentication.AddAuthBuilder.constructor` | src/org/aerogear/android/authentication/impl/DefaultAuthenticator.java:71-76 | the builder instance `auth` returns: a builder paired with the registry its `add` writes to |
| `DefaultAuthentication.AddAuthBuilder.Add` | src/org/aerogear/android/authentication/impl/DefaultAuthenticator.java:73-75 | builds a module and registers it under the name through the registry's `add`; a failed build throws and registers nothing |
| `Scenarios.BuildTestModule` | test/org/aerogear/android/authentication/RestAuthenticationModuleTest.java:47-56 | the test's builder over `http://localhost:8080/todo-server` resolves the login URL to `.../todo-server/auth/login` and builds an unauthenticated module |
| `Scenarios.LoginFails` | test/org/aerogear/android/authentication/RestAuthenticationModuleTest.java:69-80 | with the test's backend URLs well formed, a login answered with 401 reports exactly that failure and the module stays unauthenticated |
| `Scenarios.LoginSucceeds` | test/org/aerogear/android/authentication/RestAuthenticationModuleTest.java:83-97 | with the test's backend URLs well formed, a login answered with a token reports that response, and the module is authenticated with exactly that token |
| `Scenarios.EnrollAndLogoutThrow` | test/org/aerogear/android/authentication/RestAuthenticationModuleTest.java:99-179 | with the test's backend URLs well formed, enroll and logout in the code both throw UnsupportedOperationException and the module stays in its initial state |
| `Scenarios.LoginMany` | src/org/aerogear/android/authentication/impl/RestAuthenticationModule.java:93-113 | logins run one after another: each posts the same body to the login URL, and the session afterwards is the one it started with if every post failed, or else the last successful response's token with the flag set |
| `Scenarios.RegistryRoundTrip` | src/org/aerogear/android/authentication/impl/DefaultAuthenticator.java:40-60 | overwriting add, then get, then remove twice: get returns the last module added, the first remove returns it, the second returns none, and the other name's binding survives |
| `Scenarios.AuthThenAdd` | src/org/aerogear/android/authentication/impl/DefaultAuthenticator.java:66-77 | after `auth(REST, url).add(name)` succeeds, `get(name)` returns the built module, whose login URL is the url followed by `/auth/login`; a failed add leaves the registry as it was |

## Left out

- The `AsyncTask` around `login` (RestAuthenticationModule.java:95-111): login completes in one synchronous step. Concurrent logins and the atomicity of the token and flag update are not modelled.
- The path where `callback.onSuccess` throws and `onFailure` is called after the session was already set (RestAuthenticationModule.java:105-107): callbacks are not modelled. Only the outcome handed to `onSuccess` or `onFailure` is.
- `HttpRestProvider`, HTTP status handling and `HeaderAndBodyMap` are not part of this model. `post` is an input function, and a response is a header map plus a body.
- `java.net.URL` parsing: URL validity is the input function `UrlSyntax`. `baseURL.toString()` is taken to be the stored base string.
- The Gson instance (never used) and the `Logger` call in `build` have no effect on the model's state.
- The callback parameters of `login`, `enroll` and `logout` are not modelled. `enroll` and `logout` throw before ever using theirs.
- Null arguments are not modelled: Dafny strings and object references here cannot be null. The source differs in four ways. A null username or password makes `buildLoginData` throw a NullPointerException at RestAuthenticationModule.java:132. That call is outside the `try` at :101, so no callback runs and the session is unchanged. `add(name, null)` stores null, and `get(name)` then returns null for a bound name. `baseURL(null)` makes `build` throw a NullPointerException at RestAuthenticationModule.java:62, and `build` does not convert that into an IllegalArgumentException. A null endpoint is concatenated as the text `null` at RestAuthenticationModule.java:62-64, so `build` may succeed with an endpoint accessor returning null while the resolved URL ends in `null`.
- The registry's values are `RestAuthenticationModule`, the one implementation shown. The source map holds any `AuthenticationModule` (DefaultAuthenticator.java:34, :40). The model does not cover a registry that mixes implementations.
- `AddAuthBuilder` is a wrapper that holds a `Builder`, not a subclass of it. Its setters are reached through its `builder` field.
- `AuthType` is not part of this model beyond REST. Its other constants are the opaque `OtherAuthType`.
- `Pipe.java` and `AdapterFactory.java` are not part of this model. The first is an interface with no behaviour. The second is a switch over adapter classes that are not shown.
