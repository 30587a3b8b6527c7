# JWT authentication filter and login/registration, modelled in Dafny

This project models the authentication layer of a small Spring service. It covers two parts.

- **`JwtRequestFilter.doFilterInternal`** makes one authentication decision per request. Requests to `/register` and `/login` are forwarded untouched. Any other request has its `Authorization` header read; a `Bearer ` token is passed to `JWTUtil` for a username. If the thread's security context is still empty, the user is loaded and the token validated. When validation succeeds, a `UsernamePasswordAuthenticationToken` is stored in the context. In every case that ends normally, the request is then forwarded down the filter chain.
- **`AuthController`** handles `register` and `login`. `register` overwrites the submitted password with its BCrypt encoding and saves the user. `login` returns `{"token": …}` when the user exists and the password matches the stored encoding; otherwise it returns 401 `Invalid credentials`.

Files and modules:

- `wrappers.dfy` (`Wrappers`): `Option`, standing for Java's `null` and `Optional`.
- `java_string.dfy` (`JavaString`): `String.startsWith`.
- `jwt.dfy` (`Jwt`): the filter. It has three parts.
  - `Decide` is the specification. It computes the steps the filter takes (header read, JWTUtil calls, context read and write, forward), the context's authentication afterwards, and the branch taken: `Bypassed`, `PassedThrough`, `Authenticated` or `Aborted`.
  - `SecurityContext` and `FilterChain` are objects that the method changes.
  - `JwtRequestFilter.DoFilterInternal` is the imperative method. It is proved to do what `Decide` says.
- `controller.dfy` (`Controller`): the entity, the repository, `Register` (imperative, in place) and `Login` (a pure decision over the stored users).
- `scenario.dfy` (`Scenario`): register, log in, and call `/users` with and without the issued token.

Collaborators are parameters given as total function values. These are `JWTUtil.extractUsername`, `validateToken` and `generateToken`, `CustomUserDetailsService.loadUserByUsername`, and BCrypt's `encode`/`matches`. The filter catches no exception. So every collaborator call on the filter's path returns an `Attempt`, either `Returned(v)` or `Threw`. A `Threw` ends the run as `Aborted`: the exception propagates, the context is unchanged, and the chain is never invoked. With collaborators that never throw, this outcome cannot occur (`TotalCollaboratorsNeverAbort`). Each BCrypt encoding draws a random salt, so the salt is a parameter of `Register`.

Two behaviours of the code shape the model:

- The filter catches no exception, so an exception from `extractUsername`, `loadUserByUsername` or `validateToken` ends the run as `Aborted`: the request is not forwarded.
- `register` has no duplicate check and always answers "User registered successfully". In the modelled store, the new record replaces the old one (`ReRegistrationReplaces`).

## Model

| member | source | states |
|---|---|---|
| `JavaString.StartsWith` | demo/src/main/java/com/example/demo/JWT/JwtRequestFilter.java:42 | `startsWith` holds iff the prefix fits in the string and equals its first characters |
| `Jwt.BearerToken` | demo/src/main/java/com/example/demo/JWT/JwtRequestFilter.java:42-43 | a token is obtained iff the header is present and begins with `"Bearer "`; the header is then exactly `"Bearer "` followed by the token |
| `Jwt.BearerTokenOfPrefixed` | demo/src/main/java/com/example/demo/JWT/JwtRequestFilter.java:43 | stripping the first 7 characters inverts prefixing `"Bearer "` |
| `Jwt.BearerTokenRejects` | demo/src/main/java/com/example/demo/JWT/JwtRequestFilter.java:42 | no header, another scheme, lower-case `bearer`, or `Bearer` without its space yields no token |
| `Jwt.Decide` | demo/src/main/java/com/example/demo/JWT/JwtRequestFilter.java:29-57 | bypass iff the path equals `/register` or `/login`, with the single step "forward" and the context unchanged; a completed run ends with the forward, and no forward occurs before it; a context write occurs only in an authenticated run, as its second-to-last step; an aborted run ends at a collaborator call that threw, and any throwing call in the trace is its last step, with the context left alone; the context changes iff the outcome is Authenticated, only from empty, only to the loaded user with a null credential and the user's authorities, and only when `Vouches` holds (token, username, loaded user, validation all succeed); without a username, or with a context already set, the context is unchanged and no lookup or validation happens |
| `Jwt.ForwardsExactlyOnce` | demo/src/main/java/com/example/demo/JWT/JwtRequestFilter.java:34-35 | the chain is invoked exactly once in every run that completes (bypass with early return, or at the end), and never in one aborted by an exception |
| `Jwt.ContextSetAtMostOnce` | demo/src/main/java/com/example/demo/JWT/JwtRequestFilter.java:47-54 | the context is written once in an authenticated run and never otherwise, so an existing authentication is never overwritten |
| `Jwt.TokenOnlyFromBearerHeader` | demo/src/main/java/com/example/demo/JWT/JwtRequestFilter.java:32-45 | on a public path neither the header nor JWTUtil is consulted; otherwise the header is read first; any token handed to `extractUsername` is the header minus `"Bearer "` |
| `Jwt.NearMissPathsAreChecked` | demo/src/main/java/com/example/demo/JWT/JwtRequestFilter.java:33 | `/users`, `/login/x`, `/register/`, `/Login`, `login` and the empty path are not bypassed |
| `Jwt.BypassIgnoresRequestAndCollaborators` | demo/src/main/java/com/example/demo/JWT/JwtRequestFilter.java:32-36 | on a public path, the run does not depend on the header, JWTUtil or the user-details service |
| `Jwt.VouchedUserIsAuthenticated` | demo/src/main/java/com/example/demo/JWT/JwtRequestFilter.java:47-53 | with an empty context and all checks passing for a user, that user's authentication is stored (the converse of the contract of `Decide`) |
| `Jwt.FailedValidationPassesThrough` | demo/src/main/java/com/example/demo/JWT/JwtRequestFilter.java:50-56 | a token that fails validation leaves the context empty, and the request is still forwarded exactly once |
| `Jwt.TotalCollaboratorsNeverAbort` | demo/src/main/java/com/example/demo/JWT/JwtRequestFilter.java:44-50 | if no collaborator throws, the filter always completes |
| `Jwt.CollaboratorExceptionAborts` | demo/src/main/java/com/example/demo/JWT/JwtRequestFilter.java:44-50 | on a protected path with a Bearer token: if `extractUsername` throws, or, with a username and an empty context, `loadUserByUsername` or then `validateToken` throws, the run is aborted and the context keeps its value |
| `Jwt.FilterChain.DoFilter` | demo/src/main/java/com/example/demo/JWT/JwtRequestFilter.java:56 | the chain records the request forwarded to it |
| `Jwt.JwtRequestFilter.DoFilterInternal` | demo/src/main/java/com/example/demo/JWT/JwtRequestFilter.java:29-57 | the method's outcome, the context's new authentication and the steps it takes are those of `Decide`; the chain receives the request once, unless a collaborator threw |
| `Controller.UserRepository.Save` | demo/src/main/java/com/example/demo/controller/AuthController.java:31 | stores the entity's current username and password under that username, and keeps every record under its own username |
| `Controller.FindByUsername` | demo/src/main/java/com/example/demo/controller/AuthController.java:37 | in a store that keeps every record under its own username: a record is found iff some stored record has that `username` field, and the record found is a stored one with that username |
| `Controller.FoundUserHasRequestedName` | demo/src/main/java/com/example/demo/controller/AuthController.java:37 | in a repository whose records sit under their own usernames, the record found carries the username asked for |
| `Controller.Register` | demo/src/main/java/com/example/demo/controller/AuthController.java:29-33 | the entity's password becomes the encoding of the submitted one; the saved record holds that encoding; the reply is always "User registered successfully" |
| `Controller.Login` | demo/src/main/java/com/example/demo/controller/AuthController.java:36-45 | status 200 iff a user is stored under the username and `matches(submitted, stored)` holds; the body is then the single field `token` holding `generateToken` of the submitted username; every other reply is 401 "Invalid credentials" |
| `Controller.UnknownUserSkipsPasswordCheck` | demo/src/main/java/com/example/demo/controller/AuthController.java:37-39 | for an unknown username the reply depends neither on the encoder's `matches` nor on the password submitted |
| `Controller.FailuresIndistinguishable` | demo/src/main/java/com/example/demo/controller/AuthController.java:38-44 | an unknown user and a wrong password receive identical replies |
| `Controller.LoginAfterRegister` | demo/src/main/java/com/example/demo/controller/AuthController.java:30-41 | after registration stores the encoding, logging in with the same password issues a token, provided `matches` accepts a password against its own encoding |
| `Controller.ReRegistrationReplaces` | demo/src/main/java/com/example/demo/controller/AuthController.java:29-32 | registering a username again replaces the earlier password: the old one is then rejected |
| `Scenario.IssuedTokenAuthenticates` | demo/src/main/java/com/example/demo/controller/AuthController.java:40-41 | a token that login issued, sent as `Bearer <token>` to a protected path with an empty context, authenticates the loaded user, given that the token names its user and validates |
| `Scenario.AliceRegistersAndLogsIn` | demo/src/main/java/com/example/demo/controller/AuthController.java:29-44 | after alice registers, the reply is "User registered successfully"; a wrong password gets 401 "Invalid credentials"; the right one gets her token |
| `Scenario.AliceCallsUsers` | demo/src/main/java/com/example/demo/JWT/JwtRequestFilter.java:38-56 | `/users` with alice's token authenticates the user the service loads for alice, whose username is alice; `/users` without a header passes through; both requests are forwarded, in order |

## Left out

- `UserController` (listing, deleting and updating users) is not part of this model. It only passes calls through to the repository.
- JWTUtil's signing, parsing and expiry are not modelled. `extractUsername`, `validateToken` and `generateToken` are arbitrary functions, because they involve cryptography and the clock.
- BCrypt is not modelled. `encode` and `matches` are arbitrary functions; the random salt is a parameter.
- Register: states that the stored password is the encoder's output for the submitted password. That this output differs from the plaintext is a property of BCrypt, which is not modelled.
- The repository is a map from username to record. `save` keyed by a generated id, and the duplicate rows it could create, are not modelled. The repository and `findByUsername` are not shown, so they are modelled as never throwing.
- ReRegistrationReplaces: holds of the modelled store keyed by username. With JPA, `save` of an entity without an id inserts a second row, and `findByUsername` would then fail on two matches.
- Login: `generateToken` is modelled as never throwing. An exception there would escape `login` and give neither 200 nor 401.
- `CustomUserDetailsService` is not shown. Its lookup may return a user or throw; which users it loads is not tied to the repository, except as a requirement in `Scenario`.
- A request body whose username or password is `null` is not modelled. The fields are always strings. (BCrypt's `encode` and `matches` throw on a `null` password.) Exceptions from `save` are not modelled either.
- `getRequestURI()` is taken as given. Context paths, encoded characters and path parameters are not modelled.
- The header is the value `getHeader("Authorization")` returns. The container's case-insensitive header lookup is not modelled.
- The skip-if-already-filtered logic of Spring's `OncePerRequestFilter` base class is not modelled. It lies outside `doFilterInternal`.
- Each request is modelled with its own security context (the thread-local holder). Concurrent requests and concurrent registrations are not modelled; the source has no synchronization.
- The response objects of the filter and the controller are not modelled. Only the status and body of the controller's replies are kept. The `System.out.println` in login is dropped.
