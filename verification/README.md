# SSBackend authentication core, modelled in Dafny

The backend is an Express server with two credential routes and a little
server-level policy. This project models both as pure functions.

- **`routes/auth.js`**: the `validateRequest` guard, `POST /signup` and `POST /login`.
  - Each handler is a transition over an account store `map<string, Account>` keyed by email.
  - It returns an `Outcome`: the response (status, message, payload), the new store, and the ordered list of collaborator calls it made (`findOne`, `bcrypt.hash`, `User.create`, `bcrypt.compare`, `jwt.sign`).
  - Everything a handler takes from outside is an explicit input: the store's failures and the id it assigns, the random salt, the clock, and `JWT_SECRET`.
- **bcrypt** (module `Bcrypt`): a hash is a record of cost, salt and digest.
  - Comparing re-hashes the candidate with the stored cost and salt, as `bcrypt.compare` does.
  - So `Verify(p, Hash(p, s))` is a proved property, not an assumption.
  - The stand-in digest reads the first 72 UTF-8 bytes of the password, the most bcrypt reads. Two passwords that share those bytes are accepted by the same hashes.
  - The stored password has type `PasswordHash`, so a plaintext cannot be stored.
- **jsonwebtoken** (module `Jwt`): only the claim set `{id, email, iat, exp}` is kept.
  - `iat = floor(nowMs / 1000)` and `exp = iat + 3600`.
  - A falsy secret makes signing fail.
- **`server.js`** (module `Server`):
  - the CORS `origin` callback over the two allowed origins;
  - the error-handling middleware (403 for a "CORS Error" message, otherwise 500);
  - `process.env.PORT || 5001`;
  - the composition of the CORS check with the routes.

Files: `js.dfy` (JavaScript option and truthiness), `bcrypt.dfy`, `accounts.dfy`,
`jwt.dfy`, `http.dfy` (responses), `auth.dfy` (the routes),
`auth_properties.dfy` (lemmas about the routes and about request sequences),
`server.dfy`.

Two behaviours of the code worth stating:
- A duplicate-key failure from the store during signup is not treated as "User already exists". The code sends only a `ValidationError` to 400 and everything else to 500 (`Auth.SignupFailure`).
- A missing signing secret does not stop the server from starting. The code never checks it, so it shows up at login as a 500 (`AuthProperties.LoginWithoutSecret`).

## Model

| member | source | states |
|---|---|---|
| `Bcrypt.Hash` | routes/auth.js:28 | the hash records cost factor 10 and the given salt, and the password it was made from passes the comparison against it |
| `Bcrypt.DistinctSaltsDistinctHashes` | routes/auth.js:28 | the same password hashed under two different salts gives two different stored hashes |
| `Bcrypt.VerifyOnlyOwnHash` | routes/auth.js:55 | `bcrypt.compare` against a hash made at cost 10 accepts a password exactly when the hash is that password's hash under the hash's own salt |
| `Bcrypt.VerifyIgnoresTail` | routes/auth.js:55 | once a password has 72 UTF-8 bytes, anything appended to it is ignored by the comparison against any stored hash |
| `Bcrypt.LongPasswordTailIgnored` | routes/auth.js:28-55 | the hash of a password of 72 or more characters accepts that password with anything appended |
| `Jwt.IssueClaims` | routes/auth.js:61-65 | the claims carry the given id and email, `iat` is the request time in whole seconds rounded down, and `exp` is `iat` plus one hour |
| `Jwt.Sign` | routes/auth.js:61-74 | a token comes out exactly when the secret is truthy, and it carries the given claims |
| `Jwt.ExpiryRule` | routes/auth.js:61-65 | a verifier whose clock reads `t` seconds finds the token expired exactly when `t` is at least the request second (rounded down) plus 3600; in particular it is expired one hour and one second after the request |
| `Auth.ValidateRequest` | routes/auth.js:8-14 | credentials pass exactly when both fields are present and non-empty, and they are passed on unchanged |
| `Auth.SignupFailure` | routes/auth.js:32-40 | a `ValidationError` becomes 400 "Invalid user data" with the error's message as details; any other error becomes 500 "Internal Server Error" |
| `Auth.Signup` | routes/auth.js:17-41 | status is 201, 400 or 500; 201 exactly when the body is valid, the lookup works, the email is free and create succeeds; the store changes only on 201, and then by exactly one new account filed under the email with `Hash(password, salt)`, with the old ones kept, and the answer carries the email only; no collaborator is called on an invalid body; the hasher runs only after the email was found free |
| `Auth.Login` | routes/auth.js:44-76 | the store never changes; status is 200, 400 or 500; a token is returned exactly on 200; 200 comes exactly when the body is valid, the lookup works, the email is known, its stored hash accepts the password and the signing secret is truthy; a failed lookup on a valid body gives 500 "Internal Server Error"; the token claims that account's id and email and expires one hour after issue; the response's user is that email |
| `Auth.Serve` | routes/auth.js:17-76 | any auth request answers 200, 201, 400 or 500, and the store grows by exactly one account on 201 and is otherwise unchanged |
| `AuthProperties.MissingFieldsRejected` | routes/auth.js:8-14 | a missing or empty email or password gives 400 "Email and password are required" on both routes, with no collaborator call and the store unchanged |
| `AuthProperties.DuplicateSignupRejected` | routes/auth.js:22-25 | signing up a taken email gives 400 "User already exists" after the lookup alone, with nothing hashed and the store unchanged |
| `AuthProperties.SignupCreatesOneAccount` | routes/auth.js:28-31 | a successful signup adds one account under the email, holding `Hash(password, salt)` and the assigned id; every other account is unchanged; the answer is 201 carrying only the email |
| `AuthProperties.SignupStoreFailure` | routes/auth.js:32-40 | a store failure at lookup or at create leaves the store unchanged and maps `ValidationError` to 400 with details and anything else to 500 |
| `AuthProperties.LoginUnknownUser` | routes/auth.js:49-52 | an unknown email gives 400 "User does not exist" with no comparison and no token |
| `AuthProperties.LoginWrongPassword` | routes/auth.js:55-58 | a password the stored hash rejects gives 400 "Invalid password" with nothing signed |
| `AuthProperties.LoginSucceeds` | routes/auth.js:61-71 | a correct password with a usable secret gives 200 "Login successful" with a token for the stored id and email, issued at the request second and expiring 3600 s later; the response's user is the email only |
| `AuthProperties.LoginIgnoresBytesPast72` | routes/auth.js:44-71 | a login whose password already has 72 UTF-8 bytes answers exactly as it would with anything appended to that password |
| `AuthProperties.LoginStoreFailure` | routes/auth.js:47-75 | a lookup that throws during login ends in 500 "Internal Server Error" after the lookup alone, with nothing compared or signed and the store unchanged |
| `AuthProperties.LoginWithoutSecret` | routes/auth.js:61-75 | with a falsy signing secret a valid login ends in 500 and no token |
| `AuthProperties.SignupThenLogin` | routes/auth.js:28-66 | after signing up with an email and password, logging in with the same pair succeeds with a token whose email claim is that email and whose id is the assigned id |
| `AuthProperties.SecondSignupRejected` | routes/auth.js:22-29 | a second signup of the same email is refused without hashing, and the stored hash stays the one the first signup computed |
| `AuthProperties.SignupPreservesWellFormed` | routes/auth.js:29 | signup keeps every account filed under its own email |
| `AuthProperties.ReplayOnlyAdds` | routes/auth.js:17-76 | over any sequence of requests no account is changed or removed, and the store grows by exactly the number of 201 responses |
| `AuthProperties.ReplayPreservesWellFormed` | routes/auth.js:17-76 | over any sequence of requests every account stays filed under its own email |
| `Server.CorsErrorMessage` | server.js:23 | the rejection message starts with "CORS Error" and contains the refused origin at a fixed position |
| `Server.OriginCallback` | server.js:11-25 | an origin is admitted exactly when it is absent or empty or one of the two allowed origins; otherwise the error starts with "CORS Error" and names the origin |
| `Server.HandleError` | server.js:77-84 | status 403 with the message echoed exactly when the message starts with "CORS Error"; otherwise 500 "Internal Server Error" |
| `Server.ListenPort` | server.js:87 | the port is the `PORT` value when that is a non-empty string, and 5001 otherwise |
| `Server.Handle` | server.js:17-84 | a request gets 403 exactly when its origin is refused, and then the store is unchanged and no collaborator is called; otherwise the route's own outcome is returned |
| `Server.NoOriginAdmitted` | server.js:20 | a request with no origin, or an empty one, is admitted |
| `Server.AdmittedIffListed` | server.js:11-20 | a non-empty origin is admitted exactly when it is one of the two listed front ends |
| `Server.UnlistedOriginForbidden` | server.js:19-84 | a request from an unlisted origin ends in 403, its message names the origin, and the store is unchanged |

## Left out

- Express and body-parser wiring, route registration, preflight handling, the health endpoint and static file serving (server.js:1-8, 33, 52-74): framework plumbing with no decision of its own.
- The MongoDB connection and the exit on a missing `MONGO_URI` or a failed connection (server.js:35-50): process control and I/O.
- The `User` schema is not part of this model. The store is a map keyed by email, and `create` either assigns an id or fails with a named error. Any normalisation the schema might apply to emails is not modelled.
- Non-string JSON values in the request body (numbers, booleans, objects): a field is either missing or a string. The guard's truthiness is modelled for strings only, and what mongoose and bcrypt would do with other values is outside the model.
- bcrypt internals (the Blowfish rounds, the `$2b$` string encoding, constant-time comparison, random salt generation): these belong to a foreign library. The digest is a stand-in of the same 184-bit width, and the salt is an input.
- Bcrypt.Verify: the password's bytes are the UTF-8 encoding of its Unicode scalar values. JavaScript strings holding lone surrogates have no such encoding and are not modelled.
- Bcrypt.Verify: bcrypt in `$2b$` mode adds a NUL byte to the (at most 72-byte) key and repeats it, and builds that measure the key with `strlen` stop at the first NUL. So bcrypt can accept a password containing U+0000 against another password's hash (`"a\u0000a"` against the hash of `"a"`), where the stand-in digest keeps the two apart.
- Failures thrown by `bcrypt.hash` or `bcrypt.compare`: with string inputs these calls do not throw. They would take the same catch path as the store failures that are modelled.
- JWT encoding and HMAC signing: a foreign library. A token is its claim set, and signing only decides whether a token is produced.
- Concurrent signups of the same email: the race needs concurrency, and the handlers are modelled one request at a time.
- Logging through `console.error` and `console.log`: it has no effect on behaviour.
