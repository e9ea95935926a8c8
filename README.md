# A verified model of the Lambda login service

The service (app/app.js) is an AWS Lambda handler with three operations behind a
small dispatcher:

- **register** (`POST /register`) runs four checks in a fixed order: fields
  present, name, email, password. It then hashes the trimmed password with
  bcrypt, lower-cases and trims the name, and writes the user under its email in
  the DynamoDB table `user-login`.
- **login** (`POST /login`) reads the user, compares the password against the
  stored hash and returns a JSON web token signed over `{name, email}`.
- **verify** (`POST /verify`) checks a token against the signing secret and
  against an email that the caller supplies.
- `GET /health` answers with a fixed text. Every other request gets 404.

The model is in Dafny and is organised by component:

- `wrappers.dfy` defines `Option` and `Result`.
- `text.dfy` defines the JavaScript string primitives: the `\s` character class
  (the same characters that `trim` removes), `trim`, and `toLowerCase` on ASCII
  letters.
- `password_validator.dfy` models the `password-validator` library. A schema is
  a list of checks that every chained call appends to. `validate` holds when
  every check agrees with its polarity.
- `validation.dfy` holds the two schemas that `saveUser` builds, and what they
  accept, stated character by character.
- `crypto.dfy` holds symbolic stand-ins for bcrypt and jsonwebtoken:
  - a bcrypt digest is a term that only `Compare` looks inside;
  - a token is either signed over a payload with a key and an expiry time, or
    malformed.
- `responses.dfy` holds `buildResponse` and the shapes of the response bodies.
- `app.dfy` holds the operations and the service:
  - the operations as specification functions over the table: `SaveUser`,
    `LoginUser`, `VerifyToken`, `RouteOf` and `Handler`;
  - the class `LoginService`. Its fields are the table and the two shared schema
    objects. `saveUser` appends the name rules to their schema once the fields
    are present. It appends the password rules only once the name and the email
    have passed. The methods `Register`, `Login` and `Handle` are proved equal
    to the functions above. `GetUser` has no specification function: its
    contract states directly what each lookup returns.
- `properties.dfy` holds the properties that relate several operations.

The outside world enters the model as values:

- The `Io` value carries the bcrypt salt, whether DynamoDB's `put` and `get`
  succeed, and the clock in seconds.
- `validator.isEmail` is a predicate given to the service.
- The value of `JWT_SECRET` is given to the constructor.

An invocation ends in one of three ways:

- a response;
- `undefined`, when the `put` of a registration fails;
- a failed invocation, when the body is not JSON (`JSON.parse` throws) or is
  `null` (reading a field of it throws); or when a failed `get` makes
  `dynamoUser.Item` throw.

A body that parses to a JSON number, string, boolean or array does not throw.
None of its fields is present, so it is handled as a body with no fields.

Some behaviours of the code that the model keeps:

- The health and not-found responses are built without `buildResponse`. They
  carry no headers and a plain-text body. Only the register, login and verify
  replies have the JSON content type.
- When `put` fails, register produces no response (`undefined`). It does not
  produce a 5xx error.
- `jwt.verify` with a callback returns what the callback returns. `verifyToken`
  therefore answers with the callback's response.
- The name rule is checked on the raw name, before it is lower-cased and
  trimmed. A name that passes can be stored shorter than 3 characters.
- `verifyToken` compares the token's email with the request's email using the
  loose `!=`. A correctly signed token without an email therefore verifies for
  a request that has no email either.

## Model

| member | source | states |
|---|---|---|
| Text.Trim | app/app.js:78-80 | the result is the input with a whitespace prefix and a whitespace suffix removed, and it neither starts nor ends with whitespace; only an all-whitespace string trims to empty |
| Text.TrimWithoutWhitespace | app/app.js:78 | a string without whitespace is unchanged by `trim` |
| Text.TrimEnds | app/app.js:80 | a string that neither starts nor ends with whitespace is unchanged by `trim` |
| Text.ToLower | app/app.js:80 | `toLowerCase` keeps the length and maps every character on its own: capitals to small letters, everything else unchanged |
| Text.ToLowerNoUpper | app/app.js:80 | no capital letter is left after `toLowerCase` |
| Text.ToLowerWithoutUpper | app/app.js:80 | `toLowerCase` is the identity on a string without capitals |
| Text.TrimNoUpper | app/app.js:80 | `trim` introduces no capital letter |
| PasswordValidator.Validate | app/app.js:56 | `schema.validate(s)`: characterised by `ValidateEach` (every check agrees with its polarity) and `ValidateAppend` |
| PasswordValidator.ValidateAppend | app/app.js:53-55 | validating against appended schemas is validating against each part |
| PasswordValidator.ValidateRepeat | app/app.js:66-73 | a schema whose rule chain was appended k ≥ 1 times accepts exactly what one chain accepts, so repeated `saveUser` calls do not change validation |
| PasswordValidator.ValidateEach | app/app.js:73 | a schema accepts a string iff each of its checks agrees with its polarity |
| PasswordValidator.CountAtLeastOne | app/app.js:69-72 | a class count of at least one means some character of that class exists (used for `uppercase`, `lowercase`, `not().spaces()`) |
| PasswordValidator.CountAtLeastTwo | app/app.js:71 | `digits(2)` holds iff two different positions hold digits |
| Validation.NameValid | app/app.js:53-56 | the name schema accepts exactly the names of length 3 to 20 |
| Validation.PasswordValid | app/app.js:73 | `schemaPassword.validate` against one password chain; characterised in both directions by `PasswordRule` |
| Validation.PasswordRule | app/app.js:66-73 | the password schema accepts exactly: length 8 to 20, an upper-case letter, a lower-case letter, two digits, no whitespace (both directions) |
| Validation.AcceptedPasswordIsTrimmed | app/app.js:72-78 | an accepted password is unchanged by `trim`, so the hashed string is the validated one |
| Validation.NameCheckedBeforeNormalising | app/app.js:56-80 | the name " A " passes the name rule but is stored as "a" |
| Crypto.Compare | app/app.js:112 | `bcrypt.compareSync`: with `Hash`, a password matches a digest iff the digest was made from that password |
| Crypto.Hash | app/app.js:78 | the digest matches its own password under `Compare`, and no other password |
| Crypto.Sign | app/app.js:143-148 | the token carries exactly the payload and the key, and expires one hour after signing |
| Crypto.Verify | app/app.js:151-155 | verification succeeds iff the token is present, well formed, signed with the key and not expired, and it then yields the payload |
| Crypto.SignThenVerify | app/app.js:145-153 | a signed token verifies under its key until an hour has passed; under another key it fails with a bad signature |
| Responses.BuildResponse | app/app.js:176-184 | the reply has the given status, the JSON content type as its only header, and the payload as a JSON body |
| App.SigningKey | app/app.js:145 | the signing key is `JWT_SECRET` when that is non-empty, otherwise "OneStrongKey"; never empty |
| App.Normalize | app/app.js:80 | `name.toLowerCase().trim()`: no longer than the name, no capital letter left, and no whitespace at either end |
| App.NormalizeIdempotent | app/app.js:80 | normalising an already normalised name changes nothing |
| App.FirstFailure | app/app.js:50-77 | the failing check that answers a registration: missing fields first, then name, then email, then password; none iff every check passes |
| App.SaveUser | app/app.js:49-96 | success iff every check passes and `put` succeeds, independently of an existing record; the table then maps the email to `{trim(lower(name)), email, Hash(password)}` and nothing else changes; the echoed item is name and email only; on any failure the table is unchanged; a failed `put` gives no response |
| App.SaveUserRejects | app/app.js:50-77 | a registration that fails a check gets the 400 message of the first failing check and leaves the table unchanged |
| App.SaveUserKeepsKeys | app/app.js:81-85 | registration keeps every record stored under its own email |
| App.LoginUser | app/app.js:98-127 | 401 iff email or password is missing; success iff the email is stored and the password matches its hash; with credentials present and a successful `get`, an email that is not stored (an empty table included) or a wrong password gets 403 "User or password is incorrect"; a failed `get` crashes; a successful reply carries the stored name and email and a token signed over exactly those; every 403 reply is the same "User or password is incorrect" |
| App.VerifyToken | app/app.js:150-174 | 200 `{verified: true}` iff the token is signed with the key, is unexpired, and its email claim equals the supplied email, where an absent claim equals an absent email; every failure gives the same 400 `{verified: false, message: 'Invalid token'}` |
| App.RouteOf | app/app.js:21-45 | `GET /health`, `POST /register`, `POST /login` and `POST /verify` each select their own branch, and every other pair is unmatched |
| App.Handler | app/app.js:21-47 | `POST /register`, `/login` and `/verify` with a parsed body answer exactly as `SaveUser`, `LoginUser` and `VerifyToken` do; only a registration can change the table; health gives 200 "welcome lambda login!"; unmatched gives 404 "not found"; an unparsable body on a POST route fails the invocation |
| App.LoginService.constructor | app/app.js:13-15 | the service starts with the given well-keyed table, empty schemas and the configured signing key |
| App.LoginService.Register | app/app.js:49-96 | the method appends the name chain iff the fields are present, and the password chain iff the name and email checks also passed; it validates, hashes and writes as `SaveUser` describes; the schemas stay repetitions of one chain; a failed registration leaves the table unchanged |
| App.LoginService.GetUser | app/app.js:129-141 | the lookup fails iff `get` fails; otherwise it finds the stored item iff the email is a key |
| App.LoginService.Login | app/app.js:98-127 | the method answers as `LoginUser` does and, having no `modifies` clause, never writes the table |
| App.LoginService.Handle | app/app.js:21-47 | the method dispatches as `Handler` describes and keeps the service invariant; a `POST /register` with a parsed body appends the name chain iff the fields are present, and the password chain iff the name and email checks also passed; every other request leaves both schemas as they were |
| AppProperties.RegisterThenLogin | app/app.js:78-126 | after a successful registration, login with that email succeeds iff the password is the registered one, and returns the normalised name and the email |
| AppProperties.UnknownUserLooksLikeWrongPassword | app/app.js:107-116 | an unknown email and a wrong password produce identical 403 replies |
| AppProperties.IssuedTokenVerifies | app/app.js:143-173 | a token issued at time t passes `verifyToken` iff it is checked with the signing key, before t + 3600, against its own email |
| AppProperties.TokenWithoutEmailVerifies | app/app.js:151-170 | an unexpired token signed with the key over claims without an email verifies for a request without an email |
| AppProperties.LoginTokenVerifies | app/app.js:117-173 | on a well-keyed table, the token from a successful login verifies for the login email until an hour after the login |
| AppProperties.ReplyHeaders | app/app.js:21-47 | register, login and verify replies carry exactly the JSON content-type header and a JSON body; health and not-found replies have no headers and a text body |
| AppProperties.AcceptedRegistrationEchoes | app/app.js:78-92 | a registration that passes every check and whose `put` succeeds answers 200 with the normalised name and the email |
| AppProperties.TestPasswordAccepted | app/tests/app.test.js:14 | the test user's password "Test$2022" passes the password rule |
| AppProperties.TestNameUnchanged | app/tests/app.test.js:12 | the test user's name passes the name rule and normalises to itself |
| AppProperties.RegisterTestUser | app/tests/app.test.js:17-35 | registering the test user gives 200 and echoes `{name: "mytest2", email: "mytest2@gmail.com"}` with no password |
| AppProperties.ShortPasswordRejected | app/app.js:66-77 | the password "short1" is refused with the password message, and the table is unchanged |

## Left out

- AWS SDK configuration and the DynamoDB client are network I/O. The table is a map field, and the success or failure of `put` and `get` is an input. A failed `put` is assumed to write nothing.
- Request-body fields other than name, email, password and token are not modelled. `saveUser` stores the whole request body and echoes it back without the password. In the source, every other field is therefore stored and returned as well, and so is a `token` sent to `/register`. The model stores only the name, the email and the digest, and echoes only the name and the email.
- JSON values that are not strings are not modelled, and neither is the text of `JSON.parse` and `JSON.stringify`. Request and response bodies are structured values, and an unparsable body is a single case.
- `validator.isEmail` is library code that is not part of this model. It is an arbitrary predicate that the service is given.
- bcrypt internals are not modelled: random salts are an input, and cost 10 is only a constant. Constant-time comparison and the 72-byte input limit are not modelled either.
- jsonwebtoken internals are not modelled: HMAC, the header, and the `iat`/`exp` claims in the decoded payload. A token is a symbolic term, and the clock is an input in whole seconds.
- A signed `Token` always carries an expiry time. Anyone who holds the key can sign a token without `exp`, which the source accepts forever, or a token with a future `nbf`, which the source refuses. The model cannot represent either. The default key "OneStrongKey" is public, so when `JWT_SECRET` is unset anyone can mint such tokens, just as they can mint the email-less claims that `TokenWithoutEmailVerifies` covers.
- The signing secret is read from the environment once, when the service is created. The source reads it on every call.
- String lengths count Unicode scalar values. JavaScript counts UTF-16 code units, so the length rules differ for characters outside the Basic Multilingual Plane.
- `toLowerCase` only maps ASCII capitals. Other characters keep their case.
- The `password-validator` rules are modelled from their documented meaning, with ASCII upper-case, lower-case and digit classes. The library's regular expressions are not part of this model.
- `console.error` logging is not modelled. Neither are `async`/`await`, because the control flow is sequential.
- The `if (!user) return null` guard of `generateToken` is not modelled. Login always passes it an object, so the guard can never fire.
