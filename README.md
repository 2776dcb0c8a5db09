# Login gateway: login decision and request schemas

This project models the core of a small Express login backend: the `loginUser`
handler and the joi schemas `loginSchema` and `registerSchema`.

A login request's body is validated against `loginSchema`. Validation uses
`abortEarly: false`, so every violation is reported, and `stripUnknown: true`,
so undeclared keys are dropped. On failure the handler answers 400 with one
message per violation. Otherwise it signs in at the identity provider (Firebase)
with the cleaned email and password. It then signs a JWT carrying `{uid, email}`
that expires after 24 hours, and answers 201 with the token and the user. Any
thrown error is classified by its `code`. A code starting with `auth/` gets 401
and a fixed user-facing message. Anything else gets 500 with the error's message
as `debug`.

Both source files are pure decisions, so the model is datatypes, functions and
lemmas:

- `wrappers.dfy`: module `Wrappers`, an `Option` type.
- `auth_schema.dfy`: module `AuthSchema`, modelling `src/schema/authSchema.js`.
  It holds the JSON body, the two schemas, joi's per-field check, the
  all-violations validator, key stripping and the detail messages.
- `controllers.dfy`: module `Controllers`, modelling `src/controllers.js`.
  It holds the error classifier `MapAuthError`, the handler `LoginOutcome`, and
  the path classification `PathOf` used to state that every request gets exactly
  one of four responses.

The handler's collaborators are parameters of `LoginOutcome`:

- `isEmail` is joi's email-format test.
- `signIn` is the provider's answer for the credentials it is given.
- `sign` is `jwt.sign`'s answer for the claims it is given. It can throw, for
  example when no secret is configured.

A body is a map from keys to JSON values. A value is either a string or
`NonString`, which stands for any other JSON value; joi's `string()` rejects
all of those alike.

Behaviour the source takes from joi and JavaScript, modelled explicitly:

- For each field, joi checks presence first (`is required`), then the type
  (`must be a string`), then emptiness (`is not allowed to be empty`). The
  first of these that fails ends the field. Otherwise joi runs every rule of
  the field (email format, or `min` and `max` length). `min(6)` and `max(128)`
  cannot both fail, so each field yields at most one detail. Fields are checked
  in declaration order. The detail messages use joi's default English
  templates.
- A string's length is JavaScript's `length`: the number of UTF-16 code units.
  A character outside the Basic Multilingual Plane therefore counts twice
  (`Utf16Length`, `AstralPasswordCountsTwice`).

## Model

| member | source | states |
|---|---|---|
| `AuthSchema.Utf16Length` | src/schema/authSchema.js:5 | The length that `min`/`max` compare is between the number of characters and twice that number. |
| `AuthSchema.Utf16LengthInBmp` | src/schema/authSchema.js:5 | The measured length equals the character count exactly when every character is a single UTF-16 code unit. |
| `AuthSchema.CheckRule` | src/schema/authSchema.js:4-5 | A non-empty string passes a rule iff it is in email format (email rule) or its length is within `[min, max]` (length rule). A failure reports `email` for the email rule, `min` when the string is too short, and `max` only when it is long enough but too long. |
| `AuthSchema.CheckField` | src/schema/authSchema.js:4-5 | A field reports no violation iff the key is present, holds a non-empty string and meets its rule. Any violation carries the field's key. It is `Required` iff the key is absent and `NotAString` iff the value is not a string. An empty string gives `Empty`. A non-empty string that fails gives its rule's own violation. |
| `AuthSchema.Violations` | src/controllers.js:9-12 | Each declared field yields at most one detail. |
| `AuthSchema.ViolationsEmptyIff` | src/controllers.js:9-15 | No error is reported iff every declared field accepts the body. |
| `AuthSchema.ViolationsComplete` | src/controllers.js:10 | Every failing field is reported, not only the first (`abortEarly: false`). |
| `AuthSchema.ViolationsSound` | src/controllers.js:9-12 | Every reported detail is the violation of some declared field. |
| `AuthSchema.ViolationsAppend` | src/controllers.js:9-12 | The details of a schema made of two parts are the first part's followed by the second's, so details come in declaration order. |
| `AuthSchema.ViolationsIgnoreUndeclared` | src/controllers.js:11 | Bodies that agree on the declared keys get the same details. |
| `AuthSchema.Strip` | src/controllers.js:11 | The cleaned value keeps exactly the body's entries whose keys the schema declares, with their values unchanged (`stripUnknown`). |
| `AuthSchema.Validate` | src/controllers.js:9-12 | The cleaned value's keys are declared keys, and the details are empty iff every field accepts the body. |
| `AuthSchema.ValidateCleanedValue` | src/controllers.js:9-12 | Validating the cleaned value again gives the same details and the same value. |
| `AuthSchema.Message` | src/controllers.js:19 | Every detail message begins with the quoted key of its field. |
| `AuthSchema.Messages` | src/controllers.js:19 | `details.map(d => d.message)` gives one message per detail, in the same order. |
| `AuthSchema.LoginValidation` | src/schema/authSchema.js:3-6 | A login body passes iff `email` is a present, non-empty string in email format and `password` is a present string of length 6 to 128. |
| `AuthSchema.CleanedKeysDeclared` | src/schema/authSchema.js:3-12 | The cleaned login value has keys within `{email, password}`. The cleaned register value has keys within `{email, password, confirmPassword}`. |
| `AuthSchema.EmptyLoginBodyReportsBothFields` | src/schema/authSchema.js:3-6 | An empty login body reports `"email" is required` and then `"password" is required`. |
| `AuthSchema.PasswordLengthBounds` | src/schema/authSchema.js:5 | A string password is accepted iff its length is 6 to 128. It is reported as empty at length 0, as too short (limit 6) at lengths 1 to 5, and as too long (limit 128) above 128. |
| `AuthSchema.PasswordLengthBoundaries` | src/schema/authSchema.js:5 | For single-code-unit characters, lengths 5 and 129 are rejected and lengths 6 and 128 are accepted. |
| `AuthSchema.AstralPasswordCountsTwice` | src/schema/authSchema.js:5 | A password of three emoji has length 6 and is accepted. |
| `AuthSchema.RegisterExtendsLogin` | src/schema/authSchema.js:8-12 | The register schema is the login schema with `confirmPassword` appended. It has the same email and password rules, `confirmPassword` has the same 6 to 128 bounds, and its details are login's followed by `confirmPassword`'s. |
| `AuthSchema.RegisterDoesNotCompareConfirmation` | src/schema/authSchema.js:8-12 | Every body with a valid email and two different passwords, each of length 6 to 128, passes register validation: equality is not a schema constraint. |
| `AuthSchema.EmailFieldReports` | src/schema/authSchema.js:4 | A string email is reported as empty when it is `""` and as not an email when it is non-empty and fails the format test. Otherwise it is accepted. |
| `AuthSchema.EmailMessages` | src/controllers.js:19 | The 400 messages for those reports are `"email" is not allowed to be empty` and `"email" must be a valid email`. |
| `Controllers.AuthErrorTable` | src/controllers.js:59-76 | The four known codes map to their fixed messages. The message is `Authentication failed` iff the code is not one of the four. |
| `Controllers.MapAuthError` | src/controllers.js:56-87 | The catch block never reports success, answers 401 or 500, and answers 401 iff the error is a provider authentication error. |
| `Controllers.MapAuthErrorClassifies` | src/controllers.js:58-87 | An `auth/` code gives 401 with the table's message and no `debug`. Any other error gives 500, `Internal server error` and `debug` equal to the error's message. |
| `Controllers.NonAuthCodes` | src/controllers.js:58 | An absent code, an empty code, and codes without the `auth/` prefix are not authentication errors. The bare `auth/` is one. |
| `Controllers.LoginOutcome` | src/controllers.js:6-89 | The status is one of 201, 400, 401 and 500. Success holds iff the status is 201, `errors` is present iff it is 400, and `debug` is present iff it is 500. |
| `Controllers.ExactlyOneResponse` | src/controllers.js:15-87 | Validation failure, success, authentication error and other error are exclusive, and every input takes one of them. The status identifies which, and `errors`, `data`, `debug` and `success` appear exactly on their own branch. |
| `Controllers.CleanedCredentials` | src/controllers.js:24 | For a valid payload, the cleaned value holds the body's own `email` and `password`. |
| `Controllers.ValidationFailureResponse` | src/controllers.js:15-21 | An invalid payload gives 400, `success=false` and `Validation failed`, with one message per detail (at least one), in order. It has no `data` and no `debug`. |
| `Controllers.ValidationFailureIgnoresProvider` | src/controllers.js:15-27 | When validation fails, the response does not depend on the provider or the signer. |
| `Controllers.SignInSeesOnlyCredentials` | src/controllers.js:24-27 | Providers that answer alike for the body's email and password give the same response. |
| `Controllers.UndeclaredKeysIgnored` | src/controllers.js:11 | Bodies that agree on `email` and `password` get the same response, whatever other keys they carry. |
| `Controllers.SuccessResponse` | src/controllers.js:27-54 | Success holds iff the payload is valid, sign-in succeeds and signing succeeds. The success response is 201 `Login successful`, carrying the provider's uid, email and emailVerified and the token signed for exactly `{uid, email}` with an 86400-second lifetime. |
| `Controllers.SignInFailureResponse` | src/controllers.js:56-87 | A sign-in failure after a valid payload is answered by the error classifier. |
| `Controllers.SignFailureResponse` | src/controllers.js:31-40 | When signing the token throws after a successful sign-in, the error classifier answers. An error without a code, such as a missing signing secret, therefore gives 500 with its message as `debug`. |

## Left out

- `index.js` (Express bootstrap, CORS, body parsers, `listen`), `src/routes.js` (one route) and `eslint.config.mjs`: plumbing and configuration with no decision logic.
- Firebase sign-in and `jwt.sign` are parameters of `LoginOutcome`. The provider's behaviour, the HMAC signature and the `JWT_SECRET` environment variable are not modelled. The token is the signer's opaque answer for the claims it receives.
- joi's email grammar is the parameter `isEmail`.
- The joi exception that lets `''` through a field with `min(0)`: no field here has a zero minimum.
- A request body that is not a JSON object: the model's body is always an object. A top-level JSON array, which `express.json()` (index.js:13) accepts, fails `joi.object()`'s type check and is answered 400 with `"value" must be of type object`. An absent body becomes `{}` under Express 4's body parser, so it gets the two `is required` details the model gives for `{}`. A framework that leaves `req.body` undefined would let `undefined` through validation. The destructuring at src/controllers.js:24 would then throw, giving 500. The source does not pin the Express version.
- `AuthSchema.CheckRule`: for a length range whose minimum exceeds its maximum, it reports only the minimum, whereas joi would report both bounds. Neither schema has such a range.
- A non-string `error.code`: `startsWith` would throw inside the `catch` and no response would be written. Firebase codes are strings.
- Lone UTF-16 surrogates in strings: Dafny characters are Unicode scalar values.
- `async`/`await` and writing to the Express `res` object: each branch writes once, so the response is a returned value.
- `registeruser` (src/controllers.js:91-93) has an empty body and is not exported, so there is nothing to model. `registerSchema` is modelled.
- Behaviour this code does not have is not modelled: no bearer-token short-circuit, no 403 for an unverified email, and no registration, email-verification, resend or logout handlers.
