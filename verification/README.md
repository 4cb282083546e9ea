# oauthly token engine and registration validator, in Dafny

This project models two parts of the oauthly authorization server:

* **The token engine** (`JwtUtils`). It issues and validates signed compact tokens (JWS-signed JWTs, RFC 7515 / RFC 7519) for five uses. The integer claim `vt` tells them apart:
  * access token = 1
  * refresh token = 2
  * authorization code = 3
  * session cookie = 4
  * password-reset code = 5

  Every validator runs the same early-return guard chain:
  1. null check
  2. signature verification
  3. type tag
  4. expiry
  5. repository lookup (the user, or the grant and then its client)
  6. comparison of the credential fingerprint (`Objects.hash` over user or client fields)
  7. for authorization codes only, an exact match of the redirect URI (section 4.1.3 of RFC 6749)

  Every failure gives the same "invalid" result. Issuance builds the claim map one `put` at a time and signs it. `prepareToken` also builds the token response of section 5.1 of RFC 6749.
* **The registration validator** (`RegistrationValidator`). It checks a sign-up form against length bounds, the two duplicate lookups and the equality of the two password fields. It appends one (field, code) error per failed check to Spring's `Errors`, in check order. It also writes the normalised username and the lowercased email back into the form.

Files:

| file | module | contents |
|---|---|---|
| `wrappers.dfy` | `Wrappers` | `Option`: Java's nullable references |
| `claims.dfy` | `Claims` | claim values, the `(int)` and `(String)` claim reads, the signer/verifier `Codec` |
| `jwt_utils.dfy` | `JwtUtils` | entities, repositories, the `Engine`, claim schemas, the `prepare*` methods and the validators |
| `jwt_properties.dfy` | `JwtProperties` | round trips, expiry boundary, revocation, tag isolation, access/refresh behaviour |
| `scope_text.dfy` | `ScopeText` | `String.join(" ", scopes)` and its inverse |
| `java_text.dfy` | `JavaText` | whitespace, lowercasing, the username normalisation |
| `registration_validator.dfy` | `RegistrationValidator` | the form, the `Errors` accumulator, `supports`, `validate` |
| `registration_properties.dfy` | `RegistrationProperties` | which error is reported when, and in what order |

How the engine's collaborators are modelled:
* The engine's final fields become the `Engine` value:
  * the keyed signer/verifier, `codec`;
  * `Objects.hash`, as a function `objectsHash`;
  * the five TTLs.
* The clock is the parameter `now`, or `iat` at issuance. Both are seconds: `currentTimeMillis() / 1000`.
* The three repositories are read-only maps from id to record.
* Properties about issued tokens assume `Codec.RoundTrips()`, i.e. `verify(sign(c)) == Some(c)` for every claim map.
* Decoded claim values are numbers or strings. The `(int)` cast succeeds only for a number in 32-bit range, because the JSON decoder returns a `Long` for anything wider and the cast then throws. The `(String)` cast succeeds only for a string. Missing keys make either read fail. Every such failure ends in the same `null` / `INVALID` as a bad signature.

Where the code and the standards it follows differ, the model follows the code:
* **The code's own expiry guard is inclusive.** The guard is `exp < now`, so it still passes in the second that `exp` names. Section 4.1.4 of RFC 7519 asks that the current time be before `exp`. Whether the program as a whole accepts a token in that second depends on any expiry check inside the signature library's verifier, which is not modelled. `JwtProperties.UserTokenExpiryBoundary` states the behaviour of the code's guard.
* **`exp` must fit a Java `int`.** `exp` is issued as a `long` but read back with an `(int)` cast. A token whose `exp` is beyond 2^31 - 1 (after January 2038) is therefore rejected whatever the time (`JwtProperties.UserTokenBeyondInt32Rejected`). This rests on the JSON decoder returning `Integer` for values in int range and `Long` otherwise.

## Model

| member | source | states |
|---|---|---|
| `JwtUtils.PrepareUserToken` | app/config/JwtUtils.java:55-119 | The token signs the claim map {vt, exp = iat + TTL, hash = fingerprint of the user, user = id} for a cookie or reset code. Under a round-tripping codec it verifies back to exactly that map. |
| `JwtUtils.PrepareResetCode` | app/config/JwtUtils.java:55-68 | A reset code signs vt 5, exp = iat + expireResetCode, and the hash of (username, email, password, lastUpdateTime). It verifies back to those claims. |
| `JwtUtils.PrepareCookie` | app/config/JwtUtils.java:106-119 | A cookie signs vt 4, exp = iat + expireCookie, and the hash of (username, email, password). It verifies back to those claims. |
| `JwtUtils.PrepareCode` | app/config/JwtUtils.java:162-175 | An authorization code signs vt 3, exp = iat + expireAuthorizationCode, h = hash(client id, secret), g = grant id and r = redirect URI. It verifies back to those claims. |
| `JwtUtils.PrepareToken` | app/config/JwtUtils.java:237-260 | The access token signs vt 1 with exp = iat + expireAccessToken; the refresh token signs vt 2 with exp = iat + expireRefreshToken. Both carry the same h and grant. The response holds "bearer" and expireAccessToken. The scope is "" for a null list and the space-joined list otherwise, so an empty list gives "". For a non-empty list of space-free scope tokens, splitting the scope on spaces gives the list back. |
| `JwtUtils.ScopeString` | app/config/JwtUtils.java:259 | The scope of the response is "" for a null list. For a non-empty list of space-free scope tokens, splitting the scope on spaces gives the list back. |
| `JwtUtils.Decoded` | app/config/JwtUtils.java:71-75 | A null token yields no claims: the validators return before verification. |
| `JwtUtils.ValidateUserToken` | app/config/JwtUtils.java:70-155 | Null input gives null. A user is returned only when: the token verifies; vt is the expected tag; exp is readable and now <= exp; the `user` claim names a stored user and the result is that user; the `hash` claim equals the user's current fingerprint. |
| `JwtUtils.ValidateResetCode` | app/config/JwtUtils.java:70-104 | A reset code is accepted only if it verifies with vt = 5. |
| `JwtUtils.ValidateCookie` | app/config/JwtUtils.java:121-155 | A cookie is accepted only if it verifies with vt = 4. |
| `JwtUtils.ValidateCode` | app/config/JwtUtils.java:177-219 | A null code or a null redirect URI gives null. A grant is returned only when: vt = 3; the code is unexpired; grant g exists and is the result; its client exists; h equals hash(client.id, client.secret); claim r equals the supplied redirect URI. |
| `JwtUtils.GetTokenStatus` | app/config/JwtUtils.java:266-309 | The grant is null exactly when the status is INVALID, and null input is INVALID. VALID_ACCESS requires vt = 1 and VALID_REFRESH requires vt = 2. Either also requires: the token is unexpired, the grant and its client exist, and h matches the client. |
| `JwtProperties.UserTokenClaimsRead` | app/config/JwtUtils.java:61-65 | When exp fits an int, the claim reads of the validators recover exactly the tag, exp, user id and fingerprint that issuance put. |
| `JwtProperties.UserTokenAcceptance` | app/config/JwtUtils.java:55-155 | An issued cookie or reset code is accepted iff now <= exp and the stored user for its id has the same fingerprint value. The result is then the stored user. |
| `JwtProperties.ResetCodeRoundTrip` | app/config/JwtUtils.java:55-104 | validateResetCode(prepareResetCode(u)) is u before expiry, with u unchanged. |
| `JwtProperties.CookieRoundTrip` | app/config/JwtUtils.java:106-155 | validateCookie(prepareCookie(u)) is u before expiry, with u unchanged. |
| `JwtProperties.UserTokenExpiryBoundary` | app/config/JwtUtils.java:81-84 | An issued token is accepted at now = exp and refused at now = exp + 1. |
| `JwtProperties.UserTokenBeyondInt32Rejected` | app/config/JwtUtils.java:58-82 | A token whose exp does not fit an int is refused at every time. |
| `JwtProperties.CookieArgsChange` | app/config/JwtUtils.java:144 | The cookie fingerprint's arguments are equal iff username, email and password are all equal. |
| `JwtProperties.ResetArgsChange` | app/config/JwtUtils.java:93 | The reset fingerprint's arguments are equal iff the cookie's are equal and lastUpdateTime is equal. |
| `JwtProperties.CredentialChangeRevokes` | app/config/JwtUtils.java:91-96 | If the stored user's fingerprint now differs from the one at issuance, the token is refused at every time. |
| `JwtProperties.LastUpdateOnlyChange` | app/config/JwtUtils.java:93-144 | Changing only lastUpdateTime keeps an unexpired cookie valid, returning the updated record. A reset code is refused once its fingerprint differs. |
| `JwtProperties.TokenPurposesDisjoint` | app/config/JwtUtils.java:76-80 | No token is accepted by two validators: cookie vs reset code, either vs authorization code or getTokenStatus, and authorization code vs getTokenStatus. |
| `JwtProperties.CodeAcceptance` | app/config/JwtUtils.java:162-219 | An issued code is accepted iff it is unexpired, the grant exists, the grant's client exists and hashes as at issuance, and the redirect URI is the one issued. The result is then the grant. |
| `JwtProperties.CodeRedirectBinding` | app/config/JwtUtils.java:208-211 | A code issued for redirect URI r is refused for every other redirect URI. |
| `JwtProperties.CodeRoundTrip` | app/config/JwtUtils.java:162-212 | validateCode(prepareCode(id, secret, g, r), r) is g before expiry, when g's client has that id and secret. |
| `JwtProperties.GrantTokenStatus` | app/config/JwtUtils.java:266-302 | For a signed access or refresh token, getTokenStatus is (grant, VALID_ACCESS or VALID_REFRESH according to vt) iff: the token is unexpired, the grant and its client exist, and the client hashes to h. Otherwise it is (null, INVALID). |
| `JwtProperties.AccessRefreshDisjoint` | app/config/JwtUtils.java:297-302 | An issued access token is never reported as a refresh token, and an issued refresh token never as an access token. |
| `JwtProperties.AccessTokenLifetime` | app/config/JwtUtils.java:237-299 | An issued access token is VALID_ACCESS with its grant while now <= iat + expireAccessToken, and INVALID after. |
| `JwtProperties.RefreshOutlivesAccess` | app/config/JwtUtils.java:250-302 | After the access lifetime and within the refresh lifetime, the refresh token is VALID_REFRESH with its grant. |
| `ScopeText.Join` | app/config/JwtUtils.java:259 | `String.join(" ", scopes)`: an empty list gives "", one scope gives itself, and the first scope is a prefix of the result. `ScopeText.SplitJoin` is its inverse. |
| `ScopeText.SplitJoin` | app/config/JwtUtils.java:259 | Splitting the space-joined scope list on spaces gives back any non-empty list of space-free scope tokens (section 3.3 of RFC 6749). |
| `JavaText.IsWhitespace` | src/main/java/com/sebworks/oauthly/common/RegistrationValidator.java:28 | `Character.isWhitespace`: space, tab, line feed and carriage return are whitespace; ASCII letters and digits are not, and neither are the non-breaking spaces U+00A0, U+2007 and U+202F. |
| `JavaText.HasText` | src/main/java/com/sebworks/oauthly/common/RegistrationValidator.java:28 | `StringUtils.hasText`: an empty or all-whitespace string has no text; a string starting with a letter or digit has text. |
| `JavaText.ReplaceSeparators` | src/main/java/com/sebworks/oauthly/common/RegistrationValidator.java:33 | Length is kept. Each '-', '\' and '.' becomes '_', and every other character is kept. |
| `JavaText.Lower` | src/main/java/com/sebworks/oauthly/common/RegistrationValidator.java:41 | Length is kept, and every character is mapped to its lowercase form. |
| `JavaText.NormalizeUsername` | src/main/java/com/sebworks/oauthly/common/RegistrationValidator.java:33 | The normalised username has the input's length, contains no '-', '.' or '\', and has no ASCII uppercase letter. |
| `JavaText.NormalizeIdempotent` | src/main/java/com/sebworks/oauthly/common/RegistrationValidator.java:33 | Normalising a normalised username changes nothing. |
| `JavaText.LowerIdempotent` | src/main/java/com/sebworks/oauthly/common/RegistrationValidator.java:41 | Lowercasing a lowercased email changes nothing. |
| `RegistrationValidator.Supports` | src/main/java/com/sebworks/oauthly/common/RegistrationValidator.java:20-22 | supports is true exactly for the class RegistrationDto. |
| `RegistrationValidator.Errors.RejectValue` | src/main/java/com/sebworks/oauthly/common/RegistrationValidator.java:30 | Appends one (field, code) error and keeps all earlier ones. |
| `RegistrationValidator.RejectIfEmptyOrWhitespace` | src/main/java/com/sebworks/oauthly/common/RegistrationValidator.java:28 | Appends (field, NotEmpty) exactly when the value is empty or all whitespace. |
| `RegistrationValidator.UsernameTaken` | src/main/java/com/sebworks/oauthly/common/RegistrationValidator.java:34 | `findByUsernameNormalized(name) != null`: true whenever some stored account has that normalised username, and never for an empty repository. |
| `RegistrationValidator.EmailTaken` | src/main/java/com/sebworks/oauthly/common/RegistrationValidator.java:42 | `findByEmail(email) != null`: true whenever some stored account has that email, and never for an empty repository. |
| `RegistrationValidator.CheckUsername` | src/main/java/com/sebworks/oauthly/common/RegistrationValidator.java:28-36 | Appends the username errors, in order, and stores the normalised username. |
| `RegistrationValidator.CheckEmail` | src/main/java/com/sebworks/oauthly/common/RegistrationValidator.java:37-44 | Appends the email errors, in order, and stores the lowercased email. |
| `RegistrationValidator.CheckPassword` | src/main/java/com/sebworks/oauthly/common/RegistrationValidator.java:46-53 | Appends the password and confirmation errors, in order. |
| `RegistrationValidator.Validate` | src/main/java/com/sebworks/oauthly/common/RegistrationValidator.java:25-54 | The old errors are kept and the form's errors are appended after them; nothing is removed. The normalised username and the lowercased email are stored. Username, password and confirmation are unchanged. |
| `RegistrationProperties.RegistrationErrorsMembership` | src/main/java/com/sebworks/oauthly/common/RegistrationValidator.java:25-54 | Each of the eight (field, code) errors is reported exactly when its rule fails, and no other error is ever reported. |
| `RegistrationProperties.UsernameSizeRule` | src/main/java/com/sebworks/oauthly/common/RegistrationValidator.java:29-31 | Size.userForm.username is reported iff the username length is < 3 or > 20. |
| `RegistrationProperties.EmptyUsernameRule` | src/main/java/com/sebworks/oauthly/common/RegistrationValidator.java:28-31 | An empty username yields NotEmpty, then Size.userForm.username, as the first two errors. |
| `RegistrationProperties.DuplicateUsernameRule` | src/main/java/com/sebworks/oauthly/common/RegistrationValidator.java:33-36 | Duplicate.userForm.username is reported iff a stored account has the normalised username. |
| `RegistrationProperties.InvalidEmailRule` | src/main/java/com/sebworks/oauthly/common/RegistrationValidator.java:37-39 | Invalid.userForm.email is reported iff the email validator refuses the address as typed. |
| `RegistrationProperties.DuplicateEmailRule` | src/main/java/com/sebworks/oauthly/common/RegistrationValidator.java:41-44 | Duplicate.userForm.email is reported iff a stored account has the lowercased email. |
| `RegistrationProperties.PasswordSizeRule` | src/main/java/com/sebworks/oauthly/common/RegistrationValidator.java:47-49 | Size.userForm.password is reported iff the password length is < 4 or > 32. |
| `RegistrationProperties.PasswordConfirmRule` | src/main/java/com/sebworks/oauthly/common/RegistrationValidator.java:51-53 | Diff.userForm.passwordConfirm is reported iff the confirmation differs from the password. |
| `RegistrationProperties.NotEmptyRule` | src/main/java/com/sebworks/oauthly/common/RegistrationValidator.java:28-46 | NotEmpty on username, or on password, is reported iff that field is empty or all whitespace. |
| `RegistrationProperties.OutcomesInCheckOrder` | src/main/java/com/sebworks/oauthly/common/RegistrationValidator.java:25-54 | Whatever the outcome of the eight checks, the resulting fields are ordered username, email, password, passwordConfirm. |
| `RegistrationProperties.ErrorsInCheckOrder` | src/main/java/com/sebworks/oauthly/common/RegistrationValidator.java:25-54 | The errors of every form come in check order: username, then email, then password, then passwordConfirm. |
| `RegistrationProperties.LoweredEmailHasNoUpper` | src/main/java/com/sebworks/oauthly/common/RegistrationValidator.java:41 | The stored email has no ASCII uppercase letter. |

## Left out

- Signing and verification (`JWTSigner`/`JWTVerifier`, HMAC with the configured secret) are an abstract `Codec` whose only assumed property is the round trip. Tamper resistance is not modelled.
- The verifier is given no notion of time. Any expiry check inside the signature library is not part of the model, only the code's own `exp < now` guard.
- `Objects.hash` is the function field `Engine.objectsHash`. The model does not fix the hash algorithm, so revocation by credential change is stated under the hypothesis that the fingerprint value changed. A collision is not excluded.
- Configuration loading in the constructor becomes the `Engine` value. `getExpireCookie` is its `expireCookie` field.
- `Logger.error` in the catch-all branches is a side effect only and is not modelled; its call returns the same null/INVALID.
- Failed casts and null dereferences all fold into the one invalid outcome. A null claim such as `user`, `g` or `grant` is treated as "not found".
- Java `long` overflow of `iat + TTL` is not modelled: times are unbounded integers.
- A null user id, grant id or redirect URI given to an issuance method is not modelled; the parameters are strings. So are null entries in the scope list, which `String.join` would write as "null".
- The repositories are read-only maps. Their own behaviour on a null id is not modelled.
- `EmailValidator.getInstance().isValid` (Apache Commons) is the predicate parameter `isValidEmail`.
- DTO fields are non-null strings, since a null would make `validate` throw.
- String lengths count Dafny characters. This agrees with Java's UTF-16 `length()` except for characters outside the Basic Multilingual Plane.
- JavaText.Lower: lowercases only the ASCII letters A-Z. Java's `toLowerCase(Locale.ENGLISH)` also maps non-ASCII uppercase letters, and some of those mappings change the length (U+0130 becomes "i" followed by U+0307). The length-preservation clauses of `JavaText.Lower` and `JavaText.NormalizeUsername` therefore hold for this ASCII lowercasing only.
- RegistrationProperties.LoweredEmailHasNoUpper: states the absence of ASCII uppercase letters only, following `JavaText.Lower`. Non-ASCII uppercase letters in the stored email are not ruled out.
- The `(RegistrationDto) o` cast at the start of `validate` throws `ClassCastException` for any other object. `RegistrationValidator.Validate` takes a `RegistrationDto`, so that failure is not modelled.
- JavaText.NormalizeUsername: "no uppercase letter" means no ASCII uppercase letter, following `JavaText.Lower`.
- RegistrationValidator.RejectIfEmptyOrWhitespace: takes the field's value directly rather than reading it back from the bound object, as Spring's `Errors.getFieldValue` does.
- `app/models/Scope.java` is a getter/setter class with no behaviour and is not part of this model.
