# Acquisitions authentication core, modelled in Dafny

This project models the rule-bearing core of a small Express authentication
API and proves what those rules promise:

- **Input validation** (`auth_validation.dfy`, with the JavaScript string
  primitives in `js_string.dfy`). The signup and signin zod schemas become
  pure functions from a raw request body to `Ok(normalised record)` or
  `Err(issues)`. Each string chain runs its steps in the order they are
  written. A failed length check does not stop the chain. `trim()` and
  `toLowerCase()` rewrite the value that later steps see. Issues are listed
  property by property in the schema's key order. A failed signup parse is
  what the signup controller answers with 400; the source has no signin
  handler.
- **Validation-error formatting** (`validation_format.dfy`).
  `formatValidationError` is modelled as a recursive join of the issue
  messages. It has a fallback for a missing error or missing issues. It also
  has an abstract serialiser for issues that are not an array.
- **Role-tiered admission** (`security_middleware.dfy`). The security
  middleware is a pure function from the request user and the rate-limit
  provider's reply to an outcome: `Forbidden(message)`, `Next` or
  `ServerError(message)`. The provider is the function `protect` from the
  rule it is handed to its decision or a thrown failure.
- **Credential workflow** (`auth_service.dfy`). The `users` table is the
  state of a `UserStore` object. `CreateUser` and `AuthenticateUser` are
  methods proved against the specification functions `Create` and
  `Authenticate`. Lemmas about those functions prove:
  - duplicate rejection,
  - exactly one inserted row holding the hash,
  - the table invariant (unique emails, increasing ids),
  - the sign-up-then-sign-in round trip.

  bcrypt is a `Hasher` value: two function fields, `hash(password, cost,
  salt)` and `compare(password, hashed)`. The predicate `Sound` states the
  assumed contract that a password compares equal to any hash of itself.
  The round-trip lemma requires `Sound`. The random salt and the database
  clock are parameters.
- **Cookies** (`cookies.dfy`). The default attributes depend on the
  environment, which is a parameter. Caller options are spread over those
  defaults. `set` and `clear` each record a directive on a `Response`
  object. `get` is a map lookup on the request's parsed cookies.

`wrappers.dfy` holds the `Option` and `Result` datatypes.

Three behaviours of the code are easy to miss:

- The name's length bounds apply before trimming. A name of 2 to 100
  white-space characters is therefore accepted and becomes `""`
  (`AuthValidation.SignupBlankNameAccepted`).
- The service throws distinct errors for an unknown email
  ('User not found') and a wrong password ('Invalid password'). Collapsing
  them into one response is the controller's business, and the controller
  is not part of this model.
- The literals keep their spelling in the code: 'Validarion Failed',
  'Reqwest blocked by security policy', and two spaces in
  'Something went wrong from  security middleware'.

## Model

| member | source | states |
|---|---|---|
| AuthValidation.RunChain | src/validations/auth.validation.js:4-6 | a chain ending in trim yields a value with no edge white space and no longer than its input; the password chain returns its input unchanged; the signin email chain reports no problems |
| AuthValidation.ParseSignup | src/validations/auth.validation.js:3-8 | a rejected signup carries at least one issue; an accepted record's name and email have no edge white space |
| AuthValidation.ParseSignin | src/validations/auth.validation.js:10-13 | a rejected signin carries at least one issue; an accepted record's email has no edge white space |
| AuthValidation.SignupNameField | src/validations/auth.validation.js:4 | the signup name is accepted iff it is a string of 2 to 100 characters counted before trimming; the output is the trimmed string |
| AuthValidation.SignupBlankNameAccepted | src/validations/auth.validation.js:4 | a name of 2 to 100 white-space characters passes the length checks and comes out as the empty string |
| AuthValidation.SignupEmailField | src/validations/auth.validation.js:5 | the signup email is accepted iff it is a string of at most 100 characters, with no format check; the output is the lower-cased then trimmed string |
| AuthValidation.PasswordField | src/validations/auth.validation.js:6 | a password is accepted iff it is a string of 6 to 100 characters and is returned unchanged, not trimmed |
| AuthValidation.RoleFieldMeaning | src/validations/auth.validation.js:7 | the role is accepted iff it is absent, "user" or "admin"; absent gives user, "admin" gives admin |
| AuthValidation.RoleField | src/validations/auth.validation.js:7 | a rejected role yields at least one issue, all on property role |
| AuthValidation.StringField | src/validations/auth.validation.js:4-6 | a rejected string property yields at least one issue, all on that property |
| AuthValidation.SigninEmailField | src/validations/auth.validation.js:11 | the signin email is accepted iff it is a string, with no length cap; the output is lower-cased then trimmed |
| AuthValidation.SignupAccepts | src/validations/auth.validation.js:3-8 | signup accepts a body iff all four properties are accepted, and the record holds the trimmed name, the lower-cased trimmed email, the unchanged password and the role defaulting to user |
| AuthValidation.SignupOutputNormalised | src/validations/auth.validation.js:4-7 | an accepted signup record has an email with no edge white space, no upper-case letter and at most 100 characters, a name with no edge white space of at most 100 characters, and a password of 6 to 100 characters |
| AuthValidation.SigninAccepts | src/validations/auth.validation.js:10-13 | signin accepts a body iff the email is a string and the password a string of 6 to 100 characters; the email comes out lower-cased and trimmed with no edge white space, the password unchanged |
| AuthValidation.SignupIssuesOrdered | src/validations/auth.validation.js:3-8 | a rejected signup yields a non-empty issue list whose paths are the schema's properties, in key order name, email, password, role |
| JsString.Trim | src/validations/auth.validation.js:4 | trim's result has no white space at either end and is no longer than its input |
| JsString.ToLower | src/validations/auth.validation.js:5 | lower-casing keeps the length |
| JsString.TrimIsSlice | src/validations/auth.validation.js:4 | trim keeps one contiguous slice of its input and everything it removes is white space |
| JsString.TrimIdempotent | src/validations/auth.validation.js:4 | trimming twice equals trimming once |
| JsString.TrimFixesTrimmed | src/validations/auth.validation.js:4 | a string with no white space at either end is unchanged by trim |
| JsString.AllSpaceTrimsToEmpty | src/validations/auth.validation.js:4 | an all-white-space string trims to the empty string |
| JsString.ToLowerAt | src/validations/auth.validation.js:5 | lower-casing maps every character on its own |
| JsString.ToLowerNormalises | src/validations/auth.validation.js:5 | lower-cased output has no upper-case letter and lower-casing is idempotent |
| JsString.NoUpperTrim | src/validations/auth.validation.js:5 | trimming introduces no upper-case letter |
| JsString.LowerTrimNormalises | src/validations/auth.validation.js:11 | lower-case then trim yields a string with no upper-case letter, no edge white space and no more characters than the input |
| ValidationFormat.Join | src/validations/format.js:4 | the joined text starts with the first message and ends with the last |
| ValidationFormat.FormatValidationError | src/validations/format.js:1-7 | for an issues array, the text starts with the first issue's message and ends with the last one's |
| ValidationFormat.FormatFallback | src/validations/format.js:2 | a missing error or missing issues formats as 'Validarion Failed' |
| ValidationFormat.FormatShortArrays | src/validations/format.js:4 | an empty issues array formats as the empty string and a single issue as its message |
| ValidationFormat.JoinAppend | src/validations/format.js:4 | joining two non-empty message lists is joining each and putting one separator between them, so order is kept |
| ValidationFormat.JoinSeparatorCount | src/validations/format.js:4 | for n ≥ 1 messages none of which contains ', ', the joined text holds exactly n − 1 separators |
| ValidationFormat.SeparatorCountAppend | src/validations/format.js:4 | separators in a concatenation are those of each part plus one straddling the seam |
| ValidationFormat.FormatNonArray | src/validations/format.js:6 | issues that are present but not an array format as the serialisation of the whole error |
| ValidationFormat.SignupDetails | src/validations/format.js:4 | a rejected signup formats as the non-empty join of its issue messages |
| SecurityMiddleware.EffectiveRole | src/middleware/security.middleware.js:7 | the effective role is never empty |
| SecurityMiddleware.TierOf | src/middleware/security.middleware.js:12-25 | a tier limit, when set, is between 5 and 20, and the limit is set exactly when the message is |
| SecurityMiddleware.RuleFor | src/middleware/security.middleware.js:27-32 | the rule's max, when set, is between 5 and 20, and its name starts with the role |
| SecurityMiddleware.Respond | src/middleware/security.middleware.js:36-54 | a 403 happens only on a denied decision and carries the bot or the policy message; the 500 happens exactly when the provider threw |
| SecurityMiddleware.Gate | src/middleware/security.middleware.js:5-55 | the middleware answers 500 exactly when the provider throws on the role's rule, and 403 only when that rule's decision is a denial |
| SecurityMiddleware.EffectiveRoleDefaults | src/middleware/security.middleware.js:7 | the role is the request user's role when present and non-empty, guest otherwise |
| SecurityMiddleware.TierLimits | src/middleware/security.middleware.js:12-25 | guest 5, user 10, admin 20 requests per minute, so guest < user < admin |
| SecurityMiddleware.UnlistedRoleHasNoTier | src/middleware/security.middleware.js:12-25 | a role other than admin, user and guest leaves limit and message undefined |
| SecurityMiddleware.RuleShape | src/middleware/security.middleware.js:27-32 | the rule is live mode over one minute, its max is the tier limit, and its name is the role followed by -rate-limit |
| SecurityMiddleware.DenialPriority | src/middleware/security.middleware.js:36-49 | a bot denial answers 403 with the bot message regardless of the other reasons, a shield or rate-limit denial answers 403 with the policy message, and no denial admits |
| SecurityMiddleware.NextIffNoDenialBranch | src/middleware/security.middleware.js:50 | next() is called iff the provider answered and none of the three denial branches fires, including a denial for another reason |
| SecurityMiddleware.FailureIsServerError | src/middleware/security.middleware.js:51-54 | a provider failure yields the 500 with the fixed message and no next() |
| SecurityMiddleware.OutcomeDependsOnlyOnReply | src/middleware/security.middleware.js:15-23 | the tier message never affects the outcome: equal provider replies give equal outcomes |
| SecurityMiddleware.OutcomeShapes | src/middleware/security.middleware.js:36-54 | every outcome is one of the two 403s, next(), or the 500 |
| AuthService.HashPassword | src/services/auth.service.js:7-14 | hashing fails exactly when bcrypt fails, with 'Error hashing'; otherwise the result is bcrypt's hash at cost 10 |
| AuthService.ComparePassword | src/services/auth.service.js:16-23 | comparing fails exactly when bcrypt fails, with 'Error comparing password'; otherwise the result is bcrypt's answer |
| AuthService.FindByEmail | src/services/auth.service.js:27 | the lookup finds nothing iff no row has exactly that email, and otherwise a row with that email (the first in table order) |
| AuthService.LookupUnique | src/services/auth.service.js:48 | in a table with unique emails, any row with the email is the one the lookup finds, so the missing ORDER BY does not matter |
| AuthService.Create | src/services/auth.service.js:25-44 | a failed createUser leaves the table and the serial id as they were; a successful one appends one row with the given email and keeps the earlier rows |
| AuthService.Authenticate | src/services/auth.service.js:46-71 | a successful authentication returns a user with exactly the given email |
| AuthService.CreateRejectsDuplicate | src/services/auth.service.js:27-29 | an existing email gives 'user already exists' and leaves the table unchanged |
| AuthService.CreateHashFailure | src/services/auth.service.js:31 | a failed hash gives 'Error hashing' and leaves the table unchanged |
| AuthService.CreateInsertsOneRow | src/services/auth.service.js:31-39 | a new email appends exactly one row holding the hash, keeps the earlier rows, and returns id, name, email, role and createdAt with no password |
| AuthService.CreatePreservesValid | src/services/auth.service.js:25-44 | creating a user keeps emails unique and ids increasing |
| AuthService.UserStore.CreateUser | src/services/auth.service.js:25-44 | the call's result and the table afterwards are those of Create on the old table, and the table invariant holds |
| AuthService.NotFoundIffNoRow | src/services/auth.service.js:48-52 | authentication gives 'User not found' iff no row has exactly that email |
| AuthService.AuthenticateMeaning | src/services/auth.service.js:54-66 | authentication succeeds iff the first row with that email compares equal to the password, and then returns that same row's id, name, email and role; 'Invalid password' iff the comparison says no |
| AuthService.UserStore.AuthenticateUser | src/services/auth.service.js:46-71 | the call returns what Authenticate gives on the current table and changes nothing |
| AuthService.SignupThenSignin | src/services/auth.service.js:31-58 | under the bcrypt round-trip assumption, signing in with the email and password just signed up with returns the new user |
| Cookies.GetOptions | src/utils/cookies.js:2-7 | no default attribute is undefined |
| Cookies.Effective | src/utils/cookies.js:9 | every default attribute survives the merge, and only a caller-supplied key can be undefined |
| Cookies.DefaultOptions | src/utils/cookies.js:2-7 | the defaults are exactly httpOnly true, sameSite strict, maxAge 900000 ms (15 minutes), and secure iff the environment is production |
| Cookies.MergeKeyByKey | src/utils/cookies.js:9 | a caller-supplied key takes the caller's value, an unsupplied key keeps its default, and no other key appears |
| Cookies.NoOverridesKeepsDefaults | src/utils/cookies.js:8 | with the default empty options the attributes are the defaults |
| Cookies.Response.Set | src/utils/cookies.js:8-10 | set records one cookie directive with the merged attributes |
| Cookies.Response.Clear | src/utils/cookies.js:11-13 | clear records one clearing directive with the merged attributes |
| Cookies.SetThenClear | src/utils/cookies.js:8-13 | for the same caller options, set then clear issue directives for the same name with identical attributes |
| Cookies.Get | src/utils/cookies.js:14-16 | get returns the request's cookie for the name and is absent iff there is none |

## Left out

- JsString.ToLower: only ASCII letters are lower-cased. The full Unicode case mapping of toLowerCase is not modelled, so non-ASCII upper-case letters pass through unchanged.
- String lengths are counted in Unicode scalar values. JavaScript counts UTF-16 code units, so a character outside the Basic Multilingual Plane counts once here and twice in the source's min/max checks.
- A request body that is not an object, and keys the schemas do not name, are not modelled. zod rejects the first and strips the second.
- AuthValidation.Message: the messages are zod version 3's defaults; the zod version is not pinned in the source, and version 4 words them differently. Only the default messages for the issue kinds that occur are modelled. Issue fields other than path and message (code, exact, inclusive, type) are not.
- ValidationFormat.FormatValidationError: an issues array is modelled by its entries' messages as strings, so a message that is not a string stands for the text `join` renders for it (the empty string for null or undefined). An issues array holding a null or undefined entry, on which reading `message` throws, is not modelled. Only truthy issues that are not an array, of whatever shape, become the one case `OtherIssues`, whose text is the parameter `stringify` (JSON.stringify) applied to the whole error.
- SecurityMiddleware.Gate: the provider's sliding-window counting, bot detection and shield are external. They are the parameter `protect`, so the 6th-request-in-a-minute behaviour is the provider's and is not modelled. Exceptions thrown before the provider is called are folded into its failure.
- SecurityMiddleware.EffectiveRole: a truthy role that is not a string is not modelled. Roles are strings here.
- Logging (`logger.*`, `console.*`) everywhere is not modelled: it does not affect results.
- AuthService: database failures on select or insert are not modelled. The database supplies the serial id and the creation time; here they are `nextId` and the parameter `now`. The role's database default comes from the user model, which is not part of this model.
- AuthService: the lookup-then-insert race between concurrent signups is not modelled. Each call runs alone, which is what the uniqueness invariant relies on.
- AuthService.Sound: bcrypt salting and the cost factor are not interpreted. The round-trip contract is a hypothesis of `SignupThenSignin`, not an axiom. The salt is a parameter.
- Cookies.Response: Express's serialisation of the directives is not modelled, and neither is what Express's clearCookie does with a maxAge among the attributes.
- Cookies.Get: a request without parsed cookies (where `req.cookies` is undefined and the lookup throws) is not modelled.
- The controller, the JWT helpers and the database configuration are not part of this model.
