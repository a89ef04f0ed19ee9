# Session and sign-in logic of the lern-native app, modelled in Dafny

The app is a React Native front end. Almost all of it is layout. Three pieces
carry logic, and this project models them:

- **The session store** (`app/utils/auth.ts`). It keeps the auth token and the
  serialized user object under the keys `authToken` and `userData` of the
  device's key-value storage. `Session.SessionStore` is a class whose `entries`
  field is that storage, a `map<string, string>`. Each method performs the
  source's storage calls in the same order. It takes a `Fault` argument that
  says which call throws, if any. This makes the two-key writes visibly
  non-atomic: a save whose second write throws leaves the new token next to the
  old user data. A logout whose second removal throws leaves the user data
  behind. Spec functions (`AfterSave`, `AfterLogout`, `ReadToken`,
  `ReadUserData`, `LoggedIn`) give each operation's effect. The lemmas about
  them state the read-back, partial-failure and key-confinement properties.
- **The login screen's `onLogin`** (`app/login.tsx`). It has a guard chain
  (both fields present, then the e-mail rule), a request body, and an outcome
  for the reply: save the session and go to the tabs, or show a failure
  message. `Login.LoginScreen` holds the screen state and the handler:
  `loading`, logs of the `setLoading` calls, the posted bodies, the
  `saveAuthData` calls and the alerts, and the session store it saves to.
- **The signup screen's `onRegister`** (`app/signup.tsx`). Its guard chain
  checks, in order: all fields present, passwords equal, password length at
  least 6, then the e-mail rule. It also builds the register body, decides the
  outcome for the reply, and drives the two password-requirement indicators.
  `Signup.SignupScreen` holds the form and the handler.

Both guard chains are instances of `Validation.FirstFailure`: an ordered list
of checks in which the first failing one decides the message. The e-mail rule
`/^[^\s@]+@[^\s@]+\.[^\s@]+$/` appears twice. The first form is
`EmailRule.MatchesPattern`, read off the pattern's structure. The second is
`EmailRule.IsValidEmail`, stated by hand: exactly one `@`, no whitespace, a
non-empty local part, and a domain with a `.` that is neither its first nor its
last character. `EmailRule.IsValidEmailIffPattern` proves the two agree.
`JsText` models the JavaScript string behaviour these checks depend on:

- the `\s` class, which is also the set that `trim` strips;
- `length` counted in UTF-16 code units;
- the truthiness of `a || b`.

The remote service is not called. A handler receives the reply as an
`Api.Response` argument: either the request threw with an error message, or a
reply arrived with its `ok` flag and parsed body. An alert is recorded as a
value, with the route its OK button hands to `router.replace`.

In several places the model follows the code where a looser reading of the app
would differ:

- `onLogin` ignores the boolean returned by `saveAuthData`. It shows the
  success alert leading to the tabs even when nothing was stored
  (`Login.SaveFailureStillNavigates`).
- `isLoggedIn` is `!!token`, so an empty stored token counts as logged out.
- The signup guards check that the passwords match before they check the
  length.
- The required-fields check looks at the untrimmed name. A name made only of
  blanks therefore passes and is sent as `""` (`Signup.BlankNameSentEmpty`).
- On a non-2xx login reply the thrown message is never empty. The catch
  block's generic fallback therefore never replaces a server reply
  (`Login.GenericFailureOnlyForSilentThrow`).

## Model

| member | source | states |
|---|---|---|
| `JsText.TrimStart` | app/login.tsx:75 | the result is a suffix of the input, every dropped character is whitespace, and the result does not start with whitespace |
| `JsText.TrimEnd` | app/login.tsx:75 | the result is a prefix of the input, every dropped character is whitespace, and the result does not end with whitespace |
| `JsText.IsWhitespace` | app/signup.tsx:73 | the `\s` class of a JavaScript pattern: ECMAScript WhiteSpace and LineTerminator, the same set `trim` strips (definition) |
| `JsText.Trim` | app/signup.tsx:89-90 | `trim()` never lengthens a string, leaves no whitespace at either end, and leaves a string without whitespace unchanged |
| `JsText.TrimKeepsInfix` | app/signup.tsx:89-90 | the result of `trim()` is the infix `s[i..j]` with only whitespace before `i` and after `j` |
| `JsText.TrimIdempotent` | app/signup.tsx:89-90 | trimming twice is trimming once |
| `JsText.TrimBlank` | app/signup.tsx:89 | a string made only of whitespace trims to the empty string |
| `JsText.Utf16Length` | app/signup.tsx:68 | `length` counts UTF-16 code units: between the number of characters and twice it, and equal to it exactly when no character lies outside the Basic Multilingual Plane |
| `JsText.Utf16LengthAppend` | app/signup.tsx:68 | the length of a concatenation is the sum of the lengths |
| `JsText.Utf16LengthOfChar` | app/signup.tsx:68 | one character is one code unit inside the Basic Multilingual Plane and two outside it; with `Utf16LengthAppend` this fixes `length` on every string |
| `JsText.Or` | app/signup.tsx:98 | `o \|\| fallback` is the optional string when it is present and non-empty, otherwise the fallback; it is non-empty whenever the fallback is |
| `EmailRule.MatchesPattern` | app/signup.tsx:73 | `/^[^\s@]+@[^\s@]+\.[^\s@]+$/` read off its structure: a non-empty run, `@`, a non-empty run, `.`, a non-empty run, no run holding whitespace or `@` (definition) |
| `EmailRule.IsValidEmail` | app/login.tsx:59 | the hand-written form of the same rule: exactly one `@`, no whitespace, a non-empty local part, and a domain with an inner `.` (definition) |
| `EmailRule.IndexOfAt` | app/signup.tsx:73 | the index of the first `@`, or the length when there is none |
| `EmailRule.AllAddressCharsSlice` | app/signup.tsx:73 | a slice matches `[^\s@]*` exactly when each character it covers is neither whitespace nor `@` |
| `EmailRule.SoleAt` | app/signup.tsx:73 | an `@` that occurs nowhere else is the only one, and the first |
| `EmailRule.OnlyFirstAt` | app/signup.tsx:73 | when a string holds exactly one `@`, no other position holds one |
| `EmailRule.ValidEmailMatchesPattern` | app/signup.tsx:73-74 | every address accepted by the hand-written rule matches the pattern |
| `EmailRule.PatternMatchIsValidEmail` | app/login.tsx:59-60 | every string matching the pattern is accepted by the hand-written rule |
| `EmailRule.IsValidEmailIffPattern` | app/login.tsx:59-63 | the hand-written rule (one `@`, no whitespace, non-empty local part, domain with an inner `.`) accepts exactly what `/^[^\s@]+@[^\s@]+\.[^\s@]+$/` accepts |
| `EmailRule.ValidEmailIsTrimmed` | app/signup.tsx:73-90 | an accepted e-mail has no whitespace, so `email.trim()` in the body is the validated e-mail |
| `Validation.FirstFailure` | app/signup.tsx:58-77 | an ordered guard chain proceeds exactly when every check passes; otherwise its message is the message of a check that fails after all earlier checks passed |
| `Validation.EarliestFailureDecides` | app/login.tsx:54-63 | the earliest failing check decides the message, whatever the later checks say |
| `Signup.Checks` | app/signup.tsx:58-77 | the four guards as (condition, message) pairs in source order (definition) |
| `Signup.Validate` | app/signup.tsx:58-77 | the if-chain of `onRegister`'s guards (definition; see `Signup.ValidateIsFirstFailure` and `Signup.AcceptedIff`) |
| `Signup.ValidateIsFirstFailure` | app/signup.tsx:58-77 | `onRegister`'s guards are the checks required fields, match, length and e-mail, run in that order, and the first failure decides |
| `Signup.EmptyFieldRejected` | app/signup.tsx:58-61 | any empty field yields "All fields are required" |
| `Signup.MismatchReportedFirst` | app/signup.tsx:63-66 | with all fields filled, differing passwords yield "Passwords do not match", whatever the length and the e-mail |
| `Signup.ShortPasswordRejected` | app/signup.tsx:68-71 | a filled, confirmed password shorter than 6 code units yields the length message |
| `Signup.LongPasswordNotTooShort` | app/signup.tsx:68-71 | a password of 6 code units or more (exactly 6 included) is never rejected as too short |
| `Signup.EmailDecidesLast` | app/signup.tsx:73-77 | once the other guards pass, the form proceeds exactly when the e-mail rule accepts |
| `Signup.AcceptedIff` | app/signup.tsx:58-77 | the form passes exactly when all fields are filled, the passwords are equal, the length is at least 6 and the e-mail is accepted |
| `Signup.LengthIndicatorMet` | app/signup.tsx:262 | the "At least 6 characters" indicator: `length >= 6` in code units (definition) |
| `Signup.MatchIndicatorMet` | app/signup.tsx:275 | the "Passwords match" indicator: equal and non-empty (definition) |
| `Signup.AcceptedMeetsIndicators` | app/signup.tsx:262-275 | an accepted form shows both "At least 6 characters" and "Passwords match" as met |
| `Signup.RequestBody` | app/signup.tsx:88-92 | the register body: trimmed name, trimmed e-mail, the password as typed (definition) |
| `Signup.AcceptedBodyCarriesValidatedFields` | app/signup.tsx:88-92 | the register body carries the validated e-mail and the untrimmed password, which meets the length rule |
| `Signup.BodyIgnoresConfirmation` | app/signup.tsx:88-92 | the confirmation field never affects the register body |
| `Signup.BlankNameSentEmpty` | app/signup.tsx:58-89 | a name of blanks passes the required-fields guard and is sent as the empty string |
| `Signup.OutcomeOf` | app/signup.tsx:97-116 | only a 2xx reply leads on to login; a non-2xx reply shows the server's message or "Something went wrong"; a thrown request shows the connection message; every failure message is non-empty |
| `Signup.AlertFor` | app/signup.tsx:98-113 | a failure alert shows the outcome's title and message; the success alert shows "Success" and "Account created successfully!"; only the success alert carries a button, and it replaces the route with `/login` |
| `Signup.FailureStaysOnSignup` | app/signup.tsx:97-100 | a failed registration never navigates to login |
| `Signup.SignupScreen.constructor` | app/signup.tsx:28-32 | the form starts empty, not loading, with nothing sent or shown |
| `Signup.SignupScreen.OnRegister` | app/signup.tsx:56-120 | a rejected form shows one error alert and changes nothing else; no request, no `setLoading`; an accepted form posts exactly one body, calls `setLoading(true)` then `setLoading(false)`, and shows the outcome's alert; the form is unchanged and loading is off at the end |
| `Signup.SignupScreen.Submit` | app/signup.tsx:79-119 | the try/finally part: one posted body, loading raised then lowered, one alert for the reply |
| `Login.Checks` | app/login.tsx:54-63 | the two guards as (condition, message) pairs in source order (definition) |
| `Login.Validate` | app/login.tsx:54-63 | the if-chain of `onLogin`'s guards (definition; see `Login.ValidateIsFirstFailure`) |
| `Login.ValidateIsFirstFailure` | app/login.tsx:54-63 | `onLogin`'s guards are "both present" then the e-mail rule, run in that order, and the first failure decides |
| `Login.EmptyFieldRejected` | app/login.tsx:54-57 | an empty e-mail or password yields "Please enter both email and password" |
| `Login.EmailDecides` | app/login.tsx:59-63 | with both fields filled, the credentials proceed exactly when the e-mail rule accepts, else "Please enter a valid email address" |
| `Login.RequestBody` | app/login.tsx:74-77 | the login body: trimmed e-mail, the password as typed (definition) |
| `Login.AcceptedBodyIsVerbatim` | app/login.tsx:74-77 | for accepted credentials the login body is the e-mail and password exactly as typed |
| `Login.Surfaced` | app/login.tsx:108-111 | the catch block shows the error's message when it is non-empty, and exactly "Invalid credentials or server error" when it is empty |
| `Login.HasToken` | app/login.tsx:86 | `data.user && data.user.token`: a user is present and its token is non-empty (definition) |
| `Login.OutcomeOf` | app/login.tsx:82-111 | a thrown request fails with what the catch block surfaces for its message; a session is saved exactly for a 2xx reply whose user has a non-empty token, which is saved with that user; a non-2xx reply fails with the server's message or "Login failed"; a 2xx reply without a token fails with "No token received from server"; every failure message is non-empty |
| `Login.GenericFailureOnlyForSilentThrow` | app/login.tsx:82-111 | the generic fallback text appears for a server reply only if the server sent that very text |
| `Login.AlertFor` | app/login.tsx:92-111 | a failure alert is titled "Login Failed" and shows the outcome's message; the success alert is titled "Success" and shows the reply's notice (`data.message \|\| 'Login successful!'`); only the success alert carries a button, and it replaces the route with `/(tabs)` |
| `Login.SaveFailureStillNavigates` | app/login.tsx:87-98 | a reply with a token leads to the tabs even when the save's first write throws, and the user then stays logged out |
| `Login.SavesFor` | app/login.tsx:86-87 | `saveAuthData` is called once, with the token and the user, when the reply carries a token, and not at all otherwise |
| `Login.StorageAfter` | app/login.tsx:86-87 | the storage after an outcome: `AfterSave` for one that saves, unchanged otherwise (definition) |
| `Login.LoginScreen.constructor` | app/login.tsx:29-31 | the fields start empty, not loading, with nothing sent, saved or shown |
| `Login.LoginScreen.OnLogin` | app/login.tsx:53-115 | rejected credentials show one error alert and touch neither the requests, the loading flag, the saves nor the storage; accepted ones post exactly one body, call `setLoading(true)` then `setLoading(false)`, save at most once, update the storage as `saveAuthData` does, and show the outcome's alert whatever the save returned |
| `Login.LoginScreen.Submit` | app/login.tsx:65-114 | the try/finally part, given the outcome the reply leads to: one posted body, loading raised then lowered, the save and the storage effect exactly when the outcome saves, one alert |
| `Login.LoginScreen.Send` | app/login.tsx:65-78 | `setLoading(true)` is logged and exactly one body, the trimmed e-mail and the password, is posted |
| `Login.LoginScreen.StoreSession` | app/login.tsx:86-90 | for an outcome with a token, one `saveAuthData` call is recorded and the storage changes as `AfterSave` says; otherwise neither changes |
| `Login.LoginScreen.Settle` | app/login.tsx:92-114 | the alert is shown, then `setLoading(false)` is logged and loading is off |
| `Session.Lookup` | app/utils/auth.ts:20 | `getItem` yields the stored value, or nothing for a missing key |
| `Session.AfterSave` | app/utils/auth.ts:5-15 | a full save stores the token and the serialized user; when the second write throws, the new token sits next to the previous user data |
| `Session.AfterLogout` | app/utils/auth.ts:45-53 | a full logout removes both keys; when the second removal throws, the token is gone and the user data remains |
| `Session.ReadToken` | app/utils/auth.ts:18-25 | `getAuthToken` yields the stored token, or nothing when it is missing or the read throws |
| `Session.ReadUserData` | app/utils/auth.ts:28-36 | `getUserData` yields the parsed user only when the read succeeds and the stored value is present and non-empty; otherwise nothing |
| `Session.LoggedIn` | app/utils/auth.ts:39-42 | `isLoggedIn` holds exactly when a token is read and it is non-empty |
| `Session.SaveThenRead` | app/utils/auth.ts:5-20 | after a full save the token is read back, the user is read back when serialization round-trips, and the user is logged in exactly when the token is non-empty |
| `Session.PartialSaveMixesSessions` | app/utils/auth.ts:7-14 | after a save whose second write throws, the new token is read together with the previous user data |
| `Session.FailedSaveChangesNothing` | app/utils/auth.ts:7 | a save whose first write throws leaves the storage as it was |
| `Session.FailedLogoutChangesNothing` | app/utils/auth.ts:47 | a logout whose first removal throws leaves the storage, both keys included, as it was |
| `Session.SaveTouchesOnlySessionKeys` | app/utils/auth.ts:7-8 | saving changes no key other than `authToken` and `userData` |
| `Session.LogoutTouchesOnlySessionKeys` | app/utils/auth.ts:47-48 | logging out changes no key other than `authToken` and `userData` |
| `Session.LogoutClearsSession` | app/utils/auth.ts:45-52 | after a full logout neither the token nor the user is read back, and the user is logged out |
| `Session.PartialLogoutLeavesUserData` | app/utils/auth.ts:47-51 | when the second removal throws, the user is logged out but the user data is still read back; when the first throws, the storage is unchanged, so both keys remain and the same session is read |
| `Session.SessionStore.constructor` | app/utils/auth.ts:2 | the store wraps the given storage contents and serializer |
| `Session.SessionStore.SaveAuthData` | app/utils/auth.ts:5-15 | returns true exactly when neither write throws, and leaves the storage as `AfterSave` says |
| `Session.SessionStore.GetAuthToken` | app/utils/auth.ts:18-25 | returns what `ReadToken` says, changing nothing |
| `Session.SessionStore.GetUserData` | app/utils/auth.ts:28-36 | returns what `ReadUserData` says, changing nothing |
| `Session.SessionStore.IsLoggedIn` | app/utils/auth.ts:39-42 | returns true exactly when a token is read and it is non-empty |
| `Session.SessionStore.Logout` | app/utils/auth.ts:45-53 | leaves the storage as `AfterLogout` says and reports no error |

## Left out

- The HTTP requests, their headers and the API base URL (`app/config.ts`, `app.config.js`): a handler receives the reply, or the error thrown while fetching or parsing it, as an argument.
- `JSON.stringify` and `JSON.parse`: `Session.Codec` is a pair of functions this model does not define. The round trip is a precondition of `Session.SaveThenRead` only.
- The storage engine: storage is a map, and a storage call that throws is taken to change nothing.
- Lone surrogates: a Dafny `string` is a sequence of Unicode scalar values, while a JavaScript string is a sequence of UTF-16 code units and may hold an unpaired surrogate, which this model cannot represent. `JsText.Utf16Length` counts a character outside the Basic Multilingual Plane as its surrogate pair.
- JavaScript values that are not strings: `message` and `token` are optional strings, and the user's other fields are a string map.
- The press of an alert's OK button, the 100 ms `setTimeout` before `router.replace`, and the router itself: an alert records the route its button would replace.
- The `getAuthToken` read after the save in `onLogin` is performed, but its result only feeds a console log, which is not modelled. All `console` output is left out.
- React's asynchronous state updates: `setLoading` is an immediate assignment, logged in `loadingUpdates`.
- A second submit while a request is in flight: the source hides the button while `loading`, and the handlers require `!loading`.
- Rendering, styles, animations and the password-visibility toggles. Two indicator conditions are kept: `Signup.LengthIndicatorMet` and `Signup.MatchIndicatorMet`.
- `onSignup`, `onForgotPassword` and `goToLogin`: these are plain navigation or a fixed alert.
- `app/index.tsx`, `app/users.tsx`, the tab screens and `components/MyButton.tsx`: these are presentational, or are a single fetch followed by rendering.
