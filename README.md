# TapIt authentication and session core in Dafny

This project models the sign-in and session logic of the TapIt link-in-bio
application: a Next.js front end on Firebase Authentication and Cloud
Firestore. It covers:

- the session context: the `user`, `userData` and `initialLoad` state cells,
  the auth-state callback and `createMissingUserProfile` with its username
  sanitiser;
- the dashboard route gate;
- the authentication helpers: profile creation, the error-code-to-message
  mappings, the email/password and Google flows with the popup-to-redirect
  fallback, and the retrying Google profile loop;
- the login and sign-up forms: validation, redirect targets, submit guards
  and the once-only redirect-result check;
- the best-effort `UserLookup` write;
- the password-reset request that stores a `resetKeys` document.

Firestore is a `Database` class with three map-valued collections
(`AccountData`, `UserLookup`, `resetKeys`). Every auth-service and Firestore
call is an oracle parameter: a `Result`, or an `Option<FirebaseError>`
where `None` means the call succeeded. A JavaScript `Error` thrown with a
message only is a `FirebaseError` with the empty code.

Where the source mutates state (the context's cells, the forms' cells and
ref, the collections, the retry loop) the model is a method. Each such method
is proved against pure functions of the old state: its own specification
function, or, for the page handlers, the functions that specify the helper
they call. The properties are stated about those functions.

Files, one module each:

- `jstext.dfy` (`JsText`): the JavaScript string operations the core uses —
  `\s`, `toLowerCase`, `split`, `includes`, UTF-16 `length` and
  truthiness.
- `firebase.dfy` (`Firebase`): documents, errors, the auth identity and the
  collections.
- `user_lookup.dfy` (`UserLookup`): lib/userLookup.js.
- `auth_context.dfy` (`AuthContext`): lib/contexts/AuthContext.js.
- `dashboard_layout.dfy` (`DashboardLayout`): app/dashboard/layout.jsx.
- `firebase_auth.dfy` (`FirebaseAuth`): lib/authentication/firebaseAuth.js.
- `url_query.dfy` (`UrlQuery`): `URLSearchParams.get` as the pages read
  their query.
- `login_form.dfy` (`LoginForm`): app/login/componets/LoginForm.jsx.
- `signup_form.dfy` (`SignupForm`): app/signup/componets/SignupForm.jsx.
- `send_reset_url.dfy` (`SendResetUrl`): lib/authentication/sendResetUrl.js.

## Model

| member | source | states |
|---|---|---|
| JsText.RemoveWhitespace | lib/contexts/AuthContext.js:16 | `replace(/\s+/g, '')` leaves no whitespace and keeps every other character, with its count |
| JsText.RemoveWhitespaceChar | lib/contexts/AuthContext.js:16 | one character is removed exactly when it is whitespace |
| JsText.RemoveWhitespaceAppend | lib/contexts/AuthContext.js:16 | the removal works piece by piece over concatenation, so the kept characters stay in order |
| JsText.ToLowerCase | lib/contexts/AuthContext.js:16 | `toLowerCase` is never shorter than its input and is empty exactly when the input is; with the two lemmas below it is the character-by-character map of `LowerChar` |
| JsText.ToLowerCaseChar | lib/contexts/AuthContext.js:16 | a one-character string is lower-cased as its character (`LowerChar`: A-Z to a-z, U+0130 to `i` plus a combining dot, U+212A to `k`) |
| JsText.ToLowerCaseAppend | lib/userLookup.js:28 | `toLowerCase` works piece by piece over concatenation, keeping the characters in order |
| JsText.KeepLowerAlnum | lib/contexts/AuthContext.js:16 | `replace(/[^a-z0-9]/g, '')` leaves only `[a-z0-9]` and keeps each such character with its count |
| JsText.KeepLowerAlnumFixpoint | lib/contexts/AuthContext.js:16 | stripping leaves a string unchanged exactly when it is already in `[a-z0-9]*` |
| JsText.LowerOfAsciiAlnum | lib/contexts/AuthContext.js:16 | lower-casing ASCII letters and digits gives `[a-z0-9]` characters, one for one |
| JsText.BeforeFirst | lib/contexts/AuthContext.js:16 | `split('@')[0]` is a prefix without `@`, the whole string when there is no `@`, and otherwise stops right at the first `@` |
| JsText.IncludesChar | app/login/componets/LoginForm.jsx:88 | `includes` of a one-character string is membership |
| JsText.Utf16Length | app/login/componets/LoginForm.jsx:89 | `length` counts UTF-16 code units: between the character count and twice it, and equal to it for Basic Multilingual Plane text |
| JsText.Utf16LengthChar | app/login/componets/LoginForm.jsx:89 | one character counts 2 outside the Basic Multilingual Plane and 1 inside it |
| JsText.Utf16LengthAppend | app/login/componets/LoginForm.jsx:89 | lengths add up over concatenation |
| JsText.Utf16LengthAstral | app/login/componets/LoginForm.jsx:89 | a string of characters outside the Basic Multilingual Plane has twice as many code units as characters |
| Firebase.EmailLocalPart | lib/contexts/AuthContext.js:20 | the email part before `@`, or `None` exactly when the email is `null` and `split` throws |
| UserLookup.TopLevelId | lib/userLookup.js:28 | `doc(lookupRef, key)` names a top-level document only when the key has no `//`; that ID is non-empty, has no `/` and is the key's only non-empty `/`-segment; a key without `/` is its own ID |
| UserLookup.LeadingSlashDropped | lib/userLookup.js:28 | a leading slash is dropped: `/name` writes the document `name` |
| UserLookup.TrailingSlashDropped | lib/userLookup.js:28 | a trailing slash is dropped: `name/` writes the document `name` |
| UserLookup.InnerSlashWritesNothing | lib/userLookup.js:28 | two names joined by one slash write no top-level document |
| UserLookup.LookupKey | lib/userLookup.js:15-28 | a key exists exactly when uid and username are non-empty, the username is a string and its lower-cased form names a top-level document; the key is that form's only non-empty segment, and the lower-cased username itself when it has no `/` |
| UserLookup.LookupAfter | lib/userLookup.js:15-36 | the guard, a key naming no top-level document or a failed write leaves the table unchanged; otherwise exactly one entry, under the key, becomes `{uid}` and no other changes |
| UserLookup.LookupOverwritesOwner | lib/userLookup.js:28 | an entry owned by another uid is overwritten: no uniqueness check, the table does not grow |
| UserLookup.UpdateUserLookup | lib/userLookup.js:15-36 | the new table is `LookupAfter` of the old one; the method never fails |
| AuthContext.SafeUsername | lib/contexts/AuthContext.js:16 | the username is all `[a-z0-9]`; it comes from the whitespace-free lower-cased display name when that is non-empty, else from the email part; `None` exactly when both are missing |
| AuthContext.NameCandidateNonEmpty | lib/contexts/AuthContext.js:16 | the display-name path is taken exactly when the name has a non-whitespace character |
| AuthContext.AsciiNameKeptWhole | lib/contexts/AuthContext.js:16 | an ASCII alphanumeric display name yields that name lower-cased without whitespace |
| AuthContext.EmailPathDropsUpperCase | lib/contexts/AuthContext.js:16 | on the email path an upper-case letter is dropped, not lower-cased: each lower-case letter occurs as often as in the email part |
| AuthContext.EmailPathExample | lib/contexts/AuthContext.js:16 | the email `Ab@x` with no display name gives the username `b` |
| AuthContext.MissingProfile | lib/contexts/AuthContext.js:16-27 | the default record has the eight fields, the sanitised username, `links = []` and theme "Lake White"; it exists exactly when a username can be built |
| AuthContext.CreateMissing | lib/contexts/AuthContext.js:15-32 | success exactly when the record can be built and written; on success the profile and the lookup entry are written, on failure nothing is |
| AuthContext.CreateMissingUserProfile | lib/contexts/AuthContext.js:15-32 | result and collections are those of `CreateMissing` |
| AuthContext.AuthStateChanged | lib/contexts/AuthContext.js:42-70 | loading ends; identity and profile are both present or both absent; signed in exactly when an identity arrived and nothing threw; an existing profile is used and nothing is written; a missing profile is created as `createMissingUserProfile` does and the created record becomes the profile; a write happens only for a missing profile and writes the default record |
| AuthContext.Pending | lib/contexts/AuthContext.js:45 | while the callback awaits the profile, `user` is the new identity and `userData` the previous one |
| AuthContext.ReplaySettles | lib/contexts/AuthContext.js:38-69 | after any sequence of callbacks identity and profile are present together or absent together, and once one callback has run `loading` is false |
| AuthContext.AuthProvider.constructor | lib/contexts/AuthContext.js:35-38 | starts signed out and loading |
| AuthContext.AuthProvider.Loading | lib/contexts/AuthContext.js:79 | `loading` is `initialLoad` |
| AuthContext.AuthProvider.OnAuthStateChanged | lib/contexts/AuthContext.js:42-70 | the new cells and collections are those of `AuthStateChanged` |
| DashboardLayout.Render | app/dashboard/layout.jsx:18-61 | exactly one screen per input: the spinner iff loading; "Setting up" iff settled with a user and no profile; the dashboard iff both are present; nothing iff the `/login` redirect fires |
| DashboardLayout.SettledNeverSettingUp | app/dashboard/layout.jsx:27-61 | between callbacks "Setting up" never shows; the dashboard shows exactly when the last callback left an identity |
| DashboardLayout.PendingShowsPreviousProfile | app/dashboard/layout.jsx:37-58 | mid-callback the layout shows "Setting up" when no profile was loaded, and otherwise the dashboard with the previous profile |
| FirebaseAuth.GetEmailSubject | lib/authentication/firebaseAuth.js:22-31 | a listed language gets its subject; any other language gets the English one |
| FirebaseAuth.RegisterErrorMessage | lib/authentication/firebaseAuth.js:118-126 | three codes get their fixed messages; every other error gets "Registration failed: " and its message |
| FirebaseAuth.RegisterMessageKinds | lib/authentication/firebaseAuth.js:118-126 | a message starts with the prefix exactly when its code is not one of the three |
| FirebaseAuth.LoginErrorMessage | lib/authentication/firebaseAuth.js:149-159 | four codes get their fixed messages; every other error gets "Login failed: " and its message |
| FirebaseAuth.LoginMessageKinds | lib/authentication/firebaseAuth.js:149-159 | a message starts with the prefix exactly when its code is not one of the four |
| FirebaseAuth.GoogleErrorMessage | lib/authentication/firebaseAuth.js:212-218 | the two popup codes get their fixed messages; every other error gets "Google sign-in failed: " and its message |
| FirebaseAuth.GoogleMessageKinds | lib/authentication/firebaseAuth.js:212-218 | a message starts with the prefix exactly when its code is not a popup code |
| FirebaseAuth.ResetErrorMessage | lib/authentication/firebaseAuth.js:255-261 | two codes get their fixed messages; every other error gets "Password reset failed: " and its message |
| FirebaseAuth.ResetMessageKinds | lib/authentication/firebaseAuth.js:255-261 | a message starts with the prefix exactly when its code is not one of the two |
| FirebaseAuth.ResetPasswordFirebase | lib/authentication/firebaseAuth.js:247-263 | `true` exactly when the send succeeds, else the mapped reset message |
| FirebaseAuth.SignOutFirebase | lib/authentication/firebaseAuth.js:266-276 | `true` exactly when sign-out succeeds, else "Sign out failed: " and the original message |
| FirebaseAuth.ProfileDefaults | lib/authentication/firebaseAuth.js:49-64 | the thirteen default fields with their fixed values |
| FirebaseAuth.NewProfile | lib/authentication/firebaseAuth.js:49-67 | fails with the `split` TypeError exactly when there is no username and no email; otherwise has the default keys plus those of `additionalData`, every key of `additionalData` wins, the display-name and username fallback chains hold, and `email` and `createdAt` are the identity's email and the creation time |
| FirebaseAuth.NewProfileDefaults | lib/authentication/firebaseAuth.js:54-64 | fields not in `additionalData` keep their defaults: `links = []`, "Lake White", "free", `false`, null team fields |
| FirebaseAuth.CreateProfile | lib/authentication/firebaseAuth.js:38-79 | an existing profile is returned unchanged and nothing is written; otherwise success exactly when the record is built and written, and a failed lookup write does not fail it; the error is the read's, then the null-email `split` TypeError, then the write's |
| FirebaseAuth.CreateUserProfile | lib/authentication/firebaseAuth.js:38-79 | result and collections are those of `CreateProfile` |
| FirebaseAuth.RegisterWithEmailPassword | lib/authentication/firebaseAuth.js:82-128 | an auth error writes nothing and gives the registration message; otherwise the profile is created for the renamed user with `{username, language}` and its errors are mapped the same way |
| FirebaseAuth.LoginWithEmailPassword | lib/authentication/firebaseAuth.js:131-161 | an auth error writes nothing and gives the login message; otherwise the profile is fetched or created with no extra data |
| FirebaseAuth.PopupStep | lib/authentication/firebaseAuth.js:171-184 | switches to the redirect exactly when the popup failed with a popup code or on mobile and the redirect call succeeds; otherwise the popup error is rethrown with the prefixed message |
| FirebaseAuth.FixedGoogleMessageFromRedirect | lib/authentication/firebaseAuth.js:176-218 | a "cancelled" or "blocked" message can only come from a failing redirect call after the fallback |
| FirebaseAuth.SignInWithGoogle | lib/authentication/firebaseAuth.js:164-220 | the popup stage decides; after a popup success the profile is fetched or created with `{language}` and its errors get the Google messages |
| FirebaseAuth.HandleGoogleRedirectResult | lib/authentication/firebaseAuth.js:223-244 | no pending redirect gives `null` and writes nothing; every error is prefixed, with no code-specific message |
| FirebaseAuth.RobustProfile | lib/authentication/firebaseAuth.js:336-357 | the robust record exists exactly when a display name or an email is present; it has the profile fields plus language, `signupMethod` "google" and `isNewUser` |
| FirebaseAuth.RobustProfileNames | lib/authentication/firebaseAuth.js:336-350 | username and display name are both the raw display name, else the email part, not sanitised; uid, email, `createdAt` and plan are those of `createUserProfile` |
| FirebaseAuth.RobustProfileFixed | lib/authentication/firebaseAuth.js:341-352 | the photo URL or `""`, `links = []`, theme "Lake White", `isTeamManager = false` and null team fields |
| FirebaseAuth.RobustUsernameUnsanitised | lib/authentication/firebaseAuth.js:339-340 | a display name containing whitespace becomes a username outside `[a-z0-9]` |
| FirebaseAuth.FirstSuccess | lib/authentication/firebaseAuth.js:321-385 | the first attempt below three that finds or writes a profile, with every earlier attempt failing |
| FirebaseAuth.RetryDelays | lib/authentication/firebaseAuth.js:383 | the n-th wait lasts `1000 * n` ms |
| FirebaseAuth.WriteProfile | lib/authentication/firebaseAuth.js:359-369 | the record is stored under the uid and the lookup table is `LookupAfter` of its username |
| FirebaseAuth.TryAttempt | lib/authentication/firebaseAuth.js:322-372 | one attempt succeeds exactly when the read succeeds and the profile exists or is built and written; a failed attempt changes nothing; a written profile is the robust record with its lookup entry |
| FirebaseAuth.RobustLoopOutcome | lib/authentication/firebaseAuth.js:317-385 | at most two waits; throws "Failed to create user profile after multiple attempts" exactly when all three attempts fail, and then changes nothing; otherwise it stops at the first success, after the waits of the failures before it |
| FirebaseAuth.RobustProfileLoop | lib/authentication/firebaseAuth.js:317-385 | the loop's result, waits and collections are those of `RobustLoopOutcome` |
| FirebaseAuth.SignInWithGoogleRobust | lib/authentication/firebaseAuth.js:289-413 | the popup stage decides; after a popup success the retry loop runs and its error gets the Google message |
| UrlQuery.FirstValue | app/login/componets/LoginForm.jsx:22 | a value is found exactly when some pair has the name, and it is the value of the first such pair |
| UrlQuery.SingleParamRoundTrip | app/login/componets/LoginForm.jsx:144 | a URL `path?name=value` yields `value` for `name` and nothing for any other name |
| LoginForm.ReturnTo | app/login/componets/LoginForm.jsx:22 | a non-empty parameter is the target; an absent or empty one gives `/dashboard` |
| LoginForm.CanProceedIff | app/login/componets/LoginForm.jsx:87-91 | submission is possible exactly when the email holds `@` and `.` and the password has at least six code units |
| LoginForm.NavigationHidesForm | app/login/componets/LoginForm.jsx:31-106 | the page navigates only while the spinner hides the form; the form shows exactly when settled and signed out |
| LoginForm.SignupHref | app/login/componets/LoginForm.jsx:144 | the link is `/signup` exactly for the default target, else it carries `?returnTo=` and the target |
| LoginForm.SignupHrefCarriesReturnTo | app/login/componets/LoginForm.jsx:144 | the link hands a non-default target on under `returnTo` and under no other name |
| LoginForm.LoginFormState.constructor | app/login/componets/LoginForm.jsx:24-28 | empty fields, not submitting, cannot proceed |
| LoginForm.LoginFormState.Validate | app/login/componets/LoginForm.jsx:87-91 | `canProceed` becomes the check of the current fields |
| LoginForm.LoginFormState.HandleEmailLogin | app/login/componets/LoginForm.jsx:62-83 | the login is called exactly when `canProceed`; otherwise nothing changes; the collections are those of fetching or creating the profile; `isSubmitting` stays set on success, so the submit button stays disabled, and drops on failure |
| LoginForm.LoginFormState.HandleGoogleSignIn | app/login/componets/LoginForm.jsx:48-59 | `isSubmitting` stays set unless the sign-in fails, including after a redirect hand-off |
| LoginForm.EditAndSubmit | app/login/componets/LoginForm.jsx:62-91 | after an edit and its validation, the login is called exactly when the new fields pass the check |
| SignupForm.GetRedirectUrl | app/signup/componets/SignupForm.jsx:37-54 | a non-empty `returnUrl` wins; else the checkout exactly when the referrer names the card pages; else the dashboard |
| SignupForm.LoginTargetIsDropped | app/signup/componets/SignupForm.jsx:38 | the page reads `returnUrl` while the login link passes `returnTo`, so a sign-up reached from the login page with a target holding no `&` ignores that target: it lands on the checkout or the dashboard whatever the target |
| SignupForm.ValidationIssue | app/signup/componets/SignupForm.jsx:174-181 | one message at most, by priority email, password, username; an empty field raises none |
| SignupForm.CanProceedIffNoIssue | app/signup/componets/SignupForm.jsx:184-191 | `canProceed` holds exactly when all fields are filled and none raises a message |
| SignupForm.MessageOf | app/signup/componets/SignupForm.jsx:179-181 | the translated email and password messages, the fixed username message, or the empty message |
| SignupForm.RenderedView | app/signup/componets/SignupForm.jsx:194-197 | the form shows exactly when translations are ready, auth is settled and there is no user; with a user, nothing shows |
| SignupForm.FormAndRedirectExclusive | app/signup/componets/SignupForm.jsx:57-63 | the form is never on screen while the page redirects an authenticated user |
| SignupForm.SignupFormState.constructor | app/signup/componets/SignupForm.jsx:25-34 | empty fields, no message, no request in flight, the ref unset |
| SignupForm.SignupFormState.Validate | app/signup/componets/SignupForm.jsx:171-192 | nothing changes while a request is in flight; otherwise the message and `canProceed` are those of the checks |
| SignupForm.SignupFormState.HandleSignUp | app/signup/componets/SignupForm.jsx:137-158 | skipped exactly when the form cannot proceed or a request is in flight; an auth or rename error writes nothing and shows its registration message; otherwise the collections are those of creating the profile, and it navigates to `getRedirectUrl` exactly when that succeeds; a failure clears the flag and sets the registration message, which the re-run of the validation effect clears (see `FailedSignUpMessageCleared`); the toast shows it |
| SignupForm.FailedSignUpMessageCleared | app/signup/componets/SignupForm.jsx:136-192 | after the validation effect and a failed submission, the inline message is the error's message until the effect re-runs on the reset `isLoading` and sets it to `""`; the form is then idle |
| SignupForm.SignupFormState.HandleGoogleSignIn | app/signup/componets/SignupForm.jsx:116-134 | skipped exactly when a request is in flight; a finished popup stage writes nothing and gives its redirect or message; after a popup success the collections are those of creating the profile with `{language}`, it navigates exactly when that succeeds, and otherwise shows the Google message; the Google flag stays set unless the sign-in fails |
| SignupForm.SignupFormState.CheckRedirectResult | app/signup/componets/SignupForm.jsx:91-113 | runs only when ready and not yet run; sets the ref before fetching; runs at most once; no pending result is idle and writes nothing; an error shows the prefixed message; a result creates the profile with `{language}` and navigates exactly when that succeeds |
| SignupForm.CheckedTwice | app/signup/componets/SignupForm.jsx:34-96 | a second run of the effect on one mount is always skipped |
| SendResetUrl.GetResetEmailSubject | lib/authentication/sendResetUrl.js:8-15 | French gets its subject; every other language gets the English one |
| SendResetUrl.FirstAccountWithEmail | lib/authentication/sendResetUrl.js:33-44 | the first listed account with that email, or `None` exactly when no listed account has it |
| SendResetUrl.NoMatchMeansNoAccount | lib/authentication/sendResetUrl.js:37-42 | with every account listed, no match means no account has the email |
| SendResetUrl.ResetKeyDocument | lib/authentication/sendResetUrl.js:51-54 | the key document is `{uid, expires: now + 3600000}`; it cannot be written when the account has no uid |
| SendResetUrl.ResetOutcome | lib/authentication/sendResetUrl.js:22-69 | a missing email throws before any lookup and is the only non-generic error; an unknown email succeeds and stores nothing; a registered email whose account has a uid gets exactly its key, for the first match, when the query and write succeed, and then succeeds exactly when the mail is sent; nothing else is stored; a mail failure after the write still reports the generic error; the request succeeds exactly when the email is truthy, the query succeeds, and either no account matches or the first match has a uid and the write and mail succeed, so every failure after the guard is the generic error |
| SendResetUrl.NewProfileHasEmail | lib/authentication/firebaseAuth.js:51 | a new profile stores the identity's email in the field the reset query searches |
| SendResetUrl.CreatedAccountIsFound | lib/authentication/sendResetUrl.js:33-44 | after a profile is created for an identity with an email, a reset request for that email finds an account whenever the store lists the new one |
| SendResetUrl.ResetStoresOneKey | lib/authentication/sendResetUrl.js:44-54 | a successful request for a registered email stores the key with the first match's uid and an expiry one hour on, and changes no other key |
| SendResetUrl.SendResetUrl | lib/authentication/sendResetUrl.js:22-69 | result and `resetKeys` are those of `ResetOutcome` |

## Left out

- Calls into the Firebase SDK, EmailJs and the e-mail templates are oracle parameters. Mail content, toasts, JSX markup, CSS and logging are not modelled.
- The `onAuthStateChangedFirebase` and `getCurrentUser` pass-throughs in firebaseAuth.js are not modelled: they only forward to the SDK.
- Time is an input: `createdAt` stands for `new Date().toISOString()` and `now` for `Date.now()`. The back-off sleeps and the one-second navigation timers are recorded, not waited out.
- `validateEmail`, `validatePassword` and `generateSecureKey` are not part of this model. Their results are inputs.
- `SendResetUrl.ResetOutcome` and `SendResetUrl.SendResetUrl` take the generated reset key as one non-empty path segment with no `/`: `doc` reads it as a path, and the key also goes into the reset URL's path. Keys that split into other path shapes are not modelled.
- The `navigator.userAgent` test is an input, `isMobile`.
- The i18n layer is an input: `locale`, the `Translations` record, and whether it is loaded.
- Overlapping auth callbacks are not modelled. Callbacks run one at a time (`Replay`), and a render in the middle of one is `Pending`. The extra callback that fires when the effect re-subscribes on `initialLoad` is one more element of the replayed sequence.
- `JsText.ToLowerCase` maps ASCII letters, U+0130 and U+212A, and leaves every other character as it is. JavaScript lower-cases all of Unicode. This does not change sanitised usernames, which keep only `[a-z0-9]`.
- `UserLookup.LookupKey` inherits that limit: an unsanitised username with non-ASCII capitals (written by the robust variant) gets a key that JavaScript would lower-case further.
- `FirebaseAuth.GetEmailSubject` and `SendResetUrl.GetResetEmailSubject` do not model inherited object keys such as `constructor`, for which JavaScript returns a function instead of a subject.
- `UrlQuery.SearchParam` does not percent-decode, does not turn `+` into a space, does not stop at a `#` fragment, and does not skip empty pairs.
- `UserLookup.TopLevelId` follows the path parsing of Firestore's JavaScript SDK, which is not part of this model: a `//` throws, the key splits at `/` with empty segments dropped, and the document path must have an even number of segments. Other keys the server rejects as document IDs (`.`, `..`, `__name__`-style reserved IDs, over 1500 bytes) are written like any other key. A document written into a subcollection (three, five, ... segments) is not modelled: the top-level table is left unchanged.
- `SendResetUrl.FirstAccountWithEmail` takes the order in which the store lists matching documents as an input.
- A document field set to `undefined` is rejected by the store; the model treats only the missing `uid` of the reset-key document that way.
- The one-second delay before navigation is recorded as the `Navigates` outcome; a later unmount cancelling it is not modelled.
