# Session, follow and form-state model of a social-network web client

This project models the state logic of a browser client for a social-networking
service. The client has a session manager that keeps the bearer token and user
in memory and in two persisted slots (`token`, `user`). It also has a
follow-stats controller for one target user, the credential validators with
their form hooks, and the profile-edit form.

Every call to the remote gateway is an input value, `Gateway.Outcome`. It is
either `Ok(data)` or `Err(error, field, status, tokenExpired)`. Each operation
runs as one atomic step. The session manager and the follow controller are
specified by step functions over a state value (`AuthContext.Session`,
`Follow.FollowState`). The classes `AuthContext.AuthProvider` and
`Follow.FollowHook` update their fields step by step. Each of their
postconditions says that the new state is the step function applied to the old
one. The lemmas then state what the steps promise, alone and in sequence.

Modules, one per source file:

- `TokenUtils` models `src/utils/tokenUtils.js`. It holds the token expiry
  decision and the `Storage` class with the two slots.
- `Validation` models `src/utils/validation.js`.
- `ValidationHooks` models `src/hooks/useValidation.js`.
- `AuthContext` models `src/context/AuthContext.jsx`. It also holds the
  protected-route decision from `src/components/layout/ProtectedRoute.jsx`.
- `Follow` models `src/hooks/useFollow.js`.
- `ProfileEdit` models `src/components/profile/EditProfileForm.jsx`.
- `Gateway` and `Wrappers` hold the shared types: the user record, the gateway
  outcome, the `{success, error, field}` reply and `Option`.

Three behaviours of the code are easy to misread, and the model states them
as written:

- **Follow and unfollow are not optimistic.** The comments in
  `src/hooks/useFollow.js` speak of updating the counts optimistically (line 52)
  and of reverting them on error (line 64). Yet `followUser` and `unfollowUser`
  change the counts only after the gateway call returns, and the failure path
  undoes an increment that was never applied. A failed follow therefore ends one
  follower below where it started: from 10 it ends at 9, and from 0 at -1.
  `Follow.FailedFollowEndsOneBelow` states this.
- **A corrupt stored user keeps the token.** At start-up the stored token is
  adopted before the stored user is parsed (`src/context/AuthContext.jsx:27-33`).
  A user that does not parse clears the store but leaves the token in memory, so
  the session counts as authenticated with no user
  (`AuthContext.CorruptUserKeepsToken`). What does hold is
  `AuthContext.Consistent`: a user in memory always has its token, and the store
  holds that same token and user.
- **Counts are not clamped.** Both decrements (`src/hooks/useFollow.js:68` and
  `:99`) subtract one from whatever the count is, so nothing bounds the counts
  from below.

## Model

| member | source | states |
|---|---|---|
| `Gateway.OrDefault` | src/context/AuthContext.jsx:88 | a truthy gateway message is passed on unchanged, a missing or empty one becomes the fallback, so a non-empty fallback always gives a non-empty message (the same defaulting appears at AuthContext.jsx:103 and useFollow.js:27, 61, 104, 143) |
| `TokenUtils.UsableExpiry` | src/utils/tokenUtils.js:10-12 | a token has a usable expiry exactly when it decoded and its `exp` is present and non-zero, and that expiry is the `exp` claim itself |
| `TokenUtils.CurrentSecond` | src/utils/tokenUtils.js:15 | the current second is the floor of the millisecond clock: it is the one whole second whose span contains `nowMs`, for every sign |
| `TokenUtils.IsTokenExpired` | src/utils/tokenUtils.js:3-21 | fail-safe: an unexpired token is present, decodable and has a usable `exp`; such a token is expired iff a full second past `exp` has elapsed, i.e. `(exp+1)*1000 <= nowMs` |
| `TokenUtils.ValidThroughExpirySecond` | src/utils/tokenUtils.js:15-16 | a token whose `exp` equals the current second is not expired |
| `TokenUtils.ExpiryIsMonotone` | src/utils/tokenUtils.js:15-16 | once expired, a token stays expired at every later time |
| `TokenUtils.ParseUser` | src/context/AuthContext.jsx:28-34 | parsing the `user` slot succeeds exactly on serialised text and gives back the serialised user |
| `TokenUtils.Storage.ClearExpiredToken` | src/utils/tokenUtils.js:24-27 | both slots are emptied; nothing else of the store changes |
| `TokenUtils.Storage.SetToken` | src/context/AuthContext.jsx:67 | the `token` slot holds the new token; the `user` slot is unchanged |
| `TokenUtils.Storage.SetUser` | src/context/AuthContext.jsx:68 | the `user` slot holds the user's serialisation; the `token` slot is unchanged |
| `TokenUtils.Storage.IsTokenValid` | src/utils/tokenUtils.js:30-33 | true iff the stored token is present, decodes to a usable `exp`, and that second has not fully passed; an undecodable token is never valid |
| `Validation.ContainsClassMeans` | src/utils/validation.js:26-36 | the scan for a lowercase letter, uppercase letter or digit finds one iff some position of the string holds one |
| `Validation.AllWordCharsMeans` | src/utils/validation.js:10 | the word-character scan succeeds iff every character is an ASCII letter, digit or underscore |
| `Validation.ValidateUsername` | src/utils/validation.js:1-15 | passes iff the length is 3-20 and every character is a letter, digit or underscore; the empty string gets the required message, a bad length the length message, and the character message only when the length is right |
| `Validation.ValidatePassword` | src/utils/validation.js:17-39 | passes iff length >= 5 with a lowercase letter, an uppercase letter and a digit; otherwise the first broken rule names the message, in the order required, length, lowercase, uppercase, digit |
| `Validation.ValidateSignupForm` | src/utils/validation.js:41-50 | each field carries its validator's message, and the form is valid iff the username is well formed and the password strong |
| `Validation.ValidateLoginForm` | src/utils/validation.js:52-61 | only emptiness is checked: each field's message is the fixed required message iff it is empty, and the form is valid iff both are non-empty |
| `Validation.SignupValidImpliesLoginValid` | src/utils/validation.js:41-61 | every pair the signup form accepts, the login form accepts |
| `Validation.LoginIsWeakerThanSignup` | src/utils/validation.js:52-61 | the username "a" is valid for login but gets the length message at signup |
| `Validation.PasswordExamples` | src/utils/validation.js:17-39 | "Abc12" passes; "abc12", "ABC12", "Abcde" and "Ab1" get the uppercase, lowercase, digit and length messages |
| `Validation.UsernameExamples` | src/utils/validation.js:1-15 | "valid_user1" passes; "ab", "bad-name" and "" get the length, character and required messages |
| `ValidationHooks.SignupFieldError` | src/hooks/useValidation.js:11 | the field `username` passes iff the username is well formed; any other field name is judged by the password rules |
| `ValidationHooks.LoginFieldError` | src/hooks/useValidation.js:49 | a field passes iff its value is non-empty; otherwise the message is the capitalised field name plus " is required" |
| `ValidationHooks.Capitalize` | src/hooks/useValidation.js:49 | only the first character may change, and it becomes its upper-case form; the length is kept |
| `ValidationHooks.CapitalizedFieldNames` | src/hooks/useValidation.js:49 | capitalising `username` and `password` gives `Username` and `Password` |
| `ValidationHooks.SignupFieldAgreesWithForm` | src/hooks/useValidation.js:10-28 | validating the signup username or password on its own gives the same message as validating the whole form |
| `ValidationHooks.LoginFieldAgreesWithForm` | src/hooks/useValidation.js:48-66 | validating a login field on its own gives the same message as validating the whole form |
| `ValidationHooks.SignupValidation.constructor` | src/hooks/useValidation.js:5-8 | the map starts with both fields present and no messages |
| `ValidationHooks.SignupValidation.ValidateField` | src/hooks/useValidation.js:10-19 | only the named entry changes, to that field's message; the answer is true iff there is none |
| `ValidationHooks.SignupValidation.ValidateForm` | src/hooks/useValidation.js:21-28 | the map is replaced by exactly the two form messages; the answer is true iff the username is well formed and the password strong |
| `ValidationHooks.SignupValidation.ClearErrors` | src/hooks/useValidation.js:30-32 | the map is reset to both fields without messages |
| `ValidationHooks.LoginValidation.constructor` | src/hooks/useValidation.js:43-46 | the map starts with both fields present and no messages |
| `ValidationHooks.LoginValidation.ValidateField` | src/hooks/useValidation.js:48-57 | only the named entry changes; the answer is true iff the value is non-empty |
| `ValidationHooks.LoginValidation.ValidateForm` | src/hooks/useValidation.js:59-66 | the map is replaced by exactly the two login-form messages; the answer is true iff both values are non-empty |
| `ValidationHooks.LoginValidation.ClearErrors` | src/hooks/useValidation.js:68-70 | the map is reset to both fields without messages |
| `AuthContext.BootstrapStep` | src/context/AuthContext.jsx:20-41 | loading ends false; with a slot missing nothing else changes; the store is kept or emptied, and emptied exactly when both slots are filled and the token is expired or the user does not parse; a newly adopted token is the stored one and unexpired; a newly adopted user is the parsed stored user and the store is kept |
| `AuthContext.SweepStep` | src/context/AuthContext.jsx:44-59 | after a sweep no expired token is held; an expired held token drops user and token and empties the store; otherwise nothing changes |
| `AuthContext.LoginStep` | src/context/AuthContext.jsx:61-92 | success adopts and persists the returned token and user (memory and store agree); an expired-token rejection drops the session, empties the store and answers the fixed session-expired message; any other rejection changes nothing and passes on the gateway's message (default "Login failed") and field |
| `AuthContext.SignupReply` | src/context/AuthContext.jsx:94-107 | success answers the server's message; failure answers its error (default "Signup failed") and field; never a session-expired answer |
| `AuthContext.LogoutStep` | src/context/AuthContext.jsx:109-113 | afterwards nothing is authenticated, user and token are gone and the store is empty, from any state |
| `AuthContext.LogoutIsIdempotent` | src/context/AuthContext.jsx:109-113 | logging out twice is the same as logging out once |
| `AuthContext.StepsPreserveConsistency` | src/context/AuthContext.jsx:20-113 | sweep, login and logout keep a held user matched by its token and by the store; start-up does so from a state without a user |
| `AuthContext.BootstrapFromMount` | src/context/AuthContext.jsx:20-41 | from the mounted state, start-up authenticates iff both slots are filled and the token is unexpired, and holds a user iff the stored user also parses |
| `AuthContext.CorruptUserKeepsToken` | src/context/AuthContext.jsx:26-34 | an unexpired stored token with an unparsable stored user ends authenticated, with no user and an empty store |
| `AuthContext.LoginThenReloadRestores` | src/context/AuthContext.jsx:20-73 | a fresh start-up after a successful login, with the token still unexpired, restores the same user, token and store |
| `AuthContext.SweepAfterExpiryLogsOut` | src/context/AuthContext.jsx:44-59 | a sweep at any time after the held token expired ends the session and empties the store |
| `AuthContext.Authenticated` | src/context/AuthContext.jsx:122 | the session is authenticated exactly when its token is truthy: a missing token and the empty string are not |
| `AuthContext.RouteView` | src/components/layout/ProtectedRoute.jsx:6-23 | the loading view shows exactly while start-up runs; once loaded, children render exactly for an authenticated session and every other session is redirected to login |
| `AuthContext.ExpiredStoredTokenRedirects` | src/context/AuthContext.jsx:35-40 | an expired stored token at start-up redirects to login and empties the store |
| `AuthContext.AuthProvider.constructor` | src/context/AuthContext.jsx:16-18 | the provider starts with no user, no token, loading, over the given store |
| `AuthContext.AuthProvider.Bootstrap` | src/context/AuthContext.jsx:20-41 | fields and store end as `BootstrapStep` of the old state |
| `AuthContext.AuthProvider.CheckTokenExpiry` | src/context/AuthContext.jsx:44-59 | fields and store end as `SweepStep` of the old state |
| `AuthContext.AuthProvider.Login` | src/context/AuthContext.jsx:61-92 | fields, store and reply are `LoginStep` of the old state |
| `AuthContext.AuthProvider.Signup` | src/context/AuthContext.jsx:94-107 | changes no state and answers `SignupReply` |
| `AuthContext.AuthProvider.Logout` | src/context/AuthContext.jsx:109-113 | fields and store end as `LogoutStep` of the old state |
| `Follow.HasTarget` | src/hooks/useFollow.js:39 | a target id is usable exactly when it is truthy: a missing id and the id 0 are refused |
| `Follow.IsSelf` | src/hooks/useFollow.js:42 | with no signed-in viewer the target is never the viewer; with a known target it is the viewer exactly when the ids are equal |
| `Follow.FetchStep` | src/hooks/useFollow.js:16-36 | without a target nothing changes; otherwise loading ends false, success replaces the whole record and clears the error, failure keeps the record and records the message (default "Failed to fetch follow stats") |
| `Follow.FollowStep` | src/hooks/useFollow.js:38-79 | a missing target or self-follow answers its fixed message with the state untouched; past the guards loading ends false, the following count is kept, success sets the relation with one more follower, failure clears it with one fewer follower, records and answers the message (default "Failed to follow user") and field |
| `Follow.UnfollowStep` | src/hooks/useFollow.js:81-122 | the mirror image: success clears the relation with one fewer follower, failure sets it with one more (default "Failed to unfollow user") |
| `Follow.ToggleStep` | src/hooks/useFollow.js:124-130 | unfollows exactly when currently following and follows otherwise; on success the relation flips |
| `Follow.RefreshStep` | src/hooks/useFollow.js:132-153 | without a target it answers nothing and changes nothing; otherwise success replaces and returns the record, failure keeps it and answers the message (default "Failed to refresh follow stats") and field |
| `Follow.GuardedActionsIgnoreGateway` | src/hooks/useFollow.js:38-87 | when a guard rejects, the follow and unfollow results do not depend on the gateway outcome: no call is made |
| `Follow.FollowThenUnfollowRestores` | src/hooks/useFollow.js:50-100 | a successful follow and then a successful unfollow restore the counts and the relation exactly |
| `Follow.ToggleTwiceRestores` | src/hooks/useFollow.js:124-130 | two successful toggles return the record to where it started |
| `Follow.FailedFollowEndsOneBelow` | src/hooks/useFollow.js:60-75 | a failed follow ends with one follower fewer than before and not following |
| `Follow.NoTargetStaysLoading` | src/hooks/useFollow.js:11-18 | without a target the initial `loading` flag is never lowered by the fetch effect |
| `Follow.FollowHook.constructor` | src/hooks/useFollow.js:6-12 | zero counts, not following, loading, no error |
| `Follow.FollowHook.FetchFollowStats` | src/hooks/useFollow.js:16-36 | the fields end as `FetchStep` of the old state |
| `Follow.FollowHook.FollowUser` | src/hooks/useFollow.js:38-79 | fields and reply are `FollowStep` of the old state |
| `Follow.FollowHook.UnfollowUser` | src/hooks/useFollow.js:81-122 | fields and reply are `UnfollowStep` of the old state |
| `Follow.FollowHook.ToggleFollow` | src/hooks/useFollow.js:124-130 | fields and reply are `ToggleStep` of the old state |
| `Follow.FollowHook.RefreshStats` | src/hooks/useFollow.js:132-153 | fields and reply are `RefreshStep` of the old state |
| `Follow.FollowHook.ClearError` | src/hooks/useFollow.js:155-157 | only the error is cleared |
| `ProfileEdit.ClearedError` | src/components/profile/EditProfileForm.jsx:167-172 | afterwards the named entry is not set; every other entry and the key set are unchanged |
| `ProfileEdit.PhotoRejection` | src/components/profile/EditProfileForm.jsx:179-194 | a file is accepted iff its type starts with "image/" and it is at most 5·1024·1024 bytes; the type is judged first |
| `ProfileEdit.PhotoSizeBoundary` | src/components/profile/EditProfileForm.jsx:188-193 | exactly 5 MB is accepted, one byte more is refused as too large, and a non-image is refused as such whatever its size |
| `ProfileEdit.UpdateFailureErrors` | src/components/profile/EditProfileForm.jsx:272-275 | both text fields get an entry, and only the one the reply names carries the message |
| `ProfileEdit.SubmitErrors` | src/components/profile/EditProfileForm.jsx:240-286 | a failed upload leaves exactly the photo message; otherwise a failed update leaves the two text entries and success leaves none |
| `ProfileEdit.InitialFormData` | src/components/profile/EditProfileForm.jsx:140-143 | the draft holds the user's display name and bio, each defaulting to empty |
| `ProfileEdit.EditProfileForm.constructor` | src/components/profile/EditProfileForm.jsx:140-148 | draft from the user, no errors, no file, preview from a truthy photo address, not busy |
| `ProfileEdit.EditProfileForm.HandleChange` | src/components/profile/EditProfileForm.jsx:159-173 | only that field's value changes, and only that field's message is cleared, if it was set |
| `ProfileEdit.EditProfileForm.HandlePhotoChange` | src/components/profile/EditProfileForm.jsx:175-207 | no file changes nothing; a refused file sets the photo message and keeps the old file; an accepted file becomes the file and preview and clears a set photo message |
| `ProfileEdit.EditProfileForm.HandleDeletePhoto` | src/components/profile/EditProfileForm.jsx:209-238 | without a photo address or file nothing changes; otherwise the busy flag ends false, success drops preview and file and notifies, failure records the reply's message |
| `ProfileEdit.EditProfileForm.HandleSubmit` | src/components/profile/EditProfileForm.jsx:240-286 | the picked file is uploaded first; the update, carrying the draft, is requested iff there is no file or the upload succeeded; errors end as `SubmitErrors`; the form closes iff the update succeeded; both busy flags end false |

## Left out

- Network, JSON and storage I/O in `src/services/api.js` are left out. Each call's result is an input `Outcome`. That wrapper never sets `tokenExpired`, so the login's expired-session branch is reachable only through a gateway outcome that sets it.
- `src/context/ProfileContext.jsx` is not part of this model. The profile-edit handlers take its `{success, error, field}` replies directly. Those wrappers never reject, so the form's catch-all branches ("An unexpected error occurred", "Failed to delete photo") cannot run and are not modelled.
- Timers are left out. The 60-second interval is a method called explicitly, `AuthProvider.CheckTokenExpiry`, and the model only says what one firing does.
- React scheduling, asynchronous interleaving, unmount cancellation and stale closures are left out, because they are concurrency. Each handler is one atomic step over the current state.
- Decoding a token is a foreign call. A `Token` carries the decode result with its text. An `exp` claim is a whole number or missing; non-numeric and fractional claims are not modelled.
- JSON parsing and serialisation are left out. The `user` slot holds either a serialised user or text that fails to parse. Valid JSON that is not a user object (for example `null`) is not modelled.
- The clock, blob-URL creation and revocation, and the parent's `onUpdate`/`onCancel` callbacks are left out. The clock and the blob URL are parameters. The callbacks are counted in the results, and both are taken to be supplied.
- `Storage.IsTokenValid` returns a boolean. The source returns the falsy slot value itself when the slot is empty.
- String lengths count Unicode scalar values, not UTF-16 code units. `ValidationHooks.Capitalize` upper-cases ASCII letters only.
- Logging is left out: the `console.error` call on the fetch failure path (`src/hooks/useFollow.js:29`) has no counterpart.
- Re-targeting the follow hook is left out of the class. The hook's target is a constant of `FollowHook`, while the source re-runs the fetch when `userId` or `currentUser` changes (`src/hooks/useFollow.js:36`) and keeps the previous target's record until the new one arrives. Only the step function `Follow.FetchStep`, through its `userId` parameter, can express a fetch for a new target over the old record.
- Rendering, routing, styling, `LoginForm`, `SignupForm`, `FollowButton`, `ProfileSidebar`, the pages and the layout components are presentation. The only part of them modelled is the protected-route decision.
