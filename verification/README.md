# Tree upload client: capture session, registration checks, authentication gate

A Dafny model of the client-side logic of a small field-data app. Users sign
in against an identity provider. They then pick a photo of a tree, and the page
pairs it with a timestamp and a geolocation fix before upload. The model covers
three pieces:

- **Capture session** (`CaptureSession.dfy`) is the tree-upload page. It is an
  event-driven state machine over six fields: `image`, `location`,
  `timestamp`, `error`, `isRequestingLocation` and `locationPermission`.
  - Each event handler has a pure specification function on a `CaptureState`
    value.
  - Class `Session` performs the same handlers by assigning its fields one
    after another. Each of its methods ensures `State() == F(old(State()))`.
  - Beside the six fields, the state records what the page asked of the
    location provider. `requests` holds the options of every
    `getCurrentPosition` call, and `resolved` counts the callbacks received.
    This lets the model state that the "waiting" indicator is on only while a
    request is outstanding, and that every request forces a fresh,
    high-accuracy fix.
  - `Valid` is the invariant. `RunKeepsValid` proves that every sequence of
    events keeps it.
  - The rendering rules are functions on the state: the upload button's
    `disabled`, the retry button, and the "check browser settings" hint.
- **Registration checks** (`Registration.dfy`):
  - The ordered validation chain, where the first failing check gives the
    message.
  - A hand-written matcher for the email pattern `^[^\s@]+@[^\s@]+\.[^\s@]+$`.
    It is proved equal to the pattern's meaning and to a plain description of
    accepted addresses.
  - Class `RegistrationPage` holds the loading / success / error protocol
    around the two backend calls. Those calls are an input outcome.
- **Authentication gate and routes** (`AuthGate.dfy`):
  - Storage precedence, where local storage comes before session storage.
  - The token test on the parsed tokens.
  - The path-to-view table.
  - `JSON.parse` with the destructuring after it is an input function from the
    stored text to the two bound JavaScript values, or to a throw.

`Text.dfy` holds the shared helpers:
- `Option`.
- `Contains`, which is JavaScript's `includes`, with lemmas for proving that a
  text does or does not contain a word.
- The character set of the regular-expression escape `\s`.

Where the code does less than a capture session evidently should, the model follows the code:
- A new file selection does not clear an earlier `location`.
- A late position callback is applied whatever was selected since.
  `LateFixPairsWithNewerImage` shows a fix being paired with the newer image.
- Nothing is reset after a submit.
- `handleSubmit` itself does not check `isRequestingLocation`. Only the
  button's `disabled` does (`SubmitIgnoresInFlightRequest`).

## Model

| member | source | states |
|---|---|---|
| `CaptureSession.Initial` | src/components/TreeUploadPage.tsx:4-9 | The page mounts with no image, no location, an empty timestamp and error, no request in flight, an unknown permission and no provider call made. |
| `CaptureSession.FailureMessage` | src/components/TreeUploadPage.tsx:69-74 | PERMISSION_DENIED gives "Location access was denied…", TIMEOUT gives "Location request timed out…", and every other code (POSITION_UNAVAILABLE) gives the default "Please allow location access…" message. The message contains "denied" exactly when the code is PERMISSION_DENIED. |
| `CaptureSession.StartLocationRequest` | src/components/TreeUploadPage.tsx:50-58 | Starting a request leaves image, timestamp, location and permission alone. With geolocation it turns the indicator on, clears the error and issues exactly one call with `RequestOptions`. Without geolocation it ends with the "not supported" error, the indicator off, and no call made. |
| `CaptureSession.SelectFile` | src/components/TreeUploadPage.tsx:38-48 | An empty selection changes nothing. Otherwise the first file becomes the image, the clock value becomes the timestamp and the previous location is kept, and then the request starts with the error cleared. |
| `CaptureSession.ApplyPosition` | src/components/TreeUploadPage.tsx:61-64 | The success callback stores the fix and turns the indicator off. It leaves error, image, timestamp and permission unchanged and settles one outstanding request. |
| `CaptureSession.ApplyPositionError` | src/components/TreeUploadPage.tsx:65-78 | The failure callback clears the location, turns the indicator off and sets exactly the message for the code. That message mentions "denied" only for PERMISSION_DENIED. Image and timestamp are kept. |
| `CaptureSession.RetryLocation` | src/components/TreeUploadPage.tsx:87-93 | With a known denied permission, only the "previously denied" message is set and no provider call is made. Otherwise it is exactly `StartLocationRequest`. |
| `CaptureSession.Submit` | src/components/TreeUploadPage.tsx:95-103 | A missing image gives "Please choose an image.". An image without a location gives the "Location is required" message. With both present nothing changes, not even an old error. Only `error` is ever changed. |
| `CaptureSession.SubmittedRecord` | src/components/TreeUploadPage.tsx:104-106 | A record is handed on exactly when image and location are present, and it carries those two and the timestamp. |
| `CaptureSession.UpdatePermission` | src/components/TreeUploadPage.tsx:14-23 | The query result and every later permission change replace `locationPermission` and nothing else. |
| `CaptureSession.SubmitDisabled` | src/components/TreeUploadPage.tsx:193-195 | An enabled button implies the handler hands the record on and changes nothing. A disabled button, when no request is in flight, implies the handler refuses with an error. |
| `CaptureSession.RetryButtonShown` | src/components/TreeUploadPage.tsx:161-174 | The retry button shows exactly when there is no location and no request in flight, and then the upload is disabled. |
| `CaptureSession.SettingsHintShown` | src/components/TreeUploadPage.tsx:182-189 | For every message the page can show, the settings hint appears exactly for the two permission-denied messages. It does not appear for the timeout, default, unsupported or submit messages. |
| `CaptureSession.InitialValid` | src/components/TreeUploadPage.tsx:4-9 | The mount state satisfies the invariant `Valid`. |
| `CaptureSession.StepKeepsValid` | src/components/TreeUploadPage.tsx:38-107 | Every event preserves `Valid`. `Valid` says: an image iff a non-empty timestamp; the indicator on only while a provider call is outstanding; every call made with high accuracy, a 10000 ms timeout and maximum age 0; the error one of the page's messages. |
| `CaptureSession.RunKeepsValid` | src/components/TreeUploadPage.tsx:38-107 | Any sequence of events preserves `Valid`. |
| `CaptureSession.ReachableImageHasTimestamp` | src/components/TreeUploadPage.tsx:42-43 | In every state reachable from mount, an image is present iff the timestamp is non-empty, and the indicator is on only with a request outstanding. |
| `CaptureSession.DeniedMessagesSayDenied` | src/components/TreeUploadPage.tsx:71-89 | Both permission messages contain "denied". |
| `CaptureSession.OtherMessagesDoNot` | src/components/TreeUploadPage.tsx:55-101 | The unsupported, timeout, default, no-image and no-location messages do not contain "denied". |
| `CaptureSession.SubmitIgnoresInFlightRequest` | src/components/TreeUploadPage.tsx:95-107 | With image and location present and a request in flight, the button is disabled, yet the handler would still hand the record on. |
| `CaptureSession.SubmitIdempotent` | src/components/TreeUploadPage.tsx:95-107 | Submitting twice gives the same state and the same record as submitting once. |
| `CaptureSession.LateFixPairsWithNewerImage` | src/components/TreeUploadPage.tsx:60-64 | After selecting A and then B, a fix that arrives while a request is still outstanding ends up paired with B and B's timestamp. |
| `CaptureSession.ReselectionKeepsLocation` | src/components/TreeUploadPage.tsx:42-47 | A new selection keeps the old location, so the upload is enabled for the new image once the request indicator is off. |
| `CaptureSession.Session.constructor` | src/components/TreeUploadPage.tsx:4-9 | A new page holds the mount state. |
| `CaptureSession.Session.OnPermissionChange` | src/components/TreeUploadPage.tsx:16-20 | The new state is `UpdatePermission` of the old one. |
| `CaptureSession.Session.HandleFileTrigger` | src/components/TreeUploadPage.tsx:31-36 | With the input mounted, its value is cleared and it is clicked once. The session state is unchanged either way. |
| `CaptureSession.Session.HandleFileChange` | src/components/TreeUploadPage.tsx:38-48 | The new state is `SelectFile` of the old one. |
| `CaptureSession.Session.RequestLocation` | src/components/TreeUploadPage.tsx:50-85 | The new state is `StartLocationRequest` of the old one. |
| `CaptureSession.Session.OnPositionSuccess` | src/components/TreeUploadPage.tsx:61-64 | The new state is `ApplyPosition` of the old one. |
| `CaptureSession.Session.OnPositionError` | src/components/TreeUploadPage.tsx:65-78 | The new state is `ApplyPositionError` of the old one. |
| `CaptureSession.Session.HandleManualLocationRequest` | src/components/TreeUploadPage.tsx:87-93 | The new state is `RetryLocation` of the old one. |
| `CaptureSession.Session.HandleSubmit` | src/components/TreeUploadPage.tsx:95-107 | The new state is `Submit` of the old one, and the logged record is `SubmittedRecord` of the old state. |
| `Registration.IndexOf` | src/components/RegistrationPage.tsx:28 | The result is the index of the first occurrence of the character, or None when the character does not occur. |
| `Registration.MatcherSound` | src/components/RegistrationPage.tsx:28 | Every string the hand-written matcher accepts matches the pattern, split at the first '@' and at a '.' inside the domain. |
| `Registration.MatcherComplete` | src/components/RegistrationPage.tsx:28 | Every string matching the pattern is accepted by the matcher: the pattern's '@' is the first one. |
| `Registration.EmailMatcherCorrect` | src/components/RegistrationPage.tsx:28 | The hand-written matcher accepts exactly the strings `a@b.c` where `a`, `b` and `c` are non-empty runs of non-whitespace, non-'@' characters. |
| `Registration.AcceptedEmailShape` | src/components/RegistrationPage.tsx:28 | The matcher accepts `e` iff `e` has no whitespace and exactly one '@', not at index 0, with a '.' after it that has at least one character before it (after the '@') and at least one after it. |
| `Registration.Utf16Length` | src/components/RegistrationPage.tsx:33 | `password.length` counts UTF-16 code units: between one and two per character. |
| `Registration.ValidationError` | src/components/RegistrationPage.tsx:23-41 | Each message is given exactly when its check fails and all earlier checks pass: required fields (confirmation excluded), then email pattern, then length at least 8, then confirmation match. None is given iff all pass. |
| `Registration.EmptyConfirmationIsMismatch` | src/components/RegistrationPage.tsx:23-41 | An empty confirmation is reported as "Passwords do not match", never as a missing field. |
| `Registration.WithField` | src/components/RegistrationPage.tsx:73-109 | Editing one input replaces that field of the form and no other. |
| `Registration.RegistrationPage.constructor` | src/components/RegistrationPage.tsx:10-17 | A new page has empty fields, no error, no success and is not loading. |
| `Registration.RegistrationPage.ChangeField` | src/components/RegistrationPage.tsx:73-109 | An input's change updates that field only and leaves loading, error, success and the stored tokens alone. |
| `Registration.RegistrationPage.BeginRegister` | src/components/RegistrationPage.tsx:20-43 | The error becomes the first failing check's message, or is cleared. The backend is called, and loading turned on, exactly when every check passes. Success and stored tokens are unchanged. |
| `Registration.RegistrationPage.FinishRegister` | src/components/RegistrationPage.tsx:44-61 | Loading ends whatever the outcome. Tokens are stored and success set only when both calls succeed. Any failure sets "Registration failed" and leaves success and storage as they were. |
| `AuthGate.StoredTokens` | src/App.tsx:12-13 | A present, non-empty local entry wins. Otherwise the session entry is used. The result counts iff either entry counts. |
| `AuthGate.MountValueAsWritten` | src/App.tsx:12-26 | As written, the effect stores `false` when no entry is stored or the parse throws. Otherwise it stores the token itself when the token is falsy, and the boolean `expires_in > 0` when it is truthy. So the stored value is a boolean or a falsy value, and it is truthy exactly when the token test passes. |
| `AuthGate.TokenValid` | src/App.tsx:15-26 | No stored tokens gives not authenticated. Otherwise the decision is the token test on the local entry when it is present, else on the session entry. It equals the truthiness of the value the source stores. |
| `AuthGate.UnparseableLocalTokensDeny` | src/App.tsx:20-22 | Local tokens that do not parse deny, even when session storage holds good ones. |
| `AuthGate.Render` | src/App.tsx:29-55 | Loading exactly while the state is null. `/` redirects to `/upload` or `/login`. `/login` and `/register` show their pages. The upload page appears exactly for an authenticated `/upload`; unauthenticated it redirects to `/login`. Every other path redirects to `/`. |
| `AuthGate.RoutesSettle` | src/App.tsx:32-55 | Within two redirects every path reaches a page: the registration page when asked for, otherwise the upload page for an authenticated user, and the login page for everyone else. |
| `AuthGate.RenderAsWritten` | src/App.tsx:29-55 | As written, the shell is loading exactly when the stored value is `null`, and shows the upload page exactly for a truthy value at `/upload`. |
| `AuthGate.NullAccessTokenStaysLoading` | src/App.tsx:17-19 | Stored tokens with `access_token: null` make the effect store `null`, so the shell as written stays on "Loading..." at every path. The boolean decision does not. |
| `AuthGate.AsWrittenAgreesElsewhere` | src/App.tsx:17-29 | Whenever the stored value is not `null`, the shell as written renders what the boolean decision renders. |
| `AuthGate.App.constructor` | src/App.tsx:9 | `isAuthenticated` starts as null. |
| `AuthGate.App.MountEffect` | src/App.tsx:11-27 | The effect sets `isAuthenticated` from null to the boolean `TokenValid`. |
| `AuthGate.App.CurrentView` | src/App.tsx:29 | The shell shows the loading view exactly while `isAuthenticated` is null. |

## Findings

| source | as written | input that shows it | evidently intended | confidence | as-written member | corrected member |
|---|---|---|---|---|---|---|
| src/App.tsx:17-19 | `setIsAuthenticated(access_token && expires_in > 0)` stores the token itself when it is falsy. A `null` token puts the state back to `null`, which line 29 reads as "still loading". | `localStorage` "tokens" = `{"access_token":null,"expires_in":300}` | not authenticated, so `/` redirects to `/login` | high, not executed | `AuthGate.NullAccessTokenStaysLoading` | `AuthGate.TokenValid` |

`AuthGate.App.MountEffect` uses the corrected, boolean decision.
`AuthGate.AsWrittenAgreesElsewhere` shows that the correction changes nothing
for any other stored value.

## Left out

- `AuthGate.App.MountEffect` stores the corrected boolean `TokenValid`, not the raw value of `access_token && expires_in > 0`. So the class does not reach the as-written state where a `null` token leaves `isAuthenticated` null and the shell on "Loading..."; that state is modelled by `MountValueAsWritten` and `RenderAsWritten` instead.
- Logout (src/components/TreeUploadPage.tsx:25-29) removes storage entries and reloads the page. It is pure I/O and is not modelled.
- Rendering and formatting are not modelled: JSX layout, the image preview via `URL.createObjectURL`, and the `toFixed(4)` and `toLocaleString()` output.
- The `setTimeout` redirect 1.5 s after a successful registration (src/components/RegistrationPage.tsx:55) is not modelled.
- Coordinates are JavaScript doubles. They are only stored, so the model keeps them as an opaque pair of `real`s.
- The clock is a `Timestamp` input, a non-empty string, because `toISOString` never yields an empty one.
- `navigator.geolocation` being present is a boolean input to each handler that can start a request. `navigator.permissions` being absent means `OnPermissionChange` never happens.
- The provider's callbacks are separate events. Each one needs a request still outstanding, because the platform answers each call at most once; it may never answer, for instance while a permission prompt is open. `Step` ignores a callback when none is outstanding.
- `console.log` and `console.error` are not modelled. What `handleSubmit` logs is returned as `HandleSubmit`'s `logged` result.
- A file input's `files` list is a sequence. An absent list and an empty one are both the empty sequence.
- Both backend calls of the registration page are one `BackendOutcome` input. `registerUserBackend` is imported at src/components/RegistrationPage.tsx:2 but not exported by src/auth/keycloakService.ts, which exports `registerUserFrontend`. A build with the import left undefined would always fail the first call (`RegisterRejected`). The model keeps the outcome free.
- A throw from `localStorage.setItem` inside the registration `try` block is not modelled separately. It would end like `LoginRejected`.
- `Registration.RegistrationPage.BeginRegister` and `ChangeField`: they require that no registration is loading, because the page hides the Register button and disables the inputs while loading.
- JSON numbers are `real`s. A string or an object reaches `expires_in > 0` through JavaScript's ToNumber, which the model takes as a given optional number (`None` for NaN).
- Route matching is exact string comparison. React Router's case-insensitive matching and its tolerance of a trailing slash are not modelled.
- The login page, the identity-provider initialisation (src/auth/initKeycloak.ts), src/auth/keycloakService.ts and backend/server.js are network glue and are not part of this model.
