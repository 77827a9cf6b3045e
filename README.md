# Sign-up, sign-in and member directory screens

A model of the screen logic of a small React Native client with three
screens:

- **Sign-up** (`SignUp` module). `validateEmail` is the email pattern.
  `handleSubmit` runs four checks in order: all fields present, a
  10-character phone, a valid email, a password of 6 or more characters.
  The first check that fails is reported. When all pass, it raises
  `loading`, posts the four fields, and lowers `loading` whatever happens.
  Only an ok response clears the form and offers navigation to the user
  list.
- **Sign-in** (`Login` module). `handleLogin` checks the phone, then the
  password. It then raises `loading` and schedules a timer that lowers it
  and always reports success. `onGoogleButtonPress` runs four provider
  steps in order (three awaited calls and the synchronous building of a
  credential), and any failing step gives one generic error. No rendered
  element calls it.
- **Member directory** (`UserList` module). `fetchUsers` normalises the
  fetched JSON body into a list. It replaces `users` wholesale, or with
  `[]` when something throws, and lowers `loading` and `refreshing` in its
  `finally` block. `onRefresh` raises `refreshing` and fetches again; the
  pull-to-refresh control that calls it exists only once the spinner is
  gone.
  Rendering shows a spinner while loading. Otherwise it shows a member
  count and one row per record, keyed by position, where each field falls
  back to a default when falsy. An empty list gets a "No users found"
  message.

`Runtime` holds what the screens take from JavaScript and React Native:
JSON values and their truthiness, property reads, the characters `\s`
matches, decimal printing of indices, and alert dialogs.

Each async handler is split at its await (or its timer) into two methods:
the part that runs when the handler is called, and the part that runs when
the request settles or the timer fires. The network, JSON parsing and the
identity provider become inputs: `PostOutcome`, `FetchOutcome` and a
per-step success function. Alerts are returned values. Ghost counters
(`inFlight`, `pendingTimers`, `pending`) stand for the promises and timers
outstanding, so a completion can only follow its start.

Behaviour worth knowing:

- The phone check is on length only. Digits are not checked.
- A cancelled interactive Google sign-in makes one of the steps fail, so it
  lands in the same `catch` and shows "Google Sign-In failed". It is not a
  separate non-error outcome.
- As written, normalisation takes the `users` property whenever it is
  truthy, not only when it is a list. `NormaliseAsWritten` models that; the
  screen's state uses the corrected `Normalise`, which keeps only lists
  (see Findings and Left out).

## Model

| member | source | states |
|---|---|---|
| `Runtime.DecimalString` | UserListScreen.js:66 | `index.toString()`: a non-empty string of decimal digits whose value is the index, one character exactly for numbers below ten, and no leading zero except for 0 |
| `Runtime.DecimalStringInjective` | UserListScreen.js:66 | different indices print as different strings, since each string's digits denote its index |
| `SignUp.ValidateEmailMatchesPattern` | SignUpScreen.js:14 | the one-pass email test holds exactly when the whole string is a segment, `@`, a segment, `.`, a segment, where a segment is a non-empty run without whitespace or `@` |
| `SignUp.JoinPasses` | SignUpScreen.js:14 | every such join of three segments passes the email test |
| `SignUp.PassesIsJoin` | SignUpScreen.js:14 | every string that passes the email test is such a join |
| `SignUp.ValidateEmail` | SignUpScreen.js:14 | the email test holds iff: no whitespace, exactly one `@`, at least one character before it, and a `.` after it with a character on each side |
| `SignUp.EmailExamplesMatch` | SignUpScreen.js:14 | "a@b.c" and "a.b@c.d.e" match the pattern |
| `SignUp.EmailExamplesFail` | SignUpScreen.js:14 | "a@b", "abc" and "a@.c" do not match the pattern |
| `SignUp.Validate` | SignUpScreen.js:17-32 | the reported check fails and every check of lower rank passes (required, phone, email, password); nothing is reported only when every check passes |
| `SignUp.LaterChecksNotConsulted` | SignUpScreen.js:17-32 | two forms that agree on every check up to the reported one get the same report, so later checks play no part |
| `SignUp.ResponseAlert` | SignUpScreen.js:42-51 | an ok response gives the "Success" / "Account created!" alert, and navigation to "UserList" is offered iff the response is ok; not-ok gives "Failed to create account", a throw gives "Network error", both titled "Error" |
| `SignUp.SignUpForm.constructor` | SignUpScreen.js:6-10 | four empty fields, not loading, no request in flight |
| `SignUp.SignUpForm.HandleSubmit` | SignUpScreen.js:16-34 | a failing check shows its message, sends nothing and changes no state; otherwise `loading` is raised, the fields are kept, and the request carries the four fields |
| `SignUp.SignUpForm.ResponseArrived` | SignUpScreen.js:35-54 | the fields become empty iff the response is ok, otherwise they are unchanged; `loading` ends false for every outcome |
| `SignUp.SignUpForm.Submit` | SignUpScreen.js:16-55 | a request is sent iff validation passes; after it settles `loading` is false, and the form is empty iff the response was ok |
| `Login.Validate` | LoginScreen.js:40-47 | the phone is rejected iff its length is not 10, the empty phone included; the password is rejected iff the phone passed and the password is shorter than 6; the phone message wins when both fail |
| `Login.SameRulesAsSignUp` | LoginScreen.js:40-47 | the login checks accept exactly the phones and passwords the sign-up phone and password checks accept |
| `Login.LoginForm.constructor` | LoginScreen.js:8-10 | empty phone and password, not loading, no timer pending |
| `Login.LoginForm.HandleLogin` | LoginScreen.js:39-50 | a failing check shows its message and changes nothing, `loading` included; otherwise `loading` is raised and a timer is scheduled |
| `Login.LoginForm.TimerFired` | LoginScreen.js:50-53 | the timer lowers `loading` and always reports "Login successful!" |
| `Login.Attempted` | LoginScreen.js:18-27 | the steps run are a prefix of the chain; every step run but the last succeeded; a chain cut short ends at a failing step |
| `Login.AttemptedAllSucceed` | LoginScreen.js:18-27 | every step run succeeds iff every step of the chain succeeds, and then the whole chain runs |
| `Login.OnGoogleButtonPress` | LoginScreen.js:17-28 | runs the Play-services check, sign-in, credential and Firebase sign-in steps up to the first failure; success is shown iff all four succeed, otherwise the one "Google Sign-In failed" message |
| `UserList.NormaliseAsWritten` | UserListScreen.js:13 | as written: an array body is stored as is; otherwise a truthy `users` property is stored as is, whatever its kind; otherwise `[]`; so the result is an array iff the body is an array or its `users` property is a missing, falsy or array value |
| `UserList.NonArrayUsersStored` | UserListScreen.js:13 | the body `{"users": "x"}` stores the string "x" in `users` |
| `UserList.Normalise` | UserListScreen.js:13 | a bare array is used as is; otherwise an array `users` property is used; any non-empty result comes from one of these two |
| `UserList.NormaliseAgreesWithAsWritten` | UserListScreen.js:13 | the list used equals what the code stores whenever that is an array; they differ only for a truthy non-array `users`, where the list used is empty |
| `UserList.NormaliseEmptyBodies` | UserListScreen.js:13 | `[]`, `{}`, `null` and objects whose `users` is missing or falsy all give the empty list |
| `UserList.FetchResult` | UserListScreen.js:10-16 | a throw gives `[]`, a parsed body its normalised list; the result does not depend on the previous list |
| `UserList.Shown` | UserListScreen.js:35-42 | a card line is the record's field when truthy, else the fallback, and is never falsy |
| `UserList.RenderUser` | UserListScreen.js:32-45 | photo, name, email, phone and gender fall back to the placeholder URL, "Unknown", "No email", "N/A" and "N/A"; rendering a `null` record throws |
| `UserList.CardShowsRecord` | UserListScreen.js:35-42 | no card line is ever falsy, and a record whose five fields are all truthy is shown unchanged |
| `UserList.SingleNamedMember` | UserListScreen.js:32-45 | `[{"Name": "A"}]` gives one member shown as "A" with every other line at its fallback |
| `UserList.Rows` | UserListScreen.js:63-66 | one row per record, in order, keyed by its position in decimal |
| `UserList.Render` | UserListScreen.js:47-80 | the spinner with "Loading..." is shown iff loading; otherwise the title "Users", a header reading the list's length followed by " members", one row per record, the refresh indicator as given, and "No users found" exactly when the list is empty |
| `UserList.RowKeysDistinct` | UserListScreen.js:66 | no two rows share a key |
| `UserList.CountLabelIsSize` | UserListScreen.js:60 | two lists shown with the same header have the same length |
| `UserList.DirectoryScreen.constructor` | UserListScreen.js:5-7 | on mount: no users, loading, not refreshing; the mount effect (lines 23-25) starts one fetch; the screen invariant holds |
| `UserList.DirectoryScreen.OnRefresh` | UserListScreen.js:27-30 | callable only once loading is over, since the refresh control is rendered only then (lines 47-54, 68-73); `refreshing` is raised and a fetch starts; `users` is untouched; the invariant is kept |
| `UserList.DirectoryScreen.FetchCompleted` | UserListScreen.js:9-21 | `users` is replaced by the fetch result, `[]` after a throw; `loading` and `refreshing` are both false afterwards; the invariant is kept |
| `UserList.OverlappingRefreshes` | UserListScreen.js:9-30 | after the mount fetch, two refreshes show the list with the refresh indicator; the first completion lowers it while the other fetch is out; the final list is the last response's, not a merge |

## Left out

- Layout, styles, text-input props (`maxLength`, keyboard types) and the
  navigation container wiring: presentation only. The `disabled={loading}`
  on the buttons is left out too. The handlers do not check `loading`
  themselves, so the model lets a second submission start while one is in
  flight.
- Typing into the inputs: the form fields are public variables, and an
  edit is a plain assignment to them.
- The network, `response.json()`, the Google and Firebase SDKs and
  `GoogleSignin.configure`: these are foreign calls, modelled only as
  their outcomes. The token and credential passed between the Google steps
  are not modelled, only whether each step throws.
- `Alert.alert`, `console.error` and `console.log`: I/O. Alerts are
  returned values and the logging is dropped. Navigation is the route
  named by the success alert's "OK" button. Pressing it is not modelled.
- The one-second delay of the login timer and the interleaving of
  overlapping fetches: timing and concurrency. Completions are modelled as
  events that happen one at a time, in any order, after their start.
- The stray JSX element between `onGoogleButtonPress` and `handleLogin`
  (LoginScreen.js:31-36): an expression statement with no effect. It is
  the only reference to `onGoogleButtonPress`; the rendered screen
  (lines 56-90) has no Google button, so nothing calls the handler.
  `Login.OnGoogleButtonPress` models what it would do if called.
- String lengths are counted in Dafny characters. JavaScript counts UTF-16
  code units, so a character outside the Basic Multilingual Plane counts
  once here and twice there.
- JSON numbers are reals, so NaN and infinities, which JSON cannot carry,
  do not occur. Property reads see a parsed object's own keys only. None of
  the keys read (`users`, `Photo`, `Name`, `Email`, `PhoneNumber`,
  `Gender`) is inherited from a prototype.
- UserList.FetchResult and UserList.DirectoryScreen.FetchCompleted: the
  screen's state keeps the corrected list. A body whose `users` property
  is a truthy non-array is stored as `[]`, where the code as written
  stores that value itself (`UserList.NormaliseAsWritten`). The model's
  `users` is a list of records, so it cannot hold a string or a number.
- `FlatList`'s virtualised, lazy rendering: every row is modelled as
  rendered. A `null` record appears as a row without a card, standing for
  the error its render throws.

## Findings

| source | as written | input that shows it | evidently intended | confidence | as-written member | corrected member |
|---|---|---|---|---|---|---|
| UserListScreen.js:13 | a non-array body's `users` property is stored whenever it is truthy, even when it is not an array | the body `{"users": "x"}` stores the string "x", so the header shows "1 members" and the list is handed a string | `users` always holds a list: a non-array `users` property counts as no list | medium, not executed | `UserList.NonArrayUsersStored` | `UserList.Normalise` |
