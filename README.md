# TrackerLocationConsumer — a verified model of its state reducers

TrackerLocationConsumer is an Android app. A user signs up or logs in against a Firebase
backend, keeps a list of tracking targets (MQTT client ids) and watches their positions
arrive over an MQTT broker. This project models the parts of the app that decide state:

- the tracker view model: its target list, the flags of the tracker screen, and the filter
  that applies inbound positions only to tracked targets (`TrackerSpec`, `Tracker`);
- the ordered credential checks shared by the sign-up and login forms (`Credentials`);
- the two sign-up view models (`AuthSignUp`, `AuthLegacySignUp`);
- the two login view models (`AuthLogin`, `AuthLegacyLogin`);
- the four application-state drivers (`EntityAppStateDriver`, `ModelAppStateDriver`,
  `EntityApplicationStateDriver`, `ModelStateDriver`);
- `convertStringToLatLng` (`StringToLatLng`).

Supporting modules:

- `Text` gives Kotlin's `trim` (with the `Char.isWhitespace` set), `split` (empty pieces kept)
  and UTF-16 `length`.
- `Backend` holds the stored records, the replies of the backend callbacks and the requests
  the app sends.
- `Entity` and `FeatureLogin` hold the state records of the drivers.

The view models are classes whose fields the methods update, as the Kotlin code updates its
`MutableStateFlow`s. Everything outside the app is an input of the step that uses it:

- the reply of each backend request (an `Outcome` of success and optional message);
- the signed-in user (an optional uid);
- the email pattern (`emailMatches`);
- the number parser (`parse`).

A step dispatches actions back to its own handler, as the callbacks do. Each such step is
specified by a pure `...Effects` function, which gives the actions dispatched in order and
the backend requests sent. The method's contract says its new state is the pure reducer
folded over those actions. The tracker's target list is a sequence of `TrackingTarget`
objects, whose position and path are updated in place. It is proved against the value-level
`TrackerSpec.Step`, with a ghost mirror of the targets' values checked by `Valid()`.

Where the code's own comments or declarations and its behaviour disagree, the model follows
the behaviour:

- The KDoc of `handleAction` in `feature/auth/LoginViewModel.kt:40-43` says the action is
  handled by the driver, but that driver (`model/AppStateDriver.kt`) handles only other
  action types, so the forwarded login actions have no effect.
- `model/StateDriver.kt:29` reads `loginAction.username` from a `DoLogin` whose first field
  is declared `email`; the model takes the first field as the name.
- Both sign-up view models store `User(uid, username, email)`, which fills the fields of
  `model/User.kt` by position. The operations model that document as written; the intended
  one is `Backend.AccountRecord` (see "## Findings").

## Model

| member | source | states |
|---|---|---|
| TrackerSpec.NewTarget | app/src/main/java/com/madalin/trackerlocationconsumer/model/TrackingTarget.kt:8-12 | a new target has the given id, no current position and an empty path |
| TrackerSpec.IndexOfFirst | app/src/main/java/com/madalin/trackerlocationconsumer/feature/tracker/TrackerViewModel.kt:114 | the result is -1 exactly when no target has the id; otherwise it is the first index whose target has that id |
| TrackerSpec.Added | app/src/main/java/com/madalin/trackerlocationconsumer/feature/tracker/TrackerViewModel.kt:113-124 | an id already present (compared untrimmed) leaves the list unchanged; otherwise exactly one target with the trimmed id, no position and an empty path is appended after the unchanged old ones |
| TrackerSpec.Deleted | app/src/main/java/com/madalin/trackerlocationconsumer/feature/tracker/TrackerViewModel.kt:146-156 | an unknown id leaves the list unchanged; otherwise only the first target with that id is removed, and the others keep their order |
| TrackerSpec.PositionUpdated | app/src/main/java/com/madalin/trackerlocationconsumer/feature/tracker/TrackerViewModel.kt:222-234 | for a tracked id, the first matching target gets the point as its position and at the end of its path (path length +1); every other target is unchanged |
| TrackerSpec.Initial | app/src/main/java/com/madalin/trackerlocationconsumer/feature/tracker/TrackerViewModel.kt:51-54 | the view starts with no targets and with tracking started |
| TrackerSpec.Step | app/src/main/java/com/madalin/trackerlocationconsumer/feature/tracker/TrackerViewModel.kt:69-106 | no contract of its own; each case is stated by `FlagActionsSetOneField`, `TargetPathSelection`, `AddOnlyChangesTargets` and `DeleteKeepsPathSelection` |
| TrackerSpec.Received | app/src/main/java/com/madalin/trackerlocationconsumer/feature/tracker/TrackerViewModel.kt:203-235 | no contract of its own; `UntrackedMessageIgnored` states the untracked case, and `Tracker.TrackerViewModel.UpdateTargetPosition` / `ReceiveMessage` with `PositionUpdated` state the tracked one |
| TrackerSpec.SelfLocated | app/src/main/java/com/madalin/trackerlocationconsumer/feature/tracker/TrackerViewModel.kt:288-290 | no contract of its own; `Tracker.TrackerViewModel.OnSelfLocation` states that only `selfPosition` changes |
| TrackerSpec.FlagActionsSetOneField | app/src/main/java/com/madalin/trackerlocationconsumer/feature/tracker/TrackerViewModel.kt:78-84 | each dialog toggle, start/stop tracking and start/stop self-location sets exactly its own field and nothing else |
| TrackerSpec.TargetPathSelection | app/src/main/java/com/madalin/trackerlocationconsumer/feature/tracker/TrackerViewModel.kt:90-102 | showing a path sets the selected id and the shown flag; hiding resets them to "" and false; the targets stay |
| TrackerSpec.AddOnlyChangesTargets | app/src/main/java/com/madalin/trackerlocationconsumer/feature/tracker/TrackerViewModel.kt:113-124 | adding changes only the target list |
| TrackerSpec.DeleteKeepsPathSelection | app/src/main/java/com/madalin/trackerlocationconsumer/feature/tracker/TrackerViewModel.kt:146-156 | deleting changes only the target list: the selected path id and its shown flag survive even when that target is deleted |
| TrackerSpec.UntrackedMessageIgnored | app/src/main/java/com/madalin/trackerlocationconsumer/feature/tracker/TrackerViewModel.kt:203-211 | a message from a client id that no target has leaves the whole view state unchanged |
| TrackerSpec.DeletedAppended | app/src/main/java/com/madalin/trackerlocationconsumer/feature/tracker/TrackerViewModel.kt:118-152 | a target appended to a list without its id is found at the end, and deleting by its id gives the list back |
| TrackerSpec.DeleteUndoesAdd | app/src/main/java/com/madalin/trackerlocationconsumer/feature/tracker/TrackerViewModel.kt:113-156 | adding an untracked id that is already trimmed and then deleting it restores the list |
| TrackerSpec.DeleteMissesTrimmedTarget | app/src/main/java/com/madalin/trackerlocationconsumer/feature/tracker/TrackerViewModel.kt:118 | " a" is stored as "a", so deleting by " a" finds nothing |
| TrackerSpec.AddCanDuplicateIds | app/src/main/java/com/madalin/trackerlocationconsumer/feature/tracker/TrackerViewModel.kt:114-118 | id uniqueness is not kept by adding: " a" passes the check against "a" and is stored as "a" |
| TrackerSpec.AddedKeepsUniqueIds | app/src/main/java/com/madalin/trackerlocationconsumer/feature/tracker/TrackerViewModel.kt:113-124 | adding keeps ids unique exactly when the id is present as given, or its trimmed form is not present |
| TrackerSpec.DeletedKeepsUniqueIds | app/src/main/java/com/madalin/trackerlocationconsumer/feature/tracker/TrackerViewModel.kt:146-156 | deleting keeps ids unique |
| TrackerSpec.PositionUpdatedKeepsIds | app/src/main/java/com/madalin/trackerlocationconsumer/feature/tracker/TrackerViewModel.kt:222-234 | a position update keeps every id, so uniqueness and the target's index are kept |
| Tracker.TrackingTarget.constructor | app/src/main/java/com/madalin/trackerlocationconsumer/model/TrackingTarget.kt:8-12 | a new target object's value is the fresh target with the given id |
| Tracker.TrackerCalls | app/src/main/java/com/madalin/trackerlocationconsumer/feature/tracker/TrackerViewModel.kt:127-136 | at most one backend request: the new target's document on a real add by a signed-in user, the delete request on any delete by a signed-in user (even for an unknown id), none otherwise |
| Tracker.DistinctAfterRemoval | app/src/main/java/com/madalin/trackerlocationconsumer/feature/tracker/TrackerViewModel.kt:152 | removing one object from a list of distinct objects leaves them distinct |
| Tracker.MirrorAfterRemoval | app/src/main/java/com/madalin/trackerlocationconsumer/feature/tracker/TrackerViewModel.kt:152 | removing the same index from the objects and from their values keeps the two in step |
| Tracker.TrackerViewModel.constructor | app/src/main/java/com/madalin/trackerlocationconsumer/feature/tracker/TrackerViewModel.kt:51-54 | the view model starts in the initial view state, with tracking started |
| Tracker.TrackerViewModel.IndexOfTarget | app/src/main/java/com/madalin/trackerlocationconsumer/feature/tracker/TrackerViewModel.kt:114 | the first index of a target with the id, or -1 exactly when none has it |
| Tracker.TrackerViewModel.AddTarget | app/src/main/java/com/madalin/trackerlocationconsumer/feature/tracker/TrackerViewModel.kt:113-140 | the new state is the old one with the list `Added`; the old objects stay in place; the request follows `TrackerCalls` |
| Tracker.TrackerViewModel.RemoveTargetAt | app/src/main/java/com/madalin/trackerlocationconsumer/feature/tracker/TrackerViewModel.kt:152 | the target at the index is removed in place and nothing else of the view changes |
| Tracker.TrackerViewModel.DeleteTarget | app/src/main/java/com/madalin/trackerlocationconsumer/feature/tracker/TrackerViewModel.kt:146-168 | the new state is the old one with the list `Deleted`; the delete request is sent whenever a user is signed in |
| Tracker.TrackerViewModel.UpdateTargetPosition | app/src/main/java/com/madalin/trackerlocationconsumer/feature/tracker/TrackerViewModel.kt:222-235 | for a tracked id, the state is `Received`: that target object's position and path are updated in place and `isTargetUpdate` flips |
| Tracker.TrackerViewModel.ReceiveMessage | app/src/main/java/com/madalin/trackerlocationconsumer/feature/tracker/TrackerViewModel.kt:203-211 | a message updates the target with its client id, if tracked; otherwise nothing changes |
| Tracker.TrackerViewModel.StartTrackingTargets | app/src/main/java/com/madalin/trackerlocationconsumer/feature/tracker/TrackerViewModel.kt:193-194 | sets `isTracking` and nothing else |
| Tracker.TrackerViewModel.StopTrackingTargets | app/src/main/java/com/madalin/trackerlocationconsumer/feature/tracker/TrackerViewModel.kt:240-241 | clears `isTracking` and nothing else |
| Tracker.TrackerViewModel.StartUpdateSelfPosition | app/src/main/java/com/madalin/trackerlocationconsumer/feature/tracker/TrackerViewModel.kt:283-284 | sets `isShowSelfLocation` and nothing else |
| Tracker.TrackerViewModel.StopUpdateSelfPosition | app/src/main/java/com/madalin/trackerlocationconsumer/feature/tracker/TrackerViewModel.kt:303-304 | clears `isShowSelfLocation` and nothing else |
| Tracker.TrackerViewModel.OnSelfLocation | app/src/main/java/com/madalin/trackerlocationconsumer/feature/tracker/TrackerViewModel.kt:288-290 | a location fix sets `selfPosition` and nothing else |
| Tracker.TrackerViewModel.ToggleAddTargetDialog | app/src/main/java/com/madalin/trackerlocationconsumer/feature/tracker/TrackerViewModel.kt:78-80 | sets the add-target dialog flag to the given value and nothing else |
| Tracker.TrackerViewModel.ToggleShowTargetsDialog | app/src/main/java/com/madalin/trackerlocationconsumer/feature/tracker/TrackerViewModel.kt:82-84 | sets the targets dialog flag to the given value and nothing else |
| Tracker.TrackerViewModel.ShowTargetPath | app/src/main/java/com/madalin/trackerlocationconsumer/feature/tracker/TrackerViewModel.kt:90-95 | selects the target's path and shows it |
| Tracker.TrackerViewModel.HideTargetPath | app/src/main/java/com/madalin/trackerlocationconsumer/feature/tracker/TrackerViewModel.kt:97-102 | clears the path selection and hides it |
| Tracker.TrackerViewModel.HandleTrackerAction | app/src/main/java/com/madalin/trackerlocationconsumer/feature/tracker/TrackerViewModel.kt:69-106 | every tracker action takes the view to `Step` of the old view, and sends `TrackerCalls` |
| Text.Trim | app/src/main/java/com/madalin/trackerlocationconsumer/feature/auth/signup/SignUpViewModel.kt:83-85 | the result drops exactly the leading and trailing whitespace; it is empty exactly when the text is all whitespace, and otherwise starts and ends with a non-whitespace character |
| Text.TrimIdempotent | app/src/main/java/com/madalin/trackerlocationconsumer/feature/auth/signup/SignUpViewModel.kt:83-85 | trimming twice is trimming once |
| Text.Utf16Length | app/src/main/java/com/madalin/trackerlocationconsumer/feature/auth/signup/SignUpViewModel.kt:130 | a string's UTF-16 length is between its code-point count and twice that; it is 0 only for the empty string |
| Text.Split | app/src/main/java/com/madalin/trackerlocationconsumer/util/StringToLatLng.kt:11 | splitting gives one more part than there are delimiters, and no part contains the delimiter |
| Text.JoinSplit | app/src/main/java/com/madalin/trackerlocationconsumer/util/StringToLatLng.kt:11 | joining the parts of a split with the delimiter gives back the text |
| Text.SplitJoin | app/src/main/java/com/madalin/trackerlocationconsumer/util/StringToLatLng.kt:11 | splitting parts free of the delimiter, once joined, gives back the parts |
| Backend.MessageText | app/src/main/java/com/madalin/trackerlocationconsumer/feature/auth/SignUpViewModel.kt:103 | `toString()` of a message is the message itself, or "null" when there is none |
| Backend.PositionalUser | app/src/main/java/com/madalin/trackerlocationconsumer/feature/auth/signup/SignUpViewModel.kt:91 | no contract of its own (it is the document as written); `PositionalUserSwapsFields`, `PositionalUserExample` and the sign-up `StoredRecordIsSwapped` lemmas state what it stores |
| Backend.PositionalUserSwapsFields | app/src/main/java/com/madalin/trackerlocationconsumer/feature/auth/signup/SignUpViewModel.kt:91 | the document written by position has the username in `email` and the email in `name` whenever the two differ |
| Backend.PositionalUserExample | app/src/main/java/com/madalin/trackerlocationconsumer/feature/auth/SignUpViewModel.kt:98 | a concrete sign-up whose stored email is the username |
| Backend.AccountRecord | app/src/main/java/com/madalin/trackerlocationconsumer/model/User.kt:6-9 | the document with the uid as id, the email as email and the username as name |
| Credentials.LoginFailure | app/src/main/java/com/madalin/trackerlocationconsumer/feature/auth/login/LoginViewModel.kt:123-149 | the first failing login rule in the order email empty, email pattern, password empty, password shorter than 6; none exactly when the email is non-empty and matches and the password has at least 6 units |
| Credentials.SignUpFailure | app/src/main/java/com/madalin/trackerlocationconsumer/feature/auth/signup/SignUpViewModel.kt:122-159 | the first failing sign-up rule: username empty, username shorter than 3, then the login rules; none exactly when all pass (lengths 3 and 6 pass) |
| Credentials.LoginFailureIsFirstFailure | app/src/main/java/com/madalin/trackerlocationconsumer/feature/auth/login/LoginViewModel.kt:123-149 | the login check is the first failure of the ordered rule list |
| Credentials.SignUpFailureIsFirstFailure | app/src/main/java/com/madalin/trackerlocationconsumer/feature/auth/signup/SignUpViewModel.kt:122-159 | the sign-up check is the first failure of the ordered rule list |
| AuthSignUp.InitialSignUpViewState | app/src/main/java/com/madalin/trackerlocationconsumer/feature/auth/signup/SignUpViewState.kt:3-9 | the form starts empty, unregistered, without error |
| AuthSignUp.Reported | app/src/main/java/com/madalin/trackerlocationconsumer/feature/auth/signup/SignUpViewModel.kt:94 | a failure is dispatched only when the backend gives a message |
| AuthSignUp.Update | app/src/main/java/com/madalin/trackerlocationconsumer/feature/auth/signup/SignUpViewModel.kt:22-72 | no contract of its own; each case is stated by `FieldUpdatesClearError` and `SignUpResults` |
| AuthSignUp.CreateAccountEffects | app/src/main/java/com/madalin/trackerlocationconsumer/feature/auth/signup/SignUpViewModel.kt:82-113 | validation of the three trimmed fields gates every request; account creation gets the trimmed email and password; the stored document is the positional `User(uid, trimmed username, trimmed email)`; success is dispatched exactly when every step succeeds; a failed creation or store dispatches its message when it has one; no user id dispatches nothing; at most one action is dispatched |
| AuthSignUp.FieldUpdatesClearError | app/src/main/java/com/madalin/trackerlocationconsumer/feature/auth/signup/SignUpViewModel.kt:24-49 | each field edit sets only its field and clears the error |
| AuthSignUp.SignUpResults | app/src/main/java/com/madalin/trackerlocationconsumer/feature/auth/signup/SignUpViewModel.kt:57-70 | success registers and clears the error; failure sets only the error |
| AuthSignUp.CreateAccountOutcome | app/src/main/java/com/madalin/trackerlocationconsumer/feature/auth/signup/SignUpViewModel.kt:82-113 | the form after a whole sign-up: fields unchanged; registered exactly when every step succeeded (or already); the first failing rule, or a failed step's message when it has one (otherwise the old error), or no error after a successful store; unchanged when no user id is returned |
| AuthSignUp.SilentFailureKeepsState | app/src/main/java/com/madalin/trackerlocationconsumer/feature/auth/signup/SignUpViewModel.kt:94 | a backend failure without a message leaves the view state unchanged |
| AuthSignUp.StoredRecordIsSwapped | app/src/main/java/com/madalin/trackerlocationconsumer/feature/auth/signup/SignUpViewModel.kt:91 | the stored document has the trimmed username as email and the trimmed email as name; it is the intended document exactly when the two trimmed fields are equal |
| AuthSignUp.SignUpViewModel.constructor | app/src/main/java/com/madalin/trackerlocationconsumer/feature/auth/signup/SignUpViewModel.kt:14 | the view model starts with the initial form |
| AuthSignUp.SignUpViewModel.HandleSignUpAction | app/src/main/java/com/madalin/trackerlocationconsumer/feature/auth/signup/SignUpViewModel.kt:22-72 | a field edit or reply updates the form by `Update`; a sign-up runs as `CreateAccountEffects`, storing the positional document |
| AuthSignUp.SignUpViewModel.CreateAccount | app/src/main/java/com/madalin/trackerlocationconsumer/feature/auth/signup/SignUpViewModel.kt:82-98 | the form and the requests, including the positional user document, are those of `CreateAccountEffects` |
| AuthSignUp.SignUpViewModel.StoreAccountDataToFirestore | app/src/main/java/com/madalin/trackerlocationconsumer/feature/auth/signup/SignUpViewModel.kt:105-113 | stores the record, then dispatches success or the backend's message |
| AuthSignUp.SignUpViewModel.ValidateFields | app/src/main/java/com/madalin/trackerlocationconsumer/feature/auth/signup/SignUpViewModel.kt:122-159 | returns true exactly when no sign-up rule fails; otherwise reports the first failing rule |
| AuthLegacySignUp.LegacyCreateAccountEffects | app/src/main/java/com/madalin/trackerlocationconsumer/feature/auth/SignUpViewModel.kt:85-122 | as the newer sign-up, except that the positional document is built from the untrimmed username and email, a failed creation reports `toString()` of its message, and a store always dispatches success, followed by the failure text when the store failed |
| AuthLegacySignUp.FailedStoreStillRegisters | app/src/main/java/com/madalin/trackerlocationconsumer/feature/auth/SignUpViewModel.kt:116-120 | when storing fails after the account was created, the form ends registered and showing the failure |
| AuthLegacySignUp.LegacyStoredRecordIsSwapped | app/src/main/java/com/madalin/trackerlocationconsumer/feature/auth/SignUpViewModel.kt:98 | the stored document has the untrimmed username as email and the email as name; it is the intended document exactly when the two are equal |
| AuthLegacySignUp.SignUpViewModel.constructor | app/src/main/java/com/madalin/trackerlocationconsumer/feature/auth/SignUpViewModel.kt:14-15 | the view model starts with the initial form |
| AuthLegacySignUp.SignUpViewModel.HandleAction | app/src/main/java/com/madalin/trackerlocationconsumer/feature/auth/SignUpViewModel.kt:26-76 | a field edit or reply updates the form by `Update`; a sign-up runs as `LegacyCreateAccountEffects`, storing the positional document |
| AuthLegacySignUp.SignUpViewModel.CreateAccount | app/src/main/java/com/madalin/trackerlocationconsumer/feature/auth/SignUpViewModel.kt:85-106 | the form and requests, including the positional user document, are those of `LegacyCreateAccountEffects` |
| AuthLegacySignUp.SignUpViewModel.StoreAccountDataToFirestore | app/src/main/java/com/madalin/trackerlocationconsumer/feature/auth/SignUpViewModel.kt:112-122 | stores the record and always dispatches success, followed by the failure text when storing failed |
| AuthLegacySignUp.SignUpViewModel.ValidateFields | app/src/main/java/com/madalin/trackerlocationconsumer/feature/auth/SignUpViewModel.kt:131-168 | returns true exactly when no sign-up rule fails; otherwise reports the first failing rule |
| AuthLogin.InitialLoginViewState | app/src/main/java/com/madalin/trackerlocationconsumer/feature/auth/login/LoginViewState.kt:3-8 | the form starts empty, logged out, without error |
| AuthLogin.Reported | app/src/main/java/com/madalin/trackerlocationconsumer/feature/auth/login/LoginViewModel.kt:111 | a failure is dispatched only when the backend gives a message |
| AuthLogin.Update | app/src/main/java/com/madalin/trackerlocationconsumer/feature/auth/login/LoginViewModel.kt:54-92 | no contract of its own; each case is stated by `FieldUpdatesKeepError`, `LoginReplies` and `LogoutClears` |
| AuthLogin.LoginEffects | app/src/main/java/com/madalin/trackerlocationconsumer/feature/auth/login/LoginViewModel.kt:101-115 | the email is trimmed and the password is not; invalid fields send no request and report the first failing rule; valid ones send one sign-in, then dispatch success with the trimmed email, or the backend's message, or nothing |
| AuthLogin.FromAppState | app/src/main/java/com/madalin/trackerlocationconsumer/feature/auth/login/LoginViewModel.kt:33-40 | `reduce` copies the login status and last error, including an absent one, and keeps the fields |
| AuthLogin.FromAppStateIdempotent | app/src/main/java/com/madalin/trackerlocationconsumer/feature/auth/LoginViewModel.kt:31-38 | reducing twice with the same application state is reducing once |
| AuthLogin.FieldUpdatesKeepError | app/src/main/java/com/madalin/trackerlocationconsumer/feature/auth/login/LoginViewModel.kt:56-62 | field edits set only their field and keep the error |
| AuthLogin.LoginReplies | app/src/main/java/com/madalin/trackerlocationconsumer/feature/auth/login/LoginViewModel.kt:66-78 | success sets the email and logs in; failure logs out and sets the error; the password stays |
| AuthLogin.LogoutClears | app/src/main/java/com/madalin/trackerlocationconsumer/feature/auth/login/LoginViewModel.kt:80-90 | logout gives the initial form, and a second logout changes nothing |
| AuthLogin.LoginOutcome | app/src/main/java/com/madalin/trackerlocationconsumer/feature/auth/login/LoginViewModel.kt:101-115 | the form after a whole login: the first failing rule, logged in with the trimmed email, the backend's message, or unchanged |
| AuthLogin.LoginViewModel.constructor | app/src/main/java/com/madalin/trackerlocationconsumer/feature/auth/login/LoginViewModel.kt:18 | the view model starts with the initial form |
| AuthLogin.LoginViewModel.Reduce | app/src/main/java/com/madalin/trackerlocationconsumer/feature/auth/login/LoginViewModel.kt:33-40 | the form becomes `FromAppState` of the emitted application state |
| AuthLogin.LoginViewModel.HandleLoginAction | app/src/main/java/com/madalin/trackerlocationconsumer/feature/auth/login/LoginViewModel.kt:54-92 | a login runs as `LoginEffects`; other actions update the form by `Update`, and logout also signs out |
| AuthLogin.LoginViewModel.Login | app/src/main/java/com/madalin/trackerlocationconsumer/feature/auth/login/LoginViewModel.kt:101-115 | the form and requests are those of `LoginEffects` |
| AuthLogin.LoginViewModel.ValidateFields | app/src/main/java/com/madalin/trackerlocationconsumer/feature/auth/login/LoginViewModel.kt:123-149 | returns true exactly when no login rule fails; otherwise reports the first failing rule |
| AuthLegacyLogin.ScreenUpdateChangesOneField | app/src/main/java/com/madalin/trackerlocationconsumer/feature/auth/LoginViewModel.kt:48-58 | editing the email changes only the email; editing the password changes only the password |
| AuthLegacyLogin.ScreenUpdate | app/src/main/java/com/madalin/trackerlocationconsumer/feature/auth/LoginViewModel.kt:48-58 | no contract of its own; each case is stated by `ScreenUpdateChangesOneField` |
| AuthLegacyLogin.LoginViewModel.constructor | app/src/main/java/com/madalin/trackerlocationconsumer/feature/auth/LoginViewModel.kt:13-16 | the view model starts with the initial form and the given driver |
| AuthLegacyLogin.LoginViewModel.Reduce | app/src/main/java/com/madalin/trackerlocationconsumer/feature/auth/LoginViewModel.kt:31-38 | the form becomes `FromAppState` of the emitted application state |
| AuthLegacyLogin.LoginViewModel.HandleAction | app/src/main/java/com/madalin/trackerlocationconsumer/feature/auth/LoginViewModel.kt:44-46 | the forwarded action leaves the driver's state unchanged |
| AuthLegacyLogin.LoginViewModel.HandleLoginScreenAction | app/src/main/java/com/madalin/trackerlocationconsumer/feature/auth/LoginViewModel.kt:48-58 | the form becomes `ScreenUpdate` of the old form |
| Entity.DefaultAppState | app/src/main/java/com/madalin/trackerlocationconsumer/entity/AppState.kt:7-11 | the default state is logged out, with no user, no error and empty lists |
| Entity.DefaultState | app/src/main/java/com/madalin/trackerlocationconsumer/entity/State.kt:3-7 | the default state is logged out, with no user, no error and empty lists |
| Entity.DefaultApplicationState | app/src/main/java/com/madalin/trackerlocationconsumer/entity/ApplicationState.kt:9-13 | the default state is logged out, with no user, no error and empty lists |
| EntityAppStateDriver.LoginEffects | app/src/main/java/com/madalin/trackerlocationconsumer/entity/AppStateDriver.kt:83-135 | the email is trimmed and the password is not; invalid fields send no request and dispatch the first failing rule; valid ones send one sign-in and dispatch success with the trimmed email, or `OnLoginFailure` with `toString()` of the message ("null" when there is none) |
| EntityAppStateDriver.Next | app/src/main/java/com/madalin/trackerlocationconsumer/entity/AppStateDriver.kt:48-77 | no contract of its own; each case is stated by `LogoutGivesDefault`, `LoginSuccessState` and `LoginFailureIgnored` |
| EntityAppStateDriver.LogoutGivesDefault | app/src/main/java/com/madalin/trackerlocationconsumer/entity/AppStateDriver.kt:54-60 | logout gives the default state |
| EntityAppStateDriver.LoginSuccessState | app/src/main/java/com/madalin/trackerlocationconsumer/entity/AppStateDriver.kt:62-73 | success logs in with that email, an empty username, no error and empty lists |
| EntityAppStateDriver.LoginFailureIgnored | app/src/main/java/com/madalin/trackerlocationconsumer/entity/AppStateDriver.kt:75 | a login failure leaves the state unchanged: the error is not recorded |
| EntityAppStateDriver.LoginOutcome | app/src/main/java/com/madalin/trackerlocationconsumer/entity/AppStateDriver.kt:83-101 | a whole login leaves the state unchanged unless it succeeds, and then logs in with the trimmed email |
| EntityAppStateDriver.AppStateDriver.constructor | app/src/main/java/com/madalin/trackerlocationconsumer/entity/AppStateDriver.kt:21-22 | the driver starts in the default state |
| EntityAppStateDriver.AppStateDriver.HandleAction | app/src/main/java/com/madalin/trackerlocationconsumer/entity/AppStateDriver.kt:34-43 | a login action is handled as by `HandleLoginAction`; any other action changes nothing |
| EntityAppStateDriver.AppStateDriver.HandleLoginAction | app/src/main/java/com/madalin/trackerlocationconsumer/entity/AppStateDriver.kt:48-77 | a login runs as `LoginEffects`; the other actions take the state to `Next` |
| EntityAppStateDriver.AppStateDriver.HandleTrackerAction | app/src/main/java/com/madalin/trackerlocationconsumer/entity/AppStateDriver.kt:79-81 | tracker actions leave the state unchanged |
| EntityAppStateDriver.AppStateDriver.Login | app/src/main/java/com/madalin/trackerlocationconsumer/entity/AppStateDriver.kt:83-101 | the state and requests are those of `LoginEffects` |
| EntityAppStateDriver.AppStateDriver.ValidateFields | app/src/main/java/com/madalin/trackerlocationconsumer/entity/AppStateDriver.kt:109-135 | returns true exactly when no login rule fails; the dispatched failure leaves the state unchanged |
| ModelAppStateDriver.LogoutClearsLogin | app/src/main/java/com/madalin/trackerlocationconsumer/model/AppStateDriver.kt:55-65 | logout resets the login part (logged out, no user, no error) and keeps both lists |
| ModelAppStateDriver.Next | app/src/main/java/com/madalin/trackerlocationconsumer/model/AppStateDriver.kt:53-70 | no contract of its own; each case is stated by `LogoutClearsLogin`, `LogoutIdempotent` and `OtherLoginActionsIgnored` |
| ModelAppStateDriver.LogoutIdempotent | app/src/main/java/com/madalin/trackerlocationconsumer/model/AppStateDriver.kt:55-65 | a second logout changes nothing |
| ModelAppStateDriver.OtherLoginActionsIgnored | app/src/main/java/com/madalin/trackerlocationconsumer/model/AppStateDriver.kt:68 | every login action other than logout leaves the state unchanged |
| ModelAppStateDriver.AppStateDriver.constructor | app/src/main/java/com/madalin/trackerlocationconsumer/model/AppStateDriver.kt:24-27 | the driver starts in the default state |
| ModelAppStateDriver.AppStateDriver.HandleAction | app/src/main/java/com/madalin/trackerlocationconsumer/model/AppStateDriver.kt:39-48 | login actions take the state to `Next`, other actions change nothing; only logout sends the sign-out |
| ModelAppStateDriver.AppStateDriver.HandleLoginAction | app/src/main/java/com/madalin/trackerlocationconsumer/model/AppStateDriver.kt:53-70 | the state becomes `Next`; logout signs out of the backend |
| ModelAppStateDriver.AppStateDriver.HandleTrackerAction | app/src/main/java/com/madalin/trackerlocationconsumer/model/AppStateDriver.kt:72-74 | tracker actions leave the state unchanged |
| EntityApplicationStateDriver.LoginStoresName | app/src/main/java/com/madalin/trackerlocationconsumer/entity/ApplicationStateDriver.kt:52-61 | login logs in with the given name, no email, no error and empty lists |
| EntityApplicationStateDriver.Next | app/src/main/java/com/madalin/trackerlocationconsumer/entity/ApplicationStateDriver.kt:49-75 | no contract of its own; each case is stated by `LoginStoresName`, `LoginIgnoresPassword`, `LogoutGivesDefault` and `RepliesIgnored` |
| EntityApplicationStateDriver.LoginIgnoresPassword | app/src/main/java/com/madalin/trackerlocationconsumer/entity/ApplicationStateDriver.kt:52-61 | the state after login does not depend on the password |
| EntityApplicationStateDriver.LogoutGivesDefault | app/src/main/java/com/madalin/trackerlocationconsumer/entity/ApplicationStateDriver.kt:52-70 | logout gives the default state from any state, in particular right after a login |
| EntityApplicationStateDriver.RepliesIgnored | app/src/main/java/com/madalin/trackerlocationconsumer/entity/ApplicationStateDriver.kt:72-73 | login success and failure leave the state unchanged |
| EntityApplicationStateDriver.ApplicationStateDriver.constructor | app/src/main/java/com/madalin/trackerlocationconsumer/entity/ApplicationStateDriver.kt:22-23 | the driver starts in the default state |
| EntityApplicationStateDriver.ApplicationStateDriver.HandleAction | app/src/main/java/com/madalin/trackerlocationconsumer/entity/ApplicationStateDriver.kt:35-44 | login actions take the state to `Next`; other actions change nothing |
| EntityApplicationStateDriver.ApplicationStateDriver.HandleLoginAction | app/src/main/java/com/madalin/trackerlocationconsumer/entity/ApplicationStateDriver.kt:49-75 | the state becomes `Next` of the old state |
| EntityApplicationStateDriver.ApplicationStateDriver.HandleTrackerAction | app/src/main/java/com/madalin/trackerlocationconsumer/entity/ApplicationStateDriver.kt:77-79 | tracker actions leave the state unchanged |
| ModelStateDriver.LoginStoresName | app/src/main/java/com/madalin/trackerlocationconsumer/model/StateDriver.kt:25-34 | login logs in with the given name and empty lists; the password does not matter |
| ModelStateDriver.Next | app/src/main/java/com/madalin/trackerlocationconsumer/model/StateDriver.kt:23-46 | no contract of its own; each case is stated by `LoginStoresName`, `LogoutGivesDefault` and `RepliesIgnored` |
| ModelStateDriver.LogoutGivesDefault | app/src/main/java/com/madalin/trackerlocationconsumer/model/StateDriver.kt:36-42 | logout gives the default state |
| ModelStateDriver.RepliesIgnored | app/src/main/java/com/madalin/trackerlocationconsumer/model/StateDriver.kt:44-45 | login success and failure leave the state unchanged |
| ModelStateDriver.StateDriver.constructor | app/src/main/java/com/madalin/trackerlocationconsumer/model/StateDriver.kt:12-13 | the driver starts in the default state |
| ModelStateDriver.StateDriver.HandleAction | app/src/main/java/com/madalin/trackerlocationconsumer/model/StateDriver.kt:16-21 | the state after one call is already the reducer's result for that action |
| ModelStateDriver.StateDriver.HandleLoginAction | app/src/main/java/com/madalin/trackerlocationconsumer/model/StateDriver.kt:23-46 | the state becomes `Next` of the old state |
| ModelStateDriver.StateDriver.HandleTrackingAction | app/src/main/java/com/madalin/trackerlocationconsumer/model/StateDriver.kt:49-51 | tracking actions leave the state unchanged |
| StringToLatLng.ConvertStringToLatLng | app/src/main/java/com/madalin/trackerlocationconsumer/util/StringToLatLng.kt:10-26 | a text without exactly one comma gives null; a result exists exactly when both trimmed parts parse, latitude from the first part and longitude from the second |
| StringToLatLng.EmptyStringGivesNone | app/src/main/java/com/madalin/trackerlocationconsumer/util/StringToLatLng.kt:11-13 | the empty text gives null |
| StringToLatLng.TwoParts | app/src/main/java/com/madalin/trackerlocationconsumer/util/StringToLatLng.kt:11-21 | for two comma-free parts the result is the pair of their trimmed parses, or null when either fails |
| StringToLatLng.PartOrderMatters | app/src/main/java/com/madalin/trackerlocationconsumer/util/StringToLatLng.kt:17-21 | swapping the parts swaps latitude and longitude |

## Left out

- Coroutines, `Mutex` and flow collection are not modelled. Each action is one atomic step, as the mutex serialises them.
- The MQTT callback runs outside the mutex, so it races with the other steps. That race is not modelled. In particular, a target deleted between the callback's check and `updateTargetPosition` makes `indexOfFirst` give -1 and the update throw (`TrackerViewModel.kt:222-229`). `PositionUpdated` and `UpdateTargetPosition` require the id to be tracked and do not model that exception.
- The MQTT connection, subscription and disconnect (`TrackerViewModel.kt:197-200, 243-245`) are not modelled. They belong to a client class that is not part of this model.
- Device location updates and `showRouteToTarget` / `openGoogleMapsForRoute` are left out. They are location services and Intent launching. Only the location fix's effect (`selfPosition`) is modelled.
- `getTargetsFromFirestore`, which loads the saved targets at start, is left out. Its result is whatever the backend holds, so it is a backend read and not app logic.
- The Firebase wrappers (`FirebaseRepositoryImpl`) are not modelled. Each request's reply is an input, and each callback is assumed to fire once.
- CreateAccountOutcome: holds for a repository whose callback fires once. The shipped `repository/FirebaseRepositoryImpl.kt:42-47` calls `onComplete(true, null)` from the completion listener even when the store fails, then `onComplete(false, message)`. With it, the newer sign-up also ends registered after a failed store, as `AuthLegacySignUp.FailedStoreStillRegisters` shows for the older one.
- The legacy sign-up's complete and failure listeners are taken to run in that order.
- `Patterns.EMAIL_ADDRESS` is an Android regex and is not modelled. It is the parameter `emailMatches`.
- `String.toDouble` is not modelled. It is the parameter `parse`, and None stands for its `NumberFormatException`.
- Coordinates are opaque pairs of reals. Floating point, and the latitude clamping and the longitude wrapping into [-180, 180) done by Google's `LatLng`, are not modelled. So `ConvertStringToLatLng`, `TwoParts` and `PartOrderMatters` speak of the pair as parsed ("10,200" keeps 200 as its longitude), not of the normalised `LatLng`.
- The Android `Context` carried by the tracker actions, the logging, and the UI and navigation code are not modelled.
- `feature/login/LoginViewModel.kt` and `viewmodel/LoginViewModel.kt` are left out. They only collect flows around the same `reduce` as `feature/auth/LoginViewModel.kt`.
- `feature/tracker/TrackerViewState.kt` and `TrackerActions.kt` are left out because they are stale. The view state and actions come from what `TrackerViewModel.kt` uses.
- ModelStateDriver.Next: the source reads `username` from a login action whose first field is declared `email`. The model uses the first field as the name.

## Findings

| source | as written | input that shows it | evidently intended | confidence | as-written member | corrected member |
|---|---|---|---|---|---|---|
| app/src/main/java/com/madalin/trackerlocationconsumer/feature/auth/signup/SignUpViewModel.kt:91 and app/src/main/java/com/madalin/trackerlocationconsumer/feature/auth/SignUpViewModel.kt:98 | `User(uid, username, email)` passes by position into `User(id, email, name)` (`model/User.kt:6-9`), so the username is stored as the email and the email as the name | username "alice", email "alice@example.com": the stored document's email is "alice" | each value in its declared field: `User(id = uid, email = email, name = username)` | not executed | AuthSignUp.StoredRecordIsSwapped | Backend.AccountRecord |
