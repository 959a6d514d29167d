/**
 * The sign-up screen's view model (`feature/auth/signup/SignUpViewModel.kt`): a form whose
 * fields the screen edits, and an account creation that trims all three fields, validates
 * them, creates the account, and stores the user document. The backend's replies are inputs.
 */
module AuthSignUp {
  import opened Wrappers
  import opened Text
  import opened Credentials
  import opened Backend

  /** `SignUpViewState.kt` (both sign-up packages declare the same fields). */
  datatype SignUpViewState = SignUpViewState(username: string, email: string, password: string, hasRegistered: bool, errorMessage: Option<string>)

  /** `SignUpViewState()`. */
  function InitialSignUpViewState(): (v: SignUpViewState)
    ensures v.username == [] && v.email == [] && v.password == [] && !v.hasRegistered && v.errorMessage.None?
  {
    SignUpViewState("", "", "", false, None)
  }

  /** `SignUpActions.kt` (the older `SignUpScreenAction.kt` has the same cases). */
  datatype SignUpAction =
    | UpdateUsernameTextField(username: string)
    | UpdateEmailTextField(email: string)
    | UpdatePasswordTextField(password: string)
    | CreateAccount(username: string, email: string, password: string)
    | OnSignUpSuccess
    | OnSignUpFailure(errorMessage: string)

  /** The backend's replies during one account creation: creating the account, the signed-in user's id, storing the document. */
  datatype SignUpReplies = SignUpReplies(creation: Outcome, currentUser: Option<string>, storing: Outcome)

  /**
   * What the action handler does to the view state for one action. `CreateAccount` changes
   * nothing itself: its effect is the actions it dispatches.
   */
  function Update(v: SignUpViewState, a: SignUpAction): SignUpViewState {
    match a
    case UpdateUsernameTextField(username) => v.(username := username, errorMessage := None)
    case UpdateEmailTextField(email) => v.(email := email, errorMessage := None)
    case UpdatePasswordTextField(password) => v.(password := password, errorMessage := None)
    case CreateAccount(_, _, _) => v
    case OnSignUpSuccess => v.(hasRegistered := true, errorMessage := None)
    case OnSignUpFailure(message) => v.(errorMessage := Some(message))
  }

  /** The actions applied one after the other. */
  function UpdateAll(v: SignUpViewState, actions: seq<SignUpAction>): SignUpViewState
    decreases |actions|
  {
    if actions == [] then v else UpdateAll(Update(v, actions[0]), actions[1..])
  }

  /** Applying a single action is one update. */
  lemma UpdateOne(v: SignUpViewState, a: SignUpAction)
    ensures UpdateAll(v, [a]) == Update(v, a)
  {
    assert [a][1..] == [];
  }

  /** `errorMessage?.let { OnSignUpFailure(it) }`: a failure is reported only when it carries a message. */
  function Reported(message: Option<string>): (actions: seq<SignUpAction>)
    ensures message.None? ==> actions == []
    ensures message.Some? ==> actions == [OnSignUpFailure(message.value)]
  {
    match message
    case None => []
    case Some(m) => [OnSignUpFailure(m)]
  }

  /**
   * `createAccount(username, email, password)`: all three fields are trimmed and validated;
   * invalid fields report the first failing rule and send nothing. Valid ones create the
   * account with the trimmed email and password; when that succeeds and a user is signed in,
   * the user document is stored as written, `User(uid, username, email)` by position (see
   * `StoredRecordIsSwapped`), and only a successful store registers. A failed step reports its
   * message; a failure without a message is not reported.
   */
  function CreateAccountEffects(emailMatches: string -> bool, username: string, email: string, password: string, replies: SignUpReplies)
    : (e: Effects<SignUpAction>)
    ensures var failure := SignUpFailure(emailMatches, Trim(username), Trim(email), Trim(password));
            && (e.calls == [] <==> failure.Some?)
            && (failure.Some? ==> e.dispatched == [OnSignUpFailure(failure.value)])
            && (e.calls != [] ==> e.calls[0] == CreateUser(Trim(email), Trim(password)))
            && (|e.calls| == 2 <==> failure.None? && replies.creation.isSuccess && replies.currentUser.Some?)
            && (|e.calls| == 2 ==> e.calls[1] == StoreAccountData(PositionalUser(replies.currentUser.value, Trim(username), Trim(email))))
            && (OnSignUpSuccess in e.dispatched
                <==> failure.None? && replies.creation.isSuccess && replies.currentUser.Some? && replies.storing.isSuccess)
    ensures var failure := SignUpFailure(emailMatches, Trim(username), Trim(email), Trim(password));
            && (failure.None? && !replies.creation.isSuccess ==> e.dispatched == Reported(replies.creation.errorMessage))
            && (failure.None? && replies.creation.isSuccess && replies.currentUser.None? ==> e.dispatched == [])
            && (|e.calls| == 2 && !replies.storing.isSuccess ==> e.dispatched == Reported(replies.storing.errorMessage))
    ensures |e.calls| <= 2 && |e.dispatched| <= 1
  {
    var username', email', password' := Trim(username), Trim(email), Trim(password);
    match SignUpFailure(emailMatches, username', email', password')
    case Some(message) => Effects([OnSignUpFailure(message)], [])
    case None =>
      var create := CreateUser(email', password');
      if !replies.creation.isSuccess then Effects(Reported(replies.creation.errorMessage), [create])
      else match replies.currentUser
        case None => Effects([], [create])
        case Some(uid) =>
          var dispatched := if replies.storing.isSuccess then [OnSignUpSuccess] else Reported(replies.storing.errorMessage);
          Effects(dispatched, [create, StoreAccountData(PositionalUser(uid, username', email'))])
  }

  /** Editing a field sets that field and clears the error; nothing else changes. */
  lemma FieldUpdatesClearError(v: SignUpViewState, text: string)
    ensures Update(v, UpdateUsernameTextField(text)) == v.(username := text, errorMessage := None)
    ensures Update(v, UpdateEmailTextField(text)) == v.(email := text, errorMessage := None)
    ensures Update(v, UpdatePasswordTextField(text)) == v.(password := text, errorMessage := None)
  {
  }

  /** Success registers and clears the error; a failure sets only the error. */
  lemma SignUpResults(v: SignUpViewState, message: string)
    ensures Update(v, OnSignUpSuccess) == v.(hasRegistered := true, errorMessage := None)
    ensures Update(v, OnSignUpFailure(message)) == v.(errorMessage := Some(message))
  {
  }

  /**
   * The view state after a whole account creation: the form fields never change, the account
   * counts as registered exactly when it was already or every step succeeded, and invalid
   * fields show the first failing rule.
   */
  lemma {:induction false} CreateAccountOutcome(v: SignUpViewState, emailMatches: string -> bool, username: string, email: string,
                                                password: string, replies: SignUpReplies)
    ensures var r := UpdateAll(v, CreateAccountEffects(emailMatches, username, email, password, replies).dispatched);
            var failure := SignUpFailure(emailMatches, Trim(username), Trim(email), Trim(password));
            && r.username == v.username && r.email == v.email && r.password == v.password
            && (r.hasRegistered <==> v.hasRegistered
                                     || (failure.None? && replies.creation.isSuccess && replies.currentUser.Some? && replies.storing.isSuccess))
            && (failure.Some? ==> r.errorMessage == failure)
            && (failure.None? && !replies.creation.isSuccess
                ==> r.errorMessage == if replies.creation.errorMessage.Some? then replies.creation.errorMessage else v.errorMessage)
            && (failure.None? && replies.creation.isSuccess && replies.currentUser.None? ==> r == v)
            && (failure.None? && replies.creation.isSuccess && replies.currentUser.Some? && replies.storing.isSuccess
                ==> r.errorMessage.None?)
            && (failure.None? && replies.creation.isSuccess && replies.currentUser.Some? && !replies.storing.isSuccess
                ==> r.errorMessage == if replies.storing.errorMessage.Some? then replies.storing.errorMessage else v.errorMessage)
  {
    var e := CreateAccountEffects(emailMatches, username, email, password, replies);
    if e.dispatched != [] {
      UpdateOne(v, e.dispatched[0]);
      assert e.dispatched == [e.dispatched[0]];
    }
  }

  /** A failed step whose reply carries no message leaves the view state exactly as it was. */
  lemma {:induction false} SilentFailureKeepsState(v: SignUpViewState, emailMatches: string -> bool, username: string, email: string,
                                                   password: string, replies: SignUpReplies)
    requires SignUpFailure(emailMatches, Trim(username), Trim(email), Trim(password)).None?
    requires || (!replies.creation.isSuccess && replies.creation.errorMessage.None?)
             || (replies.creation.isSuccess && replies.currentUser.Some? && !replies.storing.isSuccess && replies.storing.errorMessage.None?)
    ensures UpdateAll(v, CreateAccountEffects(emailMatches, username, email, password, replies).dispatched) == v
  {
    assert CreateAccountEffects(emailMatches, username, email, password, replies).dispatched == [];
  }

  /**
   * The stored user document puts the trimmed email in `name` and the trimmed username in
   * `email`, so it is the intended document exactly when the two trimmed fields are equal.
   */
  lemma StoredRecordIsSwapped(emailMatches: string -> bool, username: string, email: string, password: string, replies: SignUpReplies)
    requires SignUpFailure(emailMatches, Trim(username), Trim(email), Trim(password)).None?
    requires replies.creation.isSuccess && replies.currentUser.Some?
    ensures var e := CreateAccountEffects(emailMatches, username, email, password, replies);
            && |e.calls| == 2 && e.calls[1].StoreAccountData?
            && e.calls[1].user == AccountRecord(replies.currentUser.value, Trim(email), Trim(username))
            && (e.calls[1].user == AccountRecord(replies.currentUser.value, Trim(username), Trim(email)) <==> Trim(username) == Trim(email))
  {
  }

  /** The sign-up screen's view model. The backend's replies and the email pattern are inputs of each step. */
  class SignUpViewModel {
    var viewState: SignUpViewState

    constructor ()
      ensures viewState == InitialSignUpViewState()
    {
      viewState := InitialSignUpViewState();
    }

    /** `handleSignUpAction`: account creation runs as described by `CreateAccountEffects`. */
    method HandleSignUpAction(action: SignUpAction, emailMatches: string -> bool, replies: SignUpReplies) returns (calls: seq<BackendCall>)
      modifies this
      decreases if action.CreateAccount? then 3 else 0
      ensures action.CreateAccount? ==>
                var e := CreateAccountEffects(emailMatches, action.username, action.email, action.password, replies);
                viewState == UpdateAll(old(viewState), e.dispatched) && calls == e.calls
      ensures !action.CreateAccount? ==> viewState == Update(old(viewState), action) && calls == []
    {
      calls := [];
      match action
      case UpdateUsernameTextField(username) =>
        viewState := viewState.(username := username, errorMessage := None);
      case UpdateEmailTextField(email) =>
        viewState := viewState.(email := email, errorMessage := None);
      case UpdatePasswordTextField(password) =>
        viewState := viewState.(password := password, errorMessage := None);
      case CreateAccount(username, email, password) =>
        calls := CreateAccount(username, email, password, emailMatches, replies);
      case OnSignUpSuccess =>
        viewState := viewState.(hasRegistered := true, errorMessage := None);
      case OnSignUpFailure(message) =>
        viewState := viewState.(errorMessage := Some(message));
    }

    /** `createAccount`: trims, validates, creates the account, and stores the user document. */
    method CreateAccount(username: string, email: string, password: string, emailMatches: string -> bool, replies: SignUpReplies)
      returns (calls: seq<BackendCall>)
      modifies this
      decreases 2
      ensures var e := CreateAccountEffects(emailMatches, username, email, password, replies);
              viewState == UpdateAll(old(viewState), e.dispatched) && calls == e.calls
    {
      var username', email', password' := Trim(username), Trim(email), Trim(password);
      calls := [];
      var valid := ValidateFields(username', email', password', emailMatches, replies);
      if valid {
        calls := [CreateUser(email', password')];
        if replies.creation.isSuccess {
          if replies.currentUser.Some? {
            var more := StoreAccountDataToFirestore(PositionalUser(replies.currentUser.value, username', email'), emailMatches, replies);
            calls := calls + more;
          }
        } else if replies.creation.errorMessage.Some? {
          ghost var before := viewState;
          var ignored := HandleSignUpAction(OnSignUpFailure(replies.creation.errorMessage.value), emailMatches, replies);
          UpdateOne(before, OnSignUpFailure(replies.creation.errorMessage.value));
        }
      }
    }

    /** `storeAccountDataToFirestore`: a successful store registers; a failure reports its message if it has one. */
    method StoreAccountDataToFirestore(user: User, emailMatches: string -> bool, replies: SignUpReplies) returns (calls: seq<BackendCall>)
      modifies this
      decreases 1
      ensures calls == [StoreAccountData(user)]
      ensures viewState == UpdateAll(old(viewState),
                                     if replies.storing.isSuccess then [OnSignUpSuccess] else Reported(replies.storing.errorMessage))
    {
      calls := [StoreAccountData(user)];
      if replies.storing.isSuccess {
        var ignored := HandleSignUpAction(OnSignUpSuccess, emailMatches, replies);
        UpdateOne(old(viewState), OnSignUpSuccess);
      } else if replies.storing.errorMessage.Some? {
        var ignored := HandleSignUpAction(OnSignUpFailure(replies.storing.errorMessage.value), emailMatches, replies);
        UpdateOne(old(viewState), OnSignUpFailure(replies.storing.errorMessage.value));
      }
    }

    /** `validateFields`: the first failing rule is dispatched as a sign-up failure. */
    method ValidateFields(username: string, email: string, password: string, emailMatches: string -> bool, replies: SignUpReplies)
      returns (valid: bool)
      modifies this
      decreases 1
      ensures valid <==> SignUpFailure(emailMatches, username, email, password).None?
      ensures viewState == UpdateAll(old(viewState), Reported(SignUpFailure(emailMatches, username, email, password)))
    {
      var message: Option<string> := None;
      if username == [] {
        message := Some(UsernameEmpty);
      } else if Utf16Length(username) < MinUsernameLength {
        message := Some(UsernameTooShort);
      } else if email == [] {
        message := Some(EmailEmpty);
      } else if !emailMatches(email) {
        message := Some(EmailInvalid);
      } else if password == [] {
        message := Some(PasswordEmpty);
      } else if Utf16Length(password) < MinPasswordLength {
        message := Some(PasswordTooShort);
      }
      valid := message.None?;
      if !valid {
        var ignored := HandleSignUpAction(OnSignUpFailure(message.value), emailMatches, replies);
        UpdateOne(old(viewState), OnSignUpFailure(message.value));
      }
    }
  }
}

/**
 * The older sign-up view model (`feature/auth/SignUpViewModel.kt`), which calls the backend
 * directly. It shares the view state, the actions and their handling with the newer one; its
 * account creation differs: the user document is built from the untrimmed username and email, and the
 * backend's completion listener fires on failure as well as on success.
 */
module AuthLegacySignUp {
  import opened Wrappers
  import opened Text
  import opened Credentials
  import opened Backend
  import opened AuthSignUp

  /**
   * `createAccount` of the older view model. A failed account creation reports its message as
   * text ("null" when it has none). The store's completion listener dispatches a success even
   * when the store fails, and its failure listener then reports the failure.
   */
  function LegacyCreateAccountEffects(emailMatches: string -> bool, username: string, email: string, password: string, replies: SignUpReplies)
    : (e: Effects<SignUpAction>)
    ensures var failure := SignUpFailure(emailMatches, Trim(username), Trim(email), Trim(password));
            && (e.calls == [] <==> failure.Some?)
            && (failure.Some? ==> e.dispatched == [OnSignUpFailure(failure.value)])
            && (e.calls != [] ==> e.calls[0] == CreateUser(Trim(email), Trim(password)))
            && (|e.calls| == 2 <==> failure.None? && replies.creation.isSuccess && replies.currentUser.Some?)
            && (|e.calls| == 2 ==> e.calls[1] == StoreAccountData(PositionalUser(replies.currentUser.value, username, email)))
            && (OnSignUpSuccess in e.dispatched <==> |e.calls| == 2)
            && (failure.None? && !replies.creation.isSuccess
                ==> e.dispatched == [OnSignUpFailure(MessageText(replies.creation.errorMessage))])
    ensures (SignUpFailure(emailMatches, Trim(username), Trim(email), Trim(password)).None? && replies.creation.isSuccess
             && replies.currentUser.None?) ==> e.dispatched == []
    ensures |e.calls| == 2 ==> e.dispatched == [OnSignUpSuccess] + if replies.storing.isSuccess then []
                                                                   else [OnSignUpFailure(MessageText(replies.storing.errorMessage))]
  {
    var username', email', password' := Trim(username), Trim(email), Trim(password);
    match SignUpFailure(emailMatches, username', email', password')
    case Some(message) => Effects([OnSignUpFailure(message)], [])
    case None =>
      var create := CreateUser(email', password');
      if !replies.creation.isSuccess then Effects([OnSignUpFailure(MessageText(replies.creation.errorMessage))], [create])
      else match replies.currentUser
        case None => Effects([], [create])
        case Some(uid) =>
          var failed := if replies.storing.isSuccess then [] else [OnSignUpFailure(MessageText(replies.storing.errorMessage))];
          Effects([OnSignUpSuccess] + failed, [create, StoreAccountData(PositionalUser(uid, username, email))])
  }

  /**
   * A failed store still marks the account as registered, with the failure's text as the
   * error. (This relies on the listeners running in the order they were added.)
   */
  lemma {:induction false} FailedStoreStillRegisters(v: SignUpViewState, emailMatches: string -> bool, username: string, email: string,
                                                    password: string, replies: SignUpReplies)
    requires SignUpFailure(emailMatches, Trim(username), Trim(email), Trim(password)).None?
    requires replies.creation.isSuccess && replies.currentUser.Some? && !replies.storing.isSuccess
    ensures var r := UpdateAll(v, LegacyCreateAccountEffects(emailMatches, username, email, password, replies).dispatched);
            r.hasRegistered && r.errorMessage == Some(MessageText(replies.storing.errorMessage))
  {
    var d := LegacyCreateAccountEffects(emailMatches, username, email, password, replies).dispatched;
    var failure := OnSignUpFailure(MessageText(replies.storing.errorMessage));
    assert d == [OnSignUpSuccess, failure];
    assert d[1..] == [failure];
    UpdateOne(Update(v, OnSignUpSuccess), failure);
  }

  /**
   * The older view model stores the untrimmed fields, swapped in the same way: the document is
   * the intended one exactly when the username and the email are equal as given.
   */
  lemma LegacyStoredRecordIsSwapped(emailMatches: string -> bool, username: string, email: string, password: string, replies: SignUpReplies)
    requires SignUpFailure(emailMatches, Trim(username), Trim(email), Trim(password)).None?
    requires replies.creation.isSuccess && replies.currentUser.Some?
    ensures var e := LegacyCreateAccountEffects(emailMatches, username, email, password, replies);
            && |e.calls| == 2 && e.calls[1].StoreAccountData?
            && e.calls[1].user == AccountRecord(replies.currentUser.value, email, username)
            && (e.calls[1].user == AccountRecord(replies.currentUser.value, username, email) <==> username == email)
  {
  }

  /** The older sign-up view model. The backend's replies and the email pattern are inputs of each step. */
  class SignUpViewModel {
    var viewState: SignUpViewState

    constructor ()
      ensures viewState == InitialSignUpViewState()
    {
      viewState := InitialSignUpViewState();
    }

    /** `handleAction`: account creation runs as described by `LegacyCreateAccountEffects`. */
    method HandleAction(action: SignUpAction, emailMatches: string -> bool, replies: SignUpReplies) returns (calls: seq<BackendCall>)
      modifies this
      decreases if action.CreateAccount? then 3 else 0
      ensures action.CreateAccount? ==>
                var e := LegacyCreateAccountEffects(emailMatches, action.username, action.email, action.password, replies);
                viewState == UpdateAll(old(viewState), e.dispatched) && calls == e.calls
      ensures !action.CreateAccount? ==> viewState == Update(old(viewState), action) && calls == []
    {
      calls := [];
      match action
      case UpdateUsernameTextField(username) =>
        viewState := viewState.(username := username, errorMessage := None);
      case UpdateEmailTextField(email) =>
        viewState := viewState.(email := email, errorMessage := None);
      case UpdatePasswordTextField(password) =>
        viewState := viewState.(password := password, errorMessage := None);
      case CreateAccount(username, email, password) =>
        calls := CreateAccount(username, email, password, emailMatches, replies);
      case OnSignUpSuccess =>
        viewState := viewState.(hasRegistered := true, errorMessage := None);
      case OnSignUpFailure(message) =>
        viewState := viewState.(errorMessage := Some(message));
    }

    /** `createAccount`: validates the trimmed fields; the stored document gets the fields as given. */
    method CreateAccount(username: string, email: string, password: string, emailMatches: string -> bool, replies: SignUpReplies)
      returns (calls: seq<BackendCall>)
      modifies this
      decreases 2
      ensures var e := LegacyCreateAccountEffects(emailMatches, username, email, password, replies);
              viewState == UpdateAll(old(viewState), e.dispatched) && calls == e.calls
    {
      var username', email', password' := Trim(username), Trim(email), Trim(password);
      calls := [];
      var valid := ValidateFields(username', email', password', emailMatches, replies);
      if valid {
        calls := [CreateUser(email', password')];
        if replies.creation.isSuccess {
          if replies.currentUser.Some? {
            var more := StoreAccountDataToFirestore(PositionalUser(replies.currentUser.value, username, email), emailMatches, replies);
            calls := calls + more;
          }
        } else {
          ghost var before := viewState;
          var failure := OnSignUpFailure(MessageText(replies.creation.errorMessage));
          var ignored := HandleAction(failure, emailMatches, replies);
          UpdateOne(before, failure);
        }
      }
    }

    /** `storeAccountDataToFirestore`: the completion listener registers, then a failure listener reports. */
    method StoreAccountDataToFirestore(user: User, emailMatches: string -> bool, replies: SignUpReplies) returns (calls: seq<BackendCall>)
      modifies this
      decreases 1
      ensures calls == [StoreAccountData(user)]
      ensures viewState == UpdateAll(old(viewState),
                                     [OnSignUpSuccess] + if replies.storing.isSuccess then []
                                                         else [OnSignUpFailure(MessageText(replies.storing.errorMessage))])
    {
      calls := [StoreAccountData(user)];
      var ignored := HandleAction(OnSignUpSuccess, emailMatches, replies);
      UpdateOne(old(viewState), OnSignUpSuccess);
      if !replies.storing.isSuccess {
        ghost var registered := viewState;
        var failure := OnSignUpFailure(MessageText(replies.storing.errorMessage));
        ignored := HandleAction(failure, emailMatches, replies);
        UpdateOne(registered, failure);
        assert ([OnSignUpSuccess] + [failure])[1..] == [failure];
      }
    }

    /** `validateFields`: the same ordered rules as the newer view model. */
    method ValidateFields(username: string, email: string, password: string, emailMatches: string -> bool, replies: SignUpReplies)
      returns (valid: bool)
      modifies this
      decreases 1
      ensures valid <==> SignUpFailure(emailMatches, username, email, password).None?
      ensures viewState == UpdateAll(old(viewState), Reported(SignUpFailure(emailMatches, username, email, password)))
    {
      var message: Option<string> := None;
      if username == [] {
        message := Some(UsernameEmpty);
      } else if Utf16Length(username) < MinUsernameLength {
        message := Some(UsernameTooShort);
      } else if email == [] {
        message := Some(EmailEmpty);
      } else if !emailMatches(email) {
        message := Some(EmailInvalid);
      } else if password == [] {
        message := Some(PasswordEmpty);
      } else if Utf16Length(password) < MinPasswordLength {
        message := Some(PasswordTooShort);
      }
      valid := message.None?;
      if !valid {
        var ignored := HandleAction(OnSignUpFailure(message.value), emailMatches, replies);
        UpdateOne(old(viewState), OnSignUpFailure(message.value));
      }
    }
  }
}
