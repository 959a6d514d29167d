/**
 * The login screen's view model (`feature/auth/login/LoginViewModel.kt`): a form whose fields
 * the screen edits, a login that trims the email (not the password), validates, and signs in,
 * and a logout. The sign-in reply is an input; the other login view model reuses the view
 * state and its projection of the application state defined here.
 */
module AuthLogin {
  import opened Wrappers
  import opened Text
  import opened Credentials
  import opened Backend
  import Entity

  /** `feature/auth/login/LoginViewState.kt`. */
  datatype LoginViewState = LoginViewState(email: string, password: string, isLoggedIn: bool, errorMessage: Option<string>)

  /** `LoginViewState()`: empty fields, logged out, no error. */
  function InitialLoginViewState(): (v: LoginViewState)
    ensures v.email == [] && v.password == [] && !v.isLoggedIn && v.errorMessage.None?
  {
    LoginViewState("", "", false, None)
  }

  /** `feature/auth/login/LoginActions.kt`. */
  datatype LoginAction =
    | UpdateEmailTextField(email: string)
    | UpdatePasswordTextField(password: string)
    | DoLogin(email: string, password: string)
    | OnLoginSuccess(email: string)
    | OnLoginFailure(errorMessage: string)
    | DoLogout

  /**
   * What `handleLoginAction` does to the view state for one action. `DoLogin` changes nothing
   * itself: its effect is the actions it dispatches (see `LoginEffects`).
   */
  function Update(v: LoginViewState, a: LoginAction): LoginViewState {
    match a
    case UpdateEmailTextField(email) => v.(email := email)
    case UpdatePasswordTextField(password) => v.(password := password)
    case DoLogin(_, _) => v
    case OnLoginSuccess(email) => v.(email := email, isLoggedIn := true)
    case OnLoginFailure(message) => v.(isLoggedIn := false, errorMessage := Some(message))
    case DoLogout => v.(email := "", password := "", isLoggedIn := false, errorMessage := None)
  }

  /** The actions applied one after the other. */
  function UpdateAll(v: LoginViewState, actions: seq<LoginAction>): LoginViewState
    decreases |actions|
  {
    if actions == [] then v else UpdateAll(Update(v, actions[0]), actions[1..])
  }

  /** `errorMessage?.let { OnLoginFailure(it) }`: a failure is reported only when it carries a message. */
  function Reported(message: Option<string>): (actions: seq<LoginAction>)
    ensures message.None? ==> actions == []
    ensures message.Some? ==> actions == [OnLoginFailure(message.value)]
  {
    match message
    case None => []
    case Some(m) => [OnLoginFailure(m)]
  }

  /**
   * `login(email, password)` given the reply `signIn` of the backend: the email is trimmed and
   * the password is not; invalid fields report the first failing rule and send nothing; valid
   * ones are sent to the backend, and its success or its failure message is dispatched.
   */
  function LoginEffects(emailMatches: string -> bool, email: string, password: string, signIn: Outcome): (e: Effects<LoginAction>)
    ensures e.calls == [] <==> LoginFailure(emailMatches, Trim(email), password).Some?
    ensures e.calls != [] ==> e.calls == [SignIn(Trim(email), password)]
    ensures LoginFailure(emailMatches, Trim(email), password).Some?
            ==> e.dispatched == [OnLoginFailure(LoginFailure(emailMatches, Trim(email), password).value)]
    ensures e.dispatched == [OnLoginSuccess(Trim(email))]
            <==> LoginFailure(emailMatches, Trim(email), password).None? && signIn.isSuccess
    ensures e.dispatched == []
            <==> LoginFailure(emailMatches, Trim(email), password).None? && !signIn.isSuccess && signIn.errorMessage.None?
  {
    var email' := Trim(email);
    match LoginFailure(emailMatches, email', password)
    case Some(message) => Effects([OnLoginFailure(message)], [])
    case None =>
      Effects(if signIn.isSuccess then [OnLoginSuccess(email')] else Reported(signIn.errorMessage), [SignIn(email', password)])
  }

  /** `AppState.reduce()`: the login status and the last error come from the application state; the fields stay. */
  function FromAppState(v: LoginViewState, s: Entity.AppState): (r: LoginViewState)
    ensures r.isLoggedIn == s.loginState.isLoggedIn && r.errorMessage == s.loginState.lastError
    ensures r.email == v.email && r.password == v.password
  {
    v.(isLoggedIn := s.loginState.isLoggedIn, errorMessage := s.loginState.lastError)
  }

  /** Reducing twice with the same application state is reducing once. */
  lemma FromAppStateIdempotent(v: LoginViewState, s: Entity.AppState)
    ensures FromAppState(FromAppState(v, s), s) == FromAppState(v, s)
  {
  }

  /** Editing a field sets only that field; unlike the sign-up form, the error message stays. */
  lemma FieldUpdatesKeepError(v: LoginViewState, text: string)
    ensures Update(v, UpdateEmailTextField(text)) == v.(email := text)
    ensures Update(v, UpdatePasswordTextField(text)) == v.(password := text)
    ensures Update(v, UpdateEmailTextField(text)).errorMessage == v.errorMessage
    ensures Update(v, UpdatePasswordTextField(text)).errorMessage == v.errorMessage
  {
  }

  /** A success records the email and logs in; a failure logs out and records the message; neither touches the password. */
  lemma LoginReplies(v: LoginViewState, email: string, message: string)
    ensures Update(v, OnLoginSuccess(email)) == v.(email := email, isLoggedIn := true)
    ensures Update(v, OnLoginFailure(message)) == v.(isLoggedIn := false, errorMessage := Some(message))
  {
  }

  /** Logging out clears the form and the error, and a second logout changes nothing. */
  lemma LogoutClears(v: LoginViewState)
    ensures Update(v, DoLogout) == InitialLoginViewState()
    ensures Update(Update(v, DoLogout), DoLogout) == Update(v, DoLogout)
  {
  }

  /**
   * The view state after a whole login: invalid fields log out and show the first failing rule;
   * a successful sign-in logs in with the trimmed email; a failed one logs out and shows its
   * message, or leaves everything as it was when the failure carries no message.
   */
  lemma {:induction false} LoginOutcome(v: LoginViewState, emailMatches: string -> bool, email: string, password: string, signIn: Outcome)
    ensures var failure := LoginFailure(emailMatches, Trim(email), password);
            UpdateAll(v, LoginEffects(emailMatches, email, password, signIn).dispatched)
            == if failure.Some? then v.(isLoggedIn := false, errorMessage := failure)
               else if signIn.isSuccess then v.(email := Trim(email), isLoggedIn := true)
               else if signIn.errorMessage.Some? then v.(isLoggedIn := false, errorMessage := signIn.errorMessage)
               else v
  {
    var e := LoginEffects(emailMatches, email, password, signIn);
    if e.dispatched != [] {
      assert |e.dispatched| == 1;
      UpdateOne(v, e.dispatched[0]);
      assert e.dispatched == [e.dispatched[0]];
    }
  }

  /** Applying a single action is one update. */
  lemma UpdateOne(v: LoginViewState, a: LoginAction)
    ensures UpdateAll(v, [a]) == Update(v, a)
  {
    assert [a][1..] == [];
  }

  /** The login screen's view model. The backend's replies and the email pattern are inputs of each step. */
  class LoginViewModel {
    var viewState: LoginViewState

    constructor ()
      ensures viewState == InitialLoginViewState()
    {
      viewState := InitialLoginViewState();
    }

    /** `AppState.reduce()`, run on every application state the driver emits. */
    method Reduce(appState: Entity.AppState)
      modifies this
      ensures viewState == FromAppState(old(viewState), appState)
    {
      viewState := viewState.(isLoggedIn := appState.loginState.isLoggedIn, errorMessage := appState.loginState.lastError);
    }

    /** `handleLoginAction`: a login runs as described by `LoginEffects`; a logout also signs out of the backend. */
    method HandleLoginAction(action: LoginAction, emailMatches: string -> bool, signIn: Outcome) returns (calls: seq<BackendCall>)
      modifies this
      decreases if action.DoLogin? then 3 else 0
      ensures action.DoLogin? ==>
                var e := LoginEffects(emailMatches, action.email, action.password, signIn);
                viewState == UpdateAll(old(viewState), e.dispatched) && calls == e.calls
      ensures !action.DoLogin? ==> viewState == Update(old(viewState), action)
      ensures !action.DoLogin? ==> calls == if action.DoLogout? then [SignOut] else []
    {
      calls := [];
      match action
      case UpdateEmailTextField(email) =>
        viewState := viewState.(email := email);
      case UpdatePasswordTextField(password) =>
        viewState := viewState.(password := password);
      case DoLogin(email, password) =>
        calls := Login(email, password, emailMatches, signIn);
      case OnLoginSuccess(email) =>
        viewState := viewState.(email := email, isLoggedIn := true);
      case OnLoginFailure(message) =>
        viewState := viewState.(isLoggedIn := false, errorMessage := Some(message));
      case DoLogout =>
        calls := [SignOut];
        viewState := viewState.(email := "", password := "", isLoggedIn := false, errorMessage := None);
    }

    /** `login`: trims the email only, validates, and signs in when the fields are valid. */
    method Login(email: string, password: string, emailMatches: string -> bool, signIn: Outcome) returns (calls: seq<BackendCall>)
      modifies this
      decreases 2
      ensures var e := LoginEffects(emailMatches, email, password, signIn);
              viewState == UpdateAll(old(viewState), e.dispatched) && calls == e.calls
    {
      var email', password' := Trim(email), password;
      calls := [];
      var valid := ValidateFields(email', password', emailMatches, signIn);
      if valid {
        calls := [SignIn(email', password')];
        ghost var before := viewState;
        var more: seq<BackendCall> := [];
        if signIn.isSuccess {
          more := HandleLoginAction(OnLoginSuccess(email'), emailMatches, signIn);
          UpdateOne(before, OnLoginSuccess(email'));
        } else if signIn.errorMessage.Some? {
          more := HandleLoginAction(OnLoginFailure(signIn.errorMessage.value), emailMatches, signIn);
          UpdateOne(before, OnLoginFailure(signIn.errorMessage.value));
        }
        calls := calls + more;
      }
    }

    /** `validateFields`: the first failing rule is dispatched as a login failure. */
    method ValidateFields(email: string, password: string, emailMatches: string -> bool, signIn: Outcome) returns (valid: bool)
      modifies this
      decreases 1
      ensures valid <==> LoginFailure(emailMatches, email, password).None?
      ensures viewState == UpdateAll(old(viewState), Reported(LoginFailure(emailMatches, email, password)))
    {
      var message: Option<string> := None;
      if email == [] {
        message := Some(EmailEmpty);
      } else if !emailMatches(email) {
        message := Some(EmailInvalid);
      } else if password == [] {
        message := Some(PasswordEmpty);
      } else if Utf16Length(password) < MinPasswordLength {
        message := Some(PasswordTooShort);
      }
      valid := message.None?;
      if !valid {
        var ignored := HandleLoginAction(OnLoginFailure(message.value), emailMatches, signIn);
        UpdateOne(old(viewState), OnLoginFailure(message.value));
      }
    }
  }
}
