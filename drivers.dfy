/**
 * `entity/AppStateDriver.kt`: the application state driver that validates and signs in on its
 * own. Each action is one atomic step (the coroutine and mutex only serialise the steps); the
 * sign-in reply and the email pattern are inputs.
 */
module EntityAppStateDriver {
  import opened Wrappers
  import opened Text
  import opened Credentials
  import opened Backend
  import opened Entity
  import TrackerSpec

  /** The actions `handleAction` distinguishes; any other kind of action is ignored. */
  datatype Action = Login(loginAction: LoginAction) | Tracker(trackerAction: TrackerSpec.TrackerAction) | Other

  /**
   * What `handleLoginAction` does to the state for one login action. `DoLogin` changes nothing
   * itself; a login failure is not recorded at all.
   */
  function Next(s: AppState, a: LoginAction): AppState {
    match a
    case DoLogin(_, _) => s
    case DoLogout => s.(loginState := DefaultAppLoginState(), trackingState := [], coordinatesState := [])
    case OnLoginSuccess(email) =>
      s.(loginState := AppLoginState(isLoggedIn := true, username := "", email := email, lastError := None),
         trackingState := [], coordinatesState := [])
    case OnLoginFailure(_) => s
  }

  /** The actions applied one after the other. */
  function NextAll(s: AppState, actions: seq<LoginAction>): AppState
    decreases |actions|
  {
    if actions == [] then s else NextAll(Next(s, actions[0]), actions[1..])
  }

  /** Applying a single action is one step. */
  lemma NextOne(s: AppState, a: LoginAction)
    ensures NextAll(s, [a]) == Next(s, a)
  {
    assert [a][1..] == [];
  }

  /**
   * `login(email, password)` given the sign-in reply: the email is trimmed, the password is not;
   * invalid fields dispatch the first failing rule and send nothing; valid ones are sent, and
   * the sign-in's success or its failure text ("null" when it has no message) is dispatched.
   */
  function LoginEffects(emailMatches: string -> bool, email: string, password: string, signIn: Outcome): (e: Effects<LoginAction>)
    ensures e.calls == [] <==> LoginFailure(emailMatches, Trim(email), password).Some?
    ensures e.calls != [] ==> e.calls == [SignIn(Trim(email), password)]
    ensures LoginFailure(emailMatches, Trim(email), password).Some?
            ==> e.dispatched == [OnLoginFailure(LoginFailure(emailMatches, Trim(email), password).value)]
    ensures e.dispatched == [OnLoginSuccess(Trim(email))]
            <==> LoginFailure(emailMatches, Trim(email), password).None? && signIn.isSuccess
    ensures LoginFailure(emailMatches, Trim(email), password).None? && !signIn.isSuccess
            ==> e.dispatched == [OnLoginFailure(MessageText(signIn.errorMessage))]
    ensures |e.dispatched| == 1
  {
    var email' := Trim(email);
    match LoginFailure(emailMatches, email', password)
    case Some(message) => Effects([OnLoginFailure(message)], [])
    case None =>
      var reply := if signIn.isSuccess then OnLoginSuccess(email') else OnLoginFailure(MessageText(signIn.errorMessage));
      Effects([reply], [SignIn(email', password)])
  }

  /** Logging out gives the default application state, whatever the state was. */
  lemma LogoutGivesDefault(s: AppState)
    ensures Next(s, DoLogout) == DefaultAppState()
  {
  }

  /** A successful login records only the email and empties both lists. */
  lemma LoginSuccessState(s: AppState, email: string)
    ensures var r := Next(s, OnLoginSuccess(email));
            && r.loginState.isLoggedIn && r.loginState.email == email
            && r.loginState.username == [] && r.loginState.lastError.None?
            && r.trackingState == [] && r.coordinatesState == []
  {
  }

  /** A login failure leaves the state unchanged: its message is not recorded. */
  lemma LoginFailureIgnored(s: AppState, message: string)
    ensures Next(s, OnLoginFailure(message)) == s
  {
  }

  /**
   * A whole login changes the state only when the fields are valid and the sign-in succeeds;
   * then it is the state of a successful login with the trimmed email.
   */
  lemma {:induction false} LoginOutcome(s: AppState, emailMatches: string -> bool, email: string, password: string, signIn: Outcome)
    ensures NextAll(s, LoginEffects(emailMatches, email, password, signIn).dispatched)
            == if LoginFailure(emailMatches, Trim(email), password).None? && signIn.isSuccess
               then Next(s, OnLoginSuccess(Trim(email))) else s
  {
    var d := LoginEffects(emailMatches, email, password, signIn).dispatched;
    assert d == [d[0]];
    NextOne(s, d[0]);
  }

  /** The driver: the application state it holds. */
  class AppStateDriver {
    var state: AppState

    constructor ()
      ensures state == DefaultAppState()
    {
      state := DefaultAppState();
    }

    /** `handleAction`: login actions as `Next` describes (a login as `LoginEffects`), everything else ignored. */
    method HandleAction(action: Action, emailMatches: string -> bool, signIn: Outcome) returns (calls: seq<BackendCall>)
      modifies this
      decreases if action.Login? && action.loginAction.DoLogin? then 5 else 1
      ensures action.Login? && action.loginAction.DoLogin? ==>
                var e := LoginEffects(emailMatches, action.loginAction.email, action.loginAction.password, signIn);
                state == NextAll(old(state), e.dispatched) && calls == e.calls
      ensures action.Login? && !action.loginAction.DoLogin? ==> state == Next(old(state), action.loginAction) && calls == []
      ensures !action.Login? ==> state == old(state) && calls == []
    {
      calls := [];
      match action
      case Login(loginAction) => calls := HandleLoginAction(loginAction, emailMatches, signIn);
      case Tracker(trackerAction) => HandleTrackerAction(trackerAction);
      case Other =>
    }

    /** `handleLoginAction`. */
    method HandleLoginAction(loginAction: LoginAction, emailMatches: string -> bool, signIn: Outcome) returns (calls: seq<BackendCall>)
      modifies this
      decreases if loginAction.DoLogin? then 4 else 0
      ensures loginAction.DoLogin? ==>
                var e := LoginEffects(emailMatches, loginAction.email, loginAction.password, signIn);
                state == NextAll(old(state), e.dispatched) && calls == e.calls
      ensures !loginAction.DoLogin? ==> state == Next(old(state), loginAction) && calls == []
    {
      calls := [];
      match loginAction
      case DoLogin(email, password) =>
        calls := Login(email, password, emailMatches, signIn);
      case DoLogout =>
        state := state.(loginState := DefaultAppLoginState(), trackingState := [], coordinatesState := []);
      case OnLoginSuccess(email) =>
        state := state.(loginState := AppLoginState(isLoggedIn := true, username := "", email := email, lastError := None),
                        trackingState := [], coordinatesState := []);
      case OnLoginFailure(_) =>
    }

    /** `handleTrackerAction`: its body is empty, so the state stays as it is. */
    method HandleTrackerAction(trackerAction: TrackerSpec.TrackerAction)
      ensures state == old(state)
    {
    }

    /** `login`: trims the email only, validates, and signs in when the fields are valid. */
    method Login(email: string, password: string, emailMatches: string -> bool, signIn: Outcome) returns (calls: seq<BackendCall>)
      modifies this
      decreases 3
      ensures var e := LoginEffects(emailMatches, email, password, signIn);
              state == NextAll(old(state), e.dispatched) && calls == e.calls
    {
      var email', password' := Trim(email), password;
      calls := [];
      var valid := ValidateFields(email', password', emailMatches, signIn);
      if valid {
        calls := [SignIn(email', password')];
        var reply := if signIn.isSuccess then OnLoginSuccess(email') else OnLoginFailure(MessageText(signIn.errorMessage));
        var more := HandleAction(Action.Login(reply), emailMatches, signIn);
        NextOne(old(state), reply);
        calls := calls + more;
      } else {
        NextOne(old(state), OnLoginFailure(LoginFailure(emailMatches, email', password').value));
      }
    }

    /** `validateFields`: the first failing rule is dispatched as a login failure, which this driver ignores. */
    method ValidateFields(email: string, password: string, emailMatches: string -> bool, signIn: Outcome) returns (valid: bool)
      modifies this
      decreases 2
      ensures valid <==> LoginFailure(emailMatches, email, password).None?
      ensures state == old(state)
    {
      var message: Option<string> := None;
      if email == [] {
        message := Some(EmailEmpty);
      } else if !emailMatches(email) {
        message := Some(EmailInvalid);
      } else if password == [] {
        message := Some(PasswordEmpty);
      } else if Utf16Length(password) < MinPasswordLength {
        message := Some(PasswordTooShort);
      }
      valid := message.None?;
      if !valid {
        var ignored := HandleAction(Action.Login(OnLoginFailure(message.value)), emailMatches, signIn);
      }
    }
  }
}

/**
 * `model/AppStateDriver.kt`: the application state driver used by the login view models. Only
 * a logout changes anything: it signs out and clears the login state, keeping both lists.
 */
module ModelAppStateDriver {
  import opened Wrappers
  import opened Backend
  import opened Entity
  import AuthLogin
  import TrackerSpec

  /** The actions `handleAction` distinguishes; any other kind of action is ignored. */
  datatype Action = Login(loginAction: AuthLogin.LoginAction) | Tracker(trackerAction: TrackerSpec.TrackerAction) | Other

  /** What `handleLoginAction` does to the state: a logout clears the login state; every other action is ignored. */
  function Next(s: AppState, a: AuthLogin.LoginAction): AppState {
    if a.DoLogout? then s.(loginState := AppLoginState(isLoggedIn := false, username := "", email := "", lastError := None))
    else s
  }

  /** A logout clears the login state and keeps the target and coordinate lists. */
  lemma LogoutClearsLogin(s: AppState)
    ensures Next(s, AuthLogin.DoLogout).loginState == DefaultAppLoginState()
    ensures Next(s, AuthLogin.DoLogout).trackingState == s.trackingState
    ensures Next(s, AuthLogin.DoLogout).coordinatesState == s.coordinatesState
  {
  }

  /** A second logout changes nothing. */
  lemma LogoutIdempotent(s: AppState)
    ensures Next(Next(s, AuthLogin.DoLogout), AuthLogin.DoLogout) == Next(s, AuthLogin.DoLogout)
  {
  }

  /** Every login action other than a logout leaves the state unchanged. */
  lemma OtherLoginActionsIgnored(s: AppState, a: AuthLogin.LoginAction)
    requires !a.DoLogout?
    ensures Next(s, a) == s
  {
  }

  /** The driver: the application state it holds. */
  class AppStateDriver {
    var state: AppState

    constructor ()
      ensures state == DefaultAppState()
    {
      state := DefaultAppState();
    }

    /** `handleAction`: a logout signs out and clears the login state; nothing else changes. */
    method HandleAction(action: Action) returns (calls: seq<BackendCall>)
      modifies this
      ensures state == if action.Login? then Next(old(state), action.loginAction) else old(state)
      ensures calls == if action == Login(AuthLogin.DoLogout) then [SignOut] else []
    {
      calls := [];
      match action
      case Login(loginAction) => calls := HandleLoginAction(loginAction);
      case Tracker(trackerAction) => HandleTrackerAction(trackerAction);
      case Other =>
    }

    /** `handleLoginAction`. */
    method HandleLoginAction(loginAction: AuthLogin.LoginAction) returns (calls: seq<BackendCall>)
      modifies this
      ensures state == Next(old(state), loginAction)
      ensures calls == if loginAction.DoLogout? then [SignOut] else []
    {
      calls := [];
      if loginAction.DoLogout? {
        calls := [SignOut];
        state := state.(loginState := AppLoginState(isLoggedIn := false, username := "", email := "", lastError := None));
      }
    }

    /** `handleTrackerAction`: its body is empty. */
    method HandleTrackerAction(trackerAction: TrackerSpec.TrackerAction)
      ensures state == old(state)
    {
    }
  }
}

/**
 * `entity/ApplicationStateDriver.kt`: a login stores the user's name and empties both lists, a
 * logout restores the default state; login replies and tracker actions are ignored.
 */
module EntityApplicationStateDriver {
  import opened Wrappers
  import Entity
  import opened FeatureLogin
  import TrackerSpec

  /** The actions `handleAction` distinguishes; any other kind of action is ignored. */
  datatype Action = Login(loginAction: FeatureLogin.LoginAction) | Tracker(trackerAction: TrackerSpec.TrackerAction) | Other

  /** What `handleLoginAction` does to the state for one login action. */
  function Next(s: Entity.ApplicationState, a: FeatureLogin.LoginAction): Entity.ApplicationState {
    match a
    case DoLogin(username, _) =>
      s.(loginState := FeatureLogin.LoginState(isLoggedIn := true, name := username, email := "", lastError := None),
         trackingState := [], coordinatesState := [])
    case DoLogout => s.(loginState := FeatureLogin.DefaultLoginState(), trackingState := [], coordinatesState := [])
    case OnLoginSuccess(_, _) => s
    case OnLoginFailure(_) => s
  }

  /** A login stores the name, leaves the email empty and the error cleared, and empties both lists. */
  lemma LoginStoresName(s: Entity.ApplicationState, username: string, password: string)
    ensures var r := Next(s, DoLogin(username, password));
            && r.loginState.isLoggedIn && r.loginState.name == username
            && r.loginState.email == [] && r.loginState.lastError.None?
            && r.trackingState == [] && r.coordinatesState == []
  {
  }

  /** The password plays no part in the state a login produces. */
  lemma LoginIgnoresPassword(s: Entity.ApplicationState, username: string, password1: string, password2: string)
    ensures Next(s, DoLogin(username, password1)) == Next(s, DoLogin(username, password2))
  {
  }

  /** A logout gives the default state, from any state; in particular right after a login. */
  lemma LogoutGivesDefault(s: Entity.ApplicationState, username: string, password: string)
    ensures Next(s, DoLogout) == Entity.DefaultApplicationState()
    ensures Next(Next(s, DoLogin(username, password)), DoLogout) == Entity.DefaultApplicationState()
  {
  }

  /** Login replies leave the state unchanged. */
  lemma RepliesIgnored(s: Entity.ApplicationState, name: string, email: string, message: string)
    ensures Next(s, OnLoginSuccess(name, email)) == s
    ensures Next(s, OnLoginFailure(message)) == s
  {
  }

  /** The driver: the application state it holds. */
  class ApplicationStateDriver {
    var state: Entity.ApplicationState

    constructor ()
      ensures state == Entity.DefaultApplicationState()
    {
      state := Entity.DefaultApplicationState();
    }

    /** `handleAction`: login actions as `Next` describes; anything else leaves the state as it is. */
    method HandleAction(action: Action)
      modifies this
      ensures state == if action.Login? then Next(old(state), action.loginAction) else old(state)
    {
      match action
      case Login(loginAction) => HandleLoginAction(loginAction);
      case Tracker(trackerAction) => HandleTrackerAction(trackerAction);
      case Other =>
    }

    /** `handleLoginAction`. */
    method HandleLoginAction(loginAction: FeatureLogin.LoginAction)
      modifies this
      ensures state == Next(old(state), loginAction)
    {
      match loginAction
      case DoLogin(username, _) =>
        state := state.(loginState := FeatureLogin.LoginState(isLoggedIn := true, name := username, email := "", lastError := None),
                        trackingState := [], coordinatesState := []);
      case DoLogout =>
        state := state.(loginState := FeatureLogin.DefaultLoginState(), trackingState := [], coordinatesState := []);
      case OnLoginSuccess(_, _) =>
      case OnLoginFailure(_) =>
    }

    /** `handleTrackerAction`: its body is empty. */
    method HandleTrackerAction(trackerAction: TrackerSpec.TrackerAction)
      ensures state == old(state)
    {
    }
  }
}

/**
 * `model/StateDriver.kt`: the synchronous state driver. It reads the login's first field as
 * the user's name (the source names it `username`; the `entity` login action it handles
 * declares that field as `email`).
 */
module ModelStateDriver {
  import opened Wrappers
  import opened Entity

  /** The actions `handleAction` distinguishes; any other kind of action is ignored. */
  datatype Action = Login(loginAction: LoginAction) | Tracking(trackingAction: TrackingAction) | Other

  /** What `handleLoginAction` does to the state for one login action. */
  function Next(s: State, a: LoginAction): State {
    match a
    case DoLogin(name, _) =>
      s.(loginState := LoginState(isLoggedIn := true, name := name, email := "", lastError := None),
         trackingState := [], coordinatesState := [])
    case DoLogout => s.(loginState := DefaultLoginState(), trackingState := [], coordinatesState := [])
    case OnLoginSuccess(_) => s
    case OnLoginFailure(_) => s
  }

  /** A login logs in under the given name and empties both lists; the password plays no part. */
  lemma LoginStoresName(s: State, name: string, password1: string, password2: string)
    ensures var r := Next(s, DoLogin(name, password1));
            && r.loginState.isLoggedIn && r.loginState.name == name
            && r.trackingState == [] && r.coordinatesState == []
    ensures Next(s, DoLogin(name, password1)) == Next(s, DoLogin(name, password2))
  {
  }

  /** A logout gives the default state, from any state. */
  lemma LogoutGivesDefault(s: State)
    ensures Next(s, DoLogout) == DefaultState()
  {
  }

  /** Login replies leave the state unchanged. */
  lemma RepliesIgnored(s: State, email: string, message: string)
    ensures Next(s, OnLoginSuccess(email)) == s
    ensures Next(s, OnLoginFailure(message)) == s
  {
  }

  /** The driver: the state it holds. */
  class StateDriver {
    var state: State

    constructor ()
      ensures state == DefaultState()
    {
      state := DefaultState();
    }

    /** `handleAction`: applied at once, before it returns; tracking actions and any other kind leave the state as it is. */
    method HandleAction(action: Action)
      modifies this
      ensures state == if action.Login? then Next(old(state), action.loginAction) else old(state)
    {
      match action
      case Login(loginAction) => HandleLoginAction(loginAction);
      case Tracking(trackingAction) => HandleTrackingAction(trackingAction);
      case Other =>
    }

    /** `handleLoginAction`. */
    method HandleLoginAction(loginAction: LoginAction)
      modifies this
      ensures state == Next(old(state), loginAction)
    {
      match loginAction
      case DoLogin(name, _) =>
        state := state.(loginState := LoginState(isLoggedIn := true, name := name, email := "", lastError := None),
                        trackingState := [], coordinatesState := []);
      case DoLogout =>
        state := state.(loginState := DefaultLoginState(), trackingState := [], coordinatesState := []);
      case OnLoginSuccess(_) =>
      case OnLoginFailure(_) =>
    }

    /** `handleTrackingAction`: its body is empty. */
    method HandleTrackingAction(trackingAction: TrackingAction)
      ensures state == old(state)
    {
    }
  }
}
