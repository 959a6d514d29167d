/**
 * The application-state records of the `entity` package and the actions the state drivers
 * accept. All of them are plain values.
 */
module Entity {
  import opened Wrappers
  import opened Geo
  import FeatureLogin

  /** `entity/AppLoginState.kt`. */
  datatype AppLoginState = AppLoginState(isLoggedIn: bool, username: string, email: string, lastError: Option<string>)

  /** `AppLoginState()`: not logged in, no user, no error. */
  function DefaultAppLoginState(): (l: AppLoginState)
    ensures !l.isLoggedIn && l.username == [] && l.email == [] && l.lastError.None?
  {
    AppLoginState(false, "", "", None)
  }

  /** `entity/TrackingTarget.kt`: a target as the drivers' state lists it. */
  datatype TrackingTarget = TrackingTarget(id: string, name: string, brokerUrl: string, username: string, password: string, topic: string)

  /** `entity/TargetCoordinates.kt`. */
  datatype TargetCoordinates = TargetCoordinates(targetId: string, latitude: Double, longitude: Double)

  /** `entity/AppState.kt`. */
  datatype AppState = AppState(loginState: AppLoginState, trackingState: seq<TrackingTarget>, coordinatesState: seq<TargetCoordinates>)

  /** `AppState()`. */
  function DefaultAppState(): (s: AppState)
    ensures s.loginState == DefaultAppLoginState() && s.trackingState == [] && s.coordinatesState == []
  {
    AppState(DefaultAppLoginState(), [], [])
  }

  /** `entity/LoginState.kt`. */
  datatype LoginState = LoginState(isLoggedIn: bool, name: string, email: string, lastError: Option<string>)

  /** `LoginState()`. */
  function DefaultLoginState(): (l: LoginState)
    ensures !l.isLoggedIn && l.name == [] && l.email == [] && l.lastError.None?
  {
    LoginState(false, "", "", None)
  }

  /** `entity/State.kt`. */
  datatype State = State(loginState: LoginState, trackingState: seq<TrackingTarget>, coordinatesState: seq<TargetCoordinates>)

  /** `State()`. */
  function DefaultState(): (s: State)
    ensures s.loginState == DefaultLoginState() && s.trackingState == [] && s.coordinatesState == []
  {
    State(DefaultLoginState(), [], [])
  }

  /** `entity/ApplicationState.kt`: its login state is the `feature/login` one. */
  datatype ApplicationState = ApplicationState(loginState: FeatureLogin.LoginState, trackingState: seq<TrackingTarget>, coordinatesState: seq<TargetCoordinates>)

  /** `ApplicationState()`. */
  function DefaultApplicationState(): (s: ApplicationState)
    ensures s.loginState == FeatureLogin.DefaultLoginState() && s.trackingState == [] && s.coordinatesState == []
  {
    ApplicationState(FeatureLogin.DefaultLoginState(), [], [])
  }

  /** `entity/LoginActions.kt`. */
  datatype LoginAction =
    | DoLogin(email: string, password: string)
    | OnLoginSuccess(email: string)
    | OnLoginFailure(errorMessage: string)
    | DoLogout

  /** `entity/TrackingActions.kt`. */
  datatype TrackingAction =
    | AddTarget(targetName: string, mqttUrl: string, username: string, password: string)
    | UpdateTarget(id: string, targetName: string, mqttUrl: string, username: string, password: string)
    | DeleteTarget(id: string)
}

/** The login state and actions of the `feature/login` package. */
module FeatureLogin {
  import opened Wrappers

  /** `feature/login/LoginState.kt`. */
  datatype LoginState = LoginState(isLoggedIn: bool, name: string, email: string, lastError: Option<string>)

  /** `LoginState()`. */
  function DefaultLoginState(): (l: LoginState)
    ensures !l.isLoggedIn && l.name == [] && l.email == [] && l.lastError.None?
  {
    LoginState(false, "", "", None)
  }

  /** `feature/login/LoginActions.kt`. */
  datatype LoginAction =
    | DoLogin(username: string, password: string)
    | OnLoginSuccess(name: string, email: string)
    | OnLoginFailure(errorMessage: string)
    | DoLogout
}
