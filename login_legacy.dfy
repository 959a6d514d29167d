/**
 * The older login view model (`feature/auth/LoginViewModel.kt`): it edits the two form fields
 * itself, forwards login actions to the application state driver, and takes the login status
 * and error from the driver's state. Its view state and that projection are the ones of
 * `AuthLogin`.
 */
module AuthLegacyLogin {
  import opened Wrappers
  import AuthLogin
  import Entity
  import ModelAppStateDriver

  /** `feature/auth/LoginScreenAction.kt`. */
  datatype LoginScreenAction = UpdateEmailTextField(email: string) | UpdatePasswordTextField(password: string)

  /** What `handleLoginScreenAction` does: the edited field changes, nothing else. */
  function ScreenUpdate(v: AuthLogin.LoginViewState, a: LoginScreenAction): AuthLogin.LoginViewState {
    match a
    case UpdateEmailTextField(email) => v.(email := email)
    case UpdatePasswordTextField(password) => v.(password := password)
  }

  /** Editing the email changes only the email; editing the password changes only the password. */
  lemma ScreenUpdateChangesOneField(v: AuthLogin.LoginViewState, text: string)
    ensures var r := ScreenUpdate(v, UpdateEmailTextField(text));
            r.email == text && r.password == v.password && r.isLoggedIn == v.isLoggedIn && r.errorMessage == v.errorMessage
    ensures var r := ScreenUpdate(v, UpdatePasswordTextField(text));
            r.password == text && r.email == v.email && r.isLoggedIn == v.isLoggedIn && r.errorMessage == v.errorMessage
  {
  }

  /** The older login view model, holding the driver it forwards to. */
  class LoginViewModel {
    var viewState: AuthLogin.LoginViewState
    const stateDriver: ModelAppStateDriver.AppStateDriver

    constructor (stateDriver: ModelAppStateDriver.AppStateDriver)
      ensures this.stateDriver == stateDriver && viewState == AuthLogin.InitialLoginViewState()
    {
      this.stateDriver := stateDriver;
      viewState := AuthLogin.InitialLoginViewState();
    }

    /** `AppState.reduce()`: login status and error from the driver's state, including a cleared error. */
    method Reduce(appState: Entity.AppState)
      modifies this
      ensures viewState == AuthLogin.FromAppState(old(viewState), appState)
    {
      viewState := viewState.(isLoggedIn := appState.loginState.isLoggedIn, errorMessage := appState.loginState.lastError);
    }

    /**
     * `handleAction`: forwards an `entity` login action to the driver. That driver only acts on
     * the `feature/auth/login` login actions and on tracker actions, so the forwarded action
     * is ignored and the driver's state stays as it is.
     */
    method HandleAction(loginAction: Entity.LoginAction)
      modifies stateDriver
      ensures stateDriver.state == old(stateDriver.state)
    {
      var calls := stateDriver.HandleAction(ModelAppStateDriver.Other);
    }

    /** `handleLoginScreenAction`. */
    method HandleLoginScreenAction(loginAction: LoginScreenAction)
      modifies this
      ensures viewState == ScreenUpdate(old(viewState), loginAction)
    {
      match loginAction
      case UpdateEmailTextField(email) => viewState := viewState.(email := email);
      case UpdatePasswordTextField(password) => viewState := viewState.(password := password);
    }
  }
}
