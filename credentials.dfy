/**
 * The credential rules shared by the sign-up and login forms: ordered checks, each with a
 * fixed message; validation stops at the first check that fails. The email pattern is
 * Android's `Patterns.EMAIL_ADDRESS`, a regular expression given here as the parameter
 * `emailMatches`. Lengths are Kotlin `String.length`, in UTF-16 code units.
 */
module Credentials {
  import opened Wrappers
  import opened Text

  const UsernameEmpty := "Username can't be empty"
  const UsernameTooShort := "Username is too short (min 3 characters)"
  const EmailEmpty := "Email can't be empty"
  const EmailInvalid := "Email is invalid"
  const PasswordEmpty := "Password can't be empty"
  const PasswordTooShort := "Password is too short (min 6 characters)"

  const MinUsernameLength := 3
  const MinPasswordLength := 6

  /** One rule of a form: whether it fires on the input, and the message it reports. */
  datatype Check = Check(fails: bool, message: string)

  /** The message of the first rule that fires, or None when none does. */
  function FirstFailure(checks: seq<Check>): (r: Option<string>)
    ensures r.None? <==> forall i :: 0 <= i < |checks| ==> !checks[i].fails
    ensures r.Some? ==> exists i :: 0 <= i < |checks| && checks[i].fails && checks[i].message == r.value
                                    && forall j :: 0 <= j < i ==> !checks[j].fails
  {
    if checks == [] then None
    else if checks[0].fails then Some(checks[0].message)
    else
      var r := FirstFailure(checks[1..]);
      assert forall i :: 1 <= i < |checks| ==> checks[i] == checks[1..][i - 1];
      r
  }

  /** The login rules, in the order the login forms test them. */
  function LoginChecks(emailMatches: string -> bool, email: string, password: string): seq<Check> {
    [ Check(email == [], EmailEmpty),
      Check(!emailMatches(email), EmailInvalid),
      Check(password == [], PasswordEmpty),
      Check(Utf16Length(password) < MinPasswordLength, PasswordTooShort) ]
  }

  /** The sign-up rules: two username rules, then the login rules. */
  function SignUpChecks(emailMatches: string -> bool, username: string, email: string, password: string): seq<Check> {
    [ Check(username == [], UsernameEmpty),
      Check(Utf16Length(username) < MinUsernameLength, UsernameTooShort) ]
    + LoginChecks(emailMatches, email, password)
  }

  /**
   * `validateFields` of the login view model and of the entity state driver: None when the
   * fields are valid, otherwise the message of the first failing check. Valid means a
   * non-empty email that matches the pattern and a password of at least six code units.
   */
  function LoginFailure(emailMatches: string -> bool, email: string, password: string): (r: Option<string>)
    ensures r.None? <==> email != [] && emailMatches(email) && Utf16Length(password) >= MinPasswordLength
    ensures email == [] ==> r == Some(EmailEmpty)
    ensures email != [] && !emailMatches(email) ==> r == Some(EmailInvalid)
    ensures email != [] && emailMatches(email) && password == [] ==> r == Some(PasswordEmpty)
    ensures email != [] && emailMatches(email) && password != [] && Utf16Length(password) < MinPasswordLength
            ==> r == Some(PasswordTooShort)
  {
    if email == [] then Some(EmailEmpty)
    else if !emailMatches(email) then Some(EmailInvalid)
    else if password == [] then Some(PasswordEmpty)
    else if Utf16Length(password) < MinPasswordLength then Some(PasswordTooShort)
    else None
  }

  /**
   * `validateFields` of both sign-up view models: None when the fields are valid, otherwise the
   * message of the first failing check. An empty username reports that it is empty, never that
   * it is too short; a username of three code units and a password of six pass.
   */
  function SignUpFailure(emailMatches: string -> bool, username: string, email: string, password: string): (r: Option<string>)
    ensures r.None? <==> Utf16Length(username) >= MinUsernameLength && email != [] && emailMatches(email)
                         && Utf16Length(password) >= MinPasswordLength
    ensures username == [] ==> r == Some(UsernameEmpty)
    ensures username != [] && Utf16Length(username) < MinUsernameLength ==> r == Some(UsernameTooShort)
    ensures Utf16Length(username) >= MinUsernameLength ==> r == LoginFailure(emailMatches, email, password)
  {
    if username == [] then Some(UsernameEmpty)
    else if Utf16Length(username) < MinUsernameLength then Some(UsernameTooShort)
    else LoginFailure(emailMatches, email, password)
  }

  /** The login validator reports exactly the first failing login rule. */
  lemma LoginFailureIsFirstFailure(emailMatches: string -> bool, email: string, password: string)
    ensures LoginFailure(emailMatches, email, password) == FirstFailure(LoginChecks(emailMatches, email, password))
  {
    var cs := LoginChecks(emailMatches, email, password);
    var c1, c2, c3 := cs[1..], cs[1..][1..], cs[1..][1..][1..];
    assert c3[1..] == [];
    assert FirstFailure(c3) == if c3[0].fails then Some(PasswordTooShort) else None;
    assert FirstFailure(c2) == if c2[0].fails then Some(PasswordEmpty) else FirstFailure(c3);
    assert FirstFailure(c1) == if c1[0].fails then Some(EmailInvalid) else FirstFailure(c2);
  }

  /** The sign-up validator reports exactly the first failing sign-up rule. */
  lemma SignUpFailureIsFirstFailure(emailMatches: string -> bool, username: string, email: string, password: string)
    ensures SignUpFailure(emailMatches, username, email, password)
            == FirstFailure(SignUpChecks(emailMatches, username, email, password))
  {
    var cs := SignUpChecks(emailMatches, username, email, password);
    LoginFailureIsFirstFailure(emailMatches, email, password);
    assert cs[1..][1..] == LoginChecks(emailMatches, email, password);
  }
}
