/**
 * The credential checks of screens/LoginScreen.jsx and screens/SignupScreen.jsx. Each
 * `validate` is a chain of early returns: the first check that fails alerts its message
 * and rejects; if none fails, the form is accepted. The alert and the navigation that
 * follow are returned as effects instead of being performed.
 */
module Validation {

  /** The outcome of `validate`: true, or false together with the message it alerted. */
  datatype Verdict = Accepted | Rejected(message: string)

  /** What pressing the screen's button does, in order. */
  datatype Effect = Alert(message: string) | Replace(route: string)

  /** One link of a check chain: whether it passes, and what it alerts when it does not. */
  datatype Check = Check(passes: bool, message: string)

  /** The shortest password either screen accepts, in UTF-16 code units. */
  const MinPasswordLength := 6

  /**
   * `s.length` in JavaScript: UTF-16 code units, so a character outside the
   * Basic Multilingual Plane counts twice.
   */
  function Utf16Length(s: string): (n: nat)
    ensures |s| <= n <= 2 * |s|
  {
    if s == [] then 0
    else (if s[0] as int > 0xFFFF then 2 else 1) + Utf16Length(s[1..])
  }

  /**
   * Reference semantics of a chain of early returns: reject with the message of the
   * first failing check, accept when every check passes.
   */
  function FirstFailure(checks: seq<Check>): (v: Verdict)
    ensures v == Accepted <==> forall i :: 0 <= i < |checks| ==> checks[i].passes
    ensures v.Rejected? ==>
              exists i :: 0 <= i < |checks| && !checks[i].passes && v.message == checks[i].message &&
                          forall j :: 0 <= j < i ==> checks[j].passes
  {
    if checks == [] then Accepted
    else if !checks[0].passes then Rejected(checks[0].message)
    else
      var v := FirstFailure(checks[1..]);
      assert forall i :: 1 <= i < |checks| ==> checks[i] == checks[1..][i - 1];
      if v.Rejected? then
        var i :| 0 <= i < |checks[1..]| && !checks[1..][i].passes && v.message == checks[1..][i].message &&
                 forall j :: 0 <= j < i ==> checks[1..][j].passes;
        assert forall j :: 1 <= j < i + 1 ==> checks[j] == checks[1..][j - 1];
        v
      else v
  }

  // ---------------------------------------------------------------- login

  const LoginEmailMessage := "Enter valid email"
  const LoginPasswordMessage := "Password must be at least 6 characters"

  /** `validate` of the login screen. */
  function LoginValidate(email: string, password: string): (v: Verdict)
    ensures v == Accepted <==> '@' in email && Utf16Length(password) >= MinPasswordLength
    ensures '@' !in email ==> v == Rejected(LoginEmailMessage)
  {
    if '@' !in email then Rejected(LoginEmailMessage)
    else if Utf16Length(password) < MinPasswordLength then Rejected(LoginPasswordMessage)
    else Accepted
  }

  /** The login screen's checks, in the order `validate` runs them. */
  function LoginChecks(email: string, password: string): seq<Check> {
    [ Check('@' in email, LoginEmailMessage),
      Check(Utf16Length(password) >= MinPasswordLength, LoginPasswordMessage) ]
  }

  /** Login `validate` is the first-failure rule over its two checks, email first. */
  lemma LoginIsFirstFailure(email: string, password: string)
    ensures LoginValidate(email, password) == FirstFailure(LoginChecks(email, password))
  {
    var checks := LoginChecks(email, password);
    assert checks[1..] == [checks[1]];
    assert checks[1..][1..] == [];
  }

  /** `handleLogin`: replaces the route with "Home" exactly when `validate()` is true. */
  function HandleLogin(email: string, password: string): (effects: seq<Effect>)
    ensures Replace("Home") in effects <==> LoginValidate(email, password) == Accepted
    ensures LoginValidate(email, password).Rejected? ==>
              effects == [Alert(LoginValidate(email, password).message)]
  {
    match LoginValidate(email, password)
    case Accepted => [Replace("Home")]
    case Rejected(message) => [Alert(message)]
  }

  // ---------------------------------------------------------------- signup

  const SignupEmailMessage := "Please enter a valid email address"
  const SignupPasswordMessage := "Password must be at least 6 characters long"
  const SignupMismatchMessage := "Passwords do not match"
  const SignupTermsMessage := "Please agree to the terms and conditions"
  const SignupSuccessMessage := "Account Created Successfully!"

  /** `validate` of the signup screen. */
  function SignupValidate(email: string, password: string, confirmPassword: string, agreeToTerms: bool): (v: Verdict)
    ensures v == Accepted <==>
              '@' in email && Utf16Length(password) >= MinPasswordLength &&
              password == confirmPassword && agreeToTerms
    ensures '@' !in email ==> v == Rejected(SignupEmailMessage)
  {
    if '@' !in email then Rejected(SignupEmailMessage)
    else if Utf16Length(password) < MinPasswordLength then Rejected(SignupPasswordMessage)
    else if password != confirmPassword then Rejected(SignupMismatchMessage)
    else if !agreeToTerms then Rejected(SignupTermsMessage)
    else Accepted
  }

  /** The signup screen's checks, in the order `validate` runs them. */
  function SignupChecks(email: string, password: string, confirmPassword: string, agreeToTerms: bool): seq<Check> {
    [ Check('@' in email, SignupEmailMessage),
      Check(Utf16Length(password) >= MinPasswordLength, SignupPasswordMessage),
      Check(password == confirmPassword, SignupMismatchMessage),
      Check(agreeToTerms, SignupTermsMessage) ]
  }

  /**
   * Signup `validate` is the first-failure rule over its four checks in the order
   * email, length, match, terms: the one message reported is the first failing check's.
   */
  lemma SignupIsFirstFailure(email: string, password: string, confirmPassword: string, agreeToTerms: bool)
    ensures SignupValidate(email, password, confirmPassword, agreeToTerms)
            == FirstFailure(SignupChecks(email, password, confirmPassword, agreeToTerms))
  {
    var checks := SignupChecks(email, password, confirmPassword, agreeToTerms);
    assert checks[1..] == [checks[1], checks[2], checks[3]];
    assert checks[1..][1..] == [checks[2], checks[3]];
    assert checks[1..][1..][1..] == [checks[3]];
    assert checks[1..][1..][1..][1..] == [];
  }

  /** `handleSignup`: the success alert and `replace("Login")` happen exactly when `validate()` is true. */
  function HandleSignup(email: string, password: string, confirmPassword: string, agreeToTerms: bool): (effects: seq<Effect>)
    ensures Replace("Login") in effects <==> SignupValidate(email, password, confirmPassword, agreeToTerms) == Accepted
    ensures Alert(SignupSuccessMessage) in effects <==> SignupValidate(email, password, confirmPassword, agreeToTerms) == Accepted
    ensures SignupValidate(email, password, confirmPassword, agreeToTerms).Rejected? ==>
              effects == [Alert(SignupValidate(email, password, confirmPassword, agreeToTerms).message)]
  {
    match SignupValidate(email, password, confirmPassword, agreeToTerms)
    case Accepted => [Alert(SignupSuccessMessage), Replace("Login")]
    case Rejected(message) =>
      assert message != SignupSuccessMessage by {
        assert SignupSuccessMessage[0] == 'A';
        assert message[0] != 'A';
      }
      [Alert(message)]
  }

  /** Credentials the signup screen accepts are accepted by the login screen too. */
  lemma SignupAcceptedLogsIn(email: string, password: string, confirmPassword: string, agreeToTerms: bool)
    requires SignupValidate(email, password, confirmPassword, agreeToTerms) == Accepted
    ensures LoginValidate(email, password) == Accepted
  {
  }
}
