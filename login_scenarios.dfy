/**
 * Short runs of the login component, driven only through the class's
 * contracts: each returns the observable state it ends in.
 */
module LoginScenarios {

  import opened Wrappers
  import opened LoginForm
  import AuthCalls
  import opened Login

  /** No `mode` parameter: the component shows the signIn page. */
  method MissingModeShowsSignIn() returns (page: string, attached: seq<Control>)
    ensures page == "signIn" && attached == [Email, Password]
  {
    var login := new LoginComponent();
    login.OnQueryParams(None, None);
    page, attached := login.page, login.attached;
  }

  /**
   * register, then changeEmail, then signIn attaches the same controls as
   * signIn directly, and no value typed on the way is lost.
   */
  method SwitchingForgetsHistory() returns (attached: seq<Control>, values: Values)
    ensures attached == [Email, Password]
    ensures Total(values) && values[Name] == Some("ann") && values[Email] == Some("a@b.c")
  {
    var login := new LoginComponent();
    login.OnQueryParams(Some("register"), None);
    login.Edit(Name, Some("ann"));
    login.Edit(Email, Some("a@b.c"));
    login.OnQueryParams(Some("changeEmail"), None);
    login.OnQueryParams(Some("signIn"), None);
    attached, values := login.attached, login.values;
  }

  /** An unknown mode is stored as the page but shows and submits as signIn. */
  method UnknownModeSignsIn() returns (page: string, attached: seq<Control>, log: seq<AuthCalls.Call>)
    ensures page == "bogus" && attached == [Email, Password]
    ensures log == [AuthCalls.SignIn(Some("a@b.c"), Some("pw"))]
  {
    var login := new LoginComponent();
    login.OnQueryParams(Some("bogus"), None);
    login.Edit(Email, Some("a@b.c"));
    login.Edit(Password, Some("pw"));
    login.LoginAction();
    page, attached, log := login.page, login.attached, login.log;
  }

  /**
   * A reset link, a new password and a successful reset: progress is
   * dropped, no error is shown and the router is asked for signIn once.
   */
  method ResetPasswordReturnsToSignIn() returns (progress: bool, error: Option<string>, navigations: seq<string>, log: seq<AuthCalls.Call>)
    ensures !progress && error == None && navigations == ["signIn"]
    ensures log == [AuthCalls.ResetPassword(Some("XYZ"), Some("secret1"))]
  {
    var login := new LoginComponent();
    login.OnQueryParams(Some("resetPassword"), Some("XYZ"));
    login.Edit(NewPassword, Some("secret1"));
    login.LoginAction();
    login.ResolveSuccess(0);
    progress, error, navigations, log := login.progress, login.error, login.navigations, login.log;
  }

  /** A rejected sign-in shows its code until the scheduled clear fires. */
  method WrongPasswordShowsThenClears() returns (shown: Option<string>, busy: bool, cleared: Option<string>)
    ensures shown == Some("auth/wrong-password") && !busy && cleared == None
  {
    var login := new LoginComponent();
    login.LoginAction();
    login.ResolveFailure(0, Some("auth/wrong-password"));
    shown, busy := login.error, login.progress;
    login.FireErrorClear();
    cleared := login.error;
  }

  /**
   * The timer of an earlier failure is not cancelled by a later one: when
   * it fires it clears the newer error, while the newer timer is still due.
   */
  method StaleTimerClearsNewerError() returns (error: Option<string>, clearsDue: nat)
    ensures error == None && clearsDue == 1
  {
    var login := new LoginComponent();
    login.LoginAction();
    login.ResolveFailure(0, Some("auth/wrong-password"));
    login.LoginAction();
    login.ResolveFailure(0, Some("auth/too-many-requests"));
    login.FireErrorClear();
    error, clearsDue := login.error, login.clears;
  }

  /** Signing out via the query parameter needs no input and keeps the form. */
  method SignOutKeepsForm() returns (page: string, attached: seq<Control>, log: seq<AuthCalls.Call>, navigations: seq<string>)
    ensures page == "signIn" && attached == [Email, Password]
    ensures log == [AuthCalls.SignOut] && navigations == ["signIn"]
  {
    var login := new LoginComponent();
    login.OnQueryParams(Some("signOut"), None);
    page, attached, log := login.page, login.attached, login.log;
    login.ResolveSuccess(0);
    navigations := login.navigations;
  }

  /** verifyEmail with and without an action code. */
  method VerifyEmailBranches() returns (withCode: seq<AuthCalls.Call>, withoutCode: seq<AuthCalls.Call>)
    ensures withCode == [AuthCalls.ApplyActionCode("abc")]
    ensures withoutCode == [AuthCalls.SendEmailVerification]
  {
    var a := new LoginComponent();
    a.OnQueryParams(Some("verifyEmail"), Some("abc"));
    withCode := a.log;
    var b := new LoginComponent();
    b.OnQueryParams(Some("verifyEmail"), Some(""));
    withoutCode := b.log;
  }

  /** Two submits in a row issue two requests: nothing guards on `progress`. */
  method DoubleSubmitIssuesTwice() returns (pending: seq<AuthCalls.Call>, progress: bool)
    ensures pending == [AuthCalls.SignIn(None, None), AuthCalls.SignIn(None, None)] && progress
  {
    var login := new LoginComponent();
    login.LoginAction();
    login.LoginAction();
    pending, progress := login.pending, login.progress;
  }

  /** A success for one request ends progress although another is still pending. */
  method EarlySuccessDropsProgress() returns (pending: nat, progress: bool)
    ensures pending == 1 && !progress
  {
    var login := new LoginComponent();
    login.LoginAction();
    login.LoginAction();
    login.ResolveSuccess(0);
    pending, progress := |login.pending|, login.progress;
  }
}
