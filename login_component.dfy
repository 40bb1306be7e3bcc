/**
 * The login component's state machine: the current page, the stored
 * one-time code, the attached form controls and their values, the progress
 * flag and the displayed error. AuthService, the router and the error timer
 * are represented by what the component hands to them: a log of issued
 * requests, the requests still unsettled, the navigation requests and the
 * number of scheduled error clears that have not fired yet.
 */
module Login {

  import opened Wrappers
  import opened LoginForm
  import AuthCalls

  class LoginComponent {

    /** The current page; any query-parameter string may land here. */
    var page: string
    /** The `oobCode` query parameter, `None` when absent. */
    var code: Option<string>
    /** The keys of `form.controls`, in insertion order. */
    var attached: seq<Control>
    /** The values of the five controls. */
    var values: Values
    var progress: bool
    var error: Option<string>

    /** Every AuthService request, in the order it was issued. */
    var log: seq<AuthCalls.Call>
    /** The issued requests whose promise has not settled yet. */
    var pending: seq<AuthCalls.Call>
    /** The `mode` of every `router.navigate` request, in order. */
    var navigations: seq<string>
    /** Scheduled `error = null` timers that have not fired yet. */
    var clears: nat

    /** The form group holds each control at most once, and every control has a value. */
    ghost predicate WellFormed()
      reads this
    {
      Total(values) && Distinct(attached)
    }

    /** The attached controls are always exactly the current page's layout. */
    ghost predicate Valid()
      reads this
    {
      WellFormed() && attached == ControlsFor(page)
    }

    /** Nothing the form shows changed. */
    twostate predicate FormUnchanged()
      reads this
    {
      page == old(page) && attached == old(attached) && values == old(values)
    }

    /** No request, navigation, timer, progress or error change. */
    twostate predicate GatewayUnchanged()
      reads this
    {
      progress == old(progress) && error == old(error) && log == old(log) && pending == old(pending)
      && navigations == old(navigations) && clears == old(clears)
    }

    /** Exactly the request `c` was issued; nothing else outside the form changed. */
    twostate predicate Issued(c: AuthCalls.Call)
      reads this
    {
      log == old(log) + [c] && pending == old(pending) + [c]
      && error == old(error) && navigations == old(navigations) && clears == old(clears)
    }

    constructor ()
      ensures Valid()
      ensures page == "signIn" && attached == [Email, Password]
      ensures forall c: Control :: values[c] == None
      ensures code == None && !progress && error == None
      ensures log == [] && pending == [] && navigations == [] && clears == 0
    {
      values := map[Name := None, Email := None, Password := None, NewEmail := None, NewPassword := None];
      attached := [];
      page := "";
      code := None;
      progress := false;
      error := None;
      log := [];
      pending := [];
      navigations := [];
      clears := 0;
      new;
      forall c: Control ensures c in values {
        match c
        case Name => case Email => case Password => case NewEmail => case NewPassword =>
      }
      SwitchPage("signIn");
    }

    /** Removes every control from the form group, one key at a time. */
    method RemoveAllControls()
      requires WellFormed()
      modifies this
      ensures WellFormed() && attached == []
      ensures page == old(page) && values == old(values) && code == old(code)
      ensures GatewayUnchanged()
    {
      var keys := attached;
      var i := 0;
      while i < |keys|
        invariant 0 <= i <= |keys|
        invariant attached == keys[i..]
        invariant Distinct(keys)
        invariant page == old(page) && values == old(values) && code == old(code) && GatewayUnchanged()
      {
        WithoutFirst(keys[i..]);
        attached := Without(attached, keys[i]);
        i := i + 1;
      }
    }

    /** `form.addControl(c)` for a control that is not attached yet. */
    method AddControl(c: Control)
      requires WellFormed() && c !in attached
      modifies this
      ensures WellFormed() && attached == old(attached) + [c]
      ensures page == old(page) && values == old(values) && code == old(code)
      ensures GatewayUnchanged()
    {
      attached := Attach(attached, c);
    }

    /**
     * Detaches every control, records the page, and attaches the page's
     * controls; the control values are the same instances' and stay as they were.
     */
    method SwitchPage(p: string)
      requires WellFormed()
      modifies this
      ensures Valid() && page == p
      ensures values == old(values) && code == old(code)
      ensures GatewayUnchanged()
    {
      RemoveAllControls();
      page := p;
      if p == "register" {
        AddControl(Name);
        AddControl(Email);
        AddControl(Password);
      } else if p == "forgotPassword" {
        AddControl(Email);
      } else if p == "resetPassword" {
        AddControl(NewPassword);
      } else if p == "changePassword" {
        AddControl(Password);
        AddControl(NewPassword);
      } else if p == "changeEmail" {
        AddControl(Password);
        AddControl(NewEmail);
      } else if p == "delete" {
        AddControl(Password);
      } else {
        // signIn, and the default for any other value
        AddControl(Email);
        AddControl(Password);
      }
      assert attached == ControlsFor(p);
    }

    /**
     * One emission of the query parameters: the code is always overwritten;
     * signOut and verifyEmail are actions that leave the page and form alone;
     * every other mode (signIn when missing or empty) is switched to.
     */
    method OnQueryParams(mode: Option<string>, oobCode: Option<string>)
      requires Valid()
      modifies this
      ensures Valid() && code == oobCode
      ensures ResolveMode(mode) == "signOut" ==> progress && Issued(AuthCalls.SignOut) && FormUnchanged()
      ensures ResolveMode(mode) == "verifyEmail" ==>
        progress && Issued(AuthCalls.VerifyCall(oobCode)) && FormUnchanged()
      ensures ResolveMode(mode) != "signOut" && ResolveMode(mode) != "verifyEmail" ==>
        page == ResolveMode(mode) && values == old(values) && GatewayUnchanged()
    {
      var m := ResolveMode(mode);
      code := oobCode;
      if m == "signOut" {
        SignOut();
      } else if m == "verifyEmail" {
        VerifyEmail(code);
      } else {
        SwitchPage(m);
      }
    }

    /** A user edit of one control's value (the template's input binding). */
    method Edit(c: Control, v: Option<string>)
      requires Valid()
      modifies this
      ensures Valid() && values == old(values)[c := v]
      ensures page == old(page) && attached == old(attached) && code == old(code)
      ensures GatewayUnchanged()
    {
      values := values[c := v];
    }

    /**
     * The submit button: issues the one request the current page calls
     * for. It does not look at `progress`, so a second submit before the
     * first settles issues a second request.
     */
    method LoginAction()
      requires Valid()
      modifies this
      ensures Valid() && progress
      ensures Issued(AuthCalls.SubmitCall(old(page), old(values), old(code)))
      ensures FormUnchanged() && code == old(code)
    {
      if page == "register" {
        RegisterNew(values[Email], values[Password], values[Name]);
      } else if page == "forgotPassword" {
        ForgotPassword(values[Email]);
      } else if page == "resetPassword" {
        ResetPassword(code, values[NewPassword]);
      } else if page == "changePassword" {
        UpdatePassword(values[Password], values[NewPassword]);
      } else if page == "changeEmail" {
        UpdateEmail(values[Password], values[NewEmail]);
      } else if page == "delete" {
        DeleteAccount(values[Password]);
      } else {
        SignIn(values[Email], values[Password]);
      }
    }

    /** Hands a request to AuthService; its promise stays pending. */
    method Issue(c: AuthCalls.Call)
      modifies this
      ensures Issued(c) && progress == old(progress)
      ensures FormUnchanged() && code == old(code)
    {
      log := log + [c];
      pending := pending + [c];
    }

    method SignInWith(provider: string)
      requires Valid()
      modifies this
      ensures Valid() && progress && Issued(AuthCalls.SignInWith(provider))
      ensures FormUnchanged() && code == old(code)
    {
      progress := true;
      Issue(AuthCalls.SignInWith(provider));
    }

    method SignIn(email: Option<string>, password: Option<string>)
      requires Valid()
      modifies this
      ensures Valid() && progress && Issued(AuthCalls.SignIn(email, password))
      ensures FormUnchanged() && code == old(code)
    {
      progress := true;
      Issue(AuthCalls.SignIn(email, password));
    }

    method RegisterNew(email: Option<string>, password: Option<string>, name: Option<string>)
      requires Valid()
      modifies this
      ensures Valid() && progress && Issued(AuthCalls.RegisterNew(email, password, name))
      ensures FormUnchanged() && code == old(code)
    {
      progress := true;
      Issue(AuthCalls.RegisterNew(email, password, name));
    }

    /** Confirms a truthy action code, or else asks for a verification email. */
    method VerifyEmail(actionCode: Option<string>)
      requires Valid()
      modifies this
      ensures Valid() && progress && Issued(AuthCalls.VerifyCall(actionCode))
      ensures FormUnchanged() && code == old(code)
    {
      progress := true;
      if AuthCalls.Truthy(actionCode) {
        Issue(AuthCalls.ApplyActionCode(actionCode.value));
      } else {
        Issue(AuthCalls.SendEmailVerification);
      }
    }

    method ForgotPassword(email: Option<string>)
      requires Valid()
      modifies this
      ensures Valid() && progress && Issued(AuthCalls.ForgotPassword(email))
      ensures FormUnchanged() && code == old(code)
    {
      progress := true;
      Issue(AuthCalls.ForgotPassword(email));
    }

    method ResetPassword(oobCode: Option<string>, newPassword: Option<string>)
      requires Valid()
      modifies this
      ensures Valid() && progress && Issued(AuthCalls.ResetPassword(oobCode, newPassword))
      ensures FormUnchanged() && code == old(code)
    {
      progress := true;
      Issue(AuthCalls.ResetPassword(oobCode, newPassword));
    }

    method UpdateEmail(password: Option<string>, newEmail: Option<string>)
      requires Valid()
      modifies this
      ensures Valid() && progress && Issued(AuthCalls.UpdateEmail(password, newEmail))
      ensures FormUnchanged() && code == old(code)
    {
      progress := true;
      Issue(AuthCalls.UpdateEmail(password, newEmail));
    }

    method UpdatePassword(password: Option<string>, newPassword: Option<string>)
      requires Valid()
      modifies this
      ensures Valid() && progress && Issued(AuthCalls.UpdatePassword(password, newPassword))
      ensures FormUnchanged() && code == old(code)
    {
      progress := true;
      Issue(AuthCalls.UpdatePassword(password, newPassword));
    }

    method DeleteAccount(password: Option<string>)
      requires Valid()
      modifies this
      ensures Valid() && progress && Issued(AuthCalls.DeleteUser(password))
      ensures FormUnchanged() && code == old(code)
    {
      progress := true;
      Issue(AuthCalls.DeleteUser(password));
    }

    method SignOut()
      requires Valid()
      modifies this
      ensures Valid() && progress && Issued(AuthCalls.SignOut)
      ensures FormUnchanged() && code == old(code)
    {
      progress := true;
      Issue(AuthCalls.SignOut);
    }

    /** Records the error code, drops the progress flag and schedules a clear. */
    method ShowError(e: Option<string>)
      requires Valid()
      modifies this
      ensures Valid() && error == e && !progress && clears == old(clears) + 1
      ensures log == old(log) && pending == old(pending) && navigations == old(navigations)
      ensures FormUnchanged() && code == old(code)
    {
      error := e;
      progress := false;
      clears := clears + 1;
    }

    /** Drops the progress flag and, when `jumpTo` is truthy, asks the router for that mode. */
    method ReportSuccess(jumpTo: Option<string>)
      requires Valid()
      modifies this
      ensures Valid() && !progress && error == old(error) && clears == old(clears)
      ensures navigations == old(navigations) + (if AuthCalls.Truthy(jumpTo) then [jumpTo.value] else [])
      ensures log == old(log) && pending == old(pending)
      ensures FormUnchanged() && code == old(code)
    {
      progress := false;
      if AuthCalls.Truthy(jumpTo) {
        navigations := navigations + [jumpTo.value];
      }
    }

    /** The pending request at index `k` resolves: its `.then` handler runs. */
    method ResolveSuccess(k: nat)
      requires Valid() && k < |pending|
      modifies this
      ensures Valid() && !progress && error == old(error) && clears == old(clears)
      ensures pending == old(pending[..k] + pending[k + 1..]) && log == old(log)
      ensures navigations == old(navigations) +
        (match AuthCalls.SuccessJump(old(pending[k])) case Some(m) => [m] case None => [])
      ensures FormUnchanged() && code == old(code)
    {
      var c := pending[k];
      pending := pending[..k] + pending[k + 1..];
      ReportSuccess(AuthCalls.SuccessJump(c));
    }

    /** The pending request at index `k` rejects with `errorCode`: its `.catch` handler runs. */
    method ResolveFailure(k: nat, errorCode: Option<string>)
      requires Valid() && k < |pending|
      modifies this
      ensures Valid() && !progress && error == errorCode && clears == old(clears) + 1
      ensures pending == old(pending[..k] + pending[k + 1..]) && log == old(log)
      ensures navigations == old(navigations)
      ensures FormUnchanged() && code == old(code)
    {
      pending := pending[..k] + pending[k + 1..];
      ShowError(errorCode);
    }

    /** The oldest scheduled timer fires and clears whatever error is shown now. */
    method FireErrorClear()
      requires Valid() && clears > 0
      modifies this
      ensures Valid() && error == None && clears == old(clears) - 1
      ensures progress == old(progress) && log == old(log) && pending == old(pending)
      ensures navigations == old(navigations)
      ensures FormUnchanged() && code == old(code)
    {
      error := None;
      clears := clears - 1;
    }
  }
}
