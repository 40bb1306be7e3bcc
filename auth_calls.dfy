/**
 * The requests the login component makes of AuthService, and the two tables
 * that drive them: which request a submit issues on each page, and which
 * requests navigate back to `mode=signIn` when they succeed.
 */
module AuthCalls {

  import opened Wrappers
  import opened LoginForm

  /** One AuthService request together with the arguments it was given. */
  datatype Call =
    | SignInWith(provider: string)
    | SignIn(email: Option<string>, password: Option<string>)
    | RegisterNew(email: Option<string>, password: Option<string>, name: Option<string>)
    | ApplyActionCode(actionCode: string)
    | SendEmailVerification
    | ForgotPassword(email: Option<string>)
    | ResetPassword(oobCode: Option<string>, newPassword: Option<string>)
    | UpdateEmail(password: Option<string>, newEmail: Option<string>)
    | UpdatePassword(password: Option<string>, newPassword: Option<string>)
    | DeleteUser(password: Option<string>)
    | SignOut

  /** JavaScript truthiness of an optional string: present and non-empty. */
  predicate Truthy(s: Option<string>)
  {
    s.Some? && s.value != ""
  }

  /**
   * The request `verifyEmail(code)` issues: confirm the action code when one
   * is given, otherwise ask for a fresh verification email.
   */
  function VerifyCall(code: Option<string>): (r: Call)
    ensures r.ApplyActionCode? || r.SendEmailVerification?
    ensures r.ApplyActionCode? <==> Truthy(code)
    ensures r.ApplyActionCode? ==> code == Some(r.actionCode)
  {
    if Truthy(code) then ApplyActionCode(code.value) else SendEmailVerification
  }

  /**
   * The request `loginAction` issues on `page`, built from the current
   * control values and the stored one-time code; an unknown page signs in.
   */
  function SubmitCall(page: string, v: Values, code: Option<string>): (r: Call)
    requires Total(v)
    ensures !(r.SignInWith? || r.ApplyActionCode? || r.SendEmailVerification? || r.SignOut?)
  {
    if page == "register" then RegisterNew(v[Email], v[Password], v[Name])
    else if page == "forgotPassword" then ForgotPassword(v[Email])
    else if page == "resetPassword" then ResetPassword(code, v[NewPassword])
    else if page == "changePassword" then UpdatePassword(v[Password], v[NewPassword])
    else if page == "changeEmail" then UpdateEmail(v[Password], v[NewEmail])
    else if page == "delete" then DeleteUser(v[Password])
    else SignIn(v[Email], v[Password])
  }

  /**
   * The `jumpTo` argument each request's success handler passes to
   * `reportSuccess`: only a password reset, an account deletion and a
   * sign-out send the user back to the signIn page.
   */
  function SuccessJump(c: Call): (r: Option<string>)
    ensures r.Some? <==> c.ResetPassword? || c.DeleteUser? || c.SignOut?
    ensures r.Some? ==> r.value == "signIn"
  {
    match c
    case ResetPassword(_, _) => Some("signIn")
    case DeleteUser(_) => Some("signIn")
    case SignOut => Some("signIn")
    case _ => None
  }

  /** The request issued on each page, one line per row of the switch. */
  lemma SubmitTable(v: Values, code: Option<string>)
    requires Total(v)
    ensures SubmitCall("signIn", v, code) == SignIn(v[Email], v[Password])
    ensures SubmitCall("register", v, code) == RegisterNew(v[Email], v[Password], v[Name])
    ensures SubmitCall("forgotPassword", v, code) == ForgotPassword(v[Email])
    ensures SubmitCall("resetPassword", v, code) == ResetPassword(code, v[NewPassword])
    ensures SubmitCall("changePassword", v, code) == UpdatePassword(v[Password], v[NewPassword])
    ensures SubmitCall("changeEmail", v, code) == UpdateEmail(v[Password], v[NewEmail])
    ensures SubmitCall("delete", v, code) == DeleteUser(v[Password])
  {
  }

  /** A page outside the seven shows the signIn controls and signs in with them. */
  lemma UnknownPageSignsIn(page: string, v: Values, code: Option<string>)
    requires Total(v) && !IsPage(page)
    ensures ControlsFor(page) == [Email, Password]
    ensures SubmitCall(page, v, code) == SignIn(v[Email], v[Password])
  {
  }

  /**
   * A submit reads only the controls attached on its page: two value maps
   * that agree on those controls give the same request.
   */
  lemma SubmitReadsOnlyAttached(page: string, v1: Values, v2: Values, code: Option<string>)
    requires Total(v1) && Total(v2)
    requires forall c :: c in ControlsFor(page) ==> v1[c] == v2[c]
    ensures SubmitCall(page, v1, code) == SubmitCall(page, v2, code)
  {
  }

  /**
   * Conversely, a submit reads every control attached on its page: a
   * different value in any of them gives a different request.
   */
  lemma SubmitReadsEveryAttached(page: string, v1: Values, v2: Values, code: Option<string>, c: Control)
    requires Total(v1) && Total(v2)
    requires c in ControlsFor(page) && v1[c] != v2[c]
    ensures SubmitCall(page, v1, code) != SubmitCall(page, v2, code)
  {
  }

  /** The stored one-time code matters to a submit only on the resetPassword page. */
  lemma SubmitCodeOnlyOnReset(page: string, v: Values, code1: Option<string>, code2: Option<string>)
    requires Total(v)
    ensures SubmitCall(page, v, code1) == SubmitCall(page, v, code2) <==> page != "resetPassword" || code1 == code2
  {
  }

  /** A successful submit navigates exactly on the resetPassword and delete pages. */
  lemma SubmitNavigates(page: string, v: Values, code: Option<string>)
    requires Total(v)
    ensures SuccessJump(SubmitCall(page, v, code)).Some? <==> page == "resetPassword" || page == "delete"
  {
  }
}
