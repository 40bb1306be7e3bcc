# Login component state machine

A Dafny model of the login component of wizdm-connect
(`src/app/login/login.component.ts`): one Angular form that serves seven
authentication pages (register, signIn, forgotPassword, resetPassword,
changePassword, changeEmail, delete). The model covers four things:

- which of the five long-lived form controls (name, email, password,
  newEmail, newPassword) `switchPage` attaches on each page;
- how an emission of the `mode` / `oobCode` query parameters is turned
  into a page switch or into the signOut / verifyEmail actions;
- which AuthService request `loginAction` issues on each page, and with
  which control values;
- how `progress` and `error` are updated when a request is issued, succeeds
  or fails.

Files:

- `wrappers.dfy`: `Option`, which stands for JavaScript's `null` and `undefined`.
- `login_form.dfy` (module `LoginForm`): the controls, the page → controls
  table, the form-group primitives `removeControl` / `addControl`, and
  decoding of `mode`.
- `auth_calls.dfy` (module `AuthCalls`): the request datatype, the
  page → request table, the verifyEmail branch, and which successes navigate.
- `login_component.dfy` (module `Login`): class `LoginComponent`. Its fields
  `page`, `code`, `attached`, `values`, `progress` and `error` are the
  component's own state. Four more fields record what the component hands
  to its environment:
  - `log`: every request it issued;
  - `pending`: the requests not yet settled;
  - `navigations`: its router requests;
  - `clears`: its scheduled error clears that have not fired yet.
- `login_scenarios.dfy` (module `LoginScenarios`): short runs of the class.
  They are proved from the class contracts alone.

The environment drives the class through these events:
- `OnQueryParams`: one `queryParamMap` emission.
- `Edit`: the user types into a control.
- `LoginAction`: the submit button.
- `SignInWith`: a provider button.
- `ResolveSuccess(k)` / `ResolveFailure(k, code)`: pending request `k` settles.
- `FireErrorClear`: a `setTimeout` callback runs.

`Valid()` is the class invariant: the attached controls are exactly
`ControlsFor(page)`, and every control has a value. The constructor
establishes it. Every event method preserves it: `OnQueryParams`, `Edit`,
`LoginAction`, `SignInWith`, `ResolveSuccess`, `ResolveFailure` and
`FireErrorClear`, and also the per-request methods they call. The two form
steps inside `SwitchPage` keep only `WellFormed()`, which says no control is
attached twice and every control has a value. They are `RemoveAllControls`,
which leaves the form empty, and `AddControl`. `SwitchPage` itself ends in
`Valid()`.

Behaviour of the code that the model keeps on purpose:
- `loginAction` does not check `progress`, so a second submit issues a
  second request (`DoubleSubmitIssuesTwice`).
- `switchPage` and `reportSuccess` do not clear `error`.
- Page switches are not refused while a request is pending.
- The error-clear timer is never cancelled, so an older timer can clear a
  newer error (`StaleTimerClearsNewerError`).
- Any settled request clears `progress`, even if another request is still
  pending (`EarlySuccessDropsProgress`).

## Model

| member | source | states |
|---|---|---|
| `LoginForm.ControlsFor` | src/app/login/login.component.ts:116-151 | the layout of every page holds one to three controls with no repeats; a string outside the seven pages gets the signIn layout [email, password] |
| `LoginForm.PageLayouts` | src/app/login/login.component.ts:118-150 | the layout of each page: register [name, email, password], signIn [email, password], forgotPassword [email], resetPassword [newPassword], changePassword [password, newPassword], changeEmail [password, newEmail], delete [password] |
| `LoginForm.Without` | src/app/login/login.component.ts:112 | after removeControl(c), the form holds exactly its old controls other than c, and removing keeps the form free of repeats; WithoutKeepsOrder adds that the other controls keep their order |
| `LoginForm.Attach` | src/app/login/login.component.ts:119-149 | after addControl(c), the form holds its old controls plus c, with the old ones first and in their old order; adding keeps the form free of repeats |
| `LoginForm.WithoutKeepsOrder` | src/app/login/login.component.ts:112 | removing the control at any position of a repeat-free form leaves exactly the controls before it followed by those after it, in their old order |
| `LoginForm.WithoutAbsent` | src/app/login/login.component.ts:111-113 | removing a control that is not attached changes nothing |
| `LoginForm.WithoutFirst` | src/app/login/login.component.ts:111-113 | removing the first key of the form's key list leaves exactly the remaining keys |
| `LoginForm.ResolveMode` | src/app/login/login.component.ts:87 | a missing or empty mode resolves to signIn; any other mode is kept verbatim; the result is never empty |
| `AuthCalls.VerifyCall` | src/app/login/login.component.ts:262-285 | verifyEmail issues applyActionCode(code) exactly when the code is truthy (present and non-empty), and otherwise sendEmailVerification() |
| `AuthCalls.SubmitCall` | src/app/login/login.component.ts:178-216 | a submit never issues a provider sign-in, a verification or a sign-out |
| `AuthCalls.SuccessJump` | src/app/login/login.component.ts:299-366 | a success navigates exactly after resetPassword, deleteUser and signOut, and always to mode signIn; the other requests leave the mode alone |
| `AuthCalls.SubmitTable` | src/app/login/login.component.ts:180-215 | the request a submit issues on each page: signIn(email, password), registerNew(email, password, name), forgotPassword(email), resetPassword(code, newPassword), updatePassword(password, newPassword), updateEmail(password, newEmail), deleteUser(password) |
| `AuthCalls.UnknownPageSignsIn` | src/app/login/login.component.ts:182-186 | on a page outside the seven, the form shows [email, password] and a submit issues signIn(email, password) |
| `AuthCalls.SubmitReadsOnlyAttached` | src/app/login/login.component.ts:178-216 | a submit depends only on the values of the controls attached on its page |
| `AuthCalls.SubmitReadsEveryAttached` | src/app/login/login.component.ts:178-216 | changing the value of any control attached on the page changes the request a submit issues |
| `AuthCalls.SubmitCodeOnlyOnReset` | src/app/login/login.component.ts:198-200 | the stored one-time code changes what a submit issues if and only if the page is resetPassword |
| `AuthCalls.SubmitNavigates` | src/app/login/login.component.ts:299-352 | a successful submit asks for navigation if and only if the page is resetPassword or delete |
| `Login.LoginComponent.constructor` | src/app/login/login.component.ts:65-78 | right after construction: page signIn, attached [email, password], every value null, no code, progress false, error null, no requests, no navigations, no timers |
| `Login.LoginComponent.RemoveAllControls` | src/app/login/login.component.ts:110-113 | the forEach over the form's keys leaves no control attached and changes nothing else |
| `Login.LoginComponent.AddControl` | src/app/login/login.component.ts:119-149 | adding a control that is not attached appends it at the end of the form; nothing else changes |
| `Login.LoginComponent.SwitchPage` | src/app/login/login.component.ts:108-152 | stores the raw page; whatever was attached before, the result is exactly ControlsFor(page); no value, the code, progress, error or any request changes |
| `Login.LoginComponent.OnQueryParams` | src/app/login/login.component.ts:85-105 | code is always overwritten with oobCode; signOut issues signOut() and keeps page and form; verifyEmail issues VerifyCall(oobCode) and keeps page and form; any other mode (signIn when missing or empty) is switched to and issues nothing |
| `Login.LoginComponent.Edit` | src/app/login/login.component.ts:69-73 | typing into a control changes that control's value only; the control stays attached or detached as it was |
| `Login.LoginComponent.LoginAction` | src/app/login/login.component.ts:178-216 | issues exactly one request, SubmitCall(page, values, code), and sets progress; it does this even when progress is already set; page, form, code and error are unchanged |
| `Login.LoginComponent.Issue` | src/app/login/login.component.ts:223-224 | handing a request to AuthService adds it to the log and to the pending requests; progress, error, form, code, navigations and timers are unchanged |
| `Login.LoginComponent.SignInWith` | src/app/login/login.component.ts:218-229 | sets progress and issues signInWith(provider) alone |
| `Login.LoginComponent.SignIn` | src/app/login/login.component.ts:231-242 | sets progress and issues signIn(email, password) alone |
| `Login.LoginComponent.RegisterNew` | src/app/login/login.component.ts:244-255 | sets progress and issues registerNew(email, password, name) alone |
| `Login.LoginComponent.VerifyEmail` | src/app/login/login.component.ts:262-285 | sets progress and issues applyActionCode or sendEmailVerification, following VerifyCall |
| `Login.LoginComponent.ForgotPassword` | src/app/login/login.component.ts:287-297 | sets progress and issues forgotPassword(email) alone |
| `Login.LoginComponent.ResetPassword` | src/app/login/login.component.ts:299-309 | sets progress and issues resetPassword(code, newPassword) alone |
| `Login.LoginComponent.UpdateEmail` | src/app/login/login.component.ts:311-321 | sets progress and issues updateEmail(password, newEmail) alone |
| `Login.LoginComponent.UpdatePassword` | src/app/login/login.component.ts:323-333 | sets progress and issues updatePassword(password, newPassword) alone |
| `Login.LoginComponent.DeleteAccount` | src/app/login/login.component.ts:340-352 | sets progress and issues deleteUser(password) alone |
| `Login.LoginComponent.SignOut` | src/app/login/login.component.ts:354-366 | sets progress and issues signOut() alone |
| `Login.LoginComponent.ShowError` | src/app/login/login.component.ts:154-159 | error becomes the given code, progress is cleared, and one more error clear is scheduled |
| `Login.LoginComponent.ReportSuccess` | src/app/login/login.component.ts:161-176 | progress is cleared and error is left as it was; a navigation to jumpTo is requested exactly when jumpTo is truthy |
| `Login.LoginComponent.ResolveSuccess` | src/app/login/login.component.ts:218-366 | a request's success removes it from the pending requests, clears progress, keeps error, and requests navigation to SuccessJump of that request if there is one |
| `Login.LoginComponent.ResolveFailure` | src/app/login/login.component.ts:218-366 | a request's failure removes it from the pending requests, stores the error code (null when the failure has none), clears progress and schedules a clear |
| `Login.LoginComponent.FireErrorClear` | src/app/login/login.component.ts:158 | a timer firing sets error to null, whichever failure set it; nothing else changes |
| `LoginScenarios.MissingModeShowsSignIn` | src/app/login/login.component.ts:87-103 | with no mode parameter, the page is signIn and [email, password] is attached |
| `LoginScenarios.SwitchingForgetsHistory` | src/app/login/login.component.ts:108-152 | register → changeEmail → signIn attaches [email, password], the same as signIn directly, and the values typed on register are kept |
| `LoginScenarios.UnknownModeSignsIn` | src/app/login/login.component.ts:116-186 | mode "bogus" stores "bogus" as the page, shows [email, password] and submits signIn(email, password) |
| `LoginScenarios.ResetPasswordReturnsToSignIn` | src/app/login/login.component.ts:299-309 | a reset link with code XYZ and new password secret1 issues resetPassword(XYZ, secret1); on success progress is false, error is null, and signIn is requested exactly once |
| `LoginScenarios.WrongPasswordShowsThenClears` | src/app/login/login.component.ts:154-159 | a rejected sign-in shows auth/wrong-password with progress false, and the error is null after its timer fires |
| `LoginScenarios.StaleTimerClearsNewerError` | src/app/login/login.component.ts:158 | after two failures, the first timer to fire clears the newer error while the second timer is still due |
| `LoginScenarios.SignOutKeepsForm` | src/app/login/login.component.ts:94-96 | mode signOut issues signOut() with no input, keeps the signIn form, and its success requests signIn |
| `LoginScenarios.VerifyEmailBranches` | src/app/login/login.component.ts:98-100 | verifyEmail with code abc issues applyActionCode(abc); with an empty code it issues sendEmailVerification() |
| `LoginScenarios.DoubleSubmitIssuesTwice` | src/app/login/login.component.ts:178-186 | two submits in a row issue two signIn requests, both left pending |
| `LoginScenarios.EarlySuccessDropsProgress` | src/app/login/login.component.ts:161-163 | with two requests pending, the success of one clears progress while the other is still pending |

## Left out

- Angular plumbing: decorators, dependency injection, `FormGroup` /
  `FormControl` internals and `auth.extendUser(this)`. The form is a sequence
  of control names plus a map from control to value.
- `Validators.required` / `Validators.email`: validity is never consulted by
  the component's own code (`loginAction` submits regardless), so it is not
  modelled.
- AuthService: its requests are recorded, not performed. Which pending
  request settles, and how, is chosen by the caller of `ResolveSuccess` /
  `ResolveFailure`. Promise scheduling is not modelled.
- The router: a navigation is recorded in `navigations` only. The router
  would then emit the new query parameters; that follow-up `OnQueryParams`
  call is left to the caller, as is the `ActivatedRoute` subscription itself.
- `setTimeout` in `showError`: the 5000 ms delay is not modelled. Only a count
  of clears still due is kept, and `FireErrorClear` may run whenever one is
  due.
- `onUserCreate` / `onUserDelete`: these hooks only log and return true.
- Presentation only: the `$msgs` titles and captions, the success messages
  passed to `reportSuccess`, `console.log`, `$loginAnimations`,
  `$authProviders` and the `hide` flag.
- The rejected error object: `ResolveFailure` takes its `code` directly, as
  an optional string, so the model does not capture this case. If a request
  rejects with a null or undefined reason, reading `error.code` inside
  `.catch` throws (for example at lines 227 and 240). `showError` then never
  runs and `progress` stays true. `ResolveFailure` always clears `progress`.
