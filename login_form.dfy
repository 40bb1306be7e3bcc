/**
 * The form side of the login component: the five long-lived controls, the
 * page → attached-controls table, the form-group primitives `removeControl`
 * and `addControl`, and the decoding of the `mode` query parameter.
 */
module LoginForm {

  import opened Wrappers

  /** The five FormControl instances created once by the constructor. */
  datatype Control = Name | Email | Password | NewEmail | NewPassword

  /** The current value of every control; `None` is the initial `null`. */
  type Values = map<Control, Option<string>>

  /** Every control has a value entry (the controls are never destroyed). */
  predicate Total(v: Values)
  {
    forall c: Control :: c in v
  }

  /** No control is attached twice (the form group is keyed by name). */
  predicate Distinct(s: seq<Control>)
  {
    forall i, j :: 0 <= i < j < |s| ==> s[i] != s[j]
  }

  /** The seven members of the `pageTypes` union. */
  predicate IsPage(p: string)
  {
    p in {"register", "signIn", "forgotPassword", "resetPassword", "changePassword", "changeEmail", "delete"}
  }

  /**
   * The controls `switchPage` attaches for a page, in the order it adds them.
   * Any string that is not one of the seven pages gets the signIn layout.
   */
  function ControlsFor(page: string): (r: seq<Control>)
    ensures 1 <= |r| <= 3 && Distinct(r)
    ensures !IsPage(page) ==> r == [Email, Password]
  {
    if page == "register" then [Name, Email, Password]
    else if page == "forgotPassword" then [Email]
    else if page == "resetPassword" then [NewPassword]
    else if page == "changePassword" then [Password, NewPassword]
    else if page == "changeEmail" then [Password, NewEmail]
    else if page == "delete" then [Password]
    else [Email, Password]
  }

  /** The layout of each of the seven pages. */
  lemma PageLayouts()
    ensures ControlsFor("register") == [Name, Email, Password]
    ensures ControlsFor("signIn") == [Email, Password]
    ensures ControlsFor("forgotPassword") == [Email]
    ensures ControlsFor("resetPassword") == [NewPassword]
    ensures ControlsFor("changePassword") == [Password, NewPassword]
    ensures ControlsFor("changeEmail") == [Password, NewEmail]
    ensures ControlsFor("delete") == [Password]
  {
  }

  /** `form.removeControl(c)`: the attached controls with `c` taken out. */
  function Without(s: seq<Control>, c: Control): (r: seq<Control>)
    ensures forall x :: x in r <==> x in s && x != c
    ensures |r| <= |s|
    ensures Distinct(s) ==> Distinct(r)
  {
    if s == [] then []
    else if s[0] == c then Without(s[1..], c)
    else
      var rest := Without(s[1..], c);
      assert Distinct(s) ==> s[0] !in s[1..] && Distinct(s[1..]);
      DistinctCons(s[0], rest);
      [s[0]] + rest
  }

  /** Prepending a control that is absent keeps a sequence duplicate-free. */
  lemma DistinctCons(x: Control, t: seq<Control>)
    ensures x !in t && Distinct(t) ==> Distinct([x] + t)
  {
  }

  /** `form.addControl(c)`: appended at the end, unless already attached. */
  function Attach(s: seq<Control>, c: Control): (r: seq<Control>)
    ensures forall x :: x in r <==> x in s || x == c
    ensures |s| <= |r| && r[..|s|] == s
    ensures Distinct(s) ==> Distinct(r)
  {
    if c in s then s else s + [c]
  }

  /** Removing a control that is not attached leaves the form as it was. */
  lemma {:induction false} WithoutAbsent(s: seq<Control>, c: Control)
    requires c !in s
    ensures Without(s, c) == s
  {
    if s != [] {
      WithoutAbsent(s[1..], c);
    }
  }

  /** Removing the first key of a duplicate-free form leaves exactly the rest. */
  lemma WithoutFirst(s: seq<Control>)
    requires Distinct(s) && s != []
    ensures Without(s, s[0]) == s[1..]
  {
    WithoutAbsent(s[1..], s[0]);
  }

  /** Removing any attached key leaves the other keys in their old order. */
  lemma {:induction false} WithoutKeepsOrder(s: seq<Control>, k: nat)
    requires Distinct(s) && k < |s|
    ensures Without(s, s[k]) == s[..k] + s[k + 1..]
  {
    if k == 0 {
      WithoutFirst(s);
    } else {
      assert s[0] != s[k];
      assert s[1..][k - 1] == s[k];
      WithoutKeepsOrder(s[1..], k - 1);
      assert s[..k] == [s[0]] + s[1..][..k - 1];
      assert s[k + 1..] == s[1..][k..];
    }
  }

  /** `params.get('mode') || 'signIn'`: a null or empty mode reads as signIn. */
  function ResolveMode(mode: Option<string>): (r: string)
    ensures r != ""
    ensures mode.Some? && mode.value != "" ==> r == mode.value
    ensures mode.None? || mode.value == "" ==> r == "signIn"
  {
    match mode
    case Some(m) => if m != "" then m else "signIn"
    case None => "signIn"
  }
}
