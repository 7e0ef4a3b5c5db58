/** The sign-in and sign-up forms: their schemas and what a submit does to the modal. */
module Auth {
  import opened Wrappers
  import opened Forms

  datatype SignInValues = SignInValues(email: string, password: string)

  datatype SignUpValues = SignUpValues(email: string, password: string, fullName: string, confirmPassword: string)

  function EmailIssue(email: string, isEmail: string -> bool): seq<Issue> {
    if isEmail(email) then [] else [Issue("email", "Please enter a valid email address")]
  }

  const PasswordMessage := "Password must be at least 6 characters"

  /** `signInSchema`: a valid email and a password of at least six characters. */
  function SignInIssues(v: SignInValues, isEmail: string -> bool): (r: seq<Issue>)
    ensures r == [] <==> isEmail(v.email) && |v.password| >= 6
    ensures forall i :: 0 <= i < |r| ==> r[i].path in {"email", "password"}
  {
    EmailIssue(v.email, isEmail) + MinLength("password", v.password, 6, PasswordMessage)
  }

  /**
   * `signUpSchema`: the field checks, then the refinement that the two
   * passwords agree, reported on `confirmPassword`.
   */
  function SignUpIssues(v: SignUpValues, isEmail: string -> bool): (r: seq<Issue>)
    ensures r == [] <==> isEmail(v.email) && |v.password| >= 6 && |v.fullName| >= 2 && v.password == v.confirmPassword
    ensures v.password != v.confirmPassword ==> Issue("confirmPassword", "Passwords don't match") in r
    ensures v.password == v.confirmPassword ==> IssuesAt(r, "confirmPassword") == {}
  {
    var fields := EmailIssue(v.email, isEmail)
                  + MinLength("password", v.password, 6, PasswordMessage)
                  + MinLength("fullName", v.fullName, 2, "Full name must be at least 2 characters");
    var refinement := if v.password == v.confirmPassword then [] else [Issue("confirmPassword", "Passwords don't match")];
    var r := fields + refinement;
    assert v.password != v.confirmPassword ==> r[|fields|] == Issue("confirmPassword", "Passwords don't match");
    r
  }

  /** The credentials of any valid sign-up also pass the sign-in schema. */
  lemma SignUpImpliesSignIn(v: SignUpValues, isEmail: string -> bool)
    requires SignUpIssues(v, isEmail) == []
    ensures SignInIssues(SignInValues(v.email, v.password), isEmail) == []
  {
  }

  /** The auth service's reply: optional data and an optional error. */
  datatype AuthReply<D> = AuthReply(data: Option<D>, error: Option<string>)

  /** The modal's state: whether it is open, and the form's current values. */
  datatype Modal<F> = Modal(isOpen: bool, form: F)

  /**
   * `onSignIn` / `onSignUp` after the reply: close and reset the form (to
   * `blank`, its default values) only on data without error.
   */
  function AfterSubmit<F, D>(m: Modal<F>, reply: AuthReply<D>, blank: F): (r: Modal<F>)
    ensures r == m || (!r.isOpen && r.form == blank)
  {
    if reply.error.None? && reply.data.Some? then Modal(false, blank) else m
  }

  /**
   * Only a reply with data and no error closes the modal and resets the form;
   * any other reply leaves the modal and what the user typed as they were.
   */
  lemma AfterSubmitProperties<F, D>(m: Modal<F>, reply: AuthReply<D>, blank: F)
    ensures AfterSubmit(m, reply, blank) != m ==> reply.error.None? && reply.data.Some?
    ensures reply.error.None? && reply.data.Some? ==>
              !AfterSubmit(m, reply, blank).isOpen && AfterSubmit(m, reply, blank).form == blank
    ensures AfterSubmit(AfterSubmit(m, reply, blank), reply, blank) == AfterSubmit(m, reply, blank)
  {
  }
}
