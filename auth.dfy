/** The sign-in / sign-up page: the form, the mode switch that clears it,
    the sanitised username field, and the submit that calls the auth
    service and reports the outcome in a toast. */
module AuthPage {
  import opened Wrappers
  import opened Text

  /** The four fields of the form. */
  datatype AuthFields = AuthFields(email: string, password: string, username: string, fullName: string)

  function EmptyFields(): AuthFields { AuthFields([], [], [], []) }

  /** The call a submit makes on the auth service. */
  datatype AuthCall =
    | SignIn(email: string, password: string)
    | SignUp(email: string, password: string, username: string, fullName: string)

  /** The toasts a submit can raise. */
  datatype Toast = LoginFailed | UsernameRequired | SignUpFailed | CheckEmail

  /** The call a submit makes: sign-in with the email and password in login
      mode; in sign-up mode, sign-up with all four fields unless the trimmed
      username is empty, in which case no call is made. */
  function SubmitCall(isLogin: bool, f: AuthFields): (c: Option<AuthCall>)
    ensures isLogin ==> c == Some(SignIn(f.email, f.password))
    ensures !isLogin ==> (c.None? <==> AllSpace(f.username))
    ensures !isLogin && c.Some? ==> c.value == SignUp(f.email, f.password, f.username, f.fullName)
  {
    if isLogin then Some(SignIn(f.email, f.password))
    else if Trim(f.username) == [] then None
    else Some(SignUp(f.email, f.password, f.username, f.fullName))
  }

  /** The toast that follows: "Username required" when no call was made,
      otherwise the failure toast of the call, or "Check your email" after
      a sign-up that succeeded; a sign-in that succeeded raises none. */
  function SubmitToast(call: Option<AuthCall>, callFailed: bool): (t: Option<Toast>)
    ensures call.None? ==> t == Some(UsernameRequired)
    ensures call.Some? && call.value.SignIn? ==> t == (if callFailed then Some(LoginFailed) else None)
    ensures call.Some? && call.value.SignUp? ==> t == Some(if callFailed then SignUpFailed else CheckEmail)
  {
    match call
    case None => Some(UsernameRequired)
    case Some(SignIn(_, _)) => if callFailed then Some(LoginFailed) else None
    case Some(SignUp(_, _, _, _)) => Some(if callFailed then SignUpFailed else CheckEmail)
  }

  /** Every submit but a successful sign-in ends in a toast, and the
      "Username required" toast is raised only in sign-up mode. */
  lemma EveryOutcomeIsReported(isLogin: bool, f: AuthFields, callFailed: bool)
    ensures var t := SubmitToast(SubmitCall(isLogin, f), callFailed);
            && (t.None? <==> isLogin && !callFailed)
            && (t == Some(UsernameRequired) ==> !isLogin)
  {
  }

  /** A username the field accepted is blank only when it is empty, so the
      guard stops exactly the empty username, and a sign-up the form sends
      always carries a non-empty username free of white space and capitals. */
  lemma SignUpCarriesUsername(f: AuthFields)
    requires NoSpace(f.username) && NoUpper(f.username)
    ensures SubmitCall(false, f).None? <==> f.username == []
    ensures SubmitCall(false, f).Some? ==>
              var u := SubmitCall(false, f).value.username;
              u != [] && NoSpace(u) && NoUpper(u)
  {
    if f.username != [] {
      assert !IsSpace(f.username[0]);
    }
  }

  class AuthForm {
    var isLogin: bool
    var isSubmitting: bool
    var fields: AuthFields

    /** The username field only ever holds what the sanitiser lets through. */
    ghost predicate Valid()
      reads this
    {
      NoSpace(fields.username) && NoUpper(fields.username)
    }

    /** The page opens in login mode with an empty form. */
    constructor ()
      ensures Valid()
      ensures isLogin && !isSubmitting && fields == EmptyFields()
    {
      isLogin, isSubmitting, fields := true, false, EmptyFields();
    }

    /** The link under the form switches mode and clears every field. */
    method ToggleMode()
      requires Valid()
      modifies this
      ensures Valid()
      ensures isLogin == !old(isLogin) && fields == EmptyFields() && isSubmitting == old(isSubmitting)
    {
      isLogin := !isLogin;
      fields := EmptyFields();
    }

    /** Typing a username: lower-cased, with all white space removed. */
    method SetUsername(typed: string)
      requires Valid()
      modifies this
      ensures Valid()
      ensures fields == old(fields).(username := SanitizeUsername(typed))
      ensures isLogin == old(isLogin) && isSubmitting == old(isSubmitting)
    {
      fields := fields.(username := SanitizeUsername(typed));
    }

    method SetEmail(typed: string)
      requires Valid()
      modifies this
      ensures Valid()
      ensures fields == old(fields).(email := typed)
      ensures isLogin == old(isLogin) && isSubmitting == old(isSubmitting)
    {
      fields := fields.(email := typed);
    }

    method SetPassword(typed: string)
      requires Valid()
      modifies this
      ensures Valid()
      ensures fields == old(fields).(password := typed)
      ensures isLogin == old(isLogin) && isSubmitting == old(isSubmitting)
    {
      fields := fields.(password := typed);
    }

    method SetFullName(typed: string)
      requires Valid()
      modifies this
      ensures Valid()
      ensures fields == old(fields).(fullName := typed)
      ensures isLogin == old(isLogin) && isSubmitting == old(isSubmitting)
    {
      fields := fields.(fullName := typed);
    }

    /** `handleSubmit`: mark the form busy, make the call the mode asks for
        (`callFailed` is whether the service answered with an error), raise
        the matching toast, and clear the busy flag on every path. The form
        keeps what was typed. */
    method HandleSubmit(callFailed: bool) returns (call: Option<AuthCall>, toast: Option<Toast>)
      requires Valid()
      modifies this
      ensures Valid()
      ensures call == SubmitCall(isLogin, fields)
      ensures toast == SubmitToast(call, callFailed)
      ensures !isSubmitting
      ensures isLogin == old(isLogin) && fields == old(fields)
    {
      isSubmitting := true;
      if isLogin {
        call := Some(SignIn(fields.email, fields.password));
        toast := if callFailed then Some(LoginFailed) else None;
      } else {
        if Trim(fields.username) == [] {
          isSubmitting := false;
          return None, Some(UsernameRequired);
        }
        call := Some(SignUp(fields.email, fields.password, fields.username, fields.fullName));
        toast := Some(if callFailed then SignUpFailed else CheckEmail);
      }
      isSubmitting := false;
    }
  }
}
