/**
 * The sign-up page's submit handler (frontend/src/app/auth/signup/page.tsx):
 * two client-side password checks in a fixed order, then the call to
 * `signUp`, whose outcome is an input.
 */
module SignupPage {
  import opened Common
  import ApiClient
  import opened Forms

  /** The shortest password the page accepts, in UTF-16 code units. */
  const MinPasswordLength := 6

  /** The arguments of `signUp(email, password, fullName)`. */
  datatype SignUpArgs = SignUpArgs(email: string, password: string, fullName: string)

  class SignupPageState {
    var email: string
    var password: string
    var confirmPassword: string
    var fullName: string
    var error: Option<string>
    var loading: bool
    var success: bool

    constructor()
      ensures email == "" && password == "" && confirmPassword == "" && fullName == ""
      ensures error.None? && !loading && !success
    {
      email := "";
      password := "";
      confirmPassword := "";
      fullName := "";
      error := None;
      loading := false;
      success := false;
    }

    /**
     * `handleSubmit`: the error is cleared; mismatched passwords are reported
     * first, then a password that is too short; only when both checks pass is
     * `signUp` called, with the email, the password and the full name (the
     * result gives those arguments, or `None` when it was not called), and
     * then success is set on resolve and the message or `Failed to sign up`
     * on reject. Loading is set only around the call and ends false after
     * either outcome; the fields are not changed.
     */
    method HandleSubmit(signUp: ApiClient.Settled<()>) returns (sent: Option<SignUpArgs>)
      modifies this
      ensures sent.Some? <==> password == confirmPassword && Utf16Length(password) >= MinPasswordLength
      ensures sent.Some? ==> sent.value == SignUpArgs(email, password, fullName)
      ensures password != confirmPassword ==> error == Some("Passwords do not match")
      ensures password == confirmPassword && Utf16Length(password) < MinPasswordLength ==>
                error == Some("Password must be at least 6 characters")
      ensures sent.Some? && signUp.Resolved? ==> error.None? && success
      ensures sent.Some? && signUp.Rejected? ==>
                error == Some(MessageOr(signUp.reason, "Failed to sign up")) && success == old(success)
      ensures sent.None? ==> success == old(success)
      ensures sent.Some? ==> !loading
      ensures sent.None? ==> loading == old(loading)
      ensures email == old(email) && password == old(password) && confirmPassword == old(confirmPassword) &&
              fullName == old(fullName)
    {
      error := None;
      if password != confirmPassword {
        error := Some("Passwords do not match");
        return None;
      }
      if Utf16Length(password) < MinPasswordLength {
        error := Some("Password must be at least 6 characters");
        return None;
      }
      loading := true;
      sent := Some(SignUpArgs(email, password, fullName));
      if signUp.Resolved? {
        success := true;
      } else {
        error := Some(MessageOr(signUp.reason, "Failed to sign up"));
      }
      loading := false;
    }
  }
}
