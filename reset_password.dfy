/** The page that sets a new password from an e-mailed link carrying `token`. */
module ResetPassword {
  import opened Common
  import opened Url

  const InvalidLinkMessage := "Invalid reset link"
  const MismatchMessage := "Passwords do not match"
  const TooShortMessage := "Password must be at least 6 characters"
  const FailureFallback := "Failed to reset password"
  const MinLength: nat := 6

  /** The body of `resetPassword`; a missing token is sent as null. */
  datatype ResetRequest = ResetRequest(token: Option<string>, newPassword: string)

  /** Why a submission is refused before any request: the mismatch is reported first,
      then the length. */
  function Rejection(password: string, confirmPassword: string): (r: Option<string>)
    ensures r.None? <==> password == confirmPassword && |password| >= MinLength
    ensures password != confirmPassword ==> r == Some(MismatchMessage)
    ensures password == confirmPassword && |password| < MinLength ==> r == Some(TooShortMessage)
  {
    if password != confirmPassword then Some(MismatchMessage)
    else if |password| < MinLength then Some(TooShortMessage)
    else None
  }

  class Page {
    const token: Option<string>
    var password: string
    var confirmPassword: string
    var loading: bool
    var success: bool

    /** The page opened at `href`; the token is its `token` query parameter. */
    constructor(href: string)
      ensures token == SearchParam(href, "token")
      ensures password == "" && confirmPassword == "" && !loading && !success
    {
      token := SearchParam(href, "token");
      password, confirmPassword := "", "";
      loading, success := false, false;
    }

    /** The mount effect: without a usable token the page leaves for the login page. */
    method CheckToken() returns (navigateTo: Option<string>, toast: Option<string>)
      ensures navigateTo.Some? <==> token.None? || token.value == ""
      ensures navigateTo.Some? ==> navigateTo.value == "/login" && toast == Some(InvalidLinkMessage)
      ensures navigateTo.None? ==> toast == None
    {
      if token.None? || token.value == "" {
        return Some("/login"), Some(InvalidLinkMessage);
      }
      return None, None;
    }

    method Edit(newPassword: string, newConfirm: string)
      modifies this
      ensures password == newPassword && confirmPassword == newConfirm
      ensures loading == old(loading) && success == old(success)
    {
      password, confirmPassword := newPassword, newConfirm;
    }

    /** `handleSubmit`; `reply` is the answer of `resetPassword`, used only when the
        request is sent. */
    method HandleSubmit(reply: Reply<()>) returns (sent: Option<ResetRequest>, toast: string)
      modifies this
      ensures sent.None? <==> Rejection(password, confirmPassword).Some?
      ensures sent.None? ==> toast == Rejection(password, confirmPassword).value && success == old(success)
      ensures sent.Some? ==> sent.value == ResetRequest(token, password)
      ensures sent.Some? && reply.Ok? ==> success && toast == "Password reset successfully!"
      ensures sent.Some? && reply.Err? ==> success == old(success) && toast == OrElse(reply.serverMessage, FailureFallback)
      ensures sent.None? ==> loading == old(loading)
      ensures sent.Some? ==> !loading
      ensures password == old(password) && confirmPassword == old(confirmPassword)
    {
      var refusal := Rejection(password, confirmPassword);
      if refusal.Some? {
        return None, refusal.value;
      }
      loading := true;
      sent := Some(ResetRequest(token, password));
      if reply.Ok? {
        success := true;
        toast := "Password reset successfully!";
      } else {
        toast := OrElse(reply.serverMessage, FailureFallback);
      }
      loading := false;
    }
  }
}
