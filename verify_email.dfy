/** The page an e-mail confirmation link opens: it sends the link's `token` to the
    server once and shows the outcome. */
module VerifyEmail {
  import opened Common
  import opened Url
  import Api

  datatype Status = Loading | Success | Failure

  const VerifyingMessage := "Verifying your email..."
  const InvalidLinkMessage := "Invalid verification link."
  const SuccessMessage := "Email verified successfully! You can now log in."
  const FailureFallback := "Verification failed. Link may be expired."

  /** The button under the message: none while loading, then which label. */
  function ButtonLabel(s: Status): (text: Option<string>)
    ensures text.None? <==> s == Loading
    ensures text == Some("Go to Login") <==> s == Success
  {
    match s
    case Loading => None
    case Success => Some("Go to Login")
    case Failure => Some("Back to Login")
  }

  /** The token a confirmation link `prefix?token=t` carries reaches the server
      unchanged in the `token` parameter of `GET /auth/verify-email`. */
  lemma LinkTokenReachesServer(prefix: string, t: string)
    requires '?' !in prefix && '#' !in prefix && PlainValue(t) && t != ""
    ensures PresentParam(prefix + "?token=" + t, "token") == Some(t)
    ensures Get(Query(Api.VerifyEmail(t).path), "token") == Some(t)
  {
    assert prefix + "?token=" + t == prefix + "?" + "token" + "=" + t;
    LinkParam(prefix, "token", t);
    Api.VerifyEmailQuery(t);
  }

  class Page {
    var status: Status
    var message: string

    constructor()
      ensures status == Loading && message == VerifyingMessage
    {
      status := Loading;
      message := VerifyingMessage;
    }

    /** The effect for the page at `href`; `reply` is the server's answer, used only
        when the request is sent. */
    method Run(href: string, reply: Reply<()>) returns (request: Option<Api.Request>)
      modifies this
      ensures request.None? <==> PresentParam(href, "token").None?
      ensures request.None? ==> status == Failure && message == InvalidLinkMessage
      ensures request.Some? ==> request.value == Api.VerifyEmail(PresentParam(href, "token").value)
      ensures request.Some? && reply.Ok? ==> status == Success && message == SuccessMessage
      ensures request.Some? && reply.Err? ==> status == Failure && message == OrElse(reply.serverMessage, FailureFallback)
    {
      var token := PresentParam(href, "token");
      if token.None? {
        status, message := Failure, InvalidLinkMessage;
        return None;
      }
      request := Some(Api.VerifyEmail(token.value));
      if reply.Ok? {
        status, message := Success, SuccessMessage;
      } else {
        status, message := Failure, OrElse(reply.serverMessage, FailureFallback);
      }
    }
  }
}
