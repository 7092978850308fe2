/** The page the QR code opens on the phone (`MobileHandover`): it redeems the
    handover token for a session and moves on to the verification page. */
module MobileHandover {
  import opened Common
  import opened Domain
  import opened Url
  import Api
  import AuthStore
  import Verification

  /** The token of the page at `href`: the `t` query parameter, when present and not
      empty. No other part of the URL is read. */
  function HandoverToken(href: string): (t: Option<string>)
    ensures t.Some? <==> SearchParam(href, "t").Some? && SearchParam(href, "t").value != ""
    ensures t.Some? ==> t.value == SearchParam(href, "t").value
  {
    PresentParam(href, "t")
  }

  /** The phone reads back exactly the token the desktop put in the QR code. */
  lemma QrCodeCarriesToken(publicUrl: string, token: string)
    requires publicUrl != "" && token != ""
    requires '?' !in publicUrl && '#' !in publicUrl && PlainValue(token)
    ensures Verification.QrValue(publicUrl, token).Some?
    ensures HandoverToken(Verification.QrValue(publicUrl, token).value) == Some(token)
  {
    Verification.HandoverRoundTrip(publicUrl, token);
  }

  /** A `t` written after the fragment's '#' is not the page's parameter: the link
      `h/handover#x?t=abc` carries no token. */
  lemma FragmentHidesToken()
    ensures HandoverToken("h/handover#x?t=abc") == None
  {
    assert "h/handover#x?t=abc" == "h/handover" + "#" + "x?t=abc";
    QueryInFragmentIgnored("h/handover", "x?t=abc", "t");
  }

  const MissingTokenMessage := "Invalid or missing token."
  const SuccessMessage := "Login successful! Redirecting to verification..."
  const FailureFallback := "Authentication failed. Please login manually."

  class Handover {
    var message: string

    constructor()
      ensures message == "Authenticating..."
    {
      message := "Authenticating...";
    }

    /** The page's effect for the URL `href`, with `reply` the answer of
        `POST /auth/mobile-login`. Returns the request sent, if any, and the page the
        timer then navigates to. */
    method Redeem(href: string, reply: Reply<User>, store: AuthStore.Store)
      returns (sent: Option<Api.Request>, navigateTo: string)
      modifies this, store
      ensures HandoverToken(href).None? ==>
        sent == None && message == MissingTokenMessage && navigateTo == "/login"
        && store.user == old(store.user)
      ensures HandoverToken(href).Some? ==> sent == Some(Api.MobileLogin(HandoverToken(href).value))
      ensures HandoverToken(href).Some? && reply.Ok? ==>
        store.user == Some(reply.data) && message == SuccessMessage && navigateTo == "/verify"
      ensures HandoverToken(href).Some? && reply.Err? ==>
        store.user == old(store.user) && navigateTo == "/login"
        && message == OrElse(reply.serverMessage, FailureFallback)
      ensures store.isCheckingAuth == old(store.isCheckingAuth)
    {
      var token := HandoverToken(href);
      if token.None? {
        message := MissingTokenMessage;
        sent := None;
        navigateTo := "/login";
        return;
      }
      message := "Verifying secure link...";
      sent := Some(Api.MobileLogin(token.value));
      match reply {
        case Ok(data) =>
          store.Login(data);
          message := SuccessMessage;
          navigateTo := "/verify";
        case Err(_, m, _) =>
          message := OrElse(m, FailureFallback);
          navigateTo := "/login";
      }
    }
  }
}
