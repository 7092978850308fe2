/** The request builders of the API client: the base URL and the paths and bodies
    of the endpoints whose shape carries a decision. A request is described by its
    verb, its path relative to the base URL and its body. */
module Api {
  import opened Common
  import opened Url

  const DefaultBackend: string := "http://localhost:3000"

  /** Size of one page of chat messages, fixed in the chat-details path. */
  const ChatPageSize: nat := 20

  /** The base URL: the configured backend (`VITE_BACKEND_URL`, "" when unset) or the
      local default, followed by "/api". */
  function BaseUrl(backendEnv: string): (r: string)
    ensures |r| >= 4 && r[|r| - 4..] == "/api"
    ensures r[..|r| - 4] == (if backendEnv != "" then backendEnv else DefaultBackend)
  {
    OrElse(backendEnv, DefaultBackend) + "/api"
  }

  datatype Verb = GET | POST | PUT

  /** The bodies this model distinguishes; every other JSON body is `Json`. */
  datatype Body = NoBody | TokenBody(token: string) | Json

  datatype Request = Request(verb: Verb, path: string, body: Body)

  // ---------------------------------------------------------------- query strings

  /** `name1=value1&name2=value2…`, as a template string writes it. */
  function QueryString(params: seq<(string, string)>): string {
    if params == [] then ""
    else if |params| == 1 then params[0].0 + "=" + params[0].1
    else params[0].0 + "=" + params[0].1 + "&" + QueryString(params[1..])
  }

  /** The value given to `name` first in `params`. */
  function FirstValue(params: seq<(string, string)>, name: string): Option<string> {
    if params == [] then None
    else if params[0].0 == name then Some(params[0].1)
    else FirstValue(params[1..], name)
  }

  predicate PlainParams(params: seq<(string, string)>) {
    forall i :: 0 <= i < |params| ==> PlainName(params[i].0) && PlainValue(params[i].1)
  }

  /** A reader of the query string sees, for every name, the first value written for it. */
  lemma {:induction false} GetQueryString(params: seq<(string, string)>, name: string)
    requires PlainParams(params) && PlainName(name)
    ensures Get(QueryString(params), name) == FirstValue(params, name)
  {
    if params == [] {
      assert Split("", '&') == [""];
      assert Before("", '=') == "";
      assert Lookup([""], name) == Lookup([], name);
    } else {
      var p := params[0];
      BeforeAfterSplit(p.0, '=', p.1);
      assert p.0 + "=" + p.1 == p.0 + ['='] + p.1;
      if |params| == 1 {
        if p.0 == name {
          PairValue(name, p.1);
        } else {
          var pair := p.0 + "=" + p.1;
          SplitNoSep(pair, '&');
          assert Split(QueryString(params), '&') == [pair];
          assert Before(pair, '=') == p.0;
          assert Lookup([pair], name) == Lookup([], name);
          assert params[1..] == [];
        }
      } else {
        if p.0 == name {
          FirstPair(name, p.1, QueryString(params[1..]));
        } else {
          var pair := p.0 + "=" + p.1;
          assert Before(pair, '=') == p.0;
          assert QueryString(params) == pair + "&" + QueryString(params[1..]);
          GetQueryString(params[1..], name);
          SkipPair(pair, QueryString(params[1..]), name);
        }
      }
    }
  }

  lemma NumeralIsPlain(n: nat)
    ensures PlainValue(NatToString(n)) && '#' !in NatToString(n)
  {
    var s := NatToString(n);
    assert forall i :: 0 <= i < |s| ==> IsDigit(s[i]);
  }

  lemma NoHash(a: string, b: string, c: string)
    requires '#' !in a && '#' !in b && '#' !in c
    ensures '#' !in a + b + c
  {
  }

  lemma PlainChatParams(n: string)
    requires PlainValue(n)
    ensures PlainParams([("page", n), ("limit", "20")])
  {
  }

  // ---------------------------------------------------------------- endpoints

  /** `getChatDetails(userId, page = 1)`. */
  function ChatDetails(userId: string, page: Option<nat>): Request {
    Request(GET, "/chats/" + userId + "?page=" + NatToString(page.GetOr(1)) + "&limit=20", NoBody)
  }

  /** The chat-details request names the partner in its path and asks for the given
      page (1 by default) of `ChatPageSize` messages. */
  lemma ChatDetailsQuery(userId: string, page: Option<nat>)
    requires '?' !in userId && '#' !in userId
    ensures Path(ChatDetails(userId, page).path) == "/chats/" + userId
    ensures Get(Query(ChatDetails(userId, page).path), "page") == Some(NatToString(page.GetOr(1)))
    ensures Get(Query(ChatDetails(userId, page).path), "limit") == Some(NatToString(ChatPageSize))
  {
    var n := NatToString(page.GetOr(1));
    NumeralIsPlain(page.GetOr(1));
    assert NatToString(ChatPageSize) == "20";
    PagedQuery("/chats/" + userId, n);
  }

  /** `prefix?page=n&limit=20` read back through the query reader. */
  lemma PagedQuery(prefix: string, n: string)
    requires '?' !in prefix && '#' !in prefix && PlainValue(n)
    ensures Path(prefix + "?page=" + n + "&limit=20") == prefix
    ensures Get(Query(prefix + "?page=" + n + "&limit=20"), "page") == Some(n)
    ensures Get(Query(prefix + "?page=" + n + "&limit=20"), "limit") == Some("20")
  {
    var params := [("page", n), ("limit", "20")];
    PlainChatParams(n);
    var q := QueryString(params);
    assert params[1..] == [("limit", "20")];
    assert QueryString(params[1..]) == "limit=20";
    assert q == "page" + "=" + n + "&" + "limit=20";
    assert "page" + "=" == "page=";
    assert q == "page=" + n + "&limit=20";
    assert prefix + "?page=" + n + "&limit=20" == prefix + "?" + q;
    NoHash("page=", n, "&limit=20");
    QueryOf(prefix, q);
    GetQueryString(params, "page");
    GetQueryString(params, "limit");
  }

  /** `getReviews(boyfriendId, page = 1)`. */
  function Reviews(boyfriendId: string, page: Option<nat>): Request {
    Request(GET, "/reviews/" + boyfriendId + "?page=" + NatToString(page.GetOr(1)), NoBody)
  }

  /** The reviews request names the profile in its path and asks for the given page
      (1 by default); it sets no page size. */
  lemma ReviewsQuery(boyfriendId: string, page: Option<nat>)
    requires '?' !in boyfriendId && '#' !in boyfriendId
    ensures Path(Reviews(boyfriendId, page).path) == "/reviews/" + boyfriendId
    ensures Get(Query(Reviews(boyfriendId, page).path), "page") == Some(NatToString(page.GetOr(1)))
    ensures Get(Query(Reviews(boyfriendId, page).path), "limit") == None
  {
    NumeralIsPlain(page.GetOr(1));
    PageOnlyQuery("/reviews/" + boyfriendId, NatToString(page.GetOr(1)));
  }

  /** `prefix?page=n` read back through the query reader. */
  lemma PageOnlyQuery(prefix: string, n: string)
    requires '?' !in prefix && '#' !in prefix && PlainValue(n)
    ensures Path(prefix + "?page=" + n) == prefix
    ensures Get(Query(prefix + "?page=" + n), "page") == Some(n)
    ensures Get(Query(prefix + "?page=" + n), "limit") == None
  {
    var q := "page=" + n;
    assert q == "page" + ['='] + n;
    assert prefix + "?page=" + n == prefix + "?" + q;
    QueryOf(prefix, q);
    PairValue("page", n);
    SplitNoSep(q, '&');
    BeforeAfterSplit("page", '=', n);
    assert Lookup([q], "limit") == Lookup([], "limit");
  }

  /** `verifyEmail(token)`. */
  function VerifyEmail(token: string): Request {
    Request(GET, "/auth/verify-email?token=" + token, NoBody)
  }

  /** The e-mail token travels as the `token` query parameter and is read back intact. */
  lemma VerifyEmailQuery(token: string)
    requires PlainValue(token)
    ensures Path(VerifyEmail(token).path) == "/auth/verify-email"
    ensures Get(Query(VerifyEmail(token).path), "token") == Some(token)
    ensures VerifyEmail(token).body == NoBody
  {
    var params := [("token", token)];
    assert PlainParams(params);
    var q := QueryString(params);
    assert q == "token=" + token;
    var prefix := "/auth/verify-email";
    assert VerifyEmail(token).path == prefix + "?" + q;
    assert '?' !in prefix && '#' !in prefix;
    QueryOf(prefix, q);
    GetQueryString(params, "token");
  }

  /** `getMobileHandoverToken()`: a plain GET; the desktop's session identifies the
      user, so neither the URL nor a body carries anything of its own. */
  function MobileHandoverToken(): (r: Request)
    ensures r.verb == GET && r.body == NoBody
    ensures r.path == "/auth/mobile-handover"
  {
    Request(GET, "/auth/mobile-handover", NoBody)
  }

  /** `mobileLogin(token)`: the handover token goes in the body, not in the URL. */
  function MobileLogin(token: string): (r: Request)
    ensures r.verb == POST && r.body == TokenBody(token)
    ensures '?' !in r.path && Query(r.path) == ""
  {
    var r := Request(POST, "/auth/mobile-login", TokenBody(token));
    assert r.path == "/auth/mobile-login";
    assert forall i :: 0 <= i < |r.path| ==> r.path[i] != '?';
    r
  }

  /** The HTTP response of a request whose body the client reads. */
  datatype Response<+T> = Response(status: int, data: T)

  /** `uploadImage(file)` resolves to the response body, and rejects as the request does. */
  function UploadImage<T>(reply: Reply<Response<T>>): (r: Reply<T>)
    ensures reply.Ok? <==> r.Ok?
    ensures reply.Ok? ==> r.data == reply.data.data
    ensures reply.Err? ==> r == Err(reply.status, reply.serverMessage, reply.errorMessage)
  {
    match reply
    case Ok(resp) => Ok(resp.data)
    case Err(s, m, e) => Err(s, m, e)
  }
}
