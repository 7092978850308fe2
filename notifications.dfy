/** The live notification feed (`NotificationProvider`): server-sent events are
    prepended to a list and counted as unread until `markAllRead`. */
module Notifications {
  import opened Common
  import Api

  /** A parsed event: its `type`, `message` and `link` ("" when absent). */
  datatype Notification = Notification(kind: string, message: string, link: string)

  /** The data of one stream message: JSON that could not be parsed (or that parsed to
      null), or a notification object. */
  datatype StreamEvent = Unparseable | Parsed(data: Notification)

  datatype FeedState = FeedState(notifications: seq<Notification>, unreadCount: nat)

  /** The counter never exceeds the number of stored notifications. */
  predicate Bounded(s: FeedState) {
    s.unreadCount <= |s.notifications|
  }

  /** Whether an event is a notification rather than the stream's greeting. */
  predicate Counts(e: StreamEvent) {
    e.Parsed? && e.data.kind != "connected"
  }

  /** The `onmessage` reducer. */
  function Receive(s: FeedState, e: StreamEvent): (t: FeedState)
    ensures !Counts(e) ==> t == s
    ensures Counts(e) ==> t.notifications == [e.data] + s.notifications && t.unreadCount == s.unreadCount + 1
  {
    match e
    case Unparseable => s
    case Parsed(n) =>
      if n.kind == "connected" then s
      else FeedState([n] + s.notifications, s.unreadCount + 1)
  }

  /** `markAllRead`. */
  function MarkAllRead(s: FeedState): (t: FeedState)
    ensures t.notifications == s.notifications && t.unreadCount == 0
  {
    FeedState(s.notifications, 0)
  }

  /** The feed after a run of events, oldest first. */
  function ReceiveAll(s: FeedState, es: seq<StreamEvent>): FeedState
    decreases |es|
  {
    if es == [] then s else ReceiveAll(Receive(s, es[0]), es[1..])
  }

  /** Every event adds to the counter exactly what it adds to the list, so the counter
      stays within the list's length; events only ever add in front. */
  lemma {:induction false} ReceiveAllBalanced(s: FeedState, es: seq<StreamEvent>)
    ensures |ReceiveAll(s, es).notifications| - |s.notifications| == ReceiveAll(s, es).unreadCount - s.unreadCount
    ensures Bounded(s) ==> Bounded(ReceiveAll(s, es))
    ensures SuffixOf(s.notifications, ReceiveAll(s, es).notifications)
    decreases |es|
  {
    if es != [] {
      var t := Receive(s, es[0]);
      ReceiveAllBalanced(t, es[1..]);
      assert SuffixOf(s.notifications, t.notifications);
      SuffixTransitive(s.notifications, t.notifications, ReceiveAll(t, es[1..]).notifications);
    } else {
      assert s.notifications[0..] == s.notifications;
    }
  }

  /** `a` is what remains of `b` after dropping a prefix. */
  predicate SuffixOf<T(==)>(a: seq<T>, b: seq<T>) {
    |a| <= |b| && b[|b| - |a|..] == a
  }

  lemma SuffixTransitive<T>(a: seq<T>, b: seq<T>, c: seq<T>)
    requires SuffixOf(a, b) && SuffixOf(b, c)
    ensures SuffixOf(a, c)
  {
    assert c[|c| - |a|..] == c[|c| - |b|..][|b| - |a|..];
  }

  /** Reading all and then receiving more leaves exactly the new notifications unread. */
  lemma MarkThenReceive(s: FeedState, es: seq<StreamEvent>)
    ensures ReceiveAll(MarkAllRead(s), es).unreadCount == |ReceiveAll(MarkAllRead(s), es).notifications| - |s.notifications|
  {
    ReceiveAllBalanced(MarkAllRead(s), es);
  }

  /** Where the toast's "View" action goes. */
  function ToastLink(n: Notification): (link: string)
    ensures n.link != "" ==> link == n.link
    ensures n.link == "" ==> link == "/bookings"
  {
    OrElse(n.link, "/bookings")
  }

  /** The stream URL as written: the backend variable is used without the fallback the
      API client applies, so an unset variable renders as "undefined". */
  function StreamUrlAsWritten(backendEnv: Option<string>): (url: string)
    ensures backendEnv.Some? ==> url == backendEnv.value + "/api/notifications/stream"
    ensures backendEnv.None? ==> url == "undefined/api/notifications/stream"
  {
    (if backendEnv.Some? then backendEnv.value else "undefined") + "/api" + "/notifications/stream"
  }

  /** With the variable unset, the stream and the API requests go to different hosts. */
  lemma StreamMissesBackendWhenUnset()
    ensures StreamUrlAsWritten(None) != StreamUrl(None)
  {
    assert StreamUrlAsWritten(None)[0] == 'u';
    assert StreamUrl(None)[0] == 'h';
  }

  /** The stream URL under the API client's base URL. */
  function StreamUrl(backendEnv: Option<string>): (url: string)
    ensures url == Api.BaseUrl(backendEnv.GetOr("")) + "/notifications/stream"
    ensures backendEnv.Some? && backendEnv.value != "" ==> url == StreamUrlAsWritten(backendEnv)
  {
    Api.BaseUrl(backendEnv.GetOr("")) + "/notifications/stream"
  }

  class Provider {
    var notifications: seq<Notification>
    var unreadCount: nat

    function State(): FeedState
      reads this
    {
      FeedState(notifications, unreadCount)
    }

    predicate Valid()
      reads this
    {
      Bounded(State())
    }

    constructor()
      ensures Valid() && notifications == [] && unreadCount == 0
    {
      notifications := [];
      unreadCount := 0;
    }

    /** The effect on the signed-in user: a stream is opened only for a user. */
    method Connect(signedIn: bool, backendEnv: Option<string>) returns (stream: Option<string>)
      ensures stream.Some? <==> signedIn
      ensures stream.Some? ==> stream.value == StreamUrl(backendEnv)
    {
      stream := if signedIn then Some(StreamUrl(backendEnv)) else None;
    }

    /** `onmessage`. Returns the toast's link for a counted notification. */
    method OnMessage(e: StreamEvent) returns (toast: Option<string>)
      requires Valid()
      modifies this
      ensures Valid()
      ensures State() == Receive(old(State()), e)
      ensures toast.Some? <==> Counts(e)
      ensures toast.Some? ==> toast.value == ToastLink(e.data)
    {
      toast := None;
      match e {
        case Unparseable =>
        case Parsed(n) =>
          if n.kind != "connected" {
            notifications := [n] + notifications;
            unreadCount := unreadCount + 1;
            toast := Some(ToastLink(n));
          }
      }
    }

    method MarkAllReadNow()
      requires Valid()
      modifies this
      ensures Valid()
      ensures State() == MarkAllRead(old(State()))
    {
      unreadCount := 0;
    }
  }
}
