/** One conversation (`ChatWindow`): the message history, loaded a page at a time
    from the newest backwards, and the composer that sends over the socket or, for a
    conversation that does not exist yet, creates it through the REST endpoint. */
module ChatWindow {
  import opened Common
  import opened Domain
  import Api

  /** A message's sender: a bare account id, or the populated account record. */
  datatype Sender = SenderId(id: string) | SenderRecord(account: User)

  datatype Message = Message(sender: Sender, text: string, timestamp: int)

  /** A conversation as the chat endpoints return it; `id` is "" for the stand-in
      built when the conversation does not exist yet. */
  datatype ChatData = ChatData(id: string, participants: seq<User>, messages: seq<Message>)

  /** Whether a message is drawn as mine: its sender's id, bare or populated, is mine. */
  function IsMe(sender: Sender, myId: string): (r: bool)
    ensures sender.SenderId? ==> (r <==> sender.id == myId)
    ensures sender.SenderRecord? ==> (r <==> sender.account.id == myId)
  {
    match sender
    case SenderRecord(u) => u.id == myId
    case SenderId(s) => s == myId
  }

  /** The index of the first participant whose id is not mine. */
  function FirstOther(ps: seq<User>, myId: string): (r: Option<nat>)
    ensures r.Some? ==> r.value < |ps| && ps[r.value].id != myId
    ensures r.Some? ==> forall j :: 0 <= j < r.value ==> ps[j].id == myId
    ensures r.None? ==> forall j :: 0 <= j < |ps| ==> ps[j].id == myId
  {
    if ps == [] then None
    else if ps[0].id != myId then Some(0)
    else match FirstOther(ps[1..], myId)
      case None => None
      case Some(i) => Some(i + 1)
  }

  /** The stand-in partner when a conversation has no participants. */
  const UnknownPartner: User := User("", "User", "", "", "", false, false)

  /** The partner shown in the header: the first participant who is not me, else the
      first participant, else a placeholder named "User". */
  function OtherParticipant(ps: seq<User>, myId: string): (p: User)
    ensures (exists i :: 0 <= i < |ps| && ps[i].id != myId) ==> p.id != myId && p in ps
    ensures forall i :: 0 <= i < |ps| && ps[i].id != myId && (forall j :: 0 <= j < i ==> ps[j].id == myId) ==> p == ps[i]
    ensures (forall i :: 0 <= i < |ps| ==> ps[i].id == myId) && ps != [] ==> p == ps[0]
    ensures ps == [] ==> p == UnknownPartner
  {
    match FirstOther(ps, myId)
    case Some(i) => ps[i]
    case None => if ps != [] then ps[0] else UnknownPartner
  }

  /** The stand-in conversation for a partner with no history shows that partner. */
  lemma StandInShowsPartner(partner: User, me: User)
    ensures OtherParticipant([partner, me], me.id) == partner
  {
    var ps := [partner, me];
    if partner.id != me.id {
      assert FirstOther(ps, me.id) == Some(0);
    } else {
      assert forall i :: 0 <= i < |ps| ==> ps[i].id == me.id;
    }
  }

  /** The signed-in role, "" when nobody is signed in. */
  function RoleOf(me: Option<User>): string {
    if me.Some? then me.value.role else ""
  }

  const LimitMessage := "You have reached your free message limit. Please book a date to continue chatting."

  /** The page of history that follows: the fetched older messages in front. */
  function MergePage(pageNum: nat, fetched: seq<Message>, shown: seq<Message>): (r: seq<Message>)
    ensures pageNum == 1 ==> r == fetched
    ensures pageNum != 1 ==> |r| == |fetched| + |shown| && r[..|fetched|] == fetched && r[|fetched|..] == shown
  {
    if pageNum == 1 then fetched else fetched + shown
  }

  /** Loading pages 2..n after page 1 shows them oldest first, each page's messages in
      the order received. */
  lemma {:induction false} PagesStack(first: seq<Message>, older: seq<seq<Message>>)
    ensures Stacked(older, first) == Concat(Reverse(older)) + first
    decreases |older|
  {
    if older != [] {
      PagesStack(MergePage(2, older[0], first), older[1..]);
      assert Reverse(older) == Reverse(older[1..]) + [older[0]];
      ConcatAppend(Reverse(older[1..]), older[0]);
    }
  }

  /** The list after merging each of `pages` (pages 2, 3, …) in turn. */
  function Stacked(pages: seq<seq<Message>>, shown: seq<Message>): seq<Message> {
    if pages == [] then shown else Stacked(pages[1..], MergePage(2, pages[0], shown))
  }

  function Concat(pages: seq<seq<Message>>): seq<Message> {
    if pages == [] then [] else pages[0] + Concat(pages[1..])
  }

  function Reverse<T>(s: seq<T>): seq<T> {
    if s == [] then [] else Reverse(s[1..]) + [s[0]]
  }

  lemma {:induction false} ConcatAppend(pages: seq<seq<Message>>, last: seq<Message>)
    ensures Concat(pages + [last]) == Concat(pages) + last
  {
    if pages != [] {
      assert (pages + [last])[1..] == pages[1..] + [last];
      ConcatAppend(pages[1..], last);
    } else {
      assert [last][1..] == [];
    }
  }

  /** What `handleSend` did. */
  datatype SendAction =
    | Ignored                                        // blank input, or the limit was reached
    | RefusedNewChat                                 // a companion may not open a conversation
    | SentOverSocket(chatId: string, text: string, receiverId: string)
    | CreatedViaRest(receiverId: string, content: string)

  /** The send decision, from the composer text, the limit error, whether the
      conversation exists and the sender's role. */
  function SendDecision(newMessage: string, error: string, chatId: string, myRole: string, receiverId: string): (a: SendAction)
    ensures a.SentOverSocket? ==> a == SentOverSocket(chatId, newMessage, receiverId)
    ensures a.CreatedViaRest? ==> a == CreatedViaRest(receiverId, newMessage)
  {
    if Blank(newMessage) then Ignored
    else if error != "" then Ignored
    else if chatId == "" && myRole == "boyfriend" then RefusedNewChat
    else if chatId == "" then CreatedViaRest(receiverId, newMessage)
    else SentOverSocket(chatId, newMessage, receiverId)
  }

  /** Blank input and a reached limit are ignored; otherwise a companion cannot open a
      conversation, an existing one goes over the socket and a new one over REST. */
  lemma SendDecisionCases(newMessage: string, error: string, chatId: string, myRole: string, receiverId: string)
    ensures var a := SendDecision(newMessage, error, chatId, myRole, receiverId);
      (a == Ignored <==> Blank(newMessage) || error != "")
      && (a == RefusedNewChat <==> !Blank(newMessage) && error == "" && chatId == "" && myRole == BoyfriendRole)
      && (a.SentOverSocket? <==> !Blank(newMessage) && error == "" && chatId != "")
      && (a.CreatedViaRest? <==> !Blank(newMessage) && error == "" && chatId == "" && myRole != BoyfriendRole)
  {
  }

  /** Input whose trim is empty never produces a message, whatever the rest of the state. */
  lemma BlankNeverSent(text: string, error: string, chatId: string, myRole: string, receiverId: string)
    requires Trim(text) == ""
    ensures SendDecision(text, error, chatId, myRole, receiverId) == Ignored
  {
    BlankIffAllSpace(text);
  }

  class Window {
    var userId: string              // the partner's id from the route, "" when none
    var me: Option<User>
    var messages: seq<Message>
    var chatDetails: Option<ChatData>
    var page: nat
    var hasMoreMessages: bool
    var loading: bool
    var fetchingMore: bool
    var error: string               // "" when no error
    var newMessage: string

    constructor(partnerId: string, signedIn: Option<User>)
      ensures userId == partnerId && me == signedIn && messages == [] && chatDetails == None
      ensures page == 1 && hasMoreMessages && !loading && !fetchingMore && error == "" && newMessage == ""
    {
      userId := partnerId;
      me := signedIn;
      messages := [];
      chatDetails := None;
      page := 1;
      hasMoreMessages := true;
      loading := false;
      fetchingMore := false;
      error := "";
      newMessage := "";
    }

    function ChatId(): string
      reads this
    {
      if chatDetails.Some? then chatDetails.value.id else ""
    }

    /** `fetchChat(pageNum)` up to the request: without a partner or a signed-in user
        nothing happens; otherwise the request for that page goes out and the matching
        busy flag is raised. */
    method StartFetch(pageNum: nat) returns (request: Option<Api.Request>)
      modifies this
      ensures request.Some? <==> userId != "" && me.Some?
      ensures request.Some? ==> request.value == Api.ChatDetails(userId, Some(pageNum))
      ensures request.Some? && pageNum == 1 ==> loading && fetchingMore == old(fetchingMore)
      ensures request.Some? && pageNum != 1 ==> fetchingMore && loading == old(loading)
      ensures request.None? ==> loading == old(loading) && fetchingMore == old(fetchingMore)
      ensures userId == old(userId) && me == old(me) && messages == old(messages) && chatDetails == old(chatDetails)
      ensures page == old(page) && hasMoreMessages == old(hasMoreMessages) && error == old(error)
      ensures newMessage == old(newMessage)
    {
      if userId == "" || me.None? {
        return None;
      }
      if pageNum == 1 {
        loading := true;
      } else {
        fetchingMore := true;
      }
      request := Some(Api.ChatDetails(userId, Some(pageNum)));
    }

    /** `fetchChat(pageNum)` once the answer `reply` is in; `partner` is the answer of
        the partner lookup the first page falls back to. Returns the room joined, if any. */
    method FinishFetch(pageNum: nat, reply: Reply<ChatData>, partner: Reply<User>) returns (joined: Option<string>)
      requires me.Some?
      modifies this
      ensures userId == old(userId) && me == old(me) && page == old(page)
      ensures error == old(error) && newMessage == old(newMessage)
      ensures !loading && !fetchingMore
      ensures reply.Ok? ==>
        chatDetails == Some(reply.data)
        && messages == MergePage(pageNum, reply.data.messages, old(messages))
      ensures joined.Some? <==> reply.Ok? && pageNum == 1 && reply.data.id != ""
      ensures joined.Some? ==> joined.value == reply.data.id
      ensures reply.Err? && pageNum == 1 && partner.Ok? ==>
        chatDetails == Some(ChatData("", [partner.data, me.value], [])) && messages == []
      ensures reply.Err? && (pageNum != 1 || partner.Err?) ==>
        chatDetails == old(chatDetails) && messages == old(messages)
      ensures hasMoreMessages == NextHasMore(old(hasMoreMessages), reply)
    {
      joined := None;
      match reply {
        case Ok(chat) =>
          chatDetails := Some(chat);
          messages := MergePage(pageNum, chat.messages, messages);
          if pageNum == 1 && chat.id != "" {
            joined := Some(chat.id);
          }
          if |chat.messages| < Api.ChatPageSize {
            hasMoreMessages := false;
          }
        case Err(_, _, _) =>
          if pageNum == 1 {
            match partner {
              case Ok(u) =>
                chatDetails := Some(ChatData("", [u, me.value], []));
                messages := [];
              case Err(_, _, _) =>
            }
          }
      }
      loading := false;
      fetchingMore := false;
    }

    /** The reset effect when the partner or the signed-in user changes: back to page 1
        with more history assumed and no messages, then page 1 is requested. */
    method ChangeConversation(partnerId: string, signedIn: Option<User>) returns (request: Option<Api.Request>)
      modifies this
      ensures userId == partnerId && me == signedIn
      ensures page == 1 && hasMoreMessages && messages == []
      ensures request.Some? <==> partnerId != "" && signedIn.Some?
      ensures request.Some? ==> request.value == Api.ChatDetails(partnerId, Some(1)) && loading
      ensures request.None? ==> loading == old(loading)
      ensures fetchingMore == old(fetchingMore) && chatDetails == old(chatDetails)
      ensures error == old(error) && newMessage == old(newMessage)
    {
      userId := partnerId;
      me := signedIn;
      page := 1;
      hasMoreMessages := true;
      messages := [];
      request := StartFetch(1);
    }

    /** The observer on the top sentinel: when the sentinel is visible, more history is
        expected and no fetch is in flight, the page advances and `fetchChat` runs for
        it, which requests it exactly when a partner and a user are set. */
    method SentinelSeen(visible: bool) returns (request: Option<Api.Request>)
      requires page >= 1
      modifies this
      ensures var go := visible && old(hasMoreMessages) && !old(loading) && !old(fetchingMore);
        (go ==> page == old(page) + 1) && (!go ==> page == old(page) && request.None?)
      ensures request.Some? <==>
        visible && old(hasMoreMessages) && !old(loading) && !old(fetchingMore) && userId != "" && me.Some?
      ensures request.None? ==> loading == old(loading) && fetchingMore == old(fetchingMore)
      ensures request.Some? ==> loading == old(loading)
      ensures request.Some? ==> request.value == Api.ChatDetails(userId, Some(page)) && fetchingMore
      ensures userId == old(userId) && me == old(me) && messages == old(messages)
      ensures chatDetails == old(chatDetails) && hasMoreMessages == old(hasMoreMessages)
      ensures error == old(error) && newMessage == old(newMessage)
    {
      request := None;
      if visible && hasMoreMessages && !loading && !fetchingMore {
        page := page + 1;
        request := StartFetch(page);
      }
    }

    /** A socket `error` event; only LIMIT_REACHED is acted upon. */
    method SocketError(code: string)
      modifies this
      ensures error == (if code == "LIMIT_REACHED" then LimitMessage else old(error))
      ensures userId == old(userId) && me == old(me) && messages == old(messages)
      ensures chatDetails == old(chatDetails) && page == old(page) && hasMoreMessages == old(hasMoreMessages)
      ensures loading == old(loading) && fetchingMore == old(fetchingMore) && newMessage == old(newMessage)
    {
      if code == "LIMIT_REACHED" {
        error := LimitMessage;
      }
    }

    /** Typing in the composer. */
    method Type(text: string)
      modifies this
      ensures newMessage == text
      ensures userId == old(userId) && me == old(me) && messages == old(messages)
      ensures chatDetails == old(chatDetails) && page == old(page) && hasMoreMessages == old(hasMoreMessages)
      ensures loading == old(loading) && fetchingMore == old(fetchingMore) && error == old(error)
    {
      newMessage := text;
    }

    /** `handleSend`; `reply` is the answer of `POST /chats` when a new conversation is
        created. Returns what was done and the room joined, if any. */
    method HandleSend(reply: Reply<ChatData>) returns (action: SendAction, joined: Option<string>)
      modifies this
      ensures userId == old(userId) && me == old(me) && page == old(page) && hasMoreMessages == old(hasMoreMessages)
      ensures loading == old(loading) && fetchingMore == old(fetchingMore) && error == old(error)
      ensures action == SendDecision(old(newMessage), old(error), old(ChatId()), RoleOf(me), userId)
      ensures action.SentOverSocket? ==> newMessage == "" && messages == old(messages) && chatDetails == old(chatDetails)
      ensures action.CreatedViaRest? && reply.Ok? ==>
        chatDetails == Some(reply.data) && messages == reply.data.messages && newMessage == ""
      ensures joined.Some? <==> action.CreatedViaRest? && reply.Ok?
      ensures joined.Some? ==> joined.value == reply.data.id
      ensures (action.Ignored? || action.RefusedNewChat? || (action.CreatedViaRest? && reply.Err?)) ==>
        newMessage == old(newMessage) && messages == old(messages) && chatDetails == old(chatDetails)
    {
      joined := None;
      action := SendDecision(newMessage, error, ChatId(), RoleOf(me), userId);
      if action.CreatedViaRest? && reply.Ok? {
        chatDetails := Some(reply.data);
        joined := Some(reply.data.id);
        messages := reply.data.messages;
        newMessage := "";
      } else if action.SentOverSocket? {
        newMessage := "";
      }
    }
  }

  /** A reply that ends the history: a page with fewer messages than were asked for. */
  predicate ShortPage(reply: Reply<ChatData>) {
    reply.Ok? && |reply.data.messages| < Api.ChatPageSize
  }

  /** `hasMoreMessages` after one `fetchChat` reply: a short page clears it, and
      nothing else changes it. */
  function NextHasMore(hasMore: bool, reply: Reply<ChatData>): (r: bool)
    ensures r <==> hasMore && !ShortPage(reply)
  {
    if ShortPage(reply) then false else hasMore
  }

  /** `hasMoreMessages` after the replies of one conversation, in order. */
  function HasMoreAfter(hasMore: bool, replies: seq<Reply<ChatData>>): bool
    decreases |replies|
  {
    if replies == [] then hasMore else HasMoreAfter(NextHasMore(hasMore, replies[0]), replies[1..])
  }

  /** After a run of replies more history is assumed exactly when it was assumed before
      and no reply was a short page. */
  lemma {:induction false} HasMoreAfterNoShortPage(hasMore: bool, replies: seq<Reply<ChatData>>)
    ensures HasMoreAfter(hasMore, replies) <==> hasMore && forall i :: 0 <= i < |replies| ==> !ShortPage(replies[i])
    decreases |replies|
  {
    if replies != [] {
      HasMoreAfterNoShortPage(NextHasMore(hasMore, replies[0]), replies[1..]);
      assert forall i :: 1 <= i < |replies| ==> replies[1..][i - 1] == replies[i];
    }
  }

  /** Once a page came back short, no later reply of the same conversation brings the
      flag back: only a conversation change does. */
  lemma {:induction false} EndOfHistorySticks(replies: seq<Reply<ChatData>>)
    ensures !HasMoreAfter(false, replies)
    decreases |replies|
  {
    if replies != [] {
      EndOfHistorySticks(replies[1..]);
    }
  }
}
