/** The bookings page (`BookingList`): the signed-in user's bookings and, for a
    companion, the requests received, each card with its badge and actions. */
module BookingList {
  import opened Common

  /** The booking's client, populated. */
  datatype Client = Client(id: string, name: string)

  /** The booked profile: its id, the bare id of its account (`boyfriend.user`, "" when
      absent) and its name. The account is only ever a bare id here, as the comparison
      `b.boyfriend.user === user._id` of the page expects. */
  datatype BookedProfile = BookedProfile(id: string, accountId: string, name: string)

  datatype Booking = Booking(
    id: string,
    client: Client,
    boyfriend: BookedProfile,
    status: string,
    startTime: int,
    endTime: int,
    meetingLocation: string,
    totalPrice: nat)

  predicate IsMine(b: Booking, myId: string) {
    b.client.id == myId
  }

  /** A request received: the booked profile is my account's, or the booking has a
      profile and someone else made it. */
  predicate IsReceived(b: Booking, myId: string) {
    b.boyfriend.accountId == myId || (b.boyfriend.id != "" && b.client.id != myId)
  }

  /** `myBookings`: the bookings I made, in the order received. */
  function MyBookings(bs: seq<Booking>, myId: string): (r: seq<Booking>)
    ensures forall i :: 0 <= i < |r| ==> r[i] in bs && IsMine(r[i], myId)
    ensures forall i :: 0 <= i < |bs| && IsMine(bs[i], myId) ==> bs[i] in r
  {
    Filter(bs, b => IsMine(b, myId))
  }

  /** `receivedRequests`, in the order received. */
  function ReceivedRequests(bs: seq<Booking>, myId: string): (r: seq<Booking>)
    ensures forall i :: 0 <= i < |r| ==> r[i] in bs && IsReceived(r[i], myId)
    ensures forall i :: 0 <= i < |bs| && IsReceived(bs[i], myId) ==> bs[i] in r
  {
    Filter(bs, b => IsReceived(b, myId))
  }

  /** Both lists keep the bookings' relative order: they split over concatenation. */
  lemma SegregationKeepsOrder(a: seq<Booking>, b: seq<Booking>, myId: string)
    ensures MyBookings(a + b, myId) == MyBookings(a, myId) + MyBookings(b, myId)
    ensures ReceivedRequests(a + b, myId) == ReceivedRequests(a, myId) + ReceivedRequests(b, myId)
  {
    FilterConcat(a, b, x => IsMine(x, myId));
    FilterConcat(a, b, x => IsReceived(x, myId));
  }

  /** Every booking with a profile lands in at least one list, and in both only when I
      booked my own profile. */
  lemma SegregationCovers(b: Booking, myId: string)
    requires b.boyfriend.id != ""
    ensures IsMine(b, myId) || IsReceived(b, myId)
    ensures IsMine(b, myId) && IsReceived(b, myId) ==> b.boyfriend.accountId == myId
  {
  }

  /** The id a card's click opens a conversation with. */
  function ChatTarget(b: Booking, received: bool): (id: string)
    ensures received ==> id == b.client.id
    ensures !received && b.boyfriend.accountId != "" ==> id == b.boyfriend.accountId
    ensures !received && b.boyfriend.accountId == "" ==> id == b.boyfriend.id
  {
    if received then b.client.id else OrElse(b.boyfriend.accountId, b.boyfriend.id)
  }

  datatype Badge = Success | Destructive | Secondary

  function BadgeFor(status: string): (v: Badge)
    ensures v == Success <==> status == "accepted"
    ensures v == Destructive <==> status == "rejected" || status == "cancelled"
    ensures v == Secondary <==> status != "accepted" && status != "rejected" && status != "cancelled"
  {
    if status == "accepted" then Success
    else if status == "rejected" || status == "cancelled" then Destructive
    else Secondary
  }

  datatype Action = Reject | Accept | CancelRequest | ChatNow

  /** The buttons of a card, by status and by whether it is a received request. */
  function Actions(status: string, received: bool): (r: seq<Action>)
    ensures status == "pending" && received ==> r == [Reject, Accept]
    ensures status == "pending" && !received ==> r == [CancelRequest]
    ensures status == "accepted" && !received ==> r == [ChatNow]
    ensures !(status == "pending" || (status == "accepted" && !received)) ==> r == []
  {
    if status == "pending" then (if received then [Reject, Accept] else [CancelRequest])
    else if status == "accepted" && !received then [ChatNow]
    else []
  }

  /** The status a button asks for (ChatNow asks for none). */
  function RequestedStatus(a: Action): Option<string> {
    match a
    case Reject => Some("rejected")
    case Accept => Some("accepted")
    case CancelRequest => Some("cancelled")
    case ChatNow => None
  }

  /** Only a pending booking can change status from a card; the companion decides on it
      and the client may only withdraw it. */
  lemma ActionsOnlyOnPending(status: string, received: bool, i: nat)
    requires i < |Actions(status, received)|
    requires RequestedStatus(Actions(status, received)[i]).Some?
    ensures status == "pending"
    ensures received <==> RequestedStatus(Actions(status, received)[i]).value != "cancelled"
  {
  }

  /** `updateBookingStatus(id, { status })`. */
  datatype StatusUpdate = StatusUpdate(bookingId: string, status: string)

  class Page {
    var bookings: seq<Booking>
    var loading: bool

    constructor()
      ensures bookings == [] && loading
    {
      bookings := [];
      loading := true;
    }

    /** `fetchBookings` with the answer of `GET /bookings`. */
    method FetchBookings(reply: Reply<seq<Booking>>)
      modifies this
      ensures reply.Ok? ==> bookings == reply.data
      ensures reply.Err? ==> bookings == old(bookings)
      ensures !loading
    {
      if reply.Ok? {
        bookings := reply.data;
      }
      loading := false;
    }

    /** `handleStatusUpdate(id, status)`: on success the list is fetched again (its
        answer is `refetch`); on failure nothing changes. */
    method HandleStatusUpdate(id: string, status: string, reply: Reply<()>, refetch: Reply<seq<Booking>>)
      returns (request: StatusUpdate, refetched: bool)
      modifies this
      ensures request == StatusUpdate(id, status)
      ensures refetched <==> reply.Ok?
      ensures reply.Ok? && refetch.Ok? ==> bookings == refetch.data
      ensures reply.Err? || refetch.Err? ==> bookings == old(bookings)
      ensures reply.Ok? ==> !loading
      ensures reply.Err? ==> loading == old(loading)
    {
      request := StatusUpdate(id, status);
      refetched := reply.Ok?;
      if reply.Ok? {
        FetchBookings(refetch);
      }
    }
  }

  /** The "Client Requests" tab exists only for a companion. */
  function RequestsTabShown(role: string): bool {
    role == "boyfriend"
  }
}
