/** The booking dialog on a profile (`molecules/BookingModal`): place, date, start
    time and a duration of 1, 2, 4 or 8 hours, priced at the profile's hourly rate.
    The date and time fields are parsed to a millisecond timestamp outside the model;
    the dialog receives that timestamp. */
module BookingModal {
  import opened Common

  const DurationChoices: seq<nat> := [1, 2, 4, 8]
  const DefaultDuration: nat := 2
  const HourMs: int := 60 * 60 * 1000

  /** `duration * (boyfriend?.pricePerHour || 0)`, with a missing rate given as 0. */
  function TotalPrice(duration: nat, pricePerHour: nat): (total: nat)
    ensures total == duration * pricePerHour
    ensures pricePerHour == 0 ==> total == 0
    ensures duration in DurationChoices ==> total >= pricePerHour && total <= 8 * pricePerHour
  {
    duration * pricePerHour
  }

  /** All three fields the guard looks at are filled in. */
  predicate Complete(date: string, startTime: string, location: string) {
    date != "" && startTime != "" && location != ""
  }

  /** The Confirm button's disabled condition. */
  predicate ButtonDisabled(loading: bool, date: string, startTime: string, location: string) {
    loading || !Complete(date, startTime, location)
  }

  /** Whenever the button is enabled, the handler's guard lets the booking through. */
  lemma ButtonMatchesGuard(loading: bool, date: string, startTime: string, location: string)
    ensures !ButtonDisabled(loading, date, startTime, location) ==> Complete(date, startTime, location)
    ensures !loading ==> (ButtonDisabled(loading, date, startTime, location) <==> !Complete(date, startTime, location))
  {
  }

  /** The body of `createBooking`. */
  datatype BookingRequest = BookingRequest(boyfriendId: string, startTime: int, endTime: int,
                                           meetingLocation: string, totalPrice: nat)

  function RequestFor(boyfriendId: string, startMs: int, duration: nat, location: string, pricePerHour: nat): (r: BookingRequest)
    ensures r.endTime - r.startTime == duration * HourMs
    ensures r.startTime == startMs && r.boyfriendId == boyfriendId && r.meetingLocation == location
    ensures r.totalPrice == TotalPrice(duration, pricePerHour)
  {
    BookingRequest(boyfriendId, startMs, startMs + duration * HourMs, location, TotalPrice(duration, pricePerHour))
  }

  class Modal {
    const boyfriendId: string
    const pricePerHour: nat
    var step: nat
    var date: string
    var startTime: string
    var duration: nat
    var location: string
    var loading: bool
    var success: bool

    predicate Valid()
      reads this
    {
      duration in DurationChoices
    }

    constructor(profileId: string, rate: nat)
      ensures Valid() && boyfriendId == profileId && pricePerHour == rate
      ensures step == 1 && date == "" && startTime == "" && duration == DefaultDuration
      ensures location == "" && !loading && !success
    {
      boyfriendId := profileId;
      pricePerHour := rate;
      step := 1;
      date := "";
      startTime := "";
      duration := DefaultDuration;
      location := "";
      loading := false;
      success := false;
    }

    /** The effect on opening: only the step and the two flags are reset; the entered
        place, date, time and duration survive from the last time. */
    method Open()
      requires Valid()
      modifies this
      ensures Valid()
      ensures step == 1 && !success && !loading
      ensures date == old(date) && startTime == old(startTime) && duration == old(duration) && location == old(location)
    {
      step := 1;
      success := false;
      loading := false;
    }

    /** A duration button. */
    method SelectDuration(hours: nat)
      requires Valid() && hours in DurationChoices
      modifies this
      ensures Valid() && duration == hours
      ensures step == old(step) && date == old(date) && startTime == old(startTime) && location == old(location)
      ensures loading == old(loading) && success == old(success)
    {
      duration := hours;
    }

    /** Editing the place, date or time fields. */
    method Edit(newDate: string, newStartTime: string, newLocation: string)
      requires Valid()
      modifies this
      ensures Valid()
      ensures date == newDate && startTime == newStartTime && location == newLocation
      ensures step == old(step) && duration == old(duration) && loading == old(loading) && success == old(success)
    {
      date := newDate;
      startTime := newStartTime;
      location := newLocation;
    }

    /** `handleBooking`, with `startMs` the parsed start and `reply` the answer of
        `POST /bookings`. Nothing happens unless the three fields are filled. Returns
        the request sent. */
    method HandleBooking(startMs: int, reply: Reply<()>) returns (request: Option<BookingRequest>)
      requires Valid()
      modifies this
      ensures Valid()
      ensures request.Some? <==> Complete(date, startTime, location)
      ensures request.Some? ==> request.value == RequestFor(boyfriendId, startMs, duration, location, pricePerHour)
      ensures request.Some? ==> !loading && success == (reply.Ok? || old(success))
      ensures request.None? ==> loading == old(loading) && success == old(success)
      ensures step == old(step) && date == old(date) && startTime == old(startTime)
      ensures duration == old(duration) && location == old(location)
    {
      if date == "" || startTime == "" || location == "" {
        return None;
      }
      loading := true;
      request := Some(RequestFor(boyfriendId, startMs, duration, location, pricePerHour));
      if reply.Ok? {
        success := true;
      }
      loading := false;
    }
  }
}
