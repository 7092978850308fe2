/** The mobile card stack: one companion at a time, moved by dragging past a threshold
    or by the arrow buttons, with the distance to the viewer when both positions are known. */
module SwipeView {
  import opened Common
  import opened Domain

  const DragThreshold: real := 100.0
  const ExitOffset: int := 200

  /** The index after moving back: one less, unless already on the first card. */
  function Back(index: int): (r: int)
    ensures index > 0 ==> r == index - 1
    ensures index <= 0 ==> r == index
  {
    if index > 0 then index - 1 else index
  }

  /** The index after moving forward: one more, unless already on the last card. */
  function Forward(index: int, count: nat): (r: int)
    ensures index < count - 1 ==> r == index + 1
    ensures index >= count - 1 ==> r == index
  {
    if index < count - 1 then index + 1 else index
  }

  /** Where a drag released at horizontal `offset` leaves the stack. */
  function DragTarget(offset: real, index: int, count: nat): (r: int)
    ensures offset < -DragThreshold ==> r == Back(index)
    ensures offset > DragThreshold ==> r == Forward(index, count)
    ensures -DragThreshold <= offset <= DragThreshold ==> r == index
  {
    if offset < -DragThreshold then Back(index)
    else if offset > DragThreshold then Forward(index, count)
    else index
  }

  /** A drag of exactly the threshold, either way, does not move the stack. */
  lemma ThresholdIsStrict(index: int, count: nat)
    ensures DragTarget(DragThreshold, index, count) == index
    ensures DragTarget(-DragThreshold, index, count) == index
  {
  }

  /** The indexes a card stack can hold: a card's position, or 0 for an empty stack. */
  predicate InRange(index: int, count: nat) {
    0 <= index && (index < count || index == 0)
  }

  /** Moving by any drag keeps the index in range. */
  lemma DragStaysInRange(offset: real, index: int, count: nat)
    requires InRange(index, count)
    ensures InRange(DragTarget(offset, index, count), count)
    ensures count > 0 ==> 0 <= DragTarget(offset, index, count) < count
  {
  }

  /** `swipe(direction)`: "left" goes back, anything else forward. */
  function SwipeTarget(direction: string, index: int, count: nat): (r: int)
    ensures direction == "left" ==> r == Back(index)
    ensures direction != "left" ==> r == Forward(index, count)
  {
    if direction == "left" then Back(index) else Forward(index, count)
  }

  /** The arrow controls under the card: the counter and which buttons are disabled. */
  datatype Controls = Controls(position: int, total: nat, backDisabled: bool, forwardDisabled: bool)

  function ControlsFor(index: int, count: nat): (c: Controls)
    ensures c.position == index + 1 && c.total == count
    ensures c.backDisabled <==> index == 0
    ensures c.forwardDisabled <==> index == count - 1
  {
    Controls(index + 1, count, index == 0, index == count - 1)
  }

  /** On a shown card, a button is enabled exactly when pressing it moves the stack. */
  lemma ButtonsMatchMoves(index: int, count: nat)
    requires 0 <= index < count
    ensures !ControlsFor(index, count).backDisabled <==> SwipeTarget("left", index, count) != index
    ensures !ControlsFor(index, count).forwardDisabled <==> SwipeTarget("right", index, count) != index
  {
  }

  /** The empty state shows when no profile sits at the index. */
  function ShowsEmptyState(index: int, count: nat): (empty: bool)
    ensures InRange(index, count) ==> (empty <==> count == 0)
  {
    !(0 <= index < count)
  }

  /** The two positions a distance is computed between: (viewer latitude, viewer
      longitude, profile latitude, profile longitude). */
  datatype Endpoints = Endpoints(lat1: real, lng1: real, lat2: real, lng2: real)

  /** The null guard of `calculateDistance`: any zero (falsy) coordinate gives none. */
  function Guard(lat1: real, lng1: real, lat2: real, lng2: real): (e: Option<Endpoints>)
    ensures e.Some? <==> lat1 != 0.0 && lng1 != 0.0 && lat2 != 0.0 && lng2 != 0.0
    ensures e.Some? ==> e.value == Endpoints(lat1, lng1, lat2, lng2)
  {
    if lat1 != 0.0 && lng1 != 0.0 && lat2 != 0.0 && lng2 != 0.0 then Some(Endpoints(lat1, lng1, lat2, lng2)) else None
  }

  /** `coordinates[k]`, or 0 (falsy) when there is no such coordinate. */
  function CoordinateAt(coordinates: seq<real>, k: nat): real {
    if k < |coordinates| then coordinates[k] else 0.0
  }

  /** The distance shown on the card: from the GeoJSON coordinates (latitude second),
      and failing that from the profile's own latitude and longitude fields. */
  function DistanceEndpoints(viewer: Option<(real, real)>, b: Boyfriend): (e: Option<Endpoints>)
    ensures viewer.None? ==> e.None?
    ensures e.Some? ==> e.value.lat1 != 0.0 && e.value.lng1 != 0.0 && e.value.lat2 != 0.0 && e.value.lng2 != 0.0
    ensures viewer.Some? && b.location.LocationObject? && CoordinateAt(b.location.coordinates, 1) != 0.0
              && CoordinateAt(b.location.coordinates, 0) != 0.0 && viewer.value.0 != 0.0 && viewer.value.1 != 0.0
            ==> e == Some(Endpoints(viewer.value.0, viewer.value.1, b.location.coordinates[1], b.location.coordinates[0]))
    ensures viewer.Some? && !b.location.LocationObject? ==> e == Guard(viewer.value.0, viewer.value.1, b.latitude, b.longitude)
    ensures viewer.Some? && b.location.LocationObject?
              && Guard(viewer.value.0, viewer.value.1,
                       CoordinateAt(b.location.coordinates, 1), CoordinateAt(b.location.coordinates, 0)).None?
            ==> e == Guard(viewer.value.0, viewer.value.1, b.latitude, b.longitude)
  {
    match viewer
    case None => None
    case Some((lat, lng)) =>
      var primary :=
        if b.location.LocationObject?
        then Guard(lat, lng, CoordinateAt(b.location.coordinates, 1), CoordinateAt(b.location.coordinates, 0))
        else None;
      if primary.Some? then primary
      else if b.latitude != 0.0 && b.longitude != 0.0 then Guard(lat, lng, b.latitude, b.longitude)
      else None
  }

  /** A profile at the equator or the prime meridian never shows a distance. */
  lemma ZeroCoordinateHidesDistance(viewer: Option<(real, real)>, b: Boyfriend)
    requires b.latitude == 0.0 || b.longitude == 0.0
    requires b.location.LocationObject? ==> CoordinateAt(b.location.coordinates, 1) == 0.0
    ensures DistanceEndpoints(viewer, b).None?
  {
  }

  /** The place line when no distance is shown: `location?.address || location`. An
      address is shown as it is and a plain string as it is; a missing location renders
      nothing. An object without an address falls through to the object itself, which
      React refuses to render: that case is `None`. */
  function PlaceLabel(l: Location): (shown: Option<string>)
    ensures shown.None? <==> l.LocationObject? && l.address == ""
    ensures l.LocationObject? && l.address != "" ==> shown == Some(l.address)
    ensures l.LocationText? ==> shown == Some(l.text)
    ensures l.NoLocation? ==> shown == Some("")
  {
    match l
    case LocationObject(a, _) => if a != "" then Some(a) else None
    case LocationText(t) => Some(t)
    case NoLocation => Some("")
  }

  /** The card photo: the profile photo, else the first gallery image. */
  function CardImage(b: Boyfriend): (src: string)
    ensures b.profileImage != "" ==> src == b.profileImage
    ensures b.profileImage == "" && |b.images| > 0 ==> src == b.images[0]
  {
    OrElse(b.profileImage, if |b.images| > 0 then b.images[0] else "")
  }

  class Swiper {
    const profiles: seq<Boyfriend>
    var index: int
    var exitX: int

    predicate Valid()
      reads this
    {
      InRange(index, |profiles|)
    }

    constructor(shown: seq<Boyfriend>)
      ensures Valid() && profiles == shown && index == 0 && exitX == 0
    {
      profiles := shown;
      index := 0;
      exitX := 0;
    }

    /** `handleDragEnd`: past the threshold the card leaves that way and the stack
        moves, unless it is at that end. */
    method DragEnd(offset: real)
      requires Valid()
      modifies this
      ensures Valid()
      ensures index == DragTarget(offset, old(index), |profiles|)
      ensures index < old(index) ==> exitX == -ExitOffset
      ensures index > old(index) ==> exitX == ExitOffset
      ensures index == old(index) ==> exitX == old(exitX)
    {
      DragStaysInRange(offset, index, |profiles|);
      var target := DragTarget(offset, index, |profiles|);
      if target < index {
        exitX := -ExitOffset;
      } else if target > index {
        exitX := ExitOffset;
      }
      index := target;
    }

    /** `swipe(direction)`, from the arrow buttons. */
    method Swipe(direction: string)
      requires Valid()
      modifies this
      ensures Valid()
      ensures index == SwipeTarget(direction, old(index), |profiles|)
      ensures index < old(index) ==> exitX == -ExitOffset
      ensures index > old(index) ==> exitX == ExitOffset
      ensures index == old(index) ==> exitX == old(exitX)
    {
      var target := SwipeTarget(direction, index, |profiles|);
      if target < index {
        exitX := -ExitOffset;
      } else if target > index {
        exitX := ExitOffset;
      }
      index := target;
    }

    /** A tap on the photo opens the full profile of the card shown. */
    method Tap() returns (navigateTo: string)
      requires Valid() && !ShowsEmptyState(index, |profiles|)
      ensures navigateTo == "/boyfriends/" + profiles[index].id
    {
      navigateTo := "/boyfriends/" + profiles[index].id;
    }
  }
}
