/** The browse page: the companion grid with its search, distance filter and pager. */
module BoyfriendList {
  import opened Common
  import opened Domain

  const ItemsPerPage: nat := 6
  const InitialDistance: nat := 50
  const MinDistance: nat := 1
  const MaxDistance: nat := 500

  /** A query parameter of `getBoyfriends`. */
  datatype ParamValue = NatParam(n: nat) | RealParam(r: real) | TextParam(s: string)

  /** One answer of `getBoyfriends`; `totalPages` is 0 when the server omits it. */
  datatype ListPage = ListPage(boyfriends: seq<Boyfriend>, totalPages: nat)

  /** The pager under the grid. */
  datatype Pager = Pager(shown: bool, previousDisabled: bool, nextDisabled: bool, pages: seq<nat>)

  function PagerFor(currentPage: nat, totalPages: nat): (p: Pager)
    ensures p.shown <==> totalPages > 1
    ensures p.previousDisabled <==> currentPage == 1
    ensures p.nextDisabled <==> currentPage == totalPages
    ensures |p.pages| == totalPages && forall i :: 0 <= i < totalPages ==> p.pages[i] == i + 1
  {
    Pager(totalPages > 1, currentPage == 1, currentPage == totalPages,
          seq(totalPages, i requires 0 <= i < totalPages => i + 1))
  }

  /** From a page within range, every enabled control leads to a page within range. */
  lemma PagerStaysInRange(currentPage: nat, totalPages: nat)
    requires 1 <= currentPage <= totalPages
    ensures var p := PagerFor(currentPage, totalPages);
      (!p.previousDisabled ==> 1 <= currentPage - 1)
      && (!p.nextDisabled ==> currentPage + 1 <= totalPages)
      && (forall page :: page in p.pages ==> 1 <= page <= totalPages)
  {
  }

  class Browser {
    var boyfriends: seq<Boyfriend>
    var loading: bool
    var searchTerm: string
    var currentPage: nat
    var distance: nat
    var location: Option<(real, real)>
    var useLocation: bool
    var totalPages: nat
    var locating: bool

    /** The distance stays on the slider's range, and the GPS filter is on only with a
        known position. */
    predicate Valid()
      reads this
    {
      MinDistance <= distance <= MaxDistance && (useLocation ==> location.Some?)
    }

    constructor()
      ensures Valid()
      ensures boyfriends == [] && loading && searchTerm == "" && currentPage == 1
      ensures distance == InitialDistance && location == None && !useLocation && totalPages == 1 && !locating
    {
      boyfriends := [];
      loading := true;
      searchTerm := "";
      currentPage := 1;
      distance := InitialDistance;
      location := None;
      useLocation := false;
      totalPages := 1;
      locating := false;
    }

    /** The parameters `fetchBoyfriends` sends: always the page and the page size; the
        position and distance only with GPS on and a position known; the search only
        when there is one. */
    method Params() returns (params: map<string, ParamValue>)
      ensures "page" in params && params["page"] == NatParam(currentPage)
      ensures "limit" in params && params["limit"] == NatParam(ItemsPerPage)
      ensures ("lat" in params) == ("lng" in params) == ("dist" in params) == (useLocation && location.Some?)
      ensures useLocation && location.Some? ==>
        params["lat"] == RealParam(location.value.0) && params["lng"] == RealParam(location.value.1)
        && params["dist"] == NatParam(distance)
      ensures ("search" in params) == (searchTerm != "")
      ensures searchTerm != "" ==> params["search"] == TextParam(searchTerm)
      ensures forall k :: k in params ==> k == "page" || k == "limit" || k == "lat" || k == "lng" || k == "dist" || k == "search"
    {
      params := map["page" := NatParam(currentPage), "limit" := NatParam(ItemsPerPage)];
      if useLocation && location.Some? {
        params := params["lat" := RealParam(location.value.0)]["lng" := RealParam(location.value.1)]["dist" := NatParam(distance)];
      }
      if searchTerm != "" {
        params := params["search" := TextParam(searchTerm)];
      }
    }

    /** The answer of `getBoyfriends` arrived. */
    method FinishFetch(reply: Reply<ListPage>)
      requires Valid()
      modifies this
      ensures Valid() && !loading
      ensures reply.Ok? ==> boyfriends == reply.data.boyfriends
      ensures reply.Ok? ==> totalPages == (if reply.data.totalPages == 0 then 1 else reply.data.totalPages)
      ensures reply.Err? ==> boyfriends == old(boyfriends) && totalPages == old(totalPages)
      ensures searchTerm == old(searchTerm) && currentPage == old(currentPage) && distance == old(distance)
      ensures location == old(location) && useLocation == old(useLocation) && locating == old(locating)
    {
      if reply.Ok? {
        boyfriends := reply.data.boyfriends;
        totalPages := if reply.data.totalPages == 0 then 1 else reply.data.totalPages;
      }
      loading := false;
    }

    method ChangePage(page: nat)
      requires Valid()
      modifies this
      ensures Valid() && currentPage == page
      ensures boyfriends == old(boyfriends) && loading == old(loading) && searchTerm == old(searchTerm)
      ensures distance == old(distance) && location == old(location) && useLocation == old(useLocation)
      ensures totalPages == old(totalPages) && locating == old(locating)
    {
      currentPage := page;
    }

    method Search(term: string)
      requires Valid()
      modifies this
      ensures Valid() && searchTerm == term
      ensures boyfriends == old(boyfriends) && loading == old(loading) && currentPage == old(currentPage)
      ensures distance == old(distance) && location == old(location) && useLocation == old(useLocation)
      ensures totalPages == old(totalPages) && locating == old(locating)
    {
      searchTerm := term;
    }

    /** The slider moved; it only produces values on its range. */
    method SetDistance(km: nat)
      requires Valid() && MinDistance <= km <= MaxDistance
      modifies this
      ensures Valid() && distance == km
      ensures boyfriends == old(boyfriends) && loading == old(loading) && currentPage == old(currentPage)
      ensures searchTerm == old(searchTerm) && location == old(location) && useLocation == old(useLocation)
      ensures totalPages == old(totalPages) && locating == old(locating)
    {
      distance := km;
    }

    /** "Increase Range" on an empty result. */
    method IncreaseRange()
      requires Valid()
      modifies this
      ensures Valid() && distance == MaxDistance
      ensures boyfriends == old(boyfriends) && loading == old(loading) && currentPage == old(currentPage)
      ensures searchTerm == old(searchTerm) && location == old(location) && useLocation == old(useLocation)
      ensures totalPages == old(totalPages) && locating == old(locating)
    {
      distance := MaxDistance;
    }

    /** `handleEnableLocation`: turning GPS off forgets the position; turning it on
        needs a position from the browser (None when it failed). */
    method ToggleLocation(geolocationAvailable: bool, position: Option<(real, real)>)
      requires Valid()
      modifies this
      ensures Valid()
      ensures old(useLocation) ==> !useLocation && location == None
      ensures !old(useLocation) && geolocationAvailable && position.Some? ==> useLocation && location == position
      ensures !old(useLocation) && !(geolocationAvailable && position.Some?) ==> !useLocation && location == old(location)
      ensures !old(useLocation) && geolocationAvailable ==> !locating
      ensures !(!old(useLocation) && geolocationAvailable) ==> locating == old(locating)
      ensures boyfriends == old(boyfriends) && loading == old(loading) && currentPage == old(currentPage)
      ensures searchTerm == old(searchTerm) && distance == old(distance) && totalPages == old(totalPages)
    {
      if !useLocation {
        if geolocationAvailable {
          locating := true;
          if position.Some? {
            location := position;
            useLocation := true;
          }
          locating := false;
        }
      } else {
        useLocation := false;
        location := None;
      }
    }
  }
}
