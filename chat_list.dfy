/** The conversation sidebar (`ChatList`): the signed-in user's conversations with a
    local name filter, and for clients a paged directory of companions to start a
    conversation with. */
module ChatList {
  import opened Common
  import opened Domain

  /** A row of `GET /chats`: the conversation and the other participant, if known. */
  datatype ChatSummary = ChatSummary(id: string, otherParticipant: Option<User>, lastMessage: string)

  /** The partner's name as the filter reads it: "" when there is no partner or name. */
  function PartnerName(c: ChatSummary): string {
    if c.otherParticipant.Some? then c.otherParticipant.value.name else ""
  }

  /** The chat matches `term` when the lower-cased partner name contains the
      lower-cased term (the term itself is not trimmed). */
  predicate Matches(c: ChatSummary, term: string) {
    Includes(Lower(PartnerName(c)), Lower(term))
  }

  /** The debounced local filter: all chats for a blank term, otherwise the matching
      chats in their original order. */
  function NameFilter(chats: seq<ChatSummary>, term: string): (r: seq<ChatSummary>)
    ensures Blank(term) ==> r == chats
    ensures forall i :: 0 <= i < |r| ==> r[i] in chats && (Blank(term) || Matches(r[i], term))
    ensures forall i :: 0 <= i < |chats| && Matches(chats[i], term) ==> chats[i] in r
  {
    if Blank(term) then chats else Filter(chats, c => Matches(c, term))
  }

  /** The filter ignores the case of the term. */
  lemma NameFilterIgnoresCase(chats: seq<ChatSummary>, term: string)
    ensures NameFilter(chats, Lower(term)) == NameFilter(chats, term)
  {
    LowerKeepsBlank(term);
    LowerIdempotent(term);
    FilterSame(chats, c => Matches(c, Lower(term)), c => Matches(c, term));
  }

  /** A chat without a partner name matches only the empty term. */
  lemma NamelessMatchesOnlyEmpty(c: ChatSummary, term: string)
    requires PartnerName(c) == ""
    ensures Matches(c, term) <==> term == ""
  {
    if term != "" {
      assert forall i: nat :: !OccursAt("", Lower(term), i);
    } else {
      assert OccursAt("", "", 0);
    }
  }

  /** Filters compose with concatenation, so the filtered list keeps the chats' order. */
  lemma NameFilterKeepsOrder(a: seq<ChatSummary>, b: seq<ChatSummary>, term: string)
    ensures NameFilter(a + b, term) == NameFilter(a, term) + NameFilter(b, term)
  {
    if !Blank(term) {
      FilterConcat(a, b, c => Matches(c, term));
    }
  }

  // ---------------------------------------------------------------- directory

  /** The account a directory row shows: the populated account, or the profile itself
      when the server did not populate it. An unpopulated reference is a bare id,
      which carries no name and no id of its own. */
  datatype RowAccount = Populated(account: User) | BareReference | ProfileItself

  function RowAccountOf(bf: Boyfriend): RowAccount {
    if bf.account.Some? then Populated(bf.account.value)
    else if bf.accountId != "" then BareReference
    else ProfileItself
  }

  /** The id a row links to ("" when it has none). */
  function RowId(bf: Boyfriend): (id: string)
    ensures bf.account.Some? ==> id == bf.account.value.id
    ensures bf.account.None? && bf.accountId != "" ==> id == ""
    ensures bf.account.None? && bf.accountId == "" ==> id == bf.id
  {
    match RowAccountOf(bf)
    case Populated(u) => u.id
    case BareReference => ""
    case ProfileItself => bf.id
  }

  /** The verified badge: the account's flag or the profile's. */
  function RowVerified(bf: Boyfriend): (v: bool)
    ensures bf.isVerified ==> v
    ensures bf.account.Some? ==> (v <==> bf.account.value.isVerified || bf.isVerified)
    ensures bf.account.None? ==> (v <==> bf.isVerified)
  {
    match RowAccountOf(bf)
    case Populated(u) => u.isVerified || bf.isVerified
    case BareReference => bf.isVerified
    case ProfileItself => bf.isVerified
  }

  /** The rows rendered: every loaded profile except the signed-in user's own, in order. */
  function DirectoryRows(bfs: seq<Boyfriend>, myId: string): (r: seq<Boyfriend>)
    ensures forall i :: 0 <= i < |r| ==> r[i] in bfs && RowId(r[i]) != myId
    ensures forall i :: 0 <= i < |bfs| && RowId(bfs[i]) != myId ==> bfs[i] in r
  {
    Filter(bfs, bf => RowId(bf) != myId)
  }

  /** Appending a page appends its rows: earlier rows keep their place. */
  lemma DirectoryRowsAppend(shown: seq<Boyfriend>, page: seq<Boyfriend>, myId: string)
    ensures DirectoryRows(shown + page, myId) == DirectoryRows(shown, myId) + DirectoryRows(page, myId)
  {
    FilterConcat(shown, page, bf => RowId(bf) != myId);
  }

  /** Whether `fetchBoyfriends` goes ahead: not once the last page is known, except for
      the first page. */
  predicate FetchAllowed(page: nat, hasMore: bool) {
    hasMore || page == 1
  }

  /** `getBoyfriends({ page, limit: 10, search })`. */
  datatype DirectoryQuery = DirectoryQuery(page: nat, limit: nat, search: string)

  /** A page of `GET /boyfriends`. */
  datatype DirectoryPage = DirectoryPage(boyfriends: seq<Boyfriend>, currentPage: int, totalPages: int)

  /** The directory after a page arrives: page 1 replaces, later pages append. */
  function MergeDirectory(page: nat, shown: seq<Boyfriend>, fetched: seq<Boyfriend>): (r: seq<Boyfriend>)
    ensures page == 1 ==> r == fetched
    ensures page != 1 ==> |r| == |shown| + |fetched|
    ensures page != 1 ==> r[..|shown|] == shown && r[|shown|..] == fetched
  {
    if page == 1 then fetched else shown + fetched
  }

  // ---------------------------------------------------------------- the search reset

  /** The page the debounced directory reset requests, as written: `fetchBoyfriends`
      runs with the page and `hasMore` of the render that scheduled it, before the
      reset to page 1 took effect. */
  function ResetRequestAsWritten(snapshotPage: nat, snapshotHasMore: bool): (r: Option<nat>)
    ensures r.Some? <==> snapshotHasMore || snapshotPage == 1
    ensures r.Some? ==> r.value == snapshotPage
  {
    if FetchAllowed(snapshotPage, snapshotHasMore) then Some(snapshotPage) else None
  }

  /** A search typed after the directory's last page was reached (here page 3) clears
      the list and requests nothing, so the directory stays empty. */
  lemma ResetAfterLastPageFetchesNothing()
    ensures ResetRequestAsWritten(3, false) == None
  {
  }

  /** A search typed while on page 3 with more pages requests page 3 of the new search,
      which then lands in the emptied list as if it were the first. */
  lemma ResetMidListFetchesWrongPage()
    ensures ResetRequestAsWritten(3, true) == Some(3)
    ensures MergeDirectory(3, [], [Probe]) == [Probe]
  {
  }

  const Probe: Boyfriend := Boyfriend("p", None, "", "", 18, "", 0, NoLocation, 0.0, 0.0, [], "", "", [], 0.0, false)

  /** The reset as intended, reading the reset state (page 1, more pages assumed):
      page 1 of the new search is always requested. */
  function ResetRequest(): (r: Option<nat>)
    ensures r == Some(1)
  {
    if FetchAllowed(1, true) then Some(1) else None
  }

  datatype Tab = Chats | Directory

  class Sidebar {
    var chats: seq<ChatSummary>
    var filteredChats: seq<ChatSummary>
    var boyfriends: seq<Boyfriend>
    var loading: bool
    var page: nat
    var hasMore: bool
    var searchTerm: string
    var activeTab: Tab

    constructor()
      ensures chats == [] && filteredChats == [] && boyfriends == [] && loading
      ensures page == 1 && hasMore && searchTerm == "" && activeTab == Chats
    {
      chats := [];
      filteredChats := [];
      boyfriends := [];
      loading := true;
      page := 1;
      hasMore := true;
      searchTerm := "";
      activeTab := Chats;
    }

    /** `fetchChats` with the answer of `GET /chats`. */
    method FetchChats(reply: Reply<seq<ChatSummary>>)
      modifies this
      ensures reply.Ok? ==> chats == reply.data && filteredChats == reply.data
      ensures reply.Err? ==> chats == old(chats) && filteredChats == old(filteredChats)
      ensures !loading
      ensures boyfriends == old(boyfriends) && page == old(page) && hasMore == old(hasMore)
      ensures searchTerm == old(searchTerm) && activeTab == old(activeTab)
    {
      if reply.Ok? {
        chats := reply.data;
        filteredChats := reply.data;
      }
      loading := false;
    }

    /** `fetchBoyfriends` up to the request. */
    method StartFetchBoyfriends() returns (request: Option<DirectoryQuery>)
      modifies this
      ensures request.Some? <==> FetchAllowed(page, hasMore)
      ensures request.Some? ==> request.value == DirectoryQuery(page, 10, searchTerm) && loading
      ensures request.None? ==> loading == old(loading)
      ensures chats == old(chats) && filteredChats == old(filteredChats) && boyfriends == old(boyfriends)
      ensures page == old(page) && hasMore == old(hasMore) && searchTerm == old(searchTerm) && activeTab == old(activeTab)
    {
      if !hasMore && page != 1 {
        return None;
      }
      loading := true;
      request := Some(DirectoryQuery(page, 10, searchTerm));
    }

    /** `fetchBoyfriends` once the page arrives. */
    method FinishFetchBoyfriends(reply: Reply<DirectoryPage>)
      modifies this
      ensures reply.Ok? ==>
        boyfriends == MergeDirectory(page, old(boyfriends), reply.data.boyfriends)
        && hasMore == (reply.data.currentPage < reply.data.totalPages)
      ensures reply.Err? ==> boyfriends == old(boyfriends) && hasMore == old(hasMore)
      ensures !loading
      ensures chats == old(chats) && filteredChats == old(filteredChats)
      ensures page == old(page) && searchTerm == old(searchTerm) && activeTab == old(activeTab)
    {
      if reply.Ok? {
        boyfriends := MergeDirectory(page, boyfriends, reply.data.boyfriends);
        hasMore := reply.data.currentPage < reply.data.totalPages;
      }
      loading := false;
    }

    /** Typing in the search box. */
    method Search(term: string)
      modifies this
      ensures searchTerm == term
      ensures chats == old(chats) && filteredChats == old(filteredChats) && boyfriends == old(boyfriends)
      ensures loading == old(loading) && page == old(page) && hasMore == old(hasMore) && activeTab == old(activeTab)
    {
      searchTerm := term;
    }

    /** Switching tab; the directory is fetched at once when it is still empty. */
    method SelectTab(tab: Tab) returns (request: Option<DirectoryQuery>)
      modifies this
      ensures activeTab == tab
      ensures request.Some? <==> tab == Directory && old(boyfriends) == [] && FetchAllowed(page, hasMore)
      ensures request.Some? ==> request.value == DirectoryQuery(page, 10, searchTerm)
      ensures chats == old(chats) && filteredChats == old(filteredChats) && boyfriends == old(boyfriends)
      ensures page == old(page) && hasMore == old(hasMore) && searchTerm == old(searchTerm)
      ensures request.Some? ==> loading
      ensures request.None? ==> loading == old(loading)
    {
      activeTab := tab;
      request := None;
      if tab == Directory && |boyfriends| == 0 {
        request := StartFetchBoyfriends();
      }
    }

    /** The debounced effect on the search term, the tab and the chats. In the directory
        it resets the list and requests page 1 of the search; on the chats tab it
        applies the name filter. */
    method DebounceFired() returns (request: Option<DirectoryQuery>)
      modifies this
      ensures activeTab == Directory ==>
        page == 1 && hasMore && boyfriends == [] && filteredChats == old(filteredChats)
        && request == Some(DirectoryQuery(ResetRequest().value, 10, searchTerm)) && loading
      ensures activeTab == Chats ==>
        filteredChats == NameFilter(chats, searchTerm) && request.None?
        && page == old(page) && hasMore == old(hasMore) && boyfriends == old(boyfriends) && loading == old(loading)
      ensures chats == old(chats) && searchTerm == old(searchTerm) && activeTab == old(activeTab)
    {
      request := None;
      if activeTab == Directory {
        page := 1;
        boyfriends := [];
        hasMore := true;
        request := StartFetchBoyfriends();
      } else {
        filteredChats := NameFilter(chats, searchTerm);
      }
    }

    /** The observer on the last directory row: the next page while more exist; the page
        effect then fetches it when the directory is showing. */
    method LastRowSeen(visible: bool) returns (request: Option<DirectoryQuery>)
      requires page >= 1
      modifies this
      ensures visible && old(hasMore) ==> page == old(page) + 1
      ensures !(visible && old(hasMore)) ==> page == old(page) && request.None?
      ensures request.Some? <==> visible && old(hasMore) && activeTab == Directory
      ensures request.Some? ==> request.value == DirectoryQuery(page, 10, searchTerm) && loading
      ensures chats == old(chats) && filteredChats == old(filteredChats) && boyfriends == old(boyfriends)
      ensures hasMore == old(hasMore) && searchTerm == old(searchTerm) && activeTab == old(activeTab)
    {
      request := None;
      if visible && hasMore {
        page := page + 1;
        if activeTab == Directory && page > 1 {
          request := StartFetchBoyfriends();
        }
      }
    }
  }
}
