/**
 * The TicketsPage container as a state record with event transitions. The
 * React effects become explicit events: the route parameter arriving is
 * `RouteParam`, and the 300 ms debounce timer firing is `SearchCommitted`
 * (the timing itself is not modelled). The route effect runs on mount and
 * whenever the route's `ticketId` changes, not after every click, so a
 * selection made by clicking stands until the URL changes; `Run` accepts any
 * order of events, including route events the page would not issue. Query
 * results and loading flags are parameters.
 */
module TicketsPage {
  import opened Wrappers
  import QueryKeys

  /** The sort options; the select offers exactly these two values. */
  datatype SortBy = Date | Title

  function SortText(s: SortBy): string
  {
    match s
    case Date => "date"
    case Title => "title"
  }

  datatype PageState = PageState(
    selectedTicketId: Option<string>,
    searchInput: string,
    searchQuery: string,
    filterStatus: string,
    sortBy: SortBy)

  /** The page as first rendered. */
  function Initial(): (s: PageState)
    ensures s.selectedTicketId == None
    ensures s.searchInput == "" && s.searchQuery == ""
    ensures s.filterStatus == "all" && SortText(s.sortBy) == "date"
  {
    PageState(None, "", "", "all", Date)
  }

  /** A JavaScript-truthy optional string: present and not empty. */
  predicate Truthy(o: Option<string>)
  {
    o.Some? && o.value != ""
  }

  datatype Event =
    | SearchTyped(text: string)
    | SearchCommitted
    | FilterChanged(status: string)
    | SortChanged(sortBy: SortBy)
    | TicketSelected(id: string)
    | RouteParam(ticketId: Option<string>)

  /** The URL-parameter effect: a truthy route id becomes the selection, anything else changes nothing. */
  function SyncRouteParam(s: PageState, ticketId: Option<string>): (s': PageState)
    ensures Truthy(ticketId) ==> s' == s.(selectedTicketId := ticketId)
    ensures !Truthy(ticketId) ==> s' == s
  {
    if Truthy(ticketId) then s.(selectedTicketId := ticketId) else s
  }

  /** The state after one event. */
  function Step(s: PageState, e: Event): (s': PageState)
    ensures e.SearchTyped? ==> s'.searchInput == e.text
    ensures e.SearchCommitted? ==> s'.searchQuery == s.searchInput
    ensures e.FilterChanged? ==> s'.filterStatus == e.status
    ensures e.SortChanged? ==> s'.sortBy == e.sortBy
    ensures e.TicketSelected? ==> s'.selectedTicketId == Some(e.id)
    ensures e.RouteParam? ==> s' == SyncRouteParam(s, e.ticketId)
    ensures s'.searchInput != s.searchInput ==> e.SearchTyped?
    ensures s'.searchQuery != s.searchQuery ==> e.SearchCommitted?
    ensures s'.filterStatus != s.filterStatus ==> e.FilterChanged?
    ensures s'.sortBy != s.sortBy ==> e.SortChanged?
    ensures s'.selectedTicketId != s.selectedTicketId ==>
              e.TicketSelected? || (e.RouteParam? && Truthy(s'.selectedTicketId))
  {
    match e
    case SearchTyped(text) => s.(searchInput := text)
    case SearchCommitted => s.(searchQuery := s.searchInput)
    case FilterChanged(status) => s.(filterStatus := status)
    case SortChanged(sortBy) => s.(sortBy := sortBy)
    case TicketSelected(id) => s.(selectedTicketId := Some(id))
    case RouteParam(ticketId) => SyncRouteParam(s, ticketId)
  }

  /** The state after a sequence of events, in order. */
  function Run(s: PageState, es: seq<Event>): PageState
    decreases |es|
  {
    if es == [] then s else Run(Step(s, es[0]), es[1..])
  }

  /** Applying the same route parameter twice is the same as applying it once. */
  lemma SyncRouteParamIdempotent(s: PageState, ticketId: Option<string>)
    ensures SyncRouteParam(SyncRouteParam(s, ticketId), ticketId) == SyncRouteParam(s, ticketId)
  {
  }

  /** Only a search commit changes the committed search term, and it copies the input. */
  lemma StepSearchQuery(s: PageState, e: Event)
    ensures e.SearchCommitted? ==> Step(s, e).searchQuery == s.searchInput
    ensures !e.SearchCommitted? ==> Step(s, e).searchQuery == s.searchQuery
  {
  }

  /** Route parameters never clear or blank an existing truthy selection. */
  lemma {:induction false} RouteParamsKeepSelection(s: PageState, ids: seq<Option<string>>)
    requires Truthy(s.selectedTicketId)
    ensures Truthy(Run(s, RouteEvents(ids)).selectedTicketId)
    decreases |ids|
  {
    if ids != [] {
      assert RouteEvents(ids)[0] == RouteParam(ids[0]);
      assert RouteEvents(ids)[1..] == RouteEvents(ids[1..]);
      RouteParamsKeepSelection(Step(s, RouteParam(ids[0])), ids[1..]);
    }
  }

  /** One route-parameter event per element of `ids`. */
  function RouteEvents(ids: seq<Option<string>>): (es: seq<Event>)
    ensures |es| == |ids|
    ensures forall i :: 0 <= i < |ids| ==> es[i] == RouteParam(ids[i])
  {
    seq(|ids|, i requires 0 <= i < |ids| => RouteParam(ids[i]))
  }

  /** The filter record of the list query: committed search, raw status, sort order. */
  function ListArgs(s: PageState): (f: QueryKeys.ListFilters)
    ensures f.search == QueryKeys.Present(s.searchQuery)
    ensures f.status == QueryKeys.Present(s.filterStatus)
    ensures f.sortBy == QueryKeys.Present(SortText(s.sortBy))
  {
    QueryKeys.ListFilters(
      status := QueryKeys.Present(s.filterStatus),
      search := QueryKeys.Present(s.searchQuery),
      sortBy := QueryKeys.Present(SortText(s.sortBy)))
  }

  /** The key of the list query. */
  function ListKey(s: PageState): (k: QueryKeys.Key)
    ensures QueryKeys.Lists() < k && |k| == 3
    ensures k[2] == QueryKeys.FilterObj(Some(ListArgs(s)))
  {
    QueryKeys.List(Some(ListArgs(s)))
  }

  /** The list key depends on the committed search term only, never on the text being typed. */
  lemma ListKeyIgnoresSearchInput(s: PageState, t: PageState)
    ensures ListKey(s) == ListKey(t) <==>
              s.searchQuery == t.searchQuery && s.filterStatus == t.filterStatus && s.sortBy == t.sortBy
  {
    QueryKeys.ListInjective(Some(ListArgs(s)), Some(ListArgs(t)));
  }

  /** Typing leaves the list key unchanged; committing puts the typed text into it. */
  lemma TypingThenCommitting(s: PageState, text: string)
    ensures ListKey(Step(s, SearchTyped(text))) == ListKey(s)
    ensures ListArgs(Step(Step(s, SearchTyped(text)), SearchCommitted)).search == QueryKeys.Present(text)
  {
    ListKeyIgnoresSearchInput(Step(s, SearchTyped(text)), s);
  }

  /** The status reaches the list key unmapped: `'all'` stays `'all'`; the sort field is `'date'` or `'title'`. */
  lemma ListKeyFields(s: PageState)
    ensures ListKey(s)[2].filters.value.status == QueryKeys.Present(s.filterStatus)
    ensures ListKey(s)[2].filters.value.sortBy in {QueryKeys.Present("date"), QueryKeys.Present("title")}
  {
  }

  /** The detail query runs only while the selection is truthy. */
  function DetailEnabled(s: PageState): (b: bool)
    ensures b <==> s.selectedTicketId.Some? && s.selectedTicketId.value != ""
  {
    Truthy(s.selectedTicketId)
  }

  /**
   * The key of the detail query. The selection is passed with a non-null
   * assertion, which has no effect at run time, so with nothing selected the
   * key ends in `null`.
   */
  function DetailKey(s: PageState): (k: QueryKeys.Key)
    ensures QueryKeys.Details() < k && |k| == 3
    ensures forall id :: k == QueryKeys.Detail(id) <==> s.selectedTicketId == Some(id)
  {
    match s.selectedTicketId
    case Some(id) => QueryKeys.Detail(id)
    case None => QueryKeys.Details() + [QueryKeys.Null]
  }

  /** Whenever the detail query is enabled, its key is the detail key of the selected id. */
  lemma EnabledDetailKey(s: PageState)
    requires DetailEnabled(s)
    ensures DetailKey(s) == QueryKeys.Detail(s.selectedTicketId.value)
    ensures s.selectedTicketId.value != ""
  {
  }

  /** With nothing selected the (disabled) detail query key is not any ticket's detail key. */
  lemma UnselectedDetailKeyIsNoTicket(s: PageState, id: string)
    requires s.selectedTicketId == None
    ensures DetailKey(s) != QueryKeys.Detail(id)
    ensures QueryKeys.Details() < DetailKey(s)
    ensures DetailKey(s) == QueryKeys.Details() + [QueryKeys.Null]
  {
    assert DetailKey(s)[2] == QueryKeys.Null;
  }

  /** An empty selection disables the detail query, yet its key is the detail key of `''`. */
  lemma EmptySelectionDetailKey(s: PageState)
    requires s.selectedTicketId == Some("")
    ensures !DetailEnabled(s)
    ensures DetailKey(s) == QueryKeys.Detail("")
  {
  }

  /** What the right-hand pane shows. */
  datatype RightPane = ShowDetail(ticketId: string) | LoadingDetail | SelectPrompt

  /** The three-way choice of the right-hand pane. */
  function RightPaneOf(s: PageState, isLoadingDetail: bool): (p: RightPane)
    ensures p.ShowDetail? <==> Truthy(s.selectedTicketId) && !isLoadingDetail
    ensures p.ShowDetail? ==> Some(p.ticketId) == s.selectedTicketId
    ensures p.LoadingDetail? <==> Truthy(s.selectedTicketId) && isLoadingDetail
    ensures p.SelectPrompt? <==> !Truthy(s.selectedTicketId)
  {
    if Truthy(s.selectedTicketId) && !isLoadingDetail then ShowDetail(s.selectedTicketId.value)
    else if Truthy(s.selectedTicketId) && isLoadingDetail then LoadingDetail
    else SelectPrompt
  }

  /** The whole page is replaced by a loading view only while loading with no list data at all. */
  function FullPageLoading<T>(isLoading: bool, ticketsData: Option<seq<T>>): (b: bool)
    ensures !isLoading ==> !b
    ensures ticketsData.Some? ==> !b
    ensures isLoading && ticketsData.None? ==> b
  {
    isLoading && ticketsData == None
  }

  /** What the left-hand list pane shows. */
  datatype LeftPane<T> = ListLoading | ListOf(tickets: seq<T>)

  /** While loading the pane says so; otherwise it lists the data, or nothing if there is none. */
  function LeftPaneOf<T>(isLoading: bool, ticketsData: Option<seq<T>>): (p: LeftPane<T>)
    ensures p.ListLoading? <==> isLoading
    ensures !isLoading && ticketsData.Some? ==> p == ListOf(ticketsData.value)
    ensures !isLoading && ticketsData.None? ==> p == ListOf([])
  {
    if isLoading then ListLoading else ListOf(ticketsData.GetOr([]))
  }

  /**
   * How the two loading guards relate, for any pair of loading flag and data:
   * the full-page view implies the list pane's guard holds too; were loading
   * reported while data is present, the pane, not the page, would show it;
   * when not loading, neither shows and the pane lists.
   */
  lemma LoadingViewsAgree<T>(isLoading: bool, ticketsData: Option<seq<T>>)
    ensures FullPageLoading(isLoading, ticketsData) ==> LeftPaneOf(isLoading, ticketsData).ListLoading?
    ensures isLoading && ticketsData.Some? ==>
              !FullPageLoading(isLoading, ticketsData) && LeftPaneOf(isLoading, ticketsData).ListLoading?
    ensures !isLoading ==>
              !FullPageLoading(isLoading, ticketsData) && LeftPaneOf(isLoading, ticketsData).ListOf?
  {
  }

  /**
   * The right pane agrees with the detail query: the detail view is shown only
   * for the ticket the enabled query is keyed by, and the prompt is shown
   * exactly when the query is disabled.
   */
  lemma RightPaneMatchesDetailQuery(s: PageState, isLoadingDetail: bool)
    ensures RightPaneOf(s, isLoadingDetail).ShowDetail? ==>
              DetailEnabled(s) && DetailKey(s) == QueryKeys.Detail(RightPaneOf(s, isLoadingDetail).ticketId)
    ensures RightPaneOf(s, isLoadingDetail).LoadingDetail? ==> DetailEnabled(s)
    ensures RightPaneOf(s, isLoadingDetail).SelectPrompt? <==> !DetailEnabled(s)
  {
  }

  /** Selecting a ticket from the list always enables its detail query, unless its id is empty. */
  lemma SelectingEnablesDetail(s: PageState, id: string)
    ensures DetailEnabled(Step(s, TicketSelected(id))) <==> id != ""
    ensures id != "" ==> DetailKey(Step(s, TicketSelected(id))) == QueryKeys.Detail(id)
  {
  }
}
