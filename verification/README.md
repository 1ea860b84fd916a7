# Ticket browser: query keys, ticket filter and page state in Dafny

This project models the logic layer of a small React ticket browser. The
modelled parts are:

- the hierarchical query-key factory (`ticketKeys`, `userKeys`);
- the mocked ticket-list query with its status filter;
- the derived values and click transition of the TicketList container;
- the selection and pane state of the TicketsPage container;
- the display strings and click counter of the user-profile page.

Everything is a pure function over immutable datatypes. React state updates
and effects become explicit transition functions. Fetch results and loading
flags become parameters.

Modules, one file each:

- `Wrappers` (`wrappers.dfy`): `Option`, standing for `T | undefined` and `T | null`.
- `Seqs` (`seqs.dfy`): `Array.prototype.filter` as `Filter`, with the
  subsequence, idempotence, concatenation and all/none lemmas it satisfies.
- `QueryKeys` (`query_keys.dfy`): keys are `seq<KeySeg>`. A segment is a
  string, `null`, or the `{ filters }` object. A broader key is a sequence
  prefix (`<=`) of every narrower key in its family.
- `TicketQuery` (`ticket_query.dfy`): the `Ticket` record, the three-ticket
  fixture, and the filter that a falsy status bypasses.
- `TicketListView` (`ticket_list.dfy`): the `'all'`-to-absent status mapping,
  the unread count, the selected-card predicate, and click-to-select.
- `TicketsPage` (`tickets_page.dfy`): the page state record and its events.
  The events include the route-parameter sync and the debounce commit. Also
  here: the list-key and detail-key arguments, the detail enable condition,
  and the left, right and full-page loading choices.
- `UserProfile` (`user_profile.dfy`): the name, display name and initials
  fallbacks, and the counter.

Facts about the key factory and the hook that the model keeps:

- `list` keeps a field passed as `undefined` distinct from an omitted one
  (`QueryKeys.ListDoesNotNormalise`).
- `detail` accepts any id, the empty one included; it has no error path
  (`QueryKeys.Detail`).
- The hook's `Ticket` status is `'open'` or `'closed'`.

JavaScript details kept on purpose:

- `user.firstName[0]` on an empty string is `undefined`, so a template
  literal turns it into the text `undefined` (`UserProfile.InitialsOfEmptyNames`).
- `selectedTicketId!` can still be `null` at run time, so the disabled
  detail query's key ends in a `null` segment (`TicketsPage.DetailKey`).
- `''` is falsy for both the status filter and the selection.

## Model

| member | source | states |
|---|---|---|
| QueryKeys.All | src/api/tickets/queryKeys.ts:24 | the ticket root key is the single segment `'tickets'` |
| QueryKeys.Lists | src/api/tickets/queryKeys.ts:27 | the list scope has two segments, the root is a proper prefix of it, and its second segment is `'list'` |
| QueryKeys.List | src/api/tickets/queryKeys.ts:30-31 | a list key always has length 3, extends the list scope, and its last segment wraps the filter argument (absent or not) as `{ filters }` |
| QueryKeys.Details | src/api/tickets/queryKeys.ts:34 | the details scope has two segments, extends the root, and its second segment is `'detail'` |
| QueryKeys.Detail | src/api/tickets/queryKeys.ts:37 | a detail key has length 3, extends the details scope, and ends in the id; every id is accepted |
| QueryKeys.UserAll | src/api/tickets/queryKeys.ts:45 | the user root key is the single segment `'user'` |
| QueryKeys.UserProfiles | src/api/tickets/queryKeys.ts:48 | the profiles scope extends the user root with `'profile'` |
| QueryKeys.UserProfile | src/api/tickets/queryKeys.ts:51 | the profile key equals the profiles scope, `['user','profile']` |
| QueryKeys.ListInjective | src/api/tickets/queryKeys.ts:30-31 | two list keys are equal iff their filter arguments are equal, so equal inputs give equal keys |
| QueryKeys.ListDoesNotNormalise | src/api/tickets/queryKeys.ts:30-31 | an omitted field and an `undefined` field give different keys, and so do `list()` and `list({})` |
| QueryKeys.DetailInjective | src/api/tickets/queryKeys.ts:37 | `detail(a) == detail(b)` iff `a == b` |
| QueryKeys.DetailDiffersFromScope | src/api/tickets/queryKeys.ts:34-37 | no detail key, not even for `''`, equals the details scope |
| QueryKeys.TicketKeyInjective | src/api/tickets/queryKeys.ts:22-38 | two ticket-factory calls give equal keys iff they are the same member with the same argument |
| QueryKeys.EveryTicketKeyUnderRoot | src/api/tickets/queryKeys.ts:22-38 | every ticket key has the root `['tickets']` as a prefix |
| QueryKeys.ListsScopeCoversOnlyLists | src/api/tickets/queryKeys.ts:27-31 | the list scope is a prefix of a ticket key iff the key is the list scope or a list key |
| QueryKeys.DetailsScopeCoversOnlyDetails | src/api/tickets/queryKeys.ts:34-37 | the details scope is a prefix of a ticket key iff the key is the details scope or a detail key |
| QueryKeys.ListAndDetailScopesDisjoint | src/api/tickets/queryKeys.ts:27-37 | no list key lies under the details scope, and no detail key lies under the list scope |
| QueryKeys.UserAndTicketRootsDiffer | src/api/tickets/queryKeys.ts:24-51 | user and ticket keys differ in their first segment, so neither family lies under the other's root |
| Seqs.Filter | src/containers/TicketList/hooks/useTicketList.ts:30-32 | the filter keeps exactly the input elements that satisfy the callback and is never longer than the input |
| TicketQuery.MockTickets | src/containers/TicketList/hooks/useTicketList.ts:25-29 | the fixture is tickets 1, 2, 3, with statuses open, open, closed, and only ticket 1 unread |
| TicketQuery.QueryTickets | src/containers/TicketList/hooks/useTicketList.ts:25-32 | the query result is an order-preserving subsequence of the fixture holding exactly the fixture tickets the callback accepts |
| TicketQuery.FilterByStatus | src/containers/TicketList/hooks/useTicketList.ts:30-32 | an absent or empty status returns the input unchanged; any other status keeps exactly the tickets with that status |
| TicketQuery.FilterByStatusIsSubsequence | src/containers/TicketList/hooks/useTicketList.ts:30-32 | the result is an order-preserving subsequence of the input |
| TicketQuery.FilterByStatusIdempotent | src/containers/TicketList/hooks/useTicketList.ts:30-32 | filtering a filtered result by the same status changes nothing |
| TicketQuery.MockTicketsHaveUniqueIds | src/containers/TicketList/hooks/useTicketList.ts:25-29 | the fixture's three ids are distinct |
| TicketQuery.QueryFalsyReturnsAll | src/containers/TicketList/hooks/useTicketList.ts:31 | an absent or empty status returns tickets 1, 2 and 3 in order |
| TicketQuery.QueryUnfolds | src/containers/TicketList/hooks/useTicketList.ts:25-32 | the query result is the fixture's tickets, in order, each kept iff the callback accepts it |
| TicketQuery.QueryOpen | src/containers/TicketList/hooks/useTicketList.ts:25-32 | `'open'` returns tickets 1 and 2 |
| TicketQuery.QueryClosed | src/containers/TicketList/hooks/useTicketList.ts:25-32 | `'closed'` returns ticket 3 |
| TicketQuery.QueryByUnknownStatus | src/containers/TicketList/hooks/useTicketList.ts:25-32 | any other non-empty status returns no ticket |
| TicketListView.Initial | src/containers/TicketList/index.tsx:25-26 | the container starts with nothing selected and the filter `'all'` |
| TicketListView.StatusParam | src/containers/TicketList/index.tsx:30 | the status parameter is absent iff the filter is `'all'`; otherwise it is the filter value unchanged |
| TicketListView.Tickets | src/containers/TicketList/index.tsx:29-31 | the container's tickets are the fixture filtered by the filter value, unchanged, for any value but `'all'`; `'all'` and `''` give the whole fixture |
| TicketListView.FilterOptionsShowTickets | src/containers/TicketList/index.tsx:29-61 | choosing `'all'` shows tickets 1, 2, 3; `'open'` shows 1 and 2; `'closed'` shows 3 |
| TicketListView.NotificationCount | src/containers/TicketList/index.tsx:35 | the count is 0 while tickets are absent and never exceeds the number of tickets |
| TicketListView.NotificationCountExtremes | src/containers/TicketList/index.tsx:35 | the count is 0 iff every ticket is read, and equals the ticket count iff none is read |
| TicketListView.NotificationCountAppend | src/containers/TicketList/index.tsx:35 | the count of a concatenation is the sum of the two counts, so it counts exactly the unread tickets |
| TicketListView.FixtureNotificationCount | src/containers/TicketList/index.tsx:29-35 | over the unfiltered fixture the count is 1, and under `'closed'` it is 0 |
| TicketListView.IsSelected | src/containers/TicketList/index.tsx:70 | with no selection no card is selected |
| TicketListView.Click | src/containers/TicketList/index.tsx:71 | clicking a card selects its ticket and leaves the filter unchanged; clicking the selected card changes nothing |
| TicketListView.ChangeFilter | src/containers/TicketList/index.tsx:56 | choosing a filter option sets the filter and leaves the selection unchanged |
| TicketListView.IsSelectedIff | src/containers/TicketList/index.tsx:70 | a card is selected iff a selection exists and equals its ticket's id |
| TicketListView.AtMostOneSelected | src/containers/TicketList/index.tsx:66-70 | among tickets with distinct ids, at most one card is selected |
| TicketListView.ClickSelectsOnlyThatCard | src/containers/TicketList/index.tsx:66-71 | after a click, among tickets with distinct ids, exactly the clicked card is selected |
| TicketsPage.Initial | src/containers/TicketsPage/index.tsx:46-50 | the page starts with no selection, empty search input and query, filter `'all'` and sort `'date'` |
| TicketsPage.SyncRouteParam | src/containers/TicketsPage/index.tsx:79-83 | a present, non-empty route id becomes the selection; otherwise the state is unchanged |
| TicketsPage.SyncRouteParamIdempotent | src/containers/TicketsPage/index.tsx:79-83 | applying the same route parameter twice is the same as once |
| TicketsPage.RouteParamsKeepSelection | src/containers/TicketsPage/index.tsx:79-83 | no sequence of route parameters clears or blanks an existing selection |
| TicketsPage.StepSearchQuery | src/containers/TicketsPage/index.tsx:54-60 | only the debounce commit changes the committed search term, and it copies the current input |
| TicketsPage.ListArgs | src/containers/TicketsPage/index.tsx:66-70 | the list-key filter record holds the committed search, the raw filter status and the sort text |
| TicketsPage.ListKey | src/containers/TicketsPage/index.tsx:66-70 | the list query's key has length 3, lies under the list scope, and ends in `{ filters }` wrapping the page's filter record |
| TicketsPage.ListKeyIgnoresSearchInput | src/containers/TicketsPage/index.tsx:66-70 | two page states have equal list keys iff their committed search, filter status and sort agree; the typed input plays no part |
| TicketsPage.TypingThenCommitting | src/containers/TicketsPage/index.tsx:54-70 | typing leaves the list key unchanged; the commit that follows puts the typed text into it |
| TicketsPage.ListKeyFields | src/containers/TicketsPage/index.tsx:50-70 | the key carries the filter status unmapped (`'all'` included), and its sort field is `'date'` or `'title'` |
| TicketsPage.DetailEnabled | src/containers/TicketsPage/index.tsx:90 | the detail query is enabled iff the selection is present and non-empty |
| TicketsPage.EnabledDetailKey | src/containers/TicketsPage/index.tsx:86-90 | whenever the detail query is enabled, its key is the detail key of the selected id |
| TicketsPage.EmptySelectionDetailKey | src/containers/TicketsPage/index.tsx:88-90 | an empty selection disables the detail query, while its key is still the detail key of `''` |
| TicketsPage.UnselectedDetailKeyIsNoTicket | src/containers/TicketsPage/index.tsx:88 | with no selection the detail key is exactly the details scope followed by `null`, and is no ticket's detail key |
| TicketsPage.DetailKey | src/containers/TicketsPage/index.tsx:88 | the detail query's key has length 3, lies under the details scope, and is the detail key of an id iff that id is the selection |
| TicketsPage.SelectingEnablesDetail | src/containers/TicketsPage/index.tsx:88-90 | selecting a ticket enables its detail query, keyed by its id, iff the id is non-empty |
| TicketsPage.Step | src/containers/TicketsPage/index.tsx:47-133 | each event sets its own field to the event's value (typed text, committed input, chosen status, chosen sort, clicked id) and changes nothing else; a route event applies the route-parameter sync; the selection changes only by a list click or by a truthy route id |
| TicketsPage.RightPaneOf | src/containers/TicketsPage/index.tsx:139-145 | the right pane is exactly one of three: the detail for a truthy selection not loading, the loading view for a truthy selection loading, or the prompt with no truthy selection |
| TicketsPage.FullPageLoading | src/containers/TicketsPage/index.tsx:93 | the full-page loading view never shows when the list is not loading or data is present, and shows when loading with no data |
| TicketsPage.LoadingViewsAgree | src/containers/TicketsPage/index.tsx:93-136 | for any loading flag and data: the full-page view implies the pane's loading guard holds too; were loading reported while data is present, the pane, not the page, would show it; not loading, the pane lists |
| TicketsPage.RightPaneMatchesDetailQuery | src/containers/TicketsPage/index.tsx:88-145 | the detail view appears only for the id the enabled detail query is keyed by, the loading view only while it is enabled, and the prompt iff it is disabled |
| TicketsPage.LeftPaneOf | src/containers/TicketsPage/index.tsx:128-136 | the list pane shows loading iff the list is loading; otherwise it lists the data, or nothing when the data is absent |
| UserProfile.UserName | src/pages/user-profile/index.tsx:18 | `'Loading...'` with no user; otherwise the first name, one space, then the last name |
| UserProfile.DisplayName | src/pages/user-profile/index.tsx:26 | with a user it equals the name line; with none it is `'Guest'`, unlike the name line |
| UserProfile.Initials | src/pages/user-profile/index.tsx:29 | `'??'` with no user; otherwise 2 to 18 characters; never an ASCII lower-case letter |
| UserProfile.FirstChar | src/pages/user-profile/index.tsx:29 | a name's first character, or the text `undefined` for an empty name |
| UserProfile.UpperChar | src/pages/user-profile/index.tsx:29 | upper-casing maps each ASCII lower-case letter to its upper-case letter, leaves every other character alone, and never yields a lower-case letter |
| UserProfile.Upper | src/pages/user-profile/index.tsx:29 | upper-casing a string keeps its length and upper-cases each character in place |
| UserProfile.UpperIdempotent | src/pages/user-profile/index.tsx:29 | upper-casing twice is the same as once |
| UserProfile.InitialProfile | src/pages/user-profile/index.tsx:15 | the counter starts at 0 |
| UserProfile.HandleClick | src/pages/user-profile/index.tsx:21-23 | a click increases the counter by exactly 1 and leaves the user unchanged |
| UserProfile.ClicksCount | src/pages/user-profile/index.tsx:21-23 | `n` clicks increase the counter by exactly `n` and leave the user unchanged |
| UserProfile.CounterShowsClicks | src/pages/user-profile/index.tsx:15-23 | from a fresh page, after `n` clicks the counter shows `n` |
| UserProfile.NoUserPlaceholders | src/pages/user-profile/index.tsx:18-29 | with no user the name is `'Loading...'`, the display name `'Guest'` and the initials `'??'` |
| UserProfile.NamesAgree | src/pages/user-profile/index.tsx:18-26 | with a user, name and display name are both first name, space, last name |
| UserProfile.InitialsOfNamedUser | src/pages/user-profile/index.tsx:29 | with both names non-empty the initials have length 2 and are the upper-cased first character of each name |
| UserProfile.InitialsOfEmptyNames | src/pages/user-profile/index.tsx:29 | an empty name contributes `UNDEFINED` in its position; two empty names give `UNDEFINEDUNDEFINED` |
| UserProfile.ClickKeepsNames | src/pages/user-profile/index.tsx:18-29 | a click changes none of the name, display name and initials |

## Left out

- The query-cache engine is an external library and is not modelled. This
  covers request deduplication, stale-while-revalidate, prefix invalidation
  and out-of-order completion. The model states only the prefix relations
  between keys that invalidation relies on.
- The 300 ms search debounce timer (src/containers/TicketsPage/index.tsx:54-60)
  depends on timers and effect-cleanup timing. Its firing is the
  `SearchCommitted` event. Cancel-on-supersede timing is not modelled.
- `fetchTickets`, `fetchTicketById`, `useGetUserProfile`, `getTicketKeys`
  and `TicketCard` are not part of this model. Their results are parameters
  (loading flags, `Option` data, `Option<User>`).
- The ticket-list hook's query key comes from `getTicketKeys`. That factory
  is not part of this model, so the hook's key is not modelled.
  `TicketListView.Tickets` assumes the query re-runs whenever the status
  changes. That holds only if `getTicketKeys.list` puts the status into the key.
- The list query's loading flag and its data are independent parameters
  here. The query library reports loading only while the current key has no
  data. So each new list key (a search commit, filter or sort change) shows
  the full-page loading view, and the list pane's own loading branch
  (src/containers/TicketsPage/index.tsx:128-129) is not reached in practice.
- The 800 ms mock delay is not modelled; it affects timing only. Console
  logging, rendering, styling and date/locale formatting are also left out.
- The TicketList container's `Loading tickets...` early return
  (src/containers/TicketList/index.tsx:44-46) is view code and is not modelled.
- The user-profile page's `Loading profile...` early return
  (src/pages/user-profile/index.tsx:36-38) is view code and is not modelled.
- Key equality in the model is structural. The query cache compares keys by
  a JSON serialisation that drops `undefined`-valued properties. That is
  coarser: `list({status: undefined})` and `list({})` differ as keys here but
  share one cache entry there. The cache's hashing is not modelled.
- The presentational TicketList, TicketDetail and TicketFilters components
  and the route table are view wiring and are not modelled.
- Determinism of the key factory needs no lemma: Dafny functions are
  deterministic, and the injectivity lemmas state both directions.
- UserProfile.UpperChar: only ASCII letters are upper-cased. JavaScript's
  `toUpperCase` is Unicode-aware, and Unicode case mapping is not modelled.
- UserProfile.FirstChar: a Dafny `char` is a Unicode scalar value, not a
  UTF-16 code unit. For a name starting with a character outside the Basic
  Multilingual Plane, JavaScript's `s[0]` is a lone high surrogate; the model
  takes the whole character.
- UserProfile.Upper: length-changing case mappings such as `'ß'` to `'SS'`
  are not modelled; the result always has the input's length.
- UserProfile.HandleClick: the counter is an unbounded `nat`. JavaScript
  number precision above 2^53 is not modelled.
- TicketsPage.Step: the sort value comes from a cast of the select's value
  and is taken to be one of the select's two options.
