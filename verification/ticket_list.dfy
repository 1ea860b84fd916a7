/**
 * The TicketList container: its two pieces of state (selected id and status
 * filter), the status parameter it hands to the ticket query, the derived
 * notification count, and the selection of a card by clicking it.
 */
module TicketListView {
  import opened Wrappers
  import Seqs
  import opened TicketQuery

  datatype State = State(selectedTicketId: Option<string>, filterStatus: string)

  /** Nothing selected, filter `'all'`. */
  function Initial(): (s: State)
    ensures s.selectedTicketId == None && s.filterStatus == "all"
  {
    State(None, "all")
  }

  /** The status parameter of the ticket query: `'all'` becomes absent, anything else passes through. */
  function StatusParam(filterStatus: string): (r: Option<string>)
    ensures r == None <==> filterStatus == "all"
    ensures r != None ==> r.value == filterStatus
  {
    if filterStatus == "all" then None else Some(filterStatus)
  }

  /** The tickets the container receives once its query has resolved. */
  function Tickets(s: State): (r: seq<Ticket>)
    ensures s.filterStatus != "all" ==> r == FilterByStatus(MockTickets(), Some(s.filterStatus))
    ensures s.filterStatus == "all" || s.filterStatus == "" ==> r == MockTickets()
  {
    QueryTickets(StatusParam(s.filterStatus))
  }

  /** Choosing each option of the filter select shows the fixture tickets with that status. */
  lemma FilterOptionsShowTickets(s: State)
    ensures Ids(Tickets(ChangeFilter(s, "all"))) == ["1", "2", "3"]
    ensures Ids(Tickets(ChangeFilter(s, "open"))) == ["1", "2"]
    ensures Ids(Tickets(ChangeFilter(s, "closed"))) == ["3"]
  {
    QueryOpen();
    QueryClosed();
  }

  /** Whether a ticket has not been read yet. */
  predicate Unread(t: Ticket)
  {
    !t.read
  }

  /** The number of unread tickets, or 0 while the data is absent. */
  function NotificationCount(tickets: Option<seq<Ticket>>): (n: nat)
    ensures tickets == None ==> n == 0
    ensures tickets != None ==> n <= |tickets.value|
  {
    match tickets
    case None => 0
    case Some(ts) => |Seqs.Filter(ts, Unread)|
  }

  /** The count is zero exactly when every ticket is read, and the length exactly when none is. */
  lemma NotificationCountExtremes(ts: seq<Ticket>)
    ensures NotificationCount(Some(ts)) == 0 <==> forall i :: 0 <= i < |ts| ==> ts[i].read
    ensures NotificationCount(Some(ts)) == |ts| <==> forall i :: 0 <= i < |ts| ==> !ts[i].read
  {
    Seqs.FilterKeepsNone(ts, Unread);
    Seqs.FilterKeepsAll(ts, Unread);
  }

  /** Counting the unread tickets of a concatenation adds the two counts. */
  lemma NotificationCountAppend(a: seq<Ticket>, b: seq<Ticket>)
    ensures NotificationCount(Some(a + b)) == NotificationCount(Some(a)) + NotificationCount(Some(b))
  {
    Seqs.FilterAppend(a, b, Unread);
  }

  /** Over the unfiltered fixture exactly one ticket (ticket 1) is unread; the closed view has none. */
  lemma FixtureNotificationCount()
    ensures NotificationCount(Some(Tickets(Initial()))) == 1
    ensures NotificationCount(Some(Tickets(State(None, "closed")))) == 0
  {
    var m := MockTickets();
    assert Tickets(Initial()) == m;
    assert m == [m[0]] + [m[1], m[2]];
    NotificationCountAppend([m[0]], [m[1], m[2]]);
    NotificationCountExtremes([m[0]]);
    NotificationCountExtremes([m[1], m[2]]);
    var closed := Tickets(State(None, "closed"));
    QueryClosed();
    assert |closed| == 1 && closed[0] == m[2];
    NotificationCountExtremes(closed);
  }

  /** A card is highlighted when its ticket's id is the selected id. */
  predicate IsSelected(s: State, t: Ticket)
    ensures s.selectedTicketId == None ==> !IsSelected(s, t)
  {
    s.selectedTicketId == Some(t.id)
  }

  /** Clicking a card selects its ticket; the filter is left alone, and clicking the selected card changes nothing. */
  function Click(s: State, t: Ticket): (s': State)
    ensures IsSelected(s', t)
    ensures s'.filterStatus == s.filterStatus
    ensures IsSelected(s, t) ==> s' == s
  {
    s.(selectedTicketId := Some(t.id))
  }

  /** Choosing a filter option replaces the filter; the selection is left alone. */
  function ChangeFilter(s: State, value: string): (s': State)
    ensures s'.filterStatus == value
    ensures s'.selectedTicketId == s.selectedTicketId
  {
    s.(filterStatus := value)
  }

  /** A card is selected exactly when its id equals the selected id. */
  lemma IsSelectedIff(s: State, t: Ticket)
    ensures IsSelected(s, t) <==> s.selectedTicketId.Some? && s.selectedTicketId.value == t.id
  {
  }

  /** Among tickets with distinct ids, at most one card is selected. */
  lemma AtMostOneSelected(s: State, ts: seq<Ticket>, i: int, j: int)
    requires UniqueIds(ts)
    requires 0 <= i < |ts| && 0 <= j < |ts|
    requires IsSelected(s, ts[i]) && IsSelected(s, ts[j])
    ensures i == j
  {
  }

  /** After clicking a card among tickets with distinct ids, that card and no other is selected. */
  lemma ClickSelectsOnlyThatCard(s: State, ts: seq<Ticket>, k: int)
    requires UniqueIds(ts)
    requires 0 <= k < |ts|
    ensures forall i :: 0 <= i < |ts| ==> (IsSelected(Click(s, ts[k]), ts[i]) <==> i == k)
  {
  }
}
