/**
 * The ticket-list query hook: the `Ticket` record, the three-ticket mock
 * fixture its query function returns, and the status filter applied to it.
 * The 800 ms delay before the fixture is produced is not modelled.
 */
module TicketQuery {
  import opened Wrappers
  import Seqs

  datatype Status = Open | Closed

  /** The string a status is compared as. */
  function StatusText(s: Status): string
  {
    match s
    case Open => "open"
    case Closed => "closed"
  }

  datatype Ticket = Ticket(id: string, title: string, status: Status, read: bool)

  /** The fixture the mocked fetch resolves with. */
  function MockTickets(): (r: seq<Ticket>)
    ensures |r| == 3 && Ids(r) == ["1", "2", "3"]
    ensures StatusText(r[0].status) == "open" && StatusText(r[1].status) == "open"
    ensures StatusText(r[2].status) == "closed"
    ensures !r[0].read && r[1].read && r[2].read
  {
    [ Ticket("1", "Fix bug in login", Open, false),
      Ticket("2", "Update documentation", Open, true),
      Ticket("3", "Add new feature", Closed, true) ]
  }

  /** A status parameter JavaScript treats as false: absent or the empty string. */
  predicate IsFalsy(status: Option<string>)
  {
    status == None || status == Some("")
  }

  /** The filter callback: a falsy status keeps every ticket, otherwise the status must match. */
  predicate Keeps(status: Option<string>, t: Ticket)
  {
    IsFalsy(status) || StatusText(t.status) == status.value
  }

  /** The tickets of `ts` that the status parameter lets through, in order. */
  function FilterByStatus(ts: seq<Ticket>, status: Option<string>): (r: seq<Ticket>)
    ensures IsFalsy(status) ==> r == ts
    ensures !IsFalsy(status) ==>
              forall t :: t in r <==> t in ts && StatusText(t.status) == status.value
  {
    var r := Seqs.Filter(ts, t => Keeps(status, t));
    Seqs.FilterKeepsAll(ts, t => Keeps(status, t));
    r
  }

  /** What the query function resolves with for a given status parameter. */
  function QueryTickets(status: Option<string>): (r: seq<Ticket>)
    ensures Seqs.Subsequence(r, MockTickets())
    ensures forall t :: t in r <==> t in MockTickets() && Keeps(status, t)
  {
    FilterByStatusIsSubsequence(MockTickets(), status);
    FilterByStatus(MockTickets(), status)
  }

  /** The ids of a ticket sequence, in order. */
  function Ids(ts: seq<Ticket>): (r: seq<string>)
    ensures |r| == |ts|
    ensures forall i :: 0 <= i < |ts| ==> r[i] == ts[i].id
  {
    seq(|ts|, i requires 0 <= i < |ts| => ts[i].id)
  }

  /** No two tickets of `ts` share an id. */
  predicate UniqueIds(ts: seq<Ticket>)
  {
    forall i, j :: 0 <= i < |ts| && 0 <= j < |ts| && ts[i].id == ts[j].id ==> i == j
  }

  /** The filter result is an order-preserving subsequence of its input. */
  lemma FilterByStatusIsSubsequence(ts: seq<Ticket>, status: Option<string>)
    ensures Seqs.Subsequence(FilterByStatus(ts, status), ts)
  {
    Seqs.FilterIsSubsequence(ts, t => Keeps(status, t));
  }

  /** Filtering an already filtered result by the same status changes nothing. */
  lemma FilterByStatusIdempotent(ts: seq<Ticket>, status: Option<string>)
    ensures FilterByStatus(FilterByStatus(ts, status), status) == FilterByStatus(ts, status)
  {
    Seqs.FilterIdempotent(ts, t => Keeps(status, t));
  }

  /** The fixture's ids are distinct. */
  lemma MockTicketsHaveUniqueIds()
    ensures UniqueIds(MockTickets())
  {
  }

  /** A falsy status returns the whole fixture. */
  lemma QueryFalsyReturnsAll(status: Option<string>)
    requires IsFalsy(status)
    ensures Ids(QueryTickets(status)) == ["1", "2", "3"]
  {
  }

  /** Filters the fixture one ticket at a time. */
  lemma QueryUnfolds(status: Option<string>)
    ensures QueryTickets(status)
            == (if Keeps(status, MockTickets()[0]) then [MockTickets()[0]] else [])
             + (if Keeps(status, MockTickets()[1]) then [MockTickets()[1]] else [])
             + (if Keeps(status, MockTickets()[2]) then [MockTickets()[2]] else [])
  {
    var m := MockTickets();
    var p := t => Keeps(status, t);
    assert m == [m[0]] + ([m[1]] + ([m[2]] + []));
    Seqs.FilterCons(m[0], [m[1]] + ([m[2]] + []), p);
    Seqs.FilterCons(m[1], [m[2]] + [], p);
    Seqs.FilterCons(m[2], [], p);
  }

  /** `'open'` yields tickets 1 and 2. */
  lemma QueryOpen()
    ensures Ids(QueryTickets(Some("open"))) == ["1", "2"]
  {
    QueryUnfolds(Some("open"));
  }

  /** `'closed'` yields ticket 3. */
  lemma QueryClosed()
    ensures Ids(QueryTickets(Some("closed"))) == ["3"]
  {
    QueryUnfolds(Some("closed"));
  }

  /** Any other non-empty status yields no ticket. */
  lemma QueryByUnknownStatus(status: string)
    requires status != "" && status != "open" && status != "closed"
    ensures QueryTickets(Some(status)) == []
  {
    Seqs.FilterKeepsNone(MockTickets(), t => Keeps(Some(status), t));
  }
}
