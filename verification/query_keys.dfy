/**
 * The hierarchical query-key factory of the ticket and user queries.
 * A key is a sequence of segments; narrower keys extend broader ones, so a
 * broader key is a sequence prefix (Dafny's `<=` on sequences) of every key
 * in its family.
 */
module QueryKeys {
  import opened Wrappers

  /**
   * One field of the optional filter record. An object literal may leave the
   * field out, give it as `undefined`, or give it a string; the factory keeps
   * whichever it was handed.
   */
  datatype Field = Absent | Undefined | Present(value: string)

  /** The filter record `{ status?, search?, sortBy? }` accepted by `list`. */
  datatype ListFilters = ListFilters(status: Field, search: Field, sortBy: Field)

  /**
   * One segment of a key: a string (scope tags and ticket ids alike), `null`
   * (what a non-null assertion on a null id lets through at run time), or the
   * object `{ filters }` that closes a list key.
   */
  datatype KeySeg = Str(s: string) | Null | FilterObj(filters: Option<ListFilters>)

  type Key = seq<KeySeg>

  /** Root of every ticket key. */
  function All(): (k: Key)
    ensures |k| == 1 && k[0] == Str("tickets")
  {
    [Str("tickets")]
  }

  /** Scope of every list key: the root followed by `'list'`. */
  function Lists(): (k: Key)
    ensures All() < k && |k| == 2
    ensures k[1] == Str("list")
  {
    All() + [Str("list")]
  }

  /** One list query; the filter argument is wrapped, as given, in `{ filters }`. */
  function List(filters: Option<ListFilters>): (k: Key)
    ensures Lists() < k && |k| == 3
    ensures k[2] == FilterObj(filters)
  {
    Lists() + [FilterObj(filters)]
  }

  /** Scope of every detail key: the root followed by `'detail'`. */
  function Details(): (k: Key)
    ensures All() < k && |k| == 2
    ensures k[1] == Str("detail")
  {
    All() + [Str("detail")]
  }

  /** One ticket's detail query. The id is not checked: `''` is accepted. */
  function Detail(id: string): (k: Key)
    ensures Details() < k && |k| == 3
    ensures k[2] == Str(id)
  {
    Details() + [Str(id)]
  }

  /** Root of every user key. */
  function UserAll(): (k: Key)
    ensures |k| == 1 && k[0] == Str("user")
  {
    [Str("user")]
  }

  /** Scope of the user-profile keys. */
  function UserProfiles(): (k: Key)
    ensures UserAll() < k && |k| == 2
    ensures k[1] == Str("profile")
  {
    UserAll() + [Str("profile")]
  }

  /** The current user's profile: a copy of the profiles scope, nothing appended. */
  function UserProfile(): (k: Key)
    ensures k == UserProfiles()
    ensures k == [Str("user"), Str("profile")]
  {
    UserProfiles()
  }

  /** A call of one ticket-key factory member, with its argument. */
  datatype TicketKeyCall = AllCall | ListsCall | ListCall(filters: Option<ListFilters>)
                         | DetailsCall | DetailCall(id: string)

  /** A call of one user-key factory member. */
  datatype UserKeyCall = UserAllCall | UserProfilesCall | UserProfileCall

  /** The key a ticket-key factory call returns. */
  function TicketKey(c: TicketKeyCall): Key
  {
    match c
    case AllCall => All()
    case ListsCall => Lists()
    case ListCall(f) => List(f)
    case DetailsCall => Details()
    case DetailCall(id) => Detail(id)
  }

  /** The key a user-key factory call returns. */
  function UserKey(c: UserKeyCall): Key
  {
    match c
    case UserAllCall => UserAll()
    case UserProfilesCall => UserProfiles()
    case UserProfileCall => UserProfile()
  }

  /** Two list keys are equal exactly when their filter arguments are. */
  lemma ListInjective(f: Option<ListFilters>, g: Option<ListFilters>)
    ensures List(f) == List(g) <==> f == g
  {
    if List(f) == List(g) {
      assert List(f)[2] == List(g)[2];
    }
  }

  /**
   * The factory does not normalise its argument: a field left out and the
   * same field given as `undefined` give different keys, and so do calling
   * `list()` with no argument and calling it with an empty record.
   */
  lemma ListDoesNotNormalise()
    ensures List(Some(ListFilters(Absent, Absent, Absent)))
            != List(Some(ListFilters(Undefined, Absent, Absent)))
    ensures List(None) != List(Some(ListFilters(Absent, Absent, Absent)))
  {
    ListInjective(Some(ListFilters(Absent, Absent, Absent)), Some(ListFilters(Undefined, Absent, Absent)));
    ListInjective(None, Some(ListFilters(Absent, Absent, Absent)));
  }

  /** Two detail keys are equal exactly when their ids are. */
  lemma DetailInjective(a: string, b: string)
    ensures Detail(a) == Detail(b) <==> a == b
  {
    if Detail(a) == Detail(b) {
      assert Detail(a)[2] == Detail(b)[2];
    }
  }

  /** A detail key, even for the empty id, differs from the details scope. */
  lemma DetailDiffersFromScope(id: string)
    ensures Detail(id) != Details()
  {
  }

  /** Distinct factory calls give distinct key values. */
  lemma TicketKeyInjective(c: TicketKeyCall, d: TicketKeyCall)
    ensures TicketKey(c) == TicketKey(d) <==> c == d
  {
    if TicketKey(c) == TicketKey(d) {
      var k := TicketKey(c);
      assert |k| == |TicketKey(d)|;
      if |k| == 2 {
        assert k[1] == TicketKey(d)[1];
      } else if |k| == 3 {
        assert k[2] == TicketKey(d)[2];
      }
    }
  }

  /** Every ticket key lies under the root, so invalidating the root reaches lists and details alike. */
  lemma EveryTicketKeyUnderRoot(c: TicketKeyCall)
    ensures All() <= TicketKey(c)
  {
  }

  /** The list scope is a prefix of exactly the list keys. */
  lemma ListsScopeCoversOnlyLists(c: TicketKeyCall)
    ensures Lists() <= TicketKey(c) <==> c.ListsCall? || c.ListCall?
  {
    if Lists() <= TicketKey(c) {
      assert TicketKey(c)[1] == Lists()[1];
    }
  }

  /** The details scope is a prefix of exactly the detail keys. */
  lemma DetailsScopeCoversOnlyDetails(c: TicketKeyCall)
    ensures Details() <= TicketKey(c) <==> c.DetailsCall? || c.DetailCall?
  {
    if Details() <= TicketKey(c) {
      assert TicketKey(c)[1] == Details()[1];
    }
  }

  /** No list key lies under the details scope, and no detail key under the list scope. */
  lemma ListAndDetailScopesDisjoint(f: Option<ListFilters>, id: string)
    ensures !(Details() <= List(f))
    ensures !(Lists() <= Detail(id))
  {
    ListsScopeCoversOnlyLists(DetailCall(id));
    DetailsScopeCoversOnlyDetails(ListCall(f));
  }

  /** User keys and ticket keys have different roots: neither family lies under the other's root. */
  lemma UserAndTicketRootsDiffer(c: TicketKeyCall, u: UserKeyCall)
    ensures TicketKey(c)[0] != UserKey(u)[0]
    ensures !(All() <= UserKey(u)) && !(UserAll() <= TicketKey(c))
  {
    EveryTicketKeyUnderRoot(c);
    assert UserAll() <= UserKey(u);
    assert TicketKey(c)[0] == All()[0];
    assert UserKey(u)[0] == UserAll()[0];
  }
}
