/**
 * `listClients` (lib/clientsData.ts): the fixed client list, narrowed by an
 * optional case-insensitive search on name or email, then paged.
 */
module ClientsData {
  import opened Wrappers
  import opened Seqs
  import opened Text
  import opened Paging

  datatype Client = Client(id: string, name: string, email: string)

  /** `ListClientsParams`; every field may be omitted. */
  datatype ListClientsParams = ListClientsParams(limit: Option<int>, offset: Option<int>, search: Option<string>)

  const DefaultLimit: int := 20

  /** The eight clients `listClients` serves. */
  function AllClients(): seq<Client>
  {
    [ Client("c1", "Acme Corp", "ops@acme.com"),
      Client("c2", "Globex LLC", "hello@globex.com"),
      Client("c3", "Initech", "billing@initech.io"),
      Client("c4", "Umbrella Co", "contact@umbrella.co"),
      Client("c5", "Soylent Inc", "info@soylent.com"),
      Client("c6", "Stark Industries", "finance@stark.com"),
      Client("c7", "Wayne Enterprises", "admin@wayne.com"),
      Client("c8", "Oscorp", "ops@oscorp.com") ]
  }

  /** `search ? … : all`: an omitted or empty search string keeps every client. */
  predicate SearchApplies(search: Option<string>)
  {
    search.Some? && search.value != ""
  }

  /** The search test: the lower-cased name or email contains the lower-cased search. */
  predicate MatchesSearch(c: Client, search: string)
  {
    Contains(Lower(c.name), Lower(search)) || Contains(Lower(c.email), Lower(search))
  }

  /** The search step over `all`. */
  function FilterClients(all: seq<Client>, search: Option<string>): seq<Client>
  {
    if SearchApplies(search) then Filter(all, (c: Client) => MatchesSearch(c, search.value))
    else all
  }

  /** The list `listClients` pages through. */
  function FilteredClients(search: Option<string>): seq<Client>
  {
    FilterClients(AllClients(), search)
  }

  /**
   * The filtered list keeps the order of `all`; with no (or an empty)
   * search it is all of `all`; with a search it holds exactly the clients
   * whose lower-cased name or email contains the lower-cased search.
   */
  lemma FilterClientsSpec(all: seq<Client>, search: Option<string>)
    ensures var r := FilterClients(all, search);
            && IsSubsequence(r, all)
            && (!SearchApplies(search) ==> r == all)
            && (SearchApplies(search) ==> forall k :: 0 <= k < |r| ==> MatchesSearch(r[k], search.value))
            && (SearchApplies(search) ==> forall c :: c in all && MatchesSearch(c, search.value) ==> c in r)
  {
    if SearchApplies(search) {
      forall c | c in all && MatchesSearch(c, search.value) ensures c in FilterClients(all, search) {
        FilterMembership(all, (c: Client) => MatchesSearch(c, search.value), c);
      }
    } else {
      SubsequenceReflexive(all);
    }
  }

  /** `listClients(params)`, with the destructuring defaults `limit = 20`, `offset = 0`. */
  function ListClients(params: ListClientsParams): (r: Page<Client>)
    ensures IsSubsequence(r.items, AllClients())
    ensures SearchApplies(params.search) ==>
              forall k :: 0 <= k < |r.items| ==> MatchesSearch(r.items[k], params.search.value)
  {
    var limit := params.limit.GetOr(DefaultLimit);
    var offset := params.offset.GetOr(0);
    var filtered := FilteredClients(params.search);
    var page := Paginate(filtered, offset, limit);
    PageOfFiltered(AllClients(), filtered, page.items, params.search);
    page
  }

  /** Any subsequence of the filtered list is a subsequence of `all` whose clients match the search. */
  lemma PageOfFiltered(all: seq<Client>, filtered: seq<Client>, items: seq<Client>, search: Option<string>)
    requires filtered == FilterClients(all, search)
    requires IsSubsequence(items, filtered)
    ensures IsSubsequence(items, all)
    ensures SearchApplies(search) ==> forall k :: 0 <= k < |items| ==> MatchesSearch(items[k], search.value)
  {
    FilterClientsSpec(all, search);
    SubsequenceTransitive(items, filtered, all);
    SubsequenceMembers(items, filtered);
    forall k | 0 <= k < |items| ensures SearchApplies(search) ==> MatchesSearch(items[k], search.value) {
      assert items[k] in filtered;
      var j :| 0 <= j < |filtered| && filtered[j] == items[k];
    }
  }

  /** Omitted parameters behave as limit 20 and offset 0. */
  lemma ListClientsDefaults(search: Option<string>)
    ensures ListClients(ListClientsParams(None, None, search))
         == ListClients(ListClientsParams(Some(20), Some(0), search))
  {
  }

  /**
   * For a non-negative offset and limit, the page is the window of the
   * filtered list at `offset`, holds at most `limit` clients, and
   * `nextOffset` is offered exactly when clients remain after it, pointing
   * just past the page.
   */
  lemma ListClientsPage(params: ListClientsParams, offset: int, limit: int)
    requires params.offset == Some(offset) && params.limit == Some(limit)
    requires 0 <= offset && 0 <= limit
    ensures var filtered := FilteredClients(params.search);
            var r := ListClients(params);
            && r.items == filtered[Min(offset, |filtered|)..Min(offset + limit, |filtered|)]
            && |r.items| <= limit
            && (r.nextOffset.Some? <==> offset + |r.items| < |filtered|)
            && (r.nextOffset.Some? ==> r.nextOffset.value == offset + |r.items|)
  {
  }
}
