/**
 * The client picker's search (app/clients/select.tsx): the clients whose
 * lower-cased name or email contains the lower-cased query. There is no
 * empty-query guard here; an empty query is contained in every string.
 */
module ClientSelect {
  import opened Seqs
  import opened Text

  datatype Client = Client(id: string, name: string, email: string, phone: string, address: string)

  /** The five clients the picker offers. */
  function Clients(): seq<Client>
  {
    [ Client("1", "John Doe", "john@example.com", "+1 (555) 123-4567",
             "123 Business Street\nNew York, NY 10001\nUnited States"),
      Client("2", "Jane Morrison", "jane@example.com", "+1 (555) 234-5678",
             "456 Corporate Ave\nLos Angeles, CA 90210\nUnited States"),
      Client("3", "Dan Henderson", "dan@example.com", "+1 (555) 345-6789",
             "789 Enterprise Blvd\nChicago, IL 60601\nUnited States"),
      Client("4", "Lee Mathew", "lee@example.com", "+1 (555) 456-7890",
             "321 Commerce Dr\nMiami, FL 33101\nUnited States"),
      Client("5", "Bradshaw White", "brad@example.com", "+1 (555) 567-8901",
             "654 Industry Rd\nSeattle, WA 98101\nUnited States") ]
  }

  predicate MatchesQuery(c: Client, searchQuery: string)
  {
    Contains(Lower(c.name), Lower(searchQuery)) || Contains(Lower(c.email), Lower(searchQuery))
  }

  /** `filteredClients` over a client list. */
  function FilterClients(clients: seq<Client>, searchQuery: string): (r: seq<Client>)
    ensures IsSubsequence(r, clients)
    ensures forall k :: 0 <= k < |r| ==> MatchesQuery(r[k], searchQuery)
    ensures forall c :: c in clients && MatchesQuery(c, searchQuery) ==> c in r
  {
    var r := Filter(clients, (c: Client) => MatchesQuery(c, searchQuery));
    FilterMatching(clients, searchQuery);
    r
  }

  lemma FilterMatching(clients: seq<Client>, searchQuery: string)
    ensures forall c :: c in clients && MatchesQuery(c, searchQuery) ==>
              c in Filter(clients, (c: Client) => MatchesQuery(c, searchQuery))
  {
    forall c | c in clients && MatchesQuery(c, searchQuery)
      ensures c in Filter(clients, (c: Client) => MatchesQuery(c, searchQuery))
    {
      FilterMembership(clients, (c: Client) => MatchesQuery(c, searchQuery), c);
    }
  }

  /** The picker's `filteredClients` for the current `searchQuery`. */
  function FilteredClients(searchQuery: string): seq<Client>
  {
    FilterClients(Clients(), searchQuery)
  }

  /** An empty query keeps every client, in order. */
  lemma {:induction false} EmptyQueryKeepsAll(clients: seq<Client>)
    ensures FilterClients(clients, "") == clients
  {
    forall k | 0 <= k < |clients| ensures MatchesQuery(clients[k], "") {
      ContainsEmpty(Lower(clients[k].name));
    }
    FilterAll(clients, (c: Client) => MatchesQuery(c, ""));
  }

  /** The picker with an empty query lists all five clients. */
  lemma EmptyQueryListsAllFive()
    ensures FilteredClients("") == Clients() && |FilteredClients("")| == 5
  {
    EmptyQueryKeepsAll(Clients());
  }

  /** The query's letter case does not matter: `q` and its lower-cased form select the same clients. */
  lemma {:induction false} QueryCaseInsensitive(clients: seq<Client>, searchQuery: string)
    ensures FilterClients(clients, searchQuery) == FilterClients(clients, Lower(searchQuery))
  {
    LowerIdempotent(searchQuery);
    FilterCongruent(clients, (c: Client) => MatchesQuery(c, searchQuery),
                             (c: Client) => MatchesQuery(c, Lower(searchQuery)));
  }
}
