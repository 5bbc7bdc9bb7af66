/**
 * `listInvoices` (lib/invoicesData.ts): the fixed invoice list, narrowed by
 * an optional status and an optional case-insensitive search, then paged.
 */
module InvoicesData {
  import opened Wrappers
  import opened Seqs
  import opened Text
  import opened Paging

  datatype InvoiceStatus = Paid | Pending | Overdue

  /** An invoice row; amounts in the fixture are whole currency units. */
  datatype Invoice = Invoice(id: string, clientName: string, amount: nat, status: InvoiceStatus)

  /** The `status` parameter: a specific status, or 'All' for no status filter. */
  datatype StatusFilter = All | Only(status: InvoiceStatus)

  /** `ListInvoicesParams`; every field may be omitted. */
  datatype ListInvoicesParams = ListInvoicesParams(
    limit: Option<int>,
    offset: Option<int>,
    status: Option<StatusFilter>,
    search: Option<string>)

  const DefaultLimit: int := 20

  /** The eight invoices `listInvoices` serves. */
  function AllInvoices(): seq<Invoice>
  {
    [ Invoice("INV-1024", "Acme Corp", 2500, Paid),
      Invoice("INV-1025", "Globex LLC", 1800, Pending),
      Invoice("INV-1026", "Initech", 3200, Overdue),
      Invoice("INV-1027", "Umbrella Co", 950, Paid),
      Invoice("INV-1028", "Soylent Inc", 1200, Pending),
      Invoice("INV-1029", "Stark Industries", 4950, Paid),
      Invoice("INV-1030", "Wayne Enterprises", 2220, Overdue),
      Invoice("INV-1031", "Oscorp", 1330, Pending) ]
  }

  /** `if (search)`: an omitted or empty search string applies no search filter. */
  predicate SearchApplies(search: Option<string>)
  {
    search.Some? && search.value != ""
  }

  predicate PassesStatus(i: Invoice, status: StatusFilter)
  {
    status.All? || i.status == status.status
  }

  /** The search test for an already lower-cased query `q`: id, client name or amount contains it. */
  predicate MatchesQuery(i: Invoice, q: string)
  {
    Contains(Lower(i.id), q) || Contains(Lower(i.clientName), q) || Contains(NatToString(i.amount), q)
  }

  /** The status step: all of `all` for 'All', else the invoices with the requested status. */
  function ByStatus(all: seq<Invoice>, status: StatusFilter): seq<Invoice>
  {
    if status.All? then all
    else Filter(all, (i: Invoice) => i.status == status.status)
  }

  /** The search step, applied only when a search applies. */
  function BySearch(invoices: seq<Invoice>, search: Option<string>): seq<Invoice>
  {
    if SearchApplies(search) then
      var q := Lower(search.value);
      Filter(invoices, (i: Invoice) => MatchesQuery(i, q))
    else
      invoices
  }

  /** The list `listInvoices` pages through: the status step, then the search step, over `all`. */
  function FilterInvoices(all: seq<Invoice>, status: StatusFilter, search: Option<string>): seq<Invoice>
  {
    BySearch(ByStatus(all, status), search)
  }

  function FilteredInvoices(status: StatusFilter, search: Option<string>): seq<Invoice>
  {
    FilterInvoices(AllInvoices(), status, search)
  }

  lemma ByStatusSpec(all: seq<Invoice>, status: StatusFilter)
    ensures var r := ByStatus(all, status);
            && IsSubsequence(r, all)
            && (forall k :: 0 <= k < |r| ==> PassesStatus(r[k], status))
            && (forall i :: i in all && PassesStatus(i, status) ==> i in r)
  {
    if status.All? {
      SubsequenceReflexive(all);
    } else {
      forall i | i in all && PassesStatus(i, status) ensures i in ByStatus(all, status) {
        FilterMembership(all, (i: Invoice) => i.status == status.status, i);
      }
    }
  }

  lemma BySearchSpec(invoices: seq<Invoice>, search: Option<string>)
    ensures var r := BySearch(invoices, search);
            && IsSubsequence(r, invoices)
            && (SearchApplies(search) ==>
                  forall k :: 0 <= k < |r| ==> MatchesQuery(r[k], Lower(search.value)))
            && (forall i :: i in invoices && (SearchApplies(search) ==> MatchesQuery(i, Lower(search.value)))
                  ==> i in r)
  {
    if SearchApplies(search) {
      var q := Lower(search.value);
      forall i | i in invoices && MatchesQuery(i, q) ensures i in BySearch(invoices, search) {
        FilterMembership(invoices, (i: Invoice) => MatchesQuery(i, q), i);
      }
    } else {
      SubsequenceReflexive(invoices);
    }
  }

  /**
   * The filtered list keeps the fixture order, and holds exactly the
   * fixture invoices that pass the status filter and, when a search
   * applies, match the lower-cased query.
   */
  lemma FilterInvoicesSpec(all: seq<Invoice>, status: StatusFilter, search: Option<string>)
    ensures var r := FilterInvoices(all, status, search);
            && IsSubsequence(r, all)
            && (forall k :: 0 <= k < |r| ==> PassesStatus(r[k], status))
            && (SearchApplies(search) ==>
                  forall k :: 0 <= k < |r| ==> MatchesQuery(r[k], Lower(search.value)))
            && (forall i :: (i in all && PassesStatus(i, status) &&
                  (SearchApplies(search) ==> MatchesQuery(i, Lower(search.value)))) ==> i in r)
  {
    var byStatus := ByStatus(all, status);
    var r := BySearch(byStatus, search);
    ByStatusSpec(all, status);
    BySearchSpec(byStatus, search);
    SubsequenceTransitive(r, byStatus, all);
    SubsequenceMembers(r, byStatus);
    forall k | 0 <= k < |r| ensures PassesStatus(r[k], status) {
      assert r[k] in byStatus;
    }
  }

  /** `listInvoices(params)`, with the destructuring defaults `limit = 20`, `offset = 0`, `status = 'All'`. */
  function ListInvoices(params: ListInvoicesParams): (r: Page<Invoice>)
    ensures IsSubsequence(r.items, AllInvoices())
    ensures forall k :: 0 <= k < |r.items| ==> PassesStatus(r.items[k], params.status.GetOr(All))
    ensures SearchApplies(params.search) ==>
              forall k :: 0 <= k < |r.items| ==> MatchesQuery(r.items[k], Lower(params.search.value))
  {
    var limit := params.limit.GetOr(DefaultLimit);
    var offset := params.offset.GetOr(0);
    var status := params.status.GetOr(All);
    var filtered := FilteredInvoices(status, params.search);
    var page := Paginate(filtered, offset, limit);
    PageOfFiltered(AllInvoices(), filtered, page.items, status, params.search);
    page
  }

  /** Any subsequence of the filtered list is a subsequence of `all` whose invoices pass both filters. */
  lemma PageOfFiltered(all: seq<Invoice>, filtered: seq<Invoice>, items: seq<Invoice>,
                       status: StatusFilter, search: Option<string>)
    requires filtered == FilterInvoices(all, status, search)
    requires IsSubsequence(items, filtered)
    ensures IsSubsequence(items, all)
    ensures forall k :: 0 <= k < |items| ==> PassesStatus(items[k], status)
    ensures SearchApplies(search) ==>
              forall k :: 0 <= k < |items| ==> MatchesQuery(items[k], Lower(search.value))
  {
    FilterInvoicesSpec(all, status, search);
    SubsequenceTransitive(items, filtered, all);
    SubsequenceMembers(items, filtered);
    forall k | 0 <= k < |items|
      ensures PassesStatus(items[k], status)
      ensures SearchApplies(search) ==> MatchesQuery(items[k], Lower(search.value))
    {
      assert items[k] in filtered;
      var j :| 0 <= j < |filtered| && filtered[j] == items[k];
    }
  }

  /** Omitted parameters behave as limit 20, offset 0 and status 'All'. */
  lemma ListInvoicesDefaults(search: Option<string>)
    ensures ListInvoices(ListInvoicesParams(None, None, None, search))
         == ListInvoices(ListInvoicesParams(Some(20), Some(0), Some(All), search))
  {
  }

  /** With a specific status requested, every returned invoice has that status. */
  lemma ListInvoicesStatus(params: ListInvoicesParams, st: InvoiceStatus)
    requires params.status == Some(Only(st))
    ensures forall k :: 0 <= k < |ListInvoices(params).items| ==> ListInvoices(params).items[k].status == st
  {
  }

  /** An empty search string filters exactly like an omitted one. */
  lemma EmptySearchIgnored(status: StatusFilter)
    ensures FilteredInvoices(status, Some("")) == FilteredInvoices(status, None)
  {
  }

  /**
   * For a non-negative offset and limit, the page is the window of the
   * filtered list at `offset`, holds at most `limit` invoices, and
   * `nextOffset` is offered exactly when invoices remain after it, pointing
   * just past the page.
   */
  lemma ListInvoicesPage(params: ListInvoicesParams, offset: int, limit: int)
    requires params.offset == Some(offset) && params.limit == Some(limit)
    requires 0 <= offset && 0 <= limit
    ensures var filtered := FilteredInvoices(params.status.GetOr(All), params.search);
            var r := ListInvoices(params);
            && r.items == filtered[Min(offset, |filtered|)..Min(offset + limit, |filtered|)]
            && |r.items| <= limit
            && (r.nextOffset.Some? <==> offset + |r.items| < |filtered|)
            && (r.nextOffset.Some? ==> r.nextOffset.value == offset + |r.items|)
  {
  }

  /**
   * With limit -1 at offset 7 of the unfiltered list, the page is empty
   * and `nextOffset` is 7 again: following it never finishes.
   */
  lemma NegativeLimitStallsInvoices()
    ensures ListInvoices(ListInvoicesParams(Some(-1), Some(7), None, None)) == Page([], Some(7))
  {
    assert |AllInvoices()| == 8;
  }

  /**
   * The pages a caller collects by calling `listInvoices` at offset 0 and
   * then at each `nextOffset` until none is offered.
   */
  function InvoicePages(status: StatusFilter, search: Option<string>, limit: int, offset: nat): seq<seq<Invoice>>
    requires 0 < limit
    decreases |FilteredInvoices(status, search)| - offset
  {
    var page := ListInvoices(ListInvoicesParams(Some(limit), Some(offset), Some(status), search));
    match page.nextOffset
    case None => [page.items]
    case Some(next) => [page.items] + InvoicePages(status, search, limit, next)
  }

  lemma {:induction false} InvoicePagesAreChain(status: StatusFilter, search: Option<string>, limit: int, offset: nat)
    requires 0 < limit
    ensures InvoicePages(status, search, limit, offset) == PagesFrom(FilteredInvoices(status, search), offset, limit)
    decreases |FilteredInvoices(status, search)| - offset
  {
    var page := ListInvoices(ListInvoicesParams(Some(limit), Some(offset), Some(status), search));
    match page.nextOffset
    case None =>
    case Some(next) =>
      InvoicePagesAreChain(status, search, limit, next);
  }

  /**
   * For a positive limit, following `nextOffset` from 0 yields pages whose
   * concatenation is the whole filtered list, each page at most `limit` long.
   */
  lemma InvoicePagingComplete(status: StatusFilter, search: Option<string>, limit: int)
    requires 0 < limit
    ensures Flatten(InvoicePages(status, search, limit, 0)) == FilteredInvoices(status, search)
    ensures forall k :: 0 <= k < |InvoicePages(status, search, limit, 0)| ==>
              |InvoicePages(status, search, limit, 0)[k]| <= limit
  {
    var filtered := FilteredInvoices(status, search);
    InvoicePagesAreChain(status, search, limit, 0);
    PagesCover(filtered, 0, limit);
    PagesBounded(filtered, 0, limit);
    assert filtered[0..] == filtered;
  }
}
