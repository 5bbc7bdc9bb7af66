/**
 * The dashboard's fixed data (lib/dashboardData.ts): the sales series per
 * range and the "recent" client and invoice lists cut to a limit.
 */
module DashboardData {
  import opened Wrappers
  import opened Seqs
  import opened Text
  import InvoicesData

  /** `SalesSeries`: one label per value. */
  datatype SalesSeries = SalesSeries(labels: seq<string>, values: seq<nat>)

  datatype ClientSummary = ClientSummary(id: string, name: string, email: string)

  datatype InvoiceSummary = InvoiceSummary(id: string, clientName: string, amount: nat, status: InvoicesData.InvoiceStatus)

  const DefaultRecentLimit: int := 5

  /** The month series' labels: `Array.from({ length: 12 }, (_, i) => `${i + 1}`)`. */
  function MonthLabels(): seq<string>
  {
    seq(12, i requires 0 <= i < 12 => NatToString(i + 1))
  }

  /**
   * `getSalesTrend(range)`: the week series for "week", the month series
   * for "month", and the year series for any other range.
   */
  function GetSalesTrend(range: string): (r: SalesSeries)
    ensures |r.labels| == |r.values|
    ensures |r.labels| == if range == "week" then 7 else if range == "month" then 12 else 5
  {
    if range == "week" then
      SalesSeries(["Mon", "Tue", "Wed", "Thu", "Fri", "Sat", "Sun"],
                  [1200, 980, 1520, 1780, 940, 760, 1330])
    else if range == "month" then
      SalesSeries(MonthLabels(),
                  [5400, 7200, 6300, 8100, 9400, 10500, 9900, 11200, 12300, 11800, 13100, 12500])
    else
      SalesSeries(["2021", "2022", "2023", "2024", "2025"],
                  [152000, 171500, 189300, 214000, 226800])
  }

  /**
   * The month labels are `${i + 1}`: the decimal numerals 1 to 12 in order,
   * each reading back as its position plus one, no two alike.
   */
  lemma MonthLabelsNumbered()
    ensures forall i :: 0 <= i < 12 ==> GetSalesTrend("month").labels[i] == NatToString(i + 1)
    ensures forall i :: 0 <= i < 12 ==> ParseNat(GetSalesTrend("month").labels[i]) == Some(i + 1)
    ensures forall i, j :: 0 <= i < j < 12 ==> GetSalesTrend("month").labels[i] != GetSalesTrend("month").labels[j]
  {
    var labels := GetSalesTrend("month").labels;
    forall i | 0 <= i < 12 ensures ParseNat(labels[i]) == Some(i + 1) {
      ParseNatToString(i + 1);
    }
    forall i, j | 0 <= i < j < 12 ensures labels[i] != labels[j] {
      NatToStringInjective(i + 1, j + 1);
    }
  }

  /** Every range other than "week" and "month" falls through to the year series. */
  lemma OtherRangesAreYear(range: string)
    requires range != "week" && range != "month"
    ensures GetSalesTrend(range) == GetSalesTrend("year")
  {
  }

  function RecentClientsFixture(): seq<ClientSummary>
  {
    [ ClientSummary("c1", "Acme Corp", "ops@acme.com"),
      ClientSummary("c2", "Globex LLC", "hello@globex.com"),
      ClientSummary("c3", "Initech", "billing@initech.io"),
      ClientSummary("c4", "Umbrella Co", "contact@umbrella.co"),
      ClientSummary("c5", "Soylent Inc", "info@soylent.com"),
      ClientSummary("c6", "Stark Industries", "finance@stark.com") ]
  }

  function RecentInvoicesFixture(): seq<InvoiceSummary>
  {
    [ InvoiceSummary("INV-1024", "Acme Corp", 2500, InvoicesData.Paid),
      InvoiceSummary("INV-1025", "Globex LLC", 1800, InvoicesData.Pending),
      InvoiceSummary("INV-1026", "Initech", 3200, InvoicesData.Overdue),
      InvoiceSummary("INV-1027", "Umbrella Co", 950, InvoicesData.Paid),
      InvoiceSummary("INV-1028", "Soylent Inc", 1200, InvoicesData.Pending),
      InvoiceSummary("INV-1029", "Stark Industries", 4950, InvoicesData.Paid) ]
  }

  /**
   * `all.slice(0, limit)`: for a non-negative limit the first `min(limit, |all|)`
   * elements; a negative limit counts from the end and drops that many.
   */
  function Prefix<T>(all: seq<T>, limit: int): (r: seq<T>)
    ensures 0 <= limit ==> r == all[..Min(limit, |all|)]
    ensures limit < 0 ==> r == all[..Max(|all| + limit, 0)]
  {
    Slice(all, 0, limit)
  }

  /** `getRecentClients(limit = 5)`. */
  function GetRecentClients(limit: Option<int>): (r: seq<ClientSummary>)
    ensures 0 <= limit.GetOr(DefaultRecentLimit) ==>
              r == RecentClientsFixture()[..Min(limit.GetOr(DefaultRecentLimit), 6)]
    ensures limit.None? ==> |r| == 5
  {
    Prefix(RecentClientsFixture(), limit.GetOr(DefaultRecentLimit))
  }

  /** `getRecentInvoices(limit = 5)`. */
  function GetRecentInvoices(limit: Option<int>): (r: seq<InvoiceSummary>)
    ensures 0 <= limit.GetOr(DefaultRecentLimit) ==>
              r == RecentInvoicesFixture()[..Min(limit.GetOr(DefaultRecentLimit), 6)]
    ensures limit.None? ==> |r| == 5
  {
    Prefix(RecentInvoicesFixture(), limit.GetOr(DefaultRecentLimit))
  }
}
