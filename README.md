# Invoice manager: estimates store, listings and dashboard data

A Dafny model of the data layer of a mobile invoicing app:

- **The estimates store** (`lib/estimatesStore.ts`): a module-level container holding the
  estimates, newest first, and a `Set` of listener functions. `addEstimate` puts an estimate
  at the front, `updateEstimate` patches every estimate with a given id and stamps its update
  time, `subscribe` registers a listener and returns a function that removes it again, and
  after every change `emit` calls each listener with the current list. Modelled as the class
  `EstimatesStore.Store`. The listeners are kept as a duplicate-free sequence because a
  JavaScript `Set` iterates in insertion order. What the listeners do is not modelled; the
  field `deliveries` records each call `emit` makes (which listener, with which list).
- **The invoice and client listings** (`lib/invoicesData.ts`, `lib/clientsData.ts`): a fixed
  list, narrowed by an optional status (invoices only) and an optional case-insensitive search,
  then cut into a page by `slice(offset, offset + limit)`, with a `nextOffset` when items
  remain. Modelled as functions, with `slice` in its full JavaScript meaning (negative
  arguments count from the end) so that no parameter needs a precondition.
- **The dashboard data** (`lib/dashboardData.ts`): the sales series for a range, and the
  "recent" clients and invoices cut to a limit.
- **The client picker's search** (`app/clients/select.tsx`): the clients whose name or email
  contains the query, ignoring letter case.

Modules: `Wrappers` (Option), `Seqs` (`filter`, `slice`, subsequences), `Text` (`toLowerCase`,
`includes`, `String(n)` with its inverse), `Paging` (the shared page step), `InvoicesData`,
`ClientsData`, `DashboardData`, `ClientSelect`, `EstimatesStore`.

Conventions: a JavaScript `Date` is an integer timestamp; each reading of the clock
(`new Date()`) is a parameter: `now` where the code reads it once, and `nows`, one reading
per entry, where `updateEstimate` reads it inside `map`; an omitted field or parameter is `None`; numbers are integers (every
amount in the fixtures is whole); `toLowerCase` lower-cases the ASCII letters A-Z, which are
the only letters in the fixture data.

## Model

| member | source | states |
|---|---|---|
| `Seqs.Filter` | lib/invoicesData.ts:28 | `filter` keeps the order of its input (the result is a subsequence), every kept element satisfies the predicate, and each element satisfying it is kept exactly as often as it occurs |
| `Seqs.Slice` | lib/invoicesData.ts:35 | `slice(start, end)` for `0 <= start <= end` is the window `s[min(start,n)..min(end,n)]`, at most `end - start` long; for any arguments the result is a subsequence of the input |
| `Seqs.SliceIndex` | lib/clientsData.ts:27 | a `slice` argument becomes an index in `0..n`: non-negative ones are clamped to `n`, negative ones count back from the end and stop at 0 |
| `Text.Lower` | lib/invoicesData.ts:30 | `toLowerCase` keeps the length and maps each character on its own, upper-case ASCII letters to lower case and everything else to itself |
| `Text.LowerIdempotent` | app/clients/select.tsx:61-62 | lower-casing twice is lower-casing once |
| `Text.ContainsIff` | lib/invoicesData.ts:32 | `includes` as computed (scan the suffixes for a prefix match) holds exactly when the query occurs at some position, both directions |
| `Text.NatToString` | lib/invoicesData.ts:32 | `String(amount)` for an amount below 10^21 is a non-empty run of digits with no leading zero unless the amount is 0 |
| `Text.ParseNatToString` | lib/invoicesData.ts:32 | reading the decimal rendering of a number back gives the number |
| `Text.NatToStringInjective` | lib/dashboardData.ts:47 | different numbers render differently |
| `Text.Contains` | lib/invoicesData.ts:32 | `s.includes(q)` scans the suffixes of `s` for one starting with `q`; a string that includes `q` is at least as long as `q` (its meaning is given by `Text.ContainsIff`) |
| `Paging.Paginate` | lib/invoicesData.ts:35-37 | for `offset, limit >= 0` the page is `filtered[offset .. min(offset+limit, n)]`, at most `limit` long; `nextOffset` is present exactly when `offset + limit < n` and then equals `offset + items.length` |
| `Paging.NonPositiveLimitNeverEnds` | lib/invoicesData.ts:35-36 | with any `limit <= 0` at an offset where items remain, `nextOffset` is always present and below the list's length; when `offset + limit < 0` the end index counts back from the end, so the page is `filtered[offset .. max(n + offset + limit, offset)]` |
| `Paging.NonPositiveLimitStalls` | lib/invoicesData.ts:35-36 | with `limit <= 0` (and `offset + limit >= 0`) at an offset where items remain, the page is empty and `nextOffset` equals the offset itself, so following it never advances |
| `Paging.PagesCover` | lib/clientsData.ts:27-29 | with a positive limit, following `nextOffset` from an offset until it is absent yields pages that concatenate to the rest of the list |
| `Paging.PagesBounded` | lib/clientsData.ts:27 | every page collected that way holds at most `limit` items |
| `InvoicesData.ByStatusSpec` | lib/invoicesData.ts:28 | the status step keeps order, keeps only invoices with the status (or all for 'All') and keeps every one that has it |
| `InvoicesData.BySearchSpec` | lib/invoicesData.ts:29-34 | the search step keeps order; with a non-empty search it keeps exactly the invoices whose lower-cased id or client name, or whose amount's digits, contain the lower-cased query; otherwise it keeps everything |
| `InvoicesData.FilterInvoicesSpec` | lib/invoicesData.ts:27-34 | the filtered list is an order-preserving subsequence of the fixture list; every entry passes the status filter and, with a non-empty search, the search; every fixture invoice passing both is in it |
| `InvoicesData.ListInvoices` | lib/invoicesData.ts:12-38 | for any parameters the items are an order-preserving subsequence of the eight fixture invoices, each passing the status filter (any status for 'All' or omitted) and, with a non-empty search, containing the lower-cased query in its lower-cased id or client name or its amount's digits |
| `InvoicesData.PageOfFiltered` | lib/invoicesData.ts:27-35 | any slice of the filtered list is a subsequence of the full list whose invoices pass the status and search filters |
| `InvoicesData.ListInvoicesDefaults` | lib/invoicesData.ts:26 | omitted parameters behave as `limit` 20, `offset` 0 and `status` 'All' |
| `InvoicesData.ListInvoicesStatus` | lib/invoicesData.ts:28 | with a status other than 'All', every returned invoice has that status |
| `InvoicesData.EmptySearchIgnored` | lib/invoicesData.ts:29 | an empty search string gives the same list as an omitted one |
| `InvoicesData.ListInvoicesPage` | lib/invoicesData.ts:35-36 | for `offset, limit >= 0` the returned items are the window of the filtered list at `offset`, at most `limit` of them; `nextOffset` is present iff `offset + items.length < filtered.length`, and then equals `offset + items.length` |
| `InvoicesData.NegativeLimitStallsInvoices` | lib/invoicesData.ts:26-37 | `listInvoices({ limit: -1, offset: 7 })` returns no items and `nextOffset` 7, the offset it was called with |
| `InvoicesData.InvoicePagesAreChain` | lib/invoicesData.ts:35-37 | calling `listInvoices` again at each `nextOffset` walks the same pages as the generic page chain |
| `InvoicesData.InvoicePagingComplete` | lib/invoicesData.ts:35-37 | with a positive limit, the pages reached from offset 0 by following `nextOffset` concatenate to the whole filtered list, each at most `limit` long |
| `ClientsData.FilterClientsSpec` | lib/clientsData.ts:24-26 | with no or an empty search the list is all clients in order; with a search it is an order-preserving subsequence holding exactly the clients whose lower-cased name or email contains the lower-cased search |
| `ClientsData.ListClients` | lib/clientsData.ts:11-30 | for any parameters the items are an order-preserving subsequence of the eight fixture clients and, with a non-empty search, each has the lower-cased search in its lower-cased name or email |
| `ClientsData.PageOfFiltered` | lib/clientsData.ts:24-27 | any slice of the filtered list is a subsequence of the full list whose clients match the search |
| `ClientsData.ListClientsDefaults` | lib/clientsData.ts:23 | omitted parameters behave as `limit` 20 and `offset` 0 |
| `ClientsData.ListClientsPage` | lib/clientsData.ts:27-28 | for `offset, limit >= 0` the items are `filtered[offset .. min(offset+limit, n)]`, at most `limit`; `nextOffset` is present iff `offset + items.length < n`, and then equals `offset + items.length` |
| `DashboardData.GetSalesTrend` | lib/dashboardData.ts:36-58 | labels and values have equal length: 7 for "week", 12 for "month", 5 for any other range |
| `DashboardData.MonthLabelsNumbered` | lib/dashboardData.ts:47 | the month label at position `i` is the decimal rendering of `i + 1`, reads back as `i + 1`, and no two month labels are equal |
| `DashboardData.OtherRangesAreYear` | lib/dashboardData.ts:53-57 | every range other than "week" and "month" yields the year series |
| `DashboardData.Prefix` | lib/dashboardData.ts:70 | `slice(0, limit)` is the first `min(limit, n)` elements for `limit >= 0`, and drops `-limit` from the end for a negative limit |
| `DashboardData.GetRecentClients` | lib/dashboardData.ts:60-71 | for a non-negative limit (5 when omitted) the result is the first `min(limit, 6)` of the six clients; omitted, it has 5 |
| `DashboardData.GetRecentInvoices` | lib/dashboardData.ts:73-84 | for a non-negative limit (5 when omitted) the result is the first `min(limit, 6)` of the six invoices; omitted, it has 5 |
| `ClientSelect.FilterClients` | app/clients/select.tsx:59-63 | the kept clients are an order-preserving subsequence, each has the lower-cased query in its lower-cased name or email, and every client that does is kept |
| `ClientSelect.EmptyQueryKeepsAll` | app/clients/select.tsx:59-63 | an empty query keeps every client in order |
| `ClientSelect.EmptyQueryListsAllFive` | app/clients/select.tsx:21-63 | with the initial empty query the picker lists all five clients |
| `ClientSelect.QueryCaseInsensitive` | app/clients/select.tsx:61-62 | a query and its lower-cased form select the same clients |
| `EstimatesStore.ApplyPatch` | lib/estimatesStore.ts:63 | the patched estimate takes the patch's line items, subtotal, total and id when present and keeps its own otherwise; its update time is `now` even when the patch has one |
| `EstimatesStore.ApplyPatchIsSpread` | lib/estimatesStore.ts:63 | the patched estimate is the spread `{...e, ...patch, updatedAt: now}`: fields the patch does not name keep the estimate's values, fields it names take the patch's, and the stamp is applied last |
| `EstimatesStore.PatchUpdatedAtIgnored` | lib/estimatesStore.ts:63 | a patch's own `updatedAt` has no effect, because the stamp is spread last |
| `EstimatesStore.EmptyPatchOnlyStamps` | lib/estimatesStore.ts:63 | an empty patch changes only the update time |
| `EstimatesStore.ApplyPatchIdempotent` | lib/estimatesStore.ts:63 | the same patch at the same time applied twice equals applying it once |
| `EstimatesStore.ApplyPatchCompose` | lib/estimatesStore.ts:63 | two successive patches equal one patch in which the later one's present fields win, stamped at the later time |
| `EstimatesStore.UpdatedItems` | lib/estimatesStore.ts:63 | the update keeps the length and order; entries with another id are unchanged, the entry at position `k` with the id is patched and stamped with the clock reading taken there |
| `EstimatesStore.DuplicatesStampedSeparately` | lib/estimatesStore.ts:63 | two entries sharing the id are each stamped with their own clock reading, so their update times differ whenever the readings do |
| `EstimatesStore.UpdateUnknownIdKeepsItems` | lib/estimatesStore.ts:63 | an id no entry carries leaves the list equal to before, whatever the clock reads |
| `EstimatesStore.UpdateIdempotent` | lib/estimatesStore.ts:63 | repeating an update with the same id, patch and clock readings changes nothing more |
| `EstimatesStore.AddCountsIdOnceMore` | lib/estimatesStore.ts:57-60 | adding makes the estimate first, shifts the rest by one, and adds one to the count of its id, so a duplicate id enters unchecked |
| `EstimatesStore.Subscribed` | lib/estimatesStore.ts:68 | `Set.add` keeps the listeners duplicate-free; a listener already present leaves the sequence unchanged, a new one is appended at the end (insertion order) |
| `EstimatesStore.SubscribeTwiceIsOnce` | lib/estimatesStore.ts:68 | subscribing the same listener twice registers it once |
| `EstimatesStore.Unsubscribed` | lib/estimatesStore.ts:69 | `Set.delete` removes that listener only and keeps the others in order |
| `EstimatesStore.UnsubscribedDistinct` | lib/estimatesStore.ts:69 | removing a listener keeps the rest duplicate-free |
| `EstimatesStore.SubscribeThenUnsubscribe` | lib/estimatesStore.ts:67-70 | subscribing a new listener and calling the returned function restores the listeners |
| `EstimatesStore.Broadcast` | lib/estimatesStore.ts:72-74 | `emit` calls the listeners in their order, each with the current items |
| `EstimatesStore.BroadcastCallsEachOnce` | lib/estimatesStore.ts:72-74 | each registered listener is called exactly once per emit and no other listener is called |
| `EstimatesStore.Store.constructor` | lib/estimatesStore.ts:48-51 | the store starts with no estimates and no listeners |
| `EstimatesStore.Store.GetEstimates` | lib/estimatesStore.ts:53-55 | returns the current items |
| `EstimatesStore.Store.Emit` | lib/estimatesStore.ts:72-74 | appends one call per registered listener, in order, with the current items, and changes nothing else |
| `EstimatesStore.Store.AddEstimate` | lib/estimatesStore.ts:57-60 | the new items are the estimate followed by the old ones, unchanged; listeners stay; every listener is then called once with the new items |
| `EstimatesStore.Store.UpdateEstimate` | lib/estimatesStore.ts:62-65 | the new items are the old ones updated by id, each match stamped with its own clock reading; listeners stay; every listener is then called once with the new items |
| `EstimatesStore.Store.Subscribe` | lib/estimatesStore.ts:67-68 | registers the listener once, touching nothing else |
| `EstimatesStore.Store.Unsubscribe` | lib/estimatesStore.ts:69 | removes that listener only and reports whether it was registered, touching nothing else |
| `EstimatesStore.SubscribeThenUpdate` | lib/estimatesStore.ts:59-74 | after subscribing, an update calls the new listener exactly once, and every call carries the new items |

## Left out

- The `delay()` promise in each data function: the functions are modelled as synchronous.
- `getKPIs` and `formatCurrency` in lib/dashboardData.ts: fixed fractional numbers and locale formatting; the model has no floating point.
- The calculation of line totals, subtotal, discount, tax and total: the store only stores the values it is given, and the draft arithmetic in app/(tabs)/invoices/add.tsx is screen code that is not part of this model.
- Listener side effects: a listener is a foreign function; the model records which listener is called with which list. A listener that subscribes or unsubscribes while `emit` iterates is not modelled.
- `getEstimates` returns the store's own array, which a caller could mutate; sequences in the model are values, so this aliasing is not captured.
- `Text.Lower`: lower-cases ASCII letters only, where `toLowerCase` applies the Unicode case mappings. The fixture data is ASCII, but the search query is user input: a query with a non-ASCII upper-case letter can match in JavaScript and not in the model, since the Kelvin sign U+212A lower-cases to "k", and a mapping that changes length, such as U+0130 to "i" followed by U+0307, is not modelled either.
- `EstimatesStore.ApplyPatch`: a `Partial<Estimate>` key that is present with the value `undefined` overwrites the field with `undefined`; the model treats such a key as absent.
- `Paging.PagesCover`, `Paging.PagesBounded` and `InvoicesData.InvoicePagingComplete` are proved for a positive limit only. With `limit == 0`, or a negative limit and `offset + limit >= 0`, the page is empty and `nextOffset` is the offset the listing was called with (`Paging.NonPositiveLimitStalls`, `InvoicesData.NegativeLimitStallsInvoices`). With `offset + limit < 0` the end index counts back from the end of the list: the page holds `max(n + limit, 0)` items and `nextOffset` stays below `n`. Either way, at an offset where items remain `nextOffset` is always present, so a caller that follows it never finishes (`Paging.NonPositiveLimitNeverEnds`). The same holds for `listClients`. Neither listing rejects such a limit.
- JavaScript numbers are modelled as integers: a fractional, NaN or infinite `limit`/`offset` and fractional amounts are not modelled.
- `Text.NatToString`: `String(n)` switches to exponent notation from 10^21 on (`"1e+21"`), and integers above 2^53 are not exact in JavaScript; the model renders every natural number in plain decimal, which matches the source only below 10^21 (the fixture amounts are at most 4950).
- The `SalesRange` type: the model takes the range as any string, which is wider, so that the fallback to the year series is visible.
- React rendering, navigation, the picker's `useState` and the mock data under src/ are not part of this model.
