/**
 * The in-memory estimates store (lib/estimatesStore.ts): a list of
 * estimates, newest first, and a set of listeners that are called with the
 * list after every change. The store keeps estimates exactly as supplied;
 * it never computes a subtotal or total itself.
 */
module EstimatesStore {
  import opened Wrappers
  import opened Seqs

  /** A JavaScript `Date`, as milliseconds since the epoch. */
  type Timestamp = int

  datatype LineItem = LineItem(
    id: string,
    name: string,
    description: Option<string>,
    quantity: int,
    price: int,
    itemDiscount: int,
    total: int)

  datatype Client = Client(
    id: string,
    name: string,
    email: Option<string>,
    phone: Option<string>,
    address: Option<string>)

  datatype DiscountKind = Percentage | Flat

  datatype DiscountTax = DiscountTax(kind: DiscountKind, value: int)

  datatype TaxInfo = TaxInfo(name: string, value: int)

  datatype EstimateStatus = Draft | Sent | Accepted | Declined

  datatype Estimate = Estimate(
    estimateId: string,
    title: string,
    selectedClient: Option<Client>,
    estimateDate: Timestamp,
    expiryDate: Timestamp,
    lineItems: seq<LineItem>,
    discount: DiscountTax,
    tax: TaxInfo,
    shipping: int,
    subtotal: int,
    total: int,
    status: EstimateStatus,
    createdAt: Timestamp,
    updatedAt: Timestamp)

  /**
   * `Partial<Estimate>`: each field is either present (Some) or absent.
   * `selectedClient` may be present with the value null, hence the nested Option.
   */
  datatype Patch = Patch(
    estimateId: Option<string>,
    title: Option<string>,
    selectedClient: Option<Option<Client>>,
    estimateDate: Option<Timestamp>,
    expiryDate: Option<Timestamp>,
    lineItems: Option<seq<LineItem>>,
    discount: Option<DiscountTax>,
    tax: Option<TaxInfo>,
    shipping: Option<int>,
    subtotal: Option<int>,
    total: Option<int>,
    status: Option<EstimateStatus>,
    createdAt: Option<Timestamp>,
    updatedAt: Option<Timestamp>)

  const EmptyPatch := Patch(None, None, None, None, None, None, None, None, None, None, None, None, None, None)

  /**
   * `{ ...e, ...patch, updatedAt: new Date() }`: every field present in the
   * patch replaces the estimate's, every other field is kept, and the
   * update time is `now` whatever the patch says, since it is spread last.
   * In particular the amounts are exactly the ones supplied.
   */
  function ApplyPatch(e: Estimate, patch: Patch, now: Timestamp): (r: Estimate)
    ensures r.updatedAt == now
    ensures r.lineItems == if patch.lineItems.Some? then patch.lineItems.value else e.lineItems
    ensures r.subtotal == if patch.subtotal.Some? then patch.subtotal.value else e.subtotal
    ensures r.total == if patch.total.Some? then patch.total.value else e.total
    ensures r.estimateId == if patch.estimateId.Some? then patch.estimateId.value else e.estimateId
  {
    Estimate(
      estimateId := patch.estimateId.GetOr(e.estimateId),
      title := patch.title.GetOr(e.title),
      selectedClient := patch.selectedClient.GetOr(e.selectedClient),
      estimateDate := patch.estimateDate.GetOr(e.estimateDate),
      expiryDate := patch.expiryDate.GetOr(e.expiryDate),
      lineItems := patch.lineItems.GetOr(e.lineItems),
      discount := patch.discount.GetOr(e.discount),
      tax := patch.tax.GetOr(e.tax),
      shipping := patch.shipping.GetOr(e.shipping),
      subtotal := patch.subtotal.GetOr(e.subtotal),
      total := patch.total.GetOr(e.total),
      status := patch.status.GetOr(e.status),
      createdAt := patch.createdAt.GetOr(e.createdAt),
      updatedAt := now)
  }

  /** A patch's own `updatedAt` has no effect: the stamp overrides it. */
  lemma PatchUpdatedAtIgnored(e: Estimate, patch: Patch, now: Timestamp)
    ensures ApplyPatch(e, patch, now) == ApplyPatch(e, patch.(updatedAt := None), now)
  {
  }

  /** An empty patch changes nothing but the update time. */
  lemma EmptyPatchOnlyStamps(e: Estimate, now: Timestamp)
    ensures ApplyPatch(e, EmptyPatch, now) == e.(updatedAt := now)
  {
  }

  /** Applying the same patch again at the same time changes nothing more. */
  lemma ApplyPatchIdempotent(e: Estimate, patch: Patch, now: Timestamp)
    ensures ApplyPatch(ApplyPatch(e, patch, now), patch, now) == ApplyPatch(e, patch, now)
  {
  }

  /** Object spread of two patches: the later patch's present fields win. */
  function Overlay(first: Patch, second: Patch): Patch
  {
    Patch(
      if second.estimateId.Some? then second.estimateId else first.estimateId,
      if second.title.Some? then second.title else first.title,
      if second.selectedClient.Some? then second.selectedClient else first.selectedClient,
      if second.estimateDate.Some? then second.estimateDate else first.estimateDate,
      if second.expiryDate.Some? then second.expiryDate else first.expiryDate,
      if second.lineItems.Some? then second.lineItems else first.lineItems,
      if second.discount.Some? then second.discount else first.discount,
      if second.tax.Some? then second.tax else first.tax,
      if second.shipping.Some? then second.shipping else first.shipping,
      if second.subtotal.Some? then second.subtotal else first.subtotal,
      if second.total.Some? then second.total else first.total,
      if second.status.Some? then second.status else first.status,
      if second.createdAt.Some? then second.createdAt else first.createdAt,
      if second.updatedAt.Some? then second.updatedAt else first.updatedAt)
  }

  /** The estimate as an object to spread: every field present. */
  function AsPatch(e: Estimate): (p: Patch)
    ensures IsComplete(p)
  {
    Patch(Some(e.estimateId), Some(e.title), Some(e.selectedClient), Some(e.estimateDate), Some(e.expiryDate),
          Some(e.lineItems), Some(e.discount), Some(e.tax), Some(e.shipping), Some(e.subtotal), Some(e.total),
          Some(e.status), Some(e.createdAt), Some(e.updatedAt))
  }

  predicate IsComplete(p: Patch)
  {
    && p.estimateId.Some? && p.title.Some? && p.selectedClient.Some? && p.estimateDate.Some?
    && p.expiryDate.Some? && p.lineItems.Some? && p.discount.Some? && p.tax.Some? && p.shipping.Some?
    && p.subtotal.Some? && p.total.Some? && p.status.Some? && p.createdAt.Some? && p.updatedAt.Some?
  }

  /** An object with every field present, read back as an estimate. */
  function ToEstimate(p: Patch): (e: Estimate)
    requires IsComplete(p)
    ensures AsPatch(e) == p
  {
    Estimate(p.estimateId.value, p.title.value, p.selectedClient.value, p.estimateDate.value, p.expiryDate.value,
             p.lineItems.value, p.discount.value, p.tax.value, p.shipping.value, p.subtotal.value, p.total.value,
             p.status.value, p.createdAt.value, p.updatedAt.value)
  }

  /** The object literal `{ updatedAt: now }`. */
  function Stamp(now: Timestamp): Patch
  {
    EmptyPatch.(updatedAt := Some(now))
  }

  /**
   * ApplyPatch is the spread `{ ...e, ...patch, updatedAt: now }`, read as
   * three objects overlaid left to right: every field not named by the
   * patch keeps the estimate's value, every field it names takes the
   * patch's, and the stamp comes last.
   */
  lemma ApplyPatchIsSpread(e: Estimate, patch: Patch, now: Timestamp)
    ensures IsComplete(Overlay(Overlay(AsPatch(e), patch), Stamp(now)))
    ensures ApplyPatch(e, patch, now) == ToEstimate(Overlay(Overlay(AsPatch(e), patch), Stamp(now)))
  {
  }

  /** Two successive patches of one estimate amount to one patch with both merged, stamped at the later time. */
  lemma ApplyPatchCompose(e: Estimate, first: Patch, second: Patch, t1: Timestamp, t2: Timestamp)
    ensures ApplyPatch(ApplyPatch(e, first, t1), second, t2) == ApplyPatch(e, Overlay(first, second), t2)
  {
  }

  /**
   * `items.map(e => e.estimateId === id ? patched(e) : e)`: same length and
   * order; every entry with the id is patched and stamped, every other
   * entry is untouched. The callback reads the clock (`new Date()`) each
   * time it patches an entry, so `nows[k]` is the reading taken at
   * position `k`; a reading at a position without the id goes unused.
   */
  function UpdatedItems(items: seq<Estimate>, id: string, patch: Patch, nows: seq<Timestamp>): (r: seq<Estimate>)
    requires |nows| == |items|
    ensures |r| == |items|
    ensures forall k :: 0 <= k < |items| && items[k].estimateId != id ==> r[k] == items[k]
    ensures forall k :: 0 <= k < |items| && items[k].estimateId == id ==> r[k] == ApplyPatch(items[k], patch, nows[k])
    decreases |items|
  {
    if items == [] then []
    else
      var head := if items[0].estimateId == id then ApplyPatch(items[0], patch, nows[0]) else items[0];
      [head] + UpdatedItems(items[1..], id, patch, nows[1..])
  }

  /**
   * Two entries with the same id (which `addEstimate` admits) are stamped
   * by their own clock readings, so their update times differ whenever
   * the readings do.
   */
  lemma DuplicatesStampedSeparately(items: seq<Estimate>, id: string, patch: Patch, nows: seq<Timestamp>, i: nat, j: nat)
    requires |nows| == |items|
    requires i < j < |items| && items[i].estimateId == id && items[j].estimateId == id
    ensures UpdatedItems(items, id, patch, nows)[i].updatedAt == nows[i]
    ensures UpdatedItems(items, id, patch, nows)[j].updatedAt == nows[j]
    ensures nows[i] != nows[j] ==>
              UpdatedItems(items, id, patch, nows)[i].updatedAt != UpdatedItems(items, id, patch, nows)[j].updatedAt
  {
  }

  /** An id no entry carries leaves the list as it was, whatever the clock reads. */
  lemma UpdateUnknownIdKeepsItems(items: seq<Estimate>, id: string, patch: Patch, nows: seq<Timestamp>)
    requires |nows| == |items|
    requires forall k :: 0 <= k < |items| ==> items[k].estimateId != id
    ensures UpdatedItems(items, id, patch, nows) == items
  {
  }

  /** Repeating an update with the same id, patch and clock readings changes nothing more. */
  lemma UpdateIdempotent(items: seq<Estimate>, id: string, patch: Patch, nows: seq<Timestamp>)
    requires |nows| == |items|
    ensures UpdatedItems(UpdatedItems(items, id, patch, nows), id, patch, nows) == UpdatedItems(items, id, patch, nows)
  {
    var once := UpdatedItems(items, id, patch, nows);
    var twice := UpdatedItems(once, id, patch, nows);
    forall k | 0 <= k < |items| ensures twice[k] == once[k] {
      if items[k].estimateId == id {
        ApplyPatchIdempotent(items[k], patch, nows[k]);
      }
    }
  }

  /** How many entries carry `id`. */
  function CountId(items: seq<Estimate>, id: string): nat
    decreases |items|
  {
    if items == [] then 0
    else (if items[0].estimateId == id then 1 else 0) + CountId(items[1..], id)
  }

  /**
   * Adding puts the estimate first and shifts the others by one; its id
   * is not checked, so it is counted once more even when already present.
   */
  lemma {:induction false} AddCountsIdOnceMore(items: seq<Estimate>, e: Estimate)
    ensures var added := [e] + items;
            && |added| == |items| + 1 && added[0] == e
            && (forall k :: 0 <= k < |items| ==> added[k + 1] == items[k])
            && CountId(added, e.estimateId) == CountId(items, e.estimateId) + 1
  {
    assert ([e] + items)[1..] == items;
  }

  // ---------------------------------------------------------------------
  // Listeners

  /** A listener function, identified as a `Set` identifies it: by reference. */
  type ListenerId = nat

  /** One call `l(items)` made by `emit`. */
  datatype Delivery = Delivery(listener: ListenerId, items: seq<Estimate>)

  predicate Distinct(ls: seq<ListenerId>)
  {
    forall i, j :: 0 <= i < j < |ls| ==> ls[i] != ls[j]
  }

  /** `listeners.add(l)`: a `Set` keeps insertion order and ignores a listener it already has. */
  function Subscribed(ls: seq<ListenerId>, l: ListenerId): (r: seq<ListenerId>)
    ensures Distinct(ls) ==> Distinct(r)
    ensures forall x :: x in r <==> x in ls || x == l
    ensures l in ls ==> r == ls
    ensures l !in ls ==> r == ls + [l]
  {
    if l in ls then ls else ls + [l]
  }

  /** Subscribing an already subscribed listener changes nothing. */
  lemma SubscribeTwiceIsOnce(ls: seq<ListenerId>, l: ListenerId)
    ensures Subscribed(Subscribed(ls, l), l) == Subscribed(ls, l)
  {
  }

  /** `listeners.delete(l)`: only `l` goes; the others keep their order. */
  function Unsubscribed(ls: seq<ListenerId>, l: ListenerId): (r: seq<ListenerId>)
    ensures IsSubsequence(r, ls)
    ensures forall x :: x in r <==> x in ls && x != l
  {
    var r := Filter(ls, (x: ListenerId) => x != l);
    forall x ensures x in r <==> x in ls && x != l {
      FilterMembership(ls, (x: ListenerId) => x != l, x);
    }
    r
  }

  /** Removing a listener keeps the others distinct. */
  lemma {:induction false} UnsubscribedDistinct(ls: seq<ListenerId>, l: ListenerId)
    requires Distinct(ls)
    ensures Distinct(Unsubscribed(ls, l))
    decreases |ls|
  {
    if ls != [] {
      UnsubscribedDistinct(ls[1..], l);
      var rest := Unsubscribed(ls[1..], l);
      assert Unsubscribed(ls, l) == if ls[0] != l then [ls[0]] + rest else rest;
      assert ls[0] !in ls[1..];
      assert ls[0] !in rest;
    }
  }

  /** Subscribing a new listener and calling its unsubscribe restores the listeners. */
  lemma {:induction false} SubscribeThenUnsubscribe(ls: seq<ListenerId>, l: ListenerId)
    requires l !in ls
    ensures Unsubscribed(Subscribed(ls, l), l) == ls
  {
    FilterAll(ls, (x: ListenerId) => x != l);
    FilterAppendRejected(ls, l);
  }

  lemma {:induction false} FilterAppendRejected(ls: seq<ListenerId>, l: ListenerId)
    ensures Filter(ls + [l], (x: ListenerId) => x != l) == Filter(ls, (x: ListenerId) => x != l)
    decreases |ls|
  {
    if ls != [] {
      assert (ls + [l])[1..] == ls[1..] + [l];
      FilterAppendRejected(ls[1..], l);
    }
  }

  /** The calls `emit` makes: each listener in `ls`, in order, with `items`. */
  function Broadcast(ls: seq<ListenerId>, items: seq<Estimate>): (r: seq<Delivery>)
    ensures |r| == |ls|
    ensures forall k :: 0 <= k < |ls| ==> r[k] == Delivery(ls[k], items)
    decreases |ls|
  {
    if ls == [] then []
    else Broadcast(ls[..|ls| - 1], items) + [Delivery(ls[|ls| - 1], items)]
  }

  /** The number of calls in `ds` made to listener `l`. */
  function CallsTo(ds: seq<Delivery>, l: ListenerId): nat
    decreases |ds|
  {
    if ds == [] then 0
    else CallsTo(ds[..|ds| - 1], l) + (if ds[|ds| - 1].listener == l then 1 else 0)
  }

  /** Every registered listener is called exactly once per emit, and no one else is called. */
  lemma {:induction false} BroadcastCallsEachOnce(ls: seq<ListenerId>, items: seq<Estimate>, l: ListenerId)
    requires Distinct(ls)
    ensures CallsTo(Broadcast(ls, items), l) == if l in ls then 1 else 0
    decreases |ls|
  {
    if ls != [] {
      var init := ls[..|ls| - 1];
      BroadcastCallsEachOnce(init, items, l);
      assert Broadcast(ls, items)[..|ls| - 1] == Broadcast(init, items);
      assert ls == init + [ls[|ls| - 1]];
      assert ls[|ls| - 1] !in init;
    }
  }

  // ---------------------------------------------------------------------
  // The store

  /**
   * The module-level `store`: the estimates, newest first; the listeners,
   * in subscription order; and, as the observable effect of `emit`, every
   * listener call made so far.
   */
  class Store {
    var items: seq<Estimate>
    var listeners: seq<ListenerId>
    var deliveries: seq<Delivery>

    /** A `Set` holds each listener once. */
    ghost predicate Valid()
      reads this
    {
      Distinct(listeners)
    }

    constructor ()
      ensures Valid()
      ensures items == [] && listeners == [] && deliveries == []
    {
      items := [];
      listeners := [];
      deliveries := [];
    }

    /** `getEstimates()`. */
    method GetEstimates() returns (r: seq<Estimate>)
      ensures r == items
    {
      r := items;
    }

    /** `emit()`: call every listener, in order, with the current items. */
    method Emit()
      modifies this
      ensures items == old(items) && listeners == old(listeners)
      ensures deliveries == old(deliveries) + Broadcast(listeners, items)
    {
      for i := 0 to |listeners|
        invariant items == old(items) && listeners == old(listeners)
        invariant deliveries == old(deliveries) + Broadcast(listeners[..i], items)
      {
        assert listeners[..i + 1][..i] == listeners[..i];
        deliveries := deliveries + [Delivery(listeners[i], items)];
      }
      assert listeners[..|listeners|] == listeners;
    }

    /** `addEstimate(e)`: put `e` first, then notify. */
    method AddEstimate(e: Estimate)
      requires Valid()
      modifies this
      ensures Valid()
      ensures items == [e] + old(items)
      ensures listeners == old(listeners)
      ensures deliveries == old(deliveries) + Broadcast(listeners, items)
    {
      items := [e] + items;
      Emit();
    }

    /**
     * `updateEstimate(id, patch)`, with `nows[k]` the clock reading taken
     * when entry `k` is patched: patch every entry with the id, then notify.
     */
    method UpdateEstimate(id: string, patch: Patch, nows: seq<Timestamp>)
      requires Valid()
      requires |nows| == |items|
      modifies this
      ensures Valid()
      ensures items == UpdatedItems(old(items), id, patch, nows)
      ensures listeners == old(listeners)
      ensures deliveries == old(deliveries) + Broadcast(listeners, items)
    {
      items := UpdatedItems(items, id, patch, nows);
      Emit();
    }

    /** `subscribe(l)`: register `l` once; its unsubscribe function is Unsubscribe(l). */
    method Subscribe(l: ListenerId)
      requires Valid()
      modifies this
      ensures Valid()
      ensures listeners == Subscribed(old(listeners), l)
      ensures items == old(items) && deliveries == old(deliveries)
    {
      listeners := Subscribed(listeners, l);
    }

    /** The function `subscribe(l)` returns: `listeners.delete(l)`, true when `l` was registered. */
    method Unsubscribe(l: ListenerId) returns (removed: bool)
      requires Valid()
      modifies this
      ensures Valid()
      ensures removed == (l in old(listeners))
      ensures listeners == Unsubscribed(old(listeners), l)
      ensures items == old(items) && deliveries == old(deliveries)
    {
      removed := l in listeners;
      UnsubscribedDistinct(listeners, l);
      listeners := Unsubscribed(listeners, l);
    }
  }

  /** A client of the store: an update after a subscription reaches the new listener once, with the new items. */
  method SubscribeThenUpdate(s: Store, l: ListenerId, id: string, patch: Patch, nows: seq<Timestamp>)
    requires s.Valid()
    requires |nows| == |s.items|
    modifies s
    ensures s.Valid()
    ensures |s.deliveries| > |old(s.deliveries)|
    ensures CallsTo(s.deliveries[|old(s.deliveries)|..], l) == 1
    ensures forall k :: |old(s.deliveries)| <= k < |s.deliveries| ==> s.deliveries[k].items == s.items
  {
    s.Subscribe(l);
    ghost var before := s.deliveries;
    s.UpdateEstimate(id, patch, nows);
    assert s.deliveries[|before|..] == Broadcast(s.listeners, s.items);
    BroadcastCallsEachOnce(s.listeners, s.items, l);
  }
}
