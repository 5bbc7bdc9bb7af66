/**
 * The page-taking step shared by `listInvoices` and `listClients`: slice
 * `filtered` from `offset` to `offset + limit`, and offer the next offset
 * when items remain after the page.
 */
module Paging {
  import opened Wrappers
  import opened Seqs

  /** The `{ items, nextOffset }` object both listings resolve to. */
  datatype Page<T> = Page(items: seq<T>, nextOffset: Option<int>)

  /**
   * The page of `filtered` at `offset` of at most `limit` items. For a
   * non-negative `offset` and `limit` it is the window starting at
   * `offset`, and a next offset is offered exactly when items lie beyond it.
   */
  function Paginate<T>(filtered: seq<T>, offset: int, limit: int): (r: Page<T>)
    ensures 0 <= offset && 0 <= limit ==>
              r.items == filtered[Min(offset, |filtered|)..Min(offset + limit, |filtered|)]
    ensures 0 <= offset && 0 <= limit ==> |r.items| <= limit
    ensures 0 <= offset && 0 <= limit ==>
              (r.nextOffset.Some? <==> offset + limit < |filtered|)
    ensures 0 <= offset && 0 <= limit && r.nextOffset.Some? ==>
              r.nextOffset.value == offset + limit && r.nextOffset.value == offset + |r.items|
    ensures IsSubsequence(r.items, filtered)
  {
    var slice := Slice(filtered, offset, offset + limit);
    var nextOffset := if offset + |slice| < |filtered| then Some(offset + |slice|) else None;
    Page(slice, nextOffset)
  }

  /**
   * A limit of 0, or a negative limit that still leaves `offset + limit`
   * non-negative, gives an empty page whose `nextOffset` is the same offset
   * whenever items remain: a caller that follows `nextOffset` never advances.
   */
  lemma NonPositiveLimitStalls<T>(filtered: seq<T>, offset: int, limit: int)
    requires 0 <= offset < |filtered|
    requires limit <= 0 && 0 <= offset + limit
    ensures Paginate(filtered, offset, limit) == Page([], Some(offset))
  {
  }

  /**
   * With any limit of 0 or less, at an offset where items remain, a next
   * offset is always offered and stays inside the list, so a caller that
   * follows `nextOffset` never finishes. When `offset + limit < 0` the end
   * index counts back from the end of the list and the page is not empty.
   */
  lemma NonPositiveLimitNeverEnds<T>(filtered: seq<T>, offset: int, limit: int)
    requires 0 <= offset < |filtered| && limit <= 0
    ensures Paginate(filtered, offset, limit).nextOffset.Some?
    ensures Paginate(filtered, offset, limit).nextOffset.value < |filtered|
    ensures offset + limit < 0 ==>
              Paginate(filtered, offset, limit).items == filtered[offset..Max(|filtered| + offset + limit, offset)]
  {
  }

  /**
   * The pages a caller collects by starting at `offset` and following
   * `nextOffset` until it is absent. The walk ends only for a positive
   * limit; for any other it stalls, as NonPositiveLimitStalls shows.
   */
  function PagesFrom<T>(filtered: seq<T>, offset: nat, limit: int): (pages: seq<seq<T>>)
    requires 0 < limit
    decreases |filtered| - offset
  {
    var page := Paginate(filtered, offset, limit);
    match page.nextOffset
    case None => [page.items]
    case Some(next) => [page.items] + PagesFrom(filtered, next, limit)
  }

  function Flatten<T>(pages: seq<seq<T>>): seq<T>
  {
    if pages == [] then [] else pages[0] + Flatten(pages[1..])
  }

  /** Following `nextOffset` from `offset` visits every remaining item once, in order. */
  lemma {:induction false} PagesCover<T>(filtered: seq<T>, offset: nat, limit: int)
    requires 0 < limit && offset <= |filtered|
    ensures Flatten(PagesFrom(filtered, offset, limit)) == filtered[offset..]
    decreases |filtered| - offset
  {
    var page := Paginate(filtered, offset, limit);
    var pages := PagesFrom(filtered, offset, limit);
    match page.nextOffset
    case None =>
      assert pages == [page.items];
      assert Flatten(pages) == page.items + Flatten([]);
    case Some(next) =>
      PagesCover(filtered, next, limit);
      assert pages[1..] == PagesFrom(filtered, next, limit);
      assert filtered[offset..] == filtered[offset..next] + filtered[next..];
  }

  /** Every collected page holds at most `limit` items. */
  lemma {:induction false} PagesBounded<T>(filtered: seq<T>, offset: nat, limit: int)
    requires 0 < limit
    ensures forall i :: 0 <= i < |PagesFrom(filtered, offset, limit)| ==>
              |PagesFrom(filtered, offset, limit)[i]| <= limit
    decreases |filtered| - offset
  {
    var page := Paginate(filtered, offset, limit);
    match page.nextOffset
    case None =>
    case Some(next) =>
      PagesBounded(filtered, next, limit);
  }
}
