/**
 * Offset pagination shared by the four list adapters (makes, models,
 * series, bodies): a 1-based `pageParam` and a page size `limit` become a
 * zero-based `offset`, and the response's count decides whether there is a
 * next page. Failures of any kind collapse to an empty listing.
 */
module Pagination {
  import opened Wrappers
  import opened Envelope

  const DefaultPageParam: int := 1
  const DefaultLimit: int := 100

  /** `offset = (pageParam - 1) * limit`. */
  function Offset(pageParam: int, limit: int): int
  {
    (pageParam - 1) * limit
  }

  /**
   * `count > offset + limit ? pageParam + 1 : null`: there is a next page
   * exactly when the page after this one starts before the end of the
   * collection, and the cursor then names that page.
   */
  function NextPage(count: int, pageParam: int, limit: int): (next: Option<int>)
    ensures next.Some? <==> Offset(pageParam + 1, limit) < count
    ensures next.Some? ==> next.value == pageParam + 1
  {
    assert Offset(pageParam, limit) + limit == Offset(pageParam + 1, limit) by {
      assert (pageParam - 1) * limit + limit == pageParam * limit;
    }
    if count > Offset(pageParam, limit) + limit then Some(pageParam + 1) else None
  }

  /** What a list adapter returns: the entities, the count and the next-page cursor. */
  datatype Listing<T> = Listing(items: seq<T>, count: int, nextPage: Option<int>)

  /** A list adapter's call: the request it sends and the listing it returns. */
  datatype Exchange<T> = Exchange(request: Request, listing: Listing<T>)

  /** The fixed result of a failed list request. */
  function EmptyListing<T>(): Listing<T>
  {
    Listing([], 0, None)
  }

  /**
   * The body of a list adapter after the request: normalise the response
   * and compute the cursor; a thrown error (from the request or from the
   * normaliser) gives the empty listing.
   */
  function ListPage<T>(outcome: Outcome<T>, pageParam: int, limit: int): (l: Listing<T>)
    ensures outcome.Failed? || outcome.response.NullBody? ==> l == EmptyListing()
    ensures outcome.Received? && !outcome.response.NullBody? ==>
              Normalise(outcome.response) == Some(Page(l.items, l.count)) &&
              (l.nextPage.Some? <==> Offset(pageParam + 1, limit) < l.count)
    ensures l.nextPage.Some? ==> l.nextPage.value == pageParam + 1
  {
    if outcome.Failed? then EmptyListing()
    else
      match Normalise(outcome.response)
      case None => EmptyListing()
      case Some(page) => Listing(page.items, page.count, NextPage(page.count, pageParam, limit))
  }

  /**
   * The pages a caller visits by starting at `page` and following the
   * `nextPage` cursor while the count stays `count`.
   */
  function PagesFrom(count: int, limit: int, page: int): (pages: seq<int>)
    requires limit > 0
    decreases if count > Offset(page, limit) then count - Offset(page, limit) else 0
  {
    match NextPage(count, page, limit)
    case None => [page]
    case Some(next) =>
      assert Offset(next, limit) == Offset(page, limit) + limit by {
        assert (page - 1) * limit + limit == page * limit;
      }
      [page] + PagesFrom(count, limit, next)
  }

  /**
   * Following the cursor from `page` visits consecutive pages, every page
   * after the first starts before the end of the collection, and the last
   * page reaches the end (it may stop short of a full page or run past it).
   */
  lemma {:induction false} CursorCoversCollection(count: int, limit: int, page: int)
    requires limit > 0
    ensures var pages := PagesFrom(count, limit, page);
            |pages| > 0 &&
            (forall i :: 0 <= i < |pages| ==> pages[i] == page + i) &&
            (forall i :: 0 < i < |pages| ==> Offset(pages[i], limit) < count) &&
            count <= Offset(page + |pages|, limit)
    decreases if count > Offset(page, limit) then count - Offset(page, limit) else 0
  {
    var pages := PagesFrom(count, limit, page);
    match NextPage(count, page, limit)
    case None =>
      assert pages == [page];
    case Some(next) =>
      assert Offset(next, limit) == Offset(page, limit) + limit by {
        assert (page - 1) * limit + limit == page * limit;
      }
      CursorCoversCollection(count, limit, next);
      var rest := PagesFrom(count, limit, next);
      assert pages == [page] + rest;
      assert page + |pages| == next + |rest|;
      forall i | 0 < i < |pages|
        ensures Offset(pages[i], limit) < count
      {
        assert pages[i] == rest[i - 1];
      }
  }

  /** With the default paging (page 1 of 100) a count of at most 100 has no next page. */
  lemma DefaultPagingSinglePage(count: int)
    requires count <= DefaultLimit
    ensures Offset(DefaultPageParam, DefaultLimit) == 0
    ensures NextPage(count, DefaultPageParam, DefaultLimit) == None
  {
  }
}
