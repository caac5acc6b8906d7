/**
 * The pagination manager: a record of pagination state and an append-only list
 * of items, with a guard that admits one request at a time and a completion
 * handler that merges a page. There is no total-page bound: `hasMorePages` is
 * only ever set to true, and `pageSize` is stored but never read.
 */
module Pagination {
  import opened Wrappers
  import opened APIAgent
  import Endpoint

  datatype PaginationState = PaginationState(currentPage: int, isLoading: bool, hasMorePages: bool, itemCount: int)

  /** The state after construction and after every reset. */
  const Initial: PaginationState := PaginationState(1, false, true, 0)

  /** The state once a request has been admitted. */
  function Started(s: PaginationState): PaginationState {
    s.(isLoading := true)
  }

  /** Whether a page outcome carries a page to merge. */
  predicate HasPage<T>(result: CustomResult<seq<T>>) {
    result.Success? && result.value.Some?
  }

  /** The state after the completion handler ran on `result`. */
  function SettledState<T>(s: PaginationState, result: CustomResult<seq<T>>): PaginationState {
    if HasPage(result) then
      var page := result.value.value;
      s.(isLoading := false, itemCount := s.itemCount + |page|, currentPage := s.currentPage + 1, hasMorePages := true)
    else
      s.(isLoading := false)
  }

  /** The accumulated items after the completion handler ran on `result`. */
  function SettledItems<T>(items: seq<T>, result: CustomResult<seq<T>>): seq<T> {
    if HasPage(result) then items + result.value.value else items
  }

  /** The merged pages after the completion handler ran on `result`. */
  function SettledPages<T>(pages: seq<seq<T>>, result: CustomResult<seq<T>>): seq<seq<T>> {
    if HasPage(result) then pages + [result.value.value] else pages
  }

  /** What the caller's completion receives (`None`: it is not invoked), given the items after the merge. */
  function Delivered<T>(items: seq<T>, result: CustomResult<seq<T>>): Option<Result<seq<T>, ErrorResponse>> {
    match result
    case Success(Some(_)) => Some(Success(items))
    case Success(None) => None
    case Failure(error) => Some(Failure(error))
  }

  /**
   * A page is appended in server order, counted, advances the page number,
   * keeps more pages on offer and goes to the caller with the whole list.
   */
  lemma SettleWithPage<T>(s: PaginationState, items: seq<T>, page: seq<T>)
    ensures var r: CustomResult<seq<T>> := Success(Some(page));
      && SettledItems(items, r) == items + page
      && SettledState(s, r) == PaginationState(s.currentPage + 1, false, true, s.itemCount + |page|)
      && Delivered(SettledItems(items, r), r) == Some(Success(items + page))
  {
  }

  /** A failure only clears `isLoading`, and the caller receives the error. */
  lemma SettleWithFailure<T>(s: PaginationState, items: seq<T>, error: ErrorResponse)
    ensures var r: CustomResult<seq<T>> := Failure(error);
      && SettledItems(items, r) == items
      && SettledState(s, r) == PaginationState(s.currentPage, false, s.hasMorePages, s.itemCount)
      && Delivered(items, r) == Some(Failure(error))
  {
  }

  /** A success without a payload only clears `isLoading`, and the caller hears nothing. */
  lemma SettleWithoutPayload<T>(s: PaginationState, items: seq<T>)
    ensures var r: CustomResult<seq<T>> := Success(None);
      && SettledItems(items, r) == items
      && SettledState(s, r) == PaginationState(s.currentPage, false, s.hasMorePages, s.itemCount)
      && Delivered(items, r) == None
  {
  }

  /** A failed or empty load leaves the page number where it was, so retrying asks for the same page. */
  lemma RetryAsksSamePage<T>(s: PaginationState, result: CustomResult<seq<T>>)
    requires !HasPage(result)
    ensures SettledState(Started(s), result).currentPage == s.currentPage
    ensures !SettledState(Started(s), result).isLoading
  {
  }

  /** All merged pages, one after the other. */
  function Flatten<T>(pages: seq<seq<T>>): seq<T> {
    if pages == [] then [] else Flatten(pages[..|pages| - 1]) + pages[|pages| - 1]
  }

  /** The sum of the page lengths. */
  function TotalLength<T>(pages: seq<seq<T>>): nat {
    if pages == [] then 0 else TotalLength(pages[..|pages| - 1]) + |pages[|pages| - 1]|
  }

  /** The accumulated list is as long as all merged pages together. */
  lemma {:induction false} FlattenLength<T>(pages: seq<seq<T>>)
    ensures |Flatten(pages)| == TotalLength(pages)
    decreases |pages|
  {
    if pages != [] {
      FlattenLength(pages[..|pages| - 1]);
    }
  }

  /** Merging pages in two runs accumulates what merging them in one run does. */
  lemma {:induction false} FlattenConcat<T>(ps: seq<seq<T>>, qs: seq<seq<T>>)
    ensures Flatten(ps + qs) == Flatten(ps) + Flatten(qs)
    decreases |qs|
  {
    if qs == [] {
      assert ps + qs == ps;
    } else {
      var qs', last := qs[..|qs| - 1], qs[|qs| - 1];
      assert qs == qs' + [last];
      assert ps + qs == (ps + qs') + [last];
      FlattenSnoc(ps + qs', last);
      FlattenSnoc(qs', last);
      FlattenConcat(ps, qs');
    }
  }

  /** Merging one more page appends it after everything accumulated so far. */
  lemma FlattenSnoc<T>(pages: seq<seq<T>>, page: seq<T>)
    ensures Flatten(pages + [page]) == Flatten(pages) + page
  {
    assert (pages + [page])[..|pages|] == pages;
  }

  class PaginationManager<T> {
    var state: PaginationState
    const pageSize: int
    var items: seq<T>
    /** The pages merged since the last reset, in arrival order. */
    ghost var pages: seq<seq<T>>

    /**
     * `itemCount` counts the accumulated items, the items are the merged pages
     * in order, `currentPage` is one more than the number of merges, and
     * `hasMorePages` is always true.
     */
    ghost predicate Valid()
      reads this
    {
      && state.itemCount == |items|
      && items == Flatten(pages)
      && state.currentPage == 1 + |pages|
      && state.hasMorePages
    }

    constructor (pageSize: int)
      ensures Valid()
      ensures state == Initial && items == [] && pages == [] && this.pageSize == pageSize
    {
      state := Initial;
      this.pageSize := pageSize;
      items := [];
      pages := [];
    }

    /** The accumulated items: every merged page in order, `itemCount` of them. */
    function CurrentItems(): (r: seq<T>)
      reads this
      requires Valid()
      ensures r == Flatten(pages)
      ensures |r| == state.itemCount == TotalLength(pages)
    {
      FlattenLength(pages);
      items
    }

    /** Whether a request may start: since `hasMorePages` is always true, exactly when none is in flight. */
    function CanLoadMore(): (r: bool)
      reads this
      requires Valid()
      ensures r <==> !state.isLoading
    {
      state.hasMorePages && !state.isLoading
    }

    /** Back to the initial state with no items, whatever the current state. */
    method Reset()
      modifies this
      ensures Valid()
      ensures state == Initial && items == [] && pages == []
    {
      state := Initial;
      items := [];
      pages := [];
    }

    /**
     * Starts loading the current page. When the guard refuses, nothing changes
     * and no request is made; otherwise the manager is loading and `request`
     * is the endpoint the factory builds for the current page.
     */
    method LoadNextPage(apiCall: int -> Endpoint.EndPoint) returns (request: Option<Endpoint.EndPoint>)
      requires Valid()
      modifies this
      ensures Valid()
      ensures request.Some? <==> !old(state.isLoading)
      ensures request.Some? ==> request.value == apiCall(old(state.currentPage))
      ensures state == if request.Some? then Started(old(state)) else old(state)
      ensures items == old(items) && pages == old(pages)
    {
      if !CanLoadMore() {
        return None;
      }
      state := state.(isLoading := true);
      request := Some(apiCall(state.currentPage));
    }

    /**
     * The completion handler for the page outcome `result`. `delivered` is what
     * the caller's completion receives, `None` when it is not invoked.
     */
    method Complete(result: CustomResult<seq<T>>) returns (delivered: Option<Result<seq<T>, ErrorResponse>>)
      requires Valid()
      modifies this
      ensures Valid()
      ensures state == SettledState(old(state), result)
      ensures items == SettledItems(old(items), result)
      ensures pages == SettledPages(old(pages), result)
      ensures delivered == Delivered(items, result)
    {
      state := state.(isLoading := false);
      match result {
        case Success(newItems) =>
          if newItems.Some? {
            var page := newItems.value;
            FlattenSnoc(pages, page);
            items := items + page;
            pages := pages + [page];
            state := state.(itemCount := state.itemCount + |page|);
            state := state.(currentPage := state.currentPage + 1);
            state := state.(hasMorePages := true);
            delivered := Some(Success(items));
          } else {
            delivered := None;
          }
        case Failure(error) =>
          delivered := Some(Failure(error));
      }
    }
  }
}
