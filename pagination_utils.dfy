/** Page state derived from a paginated envelope, and the page-button window. */
module PaginationUtils {
  import opened Wrappers
  import opened JsValues
  import opened Numeric
  import opened ApiTypes
  import FilterUtils

  datatype PaginationInfo = PaginationInfo(
    currentPage: int,
    totalPages: int,
    totalItems: int,
    hasNextPage: bool,
    hasPrevPage: bool,
    pageSize: int)

  /** The default of `extractPaginationInfo`'s `defaultPageSize`, which no caller overrides. */
  const DefaultPageSize := 10

  /** The page number `extractPaginationInfo` reads off the `previous` link. */
  function CurrentPageOf(previous: Option<PageUrl>): int
    requires previous != Some(Unparsable)
  {
    match previous
    case None => 1
    case Some(ParsedUrl(None)) => 2
    case Some(ParsedUrl(Some(p))) => p + 1
  }

  /**
   * `extractPaginationInfo(response)`. `None` is the `TypeError` that
   * `new URL` throws for an unparsable `previous` link.
   */
  function ExtractPaginationInfo<T>(response: PaginatedResponse<T>): (r: Option<PaginationInfo>)
    ensures r.None? <==> response.previous == Some(Unparsable)
    ensures r.Some? ==>
      && r.value.currentPage == CurrentPageOf(response.previous)
      && r.value.pageSize == (if |response.results| > 0 then |response.results| else DefaultPageSize)
      && r.value.pageSize > 0
      && (r.value.totalPages - 1) * r.value.pageSize < response.count <= r.value.totalPages * r.value.pageSize
      && r.value.totalItems == response.count
      && (r.value.hasNextPage <==> response.next.Some?)
      && (r.value.hasPrevPage <==> response.previous.Some?)
  {
    if response.previous == Some(Unparsable) then None
    else
      var pageSize := if |response.results| > 0 then |response.results| else DefaultPageSize;
      Some(PaginationInfo(
        CurrentPageOf(response.previous),
        CeilDiv(response.count, pageSize),
        response.count,
        response.next.Some?,
        response.previous.Some?,
        pageSize))
  }

  /** `Array.from({length: last - first + 1}, (_, i) => first + i)`; a negative length is 0. */
  function Range(first: int, last: int): (r: seq<int>)
    ensures |r| == Max(last - first + 1, 0)
    ensures forall i :: 0 <= i < |r| ==> r[i] == first + i
  {
    seq(Max(last - first + 1, 0), i => first + i)
  }

  /** `generatePageNumbers(currentPage, totalPages, maxPageButtons)`. */
  function GeneratePageNumbers(currentPage: int, totalPages: int, maxPageButtons: int): (r: seq<int>)
    // Few pages: all of them, 1 to totalPages (none for 0 pages).
    ensures totalPages <= maxPageButtons ==>
      |r| == Max(totalPages, 0) && forall i :: 0 <= i < |r| ==> r[i] == i + 1
    // Many pages: a window of exactly maxPageButtons consecutive pages inside 1..totalPages.
    ensures maxPageButtons >= 1 && totalPages > maxPageButtons ==>
      && |r| == maxPageButtons
      && (forall i :: 0 <= i < |r| ==> 1 <= r[i] <= totalPages)
      && (forall i :: 0 < i < |r| ==> r[i] == r[i - 1] + 1)
    // The window always shows the current page.
    ensures maxPageButtons >= 1 && 1 <= currentPage <= totalPages ==> currentPage in r
  {
    if totalPages <= maxPageButtons then
      var r := Range(1, totalPages);
      assert 1 <= currentPage <= totalPages ==> r[currentPage - 1] == currentPage;
      r
    else
      var half := maxPageButtons / 2;
      var start := Max(currentPage - half, 1);
      var end := start + maxPageButtons - 1;
      if end > totalPages then
        var r := Range(Max(totalPages - maxPageButtons + 1, 1), totalPages);
        assert maxPageButtons >= 1 && 1 <= currentPage <= totalPages ==>
          r[currentPage - (totalPages - maxPageButtons + 1)] == currentPage;
        r
      else
        var r := Range(start, end);
        assert maxPageButtons >= 1 && 1 <= currentPage <= totalPages ==> r[currentPage - start] == currentPage;
        r
  }

  /** `getPageFromUrl(url)`: the link's page parameter, else 1. */
  function GetPageFromUrl(url: Option<PageUrl>): (page: int)
    ensures (url.Some? && url.value.ParsedUrl? && url.value.page.Some?) ==> page == url.value.page.value
    ensures url.None? || url == Some(Unparsable) || url == Some(ParsedUrl(None)) ==> page == 1
  {
    match url
    case None => 1
    case Some(Unparsable) => 1
    case Some(ParsedUrl(None)) => 1
    case Some(ParsedUrl(Some(p))) => p
  }

  /** The page after the `previous` link's page is the current one, whenever the envelope has a usable page link. */
  lemma CurrentPageFollowsPrevious<T>(response: PaginatedResponse<T>)
    requires response.previous.Some? && response.previous.value.ParsedUrl? && response.previous.value.page.Some?
    ensures ExtractPaginationInfo(response).Some?
    ensures ExtractPaginationInfo(response).value.currentPage == GetPageFromUrl(response.previous) + 1
  {
  }

  /** `createPaginationParams(page, otherParams)`. */
  function CreatePaginationParams(page: int, otherParams: map<string, JsValue>): (r: map<string, JsValue>)
    ensures forall k :: k != "page" ==> (k in r <==> k in otherParams)
    ensures forall k :: k != "page" && k in otherParams ==> r[k] == otherParams[k]
    ensures "page" in r && r["page"] == (if page > 1 then Num(page) else Undefined)
  {
    otherParams["page" := if page > 1 then Num(page) else Undefined]
  }

  /** Once empty values are dropped, the parameters carry `page` exactly when it is past the first page. */
  lemma PageParamSentOnlyPastFirst(page: int, otherParams: map<string, JsValue>)
    ensures "page" in FilterUtils.RemoveEmptyValues(CreatePaginationParams(page, otherParams)) <==> page > 1
  {
  }
}
