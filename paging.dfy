/** Per-dataset pagination bookkeeping. */
module Paging {
  import opened Values

  datatype Pagination = Pagination(
    currentPage: int,
    totalPages: int,
    totalItems: int,
    pageSize: int,
    hasMore: bool)

  const DefaultPageSize := 100

  /** The invariant every pagination record keeps. */
  predicate Consistent(p: Pagination) {
    p.hasMore == (p.currentPage < p.totalPages)
  }

  /** The pagination of an empty store: page 1 of 0, nothing more. */
  function InitialPagination(): (p: Pagination)
    ensures Consistent(p)
    ensures p.currentPage == 1 && p.totalPages == 0 && !p.hasMore
    ensures p.pageSize == DefaultPageSize && p.totalItems == 0
  {
    Pagination(1, 0, 0, DefaultPageSize, false)
  }

  /** The pagination after a fetch: page 1 of `pages || 1`, `total || count`
      items, the page size the request used, and `hasMore: 1 < (pages || 1)`. */
  function AfterFetch(pages: Option<int>, total: Option<int>, count: nat, pageSize: int): (p: Pagination)
    ensures Consistent(p)
    ensures p.currentPage == 1 && p.pageSize == pageSize
    ensures p.totalPages == IntOr(pages, 1) && p.totalPages != 0
    ensures p.totalItems == IntOr(total, count)
    ensures p.hasMore <==> pages.Some? && pages.value > 1
  {
    Pagination(1, IntOr(pages, 1), IntOr(total, count), pageSize, 1 < IntOr(pages, 1))
  }
}
