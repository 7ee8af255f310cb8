/** The pagination arithmetic the order, delivered-order and customer lists
    share: ten rows a page, a "previous" that stops at page 1, and the
    "Showing x to y" range. */
module Paging {

  /** Rows the list screens request per page. */
  const PageSize: nat := 10

  /** `Math.max(1, p - 1)`: the page "previous" moves to. */
  function StepBack(page: int): (r: int)
    ensures r >= 1
    ensures page > 1 ==> r == page - 1
    ensures page <= 1 ==> r == 1
  {
    if page - 1 > 1 then page - 1 else 1
  }

  /** `(page - 1) * 10 + 1`: the first row number shown. */
  function FirstShown(page: int): (r: int)
    ensures page >= 1 ==> r >= 1 && (r - 1) % PageSize == 0
  {
    (page - 1) * PageSize + 1
  }

  /** `Math.min(page * 10, total)`: the last row number shown. */
  function LastShown(page: int, total: int): (r: int)
    ensures r <= total && r <= page * PageSize
    ensures r == total || r == page * PageSize
  {
    if page * PageSize < total then page * PageSize else total
  }

  /** On a page that has rows, the range is a non-empty window of at most ten
      rows inside `1..total`; past the last row it is empty (it ends before
      it starts). */
  lemma ShownRange(page: int, total: int)
    requires page >= 1 && total >= 0
    ensures LastShown(page, total) - FirstShown(page) + 1 <= PageSize
    ensures (page - 1) * PageSize < total ==>
      1 <= FirstShown(page) <= LastShown(page, total) <= total
    ensures (page - 1) * PageSize >= total ==> LastShown(page, total) < FirstShown(page)
  {
  }
}
