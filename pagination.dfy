/**
 * The pagination bar of the user list: the window of page buttons, the
 * targets of the previous/next buttons, when they are disabled and when the
 * bar is shown at all.
 */
module Pagination {

  /** At most this many page buttons are shown. */
  const MaxPagesToShow := 5

  function Max(a: int, b: int): int { if a < b then b else a }

  function Min(a: int, b: int): int { if a < b then a else b }

  /** The integers `lo`, `lo + 1`, ..., `hi` (empty when `hi < lo`). */
  function Range(lo: int, hi: int): (r: seq<int>)
    ensures |r| == if lo <= hi then hi - lo + 1 else 0
    ensures forall i | 0 <= i < |r| :: r[i] == lo + i
  {
    seq(if lo <= hi then hi - lo + 1 else 0, i => lo + i)
  }

  /** The first page button: two before the current page, pulled back when the window hits the last page. */
  function WindowStart(currentPage: int, totalPages: int): int {
    var start := Max(1, currentPage - MaxPagesToShow / 2);
    var end := Min(totalPages, start + MaxPagesToShow - 1);
    if end - start + 1 < MaxPagesToShow then Max(1, end - MaxPagesToShow + 1) else start
  }

  /** The last page button, computed from the start before it is pulled back. */
  function WindowEnd(currentPage: int, totalPages: int): int {
    var start := Max(1, currentPage - MaxPagesToShow / 2);
    Min(totalPages, start + MaxPagesToShow - 1)
  }

  /**
   * The page buttons shown. Whatever the inputs, they are consecutive pages
   * within `[1, totalPages]`; for a current page in range there are exactly
   * `min(5, totalPages)` of them, the current page among them, and it sits in
   * the middle whenever two pages exist on each side of it. Near either end
   * the window is pushed inward so that it stays five wide: from the first
   * page on pages 1 and 2, up to the last page on the last two.
   */
  function PageWindow(currentPage: int, totalPages: int): (w: seq<int>)
    ensures forall i | 0 <= i < |w| :: 1 <= w[i] <= totalPages
    ensures forall i | 0 < i < |w| :: w[i] == w[i - 1] + 1
    ensures 1 <= currentPage <= totalPages ==> |w| == Min(MaxPagesToShow, totalPages)
    ensures 1 <= currentPage <= totalPages ==> currentPage in w
    ensures 3 <= currentPage <= totalPages - 2 ==> |w| == 5 && w[2] == currentPage
    ensures totalPages <= MaxPagesToShow ==> w == Range(1, totalPages)
    ensures 1 <= currentPage <= totalPages ==>
      w == Range(Max(1, Min(currentPage - 2, totalPages - 4)), Min(totalPages, Max(currentPage + 2, 5)))
  {
    var w := Range(WindowStart(currentPage, totalPages), WindowEnd(currentPage, totalPages));
    assert 1 <= currentPage <= totalPages ==> w[currentPage - WindowStart(currentPage, totalPages)] == currentPage;
    w
  }

  /** `getPageNumbers`: fills the window by pushing each page from the start to the end. */
  method GetPageNumbers(currentPage: int, totalPages: int) returns (pageNumbers: seq<int>)
    ensures pageNumbers == PageWindow(currentPage, totalPages)
  {
    pageNumbers := [];
    var startPage := Max(1, currentPage - MaxPagesToShow / 2);
    var endPage := Min(totalPages, startPage + MaxPagesToShow - 1);
    if endPage - startPage + 1 < MaxPagesToShow {
      startPage := Max(1, endPage - MaxPagesToShow + 1);
    }
    var i := startPage;
    while i <= endPage
      invariant startPage <= i <= Max(startPage, endPage + 1)
      invariant pageNumbers == Range(startPage, i - 1)
    {
      pageNumbers := pageNumbers + [i];
      i := i + 1;
    }
  }

  /** The previous button's target stays in range, and equals the current page only on page 1. */
  function PrevTarget(currentPage: int, totalPages: int): (p: int)
    ensures 1 <= currentPage <= totalPages ==> 1 <= p <= totalPages
    ensures 1 <= currentPage ==> (p == currentPage <==> currentPage == 1)
  {
    Max(1, currentPage - 1)
  }

  /** The next button's target stays in range, and equals the current page only on the last page. */
  function NextTarget(currentPage: int, totalPages: int): (p: int)
    ensures 1 <= currentPage <= totalPages ==> 1 <= p <= totalPages
    ensures currentPage <= totalPages ==> (p == currentPage <==> currentPage == totalPages)
  {
    Min(totalPages, currentPage + 1)
  }

  predicate PrevDisabled(currentPage: int) { currentPage == 1 }

  predicate NextDisabled(currentPage: int, totalPages: int) { currentPage == totalPages }

  /** The bar is rendered only when there is more than one page. */
  predicate IsRendered(totalPages: int) { totalPages > 1 }

  /**
   * A button is disabled exactly when its target is the page already shown,
   * and on a rendered bar at most one of the two is disabled.
   */
  lemma DisabledExactlyWhenTargetIsCurrent(currentPage: int, totalPages: int)
    ensures PrevDisabled(currentPage) <==> PrevTarget(currentPage, totalPages) == currentPage
    ensures NextDisabled(currentPage, totalPages) <==> NextTarget(currentPage, totalPages) == currentPage
    ensures IsRendered(totalPages) ==> !(PrevDisabled(currentPage) && NextDisabled(currentPage, totalPages))
  {
  }
}
