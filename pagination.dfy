/**
 * The shared pager component: the number of pages, the range of items the
 * current page shows ("items `start` to `end` of `total`"), and the guards on
 * its two buttons, which report the page to change to.
 */
module Pagination {
  import opened Wrappers
  import opened Numeric
  import opened Paging

  datatype PagerView = PagerView(totalPages: int, startItem: int, endItem: int, previousDisabled: bool, nextDisabled: bool)

  /** What the component shows for the current page, the item count and a positive page size. */
  function View(current: int, total: int, pageSize: int): (v: PagerView)
    requires pageSize > 0
    ensures (v.totalPages - 1) * pageSize < total <= v.totalPages * pageSize
    ensures v.startItem == Offset(current, pageSize) + 1
    ensures v.endItem <= total && v.endItem <= current * pageSize
    ensures v.endItem == total || v.endItem == current * pageSize
    ensures v.previousDisabled <==> current <= 1
    ensures v.nextDisabled <==> current >= v.totalPages
  {
    PagerView(CeilDiv(total, pageSize), Offset(current, pageSize) + 1, Min(current * pageSize, total),
              current <= 1, current >= CeilDiv(total, pageSize))
  }

  /**
   * On an existing page of a non-empty list the range is not empty, holds at
   * most one page of items, and is full on every page but the last.
   */
  lemma RangeOnAPage(current: int, total: int, pageSize: int)
    requires pageSize > 0 && total > 0
    requires 1 <= current <= CeilDiv(total, pageSize)
    ensures var v := View(current, total, pageSize);
      1 <= v.startItem <= v.endItem &&
      v.endItem - v.startItem + 1 <= pageSize &&
      (current < v.totalPages ==> v.endItem - v.startItem + 1 == pageSize) &&
      (current == v.totalPages ==> v.endItem == total)
  {
    var v := View(current, total, pageSize);
    var n := CeilDiv(total, pageSize);
    MulMonotone(1, current, pageSize);
    MulMonotone(current - 1, n - 1, pageSize);
    assert Offset(current, pageSize) == current * pageSize - pageSize;
    if current < n {
      MulMonotone(current, n - 1, pageSize);
    }
  }

  /** Item `k` (counting from one) is in the range of page `(k - 1) / pageSize + 1`. */
  lemma EveryItemInARange(total: int, pageSize: int, k: int)
    requires pageSize > 0 && 1 <= k <= total
    ensures var v := View((k - 1) / pageSize + 1, total, pageSize);
      v.startItem <= k <= v.endItem
  {
    var p := (k - 1) / pageSize + 1;
    FloorBounds(k - 1, pageSize);
    assert Offset(p, pageSize) == ((k - 1) / pageSize) * pageSize;
    assert p * pageSize == ((k - 1) / pageSize) * pageSize + pageSize;
  }

  /** The previous button: the page before, unless the button is disabled. */
  function PreviousClick(current: int, total: int, pageSize: int): (target: Option<int>)
    requires pageSize > 0
    ensures target.None? <==> View(current, total, pageSize).previousDisabled
    ensures target.Some? ==> target.value == current - 1 && target.value >= 1
  {
    if current <= 1 then None else Some(current - 1)
  }

  /** The next button: the page after, unless the button is disabled. */
  function NextClick(current: int, total: int, pageSize: int): (target: Option<int>)
    requires pageSize > 0
    ensures target.None? <==> View(current, total, pageSize).nextDisabled
    ensures target.Some? ==> target.value == current + 1 && target.value <= View(current, total, pageSize).totalPages
  {
    if current >= CeilDiv(total, pageSize) then None else Some(current + 1)
  }
}
