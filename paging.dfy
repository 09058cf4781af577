/**
 * The page arithmetic the list handlers share: the offset of a page, the
 * number of pages, and the rows GORM's `Offset(..).Limit(..)` returns.
 */
module Paging {
  import opened Wrappers
  import opened Numeric

  function Min(a: int, b: int): int { if a <= b then a else b }

  /** `(page - 1) * pageSize`. */
  function Offset(page: int, pageSize: int): int {
    (page - 1) * pageSize
  }

  /**
   * The message of Go's run-time panic on an integer division by zero. No
   * middleware of the server recovers from it, so it ends the whole server
   * process, not only the request.
   */
  const DivideByZero := "runtime error: integer divide by zero"

  /**
   * `(total + pageSize - 1) / pageSize` on Go integers, which truncates; for a
   * positive page size and a non-negative total that is the ceiling of the
   * quotient. A zero page size (`page_size=0` reads as 0) panics.
   */
  function TotalPages(total: int, pageSize: int): (n: Result<int, string>)
    ensures n.Err? <==> pageSize == 0
    ensures n.Err? ==> n.error == DivideByZero
    ensures pageSize > 0 && total >= 0 ==> n == Ok(CeilDiv(total, pageSize))
  {
    if pageSize == 0 then Err(DivideByZero)
    else
      var n := TruncDiv(total + pageSize - 1, pageSize);
      if pageSize > 0 && total >= 0 then
        assert n * pageSize <= total + pageSize - 1 < (n + 1) * pageSize;
        assert (n - 1) * pageSize < total <= n * pageSize;
        CeilUnique(total, pageSize, n, CeilDiv(total, pageSize));
        Ok(n)
      else Ok(n)
  }

  /** Multiplying by a positive number keeps the order. */
  lemma MulMonotone(x: int, y: int, b: int)
    requires x <= y && b > 0
    ensures x * b <= y * b
  {
    var d := y - x;
    assert d * b >= 0;
    assert y * b == x * b + d * b;
  }

  /** Two numbers that both bracket `a` the way a ceiling does are equal. */
  lemma CeilUnique(a: int, b: int, q1: int, q2: int)
    requires b > 0
    requires (q1 - 1) * b < a <= q1 * b
    requires (q2 - 1) * b < a <= q2 * b
    ensures q1 == q2
  {
    if q1 < q2 {
      MulMonotone(q1, q2 - 1, b);
    } else if q2 < q1 {
      MulMonotone(q2, q1 - 1, b);
    }
  }

  /**
   * The rows of a query with `Offset(offset).Limit(limit)`: GORM writes an
   * OFFSET only when it is positive and a LIMIT only when it is not negative.
   */
  function Window<T>(rows: seq<T>, offset: int, limit: int): seq<T> {
    var start := if offset > 0 then Min(offset, |rows|) else 0;
    var stop := if limit >= 0 then Min(|rows|, start + limit) else |rows|;
    rows[start..stop]
  }

  /** Page `page` holds the rows from its offset on, at most `pageSize` of them. */
  lemma PageContents<T>(rows: seq<T>, page: int, pageSize: int)
    requires page >= 1 && pageSize > 0
    ensures var w := Window(rows, Offset(page, pageSize), pageSize);
      var o := Offset(page, pageSize);
      |w| == (if |rows| <= o then 0 else Min(pageSize, |rows| - o)) &&
      forall i :: 0 <= i < |w| ==> w[i] == rows[o + i]
  {
    MulMonotone(0, page - 1, pageSize);
  }

  /** `w` is page `page` of `rows`: the rows from the page's offset on, at most `pageSize` of them. */
  predicate IsPage<T(==)>(w: seq<T>, rows: seq<T>, page: int, pageSize: int) {
    var o := Offset(page, pageSize);
    |w| == (if |rows| <= o then 0 else Min(pageSize, |rows| - o)) &&
    forall i :: 0 <= i < |w| ==> 0 <= o + i < |rows| && w[i] == rows[o + i]
  }

  /** For a valid page number and size, the window of the query is that page. */
  lemma WindowIsPage<T>(rows: seq<T>, page: int, pageSize: int)
    ensures page >= 1 && pageSize > 0 ==> IsPage(Window(rows, Offset(page, pageSize), pageSize), rows, page, pageSize)
  {
    if page >= 1 && pageSize > 0 {
      PageContents(rows, page, pageSize);
    }
  }

  /** A page has rows exactly when its number is at most the number of pages. */
  lemma PageNonEmptyIff<T>(rows: seq<T>, page: int, pageSize: int)
    requires page >= 1 && pageSize > 0
    ensures Window(rows, Offset(page, pageSize), pageSize) != [] <==> page <= TotalPages(|rows|, pageSize).value
  {
    PageContents(rows, page, pageSize);
    var n := TotalPages(|rows|, pageSize).value;
    assert (n - 1) * pageSize < |rows| <= n * pageSize;
    if page <= n {
      MulMonotone(page - 1, n - 1, pageSize);
    } else {
      MulMonotone(n, page - 1, pageSize);
    }
  }

  /** Row `k` is found on page `k / pageSize + 1`, at position `k % pageSize`. */
  lemma EveryRowOnItsPage<T>(rows: seq<T>, pageSize: int, k: int)
    requires pageSize > 0 && 0 <= k < |rows|
    ensures var page := k / pageSize + 1;
      var w := Window(rows, Offset(page, pageSize), pageSize);
      k % pageSize < |w| && w[k % pageSize] == rows[k]
  {
    var page := k / pageSize + 1;
    assert Offset(page, pageSize) == k - k % pageSize;
    PageContents(rows, page, pageSize);
  }
}
