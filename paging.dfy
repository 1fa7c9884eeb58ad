/**
 * The offset/limit arithmetic shared by the three list handlers
 * (getAllCheques, getAllCustomers, getAllTransactions): the rows skipped
 * before a page and the page count reported back.
 */
module Paging {
  import opened Wrappers

  /** The pagination block of a list response. */
  datatype Pagination = Pagination(total: nat, page: int, limit: int, totalPages: Option<int>)

  /** `(pageNum - 1) * limitNum`: rows skipped before page `page`. */
  function Skip(page: int, limit: int): int {
    (page - 1) * limit
  }

  /**
   * `Math.ceil(total / limitNum)`. A zero limit divides by zero and yields a
   * non-finite number, which the JSON response carries as null (None).
   */
  function TotalPages(total: nat, limit: int): (r: Option<int>)
    ensures r.None? <==> limit == 0
    ensures limit > 0 ==> r.Some? && r.value >= 0 && total <= r.value * limit
    ensures limit > 0 && r.Some? && r.value > 0 ==> (r.value - 1) * limit < total
    ensures limit > 0 ==> (r == Some(0) <==> total == 0)
    ensures limit < 0 ==> r.Some? && r.value <= 0
    ensures limit < 0 ==> r.Some? && r.value * limit <= total < (r.value - 1) * limit
  {
    if limit == 0 then None
    else if limit > 0 then
      var n := total + limit - 1;
      var q := n / limit;
      assert limit * q + n % limit == n;
      assert q * limit == limit * q;
      assert (q - 1) * limit == q * limit - limit;
      Some(q)
    else
      CeilOfNegativeDivisor(total, limit);
      Some(-(total / (-limit)))
  }

  /** For a negative limit, -(total / -limit) is the least n with n·limit <= total. */
  lemma CeilOfNegativeDivisor(total: nat, limit: int)
    requires limit < 0
    ensures -(total / -limit) <= 0
    ensures -(total / -limit) * limit <= total < (-(total / -limit) - 1) * limit
  {
    var m := -limit;
    var q := total / m;
    assert m * q + total % m == total;
    assert -q * limit == m * q;
    assert (-q - 1) * limit == m * q + m;
  }

  function Paginate(total: nat, page: int, limit: int): Pagination {
    Pagination(total, page, limit, TotalPages(total, limit))
  }

  lemma MulMonotone(a: int, b: int, c: nat)
    requires a <= b
    ensures a * c <= b * c
  {
    assert b * c - a * c == (b - a) * c;
  }

  /**
   * With a positive limit, page `page` (counting from 1) starts inside the
   * result set exactly when it is one of the reported pages.
   */
  lemma {:induction false} PageStartsInsideResults(total: nat, page: int, limit: int)
    requires limit > 0 && page >= 1
    ensures Skip(page, limit) < total <==> page <= TotalPages(total, limit).value
  {
    var t := TotalPages(total, limit).value;
    if page <= t {
      MulMonotone(page - 1, t - 1, limit);
    } else {
      MulMonotone(t, page - 1, limit);
    }
  }
}
