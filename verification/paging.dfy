/**
 * The pure display arithmetic every list screen shares: the page count handed to the pager,
 * the guard on page navigation, the "Showing X to Y of Z records" range and the choice of
 * table body.
 */
module Paging {
  import opened Wrappers

  /** The page sizes offered by the "Show … entries" selector. */
  predicate IsPageSizeOption(n: nat)
    ensures IsPageSizeOption(n) ==> n >= 1
  {
    n == 5 || n == 10 || n == 20 || n == 50
  }

  /** `Math.ceil(total / perPage)` for a known total: the smallest page count that covers `total`. */
  function PageCount(total: nat, perPage: nat): (c: nat)
    requires perPage > 0
    ensures c * perPage >= total
    ensures c > 0 ==> (c - 1) * perPage < total
    ensures c == 0 <==> total == 0
  {
    (total + perPage - 1) / perPage
  }

  /**
   * The guard of `handlePageChange`: `page > 0 && page <= Math.ceil(total_count / per_page)`.
   * While the total is still `undefined` the quotient is NaN and every comparison fails.
   */
  predicate Accepts(page: int, total: Option<nat>, perPage: nat)
    requires perPage > 0
    ensures Accepts(page, total, perPage) <==>
      total.Some? && 0 < page && (page - 1) * perPage < total.value
  {
    total.Some? && 0 < page <= PageCount(total.value, perPage)
  }

  /** An empty or not yet known result set has no page the guard accepts. */
  lemma NoPageAcceptedWithoutRecords(page: int, total: Option<nat>, perPage: nat)
    requires perPage > 0
    requires total == None || total == Some(0)
    ensures !Accepts(page, total, perPage)
  {
  }

  /** Every page the pager offers (1 through `totalPages`) passes the guard. */
  lemma PagerPagesAccepted(total: nat, perPage: nat, page: int)
    requires perPage > 0
    requires 1 <= page <= PageCount(total, perPage)
    ensures Accepts(page, Some(total), perPage)
  {
  }

  /** The two numbers of "Showing X to Y of Z records". */
  datatype Range = Range(first: int, last: int)

  function Min(a: int, b: int): int
  {
    if a <= b then a else b
  }

  function Showing(page: nat, perPage: nat, total: nat): (r: Range)
    requires page >= 1 && perPage >= 1
    ensures r.first >= 1 && r.last <= total
    ensures r.first - 1 < total ==> r.first <= r.last && r.last - r.first < perPage
  {
    Range((page - 1) * perPage + 1, Min(page * perPage, total))
  }

  /** On any page the guard accepts, the range lies inside the records: 1 ≤ X ≤ Y ≤ Z. */
  lemma ShowingWithinTotal(page: nat, perPage: nat, total: nat)
    requires perPage >= 1 && total > 0
    requires Accepts(page, Some(total), perPage)
    ensures var r := Showing(page, perPage, total);
      1 <= r.first <= r.last <= total && r.last - r.first < perPage
  {
  }

  /** On the last page the range ends at the total. */
  lemma ShowingLastPageEndsAtTotal(perPage: nat, total: nat)
    requires perPage >= 1 && total > 0
    ensures Showing(PageCount(total, perPage), perPage, total).last == total
  {
  }

  /** With no records the text reads "Showing 1 to 0 of 0 records". */
  lemma ShowingEmptyList(perPage: nat)
    requires perPage >= 1
    ensures Showing(1, perPage, 0) == Range(1, 0)
  {
  }

  /** The three mutually exclusive contents of a table body. */
  datatype Body = LoadingRow | RecordRows | NoDataRow

  /** `isLoading ? loading row : rows.length > 0 ? rows : "no data" row`. */
  function TableBody(loading: bool, visibleCount: nat): (b: Body)
    ensures b == LoadingRow <==> loading
    ensures b == RecordRows <==> !loading && visibleCount > 0
    ensures b == NoDataRow <==> !loading && visibleCount == 0
  {
    if loading then LoadingRow
    else if visibleCount > 0 then RecordRows
    else NoDataRow
  }
}
