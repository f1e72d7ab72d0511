/**
 * The pagination of the list endpoints: `offset = (pageNum - 1) * limitNum`,
 * `LIMIT limitNum OFFSET offset`, and `pages: Math.ceil(total / limitNum)`.
 */
module Paging {

  /** The sign of a multiple of a positive number. */
  lemma MulSign(k: int, d: int)
    requires d >= 1
    ensures k >= 0 ==> k * d >= 0
    ensures k >= 1 ==> k * d >= d
    ensures k <= -1 ==> k * d <= -d
  {
  }

  /** Euclidean division has one quotient and remainder. */
  lemma DivUnique(a: int, d: int, q: int, r: int)
    requires d >= 1 && a == q * d + r && 0 <= r < d
    ensures a / d == q && a % d == r
  {
    var q', r' := a / d, a % d;
    assert (q - q') * d == r' - r;
    MulSign(q - q', d);
  }

  /** `(pageNum - 1) * limitNum`: the number of rows before the page. */
  function Offset(page: int, limit: int): (o: nat)
    requires page >= 1 && limit >= 1
    ensures o % limit == 0 && o / limit == page - 1
  {
    DivUnique((page - 1) * limit, limit, page - 1, 0);
    (page - 1) * limit
  }

  /** `Math.ceil(total / limitNum)`. */
  function PageCount(total: nat, limit: int): (pages: nat)
    requires limit >= 1
    ensures total == 0 <==> pages == 0
    ensures total > 0 ==> (pages - 1) * limit < total <= pages * limit
  {
    if total == 0 then 0
    else
      var q := (total - 1) / limit;
      assert q * limit <= total - 1 < (q + 1) * limit;
      q + 1
  }

  /**
   * How many rows `LIMIT limit OFFSET offset` returns from `total` rows: none past
   * the end, otherwise `min(limit, total - offset)`.
   */
  function PageLength(total: nat, page: int, limit: int): nat
    requires page >= 1 && limit >= 1
  {
    var o := Offset(page, limit);
    if o >= total then 0 else if o + limit <= total then limit else total - o
  }

  /** `LIMIT limit OFFSET offset` of an ordered result. */
  function PageRows<T>(rows: seq<T>, page: int, limit: int): (r: seq<T>)
    requires page >= 1 && limit >= 1
    ensures |r| == PageLength(|rows|, page, limit)
    ensures |r| <= limit
    ensures Offset(page, limit) + |r| <= |rows| || r == []
    ensures forall i :: 0 <= i < |r| ==> r[i] == rows[Offset(page, limit) + i]
    ensures Offset(page, limit) + limit <= |rows| ==> |r| == limit
  {
    var o := Offset(page, limit);
    if o >= |rows| then [] else rows[o .. if o + limit <= |rows| then o + limit else |rows|]
  }

  /**
   * Row `k` of the ordered result is row `k % limit` of page `k / limit + 1`, and
   * that page is among the `pages` the response announces.
   */
  lemma RowOnItsPage<T>(rows: seq<T>, k: nat, limit: int)
    requires k < |rows| && limit >= 1
    ensures var page := k / limit + 1;
      page <= PageCount(|rows|, limit) &&
      |PageRows(rows, page, limit)| > k % limit &&
      PageRows(rows, page, limit)[k % limit] == rows[k]
  {
    var page := k / limit + 1;
    var o := Offset(page, limit);
    assert o == (k / limit) * limit;
    assert o + k % limit == k;
    var pages := PageCount(|rows|, limit);
    assert (pages - 1) * limit < |rows| <= pages * limit;
    assert (page - 1 - pages) * limit == o - pages * limit;
    MulSign(page - 1 - pages, limit);
  }

  /** A row appears on one page only. */
  lemma PagesAreDisjoint<T>(rows: seq<T>, p1: int, p2: int, limit: int, i: nat, j: nat)
    requires p1 >= 1 && p2 >= 1 && limit >= 1
    requires i < |PageRows(rows, p1, limit)| && j < |PageRows(rows, p2, limit)|
    requires Offset(p1, limit) + i == Offset(p2, limit) + j
    ensures p1 == p2 && i == j
  {
    var o1, o2 := Offset(p1, limit), Offset(p2, limit);
    assert i < limit && j < limit;
    assert o1 == (p1 - 1) * limit && o2 == (p2 - 1) * limit;
    assert (p2 - p1) * limit == (p2 - 1) * limit - (p1 - 1) * limit;
    MulSign(p2 - p1, limit);
  }
}
