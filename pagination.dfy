/** Page windows and page metadata, shared by the client list and the
    per-client allocation list (src/routes/client.ts, src/routes/allocation.ts).

    A list handler asks the store for `take = perPage` rows after skipping
    `skip = (page - 1) * perPage`, counts the rows the filter selects, and
    reports `{page, perPage, total, totalPages}` with
    `totalPages = ceil(total / perPage)`. */
module Pagination {

  const DefaultPage := 1
  const DefaultPerPage := 10

  datatype Meta = Meta(page: int, perPage: int, total: nat, totalPages: int)
  datatype Page<+T> = Page(data: seq<T>, meta: Meta)

  /** The query check the list schemas leave out: page and perPage both positive. */
  predicate ValidQuery(page: int, perPage: int)
  {
    page >= 1 && perPage >= 1
  }

  /** The offset of the first row of `page`: the rows of the `page - 1` earlier pages. */
  function Skip(page: int, perPage: int): (skip: nat)
    requires ValidQuery(page, perPage)
    ensures skip / perPage == page - 1 && skip % perPage == 0
  {
    MulDivExact(page - 1, perPage);
    (page - 1) * perPage
  }

  /** `ceil(total / perPage)` in integers: the fewest pages of `perPage` rows that hold `total` rows. */
  function TotalPages(total: nat, perPage: int): (n: nat)
    requires perPage >= 1
    ensures n * perPage >= total
    ensures total > 0 ==> (n - 1) * perPage < total
    ensures total == 0 <==> n == 0
  {
    var n := (total + perPage - 1) / perPage;
    DivBounds(total + perPage - 1, perPage);
    n
  }

  /** The store's `skip`/`take` on an ordered result: at most `take` consecutive rows from offset `skip`. */
  function Window<T>(rows: seq<T>, skip: nat, take: nat): (r: seq<T>)
    ensures |r| <= take
    ensures |r| > 0 ==> skip + |r| <= |rows|
    ensures |r| == take || skip + |r| >= |rows|
    ensures forall k :: 0 <= k < |r| ==> r[k] == rows[skip + k]
  {
    if skip >= |rows| then []
    else if skip + take <= |rows| then rows[skip..skip + take]
    else rows[skip..]
  }

  /** The `{data, meta}` body of a list response over the ordered rows `rows`. */
  function PageOf<T>(rows: seq<T>, page: int, perPage: int): (p: Page<T>)
    requires ValidQuery(page, perPage)
    ensures |p.data| <= perPage
    ensures |p.data| > 0 ==> Skip(page, perPage) + |p.data| <= |rows|
    ensures forall k :: 0 <= k < |p.data| ==> p.data[k] == rows[Skip(page, perPage) + k]
    ensures p.meta.page == page && p.meta.perPage == perPage
    ensures p.meta.total == |rows| && p.meta.totalPages == TotalPages(|rows|, perPage)
  {
    Page(Window(rows, Skip(page, perPage), perPage),
         Meta(page, perPage, |rows|, TotalPages(|rows|, perPage)))
  }

  /** Every row appears on exactly the page its position says, and that page is not past the last. */
  lemma {:induction false} RowOnItsPage<T>(rows: seq<T>, perPage: int, k: nat)
    requires perPage >= 1 && k < |rows|
    ensures ValidQuery(k / perPage + 1, perPage)
    ensures k / perPage + 1 <= TotalPages(|rows|, perPage)
    ensures k % perPage < |PageOf(rows, k / perPage + 1, perPage).data|
    ensures PageOf(rows, k / perPage + 1, perPage).data[k % perPage] == rows[k]
  {
    var page := k / perPage + 1;
    var n := TotalPages(|rows|, perPage);
    DivBounds(k, perPage);
    assert Skip(page, perPage) + k % perPage == k;
    if n < page {
      MulMonotone(n, page - 1, perPage);
    }
  }

  /** A page past the last one is empty. */
  lemma {:induction false} PastLastPageEmpty<T>(rows: seq<T>, page: int, perPage: int)
    requires ValidQuery(page, perPage) && page > TotalPages(|rows|, perPage)
    ensures PageOf(rows, page, perPage).data == []
  {
    MulMonotone(TotalPages(|rows|, perPage), page - 1, perPage);
  }

  // The as-written page count (see README, Findings).

  /** A JavaScript number as far as `Math.ceil` on a quotient can produce one. */
  datatype JsNumber = Finite(n: int) | NotFinite

  /** `Math.ceil(total / perPage)` for every integer `perPage` the query schema lets through. */
  function TotalPagesAsWritten(total: nat, perPage: int): (r: JsNumber)
    ensures r.NotFinite? <==> perPage == 0
    ensures perPage >= 1 ==> r == Finite(TotalPages(total, perPage))
    ensures perPage < 0 ==> r.Finite? && r.n <= 0
  {
    if perPage == 0 then NotFinite  // Infinity, or NaN when total is 0
    else if perPage > 0 then Finite(TotalPages(total, perPage))
    else Finite(-(total / -perPage))
  }

  /** `?perPage=0` yields no page count at all, and a negative perPage yields a negative one. */
  lemma TotalPagesAsWrittenCounterexample()
    ensures TotalPagesAsWritten(25, 0) == NotFinite
    ensures TotalPagesAsWritten(25, -10) == Finite(-2)
  {
  }

  // Arithmetic helpers.

  lemma MulDivExact(q: int, d: int)
    requires q >= 0 && d >= 1
    ensures (q * d) / d == q && (q * d) % d == 0
  {
    DivBounds(q * d, d);
    var r := (q * d) / d;
    if r < q {
      MulMonotone(r + 1, q, d);
    } else if r > q {
      MulMonotone(q + 1, r, d);
    }
  }

  lemma DivBounds(a: int, d: int)
    requires a >= 0 && d >= 1
    ensures a == (a / d) * d + a % d && 0 <= a % d < d && a / d >= 0
  {
  }

  lemma MulMonotone(x: int, y: int, d: int)
    requires x <= y && d >= 1
    ensures x * d <= y * d
  {
  }
}
