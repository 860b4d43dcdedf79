/**
 * The pagination arithmetic shared by the two list endpoints
 * (`skip = (page - 1) * limit`, `totalPages = Math.ceil(total / limit)`) and the
 * `.sort({ createdAt: -1 }).skip(skip).limit(limit)` query over an in-memory
 * collection kept in creation order.
 */
module Pagination {
  import opened Wrappers

  /** `page` and `limit` are taken to be integers of at least 1. */
  type Positive = x: int | x >= 1 witness 1

  const DefaultPage: Positive := 1
  const DefaultLimit: Positive := 10

  /** The query string of a list request; an absent key takes its default. */
  datatype PageQuery = PageQuery(page: Option<Positive>, limit: Option<Positive>) {
    function Page(): Positive { page.GetOr(DefaultPage) }
    function Limit(): Positive { limit.GetOr(DefaultLimit) }
  }

  /** The body of a successful list reply. */
  datatype PageResult<T> = PageResult(count: nat, total: nat, page: int, totalPages: nat, data: seq<T>)

  /** Rows skipped before the requested page: the `page - 1` earlier pages, each full. */
  function Skip(page: Positive, limit: Positive): (r: nat)
    ensures page == 1 ==> r == 0
  {
    (page - 1) * limit
  }

  /** `Math.ceil(total / limit)`: the least number of pages of `limit` rows holding `total` rows. */
  function TotalPages(total: nat, limit: Positive): (r: nat)
    ensures total <= r * limit
    ensures r > 0 ==> (r - 1) * limit < total
    ensures r == 0 <==> total == 0
  {
    var q := (total + limit - 1) / limit;
    var m := (total + limit - 1) % limit;
    assert total + limit - 1 == q * limit + m;
    assert q * limit - limit == (q - 1) * limit;
    q
  }

  /** `.skip(skip).limit(limit)`: at most `limit` consecutive rows starting at `skip`. */
  function Window<T>(rows: seq<T>, skip: nat, limit: Positive): (r: seq<T>)
    ensures |r| <= limit
    ensures skip >= |rows| ==> r == []
    ensures skip < |rows| ==> |r| == if |rows| - skip < limit then |rows| - skip else limit
    ensures forall k :: 0 <= k < |r| ==> skip + k < |rows| && r[k] == rows[skip + k]
  {
    if skip >= |rows| then []
    else if |rows| - skip < limit then rows[skip..]
    else rows[skip..skip + limit]
  }

  /** `.sort({ createdAt: -1 })` on a collection kept in creation order: newest first. */
  function NewestFirst<T>(rows: seq<T>): (r: seq<T>)
    ensures |r| == |rows|
    ensures forall k :: 0 <= k < |rows| ==> r[k] == rows[|rows| - 1 - k]
  {
    if rows == [] then [] else [rows[|rows| - 1]] + NewestFirst(rows[..|rows| - 1])
  }

  /** One page of `rows` as the list endpoints answer it. */
  function PageOf<T>(rows: seq<T>, q: PageQuery): (r: PageResult<T>)
    ensures r.total == |rows| && r.page == q.Page()
    ensures r.totalPages == TotalPages(|rows|, q.Limit())
    ensures r.count == |r.data| <= q.Limit()
    ensures r.data == Window(NewestFirst(rows), Skip(q.Page(), q.Limit()), q.Limit())
    ensures var skip := Skip(q.Page(), q.Limit());
      |r.data| == if skip >= |rows| then 0 else if |rows| - skip < q.Limit() then |rows| - skip else q.Limit()
    ensures forall k :: 0 <= k < |r.data| ==>
      var n := Skip(q.Page(), q.Limit()) + k; n < |rows| && r.data[k] == rows[|rows| - 1 - n]
  {
    var data := Window(NewestFirst(rows), Skip(q.Page(), q.Limit()), q.Limit());
    PageResult(|data|, |rows|, q.Page(), TotalPages(|rows|, q.Limit()), data)
  }

  /**
   * The pages cover the collection: the row at newest-first position `i` is
   * row `i % limit` of page `i / limit + 1`, and that page is within `totalPages`.
   */
  lemma PagesCover<T>(rows: seq<T>, limit: Positive, i: nat)
    requires i < |rows|
    ensures var page: Positive := i / limit + 1;
      && page <= TotalPages(|rows|, limit)
      && |Window(rows, Skip(page, limit), limit)| > i % limit
      && Window(rows, Skip(page, limit), limit)[i % limit] == rows[i]
  {
    var page: Positive := i / limit + 1;
    var s := Skip(page, limit);
    assert i == (i / limit) * limit + i % limit;
    assert s + i % limit == i;
    var t := TotalPages(|rows|, limit);
    assert (i / limit) * limit < t * limit;
    MulCancel(i / limit, t, limit);
  }

  lemma MulCancel(a: nat, b: nat, c: nat)
    requires a * c < b * c
    ensures a < b
  {
    if a >= b {
      MulMonotone(b, a, c);
    }
  }

  lemma MulMonotone(a: nat, b: nat, c: nat)
    requires a <= b
    ensures a * c <= b * c
  {
  }

  /** A page past the last one is empty. */
  lemma PastLastPageEmpty<T>(rows: seq<T>, limit: Positive, page: Positive)
    requires page > TotalPages(|rows|, limit)
    ensures Window(rows, Skip(page, limit), limit) == []
  {
    var t := TotalPages(|rows|, limit);
    MulMonotone(t, page - 1, limit);
  }
}
