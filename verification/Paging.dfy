/** Cutting a fixed result list into pages, as the SQL and OpenSearch layers do. */
module Paging {

  function Min(a: int, b: int): int { if a <= b then a else b }

  // What `OFFSET offset LIMIT limit` (or from and size) leaves of a result list.
  function Window<T>(rows: seq<T>, offset: nat, limit: nat): seq<T> {
    rows[Min(offset, |rows|)..Min(offset + limit, |rows|)]
  }

  function PageOf<T>(rows: seq<T>, perPage: nat, page: int): seq<T>
    requires page >= 1
  {
    Window(rows, (page - 1) * perPage, perPage)
  }

  function FirstPages<T>(rows: seq<T>, perPage: nat, k: nat): seq<T> {
    if k == 0 then [] else FirstPages(rows, perPage, k - 1) + PageOf(rows, perPage, k)
  }

  /** Pages 1 to k, one after another, are a prefix of the rows: nothing is lost, repeated or moved. */
  lemma {:induction false} PagesArePrefix<T>(rows: seq<T>, perPage: nat, k: nat)
    ensures FirstPages(rows, perPage, k) == rows[..Min(k * perPage, |rows|)]
  {
    if k > 0 {
      PagesArePrefix(rows, perPage, k - 1);
      Monotone(k, k, perPage);
      Monotone(0, k - 1, perPage);
      WindowExtends(rows, (k - 1) * perPage, perPage);
    }
  }

  lemma WindowExtends<T>(rows: seq<T>, offset: nat, limit: nat)
    ensures rows[..Min(offset, |rows|)] + Window(rows, offset, limit) == rows[..Min(offset + limit, |rows|)]
  {
  }

  /** Enough pages give every row. */
  lemma PagesCover<T>(rows: seq<T>, perPage: nat, k: nat)
    requires k * perPage >= |rows|
    ensures FirstPages(rows, perPage, k) == rows
  {
    PagesArePrefix(rows, perPage, k);
  }

  /** Row i is on page i / perPage + 1 and on no other. */
  lemma RowHasOnePage<T>(rows: seq<T>, perPage: nat, i: nat, page: int)
    requires perPage > 0 && i < |rows| && page >= 1
    ensures (page - 1) * perPage <= i < (page - 1) * perPage + |PageOf(rows, perPage, page)| <==>
              page == i / perPage + 1
    ensures page == i / perPage + 1 ==> PageOf(rows, perPage, page)[i % perPage] == rows[i]
  {
    var q, a := page - 1, i / perPage;
    assert i == a * perPage + i % perPage;
    if q < a {
      Monotone(q + 1, a, perPage);
    } else if q > a {
      Monotone(a + 1, q, perPage);
    }
  }

  lemma Monotone(a: int, b: int, n: nat)
    requires a <= b
    ensures a * n <= b * n && a * n == (a - 1) * n + n
  {
    assert b * n == a * n + (b - a) * n;
  }
}
