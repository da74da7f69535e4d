/** The Content-Range header of the job search: how the router computes it, and what pages it describes. */
module ContentRange {
  import opened Basics
  import opened Paging

  const MAX_PER_PAGE: nat := 10000

  datatype Error = BadPage | BadPerPage

  // The search behind the router: the page size is capped, then checked by the database layer.
  function Search<T>(rows: seq<T>, page: int, perPage: int): Result<seq<T>, Error> {
    var capped := Min(perPage, MAX_PER_PAGE);
    if page < 1 then Err(BadPage)
    else if capped < 1 then Err(BadPerPage)
    else Ok(PageOf(rows, capped, page))
  }

  datatype Header =
    | NotSent
    | Unsatisfied(total: int)
    | Partial(first: int, last: int, total: int)

  // Header and status; an HTTP 200 is the default.
  class Response {
    var header: Header
    var status: int

    constructor ()
      ensures header == NotSent && status == 200
    {
      header, status := NotSent, 200;
    }

    // The router's own page size is the requested one, not the capped one.
    method SetContentRange(found: nat, total: nat, page: int, perPage: int)
      modifies this
      ensures header == HeaderFor(old(header), found, total, page, perPage)
      ensures status == if found == 0 && total > 0 then 416 else if found < total then 206 else old(status)
    {
      if found == 0 && total > 0 {
        header := Unsatisfied(total);
        status := 416;
      } else if found < total {
        var first := perPage * (page - 1);
        var last := if total > 0 then Min(first + found, total) - 1 else 0;
        header := Partial(first, last, total);
        status := 206;
      }
    }
  }

  function HeaderFor(sent: Header, found: nat, total: nat, page: int, perPage: int): Header {
    if found == 0 && total > 0 then Unsatisfied(total)
    else if found < total then
      var first := perPage * (page - 1);
      Partial(first, Min(first + found, total) - 1, total)
    else sent
  }

  // ------------------------------------------------------------------
  // What the header says of the rows returned
  // ------------------------------------------------------------------

  // Section 4.2 of RFC 7233: the rows sent are those at positions first to last.
  ghost predicate Describes<T>(h: Header, rows: seq<T>, page: int, perPage: int)
    requires Search(rows, page, perPage).Ok?
  {
    var offset := (page - 1) * Min(perPage, MAX_PER_PAGE);
    var sent := Search(rows, page, perPage).value;
    match h
    case NotSent => sent == rows
    case Unsatisfied(total) => total == |rows| && offset >= total && sent == []
    case Partial(first, last, total) =>
      0 <= first <= last < total == |rows| && first == offset && sent == rows[first..last + 1]
  }

  function Sent<T>(rows: seq<T>, page: int, perPage: int): Header
    requires Search(rows, page, perPage).Ok?
  {
    HeaderFor(NotSent, |Search(rows, page, perPage).value|, |rows|, page, perPage)
  }

  /**
   The header tells the truth about every page up to the cap. Beyond it, only
   the first page and the pages after the last row are described correctly.
   */
  lemma HeaderDescribes<T>(rows: seq<T>, page: int, perPage: int)
    requires Search(rows, page, perPage).Ok?
    ensures Describes(Sent(rows, page, perPage), rows, page, perPage)
            <==> perPage <= MAX_PER_PAGE || page == 1 || |rows| <= (page - 1) * MAX_PER_PAGE
  {
    var capped := Min(perPage, MAX_PER_PAGE);
    var offset := (page - 1) * capped;
    var sent := PageOf(rows, capped, page);
    assert 0 <= offset by { Monotone(0, page - 1, capped); }
    assert sent == rows[Min(offset, |rows|)..Min(offset + capped, |rows|)];
    var h := Sent(rows, page, perPage);
    if h.Partial? {
      assert offset < |rows|;
      if perPage > MAX_PER_PAGE && page > 1 {
        assert perPage * (page - 1) > MAX_PER_PAGE * (page - 1) by { Widen(perPage - MAX_PER_PAGE, page - 1); }
        assert h.first != offset;
      } else {
        assert h.first == offset;
        assert h.last + 1 == offset + |sent|;
      }
    } else if h.NotSent? {
      assert |sent| == |rows| ==> sent == rows;
    }
  }

  /** No header goes with the whole result, `*` with an empty page of some rows, and a range with any other part. */
  lemma HeaderKind<T>(rows: seq<T>, page: int, perPage: int)
    requires Search(rows, page, perPage).Ok?
    ensures var sent, h := Search(rows, page, perPage).value, Sent(rows, page, perPage);
            && (h.NotSent? <==> |sent| == |rows|)
            && (h.Unsatisfied? <==> sent == [] && rows != [])
            && (h.Partial? <==> 0 < |sent| < |rows|)
  {
  }

  lemma Widen(a: int, b: int)
    requires a > 0 && b > 0
    ensures a * b > 0
  {
  }

  /** A page larger than the cap: the second one is announced where it is not. */
  lemma HeaderCanLie()
    ensures exists rows: seq<int> ::
              && |rows| == 25000 && Search(rows, 2, 20000).Ok?
              && Search(rows, 2, 20000).value == rows[10000..20000]
              && Sent(rows, 2, 20000) == Partial(20000, 24999, 25000)
  {
    var rows := seq(25000, i => i);
    assert Search(rows, 2, 20000).Ok? && Search(rows, 2, 20000).value == rows[10000..20000];
  }

  /** Each partial page starts where the one before it ended, the first at 0, and the last ends at the total. */
  lemma PagesTile<T>(rows: seq<T>, page: int, perPage: int)
    requires 1 <= page && 1 <= perPage <= MAX_PER_PAGE
    requires Sent(rows, page, perPage).Partial?
    ensures var h := Sent(rows, page, perPage);
            && (page == 1 ==> h.first == 0)
            && (h.last + 1 < |rows| ==>
                  var next := Sent(rows, page + 1, perPage);
                  next.Partial? && next.first == h.last + 1)
            && (h.last + 1 == |rows| ==> Sent(rows, page + 1, perPage) == Unsatisfied(|rows|))
            && FirstPages(rows, perPage, page) == rows[..h.last + 1]
  {
    HeaderDescribes(rows, page, perPage);
    HeaderDescribes(rows, page + 1, perPage);
    PagesArePrefix(rows, perPage, page);
    var h := Sent(rows, page, perPage);
    assert page * perPage == (page - 1) * perPage + perPage;
    assert h.last + 1 == Min(page * perPage, |rows|);
    assert PageOf(rows, perPage, page + 1) == rows[Min(page * perPage, |rows|)..Min(page * perPage + perPage, |rows|)];
  }
}
