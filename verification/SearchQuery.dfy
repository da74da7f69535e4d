/** Search filters compiled to an OpenSearch bool query, and the request built around it. */
module SearchQuery {
  import opened Basics
  import Paging

  // Dates are instants; a keyword is matched as a whole.
  datatype Datum = Number(n: int) | Text(t: string)

  // An indexed document: fields may be missing.
  type Document = map<string, Datum>

  datatype Filter = Filter(parameter: string, operator: string, value: Datum, values: seq<Datum>)

  // The type each mapped field has, when its mapping gives one.
  type Mapping = map<string, Option<string>>

  datatype Error =
    | NotMapped(field: string)
    | WrongType(operator: string, field: string)
    | UnknownFilter(filter: Filter)

  // ------------------------------------------------------------------
  // What filters and queries mean
  // ------------------------------------------------------------------

  function Lookup(d: Document, field: string): Option<Datum> {
    if field in d then Some(d[field]) else None
  }

  predicate Below(a: Datum, b: Datum) { a.Number? && b.Number? && a.n < b.n }

  // What a filter asks of the value of its field; a missing field differs from every value.
  predicate Holds(f: Filter, v: Option<Datum>) {
    match f.operator
    case "eq" => v == Some(f.value)
    case "neq" => v != Some(f.value)
    case "gt" => v.Some? && Below(f.value, v.value)
    case "lt" => v.Some? && Below(v.value, f.value)
    case "in" => v.Some? && v.value in f.values
    case "not in" => v.None? || v.value !in f.values
    case _ => false
  }

  predicate AllHold(search: seq<Filter>, d: Document) {
    forall f :: f in search ==> Holds(f, Lookup(d, f.parameter))
  }

  datatype Clause =
    | Term(field: string, value: Datum)
    | GreaterThan(field: string, value: Datum)
    | LessThan(field: string, value: Datum)
    | Terms(field: string, values: seq<Datum>)

  // OpenSearch: every clause needs the field to be there.
  predicate Matches(c: Clause, d: Document) {
    c.field in d &&
    match c
    case Term(field, value) => d[field] == value
    case GreaterThan(field, value) => Below(value, d[field])
    case LessThan(field, value) => Below(d[field], value)
    case Terms(field, values) => d[field] in values
  }

  datatype BoolQuery = BoolQuery(must: seq<Clause>, mustNot: seq<Clause>)

  predicate Accepts(q: BoolQuery, d: Document) {
    (forall c :: c in q.must ==> Matches(c, d)) && (forall c :: c in q.mustNot ==> !Matches(c, d))
  }

  // ------------------------------------------------------------------
  // Which filters are refused
  // ------------------------------------------------------------------

  const EXACT := {"keyword", "long", "date"}
  const ORDERED := {"long", "date"}

  // A field missing from the mapping is noticed before the operator is looked at.
  function Refusal(fields: Mapping, f: Filter): Option<Error> {
    if f.parameter !in fields || fields[f.parameter].None? then Some(NotMapped(f.parameter))
    else if f.operator in {"eq", "neq", "in", "not in"} then
      if fields[f.parameter].value in EXACT then None else Some(WrongType(f.operator, f.parameter))
    else if f.operator in {"gt", "lt"} then
      if fields[f.parameter].value in ORDERED then None else Some(WrongType(f.operator, f.parameter))
    else Some(UnknownFilter(f))
  }

  /**
   Which filters are refused: those on fields without a type, those that order
   texts, those that compare fields which are not indexed whole, and those with an
   operator that does not exist.
   */
  lemma RefusalExactly(fields: Mapping, f: Filter)
    ensures var mapped := f.parameter in fields && fields[f.parameter].Some?;
            var r := Refusal(fields, f);
            && (r == Some(NotMapped(f.parameter)) <==> !mapped)
            && (r == Some(UnknownFilter(f)) <==> mapped && f.operator !in {"eq", "neq", "gt", "lt", "in", "not in"})
            && (r == Some(WrongType(f.operator, f.parameter)) <==>
                 && mapped
                 && var t := fields[f.parameter].value;
                    || (f.operator in {"gt", "lt"} && t != "long" && t != "date")
                    || (f.operator in {"eq", "neq", "in", "not in"} && t != "long" && t != "date" && t != "keyword"))
            && (r.Some? ==> r.value in {NotMapped(f.parameter), UnknownFilter(f), WrongType(f.operator, f.parameter)})
  {
  }

  /**
   What a filter selects: ordering is of numbers and strict, a missing field
   differs from every value, and is neither above nor below any.
   */
  lemma FilterSelects(f: Filter, d: Document)
    ensures var has := f.parameter in d;
            && (f.operator == "eq" ==> (AllHold([f], d) <==> has && d[f.parameter] == f.value))
            && (f.operator == "neq" ==> (AllHold([f], d) <==> !has || d[f.parameter] != f.value))
            && (f.operator == "in" ==> (AllHold([f], d) <==> has && d[f.parameter] in f.values))
            && (f.operator == "not in" ==> (AllHold([f], d) <==> !has || d[f.parameter] !in f.values))
            && (f.operator == "gt" ==> (AllHold([f], d) <==>
                 has && d[f.parameter].Number? && f.value.Number? && d[f.parameter].n > f.value.n))
            && (f.operator == "lt" ==> (AllHold([f], d) <==>
                 has && d[f.parameter].Number? && f.value.Number? && d[f.parameter].n < f.value.n))
            && (f.operator !in {"eq", "neq", "gt", "lt", "in", "not in"} ==> !AllHold([f], d))
  {
    assert AllHold([f], d) <==> Holds(f, Lookup(d, f.parameter)) by { assert f in [f]; }
  }

  // `r` is what the first refused item decides, in order.
  ghost predicate FirstRefusal(fields: Mapping, search: seq<Filter>, error: Error) {
    exists k :: 0 <= k < |search| && Refusal(fields, search[k]) == Some(error)
                && forall j :: 0 <= j < k ==> Refusal(fields, search[j]).None?
  }

  // ------------------------------------------------------------------
  // apply_search_filters
  // ------------------------------------------------------------------

  method RequireType(operator: string, field: string, fieldType: string, allowed: set<string>)
    returns (r: Option<Error>)
    ensures r == if fieldType in allowed then None else Some(WrongType(operator, field))
  {
    if fieldType !in allowed { return Some(WrongType(operator, field)); }
    return None;
  }

  /**
   Every filter list is either compiled to a query that selects exactly the
   documents on which all filters hold, or refused for its first bad filter.
   */
  method ApplySearchFilters(fields: Mapping, search: seq<Filter>) returns (r: Result<BoolQuery, Error>)
    ensures r.Ok? <==> forall f :: f in search ==> Refusal(fields, f).None?
    ensures r.Ok? ==> forall d :: Accepts(r.value, d) <==> AllHold(search, d)
    ensures r.Ok? ==> |r.value.must| + |r.value.mustNot| == |search|
    ensures r.Err? ==> FirstRefusal(fields, search, r.error)
  {
    var must: seq<Clause>, mustNot: seq<Clause> := [], [];
    for i := 0 to |search|
      invariant |must| + |mustNot| == i
      invariant forall j :: 0 <= j < i ==> Refusal(fields, search[j]).None?
      invariant forall d :: Accepts(BoolQuery(must, mustNot), d) <==> AllHold(search[..i], d)
    {
      var f := search[i];
      assert f in search;
      if f.parameter !in fields || fields[f.parameter].None? {
        assert Refusal(fields, f).Some?;
        return Err(NotMapped(f.parameter));
      }
      var fieldType := fields[f.parameter].value;
      var refused: Option<Error> := None;
      ghost var before := BoolQuery(must, mustNot);
      match f.operator {
        case "eq" =>
          refused := RequireType(f.operator, f.parameter, fieldType, EXACT);
          must := must + [Term(f.parameter, f.value)];
        case "neq" =>
          refused := RequireType(f.operator, f.parameter, fieldType, EXACT);
          mustNot := mustNot + [Term(f.parameter, f.value)];
        case "gt" =>
          refused := RequireType(f.operator, f.parameter, fieldType, ORDERED);
          must := must + [GreaterThan(f.parameter, f.value)];
        case "lt" =>
          refused := RequireType(f.operator, f.parameter, fieldType, ORDERED);
          must := must + [LessThan(f.parameter, f.value)];
        case "in" =>
          refused := RequireType(f.operator, f.parameter, fieldType, EXACT);
          must := must + [Terms(f.parameter, f.values)];
        case "not in" =>
          refused := RequireType(f.operator, f.parameter, fieldType, EXACT);
          mustNot := mustNot + [Terms(f.parameter, f.values)];
        case _ =>
          return Err(UnknownFilter(f));
      }
      if refused.Some? { return Err(refused.value); }
      ghost var after := BoolQuery(must, mustNot);
      forall d ensures Accepts(after, d) <==> AllHold(search[..i + 1], d) {
        OneMoreFilter(before, after, f, d);
        assert search[..i + 1] == search[..i] + [f];
      }
    }
    assert search[..|search|] == search;
    return Ok(BoolQuery(must, mustNot));
  }

  // The clause a filter becomes, and the list it goes to.
  ghost predicate Adds(before: BoolQuery, after: BoolQuery, f: Filter) {
    match f.operator
    case "eq" => after == before.(must := before.must + [Term(f.parameter, f.value)])
    case "neq" => after == before.(mustNot := before.mustNot + [Term(f.parameter, f.value)])
    case "gt" => after == before.(must := before.must + [GreaterThan(f.parameter, f.value)])
    case "lt" => after == before.(must := before.must + [LessThan(f.parameter, f.value)])
    case "in" => after == before.(must := before.must + [Terms(f.parameter, f.values)])
    case "not in" => after == before.(mustNot := before.mustNot + [Terms(f.parameter, f.values)])
    case _ => false
  }

  lemma OneMoreFilter(before: BoolQuery, after: BoolQuery, f: Filter, d: Document)
    requires Adds(before, after, f)
    ensures Accepts(after, d) <==> Accepts(before, d) && Holds(f, Lookup(d, f.parameter))
  {
    if f.operator in {"neq", "not in"} {
      var c := after.mustNot[|before.mustNot|];
      assert Matches(c, d) <==> !Holds(f, Lookup(d, f.parameter));
      assert after.must == before.must;
      assert after.mustNot == before.mustNot + [c];
      assert forall x :: x in after.mustNot <==> x in before.mustNot || x == c;
    } else {
      var c := after.must[|before.must|];
      assert Matches(c, d) <==> Holds(f, Lookup(d, f.parameter));
      assert after.mustNot == before.mustNot;
      assert after.must == before.must + [c];
      assert forall x :: x in after.must <==> x in before.must || x == c;
    }
  }

  // ------------------------------------------------------------------
  // BaseOSDB.search: the request built around the query
  // ------------------------------------------------------------------

  datatype Sort = Sort(parameter: string, direction: string)

  datatype Request = Request(
    source: Option<seq<string>>,
    query: Option<BoolQuery>,
    sort: seq<Sort>,
    offset: Option<int>,
    size: Option<int>)

  // A request without a query asks for every document.
  predicate Selects(r: Request, d: Document) { r.query.None? || Accepts(r.query.value, d) }

  function SortRefusal(fields: Mapping, s: Sort): Option<Error> {
    if s.parameter in fields && fields[s.parameter].Some? && fields[s.parameter].value in EXACT then None
    else Some(WrongType("sort", s.parameter))
  }

  /** Sorting needs a field that is indexed whole; a field that is not mapped is refused like one of another type. */
  lemma SortRefusalExactly(fields: Mapping, s: Sort)
    ensures SortRefusal(fields, s).None? <==>
            s.parameter in fields && fields[s.parameter] in {Some("keyword"), Some("long"), Some("date")}
    ensures SortRefusal(fields, s).Some? ==> SortRefusal(fields, s).value == WrongType("sort", s.parameter)
  {
  }

  ghost predicate FirstSortRefusal(fields: Mapping, sorts: seq<Sort>, error: Error) {
    exists k :: 0 <= k < |sorts| && SortRefusal(fields, sorts[k]) == Some(error)
                && forall j :: 0 <= j < k ==> SortRefusal(fields, sorts[j]).None?
  }

  /** The request selects what the filters say, in the given order, and page p asks for the p-th page of the ranking. */
  method BuildRequest(fields: Mapping, parameters: seq<string>, search: seq<Filter>, sorts: seq<Sort>,
                      perPage: nat, page: Option<int>)
    returns (r: Result<Request, Error>)
    ensures r.Ok? <==> && (forall f :: f in search ==> Refusal(fields, f).None?)
                       && (forall s :: s in sorts ==> SortRefusal(fields, s).None?)
    ensures r.Err? ==> || FirstRefusal(fields, search, r.error)
                       || ((forall f :: f in search ==> Refusal(fields, f).None?)
                           && FirstSortRefusal(fields, sorts, r.error))
    ensures r.Ok? ==> r.value.sort == sorts
    ensures r.Ok? ==> forall d :: Selects(r.value, d) <==> AllHold(search, d)
    ensures r.Ok? ==> (r.value.offset.Some? <==> page.Some?) && (r.value.size.Some? <==> page.Some?)
    ensures r.Ok? && page.Some? && page.value >= 1 ==>
              && r.value.offset.value >= 0 && r.value.size.value >= 0
              && forall ranked: seq<Document> ::
                   Paging.Window(ranked, r.value.offset.value, r.value.size.value)
                       == Paging.PageOf(ranked, perPage, page.value)
    ensures r.Ok? ==> r.value.source == if parameters == [] then None else Some(parameters)
  {
    var request := Request(None, None, [], None, None);
    if parameters != [] { request := request.(source := Some(parameters)); }
    if search != [] {
      var query := ApplySearchFilters(fields, search);
      if query.Err? { return Err(query.error); }
      request := request.(query := Some(query.value));
    }
    for i := 0 to |sorts|
      invariant request == request.(sort := sorts[..i])
      invariant request.(sort := [])
                  == Request(if parameters == [] then None else Some(parameters), request.query, [], None, None)
      invariant forall d :: Selects(request, d) <==> AllHold(search, d)
      invariant forall j :: 0 <= j < i ==> SortRefusal(fields, sorts[j]).None?
    {
      var s := sorts[i];
      assert s in sorts;
      if s.parameter !in fields || fields[s.parameter].None? {
        assert SortRefusal(fields, s).Some?;
        return Err(WrongType("sort", s.parameter));
      }
      var refused := RequireType("sort", s.parameter, fields[s.parameter].value, EXACT);
      if refused.Some? {
        assert SortRefusal(fields, s).Some?;
        return Err(refused.value);
      }
      request := request.(sort := request.sort + [s]);
    }
    if page.Some? {
      request := request.(offset := Some((page.value - 1) * perPage), size := Some(perPage));
    }
    return Ok(request);
  }
}
