/** Printing of Content-Range headers by the router, and their parsing by the command line. */
module RangeHeader {
  import opened Basics
  import opened ContentRange

  // ------------------------------------------------------------------
  // Decimal numbers
  // ------------------------------------------------------------------

  predicate IsDigit(c: char) { '0' <= c <= '9' }
  predicate IsWord(c: char) { IsDigit(c) || 'a' <= c <= 'z' || 'A' <= c <= 'Z' || c == '_' }

  /** Word characters are exactly these. */
  lemma WordCharacters(c: char)
    ensures IsWord(c) <==> c in "abcdefghijklmnopqrstuvwxyz" || c in "ABCDEFGHIJKLMNOPQRSTUVWXYZ" || c in "0123456789_"
    ensures IsDigit(c) <==> c in "0123456789"
  {
    LowerCase(c);
    UpperCase(c);
    Numerical(c);
  }

  lemma LowerCase(c: char)
    ensures 'a' <= c <= 'z' <==> c in "abcdefghijklmnopqrstuvwxyz"
  {
    var all := "abcdefghijklmnopqrstuvwxyz";
    assert forall i :: 0 <= i < |all| ==> all[i] as int == 'a' as int + i;
    if 'a' <= c <= 'z' { assert all[c as int - 'a' as int] == c; }
  }

  lemma UpperCase(c: char)
    ensures 'A' <= c <= 'Z' <==> c in "ABCDEFGHIJKLMNOPQRSTUVWXYZ"
  {
    var all := "ABCDEFGHIJKLMNOPQRSTUVWXYZ";
    assert forall i :: 0 <= i < |all| ==> all[i] as int == 'A' as int + i;
    if 'A' <= c <= 'Z' { assert all[c as int - 'A' as int] == c; }
  }

  lemma Numerical(c: char)
    ensures '0' <= c <= '9' <==> c in "0123456789"
    ensures '0' <= c <= '9' || c == '_' <==> c in "0123456789_"
  {
    var all := "0123456789";
    assert forall i :: 0 <= i < |all| ==> all[i] as int == '0' as int + i;
    if '0' <= c <= '9' { assert all[c as int - '0' as int] == c; }
    assert "0123456789_" == all + "_";
  }

  predicate AllDigits(s: string) { forall c :: c in s ==> IsDigit(c) }
  predicate Digits(s: string) { s != [] && AllDigits(s) }
  predicate Word(s: string) { s != [] && forall c :: c in s ==> IsWord(c) }

  function DigitOf(n: nat): (c: char)
    requires n < 10
    ensures IsDigit(c) && c as int - '0' as int == n
  {
    ('0' as int + n) as char
  }

  function Decimal(n: nat): (s: string)
    ensures Digits(s)
  {
    if n < 10 then [DigitOf(n)] else Decimal(n / 10) + [DigitOf(n % 10)]
  }

  function ToInt(s: string): nat
    requires AllDigits(s)
  {
    if s == [] then 0
    else
      var last := s[|s| - 1];
      assert last in s;
      10 * ToInt(s[..|s| - 1]) + (last as int - '0' as int)
  }

  lemma {:induction false} DecimalRoundTrip(n: nat)
    ensures ToInt(Decimal(n)) == n
  {
    if n >= 10 {
      DecimalRoundTrip(n / 10);
      var s := Decimal(n);
      assert s[..|s| - 1] == Decimal(n / 10);
    } else {
      assert Decimal(n)[..0] == [];
    }
  }

  // ------------------------------------------------------------------
  // The two patterns, as the texts they match
  // ------------------------------------------------------------------

  // `(\w+) (\d+-\d+|\*)/(\d+|\*)` with its groups, or `\w+`.
  datatype Groups =
    | Ranged(unit: string, range: Option<(string, string)>, total: Option<string>)
    | Bare(unit: string)

  ghost predicate WellFormed(g: Groups) {
    Word(g.unit)
    && (g.Ranged? && g.range.Some? ==> Digits(g.range.value.0) && Digits(g.range.value.1))
    && (g.Ranged? && g.total.Some? ==> Digits(g.total.value))
  }

  function Then(c: char, rest: string): string { [c] + rest }

  function TotalText(total: Option<string>): string { if total.Some? then total.value else "*" }

  function RangeText(range: Option<(string, string)>, rest: string): string {
    if range.Some? then range.value.0 + Then('-', range.value.1 + rest) else Then('*', rest)
  }

  function Text(g: Groups): string {
    match g
    case Bare(unit) => unit
    case Ranged(unit, range, total) => unit + Then(' ', RangeText(range, Then('/', TotalText(total))))
  }

  // ------------------------------------------------------------------
  // Matching
  // ------------------------------------------------------------------

  predicate InClass(c: char, digits: bool) { if digits then IsDigit(c) else IsWord(c) }

  // The longest prefix of word characters, or of digits, and what follows it.
  function Take(s: string, digits: bool): (r: (string, string))
    ensures s == r.0 + r.1
    ensures forall c :: c in r.0 ==> InClass(c, digits)
    ensures r.1 != [] ==> !InClass(r.1[0], digits)
  {
    if s == [] || !InClass(s[0], digits) then ([], s)
    else
      var (taken, rest) := Take(s[1..], digits);
      ([s[0]] + taken, rest)
  }

  function Strip(c: char, s: string): (r: Option<string>)
    ensures r.Some? ==> s == Then(c, r.value)
  {
    if s != [] && s[0] == c then
      assert s == [s[0]] + s[1..];
      Some(s[1..])
    else None
  }

  function MatchTotal(s: string): Option<Option<string>> {
    if s == "*" then Some(None)
    else if s != [] && Take(s, true).1 == [] then Some(Some(s))
    else None
  }

  function MatchRange(s: string): Option<(Option<(string, string)>, string)> {
    if Strip('*', s).Some? then Some((None, Strip('*', s).value))
    else
      var (first, dash) := Take(s, true);
      if first == [] || Strip('-', dash).None? then None
      else
        var (last, rest) := Take(Strip('-', dash).value, true);
        if last == [] then None else Some((Some((first, last)), rest))
  }

  function Match(header: string): Option<Groups> {
    var (unit, rest) := Take(header, false);
    if unit == [] then None
    else if rest == [] then Some(Bare(unit))
    else if Strip(' ', rest).None? then None
    else
      var range := MatchRange(Strip(' ', rest).value);
      if range.None? || Strip('/', range.value.1).None? then None
      else
        var total := MatchTotal(Strip('/', range.value.1).value);
        if total.None? then None else Some(Ranged(unit, range.value.0, total.value))
  }

  // There is one way to cut a text at the end of its leading class.
  lemma {:induction false} TakeStops(a: string, b: string, digits: bool)
    requires forall c :: c in a ==> InClass(c, digits)
    requires b == [] || !InClass(b[0], digits)
    ensures Take(a + b, digits) == (a, b)
  {
    if a == [] {
      assert a + b == b;
    } else {
      assert (a + b)[0] == a[0] && (a + b)[1..] == a[1..] + b;
      TakeStops(a[1..], b, digits);
      assert a[0] in a && a == [a[0]] + a[1..];
    }
  }

  lemma StripThen(c: char, rest: string)
    ensures Strip(c, Then(c, rest)) == Some(rest)
    ensures Then(c, rest) != [] && Then(c, rest)[0] == c
  {
  }

  ghost predicate RangeOk(range: Option<(string, string)>) {
    range.Some? ==> Digits(range.value.0) && Digits(range.value.1)
  }

  lemma RangeMatches(range: Option<(string, string)>, rest: string)
    requires RangeOk(range) && rest != [] && rest[0] == '/'
    ensures MatchRange(RangeText(range, rest)) == Some((range, rest))
  {
    if range.Some? {
      var (a, b) := range.value;
      TakeStops(b, rest, true);
      StripThen('-', b + rest);
      TakeStops(a, Then('-', b + rest), true);
      assert (a + Then('-', b + rest))[0] == a[0];
    } else {
      StripThen('*', rest);
    }
  }

  lemma RangeSound(s: string, range: Option<(string, string)>, rest: string)
    requires MatchRange(s) == Some((range, rest))
    ensures RangeOk(range) && s == RangeText(range, rest)
  {
  }

  lemma TotalMeans(s: string, total: Option<string>)
    ensures MatchTotal(s) == Some(total) <==> (total.Some? ==> Digits(total.value)) && s == TotalText(total)
  {
    if total.Some? && Digits(total.value) {
      assert total.value + [] == total.value;
      TakeStops(total.value, [], true);
    }
    assert Take(s, true).1 == [] ==> Take(s, true).0 == s;
    assert !IsDigit("*"[0]) && "*"[0] in "*";
  }

  lemma RangedMatches(unit: string, range: Option<(string, string)>, total: Option<string>)
    requires Word(unit) && RangeOk(range) && (total.Some? ==> Digits(total.value))
    ensures Match(Text(Ranged(unit, range, total))) == Some(Ranged(unit, range, total))
  {
    var t := TotalText(total);
    var r := RangeText(range, Then('/', t));
    TotalMeans(t, total);
    StripThen('/', t);
    RangeMatches(range, Then('/', t));
    StripThen(' ', r);
    TakeStops(unit, Then(' ', r), false);
  }

  lemma RangedSound(header: string)
    requires Match(header).Some? && Match(header).value.Ranged?
    ensures WellFormed(Match(header).value) && Text(Match(header).value) == header
  {
    var (unit, rest) := Take(header, false);
    var afterSpace := Strip(' ', rest).value;
    var range := MatchRange(afterSpace).value;
    var afterSlash := Strip('/', range.1).value;
    RangeSound(afterSpace, range.0, range.1);
    TotalMeans(afterSlash, MatchTotal(afterSlash).value);
  }

  /** Matching finds the groups of a header exactly when the header is made of them. */
  lemma MatchMeans(header: string, g: Groups)
    ensures Match(header) == Some(g) <==> WellFormed(g) && Text(g) == header
  {
    if Match(header) == Some(g) {
      if g.Ranged? {
        RangedSound(header);
      } else {
        assert Take(header, false).0 == header;
      }
    }
    if WellFormed(g) && Text(g) == header {
      if g.Ranged? {
        RangedMatches(g.unit, g.range, g.total);
      } else {
        assert g.unit + [] == g.unit;
        TakeStops(g.unit, [], false);
      }
    }
  }

  // ------------------------------------------------------------------
  // ContentRange
  // ------------------------------------------------------------------

  datatype Fields = Fields(unit: Option<string>, start: Option<nat>, end: Option<nat>, total: Option<nat>)

  const BLANK := Fields(None, None, None, None)

  class ContentRangeFields {
    var unit: Option<string>
    var start: Option<nat>
    var end: Option<nat>
    var total: Option<nat>

    constructor ()
      ensures View() == BLANK
    {
      unit, start, end, total := None, None, None, None;
    }

    ghost function View(): Fields
      reads this
    {
      Fields(unit, start, end, total)
    }

    // The body of `__init__`; `int("*")` raises after the unit was set, and the object is lost.
    method Init(header: string) returns (raised: bool)
      requires View() == BLANK
      modifies this
      ensures raised <==> exists unit, range :: Match(header) == Some(Ranged(unit, range, None))
      ensures !raised ==> View() == Read(header)
    {
      var m := Match(header);
      raised := false;
      if m.Some? {
        unit := Some(m.value.unit);
        MatchMeans(header, m.value);
        if m.value.Ranged? {
          if m.value.total.None? {
            assert m == Some(Ranged(m.value.unit, m.value.range, None));
            return true;
          }
          total := Some(ToInt(m.value.total.value));
          if m.value.range.Some? {
            start := Some(ToInt(m.value.range.value.0));
            end := Some(ToInt(m.value.range.value.1));
          }
        }
      }
    }
  }

  function Read(header: string): Fields {
    MatchIsSound(header);
    match Match(header)
    case None => BLANK
    case Some(Bare(unit)) => Fields(Some(unit), None, None, None)
    case Some(Ranged(unit, range, total)) =>
      Fields(Some(unit),
             if range.Some? then Some(ToInt(range.value.0)) else None,
             if range.Some? then Some(ToInt(range.value.1)) else None,
             if total.Some? then Some(ToInt(total.value)) else None)
  }

  lemma MatchIsSound(header: string)
    ensures Match(header).Some? ==> WellFormed(Match(header).value)
  {
    if Match(header).Some? { MatchMeans(header, Match(header).value); }
  }

  // ------------------------------------------------------------------
  // From the server to the client
  // ------------------------------------------------------------------

  predicate Printable(h: Header) {
    match h
    case NotSent => true
    case Unsatisfied(total) => total >= 0
    case Partial(first, last, total) => first >= 0 && last >= 0 && total >= 0
  }

  // What the client reads: the text sent, or "jobs" when no header was.
  function Print(h: Header): string
    requires Printable(h)
  {
    match h
    case NotSent => "jobs"
    case Unsatisfied(total) => "jobs" + Then(' ', Then('*', Then('/', Decimal(total))))
    case Partial(first, last, total) =>
      "jobs" + Then(' ', Decimal(first) + Then('-', Decimal(last) + Then('/', Decimal(total))))
  }

  function Known(h: Header): Fields
    requires Printable(h)
  {
    match h
    case NotSent => Fields(Some("jobs"), None, None, None)
    case Unsatisfied(total) => Fields(Some("jobs"), None, None, Some(total))
    case Partial(first, last, total) => Fields(Some("jobs"), Some(first), Some(last), Some(total))
  }

  /** The texts themselves, with the separators of section 4.2 of RFC 7233. */
  lemma TextForms(unit: string, first: string, last: string, total: string)
    ensures Text(Bare(unit)) == unit
    ensures Text(Ranged(unit, Some((first, last)), Some(total)))
              == unit + (" " + (first + ("-" + (last + ("/" + total)))))
    ensures Text(Ranged(unit, Some((first, last)), None)) == unit + (" " + (first + ("-" + (last + ("/" + "*")))))
    ensures Text(Ranged(unit, None, Some(total))) == unit + (" " + ("*" + ("/" + total)))
    ensures Text(Ranged(unit, None, None)) == unit + (" " + ("*" + ("/" + "*")))
  {
  }

  /**
   What the server sends for the first hundred rows of a thousand, for a page
   beyond them, and what is read from it.
   */
  lemma PrintExample()
    ensures Print(Partial(0, 99, 1000)) == "jobs 0-99/1000" && Print(Unsatisfied(1000)) == "jobs */1000"
    ensures Read("jobs 0-99/1000") == Fields(Some("jobs"), Some(0), Some(99), Some(1000))
  {
    Numerals();
    var tail := Then('/', Decimal(1000));
    assert tail == "/1000";
    assert Decimal(99) + tail == "99/1000";
    assert Then('-', Decimal(99) + tail) == "-99/1000";
    assert Decimal(0) + "-99/1000" == "0-99/1000";
    assert "jobs" + Then(' ', "0-99/1000") == "jobs 0-99/1000";
    assert "jobs" + Then(' ', Then('*', tail)) == "jobs */1000";
    HeaderRoundTrip(Partial(0, 99, 1000));
  }

  lemma Numerals()
    ensures Decimal(0) == "0" && Decimal(99) == "99" && Decimal(1000) == "1000"
  {
    assert Decimal(1) == "1" && Decimal(9) == "9";
    assert Decimal(10) == "10";
    assert Decimal(100) == "100";
  }

  /** The client recovers every header the server prints, `*` ranges included. */
  lemma HeaderRoundTrip(h: Header)
    requires Printable(h)
    ensures Match(Print(h)).Some? && Read(Print(h)) == Known(h)
  {
    assert Word("jobs");
    match h
    case NotSent =>
      MatchMeans(Print(h), Bare("jobs"));
    case Unsatisfied(total) =>
      DecimalRoundTrip(total);
      RangedMatches("jobs", None, Some(Decimal(total)));
    case Partial(first, last, total) =>
      DecimalRoundTrip(first);
      DecimalRoundTrip(last);
      DecimalRoundTrip(total);
      RangedMatches("jobs", Some((Decimal(first), Decimal(last))), Some(Decimal(total)));
  }

  // What these fields tell about the rows received, out of all rows.
  predicate Tells<T(==)>(known: Fields, received: seq<T>, rows: seq<T>) {
    && known.unit == Some("jobs")
    && (known.start.Some? ==>
          && known.end.Some? && known.start.value <= known.end.value < |rows|
          && received == rows[known.start.value..known.end.value + 1])
    && (known.total.Some? ==> known.total.value == |rows|)
    && (known.total.None? ==> received == rows)
    && (known.start.None? && known.total.Some? ==> received == [])
  }

  lemma KnownTells<T>(h: Header, rows: seq<T>, page: int, perPage: int)
    requires Search(rows, page, perPage).Ok? && Describes(h, rows, page, perPage)
    ensures Printable(h) && Tells(Known(h), Search(rows, page, perPage).value, rows)
  {
  }

  /** Up to the cap, the client learns the positions of the rows it received and how many there are. */
  lemma ClientKnowsItsPage<T>(rows: seq<T>, page: int, perPage: int)
    requires Search(rows, page, perPage).Ok? && perPage <= MAX_PER_PAGE
    ensures Printable(Sent(rows, page, perPage))
    ensures Tells(Read(Print(Sent(rows, page, perPage))), Search(rows, page, perPage).value, rows)
  {
    var h := Sent(rows, page, perPage);
    HeaderDescribes(rows, page, perPage);
    KnownTells(h, rows, page, perPage);
    HeaderRoundTrip(h);
  }
}
