/** The closed form of the Julian Date, against a calendar that only counts days. */
module JulianDay {

  datatype Date = Date(year: int, month: int, day: int)

  predicate Leap(year: int) { year % 4 == 0 && (year % 100 != 0 || year % 400 == 0) }

  function MonthLength(year: int, month: int): int {
    if month == 2 then (if Leap(year) then 29 else 28)
    else if month in {4, 6, 9, 11} then 30
    else 31
  }

  predicate Valid(d: Date) {
    d.year >= 1 && 1 <= d.month <= 12 && 1 <= d.day <= MonthLength(d.year, d.month)
  }

  const FIRST := Date(1, 1, 1)

  function DayBefore(d: Date): (p: Date)
    requires Valid(d) && d != FIRST
    ensures Valid(p)
  {
    if d.day > 1 then d.(day := d.day - 1)
    else if d.month > 1 then Date(d.year, d.month - 1, MonthLength(d.year, d.month - 1))
    else Date(d.year - 1, 12, 31)
  }

  function DayAfter(d: Date): (n: Date)
    requires Valid(d)
    ensures Valid(n) && n != FIRST && DayBefore(n) == d
  {
    if d.day < MonthLength(d.year, d.month) then d.(day := d.day + 1)
    else if d.month < 12 then Date(d.year, d.month + 1, 1)
    else Date(d.year + 1, 1, 1)
  }

  // Days counted one by one from 1 January of year 1, whose Julian Day Number is 1721426.
  function Count(d: Date): int
    requires Valid(d)
    decreases d.year, d.month, d.day
  {
    if d == FIRST then 1721426 else 1 + Count(DayBefore(d))
  }

  // ------------------------------------------------------------------
  // julian_date_from_parts
  // ------------------------------------------------------------------

  function ClosedForm(year: int, month: int, day: int): int {
    var a := (14 - month) / 12;
    var y := year + 4800 - a;
    var m := month + 12 * a - 3;
    day + (153 * m + 2) / 5 + 365 * y + y / 4 - y / 100 + y / 400 - 32045
  }

  function At(f: (int, int, int) -> int, d: Date): int { f(d.year, d.month, d.day) }

  function Number(d: Date): int { At(ClosedForm, d) }

  datatype Instant = Instant(date: Date, hour: int, minute: int, second: int)

  predicate ValidInstant(t: Instant) {
    Valid(t.date) && 0 <= t.hour < 24 && 0 <= t.minute < 60 && 0 <= t.second < 60
  }

  function JulianDate(t: Instant): real {
    Number(t.date) as real + (t.hour - 12) as real / 24.0 + t.minute as real / 1440.0 + t.second as real / 86400.0
  }

  // ------------------------------------------------------------------
  // The closed form counts days
  // ------------------------------------------------------------------

  function YearDays(y: int): int { 365 * y + y / 4 - y / 100 + y / 400 }

  // Leap years divide by 4 but not by 100, or divide by 400.
  lemma YearLength(year: int)
    requires year >= 1
    ensures YearDays(year + 4800) == YearDays(year + 4799) + (if Leap(year) then 366 else 365)
  {
    Fourth(year);
    Hundredth(year);
    FourHundredth(year);
    Nested(year);
  }

  lemma Nested(year: int)
    ensures year % 400 == 0 ==> year % 100 == 0
    ensures year % 100 == 0 ==> year % 4 == 0
  {
  }

  lemma Fourth(year: int)
    ensures (year + 4800) / 4 - (year + 4799) / 4 == if year % 4 == 0 then 1 else 0
  {
  }

  lemma Hundredth(year: int)
    ensures (year + 4800) / 100 - (year + 4799) / 100 == if year % 100 == 0 then 1 else 0
  {
  }

  lemma FourHundredth(year: int)
    ensures (year + 4800) / 400 - (year + 4799) / 400 == if year % 400 == 0 then 1 else 0
  {
  }

  lemma FebruaryEnds(year: int, day: int)
    requires year >= 1 && day == MonthLength(year, 2)
    ensures ClosedForm(year, 3, 1) == ClosedForm(year, 2, day) + 1
  {
    YearLength(year);
    assert ClosedForm(year, 3, 1) == 1 + YearDays(year + 4800) - 32045;
    assert ClosedForm(year, 2, day) == day + 337 + YearDays(year + 4799) - 32045;
  }

  lemma JanuaryEnds(year: int)
    ensures ClosedForm(year, 2, 1) == ClosedForm(year, 1, 31) + 1
  {
  }

  lemma DecemberEnds(year: int)
    ensures ClosedForm(year + 1, 1, 1) == ClosedForm(year, 12, 31) + 1
  {
  }

  // March is month 0 of the shifted year, so no leap day falls between these months.
  lemma MonthEnds(year: int, month: int)
    requires 3 <= month <= 11
    ensures ClosedForm(year, month + 1, 1) == ClosedForm(year, month, MonthLength(year, month)) + 1
  {
  }

  lemma WithinMonth(year: int, month: int, day: int)
    ensures ClosedForm(year, month, day + 1) == ClosedForm(year, month, day) + 1
  {
  }

  // A numbering adds one within a month, at the end of January, February, other months, and at the end of the year.
  ghost predicate AddsOne(f: (int, int, int) -> int, year: int, month: int, day: int) {
    && f(year, month, day + 1) == f(year, month, day) + 1
    && f(year, 2, 1) == f(year, 1, 31) + 1
    && f(year, 3, 1) == f(year, 2, MonthLength(year, 2)) + 1
    && (3 <= month <= 11 ==> f(year, month + 1, 1) == f(year, month, MonthLength(year, month)) + 1)
    && f(year + 1, 1, 1) == f(year, 12, 31) + 1
  }

  lemma ClosedFormAddsOne(year: int, month: int, day: int)
    requires year >= 1
    ensures AddsOne(ClosedForm, year, month, day)
  {
    WithinMonth(year, month, day);
    JanuaryEnds(year);
    FebruaryEnds(year, MonthLength(year, 2));
    if 3 <= month <= 11 { MonthEnds(year, month); }
    DecemberEnds(year);
  }

  // Only one numbering does so from a given start.
  lemma {:induction false} NumberingCounts(f: (int, int, int) -> int, d: Date)
    requires Valid(d)
    requires At(f, FIRST) == 1721426
    requires forall year, month, day :: year >= 1 ==> AddsOne(f, year, month, day)
    ensures At(f, d) == Count(d)
    decreases d.year, d.month, d.day
  {
    if d != FIRST {
      var p := DayBefore(d);
      NumberingCounts(f, p);
      assert AddsOne(f, p.year, p.month, p.day);
    }
  }

  /** The closed form equals the day counter on every date. */
  lemma ClosedFormCounts(d: Date)
    requires Valid(d)
    ensures Number(d) == Count(d)
  {
    forall year, month, day | year >= 1 ensures AddsOne(ClosedForm, year, month, day) {
      ClosedFormAddsOne(year, month, day);
    }
    NumberingCounts(ClosedForm, d);
  }

  /** Across the days of a month, month ends, leap days and century rules, a day adds exactly 1. */
  lemma DayAddsOne(d: Date)
    requires Valid(d)
    ensures Number(DayAfter(d)) == Number(d) + 1
  {
    ClosedFormCounts(d);
    ClosedFormCounts(DayAfter(d));
  }

  // ------------------------------------------------------------------
  // Order
  // ------------------------------------------------------------------

  predicate Earlier(a: Date, b: Date) {
    a.year < b.year || (a.year == b.year && (a.month < b.month || (a.month == b.month && a.day < b.day)))
  }

  lemma {:induction false} CountIncreases(a: Date, b: Date)
    requires Valid(a) && Valid(b) && Earlier(a, b)
    ensures Count(a) < Count(b)
    decreases b.year, b.month, b.day
  {
    var p := DayBefore(b);
    assert a == p || Earlier(a, p);
    if a != p { CountIncreases(a, p); }
  }

  /** Every number from 1721426 on is the number of exactly one date. */
  lemma {:induction false} NumberIsBijective(n: int)
    requires n >= 1721426
    ensures exists d :: Valid(d) && Number(d) == n && forall e :: Valid(e) && Number(e) == n ==> e == d
    decreases n
  {
    var d := FIRST;
    if n > 1721426 {
      NumberIsBijective(n - 1);
      var p :| Valid(p) && Number(p) == n - 1;
      d := DayAfter(p);
      DayAddsOne(p);
    }
    assert Valid(d) && Number(d) == n;
    forall e | Valid(e) && Number(e) == n ensures e == d {
      ClosedFormCounts(d);
      ClosedFormCounts(e);
      if Earlier(d, e) { CountIncreases(d, e); } else if Earlier(e, d) { CountIncreases(e, d); }
    }
  }

  function SecondOfDay(t: Instant): int { 3600 * t.hour + 60 * t.minute + t.second }

  // Seconds since midnight at the start of day 0.
  function Seconds(t: Instant): int
    requires ValidInstant(t)
  {
    86400 * Count(t.date) + SecondOfDay(t)
  }

  /** The Julian Date measures elapsed time: its days are 86400 seconds long, counted from noon. */
  lemma MeasuresSeconds(t: Instant)
    requires ValidInstant(t)
    ensures 86400.0 * JulianDate(t) == (Seconds(t) - 43200) as real
  {
    ClosedFormCounts(t.date);
    var n, h := Number(t.date), t.hour - 12;
    assert 86400.0 * JulianDate(t)
        == 86400.0 * n as real + 3600.0 * h as real + 60.0 * t.minute as real + t.second as real;
    assert (86400 * n + 3600 * h + 60 * t.minute + t.second) as real
        == 86400.0 * n as real + 3600.0 * h as real + 60.0 * t.minute as real + t.second as real;
  }

  predicate Sooner(a: Instant, b: Instant) {
    Earlier(a.date, b.date)
    || (a.date == b.date
        && (a.hour < b.hour
            || (a.hour == b.hour && (a.minute < b.minute || (a.minute == b.minute && a.second < b.second)))))
  }

  /** It is strictly increasing in date, hour, minute and second, so it orders instants as they follow each other. */
  lemma JulianDateIncreases(a: Instant, b: Instant)
    requires ValidInstant(a) && ValidInstant(b)
    ensures JulianDate(a) < JulianDate(b) <==> Sooner(a, b)
    ensures JulianDate(a) == JulianDate(b) <==> a == b
  {
    SecondsOrder(a, b);
    SecondsOrder(b, a);
    MeasuresSeconds(a);
    MeasuresSeconds(b);
  }

  lemma SecondsOrder(a: Instant, b: Instant)
    requires ValidInstant(a) && ValidInstant(b)
    ensures Sooner(a, b) ==> Seconds(a) < Seconds(b)
  {
    if Earlier(a.date, b.date) { CountIncreases(a.date, b.date); }
  }
}
