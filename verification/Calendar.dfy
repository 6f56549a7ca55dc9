/** Day arithmetic of section 21.4.1 of ECMA-262, and what it says about the Gregorian calendar. */
module Calendar {

  predicate Leap(y: int) { y % 4 == 0 && (y % 100 != 0 || y % 400 == 0) }

  function DaysInYear(y: int): int { if Leap(y) then 366 else 365 }

  /** Day number of the first day of a year; day 0 is 1 January 1970. */
  function DayFromYear(y: int): int {
    365 * (y - 1970) + (y - 1969) / 4 - (y - 1901) / 100 + (y - 1601) / 400
  }

  lemma FourthYears(y: int)
    ensures (y - 1968) / 4 == (y - 1969) / 4 + if y % 4 == 0 then 1 else 0
  {
  }

  lemma Centuries(y: int)
    ensures (y - 1900) / 100 == (y - 1901) / 100 + if y % 100 == 0 then 1 else 0
  {
  }

  lemma Cycles(y: int)
    ensures (y - 1600) / 400 == (y - 1601) / 400 + if y % 400 == 0 then 1 else 0
  {
  }

  lemma LeapRules(y: int)
    ensures y % 400 == 0 ==> y % 100 == 0
    ensures y % 100 == 0 ==> y % 4 == 0
  {
  }

  lemma NextYear(y: int)
    ensures DayFromYear(y + 1) == DayFromYear(y) + DaysInYear(y)
  {
    FourthYears(y);
    Centuries(y);
    Cycles(y);
    LeapRules(y);
  }

  lemma {:induction false} YearsAscend(a: int, b: int)
    requires a <= b
    ensures DayFromYear(a) + 365 * (b - a) <= DayFromYear(b)
    decreases b - a
  {
    if a < b {
      YearsAscend(a, b - 1);
      NextYear(b - 1);
    }
  }

  function YearFrom(n: int, y: int): (r: int)
    requires DayFromYear(y) <= n
    ensures DayFromYear(r) <= n < DayFromYear(r + 1)
    decreases n - DayFromYear(y)
  {
    NextYear(y);
    if n < DayFromYear(y + 1) then y else YearFrom(n, y + 1)
  }

  /** The year a day falls in. */
  function YearOf(n: int): (y: int)
    ensures DayFromYear(y) <= n < DayFromYear(y + 1)
  {
    var start := if n < 0 then 1970 + n else 1970;
    YearsAscend(start, 1970);
    YearFrom(n, start)
  }

  lemma YearUnique(n: int, y: int)
    requires DayFromYear(y) <= n < DayFromYear(y + 1)
    ensures YearOf(n) == y
  {
    hide DayFromYear, YearOf;
    var r := YearOf(n);
    if r < y { YearsAscend(r + 1, y); } else if y < r { YearsAscend(y + 1, r); }
  }

  function DaysInMonth(leap: bool, m: int): int
    requires 0 <= m < 12
  {
    if m == 1 then (if leap then 29 else 28)
    else if m == 3 || m == 5 || m == 8 || m == 10 then 30
    else 31
  }

  /** Days of the year before month `m`, counted from 0. */
  function MonthStart(leap: bool, m: int): int
    requires 0 <= m <= 12
  {
    if m == 0 then 0 else MonthStart(leap, m - 1) + DaysInMonth(leap, m - 1)
  }

  lemma YearLength(leap: bool)
    ensures MonthStart(leap, 12) == if leap then 366 else 365
  {
    var extra := if leap then 1 else 0;
    assert MonthStart(leap, 1) == 31;
    assert MonthStart(leap, 2) == 59 + extra;
    assert MonthStart(leap, 4) == 120 + extra;
    assert MonthStart(leap, 6) == 181 + extra;
    assert MonthStart(leap, 8) == 243 + extra;
    assert MonthStart(leap, 10) == 304 + extra;
  }

  lemma {:induction false} MonthsAscend(leap: bool, a: int, b: int)
    requires 0 <= a <= b <= 12
    ensures MonthStart(leap, a) <= MonthStart(leap, b)
    decreases b - a
  {
    if a < b { MonthsAscend(leap, a, b - 1); }
  }

  function MonthFrom(leap: bool, w: int, m: int): (r: int)
    requires 0 <= m < 12 && MonthStart(leap, m) <= w < MonthStart(leap, 12)
    ensures 0 <= r < 12 && MonthStart(leap, r) <= w < MonthStart(leap, r + 1)
    decreases 12 - m
  {
    if w < MonthStart(leap, m + 1) then m else MonthFrom(leap, w, m + 1)
  }

  function DayInYear(n: int): (w: int)
    ensures 0 <= w < MonthStart(Leap(YearOf(n)), 12)
  {
    NextYear(YearOf(n));
    YearLength(Leap(YearOf(n)));
    n - DayFromYear(YearOf(n))
  }

  function MonthOf(n: int): (m: int)
    ensures 0 <= m < 12
  {
    MonthFrom(Leap(YearOf(n)), DayInYear(n), 0)
  }

  function DateOf(n: int): (d: int)
    ensures 1 <= d <= DaysInMonth(Leap(YearOf(n)), MonthOf(n))
  {
    DayInYear(n) - MonthStart(Leap(YearOf(n)), MonthOf(n)) + 1
  }

  /** MakeDay: months outside the year carry into it, days are added on. */
  function MakeDay(y: int, month: int, date: int): int {
    DayFromYear(y + month / 12) + MonthStart(Leap(y + month / 12), month % 12) + date - 1
  }

  /** The day Date.UTC denotes; it takes the years 0 to 99 as 1900 to 1999. */
  function UtcDay(y: int, month: int, date: int): int {
    MakeDay(if 0 <= y <= 99 then 1900 + y else y, month, date)
  }

  /** The date is what its own instant reads as. */
  predicate ValidCalendarDate(y: int, month: int, day: int) {
    var n := UtcDay(y, month - 1, day);
    YearOf(n) == y && MonthOf(n) == month - 1 && DateOf(n) == day
  }

  /** A day of the Gregorian calendar. */
  predicate RealDay(y: int, month: int, day: int) {
    1 <= month <= 12 && 1 <= day <= DaysInMonth(Leap(y), month - 1)
  }

  lemma MonthUnique(leap: bool, w: int, m: int, from: int)
    requires 0 <= from <= m < 12 && MonthStart(leap, m) <= w < MonthStart(leap, m + 1)
    requires MonthStart(leap, from) <= w < MonthStart(leap, 12)
    ensures MonthFrom(leap, w, from) == m
  {
    var r := MonthFrom(leap, w, from);
    if r < m { MonthsAscend(leap, r + 1, m); } else if m < r { MonthsAscend(leap, m + 1, r); }
  }

  /** Reading back a real day gives the day: fields determine the instant and the instant the fields. */
  lemma FieldsRoundTrip(y: int, month: int, day: int)
    requires RealDay(y, month, day)
    ensures var n := MakeDay(y, month - 1, day); YearOf(n) == y && MonthOf(n) == month - 1 && DateOf(n) == day
  {
    var m := month - 1;
    var n := MakeDay(y, m, day);
    var leap := Leap(y);
    MonthsAscend(leap, 0, m);
    MonthsAscend(leap, m + 1, 12);
    YearLength(leap);
    NextYear(y);
    assert n - DayFromYear(y) == MonthStart(leap, m) + day - 1;
    YearUnique(n, y);
    MonthUnique(leap, DayInYear(n), m, 0);
  }

  lemma InstantRoundTrip(n: int)
    ensures RealDay(YearOf(n), MonthOf(n) + 1, DateOf(n))
    ensures MakeDay(YearOf(n), MonthOf(n), DateOf(n)) == n
  {
    hide DayFromYear, MonthStart, Leap, YearOf, MonthOf;
    assert MonthOf(n) / 12 == 0 && MonthOf(n) % 12 == MonthOf(n);
  }

  /** Two-digit years are read as the twentieth century, so they never read back as themselves. */
  lemma CenturyNeverReadsBack(y: int, month: int, day: int)
    requires 0 <= y <= 99 && 0 <= month <= 99 && 0 <= day <= 99
    ensures !ValidCalendarDate(y, month, day)
  {
    var n := UtcDay(y, month - 1, day);
    var shifted := 1900 + y + (month - 1) / 12;
    assert 1899 <= shifted;
    MonthsAscend(Leap(shifted), 0, (month - 1) % 12);
    YearsAscend(1898, shifted);
    NextYear(1898);
    assert DayFromYear(1898) <= n;
    if YearOf(n) < 1898 { YearsAscend(YearOf(n) + 1, 1898); }
  }

  /** The calendar check accepts exactly the real Gregorian days from the year 100 on. */
  lemma ValidExactly(y: int, month: int, day: int)
    requires 0 <= y <= 9999 && 0 <= month <= 99 && 0 <= day <= 99
    ensures ValidCalendarDate(y, month, day) <==> RealDay(y, month, day) && 100 <= y
  {
    hide YearOf, MonthOf, DateOf, DayFromYear, MonthStart, Leap;
    if y < 100 {
      CenturyNeverReadsBack(y, month, day);
    } else if RealDay(y, month, day) {
      FieldsRoundTrip(y, month, day);
    } else {
      InstantRoundTrip(UtcDay(y, month - 1, day));
    }
  }
}
