/**
 * The part of JavaScript's `Date` the date helpers and the date field rely
 * on, at the granularity of whole days in one time zone. `MakeDate` is the
 * constructor `new Date(year, monthIndex, day)` read back through
 * `getFullYear`, `getMonth() + 1` and `getDate`: years 0-99 stand for
 * 1900-1999, a month index outside 0-11 carries into the year, and a day
 * outside the month rolls into the neighbouring months.
 */
module JsDate {
  /** A date as the getters of a `Date` report it: full year, month 1-12, day of the month. */
  datatype Day = Day(year: int, month: int, day: int)

  // ------------------------------------------------------------- calendar

  predicate Leap(y: int)
  {
    y % 4 == 0 && (y % 100 != 0 || y % 400 == 0)
  }

  /** The Gregorian length of month `m` (1-12) of year `y`. */
  function DaysInMonth(y: int, m: int): (n: int)
    requires 1 <= m <= 12
    ensures 28 <= n <= 31
    ensures n == 31 <==> m in {1, 3, 5, 7, 8, 10, 12}
  {
    if m == 2 then (if Leap(y) then 29 else 28)
    else if m == 4 || m == 6 || m == 9 || m == 11 then 30
    else 31
  }

  /** A day that exists in the calendar. */
  predicate Calendar(d: Day)
  {
    1 <= d.month <= 12 && 1 <= d.day <= DaysInMonth(d.year, d.month)
  }

  /** The day after `d`. */
  function NextDay(d: Day): (r: Day)
    requires Calendar(d)
    ensures Calendar(r)
  {
    if d.day < DaysInMonth(d.year, d.month) then Day(d.year, d.month, d.day + 1)
    else if d.month < 12 then Day(d.year, d.month + 1, 1)
    else Day(d.year + 1, 1, 1)
  }

  /** The day before `d`. */
  function PrevDay(d: Day): (r: Day)
    requires Calendar(d)
    ensures Calendar(r)
  {
    if d.day > 1 then Day(d.year, d.month, d.day - 1)
    else if d.month > 1 then Day(d.year, d.month - 1, DaysInMonth(d.year, d.month - 1))
    else Day(d.year - 1, 12, 31)
  }

  /** Stepping a day forward and back, or back and forward, returns to it. */
  lemma NextPrevInverse(d: Day)
    requires Calendar(d)
    ensures PrevDay(NextDay(d)) == d
    ensures NextDay(PrevDay(d)) == d
  {
  }

  // ------------------------------------------------------ JavaScript Date

  /** The year `new Date(y, …)` uses: 0-99 stand for 1900-1999. */
  function FullYear(y: int): int
  {
    if 0 <= y <= 99 then 1900 + y else y
  }

  /** Day `d` of month `m` of year `y`, rolled into the neighbouring months when it lies outside `m`. */
  function Roll(y: int, m: int, d: int): (r: Day)
    requires 1 <= m <= 12
    ensures Calendar(r)
    decreases if d < 1 then 1 - d else 0, d
  {
    if d < 1 then
      var py, pm := if m == 1 then y - 1 else y, if m == 1 then 12 else m - 1;
      Roll(py, pm, d + DaysInMonth(py, pm))
    else if d > DaysInMonth(y, m) then
      var ny, nm := if m == 12 then y + 1 else y, if m == 12 then 1 else m + 1;
      Roll(ny, nm, d - DaysInMonth(y, m))
    else Day(y, m, d)
  }

  /** `new Date(y, monthIndex, d)` read back through its getters. */
  function MakeDate(y: int, monthIndex: int, d: int): (r: Day)
    ensures Calendar(r)
  {
    Roll(FullYear(y) + monthIndex / 12, monthIndex % 12 + 1, d)
  }

  /** A day within its month does not roll. */
  lemma RollWithin(y: int, m: int, d: int)
    requires 1 <= m <= 12 && 1 <= d <= DaysInMonth(y, m)
    ensures Roll(y, m, d) == Day(y, m, d)
  {
  }

  /** A day of at most 31 rolls at most into the next month, so at most into the next year. */
  lemma RollShort(y: int, m: int, d: int)
    requires 1 <= m <= 12 && 1 <= d <= 31
    ensures y <= Roll(y, m, d).year <= y + 1
  {
    if d > DaysInMonth(y, m) {
      var ny, nm := if m == 12 then y + 1 else y, if m == 12 then 1 else m + 1;
      RollWithin(ny, nm, d - DaysInMonth(y, m));
    }
  }

  /** A month 1-12 passed as `month - 1` is not carried. */
  lemma MakeDateMonth(y: int, m: int, d: int)
    requires 1 <= m <= 12
    ensures MakeDate(y, m - 1, d) == Roll(FullYear(y), m, d)
  {
  }

  /** `new Date(y, m, 0).getDate()`: day 0 of the next month is the last day of month `m`. */
  lemma LastDayOfMonth(y: int, m: int)
    requires 1 <= m <= 12 && !(0 <= y <= 99)
    ensures MakeDate(y, m, 0) == Day(y, m, DaysInMonth(y, m))
  {
    if m == 12 {
      assert MakeDate(y, m, 0) == Roll(y + 1, 1, 0);
      RollWithin(y, 12, 31);
    } else {
      assert MakeDate(y, m, 0) == Roll(y, m + 1, 0);
      RollWithin(y, m, DaysInMonth(y, m));
    }
  }

  /** `new Date(y, m - 1, d)` gives back `y`, `m` and `d` iff they name an existing day and `y` is not a two-digit year. */
  lemma MakeDateRoundTrip(y: int, m: int, d: int)
    ensures MakeDate(y, m - 1, d) == Day(y, m, d) <==> Calendar(Day(y, m, d)) && !(0 <= y <= 99)
  {
    if Calendar(Day(y, m, d)) && !(0 <= y <= 99) {
      MakeDateMonth(y, m, d);
      RollWithin(y, m, d);
    }
    if MakeDate(y, m - 1, d) == Day(y, m, d) {
      assert Calendar(Day(y, m, d));
      MakeDateMonth(y, m, d);
      if 0 <= y <= 99 {
        RollShort(FullYear(y), m, d);
      }
    }
  }
}
