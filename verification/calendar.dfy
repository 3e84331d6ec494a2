/** Dates as day numbers: day 0 is Thursday 1 January 1970 in the server's
    local time zone, and every record's date is the day it falls on. The
    Gregorian year and month of a day stand in for `getFullYear`,
    `getMonth` and date-fns' `startOfMonth`/`startOfYear`. */
module Calendar {

  /** Day of the week with weeks starting on Monday: 0 is Monday and 6 is
      Sunday. */
  function Weekday(d: int): (r: int)
    ensures 0 <= r < 7
  {
    (d + 3) % 7
  }

  /** The Monday of the week containing `d`. */
  function WeekStart(d: int): (r: int)
    ensures r <= d < r + 7
    ensures Weekday(r) == 0
  {
    d - Weekday(d)
  }

  predicate IsLeap(y: int) {
    y % 4 == 0 && (y % 100 != 0 || y % 400 == 0)
  }

  function DaysInYear(y: int): int {
    if IsLeap(y) then 366 else 365
  }

  /** Length of month `m` (0 is January) of year `y`. */
  function DaysInMonth(y: int, m: int): int {
    if m == 1 then (if IsLeap(y) then 29 else 28)
    else if m == 3 || m == 5 || m == 8 || m == 10 then 30
    else 31
  }

  /** The year containing day `d`, counted from 1 January of year `y`, and
      the position of `d` within that year. */
  function YearAndDay(d: int, y: int): (r: (int, int))
    ensures 0 <= r.1 < DaysInYear(r.0)
    decreases if d < 0 then 1 else 0, if d < 0 then -d else d
  {
    if d < 0 then YearAndDay(d + DaysInYear(y - 1), y - 1)
    else if d < DaysInYear(y) then (y, d)
    else YearAndDay(d - DaysInYear(y), y + 1)
  }

  function MonthOfYearDay(doy: int, y: int, m: int): (r: int)
    requires 0 <= m <= 11
    ensures m <= r <= 11
    decreases 11 - m
  {
    if m == 11 || doy < DaysInMonth(y, m) then m
    else MonthOfYearDay(doy - DaysInMonth(y, m), y, m + 1)
  }

  function Year(d: int): int {
    YearAndDay(d, 1970).0
  }

  /** `getMonth()`: 0 is January, 11 is December. */
  function Month(d: int): (r: int)
    ensures 0 <= r < 12
  {
    var (y, doy) := YearAndDay(d, 1970);
    MonthOfYearDay(doy, y, 0)
  }

  /** The calendar month containing `d` (`startOfMonth`..`endOfMonth`). */
  predicate SameMonth(d: int, e: int) {
    Year(d) == Year(e) && Month(d) == Month(e)
  }

  /** The calendar year containing `d` (`startOfYear`..`endOfYear`). */
  predicate SameYear(d: int, e: int) {
    Year(d) == Year(e)
  }

  /** Full English weekday names, Monday first. */
  const DAY_NAMES: seq<string> :=
    ["Monday", "Tuesday", "Wednesday", "Thursday", "Friday", "Saturday", "Sunday"]

  /** Three-letter English month names, January first. */
  const MONTH_NAMES: seq<string> :=
    ["Jan", "Feb", "Mar", "Apr", "May", "Jun", "Jul", "Aug", "Sep", "Oct", "Nov", "Dec"]
}
