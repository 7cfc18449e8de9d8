/** Calendar arithmetic of the report script: proleptic Gregorian dates, a day
    number (the ordinal Python's date.toordinal gives), day steps, month ends,
    and the date checks the command line applies before any quote is fetched. */
module Calendar {

  datatype CalendarDate = CalendarDate(year: int, month: int, day: int)

  predicate IsLeapYear(y: int) {
    y % 4 == 0 && (y % 100 != 0 || y % 400 == 0)
  }

  function DaysInMonth(y: int, m: int): (n: int)
    requires 1 <= m <= 12
    ensures 28 <= n <= 31
    ensures n == 29 <==> m == 2 && IsLeapYear(y)
  {
    if m == 2 then (if IsLeapYear(y) then 29 else 28)
    else if m == 4 || m == 6 || m == 9 || m == 11 then 30
    else 31
  }

  predicate WellFormed(d: CalendarDate) {
    1 <= d.month <= 12 && 1 <= d.day <= DaysInMonth(d.year, d.month)
  }

  /** A date that exists in the proleptic Gregorian calendar. */
  type Date = d: CalendarDate | WellFormed(d) witness CalendarDate(2002, 1, 2)

  /** The (year, month, day) lexicographic order every date check of the script uses. */
  predicate Le(a: Date, b: Date) {
    a.year < b.year ||
    (a.year == b.year && (a.month < b.month || (a.month == b.month && a.day <= b.day)))
  }

  function YearLength(y: int): int {
    if IsLeapYear(y) then 366 else 365
  }

  /** Days in all years before year y (for y >= 1; the same formula is used for every y). */
  function DaysBeforeYear(y: int): int {
    365 * (y - 1) + (y - 1) / 4 - (y - 1) / 100 + (y - 1) / 400
  }

  /** Days in the months of year y before month m. */
  function DaysBeforeMonth(y: int, m: int): int
    requires 1 <= m <= 12
  {
    var common :=
      if m == 1 then 0 else if m == 2 then 31 else if m == 3 then 59
      else if m == 4 then 90 else if m == 5 then 120 else if m == 6 then 151
      else if m == 7 then 181 else if m == 8 then 212 else if m == 9 then 243
      else if m == 10 then 273 else if m == 11 then 304 else 334;
    common + (if m > 2 && IsLeapYear(y) then 1 else 0)
  }

  /** The day number of a date; 0001-01-01 is day 1. A timedelta of k days moves it by k. */
  function DayNumber(d: Date): int {
    DaysBeforeYear(d.year) + DaysBeforeMonth(d.year, d.month) + d.day
  }

  lemma FloorStep(x: int)
    ensures (x + 1) / 4 - x / 4 == (if (x + 1) % 4 == 0 then 1 else 0)
    ensures (x + 1) / 100 - x / 100 == (if (x + 1) % 100 == 0 then 1 else 0)
    ensures (x + 1) / 400 - x / 400 == (if (x + 1) % 400 == 0 then 1 else 0)
  {
  }

  lemma DivisorsOfCentury(y: int)
    ensures y % 100 == 0 ==> y % 4 == 0
    ensures y % 400 == 0 ==> y % 100 == 0
  {
    if y % 100 == 0 {
      var t := 25 * (y / 100);
      assert y == 4 * t;
      assert y / 4 == t;
    }
    if y % 400 == 0 {
      var t := 4 * (y / 400);
      assert y == 100 * t;
      assert y / 100 == t;
    }
  }

  lemma {:induction false} DaysBeforeNextYear(y: int)
    ensures DaysBeforeYear(y + 1) == DaysBeforeYear(y) + YearLength(y)
  {
    FloorStep(y - 1);
    DivisorsOfCentury(y);
    var leap := (if y % 4 == 0 then 1 else 0) - (if y % 100 == 0 then 1 else 0) + (if y % 400 == 0 then 1 else 0);
    assert DaysBeforeYear(y + 1) == DaysBeforeYear(y) + 365 + leap;
    assert YearLength(y) == 365 + leap;
  }

  lemma MonthStep(y: int, m: int)
    requires 1 <= m < 12
    ensures DaysBeforeMonth(y, m + 1) == DaysBeforeMonth(y, m) + DaysInMonth(y, m)
  {
  }

  lemma {:induction false} DaysBeforeYearMonotone(y1: int, y2: int)
    requires y1 <= y2
    ensures DaysBeforeYear(y1) + 365 * (y2 - y1) <= DaysBeforeYear(y2)
    decreases y2 - y1
  {
    if y1 < y2 {
      DaysBeforeYearMonotone(y1, y2 - 1);
      DaysBeforeNextYear(y2 - 1);
    }
  }

  /** A date's day number lies inside its year. */
  lemma DayNumberInYear(d: Date)
    ensures DaysBeforeYear(d.year) < DayNumber(d) <= DaysBeforeYear(d.year + 1)
  {
    DaysBeforeNextYear(d.year);
  }

  /** The lexicographic order is the chronological order of day numbers. */
  lemma {:induction false} OrderByDayNumber(a: Date, b: Date)
    ensures Le(a, b) <==> DayNumber(a) <= DayNumber(b)
    ensures a == b <==> DayNumber(a) == DayNumber(b)
  {
    if a.year < b.year {
      DayNumberInYear(a);
      DayNumberInYear(b);
      DaysBeforeYearMonotone(a.year + 1, b.year);
    } else if b.year < a.year {
      DayNumberInYear(a);
      DayNumberInYear(b);
      DaysBeforeYearMonotone(b.year + 1, a.year);
    }
  }

  /** The day after d. */
  function NextDay(d: Date): (r: Date)
    ensures DayNumber(r) == DayNumber(d) + 1
  {
    if d.day < DaysInMonth(d.year, d.month) then CalendarDate(d.year, d.month, d.day + 1)
    else if d.month < 12 then MonthStep(d.year, d.month); CalendarDate(d.year, d.month + 1, 1)
    else DaysBeforeNextYear(d.year); CalendarDate(d.year + 1, 1, 1)
  }

  /** The day before d. */
  function PrevDay(d: Date): (r: Date)
    ensures DayNumber(r) == DayNumber(d) - 1
  {
    if d.day > 1 then CalendarDate(d.year, d.month, d.day - 1)
    else if d.month > 1 then
      MonthStep(d.year, d.month - 1);
      CalendarDate(d.year, d.month - 1, DaysInMonth(d.year, d.month - 1))
    else DaysBeforeNextYear(d.year - 1); CalendarDate(d.year - 1, 12, 31)
  }

  /** d + timedelta(days=k), for any sign of k. */
  function AddDays(d: Date, k: int): (r: Date)
    ensures DayNumber(r) == DayNumber(d) + k
    decreases if k < 0 then -k else k
  {
    if k == 0 then d
    else if k > 0 then AddDays(NextDay(d), k - 1)
    else AddDays(PrevDay(d), k + 1)
  }

  /** Number of days from a to b, as (b - a).days. */
  function DaysBetween(a: Date, b: Date): int {
    DayNumber(b) - DayNumber(a)
  }

  /** Months counted from year 0, so that consecutive calendar months differ by one. */
  function MonthIndex(d: Date): int {
    12 * d.year + d.month - 1
  }

  predicate SameMonth(a: Date, b: Date) {
    a.year == b.year && a.month == b.month
  }

  /** Month indexes order dates by month: equal exactly within one month, and a smaller
      index means an earlier date. */
  lemma MonthIndexOrder(a: Date, b: Date)
    ensures MonthIndex(a) == MonthIndex(b) <==> SameMonth(a, b)
    ensures MonthIndex(a) < MonthIndex(b) ==> Le(a, b) && a != b
    ensures Le(a, b) ==> MonthIndex(a) <= MonthIndex(b)
  {
  }

  /** The dates on or after the day after c are those after c. */
  lemma AfterNextDay(c: Date)
    ensures forall x: Date :: Le(NextDay(c), x) <==> Le(c, x) && c != x
  {
    forall x: Date ensures Le(NextDay(c), x) <==> Le(c, x) && c != x {
      OrderByDayNumber(NextDay(c), x);
      OrderByDayNumber(c, x);
    }
  }

  /** isValidDate: the date is not after today. */
  function IsValidDate(date: Date, today: Date): (r: bool)
    ensures r <==> Le(date, today)
    ensures r <==> DayNumber(date) <= DayNumber(today)
  {
    OrderByDayNumber(date, today);
    if date.year > today.year then false
    else if date.year == today.year && date.month > today.month then false
    else if date.year == today.year && date.month == today.month && date.day > today.day then false
    else true
  }

  /** checkPeriod: the begin of the period is not after its end. */
  function CheckPeriod(beginDate: Date, endDate: Date): (r: bool)
    ensures r <==> Le(beginDate, endDate)
    ensures r <==> DayNumber(beginDate) <= DayNumber(endDate)
  {
    OrderByDayNumber(beginDate, endDate);
    if beginDate.year < endDate.year then true
    else if beginDate.year == endDate.year && beginDate.month < endDate.month then true
    else if beginDate.year == endDate.year && beginDate.month == endDate.month
            && beginDate.day <= endDate.day then true
    else false
  }

  /** The first day the gold price source publishes: 2013-01-02. */
  const GoldDataStart: Date := CalendarDate(2013, 1, 2)

  /** The first day the exchange rate source publishes: 2002-01-02. */
  const CurrencyDataStart: Date := CalendarDate(2002, 1, 2)

  /** checkGoldDataAvailability: the date is on or after 2013-01-02. */
  function CheckGoldDataAvailability(beginDate: Date): (r: bool)
    ensures r <==> Le(GoldDataStart, beginDate)
    ensures r <==> DayNumber(GoldDataStart) <= DayNumber(beginDate)
  {
    OrderByDayNumber(GoldDataStart, beginDate);
    if beginDate.year < 2013 then false
    else if beginDate.month == 1 && beginDate.day < 2 && beginDate.year == 2013 then false
    else true
  }

  /** checkCurrencyDataAvailability: the date is on or after 2002-01-02. */
  function CheckCurrencyDataAvailability(beginDate: Date): (r: bool)
    ensures r <==> Le(CurrencyDataStart, beginDate)
    ensures r <==> DayNumber(CurrencyDataStart) <= DayNumber(beginDate)
  {
    OrderByDayNumber(CurrencyDataStart, beginDate);
    if beginDate.year < 2002 then false
    else if beginDate.month == 1 && beginDate.day < 2 && beginDate.year == 2002 then false
    else true
  }

  /** getEndOfTheMonth: the last day of the date's month. */
  function GetEndOfTheMonth(date: Date): (r: Date)
    ensures SameMonth(r, date)
    ensures r.day == DaysInMonth(date.year, date.month)
    ensures Le(date, r) && DayNumber(date) <= DayNumber(r)
    ensures NextDay(r).day == 1 && MonthIndex(NextDay(r)) == MonthIndex(date) + 1
  {
    OrderByDayNumber(date, CalendarDate(date.year, date.month, DaysInMonth(date.year, date.month)));
    if date.month == 12 then CalendarDate(date.year, 12, 31)
    else PrevDay(CalendarDate(date.year, date.month + 1, 1))
  }

  /** calculateNumberOfMonths: 0 for two dates of one month, otherwise the number of
      calendar months from begin's month to end's month, both included. */
  function CalculateNumberOfMonths(begin: Date, end: Date): (n: int)
    ensures Le(begin, end) && SameMonth(begin, end) ==> n == 0
    ensures Le(begin, end) && !SameMonth(begin, end) ==>
              n == 12 * (end.year - begin.year) + end.month - begin.month + 1 &&
              n == MonthIndex(end) - MonthIndex(begin) + 1 && n >= 2
  {
    if end.year != begin.year && end.year - begin.year >= 2 then
      var diffOfYears := end.year - (begin.year + 1);
      diffOfYears * 12 + (12 - begin.month) + 1 + end.month
    else if end.year == begin.year && end.month != begin.month then
      end.month - begin.month + 1
    else if end.year == begin.year && end.month == begin.month then
      0
    else
      12 + end.month - begin.month + 1
  }

  /** The market-close rule: a date equal to today, given while the hour is before 16,
      is moved back one day, because the day's quotes are not published yet. */
  function ShiftBeforeClose(date: Date, today: Date, hour: int): (r: Date)
    ensures date == today && hour < 16 ==> DaysBetween(r, date) == 1
    ensures !(date == today && hour < 16) ==> r == date
  {
    if date.year == today.year && date.month == today.month && date.day == today.day && hour < 16
    then AddDays(date, -1)
    else date
  }
}
