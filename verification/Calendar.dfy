/** Days since 1970-01-01 in the proleptic Gregorian calendar: the closed form, counting, and the way back. */
module Calendar {
  import opened Core

  const MONTH_DAYS: seq<nat> := [31, 28, 31, 30, 31, 30, 31, 31, 30, 31, 30, 31]

  predicate Leap(year: nat) {
    (year % 4 == 0 && year % 100 != 0) || year % 400 == 0
  }

  function YearDays(year: nat): nat {
    if Leap(year) then 366 else 365
  }

  function DaysIn(year: nat, month: nat): nat
    requires 1 <= month <= 12
  {
    if month == 2 && Leap(year) then 29 else MONTH_DAYS[month - 1]
  }

  datatype Date = Date(year: nat, month: nat, day: nat) {
    predicate Valid() {
      year >= 1970 && 1 <= month <= 12 && 1 <= day <= DaysIn(year, month)
    }

    predicate Before(d: Date) {
      year < d.year || (year == d.year && (month < d.month || (month == d.month && day < d.day)))
    }
  }

  // ---------------------------------------------------------------------------
  // Counting one day at a time
  // ---------------------------------------------------------------------------

  function NextDay(d: Date): Date
    requires d.Valid()
  {
    if d.day < DaysIn(d.year, d.month) then d.(day := d.day + 1)
    else if d.month < 12 then Date(d.year, d.month + 1, 1)
    else Date(d.year + 1, 1, 1)
  }

  /** The date `n` days after 1970-01-01. */
  function DateAfter(n: nat): (d: Date)
    ensures d.Valid()
  {
    if n == 0 then Date(1970, 1, 1) else NextDay(DateAfter(n - 1))
  }

  // ---------------------------------------------------------------------------
  // The closed form
  // ---------------------------------------------------------------------------

  function LeapDays(year: nat): int {
    year / 4 - year / 100 + year / 400
  }

  function YearStart(year: nat): int
    requires year >= 1
  {
    (year - 1970) * 365 + (LeapDays(year - 1) - LeapDays(1969))
  }

  /** Days of a common year before the month begins. */
  function MonthOffset(month: nat): nat
    requires 1 <= month <= 13
  {
    if month == 1 then 0 else MonthOffset(month - 1) + MONTH_DAYS[month - 2]
  }

  function MonthStart(year: nat, month: nat): nat
    requires 1 <= month <= 13
  {
    MonthOffset(month) + if Leap(year) && month > 2 then 1 else 0
  }

  function DayNumber(year: nat, month: nat, day: nat): int
    requires year >= 1 && 1 <= month <= 12
  {
    YearStart(year) + MonthStart(year, month) + (day - 1)
  }

  /** The source's computation, its month loop included; the caller has checked month and day. */
  method GregorianDaysSinceEpoch(year: nat, month: nat, day: nat) returns (r: Option<int>)
    requires year >= 1 && 1 <= month <= 12 && day >= 1
    ensures r == if year < 1970 then None else Some(DayNumber(year, month, day))
    ensures var d := Date(year, month, day); d.Valid() ==> r.Some? && r.value >= 0 && DateAfter(r.value) == d
  {
    var y := year - 1;
    var leapDays := y / 4 - y / 100 + y / 400;
    if year < 1970 {
      return None;
    }
    var daysFromYears := (year - 1970) * 365 + (leapDays - (1969 / 4 - 1969 / 100 + 1969 / 400));
    var monthOffset := 0;
    var m := 1;
    while m < month
      invariant 1 <= m <= month && monthOffset == MonthOffset(m)
    {
      monthOffset := monthOffset + MONTH_DAYS[m - 1];
      m := m + 1;
    }
    if Leap(year) && month > 2 {
      monthOffset := monthOffset + 1;
    }
    r := Some(daysFromYears + monthOffset + (day - 1));
    assert r.value == DayNumber(year, month, day);
    if Date(year, month, day).Valid() {
      EveryDateReached(Date(year, month, day));
    }
  }

  lemma {:induction false} MultipleFar(k: nat, d: nat)
    requires k > 0 && d > 0
    ensures k * d >= k
  {
    if d > 1 {
      MultipleFar(k, d - 1);
      assert k * d == k * (d - 1) + k;
    }
  }

  lemma QuotientIs(n: int, k: nat, q: int, r: int)
    requires k > 0 && n == k * q + r && 0 <= r < k
    ensures n / k == q
  {
    var d := n / k - q;
    assert k * d == r - n % k;
    if d > 0 {
      MultipleFar(k, d);
    } else if d < 0 {
      MultipleFar(k, -d);
    }
  }

  lemma QuotientStep(n: nat, k: nat)
    requires n >= 1 && k > 0
    ensures n / k == (n - 1) / k + if n % k == 0 then 1 else 0
  {
    var q, r := n / k, n % k;
    if r == 0 {
      assert n - 1 == k * (q - 1) + (k - 1);
      QuotientIs(n - 1, k, q - 1, k - 1);
    } else {
      QuotientIs(n - 1, k, q, r - 1);
    }
  }

  lemma DividesDown(n: nat, a: nat, b: nat)
    requires a > 0 && b > 0 && n % (a * b) == 0
    ensures n % b == 0
  {
    var q := n / (a * b);
    assert n == a * b * q == b * (a * q);
    QuotientIs(n, b, a * q, 0);
  }

  lemma LeapDaysStep(year: nat)
    requires year >= 1
    ensures LeapDays(year) == LeapDays(year - 1) + if Leap(year) then 1 else 0
  {
    QuotientStep(year, 4);
    QuotientStep(year, 100);
    QuotientStep(year, 400);
    if year % 100 == 0 {
      DividesDown(year, 25, 4);
    }
    if year % 400 == 0 {
      DividesDown(year, 4, 100);
    }
  }

  lemma YearStep(year: nat)
    requires year >= 1
    ensures YearStart(year + 1) == YearStart(year) + YearDays(year)
  {
    LeapDaysStep(year);
  }

  lemma MonthStep(year: nat, month: nat)
    requires 1 <= month <= 12
    ensures MonthStart(year, month + 1) == MonthStart(year, month) + DaysIn(year, month)
  {
  }

  lemma MonthEnd(year: nat)
    ensures MonthStart(year, 13) == YearDays(year)
  {
    assert MonthOffset(4) == 90;
    assert MonthOffset(7) == 181;
    assert MonthOffset(10) == 273;
    assert MonthOffset(13) == 365;
  }

  /** One day later is one more, across month ends, leap days and new years alike. */
  lemma NextDayCounts(d: Date)
    requires d.Valid()
    ensures var n := NextDay(d); n.Valid() && DayNumber(n.year, n.month, n.day) == DayNumber(d.year, d.month, d.day) + 1
  {
    MonthStep(d.year, d.month);
    if d.month == 12 {
      MonthEnd(d.year);
      YearStep(d.year);
    }
  }

  lemma {:induction false} DayNumberOfCount(n: nat)
    ensures var d := DateAfter(n); DayNumber(d.year, d.month, d.day) == n
  {
    if n > 0 {
      DayNumberOfCount(n - 1);
      NextDayCounts(DateAfter(n - 1));
    }
  }

  lemma {:induction false} YearsIncrease(a: nat, b: nat)
    requires 1 <= a <= b
    ensures YearStart(a) <= YearStart(b)
    decreases b
  {
    if a < b {
      YearsIncrease(a, b - 1);
      YearStep(b - 1);
    }
  }

  lemma {:induction false} MonthsIncrease(year: nat, a: nat, b: nat)
    requires 1 <= a <= b <= 13
    ensures MonthStart(year, a) <= MonthStart(year, b)
    decreases b
  {
    if a < b {
      MonthsIncrease(year, a, b - 1);
      MonthStep(year, b - 1);
    }
  }

  /** A valid date lies inside its month and its year. */
  lemma InsideYear(d: Date)
    requires d.Valid()
    ensures YearStart(d.year) <= DayNumber(d.year, d.month, d.day) < YearStart(d.year + 1)
    ensures DayNumber(d.year, d.month, d.day) < YearStart(d.year) + MonthStart(d.year, d.month + 1)
  {
    MonthStep(d.year, d.month);
    MonthsIncrease(d.year, d.month + 1, 13);
    MonthEnd(d.year);
    YearStep(d.year);
  }

  lemma WithinYearIncreasing(a: Date, b: Date)
    requires a.Valid() && b.Valid() && a.Before(b) && a.year == b.year
    ensures DayNumber(a.year, a.month, a.day) < DayNumber(b.year, b.month, b.day)
  {
    if a.month < b.month {
      MonthStep(a.year, a.month);
      MonthsIncrease(a.year, a.month + 1, b.month);
    }
  }

  /** Later dates have larger numbers. */
  lemma StrictlyIncreasing(a: Date, b: Date)
    requires a.Valid() && b.Valid() && a.Before(b)
    ensures DayNumber(a.year, a.month, a.day) < DayNumber(b.year, b.month, b.day)
  {
    if a.year == b.year {
      WithinYearIncreasing(a, b);
    } else {
      InsideYear(a);
      YearsIncrease(a.year + 1, b.year);
      assert DayNumber(b.year, b.month, b.day) >= YearStart(b.year);
    }
  }

  /** The closed form is counting: a valid date has number `n` exactly if it is `n` days after 1970-01-01. */
  lemma ClosedFormCounts(d: Date, n: nat)
    requires d.Valid()
    ensures DayNumber(d.year, d.month, d.day) == n <==> d == DateAfter(n)
  {
    DayNumberOfCount(n);
    var e := DateAfter(n);
    if d.Before(e) {
      StrictlyIncreasing(d, e);
    } else if e.Before(d) {
      StrictlyIncreasing(e, d);
    }
  }

  /** Every date from 1970 on is some number of days after the epoch, and the closed form says how many. */
  lemma EveryDateReached(d: Date)
    requires d.Valid()
    ensures DayNumber(d.year, d.month, d.day) >= 0 && DateAfter(DayNumber(d.year, d.month, d.day)) == d
  {
    YearsIncrease(1970, d.year);
    ClosedFormCounts(d, DayNumber(d.year, d.month, d.day));
  }

  /** A day past the end of its month, which the parser lets through, counts on into the next month. */
  lemma SurplusDays(year: nat, month: nat, extra: nat)
    requires year >= 1970 && 1 <= month < 12
    ensures DayNumber(year, month, DaysIn(year, month) + extra) == DayNumber(year, month + 1, extra)
  {
  }

  // ---------------------------------------------------------------------------
  // The way back, as the loops subtract years and months
  // ---------------------------------------------------------------------------

  method FindYear(days: nat) returns (year: nat, rest: nat)
    ensures year >= 1970 && rest < YearDays(year) && YearStart(year) + rest == days
  {
    year, rest := 1970, days;
    while rest >= YearDays(year)
      invariant year >= 1970 && YearStart(year) + rest == days
      decreases rest
    {
      YearStep(year);
      rest := rest - YearDays(year);
      year := year + 1;
    }
  }

  method DaysToYmd(days: nat) returns (d: Date)
    ensures d == DateAfter(days)
    ensures d.Valid() && DayNumber(d.year, d.month, d.day) == days
  {
    var year, rest := FindYear(days);
    var month := 1;
    MonthEnd(year);
    while month <= 12 && rest >= DaysIn(year, month)
      invariant 1 <= month <= 13 && rest >= 0
      invariant YearStart(year) + MonthStart(year, month) + rest == days
      invariant MonthStart(year, month) + rest < YearDays(year)
      decreases 13 - month
    {
      MonthStep(year, month);
      rest := rest - DaysIn(year, month);
      month := month + 1;
    }
    d := Date(year, month, rest + 1);
    ClosedFormCounts(d, days);
  }
}
