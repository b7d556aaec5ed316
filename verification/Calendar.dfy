/** Whole-second UTC time, counted from the zero time (Monday, January 1 of year 1). */
module Calendar {

  const DAY := 86400

  function DayNumber(t: int): int { t / DAY }

  /** Seconds since midnight. */
  function Clock(t: int): int { t % DAY }

  /** Sunday is 0. */
  function WeekdayOf(day: int): int { (day + 1) % 7 }

  function Weekday(t: int): int { WeekdayOf(DayNumber(t)) }

  predicate IsLeap(year: nat)
  {
    year % 4 == 0 && (year % 100 != 0 || year % 400 == 0)
  }

  /** Months are counted from January of year 1. */
  function MonthLength(m: nat): (n: nat)
    ensures 28 <= n <= 31
  {
    var year, month := m / 12 + 1, m % 12;
    if month == 1 then (if IsLeap(year) then 29 else 28)
    else if month in {3, 5, 8, 10} then 30
    else 31
  }

  function MonthStart(m: nat): nat
  {
    if m == 0 then 0 else MonthStart(m - 1) + MonthLength(m - 1)
  }

  function MonthFrom(day: nat, m: nat): (r: nat)
    requires MonthStart(m) <= day
    ensures m <= r && MonthStart(r) <= day < MonthStart(r + 1)
    decreases day - MonthStart(m)
  {
    if day < MonthStart(m + 1) then m else MonthFrom(day, m + 1)
  }

  function MonthOf(day: nat): (m: nat)
    ensures MonthStart(m) <= day < MonthStart(m + 1)
  {
    MonthFrom(day, 0)
  }

  function DayOfMonth(day: nat): (d: nat)
    ensures 1 <= d <= MonthLength(MonthOf(day))
  {
    day - MonthStart(MonthOf(day)) + 1
  }

  lemma {:induction false} MonthStartGrows(a: nat, b: nat)
    requires a <= b
    ensures MonthStart(a) <= MonthStart(b)
    ensures a < b ==> MonthStart(a + 1) <= MonthStart(b)
    decreases b - a
  {
    if a < b {
      MonthStartGrows(a, b - 1);
    }
  }

  /** A day is identified by its month and its day of the month. */
  lemma DateIsDay(a: nat, b: nat)
    ensures a == b <==> MonthOf(a) == MonthOf(b) && DayOfMonth(a) == DayOfMonth(b)
  {}

  /** The first day of every month is day 1 of that month. */
  lemma FirstOfMonth(m: nat)
    ensures MonthOf(MonthStart(m)) == m && DayOfMonth(MonthStart(m)) == 1
  {
    var r := MonthOf(MonthStart(m));
    if r < m {
      MonthStartGrows(r, m);
    } else if m < r {
      MonthStartGrows(m, r);
    }
  }

  /** Years have 366 days when they are leap years and 365 otherwise. */
  lemma YearLength(y: nat)
    ensures MonthStart(12 * y + 12) - MonthStart(12 * y) == if IsLeap(y + 1) then 366 else 365
  {
    QuarterLength(y, 0);
    QuarterLength(y, 3);
    QuarterLength(y, 6);
    QuarterLength(y, 9);
    hide MonthStart, IsLeap;
  }

  lemma QuarterLength(y: nat, k: nat)
    requires k in {0, 3, 6, 9}
    ensures MonthStart(12 * y + k + 3) - MonthStart(12 * y + k) ==
            if k == 0 then (if IsLeap(y + 1) then 91 else 90) else if k == 3 then 91 else 92
  {
    Quarter(12 * y + k);
    MonthIs(y, k);
    MonthIs(y, k + 1);
    MonthIs(y, k + 2);
    hide MonthStart, MonthLength, IsLeap;
  }

  lemma MonthIs(y: nat, k: nat)
    requires k < 12
    ensures MonthLength(12 * y + k) == LengthIn(y, k)
  {
    assert (12 * y + k) / 12 == y && (12 * y + k) % 12 == k;
  }

  /** The length of month k of a year, January being 0. */
  function LengthIn(y: nat, k: nat): nat
  {
    if k == 1 then (if IsLeap(y + 1) then 29 else 28) else if k in {3, 5, 8, 10} then 30 else 31
  }

  lemma Quarter(m: nat)
    ensures MonthStart(m + 3) == MonthStart(m) + MonthLength(m) + MonthLength(m + 1) + MonthLength(m + 2)
  {
    assert MonthStart(m + 2) == MonthStart(m + 1) + MonthLength(m + 1);
  }

  /** The days of the first y years by the Gregorian rule: a leap day every fourth year, but not every
      hundredth, but every four hundredth. */
  function GregorianDays(y: nat): int { 365 * y + y / 4 - y / 100 + y / 400 }

  lemma {:induction false} YearStart(y: nat)
    ensures MonthStart(12 * y) == GregorianDays(y)
  {
    if y > 0 {
      YearStart(y - 1);
      YearLength(y - 1);
      GregorianStep(y - 1);
      assert 12 * (y - 1) + 12 == 12 * y;
      hide MonthStart, IsLeap, GregorianDays;
    }
  }

  lemma GregorianStep(y: nat)
    ensures GregorianDays(y + 1) == GregorianDays(y) + (if IsLeap(y + 1) then 366 else 365)
  {
    Quarters(y);
    Centuries(y);
    FourCenturies(y);
    LeapStep(y + 1);
    hide IsLeap;
  }

  lemma Quarters(y: nat)
    ensures (y + 1) / 4 == y / 4 + (if (y + 1) % 4 == 0 then 1 else 0)
  {}

  lemma Centuries(y: nat)
    ensures (y + 1) / 100 == y / 100 + (if (y + 1) % 100 == 0 then 1 else 0)
  {}

  lemma FourCenturies(y: nat)
    ensures (y + 1) / 400 == y / 400 + (if (y + 1) % 400 == 0 then 1 else 0)
  {}

  lemma LeapStep(y: nat)
    ensures (if y % 4 == 0 then 1 else 0) - (if y % 100 == 0 then 1 else 0) + (if y % 400 == 0 then 1 else 0) == if IsLeap(y) then 1 else 0
  {
    if y % 400 == 0 {
      assert y == 100 * (4 * (y / 400));
      OfHundred(4 * (y / 400));
    }
    if y % 100 == 0 {
      assert y == 4 * (25 * (y / 100));
      OfFour(25 * (y / 100));
    }
  }

  lemma OfFour(m: nat)
    ensures (4 * m) % 4 == 0
  {}

  lemma OfHundred(m: nat)
    ensures (100 * m) % 100 == 0
  {}
}
