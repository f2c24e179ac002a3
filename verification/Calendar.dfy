/**
 * The proleptic Gregorian calendar of section 21.4.1 of ECMA-262, and the
 * billing step built on Date.prototype.setUTCMonth.
 *
 * A month is one integer, 12 * year + month (month 0 is January), so that
 * month overflow is plain addition.
 */
module Calendar {
  function DayNumber(t: int): int {
    t / 86_400_000
  }

  function TimeInDay(t: int): (r: int)
    ensures 0 <= r < 86_400_000
    ensures t == DayNumber(t) * 86_400_000 + r
  {
    t % 86_400_000
  }

  function MakeDate(day: int, time: int): int {
    day * 86_400_000 + time
  }

  lemma MakeDateParts(day: int, time: int)
    requires 0 <= time < 86_400_000
    ensures DayNumber(MakeDate(day, time)) == day && TimeInDay(MakeDate(day, time)) == time
  {
  }

  datatype BillingCycle = MONTHLY | SEMIANNUAL | ANNUAL

  function CycleMonths(cycle: BillingCycle): nat {
    match cycle
    case MONTHLY => 1
    case SEMIANNUAL => 6
    case ANNUAL => 12
  }

  predicate LeapYear(y: int) {
    y % 4 == 0 && (y % 100 != 0 || y % 400 == 0)
  }

  function MonthLength(k: int): (n: int)
    ensures 28 <= n <= 31
  {
    var m := k % 12;
    if m == 1 then if LeapYear(k / 12) then 29 else 28
    else if m == 3 || m == 5 || m == 8 || m == 10 then 30
    else 31
  }

  /** Day number (from 1 January 1970) of 1 January of year y. */
  function DayFromYear(y: int): int {
    365 * (y - 1970) + (y - 1969) / 4 - (y - 1901) / 100 + (y - 1601) / 400
  }

  /** Days of a year before its month m. */
  function DaysBefore(m: nat, leap: bool): int
    requires m < 12
  {
    var common := [0, 31, 59, 90, 120, 151, 181, 212, 243, 273, 304, 334][m];
    if leap && m >= 2 then common + 1 else common
  }

  const EPOCH_MONTH := 12 * 1970

  /** Day number of the first of a month, counted month by month from January 1970. */
  function FirstDay(k: int): int
    decreases if k < EPOCH_MONTH then EPOCH_MONTH - k else k - EPOCH_MONTH
  {
    if k == EPOCH_MONTH then 0
    else if k > EPOCH_MONTH then FirstDay(k - 1) + MonthLength(k - 1)
    else FirstDay(k + 1) - MonthLength(k)
  }

  lemma MonthsAbut(k: int)
    ensures FirstDay(k + 1) == FirstDay(k) + MonthLength(k)
  {
  }

  lemma LeapDivision4(y: int)
    ensures (y - 1968) / 4 - (y - 1969) / 4 == if y % 4 == 0 then 1 else 0
  {
  }

  lemma LeapDivision100(y: int)
    ensures (y - 1900) / 100 - (y - 1901) / 100 == if y % 100 == 0 then 1 else 0
  {
  }

  lemma LeapDivision400(y: int)
    ensures (y - 1600) / 400 - (y - 1601) / 400 == if y % 400 == 0 then 1 else 0
  {
  }

  lemma Multiples(y: int)
    ensures y % 100 == 0 ==> y % 4 == 0
    ensures y % 400 == 0 ==> y % 100 == 0
  {
    if y % 100 == 0 { assert y == 4 * (25 * (y / 100)); }
    if y % 400 == 0 { assert y == 100 * (4 * (y / 400)); }
  }

  lemma YearLength(y: int)
    ensures DayFromYear(y + 1) == DayFromYear(y) + if LeapYear(y) then 366 else 365
  {
    LeapDivision4(y);
    LeapDivision100(y);
    LeapDivision400(y);
    Multiples(y);
    assert y + 1 - 1969 == y - 1968 && y + 1 - 1901 == y - 1900 && y + 1 - 1601 == y - 1600;
  }

  lemma {:induction false} MonthInYear(y: int, m: nat)
    requires m <= 12
    ensures FirstDay(12 * y + m) - FirstDay(12 * y)
         == if m == 12 then if LeapYear(y) then 366 else 365 else DaysBefore(m, LeapYear(y))
  {
    if m > 0 {
      MonthInYear(y, m - 1);
      MonthsAbut(12 * y + (m - 1));
      assert (12 * y + (m - 1)) / 12 == y && (12 * y + (m - 1)) % 12 == m - 1;
    }
  }

  lemma {:induction false} YearStart(y: int)
    ensures FirstDay(12 * y) == DayFromYear(y)
    decreases if y < 1970 then 1970 - y else y - 1970
  {
    if y > 1970 {
      YearStart(y - 1);
      YearStep(y - 1);
    } else if y < 1970 {
      YearStart(y + 1);
      YearStep(y);
    }
  }

  lemma YearStep(y: int)
    ensures FirstDay(12 * (y + 1)) - FirstDay(12 * y) == DayFromYear(y + 1) - DayFromYear(y)
    ensures FirstDay(12 * (y + 1)) - FirstDay(12 * y) == if LeapYear(y) then 366 else 365
  {
    MonthInYear(y, 12);
    YearLength(y);
    assert 12 * (y + 1) == 12 * y + 12;
  }

  /** Counting months agrees, for every month, with the closed form and its leap-year divisions. */
  lemma FirstDayIsStandard(y: int, m: nat)
    requires m < 12
    ensures FirstDay(12 * y + m) == DayFromYear(y) + DaysBefore(m, LeapYear(y))
  {
    YearStart(y);
    MonthInYear(y, m);
  }

  /** Summed lengths of the n months from month k on. */
  function Span(k: int, n: nat): int
    decreases n
  {
    if n == 0 then 0 else MonthLength(k) + Span(k + 1, n - 1)
  }

  lemma {:induction false} FirstDaySpan(k: int, n: nat)
    ensures FirstDay(k + n) == FirstDay(k) + Span(k, n)
    ensures Span(k, n) >= 28 * n
    decreases n
  {
    if n > 0 {
      FirstDaySpan(k + 1, n - 1);
      MonthsAbut(k);
    }
  }

  lemma FirstDayMonotone(k: int, j: int)
    requires k < j
    ensures FirstDay(k) < FirstDay(j)
  {
    FirstDaySpan(k, j - k);
  }

  /** The month a day falls in: the last one that starts no later. */
  function MonthOf(day: int): (k: int)
    ensures FirstDay(k) <= day < FirstDay(k + 1)
  {
    if 0 <= day then MonthUp(day, EPOCH_MONTH) else MonthDown(day, EPOCH_MONTH)
  }

  function MonthUp(day: int, k: int): (r: int)
    requires FirstDay(k) <= day
    ensures FirstDay(r) <= day < FirstDay(r + 1)
    decreases day - FirstDay(k)
  {
    MonthsAbut(k);
    if day < FirstDay(k + 1) then k else MonthUp(day, k + 1)
  }

  function MonthDown(day: int, k: int): (r: int)
    requires day < FirstDay(k)
    ensures FirstDay(r) <= day < FirstDay(r + 1)
    decreases FirstDay(k) - day
  {
    MonthsAbut(k - 1);
    if FirstDay(k - 1) <= day then k - 1 else MonthDown(day, k - 1)
  }

  lemma MonthOfUnique(day: int, k: int)
    requires FirstDay(k) <= day < FirstDay(k + 1)
    ensures MonthOf(day) == k
  {
    var j := MonthOf(day);
    if j < k {
      if j + 1 < k { FirstDayMonotone(j + 1, k); }
    } else if k < j {
      if k + 1 < j { FirstDayMonotone(k + 1, j); }
    }
  }

  /** Day of the month, from 1. */
  function DateOf(day: int): (d: int)
    ensures 1 <= d <= MonthLength(MonthOf(day))
  {
    MonthsAbut(MonthOf(day));
    day - FirstDay(MonthOf(day)) + 1
  }

  /** MakeDay of section 21.4.1: neither the month nor the date has to be in range. */
  function MakeDay(month: int, date: int): int {
    FirstDay(month) + date - 1
  }

  /** addBillingCycle: setUTCMonth(getUTCMonth() + months) on a copy of the start instant. */
  function AddBillingCycle(start: int, cycle: BillingCycle): int {
    var day := DayNumber(start);
    MakeDate(MakeDay(MonthOf(day) + CycleMonths(cycle), DateOf(day)), TimeInDay(start))
  }

  /** The step is exactly the months it crosses, whatever the day of the month. */
  lemma CycleAdvances(start: int, cycle: BillingCycle)
    ensures AddBillingCycle(start, cycle) == start + Span(MonthOf(DayNumber(start)), CycleMonths(cycle)) * 86_400_000
    ensures DayNumber(AddBillingCycle(start, cycle))
         == DayNumber(start) + Span(MonthOf(DayNumber(start)), CycleMonths(cycle))
  {
    var day := DayNumber(start);
    FirstDaySpan(MonthOf(day), CycleMonths(cycle));
    MakeDateParts(MakeDay(MonthOf(day) + CycleMonths(cycle), DateOf(day)), TimeInDay(start));
  }

  lemma HalfYear(y: int, m: nat)
    requires m < 12
    ensures 181 <= FirstDay(12 * y + m + 6) - FirstDay(12 * y + m) <= 184
  {
    MonthInYear(y, m);
    if m < 6 {
      MonthInYear(y, m + 6);
    } else {
      MonthInYear(y + 1, m - 6);
      YearStep(y);
      assert 12 * (y + 1) + (m - 6) == 12 * y + m + 6;
    }
  }

  lemma WholeYear(y: int, m: nat)
    requires m < 12
    ensures FirstDay(12 * y + m + 12) - FirstDay(12 * y + m) == if LeapYear(if m <= 1 then y else y + 1) then 366 else 365
  {
    MonthInYear(y, m);
    MonthInYear(y + 1, m);
    YearStep(y);
    assert 12 * (y + 1) + m == 12 * y + m + 12;
  }

  lemma CycleIsLong(start: int, cycle: BillingCycle)
    ensures AddBillingCycle(start, cycle) >= start + 28 * 86_400_000
  {
    CycleAdvances(start, cycle);
  }

  /** Whether the `days` of one cycle from month m of year y are what the calendar allows. */
  predicate CycleDays(y: int, m: int, cycle: BillingCycle, days: int) {
    match cycle
    case MONTHLY => 28 <= days <= 31
    case SEMIANNUAL => 181 <= days <= 184
    case ANNUAL => days == if LeapYear(if m <= 1 then y else y + 1) then 366 else 365
  }

  lemma SpanLengths(y: int, m: nat, cycle: BillingCycle)
    requires m < 12
    ensures CycleDays(y, m, cycle, Span(12 * y + m, CycleMonths(cycle)))
  {
    var k := 12 * y + m;
    FirstDaySpan(k, CycleMonths(cycle));
    match cycle
    case MONTHLY => MonthsAbut(k);
    case SEMIANNUAL => HalfYear(y, m);
    case ANNUAL => WholeYear(y, m);
  }

  /** So a cycle lasts 28-31, 181-184 or 365-366 days, and 366 only across a 29 February. */
  lemma CycleLengths(start: int, cycle: BillingCycle)
    ensures var k := MonthOf(DayNumber(start));
            CycleDays(k / 12, k % 12, cycle, DayNumber(AddBillingCycle(start, cycle)) - DayNumber(start))
  {
    var k := MonthOf(DayNumber(start));
    CycleAdvances(start, cycle);
    SpanLengths(k / 12, k % 12, cycle);
    assert k == 12 * (k / 12) + k % 12;
  }

  /**
   * Where the step lands on the calendar: the same date when the target month
   * has it, else the overflow spills into the month after.
   */
  lemma CycleLandsOn(start: int, cycle: BillingCycle)
    ensures var day := DayNumber(start);
            var target := MonthOf(day) + CycleMonths(cycle);
            var landed := DayNumber(AddBillingCycle(start, cycle));
            if DateOf(day) <= MonthLength(target)
            then MonthOf(landed) == target && DateOf(landed) == DateOf(day)
            else MonthOf(landed) == target + 1 && DateOf(landed) == DateOf(day) - MonthLength(target)
  {
    var day := DayNumber(start);
    var target := MonthOf(day) + CycleMonths(cycle);
    var landed := DayNumber(AddBillingCycle(start, cycle));
    MakeDateParts(MakeDay(target, DateOf(day)), TimeInDay(start));
    MonthsAbut(target);
    MonthsAbut(target + 1);
    MonthOfUnique(landed, if DateOf(day) <= MonthLength(target) then target else target + 1);
  }
}
