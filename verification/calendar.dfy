/** Gregorian dates as day numbers, and the month arithmetic posting and year-end use. */
module Calendar {
  import opened Money

  /** A day number; day 0 begins month 0. Month k is month (k % 12) + 1 of year k / 12. */
  type Date = nat

  predicate IsLeap(year: nat) {
    year % 4 == 0 && (year % 100 != 0 || year % 400 == 0)
  }

  function DaysIn(month: nat): (n: nat)
    ensures 28 <= n <= 31
  {
    var m := month % 12;
    if m == 1 then (if IsLeap(month / 12) then 29 else 28)
    else if m == 3 || m == 5 || m == 8 || m == 10 then 30
    else 31
  }

  function FirstDay(month: nat): Date {
    if month == 0 then 0 else FirstDay(month - 1) + DaysIn(month - 1)
  }

  function MonthFrom(month: nat, date: Date): (k: nat)
    requires FirstDay(month) <= date
    ensures FirstDay(k) <= date < FirstDay(k + 1)
    decreases date - FirstDay(month)
  {
    if date < FirstDay(month + 1) then month else MonthFrom(month + 1, date)
  }

  /** The month a date falls in. */
  function MonthOf(date: Date): (k: nat)
    ensures FirstDay(k) <= date < FirstDay(k + 1)
  {
    MonthFrom(0, date)
  }

  lemma {:induction false} FirstDayMonotone(j: nat, k: nat)
    requires j <= k
    ensures FirstDay(j) + 28 * (k - j) <= FirstDay(k)
  {
    if j < k {
      FirstDayMonotone(j, k - 1);
    }
  }

  /** Months partition the days. */
  lemma MonthUnique(k: nat, date: Date)
    requires FirstDay(k) <= date < FirstDay(k + 1)
    ensures k == MonthOf(date)
  {
    var m := MonthOf(date);
    if k < m {
      FirstDayMonotone(k + 1, m);
    } else if m < k {
      FirstDayMonotone(m + 1, k);
    }
  }

  /** The same day a year later; the 29th of February becomes the 28th. */
  function OneYearOn(date: Date): Date {
    var k := MonthOf(date);
    FirstDay(k + 12) + Min(date - FirstDay(k), DaysIn(k + 12) - 1)
  }

  lemma OneYearOnIsLater(date: Date)
    ensures date + 300 < OneYearOn(date)
  {
    FirstDayMonotone(MonthOf(date), MonthOf(date) + 12);
  }

  /** From the first of a month, a year on is the first of the twelfth month after it. */
  lemma OneYearOnMonths(month: nat)
    ensures OneYearOn(FirstDay(month)) == FirstDay(month + 12)
  {
    MonthUnique(month, FirstDay(month));
  }
}
