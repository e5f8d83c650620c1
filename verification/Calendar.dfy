/** UTC dates as the services read them: year, month (0..11) and the
milliseconds since the start of that month. */
module Calendar {
  const MS_PER_DAY := 86_400_000

  datatype Date = Date(year: int, month: nat, ms: nat)

  /** Date.getTime: milliseconds since 1970-01-01 in the proleptic Gregorian calendar. */
  function Time(d: Date): int {
    MonthStart(d.year * 12 + d.month) + d.ms
  }

  /** Date.UTC(year, month, 1) for the month with this index; months past 11 carry into the year. */
  function MonthStart(index: int): int {
    FirstDay(index / 12, index % 12) * MS_PER_DAY
  }

  /** The first of the month, in days since 1970-01-01; March opens the year that the leap day closes. */
  function FirstDay(year: int, month: int): int {
    var shifted := if month <= 1 then year - 1 else year;
    365 * shifted + LeapDays(shifted) + DayOfYear(month) - 719468
  }

  function DayOfYear(month: int): int {
    (153 * ((month + 10) % 12) + 2) / 5
  }

  function LeapDays(year: int): int {
    year / 4 - year / 100 + year / 400
  }

  function MonthIndex(d: Date): int {
    d.year * 12 + d.month
  }

  function StartOfMonth(index: int): Date {
    Date(index / 12, index % 12, 0)
  }

  /** The last second of the month, at which the source's month ranges end. */
  function EndOfMonth(index: int): int {
    MonthStart(index + 1) - 1000
  }

  // ---- The months ----

  predicate Leap(year: int) {
    year % 4 == 0 && (year % 100 != 0 || year % 400 == 0)
  }

  function DaysInMonth(year: int, month: int): (days: int)
    ensures 28 <= days <= 31
  {
    if month == 1 then (if Leap(year) then 29 else 28)
    else if month == 3 || month == 5 || month == 8 || month == 10 then 30
    else 31
  }

  /** How many days the month with this index has. */
  function DaysIn(index: int): (days: int)
    ensures 28 <= days <= 31
  {
    DaysInMonth(index / 12, index % 12)
  }

  /** The month is one of twelve and the milliseconds do not run past its end. */
  predicate WellFormed(d: Date) {
    d.month < 12 && d.ms < DaysIn(MonthIndex(d)) * MS_PER_DAY
  }

  /** Time is counted from the first of January 1970. */
  lemma EpochIsZero(ms: nat)
    ensures Time(Date(1970, 0, ms)) == ms
  {
  }

  lemma LeapDaysGrow(year: int)
    ensures LeapDays(year) == LeapDays(year - 1) + if Leap(year) then 1 else 0
  {
    QuotientGrows(year, 4);
    QuotientGrows(year, 100);
    QuotientGrows(year, 400);
    if year % 100 == 0 {
      MultipleOfFour(year, year / 100 * 25);
    }
    if year % 400 == 0 {
      MultipleOfHundred(year, year / 400 * 4);
    }
  }

  lemma MultipleOfFour(n: int, k: int)
    requires n == 4 * k
    ensures n % 4 == 0
  {
  }

  lemma MultipleOfHundred(n: int, k: int)
    requires n == 100 * k
    ensures n % 100 == 0
  {
  }

  lemma QuotientGrows(year: int, n: int)
    requires n == 4 || n == 100 || n == 400
    ensures year / n == (year - 1) / n + if year % n == 0 then 1 else 0
  {
  }

  lemma MonthTable()
    ensures DayOfYear(2) == 0 && DayOfYear(3) == 31 && DayOfYear(4) == 61 && DayOfYear(5) == 92 && DayOfYear(6) == 122
    ensures DayOfYear(7) == 153 && DayOfYear(8) == 184 && DayOfYear(9) == 214 && DayOfYear(10) == 245
    ensures DayOfYear(11) == 275 && DayOfYear(0) == 306 && DayOfYear(1) == 337
  {
  }

  lemma NextMonth(year: int, month: int)
    requires 0 <= month < 12
    ensures FirstDay(year, month) + DaysInMonth(year, month)
            == if month == 11 then FirstDay(year + 1, 0) else FirstDay(year, month + 1)
  {
    LeapDaysGrow(year);
    MonthTable();
    hide LeapDays, Leap, DayOfYear;
  }

  lemma NextIndex(index: int)
    ensures
      var y, m := index / 12, index % 12;
      (index + 1) / 12 == (if m == 11 then y + 1 else y) && (index + 1) % 12 == if m == 11 then 0 else m + 1
  {
  }

  lemma DaysLater(first: int, days: int)
    ensures (first + days) * MS_PER_DAY == first * MS_PER_DAY + days * MS_PER_DAY
  {
  }

  /** A month ends where the next begins, after its days. */
  lemma MonthLength(index: int)
    ensures MonthStart(index + 1) == MonthStart(index) + DaysIn(index) * MS_PER_DAY
  {
    hide FirstDay, DaysInMonth;
    NextMonth(index / 12, index % 12);
    NextIndex(index);
    DaysLater(FirstDay(index / 12, index % 12), DaysIn(index));
  }

  lemma {:induction false} MonthsInOrder(i: int, j: int)
    requires i <= j
    ensures MonthStart(i) + (j - i) <= MonthStart(j)
    decreases j - i
  {
    hide MonthStart, DaysInMonth;
    if i < j {
      MonthsInOrder(i, j - 1);
      MonthLength(j - 1);
    }
  }

  /** A well-formed date lies in its month and in no other. */
  lemma DateIsInItsMonth(d: Date, i: int)
    requires WellFormed(d)
    ensures MonthStart(i) <= Time(d) < MonthStart(i + 1) <==> i == MonthIndex(d)
  {
    hide MonthStart, DaysInMonth;
    var own := MonthIndex(d);
    MonthLength(own);
    if i < own {
      MonthsInOrder(i + 1, own);
    } else if own < i {
      MonthsInOrder(own + 1, i);
    }
  }
}
