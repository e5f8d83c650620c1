/** The fiscal period as it is stored: found by its name, and bounded by the first instant and the last full second of a
    month. */
module FiscalPeriods {
  import opened Money
  import opened Calendar
  import opened JournalNumber

  /** String.padStart(2, '0'). */
  function TwoDigits(s: string): string {
    if |s| >= 2 then s else "0" + s
  }

  /** The year and the month, counted from 1. */
  function PeriodName(year: int, month: nat): string {
    Signed(year) + "-" + MonthText(month)
  }

  function MonthText(month: nat): string {
    TwoDigits(Digits(month + 1))
  }

  lemma TwoDigitsKeepValue(s: string)
    requires AllDigits(s)
    ensures AllDigits(TwoDigits(s)) && Value(TwoDigits(s)) == Value(s)
  {
    LeadingZero(s);
  }

  lemma SignedIsOneToOne(x: int, y: int)
    requires Signed(x) == Signed(y)
    ensures x == y
  {
    assert IsDigit(Digits(IntAbs(x))[0]) && IsDigit(Digits(IntAbs(y))[0]);
    ValueOfDigits(IntAbs(x));
    ValueOfDigits(IntAbs(y));
    hide Digits, Value;
    assert x < 0 ==> Signed(x)[0] == '-' && Signed(x)[1..] == Digits(-x);
    assert y < 0 ==> Signed(y)[0] == '-' && Signed(y)[1..] == Digits(-y);
  }

  /** What stands before and after the last dash is determined. */
  lemma SplitAtDash(a: string, b: string, a': string, b': string)
    requires AllDigits(b) && AllDigits(b') && a + "-" + b == a' + "-" + b'
    ensures a == a' && b == b'
  {
    var s := a + "-" + b;
    LastDashIs(a, b);
    LastDashIs(a', b');
    hide LastDash, AllDigits;
    assert s[..|a|] == a && s[|a| + 1..] == b;
    assert s[..|a'|] == a' && s[|a'| + 1..] == b';
  }

  lemma MonthDigits(month: nat)
    ensures AllDigits(MonthText(month)) && Value(MonthText(month)) == month + 1
  {
    ValueOfDigits(month + 1);
    TwoDigitsKeepValue(Digits(month + 1));
  }

  /** An entity's periods are looked up by name, and two names are the same only for the same year and month. */
  lemma PeriodNamesUnique(year: int, month: nat, year': int, month': nat)
    ensures PeriodName(year, month) == PeriodName(year', month') <==> year == year' && month == month'
  {
    MonthDigits(month);
    MonthDigits(month');
    hide Signed, MonthText;
    if PeriodName(year, month) == PeriodName(year', month') {
      SplitAtDash(Signed(year), MonthText(month), Signed(year'), MonthText(month'));
      SignedIsOneToOne(year, year');
    }
  }

  /** A date is never before its period's start, and past its period's end exactly in the last second of the month. */
  lemma PeriodBoundsDate(d: Date)
    requires WellFormed(d)
    ensures MonthStart(MonthIndex(d)) <= Time(d)
    ensures Time(d) <= EndOfMonth(MonthIndex(d)) <==> d.ms <= DaysIn(MonthIndex(d)) * MS_PER_DAY - 1000
  {
    hide MonthStart, DaysIn;
    MonthLength(MonthIndex(d));
  }
}
