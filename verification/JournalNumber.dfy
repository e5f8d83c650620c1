/** The rendered journal number, `code-JE-year-number` with the number padded to six digits. */
module JournalNumber {
  import opened Money
  import opened Ledger
  import opened Kernel
  import opened LedgerRuns

  const DIGITS := "0123456789"

  /** Decimal digits of n, most significant first. */
  function Digits(n: nat): (s: string)
    ensures |s| > 0 && AllDigits(s)
  {
    if n < 10 then [DIGITS[n]] else Digits(n / 10) + [DIGITS[n % 10]]
  }

  predicate IsDigit(c: char) {
    '0' <= c <= '9'
  }

  predicate AllDigits(s: string) {
    forall i :: 0 <= i < |s| ==> IsDigit(s[i])
  }

  /** The number a string of digits denotes; leading zeros count for nothing. */
  function Value(s: string): nat
    requires AllDigits(s)
  {
    if s == [] then 0 else Value(s[..|s| - 1]) * 10 + (s[|s| - 1] as int - '0' as int)
  }

  function Signed(n: int): string {
    if n < 0 then "-" + Digits(-n) else Digits(n)
  }

  /** String.padStart(6, '0'). */
  function Padded(s: string): string
    decreases 6 - |s|
  {
    if |s| >= 6 then s else Padded("0" + s)
  }

  function Render(code: string, year: int, n: nat): string {
    code + "-JE-" + Signed(year) + "-" + Padded(Digits(n))
  }

  // ---- Its width ----

  /** The last w decimal digits of n. */
  function InDigits(n: nat, w: nat): string {
    if w == 0 then "" else InDigits(n / 10, w - 1) + [DIGITS[n % 10]]
  }

  function Zeros(k: nat): string {
    if k == 0 then "" else Zeros(k - 1) + "0"
  }

  function Power(w: nat): nat {
    if w == 0 then 1 else 10 * Power(w - 1)
  }

  lemma {:induction false} NoughtInDigits(w: nat)
    ensures InDigits(0, w) == Zeros(w)
  {
    if w > 0 {
      NoughtInDigits(w - 1);
    }
  }

  lemma TenthFits(n: nat, p: nat)
    requires n < 10 * p
    ensures n / 10 < p
  {
  }

  lemma LastDigit(n: nat)
    ensures Digits(n) == (if n < 10 then "" else Digits(n / 10)) + [DIGITS[n % 10]]
  {
  }

  lemma {:induction false} DigitsFit(n: nat, w: nat)
    requires w >= 1 && n < Power(w)
    ensures |Digits(n)| <= w && InDigits(n, w) == Zeros(w - |Digits(n)|) + Digits(n)
  {
    var d := [DIGITS[n % 10]];
    LastDigit(n);
    TenthFits(n, Power(w - 1));
    assert InDigits(n, w) == InDigits(n / 10, w - 1) + d;
    if n < 10 {
      NoughtInDigits(w - 1);
    } else {
      hide Digits;
      assert w > 1;
      DigitsFit(n / 10, w - 1);
      var zeros := Zeros(w - |Digits(n)|);
      assert (zeros + Digits(n / 10)) + d == zeros + (Digits(n / 10) + d);
    }
  }

  lemma {:induction false} PaddedIs(s: string)
    requires |s| <= 6
    ensures Padded(s) == Zeros(6 - |s|) + s
    decreases 6 - |s|
  {
    if |s| < 6 {
      PaddedIs("0" + s);
      assert Zeros(6 - |s| - 1) + ("0" + s) == (Zeros(6 - |s| - 1) + "0") + s;
    }
  }

  /** Below a million the number stands in six digits. */
  lemma RenderedInSix(code: string, year: int, n: nat)
    requires n < 1_000_000
    ensures Render(code, year, n) == code + "-JE-" + Signed(year) + "-" + InDigits(n, 6)
  {
    assert Power(6) == 1_000_000 by {
      assert Power(3) == 1000 && Power(4) == 10_000 && Power(5) == 100_000;
    }
    DigitsFit(n, 6);
    PaddedIs(Digits(n));
  }

  // ---- Reading it back, right to left ----

  function LastDash(s: string): (i: int)
    ensures -1 <= i < |s|
    ensures i >= 0 ==> s[i] == '-'
  {
    if s == [] then -1 else if s[|s| - 1] == '-' then |s| - 1 else LastDash(s[..|s| - 1])
  }

  datatype Parts = Parts(code: string, year: int, n: nat)

  predicate EndsWith(s: string, suffix: string) {
    |s| >= |suffix| && s[|s| - |suffix|..] == suffix
  }

  /** What precedes the year's digits tells its sign and ends the code. */
  function ReadHead(head: string, year: nat, n: nat): Option<Parts> {
    if EndsWith(head, "-JE") then Some(Parts(head[..|head| - 3], year, n))
    else if EndsWith(head, "-JE-") then Some(Parts(head[..|head| - 4], -(year as int), n))
    else None
  }

  function Parse(s: string): Option<Parts> {
    var i := LastDash(s);
    if i < 0 then None
    else
      var j := LastDash(s[..i]);
      if j < 0 || !AllDigits(s[i + 1..]) || !AllDigits(s[j + 1..i]) then None
      else ReadHead(s[..j], Value(s[j + 1..i]), Value(s[i + 1..]))
  }

  lemma {:induction false} ValueOfDigits(n: nat)
    ensures Value(Digits(n)) == n
  {
    if n >= 10 {
      ValueOfDigits(n / 10);
      assert Digits(n)[..|Digits(n)| - 1] == Digits(n / 10);
    }
  }

  lemma {:induction false} LeadingZero(s: string)
    requires AllDigits(s)
    ensures AllDigits("0" + s) && Value("0" + s) == Value(s)
  {
    if s != [] {
      LeadingZero(s[..|s| - 1]);
      assert ("0" + s)[..|s|] == "0" + s[..|s| - 1];
    }
  }

  lemma {:induction false} PaddedKeepsValue(s: string)
    requires AllDigits(s)
    ensures AllDigits(Padded(s)) && Value(Padded(s)) == Value(s)
    decreases 6 - |s|
  {
    if |s| < 6 {
      LeadingZero(s);
      PaddedKeepsValue("0" + s);
    }
  }

  lemma {:induction false} LastDashIs(front: string, digits: string)
    requires AllDigits(digits)
    ensures LastDash(front + "-" + digits) == |front|
  {
    var s := front + "-" + digits;
    if digits != [] {
      LastDashIs(front, digits[..|digits| - 1]);
      assert s[..|s| - 1] == front + "-" + digits[..|digits| - 1];
    }
  }

  lemma ParseSplits(head: string, year: string, number: string)
    requires AllDigits(year) && AllDigits(number)
    ensures Parse(head + "-" + year + "-" + number) == ReadHead(head, Value(year), Value(number))
  {
    var front := head + "-" + year;
    var s := front + "-" + number;
    LastDashIs(front, number);
    LastDashIs(head, year);
    assert s[..|front|] == front && s[|front| + 1..] == number;
    assert s[..|head|] == head && s[|head| + 1..|front|] == year;
  }

  lemma ReadHeadOf(code: string, year: nat, n: nat)
    ensures ReadHead(code + "-JE", year, n) == Some(Parts(code, year, n))
    ensures ReadHead(code + "-JE-", year, n) == Some(Parts(code, -(year as int), n))
  {
    var minus := code + "-JE-";
    assert minus[|minus| - 3..][0] == 'J';
    assert minus[|minus| - 4..] == "-JE-" && minus[..|minus| - 4] == code;
    var plus := code + "-JE";
    assert plus[|plus| - 3..] == "-JE" && plus[..|plus| - 3] == code;
  }

  /** The head of a rendered number, up to the dash before the digits of the year. */
  lemma RenderSplits(code: string, year: int, n: nat)
    ensures
      var head := code + (if year < 0 then "-JE-" else "-JE");
      Render(code, year, n) == head + "-" + Digits(IntAbs(year)) + "-" + Padded(Digits(n))
  {
    hide Digits, Padded;
    var y := Digits(IntAbs(year));
    if year < 0 {
      assert code + "-JE-" + ("-" + y) == code + "-JE-" + "-" + y;
    } else {
      assert code + "-JE-" == code + "-JE" + "-";
    }
  }

  /** Reading a rendered number gives back the code, the year and the number: whatever dashes the
      code contains, for years of either sign, and for numbers past 999999. */
  lemma ParseRender(code: string, year: int, n: nat)
    ensures Parse(Render(code, year, n)) == Some(Parts(code, year, n))
  {
    var y, number := Digits(IntAbs(year)), Padded(Digits(n));
    RenderSplits(code, year, n);
    PaddedKeepsValue(Digits(n));
    ParseSplits(code + (if year < 0 then "-JE-" else "-JE"), y, number);
    ValueOfDigits(n);
    ValueOfDigits(IntAbs(year));
    ReadHeadOf(code, IntAbs(year), n);
  }

  function Rendered(codeOf: EntityId -> string, e: Entry): string
    requires e.number.Numbered?
  {
    Render(codeOf(e.entity), e.number.year, e.number.sequence)
  }

  /** With distinct entity codes, no two entries of any reachable journal share a rendered number. */
  lemma RenderedNumbersUnique(steps: seq<Step>, codeOf: EntityId -> string, i: EntryId, j: EntryId)
    requires forall a: EntityId, b: EntityId :: codeOf(a) == codeOf(b) ==> a == b
    requires i < |Run(EMPTY, steps).entries| && j < |Run(EMPTY, steps).entries| && i != j
    requires Run(EMPTY, steps).entries[i].number.Numbered? && Run(EMPTY, steps).entries[j].number.Numbered?
    ensures Rendered(codeOf, Run(EMPTY, steps).entries[i]) != Rendered(codeOf, Run(EMPTY, steps).entries[j])
  {
    var l := Run(EMPTY, steps);
    var a, b := l.entries[i], l.entries[j];
    EveryRunSound(steps);
    ParseRender(codeOf(a.entity), a.number.year, a.number.sequence);
    ParseRender(codeOf(b.entity), b.number.year, b.number.sequence);
    if Rendered(codeOf, a) == Rendered(codeOf, b) {
      assert Holds(l, i, a.entity, a.number.year, a.number.sequence);
      assert Holds(l, j, a.entity, a.number.year, a.number.sequence);
    }
  }
}
