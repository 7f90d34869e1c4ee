/** `parseInvoiceDate` and the date arithmetic of the two time windows.
    A date string is split on its separator the way JavaScript does it and
    reordered into `y-m-d`; the `Date` constructor itself is modelled by
    `ParseDateText`, which maps a `y-m-d` text of decimal digit groups that
    names a real Gregorian date to its day number and everything else to
    `None` (JavaScript's Invalid Date, whose differences are `NaN`, so no
    window comparison holds for it). */
module Dates {
  import opened Wrappers
  import opened Arith
  import opened Text

  predicate IsDigit(c: char) { '0' <= c <= '9' }

  predicate AllDigits(s: string) {
    |s| > 0 && forall i :: 0 <= i < |s| ==> IsDigit(s[i])
  }

  /** The decimal value of a run of digits. */
  function DigitsValue(s: string): nat
    requires forall i :: 0 <= i < |s| ==> IsDigit(s[i])
  {
    if s == [] then 0
    else
      assert IsDigit(s[|s| - 1]);
      DigitsValue(s[..|s| - 1]) * 10 + (s[|s| - 1] as int - '0' as int)
  }

  /** Destructuring `const [d, m, y] = parts`: a missing element is
      `undefined`, which interpolates as the text "undefined". */
  function Component(parts: seq<string>, i: nat): string {
    if i < |parts| then parts[i] else "undefined"
  }

  /** The first three parts of a split on `sep`, read as day, month and year, rejoined as year-month-day. */
  function ReorderToYmd(s: string, sep: char): string {
    var parts := Split(s, sep);
    Component(parts, 2) + "-" + Component(parts, 1) + "-" + Component(parts, 0)
  }

  predicate IsLeapYear(y: int) {
    y % 4 == 0 && (y % 100 != 0 || y % 400 == 0)
  }

  function DaysInMonth(y: int, m: int): nat
    requires 1 <= m <= 12
  {
    if m == 2 then (if IsLeapYear(y) then 29 else 28)
    else if m == 4 || m == 6 || m == 9 || m == 11 then 30
    else 31
  }

  /** The number of a day of the proleptic Gregorian calendar, counted from
      1 March of year 0; `DayNumberNext` proves that consecutive days get
      consecutive numbers, across month and year ends. */
  function DayNumber(y: int, m: int, d: int): int
    requires 1 <= m <= 12
  {
    var yy := if m <= 2 then y - 1 else y;
    YearStart(yy) + MonthOffset(m) + d - 1
  }

  /** Days from 1 March to the first of month `m`, in a year counted from March. */
  function MonthOffset(m: int): int
    requires 1 <= m <= 12
  {
    if m == 3 then 0 else if m == 4 then 31 else if m == 5 then 61 else if m == 6 then 92
    else if m == 7 then 122 else if m == 8 then 153 else if m == 9 then 184 else if m == 10 then 214
    else if m == 11 then 245 else if m == 12 then 275 else if m == 1 then 306 else 337
  }

  /** The number of 1 March of year `yy`. */
  function YearStart(yy: int): int {
    365 * yy + yy / 4 - yy / 100 + yy / 400
  }

  predicate ValidDate(y: int, m: int, d: int) {
    1 <= m <= 12 && 1 <= d <= DaysInMonth(y, m)
  }

  /** `new Date(text)` for a `y-m-d` text, as a day number. */
  function ParseDateText(text: string): (r: Option<int>)
    ensures r.Some? ==> Split(text, '-') != [] && |Split(text, '-')| == 3
  {
    var parts := Split(text, '-');
    if |parts| == 3 && AllDigits(parts[0]) && AllDigits(parts[1]) && AllDigits(parts[2]) then
      var y, m, d := DigitsValue(parts[0]), DigitsValue(parts[1]), DigitsValue(parts[2]);
      if ValidDate(y, m, d) then Some(DayNumber(y, m, d)) else None
    else
      None
  }

  /** `parseInvoiceDate`: a dotted `d.m.y` or dashed `d-m-y` string is
      reordered into `y-m-d`; any other text goes to the constructor as it is. */
  function ParseInvoiceDate(s: string): Option<int> {
    if '.' in s then ParseDateText(ReorderToYmd(s, '.'))
    else if '-' in s then ParseDateText(ReorderToYmd(s, '-'))
    else ParseDateText(s)
  }

  /** A text the constructor accepts denotes a real calendar day. */
  lemma ParseDateTextIsDay(text: string)
    ensures ParseDateText(text).Some? ==>
      exists y, m, d :: ValidDate(y, m, d) && ParseDateText(text).value == DayNumber(y, m, d)
  {
    if ParseDateText(text).Some? {
      var parts := Split(text, '-');
      var y, m, d := DigitsValue(parts[0]), DigitsValue(parts[1]), DigitsValue(parts[2]);
      assert ValidDate(y, m, d) && ParseDateText(text).value == DayNumber(y, m, d);
    }
  }

  /** Every date `parseInvoiceDate` accepts, in any of its three branches, is a real calendar day. */
  lemma ParseInvoiceDateIsDay(s: string)
    ensures ParseInvoiceDate(s).Some? ==>
      exists y, m, d :: ValidDate(y, m, d) && ParseInvoiceDate(s).value == DayNumber(y, m, d)
  {
    if '.' in s {
      ParseDateTextIsDay(ReorderToYmd(s, '.'));
    } else if '-' in s {
      ParseDateTextIsDay(ReorderToYmd(s, '-'));
    } else {
      ParseDateTextIsDay(s);
    }
  }

  /** The two days are at most `n` days apart; false whenever either date is invalid. */
  predicate WithinDays(a: Option<int>, b: Option<int>, n: nat) {
    a.Some? && b.Some? && Abs(a.value - b.value) <= n
  }

  lemma WithinDaysSymmetric(a: Option<int>, b: Option<int>, n: nat)
    ensures WithinDays(a, b, n) == WithinDays(b, a, n)
  {
  }

  /** Three digit groups joined by `sep` reorder into `y-m-d`. */
  lemma ReorderDigitGroups(d: string, m: string, y: string, sep: char)
    requires AllDigits(d) && AllDigits(m) && AllDigits(y)
    requires !IsDigit(sep)
    ensures ReorderToYmd(d + [sep] + m + [sep] + y, sep) == y + "-" + m + "-" + d
  {
    var parts := [d, m, y];
    assert Join(parts[2..], sep) == y;
    assert Join(parts[1..], sep) == m + [sep] + y;
    assert Join(parts, sep) == d + [sep] + m + [sep] + y;
    forall i | 0 <= i < 3 ensures sep !in parts[i] {
      if sep in parts[i] {
        var k :| 0 <= k < |parts[i]| && parts[i][k] == sep;
      }
    }
    SplitJoin(parts, sep);
  }

  /** `new Date("y-m-d")` on digit groups names the day they denote. */
  lemma ParseDigitGroups(y: string, m: string, d: string)
    requires AllDigits(y) && AllDigits(m) && AllDigits(d)
    ensures ParseDateText(y + "-" + m + "-" + d) ==
      var yv, mv, dv := DigitsValue(y), DigitsValue(m), DigitsValue(d);
      if ValidDate(yv, mv, dv) then Some(DayNumber(yv, mv, dv)) else None
  {
    var parts := [y, m, d];
    assert y + "-" + m + "-" + d == y + ['-'] + m + ['-'] + d;
    assert Join(parts[2..], '-') == d;
    assert Join(parts[1..], '-') == m + ['-'] + d;
    assert Join(parts, '-') == y + ['-'] + m + ['-'] + d;
    forall i | 0 <= i < 3 ensures '-' !in parts[i] {
      if '-' in parts[i] {
        var k :| 0 <= k < |parts[i]| && parts[i][k] == '-';
      }
    }
    SplitJoin(parts, '-');
  }

  /** Both accepted formats, `d.m.y` and `d-m-y`, parse to the same day,
      the one `y-m-d` names. */
  lemma {:induction false} ParseInvoiceDateFormats(d: string, m: string, y: string)
    requires AllDigits(d) && AllDigits(m) && AllDigits(y)
    ensures ParseInvoiceDate(d + "." + m + "." + y) == ParseDateText(y + "-" + m + "-" + d)
    ensures ParseInvoiceDate(d + "-" + m + "-" + y) == ParseDateText(y + "-" + m + "-" + d)
  {
    var dotted := d + "." + m + "." + y;
    var dashed := d + "-" + m + "-" + y;
    assert dotted == d + ['.'] + m + ['.'] + y;
    assert dashed == d + ['-'] + m + ['-'] + y;
    assert dotted[|d|] == '.';
    ReorderDigitGroups(d, m, y, '.');
    assert ParseInvoiceDate(dotted) == ParseDateText(ReorderToYmd(dotted, '.'));
    ReorderDigitGroups(d, m, y, '-');
    assert dashed[|d|] == '-';
    NoOtherSeparator(d, m, y, '-', '.');
    assert ParseInvoiceDate(dashed) == ParseDateText(ReorderToYmd(dashed, '-'));
  }

  /** Digit groups joined by `sep` contain no other non-digit `c`. */
  lemma NoOtherSeparator(d: string, m: string, y: string, sep: char, c: char)
    requires AllDigits(d) && AllDigits(m) && AllDigits(y)
    requires !IsDigit(c) && c != sep
    ensures c !in d + [sep] + m + [sep] + y
  {
    var s := d + [sep] + m + [sep] + y;
    forall k | 0 <= k < |s| ensures s[k] != c {
      if k < |d| {
        assert s[k] == d[k];
      } else if k == |d| {
      } else if k < |d| + 1 + |m| {
        assert s[k] == m[k - |d| - 1];
      } else if k == |d| + 1 + |m| {
      } else {
        assert s[k] == y[k - |d| - 2 - |m|];
      }
    }
  }

  /** The day a `d.m.y` date names, for digit groups denoting a real date. */
  lemma DottedDateDay(d: string, m: string, y: string)
    requires AllDigits(d) && AllDigits(m) && AllDigits(y)
    requires ValidDate(DigitsValue(y), DigitsValue(m), DigitsValue(d))
    ensures ParseInvoiceDate(d + "." + m + "." + y) == Some(DayNumber(DigitsValue(y), DigitsValue(m), DigitsValue(d)))
  {
    ParseInvoiceDateFormats(d, m, y);
    ParseDigitGroups(y, m, d);
  }

  /** The day after a real date has the next number: within a month, from a
      month's last day to the next month's first, and from 31 December to
      1 January (leap years included). */
  lemma DayNumberNext(y: int, m: int, d: int)
    requires ValidDate(y, m, d)
    ensures d < DaysInMonth(y, m) ==> DayNumber(y, m, d + 1) == DayNumber(y, m, d) + 1
    ensures d == DaysInMonth(y, m) && m < 12 ==> DayNumber(y, m + 1, 1) == DayNumber(y, m, d) + 1
    ensures d == DaysInMonth(y, m) && m == 12 ==> DayNumber(y + 1, 1, 1) == DayNumber(y, m, d) + 1
  {
    if d < DaysInMonth(y, m) {
      SameMonthDistance(y, m, d, d + 1);
    } else if m == 2 {
      FebruaryEnd(y);
    } else if m < 12 {
      MonthStep(y, m);
    }
  }

  /** Outside February, the next month starts `DaysInMonth` days later. */
  lemma MonthStep(y: int, m: int)
    requires 1 <= m < 12 && m != 2
    ensures DayNumber(y, m + 1, 1) == DayNumber(y, m, 1) + DaysInMonth(y, m)
  {
  }

  /** 1 March follows 28 February, or 29 February in a leap year. */
  lemma FebruaryEnd(y: int)
    ensures DayNumber(y, 3, 1) == DayNumber(y, 2, DaysInMonth(y, 2)) + 1
  {
    LeapStep(y);
    assert YearStart(y) - YearStart(y - 1) == 365 + if IsLeapYear(y) then 1 else 0;
    assert DayNumber(y, 3, 1) == YearStart(y);
  }

  /** Going from year `y - 1` to `y`, each of the three leap-year counts
      grows by one exactly when its divisor divides `y`. */
  lemma LeapStep(y: int)
    ensures y / 4 - (y - 1) / 4 == if y % 4 == 0 then 1 else 0
    ensures y / 100 - (y - 1) / 100 == if y % 100 == 0 then 1 else 0
    ensures y / 400 - (y - 1) / 400 == if y % 400 == 0 then 1 else 0
    ensures y % 100 == 0 ==> y % 4 == 0
    ensures y % 400 == 0 ==> y % 100 == 0
  {
    if y % 100 == 0 {
      assert y == 4 * (25 * (y / 100));
    }
    if y % 400 == 0 {
      assert y == 100 * (4 * (y / 400));
    }
  }

  /** Days of one month are numbered consecutively. */
  lemma SameMonthDistance(y: int, m: int, d1: int, d2: int)
    requires 1 <= m <= 12
    ensures DayNumber(y, m, d2) - DayNumber(y, m, d1) == d2 - d1
  {
  }
}
