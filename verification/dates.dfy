/** Calendar dates as the date inputs deliver them: ISO `YYYY-MM-DD` strings.

    `new Date("YYYY-MM-DD")` reads such a string as midnight UTC of that day, so
    comparing two parsed dates with `<` or `>` is the year/month/day order of
    `Before`. Only well-formed strings are modelled. The browser's date input
    yields either such a string or the empty string.
 */
module Dates {
  import opened EventTypes

  datatype Date = Date(year: int, month: int, day: int)

  predicate IsLeapYear(y: int) {
    y % 4 == 0 && (y % 100 != 0 || y % 400 == 0)
  }

  function DaysInMonth(year: int, month: int): int
    requires 1 <= month <= 12
  {
    if month == 2 then (if IsLeapYear(year) then 29 else 28)
    else if month == 4 || month == 6 || month == 9 || month == 11 then 30
    else 31
  }

  predicate Valid(d: Date) {
    && 0 <= d.year <= 9999
    && 1 <= d.month <= 12
    && 1 <= d.day <= DaysInMonth(d.year, d.month)
  }

  /** `a` is strictly earlier than `b`. */
  predicate Before(a: Date, b: Date) {
    || a.year < b.year
    || (a.year == b.year && a.month < b.month)
    || (a.year == b.year && a.month == b.month && a.day < b.day)
  }

  predicate IsDigit(c: char) {
    '0' <= c <= '9'
  }

  function DigitValue(c: char): int
    requires IsDigit(c)
  {
    c as int - '0' as int
  }

  function DigitChar(n: int): char
    requires 0 <= n <= 9
  {
    ('0' as int + n) as char
  }

  /** `YYYY-MM-DD`, digits and dashes in place; the values are not checked yet. */
  predicate Shaped(s: string) {
    && |s| == 10
    && s[4] == '-' && s[7] == '-'
    && IsDigit(s[0]) && IsDigit(s[1]) && IsDigit(s[2]) && IsDigit(s[3])
    && IsDigit(s[5]) && IsDigit(s[6]) && IsDigit(s[8]) && IsDigit(s[9])
  }

  function Fields(s: string): Date
    requires Shaped(s)
  {
    Date(DigitValue(s[0]) * 1000 + DigitValue(s[1]) * 100 + DigitValue(s[2]) * 10 + DigitValue(s[3]),
         DigitValue(s[5]) * 10 + DigitValue(s[6]),
         DigitValue(s[8]) * 10 + DigitValue(s[9]))
  }

  /** The date an ISO date string names, or `None` when it names none. */
  function ParseIso(s: string): Option<Date> {
    if Shaped(s) && Valid(Fields(s)) then Some(Fields(s)) else None
  }

  predicate IsIsoDate(s: string) {
    ParseIso(s).Some?
  }

  function Pad2(n: int): string
    requires 0 <= n <= 99
  {
    [DigitChar(n / 10), DigitChar(n % 10)]
  }

  function Pad4(n: int): string
    requires 0 <= n <= 9999
  {
    [DigitChar(n / 1000), DigitChar(n / 100 % 10), DigitChar(n / 10 % 10), DigitChar(n % 10)]
  }

  /** The ISO string of a date, as `toISOString().slice(0, 10)` writes it. */
  function FormatIso(d: Date): string
    requires Valid(d)
  {
    Pad4(d.year) + "-" + Pad2(d.month) + "-" + Pad2(d.day)
  }

  lemma FourDigits(n: int)
    requires 0 <= n <= 9999
    ensures n == (n / 1000) * 1000 + (n / 100 % 10) * 100 + (n / 10 % 10) * 10 + n % 10
  {
  }

  lemma SplitFour(a: int, b: int, c: int, d: int)
    requires 0 <= a <= 9 && 0 <= b <= 9 && 0 <= c <= 9 && 0 <= d <= 9
    ensures var n := a * 1000 + b * 100 + c * 10 + d;
      n / 1000 == a && n / 100 % 10 == b && n / 10 % 10 == c && n % 10 == d
  {
    var n := a * 1000 + b * 100 + c * 10 + d;
    var h, t := a * 10 + b, a * 100 + b * 10 + c;
    assert n / 1000 == a;
    assert n / 100 == h;
    assert h % 10 == b;
    assert n / 10 == t;
    assert t % 10 == c;
    assert n % 10 == d;
  }

  /** Formatting a valid date and parsing it back gives the same date. */
  lemma ParseFormat(d: Date)
    requires Valid(d)
    ensures ParseIso(FormatIso(d)) == Some(d)
  {
    var s := FormatIso(d);
    FourDigits(d.year);
    assert Shaped(s);
    assert Fields(s) == d;
  }

  /** Parsing a well-formed string and formatting the date gives the same string. */
  lemma FormatParse(s: string)
    requires IsIsoDate(s)
    ensures FormatIso(ParseIso(s).value) == s
  {
    var d := Fields(s);
    SplitFour(DigitValue(s[0]), DigitValue(s[1]), DigitValue(s[2]), DigitValue(s[3]));
    var t := FormatIso(d);
    assert |t| == 10;
    forall i | 0 <= i < 10
      ensures t[i] == s[i]
    {
    }
  }
}
