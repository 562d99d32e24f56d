/**
 * Calendar dates as the extractors use them: Python's `datetime.date`, its
 * ordering, and the `YYYY-MM-DD` text every extractor returns
 * (`strftime('%Y-%m-%d')`). Parsing free-form date text (`datetime.strptime`,
 * `dateutil.parser.parse`) is left to the callers, as a function parameter.
 */
module Dates {
  import opened Wrappers
  import opened Text

  /** A `datetime.date`. */
  datatype Date = Date(year: nat, month: nat, day: nat)

  predicate IsLeapYear(y: nat) {
    y % 4 == 0 && (y % 100 != 0 || y % 400 == 0)
  }

  function DaysInMonth(y: nat, m: nat): nat {
    if m == 2 then (if IsLeapYear(y) then 29 else 28)
    else if m == 4 || m == 6 || m == 9 || m == 11 then 30
    else 31
  }

  /** The dates `datetime.date` can represent: years 1 to 9999, real months and days. */
  predicate ValidDate(d: Date) {
    1 <= d.year <= 9999 && 1 <= d.month <= 12 && 1 <= d.day <= DaysInMonth(d.year, d.month)
  }

  /** `a > b` for dates. */
  predicate After(a: Date, b: Date) {
    a.year > b.year || (a.year == b.year && (a.month > b.month || (a.month == b.month && a.day > b.day)))
  }

  /** `After` is a strict total order: of two dates exactly one is later, or they are equal. */
  lemma AfterTotalOrder(a: Date, b: Date, c: Date)
    ensures !After(a, a)
    ensures After(a, b) ==> !After(b, a)
    ensures a != b ==> After(a, b) || After(b, a)
    ensures After(a, b) && After(b, c) ==> After(a, c)
  {
  }

  // ---- fixed-width decimal text ----

  function DigitChar(n: nat): char
    requires n < 10
  {
    ('0' as int + n) as char
  }

  function Pow10(w: nat): nat {
    if w == 0 then 1 else 10 * Pow10(w - 1)
  }

  /** The last `w` decimal digits of `n`, zero-padded (`%0wd` for `n < 10^w`). */
  function Digits(n: nat, w: nat): (r: string)
    ensures |r| == w && forall k :: 0 <= k < w ==> IsDigit(r[k])
  {
    if w == 0 then [] else Digits(n / 10, w - 1) + [DigitChar(n % 10)]
  }

  predicate AllDigits(s: string) {
    forall k :: 0 <= k < |s| ==> IsDigit(s[k])
  }

  /** Reading back `w` padded digits gives the number, when it fits. */
  lemma {:induction false} ParseDigits(n: nat, w: nat)
    requires n < Pow10(w)
    ensures ParseNat(Digits(n, w)) == n
  {
    if w > 0 {
      var r := Digits(n, w);
      assert r[..w - 1] == Digits(n / 10, w - 1);
      ParseDigits(n / 10, w - 1);
    }
  }

  /** Writing a digit string back at its own width gives it unchanged. */
  lemma {:induction false} DigitsOfParse(s: string)
    requires AllDigits(s)
    ensures Digits(ParseNat(s), |s|) == s
  {
    if s != [] {
      var t := s[..|s| - 1];
      DigitsOfParse(t);
      var n := ParseNat(s);
      assert n / 10 == ParseNat(t) && n % 10 == DigitValue(s[|s| - 1]);
    }
  }

  /** A digit string of width `w` is below `10^w`. */
  lemma {:induction false} ParseBelow(s: string)
    ensures ParseNat(s) < Pow10(|s|)
  {
    if s != [] {
      ParseBelow(s[..|s| - 1]);
    }
  }

  // ---- ISO 8601 calendar dates ----

  /** `d.strftime('%Y-%m-%d')`. */
  function FormatIso(d: Date): string {
    Digits(d.year, 4) + "-" + Digits(d.month, 2) + "-" + Digits(d.day, 2)
  }

  /** Text of the shape `dddd-dd-dd`. */
  predicate IsoShape(s: string) {
    |s| == 10 && s[4] == '-' && s[7] == '-'
    && AllDigits(s[..4]) && AllDigits(s[5..7]) && AllDigits(s[8..])
  }

  /** `datetime.strptime(s, '%Y-%m-%d').date()` on `dddd-dd-dd` text: the date, if it exists. */
  function ParseIso(s: string): (r: Option<Date>)
    ensures r.Some? ==> IsoShape(s) && ValidDate(r.value)
  {
    if IsoShape(s) then
      var d := Date(ParseNat(s[..4]), ParseNat(s[5..7]), ParseNat(s[8..]));
      if ValidDate(d) then Some(d) else None
    else None
  }

  /** Every formatted date is `dddd-dd-dd`. */
  lemma FormatIsoShape(d: Date)
    ensures IsoShape(FormatIso(d))
  {
    var s := FormatIso(d);
    assert s[..4] == Digits(d.year, 4);
    assert s[5..7] == Digits(d.month, 2);
    assert s[8..] == Digits(d.day, 2);
  }

  /** Formatting a valid date and reading it back gives the same date. */
  lemma ParseFormatIso(d: Date)
    requires ValidDate(d)
    ensures ParseIso(FormatIso(d)) == Some(d)
  {
    var s := FormatIso(d);
    FormatIsoShape(d);
    assert s[..4] == Digits(d.year, 4);
    assert s[5..7] == Digits(d.month, 2);
    assert s[8..] == Digits(d.day, 2);
    ParseDigits(d.year, 4);
    ParseDigits(d.month, 2);
    ParseDigits(d.day, 2);
  }

  /** Text that reads as a date is exactly the formatting of that date. */
  lemma FormatParseIso(s: string)
    requires ParseIso(s).Some?
    ensures FormatIso(ParseIso(s).value) == s
  {
    DigitsOfParse(s[..4]);
    DigitsOfParse(s[5..7]);
    DigitsOfParse(s[8..]);
    assert s == s[..4] + "-" + s[5..7] + "-" + s[8..];
  }
}
