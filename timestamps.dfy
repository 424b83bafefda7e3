/** Naive (time-zone-less) date-times as the booking feed writes them,
    `YYYY-MM-DD HH:MM:SS`, and the strict ordering used to decide whether a
    booking starts in the future. */
module Timestamps {

  datatype Option<T> = None | Some(value: T)

  /** A naive date-time. The current moment carries microseconds; a parsed
      start time always has microsecond 0. */
  datatype DateTime = DateTime(year: int, month: int, day: int,
                               hour: int, minute: int, second: int,
                               microsecond: int)

  predicate IsLeapYear(y: int) {
    y % 4 == 0 && (y % 100 != 0 || y % 400 == 0)
  }

  function DaysInMonth(y: int, m: int): (d: int)
    requires 1 <= m <= 12
    ensures 28 <= d <= 31
    ensures m == 2 ==> (d == 29 <==> IsLeapYear(y))
  {
    if m == 2 then (if IsLeapYear(y) then 29 else 28)
    else if m == 4 || m == 6 || m == 9 || m == 11 then 30
    else 31
  }

  /** The range of values a calendar date-time accepts (years 1 to 9999). */
  predicate Valid(t: DateTime) {
    && 1 <= t.year <= 9999
    && 1 <= t.month <= 12
    && 1 <= t.day <= DaysInMonth(t.year, t.month)
    && 0 <= t.hour < 24
    && 0 <= t.minute < 60
    && 0 <= t.second < 60
    && 0 <= t.microsecond < 1000000
  }

  /** `a < b`: date-times compare field by field, most significant first.
      On valid date-times this is the order of the moments in time: `a` is
      before `b` exactly when it has the smaller microsecond count. */
  predicate Before(a: DateTime, b: DateTime)
    ensures Valid(a) && Valid(b) ==> (Before(a, b) <==> Instant(a) < Instant(b))
  {
    MixOrder(Months(a), a.day - 1, Months(b), b.day - 1, 31);
    MixOrder(Days(a), a.hour, Days(b), b.hour, 24);
    MixOrder(Hours(a), a.minute, Hours(b), b.minute, 60);
    MixOrder(Minutes(a), a.second, Minutes(b), b.second, 60);
    MixOrder(Seconds(a), a.microsecond, Seconds(b), b.microsecond, 1000000);
    MixOrder(a.year, a.month - 1, b.year, b.month - 1, 12);
    if a.year != b.year then a.year < b.year
    else if a.month != b.month then a.month < b.month
    else if a.day != b.day then a.day < b.day
    else if a.hour != b.hour then a.hour < b.hour
    else if a.minute != b.minute then a.minute < b.minute
    else if a.second != b.second then a.second < b.second
    else a.microsecond < b.microsecond
  }

  // A count of microseconds that grows with time. Every month is given 31
  // days: the count then skips the days a month does not have, which keeps
  // the order of the moments and is all the comparison needs.
  function Months(t: DateTime): int { t.year * 12 + (t.month - 1) }
  function Days(t: DateTime): int { Months(t) * 31 + (t.day - 1) }
  function Hours(t: DateTime): int { Days(t) * 24 + t.hour }
  function Minutes(t: DateTime): int { Hours(t) * 60 + t.minute }
  function Seconds(t: DateTime): int { Minutes(t) * 60 + t.second }
  function Instant(t: DateTime): int { Seconds(t) * 1000000 + t.microsecond }

  /** A number written in mixed radix compares by its high part first, then
      by its low digit. */
  lemma MixOrder(hi1: int, lo1: int, hi2: int, lo2: int, base: int)
    ensures 0 <= lo1 < base && 0 <= lo2 < base ==>
      && (hi1 * base + lo1 < hi2 * base + lo2 <==> hi1 < hi2 || (hi1 == hi2 && lo1 < lo2))
      && (hi1 * base + lo1 == hi2 * base + lo2 <==> hi1 == hi2 && lo1 == lo2)
  {
    if 0 <= lo1 < base && 0 <= lo2 < base {
      if hi1 < hi2 {
        MulAtLeastOnce(hi2 - hi1, base);
        assert hi2 * base - hi1 * base == (hi2 - hi1) * base;
      } else if hi2 < hi1 {
        MulAtLeastOnce(hi1 - hi2, base);
        assert hi1 * base - hi2 * base == (hi1 - hi2) * base;
      }
    }
  }

  lemma MulAtLeastOnce(k: int, base: int)
    requires k >= 1 && base > 0
    ensures k * base >= base
  {
    assert k * base == (k - 1) * base + base;
  }

  /** Before is a strict total order: no moment is before itself, it is
      transitive, and of two distinct moments one is before the other. */
  lemma BeforeIsStrictTotalOrder(a: DateTime, b: DateTime, c: DateTime)
    ensures !Before(a, a)
    ensures Before(a, b) ==> !Before(b, a)
    ensures Before(a, b) && Before(b, c) ==> Before(a, c)
    ensures a != b ==> Before(a, b) || Before(b, a)
  {
  }

  // ---------------------------------------------------------------- digits

  predicate IsDigit(c: char) {
    '0' <= c <= '9'
  }

  predicate AllDigits(s: string) {
    forall i :: 0 <= i < |s| ==> IsDigit(s[i])
  }

  function Pow10(n: nat): (p: nat)
    ensures p >= 1
  {
    if n == 0 then 1 else 10 * Pow10(n - 1)
  }

  function DigitChar(d: int): (c: char)
    requires 0 <= d < 10
    ensures IsDigit(c)
  {
    ('0' as int + d) as char
  }

  /** The value of a run of decimal digits, most significant first. */
  function DigitsValue(s: string): nat
    requires AllDigits(s)
  {
    if s == [] then 0
    else DigitsValue(s[..|s| - 1]) * 10 + (s[|s| - 1] as int - '0' as int)
  }

  /** `n` written with exactly `width` decimal digits, zero-padded on the left
      (the lowest `width` digits of `n`). */
  function PadDigits(n: nat, width: nat): (s: string)
    ensures |s| == width && AllDigits(s)
  {
    if width == 0 then [] else PadDigits(n / 10, width - 1) + [DigitChar(n % 10)]
  }

  /** Reading back a zero-padded number gives the number, when it fits. */
  lemma {:induction false} DigitsValuePad(n: nat, width: nat)
    requires n < Pow10(width)
    ensures DigitsValue(PadDigits(n, width)) == n
  {
    if width > 0 {
      var s := PadDigits(n, width);
      assert s[..|s| - 1] == PadDigits(n / 10, width - 1);
      assert n / 10 < Pow10(width - 1);
      DigitsValuePad(n / 10, width - 1);
    }
  }

  /** Re-padding the value of a digit run to its own width gives the run. */
  lemma {:induction false} PadDigitsValue(s: string)
    requires AllDigits(s)
    ensures PadDigits(DigitsValue(s), |s|) == s
  {
    if s != [] {
      var init, d := s[..|s| - 1], s[|s| - 1] as int - '0' as int;
      var v := DigitsValue(init);
      assert DigitsValue(s) == v * 10 + d;
      assert (v * 10 + d) / 10 == v && (v * 10 + d) % 10 == d;
      PadDigitsValue(init);
      assert s == init + [s[|s| - 1]];
    }
  }

  // ------------------------------------------------- the fixed text layout

  /** The layout `%Y-%m-%d %H:%M:%S`, field widths fixed: separators in
      their places and decimal digits everywhere else. */
  predicate HasLayout(s: string) {
    && |s| == 19
    && s[4] == '-' && s[7] == '-' && s[10] == ' ' && s[13] == ':' && s[16] == ':'
    && AllDigits(s[0..4]) && AllDigits(s[5..7]) && AllDigits(s[8..10])
    && AllDigits(s[11..13]) && AllDigits(s[14..16]) && AllDigits(s[17..19])
  }

  /** Parses a start or end time. Fails (None) on any text outside the layout
      and on a field out of calendar range (month 13, 30 February, second 60). */
  function Parse(s: string): (r: Option<DateTime>)
    ensures r.Some? ==> Valid(r.value) && r.value.microsecond == 0
    ensures r.Some? <==> HasLayout(s) && Valid(FieldsOf(s))
  {
    if HasLayout(s) && Valid(FieldsOf(s)) then Some(FieldsOf(s)) else None
  }

  /** The numbers written in the digit fields of a string in the layout. */
  function FieldsOf(s: string): DateTime
    requires HasLayout(s)
  {
    DateTime(DigitsValue(s[0..4]), DigitsValue(s[5..7]), DigitsValue(s[8..10]),
             DigitsValue(s[11..13]), DigitsValue(s[14..16]), DigitsValue(s[17..19]), 0)
  }

  /** Writes a whole-second date-time in the layout. */
  function Format(t: DateTime): (s: string)
    requires Valid(t)
  {
    Layout(PadDigits(t.year, 4), PadDigits(t.month, 2), PadDigits(t.day, 2),
           PadDigits(t.hour, 2), PadDigits(t.minute, 2), PadDigits(t.second, 2))
  }

  function Layout(y: string, mo: string, d: string, h: string, mi: string, se: string): string {
    y + "-" + mo + "-" + d + " " + h + ":" + mi + ":" + se
  }

  /** Each field of a laid-out string is found again at its fixed offset. */
  lemma LayoutFields(y: string, mo: string, d: string, h: string, mi: string, se: string)
    requires |y| == 4 && |mo| == 2 && |d| == 2 && |h| == 2 && |mi| == 2 && |se| == 2
    ensures var s := Layout(y, mo, d, h, mi, se);
      && |s| == 19
      && s[0..4] == y && s[5..7] == mo && s[8..10] == d
      && s[11..13] == h && s[14..16] == mi && s[17..19] == se
  {
    var s := Layout(y, mo, d, h, mi, se);
    assert s[0..4] == y by { assert forall i :: 0 <= i < 4 ==> s[i] == y[i]; }
    assert s[5..7] == [s[5], s[6]] == mo;
    assert s[8..10] == [s[8], s[9]] == d;
    assert s[11..13] == [s[11], s[12]] == h;
    assert s[14..16] == [s[14], s[15]] == mi;
    assert s[17..19] == [s[17], s[18]] == se;
  }

  /** Every valid whole-second date-time survives formatting and parsing. */
  lemma ParseFormat(t: DateTime)
    requires Valid(t) && t.microsecond == 0
    ensures Parse(Format(t)) == Some(t)
  {
    var s := Format(t);
    LayoutFields(PadDigits(t.year, 4), PadDigits(t.month, 2), PadDigits(t.day, 2),
                 PadDigits(t.hour, 2), PadDigits(t.minute, 2), PadDigits(t.second, 2));
    DigitsValuePad(t.year, 4);
    DigitsValuePad(t.month, 2);
    DigitsValuePad(t.day, 2);
    DigitsValuePad(t.hour, 2);
    DigitsValuePad(t.minute, 2);
    DigitsValuePad(t.second, 2);
    assert HasLayout(s);
    assert FieldsOf(s) == t;
  }

  /** A string that parses is exactly the layout of what it parses to: the
      parser accepts one spelling per moment. */
  lemma FormatParse(s: string)
    requires Parse(s).Some?
    ensures Format(Parse(s).value) == s
  {
    var t := Parse(s).value;
    PadDigitsValue(s[0..4]);
    PadDigitsValue(s[5..7]);
    PadDigitsValue(s[8..10]);
    PadDigitsValue(s[11..13]);
    PadDigitsValue(s[14..16]);
    PadDigitsValue(s[17..19]);
    assert s == s[0..4] + [s[4]] + s[5..7] + [s[7]] + s[8..10] + [s[10]]
              + s[11..13] + [s[13]] + s[14..16] + [s[16]] + s[17..19];
  }
}
