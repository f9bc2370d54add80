/**
 * Calendar dates as Python's `datetime` sees them, `strftime` with `%Y`, `%m` and `%d`, and
 * `datetime.strptime` with the two formats the collector uses: `%Y.%m.%d` and `%Y-%m-%d`.
 */
module Dates {

  import opened Wrappers
  import opened PyText

  datatype Date = Date(year: int, month: int, day: int)

  predicate IsLeapYear(y: int) {
    y % 4 == 0 && (y % 100 != 0 || y % 400 == 0)
  }

  function DaysInMonth(y: int, m: int): (n: int)
    requires 1 <= m <= 12
    ensures 28 <= n <= 31
    ensures m == 2 ==> (n == 29 <==> IsLeapYear(y))
  {
    if m == 2 then (if IsLeapYear(y) then 29 else 28)
    else if m == 4 || m == 6 || m == 9 || m == 11 then 30
    else 31
  }

  /** The dates a `datetime` can hold: years 1 to 9999 and real calendar days. */
  predicate ValidDate(d: Date) {
    1 <= d.year <= 9999 && 1 <= d.month <= 12 && 1 <= d.day <= DaysInMonth(d.year, d.month)
  }

  /** Chronological order of two dates. */
  predicate Before(a: Date, b: Date) {
    a.year < b.year
    || (a.year == b.year && a.month < b.month)
    || (a.year == b.year && a.month == b.month && a.day < b.day)
  }

  function DigitChar(n: int): (c: char)
    requires 0 <= n < 10
    ensures IsAsciiDigit(c) && c as int - '0' as int == n
  {
    ('0' as int + n) as char
  }

  /** The last `width` decimal digits of `n`, with leading zeros. */
  function PadDigits(n: nat, width: nat): (r: string)
    ensures |r| == width && AllDigits(r)
  {
    if width == 0 then [] else PadDigits(n / 10, width - 1) + [DigitChar(n % 10)]
  }

  function Pow10(k: nat): (p: nat)
    ensures p >= 1
  {
    if k == 0 then 1 else 10 * Pow10(k - 1)
  }

  /** Zero padding loses nothing when the number fits in the width. */
  lemma {:induction false} PadDigitsValue(n: nat, width: nat)
    requires n < Pow10(width)
    ensures DigitsValue(PadDigits(n, width)) == n
  {
    if width > 0 {
      var r := PadDigits(n, width);
      assert r[..|r| - 1] == PadDigits(n / 10, width - 1);
      PadDigitsValue(n / 10, width - 1);
    }
  }

  /** `strftime` with `%Y<sep>%m<sep>%d`: four-digit year, two-digit month and day. */
  function FormatWith(d: Date, sep: char): (r: string)
    requires ValidDate(d)
    ensures |r| == 10 && r[4] == sep && r[7] == sep
    ensures AllDigits(r[..4]) && AllDigits(r[5..7]) && AllDigits(r[8..])
  {
    var r := PadDigits(d.year, 4) + [sep] + PadDigits(d.month, 2) + [sep] + PadDigits(d.day, 2);
    assert r[..4] == PadDigits(d.year, 4);
    assert r[5..7] == PadDigits(d.month, 2);
    assert r[8..] == PadDigits(d.day, 2);
    r
  }

  /** `date.strftime("%Y-%m-%d")`. */
  function FormatIso(d: Date): (r: string)
    requires ValidDate(d)
    ensures |r| == 10 && r[4] == '-' && r[7] == '-'
  {
    FormatWith(d, '-')
  }

  /** The index of the first `c` in `s`, or `|s|` when there is none. */
  function FirstIndexOf(s: string, c: char): (k: nat)
    ensures k <= |s| && (k < |s| ==> s[k] == c)
    ensures forall j | 0 <= j < k :: s[j] != c
  {
    if s == [] || s[0] == c then 0 else 1 + FirstIndexOf(s[1..], c)
  }

  /** What `%m` accepts in front of the next separator: `1[0-2]|0[1-9]|[1-9]`. */
  predicate MonthToken(t: string) {
    || (|t| == 1 && '1' <= t[0] <= '9')
    || (|t| == 2 && t[0] == '0' && '1' <= t[1] <= '9')
    || (|t| == 2 && t[0] == '1' && '0' <= t[1] <= '2')
  }

  /**
   * What `%d` accepts as the whole rest of the text: `3[01]|[12]\d|0[1-9]|[1-9]| [1-9]`.
   * The alternatives are tried in that order and the match must reach the end of the text,
   * which admits exactly these strings.
   */
  predicate DayToken(t: string) {
    || (|t| == 2 && t[0] == '3' && '0' <= t[1] <= '1')
    || (|t| == 2 && '1' <= t[0] <= '2' && IsAsciiDigit(t[1]))
    || (|t| == 2 && t[0] == '0' && '1' <= t[1] <= '9')
    || (|t| == 1 && '1' <= t[0] <= '9')
    || (|t| == 2 && t[0] == ' ' && '1' <= t[1] <= '9')
  }

  /** The number a day token stands for; a leading space is ignored like a leading zero. */
  function DayTokenValue(t: string): nat
    requires DayToken(t)
  {
    if t[0] == ' ' then DigitsValue(t[1..]) else DigitsValue(t)
  }

  /**
   * `datetime.strptime(s, "%Y<sep>%m<sep>%d")`, `None` where Python raises `ValueError`:
   * four digits, the separator, a month token, the separator, a day token and nothing else,
   * then a real calendar date.
   */
  function Strptime(s: string, sep: char): (r: Option<Date>)
    requires sep == '.' || sep == '-'
    ensures r.Some? ==> ValidDate(r.value)
  {
    if |s| < 5 || !AllDigits(s[..4]) || s[4] != sep then None
    else
      var rest := s[5..];
      var k := FirstIndexOf(rest, sep);
      if k == |rest| || !MonthToken(rest[..k]) || !DayToken(rest[k + 1..]) then None
      else
        var d := Date(DigitsValue(s[..4]), DigitsValue(rest[..k]), DayTokenValue(rest[k + 1..]));
        if ValidDate(d) then Some(d) else None
  }

  lemma PadMonth(m: int)
    requires 1 <= m <= 12
    ensures MonthToken(PadDigits(m, 2)) && DigitsValue(PadDigits(m, 2)) == m
  {
    var t := PadDigits(m, 2);
    assert PadDigits(m / 10, 1) == [DigitChar(m / 10 % 10)];
    assert t == [DigitChar(m / 10 % 10), DigitChar(m % 10)];
    PadDigitsValue(m, 2);
  }

  lemma PadDay(n: int)
    requires 1 <= n <= 31
    ensures DayToken(PadDigits(n, 2)) && DayTokenValue(PadDigits(n, 2)) == n
  {
    var t := PadDigits(n, 2);
    assert PadDigits(n / 10, 1) == [DigitChar(n / 10 % 10)];
    assert t == [DigitChar(n / 10 % 10), DigitChar(n % 10)];
    PadDigitsValue(n, 2);
  }

  /** `strptime` reads back every date that `strftime` writes with the same format. */
  lemma StrptimeFormatWith(d: Date, sep: char)
    requires ValidDate(d) && (sep == '.' || sep == '-')
    ensures Strptime(FormatWith(d, sep), sep) == Some(d)
  {
    var s := FormatWith(d, sep);
    var y, m, dd := PadDigits(d.year, 4), PadDigits(d.month, 2), PadDigits(d.day, 2);
    assert s == y + [sep] + m + [sep] + dd;
    assert s[..4] == y;
    PadDigitsValue(d.year, 4);
    PadMonth(d.month);
    PadDay(d.day);
    var rest := s[5..];
    assert rest == m + [sep] + dd;
    assert FirstIndexOf(rest, sep) == 2 by {
      assert rest[0] == m[0] && rest[1] == m[1] && rest[2] == sep;
      assert IsAsciiDigit(m[0]) && IsAsciiDigit(m[1]);
      assert FirstIndexOf(rest[2..], sep) == 0;
      assert FirstIndexOf(rest[1..], sep) == 1 + FirstIndexOf(rest[1..][1..], sep);
      assert rest[1..][1..] == rest[2..];
    }
    assert rest[..2] == m && rest[3..] == dd;
  }

  /** The ISO form of a date is read back as the same date. */
  lemma StrptimeFormatIso(d: Date)
    requires ValidDate(d)
    ensures Strptime(FormatIso(d), '-') == Some(d)
  {
    StrptimeFormatWith(d, '-');
  }
}
