/** Calendar dates as the two SAP generators read and write them:
    `datetime.strptime(s, '%Y-%m-%d')` (CPython's rules for the three
    directives) and `strftime('%Y%m%d')`. */
module Dates {
  import opened Common

  datatype Date = Date(year: nat, month: nat, day: nat)

  predicate IsLeapYear(y: nat) { y % 4 == 0 && (y % 100 != 0 || y % 400 == 0) }

  function DaysInMonth(y: nat, m: nat): (n: nat)
    requires 1 <= m <= 12
    ensures 28 <= n <= 31
  {
    if m == 2 then (if IsLeapYear(y) then 29 else 28)
    else if m == 4 || m == 6 || m == 9 || m == 11 then 30
    else 31
  }

  /** The dates `datetime.date` accepts (MINYEAR 1 to MAXYEAR 9999). */
  predicate ValidDate(d: Date)
  {
    1 <= d.year <= 9999 && 1 <= d.month <= 12 && 1 <= d.day <= DaysInMonth(d.year, d.month)
  }

  /** `%m` is the pattern `1[0-2]|0[1-9]|[1-9]`; the literal `-` after it must
      follow. At most one alternative can be followed by `-`, so regex
      backtracking picks exactly this one. Yields the month and the position
      after the `-`. */
  function MonthAt(s: string, i: nat): (r: Option<(nat, nat)>)
    ensures r.Some? ==> 1 <= r.value.0 <= 12 && i + 2 <= r.value.1 <= |s| && r.value.1 <= i + 3
  {
    if i + 2 < |s| && s[i] == '1' && '0' <= s[i + 1] <= '2' && s[i + 2] == '-' then
      Some((10 + DigitValue(s[i + 1]), i + 3))
    else if i + 2 < |s| && s[i] == '0' && '1' <= s[i + 1] <= '9' && s[i + 2] == '-' then
      Some((DigitValue(s[i + 1]), i + 3))
    else if i + 1 < |s| && '1' <= s[i] <= '9' && s[i + 1] == '-' then
      Some((DigitValue(s[i]), i + 2))
    else
      None
  }

  /** `%d` is the pattern `3[01]|[12]\d|0[1-9]|[1-9]| [1-9]`; nothing follows it
      in the format, so the first alternative that matches wins. Yields the day
      and the position after it. */
  function DayAt(s: string, i: nat): (r: Option<(nat, nat)>)
    ensures r.Some? ==> 1 <= r.value.0 <= 31 && i < r.value.1 <= |s| && r.value.1 <= i + 2
  {
    if i + 1 < |s| && s[i] == '3' && '0' <= s[i + 1] <= '1' then
      Some((30 + DigitValue(s[i + 1]), i + 2))
    else if i + 1 < |s| && '1' <= s[i] <= '2' && IsDigit(s[i + 1]) then
      Some((10 * DigitValue(s[i]) + DigitValue(s[i + 1]), i + 2))
    else if i + 1 < |s| && s[i] == '0' && '1' <= s[i + 1] <= '9' then
      Some((DigitValue(s[i + 1]), i + 2))
    else if i < |s| && '1' <= s[i] <= '9' then
      Some((DigitValue(s[i]), i + 1))
    else if i + 1 < |s| && s[i] == ' ' && '1' <= s[i + 1] <= '9' then
      Some((DigitValue(s[i + 1]), i + 2))
    else
      None
  }

  /** `datetime.strptime(s, '%Y-%m-%d')`: `%Y` is exactly four digits, the
      whole string must be consumed ("unconverted data remains" otherwise) and
      the fields must form a real date. `None` stands for the `ValueError`. */
  function ParseIsoDate(s: string): (r: Option<Date>)
    ensures r.Some? ==> ValidDate(r.value)
  {
    if |s| < 5 || !AllDigits(s[..4]) || s[4] != '-' then None
    else
      match MonthAt(s, 5)
      case None => None
      case Some((m, j)) =>
        match DayAt(s, j)
        case None => None
        case Some((d, k)) =>
          var date := Date(DigitsValue(s[..4]), m, d);
          if k == |s| && ValidDate(date) then Some(date) else None
  }

  /** `strftime('%Y%m%d')`. */
  function FormatYmd(d: Date): string
  {
    ZeroPad(d.year, 4) + ZeroPad(d.month, 2) + ZeroPad(d.day, 2)
  }

  /** The ISO text `YYYY-MM-DD` of a date, which the extraction prompt asks for. */
  function IsoText(d: Date): string
  {
    ZeroPad(d.year, 4) + "-" + ZeroPad(d.month, 2) + "-" + ZeroPad(d.day, 2)
  }

  lemma TwoDigits(n: nat)
    requires 1 <= n <= 31
    ensures |ZeroPad(n, 2)| == 2
    ensures n < 10 ==> ZeroPad(n, 2) == ['0', DigitChar(n)]
    ensures n >= 10 ==> ZeroPad(n, 2) == [DigitChar(n / 10), DigitChar(n % 10)]
  {
    if n >= 10 {
      assert Decimal(n) == Decimal(n / 10) + [DigitChar(n % 10)];
    }
  }

  /** A zero-padded month followed by `-` is read back by `%m`. */
  lemma MonthAtPadded(s: string, i: nat, m: nat)
    requires 1 <= m <= 12 && i + 3 <= |s|
    requires s[i..i + 2] == ZeroPad(m, 2) && s[i + 2] == '-'
    ensures MonthAt(s, i) == Some((m, i + 3))
  {
    TwoDigits(m);
    assert s[i] == ZeroPad(m, 2)[0] && s[i + 1] == ZeroPad(m, 2)[1];
  }

  /** A zero-padded day at the end of the text is read back by `%d`. */
  lemma DayAtPadded(s: string, i: nat, d: nat)
    requires 1 <= d <= 31 && i + 2 == |s|
    requires s[i..] == ZeroPad(d, 2)
    ensures DayAt(s, i) == Some((d, i + 2))
  {
    TwoDigits(d);
    assert s[i] == ZeroPad(d, 2)[0] && s[i + 1] == ZeroPad(d, 2)[1];
  }

  /** Where the fields sit in a `YYYY-MM-DD` text. */
  lemma IsoFields(y: string, m: string, d: string)
    requires |y| == 4 && |m| == 2 && |d| == 2
    ensures var s := y + "-" + m + "-" + d;
      |s| == 10 && s[..4] == y && s[4] == '-' && s[5..7] == m && s[7] == '-' && s[8..] == d
  {
  }

  /** A well-formed date in the canonical ISO form parses back to itself. */
  lemma ParseIsoText(d: Date)
    requires ValidDate(d)
    ensures ParseIsoDate(IsoText(d)) == Some(d)
  {
    var s := IsoText(d);
    ShortDecimal(d.year);
    TwoDigits(d.month);
    TwoDigits(d.day);
    IsoFields(ZeroPad(d.year, 4), ZeroPad(d.month, 2), ZeroPad(d.day, 2));
    ZeroPadValue(d.year, 4);
    MonthAtPadded(s, 5, d.month);
    DayAtPadded(s, 8, d.day);
  }

  /** Parsing is exactly inverse to the ISO form on its canonical texts:
      reformatting drops the two hyphens. */
  lemma IsoToYmd(d: Date)
    requires ValidDate(d)
    ensures FormatYmd(d) == IsoText(d)[..4] + IsoText(d)[5..7] + IsoText(d)[8..]
    ensures |FormatYmd(d)| == 8 && AllDigits(FormatYmd(d))
  {
    ShortDecimal(d.year);
    TwoDigits(d.month);
    TwoDigits(d.day);
    IsoFields(ZeroPad(d.year, 4), ZeroPad(d.month, 2), ZeroPad(d.day, 2));
  }
}
