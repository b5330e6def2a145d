/**
  The three `strftime` layouts the downloader writes dates in, and the
  `strptime(s, '%Y-%m-%d')` parse of the configured first date.

  Formatting pads the year to four digits and month and day to two.
  Parsing follows the regular expression CPython's `_strptime` builds for
  `%Y-%m-%d`: `(\d\d\d\d)-(1[0-2]|0[1-9]|[1-9])-(3[01]|[12]\d|0[1-9]|[1-9]| [1-9])`,
  matched from the start of the text, with the alternatives of each group tried in
  that order; the text must then be used up, and the fields must name a real date.
*/
module DateFormat {
  import opened Wrappers
  import opened Calendar

  predicate IsDigit(c: char) {
    '0' <= c <= '9'
  }

  function Digit(v: int): (c: char)
    requires 0 <= v <= 9
    ensures IsDigit(c) && DigitValue(c) == v
  {
    (48 + v) as char
  }

  function DigitValue(c: char): int
    requires IsDigit(c)
  {
    c as int - 48
  }

  /** `%m` / `%d`: two digits, zero-padded. */
  function Pad2(n: int): (s: string)
    requires 0 <= n < 100
    ensures |s| == 2 && IsDigit(s[0]) && IsDigit(s[1])
    ensures 10 * DigitValue(s[0]) + DigitValue(s[1]) == n
  {
    [Digit(n / 10), Digit(n % 10)]
  }

  /** `%Y`: four digits, zero-padded. */
  function Pad4(n: int): (s: string)
    requires 0 <= n < 10000
    ensures |s| == 4 && forall i :: 0 <= i < 4 ==> IsDigit(s[i])
    ensures FourDigitValue(s) == n
  {
    var tens := n / 10;
    var hundreds := tens / 10;
    var thousands := hundreds / 10;
    [Digit(thousands), Digit(hundreds % 10), Digit(tens % 10), Digit(n % 10)]
  }

  function FourDigitValue(s: string): int
    requires |s| >= 4 && forall i :: 0 <= i < 4 ==> IsDigit(s[i])
  {
    1000 * DigitValue(s[0]) + 100 * DigitValue(s[1]) + 10 * DigitValue(s[2]) + DigitValue(s[3])
  }

  /** `day.strftime('%Y-%m-%d')`. */
  function FormatIso(n: int): (s: string)
    requires IsDay(n)
    ensures |s| == 10 && s[4] == '-' && s[7] == '-'
  {
    var d := FromOrdinal(n);
    Pad4(d.year) + "-" + Pad2(d.month) + "-" + Pad2(d.day)
  }

  /** The parts pathlib sees in `day.strftime('%Y/%m/%d')`. */
  function SlashParts(n: int): (parts: seq<string>)
    requires IsDay(n)
    ensures |parts| == 3 && |parts[0]| == 4 && |parts[1]| == 2 && |parts[2]| == 2
  {
    var d := FromOrdinal(n);
    [Pad4(d.year), Pad2(d.month), Pad2(d.day)]
  }

  /** `day.strftime('%Y/%m/%d')`: the slash-joined parts. */
  function FormatSlash(n: int): (s: string)
    requires IsDay(n)
    ensures s == SlashParts(n)[0] + "/" + SlashParts(n)[1] + "/" + SlashParts(n)[2]
  {
    var d := FromOrdinal(n);
    Pad4(d.year) + "/" + Pad2(d.month) + "/" + Pad2(d.day)
  }

  /** `day.strftime('%Y%m%d')`. */
  function FormatCompact(n: int): (s: string)
    requires IsDay(n)
    ensures |s| == 8 && forall i :: 0 <= i < 8 ==> IsDigit(s[i])
  {
    var d := FromOrdinal(n);
    Pad4(d.year) + Pad2(d.month) + Pad2(d.day)
  }

  /** Two different days never print the same `%Y%m%d` text. */
  lemma FormatCompactInjective(a: int, b: int)
    requires IsDay(a) && IsDay(b) && FormatCompact(a) == FormatCompact(b)
    ensures a == b
  {
    var s := FormatCompact(a);
    var da, db := FromOrdinal(a), FromOrdinal(b);
    assert Pad4(da.year) == s[..4] == Pad4(db.year);
    assert Pad2(da.month) == s[4..6] == Pad2(db.month);
    assert Pad2(da.day) == s[6..] == Pad2(db.day);
    FromOrdinalInjective(a, b);
  }

  /** Two different days never give the same `%Y/%m/%d` directory parts. */
  lemma SlashPartsInjective(a: int, b: int)
    requires IsDay(a) && IsDay(b) && SlashParts(a) == SlashParts(b)
    ensures a == b
  {
    var da, db := FromOrdinal(a), FromOrdinal(b);
    assert Pad4(da.year) == SlashParts(a)[0] == Pad4(db.year);
    assert Pad2(da.month) == SlashParts(a)[1] == Pad2(db.month);
    assert Pad2(da.day) == SlashParts(a)[2] == Pad2(db.day);
    FromOrdinalInjective(a, b);
  }

  /** The `ValueError`s `strptime` raises, by cause. */
  datatype StrptimeError =
    | DoesNotMatchFormat       // the regular expression does not match
    | UnconvertedDataRemains   // the match stops before the end of the text
    | OutOfRange               // year 0, or a day the month does not have

  /** `t` is a spelling of month `m` that the `%m` group accepts: two digits, or one digit below 10. */
  predicate SpellsMonth(t: string, m: int) {
    1 <= m <= 12 && (t == Pad2(m) || (m < 10 && t == [Digit(m)]))
  }

  /** `t` is a spelling of day `d` that the `%d` group accepts: two digits, or below 10 one digit or a space and one digit. */
  predicate SpellsDay(t: string, d: int) {
    1 <= d <= 31 && (t == Pad2(d) || (d < 10 && (t == [Digit(d)] || t == [' ', Digit(d)])))
  }

  /** The `%m` group together with the `-` after it; on success, the month and the text after the `-`. */
  function MatchMonth(s: string): (r: Option<(int, string)>)
    ensures r.Some? ==> 1 <= r.value.0 <= 12 && |r.value.1| < |s|
  {
    if |s| >= 3 && s[0] == '1' && '0' <= s[1] <= '2' && s[2] == '-' then
      Some((10 + DigitValue(s[1]), s[3..]))
    else if |s| >= 3 && s[0] == '0' && '1' <= s[1] <= '9' && s[2] == '-' then
      Some((DigitValue(s[1]), s[3..]))
    else if |s| >= 2 && '1' <= s[0] <= '9' && s[1] == '-' then
      Some((DigitValue(s[0]), s[2..]))
    else
      None
  }

  /** The `%d` group, the last one of the pattern: the first alternative that matches wins. */
  function MatchDay(s: string): (r: Option<(int, string)>)
    ensures r.Some? ==> 1 <= r.value.0 <= 31 && |r.value.1| < |s|
  {
    if |s| >= 2 && s[0] == '3' && (s[1] == '0' || s[1] == '1') then
      Some((30 + DigitValue(s[1]), s[2..]))
    else if |s| >= 2 && (s[0] == '1' || s[0] == '2') && IsDigit(s[1]) then
      Some((10 * DigitValue(s[0]) + DigitValue(s[1]), s[2..]))
    else if |s| >= 2 && s[0] == '0' && '1' <= s[1] <= '9' then
      Some((DigitValue(s[1]), s[2..]))
    else if |s| >= 1 && '1' <= s[0] <= '9' then
      Some((DigitValue(s[0]), s[1..]))
    else if |s| >= 2 && s[0] == ' ' && '1' <= s[1] <= '9' then
      Some((DigitValue(s[1]), s[2..]))
    else
      None
  }

  /** The `(\d\d\d\d)-` head of the pattern. */
  predicate StartsWithYear(s: string) {
    |s| >= 5 && IsDigit(s[0]) && IsDigit(s[1]) && IsDigit(s[2]) && IsDigit(s[3]) && s[4] == '-'
  }

  /** `datetime.strptime(s, '%Y-%m-%d').date()`. */
  function Strptime(s: string): (r: Result<Ymd, StrptimeError>)
    ensures r.Ok? ==> IsValid(r.value) && 8 <= |s| <= 10 && StartsWithYear(s)
    ensures r.Ok? ==> FourDigitValue(s) == r.value.year
  {
    if !StartsWithYear(s) then
      Err(DoesNotMatchFormat)
    else
      match MatchMonth(s[5..])
      case None => Err(DoesNotMatchFormat)
      case Some((m, afterMonth)) =>
        match MatchDay(afterMonth)
        case None => Err(DoesNotMatchFormat)
        case Some((d, rest)) =>
          if rest != "" then Err(UnconvertedDataRemains)
          else
            var y := FourDigitValue(s);
            if IsValid(Ymd(y, m, d)) then Ok(Ymd(y, m, d))
            else
              Err(OutOfRange)
  }

  /** What `MatchMonth` consumes, up to the `-`, spells the month it returns. */
  lemma MatchMonthReads(s: string)
    requires MatchMonth(s).Some?
    ensures var (m, rest) := MatchMonth(s).value; var k := |s| - |rest| - 1;
      0 < k && s[k] == '-' && SpellsMonth(s[..k], m) && rest == s[k + 1..]
  {
  }

  /** Every spelling of a month, followed by `-`, is matched as that month. */
  lemma MatchMonthSpelled(t: string, m: int, rest: string)
    requires SpellsMonth(t, m)
    ensures MatchMonth(t + "-" + rest) == Some((m, rest))
  {
  }

  /** What `MatchDay` consumes spells the day it returns. */
  lemma MatchDayReads(s: string)
    requires MatchDay(s).Some?
    ensures var (d, rest) := MatchDay(s).value; var k := |s| - |rest|;
      SpellsDay(s[..k], d) && rest == s[k..]
  {
  }

  /** Every spelling of a day, alone, is matched as that day with nothing left. */
  lemma MatchDaySpelled(t: string, d: int)
    requires SpellsDay(t, d)
    ensures MatchDay(t) == Some((d, ""))
  {
  }

  /** A date `strptime` returns is spelled by the text: the year's four digits, then a month and a day spelling. */
  lemma StrptimeReads(s: string)
    requires Strptime(s).Ok?
    ensures var d := Strptime(s).value;
      exists k :: 6 <= k < |s| - 1 && s[k] == '-' && SpellsMonth(s[5..k], d.month) && SpellsDay(s[k + 1..], d.day)
  {
    var t := s[5..];
    MatchMonthReads(t);
    var (m, afterMonth) := MatchMonth(t).value;
    MatchDayReads(afterMonth);
    var k := |s| - |afterMonth| - 1;
    assert s[5..k] == t[..k - 5];
    assert s[k + 1..] == afterMonth[..|afterMonth|];
  }

  /** Every spelling the pattern accepts is parsed as the date it spells, or rejected as out of range. */
  lemma StrptimeSpelled(year: string, tm: string, td: string, m: int, d: int)
    requires |year| == 4 && forall i :: 0 <= i < 4 ==> IsDigit(year[i])
    requires SpellsMonth(tm, m) && SpellsDay(td, d)
    ensures var s := year + "-" + tm + "-" + td;
      var date := Ymd(FourDigitValue(s), m, d);
      && FourDigitValue(s) == FourDigitValue(year)
      && Strptime(s) == if IsValid(date) then Ok(date) else Err(OutOfRange)
  {
    var s := year + "-" + tm + "-" + td;
    assert s[5..] == tm + "-" + td;
    MatchMonthSpelled(tm, m, td);
    MatchDaySpelled(td, d);
  }

  /** The first date as a day ordinal. */
  function ParseIsoDate(s: string): (r: Result<int, StrptimeError>)
    ensures r.Ok? ==> IsDay(r.value)
  {
    var d :- Strptime(s);
    Ok(ToOrdinal(d))
  }

  /** A zero-padded month followed by `-` matches as that month. */
  lemma MatchPaddedMonth(m: int, rest: string)
    requires 1 <= m <= 12
    ensures MatchMonth(Pad2(m) + "-" + rest) == Some((m, rest))
  {
    var s := Pad2(m) + "-" + rest;
    assert s[3..] == rest;
  }

  /** A zero-padded day at the end of the text matches as that day, with nothing left. */
  lemma MatchPaddedDay(d: int)
    requires 1 <= d <= 31
    ensures MatchDay(Pad2(d)) == Some((d, ""))
  {
  }

  /** Parsing what `strftime('%Y-%m-%d')` printed gives the same day back. */
  lemma ParseFormatIso(n: int)
    requires IsDay(n)
    ensures ParseIsoDate(FormatIso(n)) == Ok(n)
  {
    var d := FromOrdinal(n);
    var s := FormatIso(n);
    assert s[5..] == Pad2(d.month) + "-" + Pad2(d.day);
    MatchPaddedMonth(d.month, Pad2(d.day));
    MatchPaddedDay(d.day);
    assert FourDigitValue(s) == d.year;
    assert Strptime(s) == Ok(d);
  }

  /** The configured `'1993-19-06'` is rejected: no month alternative is followed by `-`. */
  lemma ConfiguredFirstDateIsRejected()
    ensures Strptime("1993-19-06") == Err(DoesNotMatchFormat)
  {
    assert MatchMonth("19-06") == None;
  }

  /** The regular expression also takes unpadded month and day digits. */
  lemma UnpaddedDigitsAccepted()
    ensures Strptime("2024-1-5") == Ok(Ymd(2024, 1, 5))
    ensures Strptime("2024-01- 5") == Ok(Ymd(2024, 1, 5))
  {
    assert MatchMonth("1-5") == Some((1, "5"));
    assert MatchMonth("01- 5") == Some((1, " 5"));
  }

  /** Matching succeeds but the date does not exist, or text is left over. */
  lemma InvalidDatesRejected()
    ensures Strptime("2023-02-29") == Err(OutOfRange)
    ensures Strptime("0000-01-01") == Err(OutOfRange)
    ensures Strptime("2024-01-32") == Err(UnconvertedDataRemains)
  {
    assert MatchMonth("02-29") == Some((2, "29"));
    assert MatchMonth("01-01") == Some((1, "01"));
    assert MatchMonth("01-32") == Some((1, "32"));
    assert MatchDay("32") == Some((3, "2"));
  }
}
