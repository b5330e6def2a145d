/**
  `generate_date_range`: every day from yesterday back to the configured first
  date, newest first. The clock read of the source is the parameter `today`.
*/
module DateRange {
  import opened Wrappers
  import opened Calendar
  import opened DateFormat

  /** Why the generator raises instead of yielding its first day. */
  datatype RangeError =
    | InvalidDateFormat(cause: StrptimeError)  // `ValueError` from `strptime`
    | YesterdayOverflow                        // `OverflowError`: today is `date.min`, yesterday does not exist
    | NegativeStop                             // `ValueError` from `islice`: the first date is after today

  /**
    `list(generate_date_range(firstDate))` on day `today`: `islice` takes
    `(yesterday - first).days + 1` elements of `yesterday - timedelta(days=i)`
    for `i = 0, 1, 2, ...`.
  */
  function GenerateDateRange(firstDate: string, today: int): (r: Result<seq<int>, RangeError>)
    requires IsDay(today)
    ensures ParseIsoDate(firstDate).Err? ==> r == Err(InvalidDateFormat(ParseIsoDate(firstDate).error))
    ensures ParseIsoDate(firstDate).Ok? && today == 1 ==> r == Err(YesterdayOverflow)
    ensures ParseIsoDate(firstDate).Ok? && today > 1 && ParseIsoDate(firstDate).value > today ==> r == Err(NegativeStop)
    ensures r.Ok? <==> ParseIsoDate(firstDate).Ok? && 1 < today && ParseIsoDate(firstDate).value <= today
    ensures r.Ok? ==> forall i :: 0 <= i < |r.value| ==> IsDay(r.value[i])
  {
    match ParseIsoDate(firstDate)
    case Err(e) => Err(InvalidDateFormat(e))
    case Ok(first) =>
      if today == 1 then Err(YesterdayOverflow)
      else
        var yesterday := today - 1;
        var stop := (yesterday - first) + 1;
        if stop < 0 then Err(NegativeStop)
        else Ok(seq(stop, i requires 0 <= i < stop => yesterday - i))
  }

  /** The generated days when the first date parses and is not after today. */
  lemma DateRangeShape(firstDate: string, today: int)
    requires IsDay(today) && GenerateDateRange(firstDate, today).Ok?
    ensures var first, days := ParseIsoDate(firstDate).value, GenerateDateRange(firstDate, today).value;
      && |days| == (today - 1 - first) + 1
      && (|days| > 0 ==> days[0] == today - 1 && days[|days| - 1] == first)
      && (forall i :: 0 < i < |days| ==> days[i] == days[i - 1] - 1)
      && (forall d :: d in days <==> first <= d <= today - 1)
  {
    var first, days := ParseIsoDate(firstDate).value, GenerateDateRange(firstDate, today).value;
    forall d | first <= d <= today - 1
      ensures d in days
    {
      assert days[today - 1 - d] == d;
    }
  }

  /** Newest first, and no day twice. */
  lemma DateRangeStrictlyDescending(firstDate: string, today: int, i: int, j: int)
    requires IsDay(today) && GenerateDateRange(firstDate, today).Ok?
    requires 0 <= i < j < |GenerateDateRange(firstDate, today).value|
    ensures GenerateDateRange(firstDate, today).value[i] > GenerateDateRange(firstDate, today).value[j]
  {
  }

  /** A first date equal to today gives an empty range (`islice` with stop 0). */
  lemma FirstDateTodayIsEmpty(firstDate: string, today: int)
    requires IsDay(today) && today > 1 && ParseIsoDate(firstDate) == Ok(today)
    ensures GenerateDateRange(firstDate, today) == Ok([])
  {
    assert |GenerateDateRange(firstDate, today).value| == 0;
  }

  /** From 2024-01-01 on 2024-01-10: nine days, 2024-01-09 down to 2024-01-01. */
  lemma NineDaysOfJanuary()
    ensures var today := ToOrdinal(Ymd(2024, 1, 10));
      && GenerateDateRange("2024-01-01", today).Ok?
      && |GenerateDateRange("2024-01-01", today).value| == 9
      && GenerateDateRange("2024-01-01", today).value[0] == ToOrdinal(Ymd(2024, 1, 9))
      && GenerateDateRange("2024-01-01", today).value[8] == ToOrdinal(Ymd(2024, 1, 1))
  {
    assert MatchMonth("01-01") == Some((1, "01"));
    assert Strptime("2024-01-01") == Ok(Ymd(2024, 1, 1));
  }

  /** The configured first date `'1993-19-06'` makes the generator raise before any day. */
  lemma ConfiguredFirstDateRaises(today: int)
    requires IsDay(today)
    ensures GenerateDateRange("1993-19-06", today) == Err(InvalidDateFormat(DoesNotMatchFormat))
  {
    ConfiguredFirstDateIsRejected();
  }
}
