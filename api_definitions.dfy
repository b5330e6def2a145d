/**
  `modify_report(start_time, end_time)`: the body of the campaign report
  request, built as a dict literal and passed through `json.dumps` and
  `json.loads` before it is returned.
*/
module ApiDefinitions {
  import opened Wrappers
  import opened Calendar
  import opened DateFormat
  import opened Json
  import opened JsonLoad
  import opened JsonRoundTrip
  import opened Extractors

  const CountryOrRegion: string := "countryOrRegion"

  /** `"selector"`: ordered by country or region, first page of 1000. */
  function Selector(): Json {
    Object([
      ("orderBy", Array([Object([("field", Str(CountryOrRegion)), ("sortOrder", Str("ASCENDING"))])])),
      ("pagination", Object([("offset", Number(0)), ("limit", Number(1000))]))
    ])
  }

  /** The dict literal, keys in the order the source writes them. */
  function ReportLiteral(start: int, end: int): Json
    requires IsDay(start) && IsDay(end)
  {
    Object([
      ("startTime", Str(FormatIso(start))),
      ("endTime", Str(FormatIso(end))),
      ("selector", Selector()),
      ("groupBy", Array([Str(CountryOrRegion)])),
      ("timeZone", Str("UTC")),
      ("returnRecordsWithNoMetrics", Bool(true)),
      ("returnRowTotals", Bool(true)),
      ("returnGrandTotals", Bool(true))
    ])
  }

  lemma SelectorWellFormed()
    ensures WellFormed(Selector())
  {
    var order := Object([("field", Str(CountryOrRegion)), ("sortOrder", Str("ASCENDING"))]);
    assert WellFormed(order);
    assert WellFormed(Array([order]));
    assert WellFormed(Object([("offset", Number(0)), ("limit", Number(1000))]));
  }

  lemma ReportLiteralWellFormed(start: int, end: int)
    requires IsDay(start) && IsDay(end)
    ensures WellFormed(ReportLiteral(start, end))
  {
    SelectorWellFormed();
    var m := ReportLiteral(start, end).members;
    assert forall i :: 0 <= i < |m| ==> WellFormed(m[i].1);
    ReportKeysUnique(m);
  }

  lemma ReportKeysUnique(m: seq<(string, Json)>)
    requires |m| == 8
    requires m[0].0 == "startTime" && m[1].0 == "endTime" && m[2].0 == "selector" && m[3].0 == "groupBy"
    requires m[4].0 == "timeZone" && m[5].0 == "returnRecordsWithNoMetrics"
    requires m[6].0 == "returnRowTotals" && m[7].0 == "returnGrandTotals"
    ensures UniqueKeys(m)
  {
  }

  /** `json.loads(json.dumps(report))`: the literal comes back unchanged. */
  function ModifyReport(start: int, end: int): (r: Json)
    requires IsDay(start) && IsDay(end)
    ensures r == ReportLiteral(start, end)
  {
    ReportLiteralWellFormed(start, end);
    LoadDump(ReportLiteral(start, end));
    Load(Dump(ReportLiteral(start, end))).value
  }

  /** `startTime` and `endTime` are the two dates as `%Y-%m-%d`, and read back as those dates. */
  lemma ReportTimes(start: int, end: int)
    requires IsDay(start) && IsDay(end)
    ensures Lookup(ModifyReport(start, end), "startTime") == Ok(Str(FormatIso(start)))
    ensures Lookup(ModifyReport(start, end), "endTime") == Ok(Str(FormatIso(end)))
    ensures ParseIsoDate(FormatIso(start)) == Ok(start) && ParseIsoDate(FormatIso(end)) == Ok(end)
  {
    var m := ReportLiteral(start, end).members;
    LookupAt(m, "startTime", 0);
    LookupAt(m, "endTime", 1);
    ParseFormatIso(start);
    ParseFormatIso(end);
  }

  /** Called as `modify_report(day, day)`, the report covers exactly that one day. */
  lemma OneDayReport(day: int)
    requires IsDay(day)
    ensures Lookup(ModifyReport(day, day), "startTime") == Lookup(ModifyReport(day, day), "endTime")
    ensures Lookup(ModifyReport(day, day), "startTime") == Ok(Str(FormatIso(day)))
  {
    ReportTimes(day, day);
  }

  lemma SelectorLookups()
    ensures Lookup(Selector(), "orderBy")
      == Ok(Array([Object([("field", Str(CountryOrRegion)), ("sortOrder", Str("ASCENDING"))])]))
    ensures Lookup(Selector(), "pagination") == Ok(Object([("offset", Number(0)), ("limit", Number(1000))]))
  {
    LookupAt(Selector().members, "orderBy", 0);
    LookupAt(Selector().members, "pagination", 1);
  }

  lemma DigTwo(v: Json, a: string, b: string)
    ensures Dig(v, [a, b]) == (match Lookup(v, a) case Ok(w) => Lookup(w, b) case Err(e) => Err(e))
  {
    assert [a, b][1..] == [b];
    assert [b][1..] == [];
  }

  lemma DigThree(v: Json, a: string, b: string, c: string)
    ensures Dig(v, [a, b, c]) == (match Lookup(v, a) case Ok(w) => Dig(w, [b, c]) case Err(e) => Err(e))
  {
    assert [a, b, c][1..] == [b, c];
  }

  /** Always the first page: offset 0, limit 1000. */
  lemma ReportPagination(start: int, end: int)
    requires IsDay(start) && IsDay(end)
    ensures Dig(ModifyReport(start, end), ["selector", "pagination", "offset"]) == Ok(Number(0))
    ensures Dig(ModifyReport(start, end), ["selector", "pagination", "limit"]) == Ok(Number(1000))
  {
    LiteralPagination(ReportLiteral(start, end));
  }

  lemma LiteralPagination(r: Json)
    requires r.Object? && |r.members| == 8
    requires r.members[0].0 == "startTime" && r.members[1].0 == "endTime"
    requires r.members[2] == ("selector", Selector())
    ensures Dig(r, ["selector", "pagination", "offset"]) == Ok(Number(0))
    ensures Dig(r, ["selector", "pagination", "limit"]) == Ok(Number(1000))
  {
    LookupAt(r.members, "selector", 2);
    SelectorLookups();
    var page := Object([("offset", Number(0)), ("limit", Number(1000))]);
    LookupAt(page.members, "offset", 0);
    LookupAt(page.members, "limit", 1);
    DigTwo(Selector(), "pagination", "offset");
    DigTwo(Selector(), "pagination", "limit");
    DigThree(r, "selector", "pagination", "offset");
    DigThree(r, "selector", "pagination", "limit");
  }

  /** Rows are grouped by country or region and ordered by it, ascending. */
  lemma ReportGrouping(start: int, end: int)
    requires IsDay(start) && IsDay(end)
    ensures Lookup(ModifyReport(start, end), "groupBy") == Ok(Array([Str(CountryOrRegion)]))
    ensures Dig(ModifyReport(start, end), ["selector", "orderBy"])
      == Ok(Array([Object([("field", Str(CountryOrRegion)), ("sortOrder", Str("ASCENDING"))])]))
  {
    LiteralGrouping(ReportLiteral(start, end));
  }

  lemma LiteralGrouping(r: Json)
    requires r.Object? && |r.members| == 8
    requires r.members[0].0 == "startTime" && r.members[1].0 == "endTime"
    requires r.members[2] == ("selector", Selector())
    requires r.members[3] == ("groupBy", Array([Str(CountryOrRegion)]))
    ensures Lookup(r, "groupBy") == Ok(Array([Str(CountryOrRegion)]))
    ensures Dig(r, ["selector", "orderBy"])
      == Ok(Array([Object([("field", Str(CountryOrRegion)), ("sortOrder", Str("ASCENDING"))])]))
  {
    LookupAt(r.members, "groupBy", 3);
    LookupAt(r.members, "selector", 2);
    SelectorLookups();
    DigTwo(r, "selector", "orderBy");
  }

  /** Times are read in UTC. */
  lemma ReportTimeZone(start: int, end: int)
    requires IsDay(start) && IsDay(end)
    ensures Lookup(ModifyReport(start, end), "timeZone") == Ok(Str("UTC"))
  {
    LookupAt(ReportLiteral(start, end).members, "timeZone", 4);
  }

  /** Rows without metrics, row totals and grand totals are all asked for. */
  lemma ReportTotals(start: int, end: int)
    requires IsDay(start) && IsDay(end)
    ensures Lookup(ModifyReport(start, end), "returnRecordsWithNoMetrics") == Ok(Bool(true))
    ensures Lookup(ModifyReport(start, end), "returnRowTotals") == Ok(Bool(true))
    ensures Lookup(ModifyReport(start, end), "returnGrandTotals") == Ok(Bool(true))
  {
    ReportFlag(start, end, "returnRecordsWithNoMetrics", 5);
    ReportFlag(start, end, "returnRowTotals", 6);
    ReportFlag(start, end, "returnGrandTotals", 7);
  }

  lemma ReportFlag(start: int, end: int, key: string, i: nat)
    requires IsDay(start) && IsDay(end)
    requires 5 <= i < 8 && ReportLiteral(start, end).members[i].0 == key
    requires key != "startTime" && key != "endTime" && key != "selector" && key != "groupBy" && key != "timeZone"
    requires i == 7 ==> key != "returnRecordsWithNoMetrics" && key != "returnRowTotals"
    requires i == 6 ==> key != "returnRecordsWithNoMetrics"
    ensures Lookup(ModifyReport(start, end), key) == Ok(Bool(true))
  {
    LookupAt(ReportLiteral(start, end).members, key, i);
  }

  /** The body depends on the two dates only, and different dates give different bodies. */
  lemma ModifyReportInjective(a: int, b: int, c: int, d: int)
    requires IsDay(a) && IsDay(b) && IsDay(c) && IsDay(d)
    ensures ModifyReport(a, b) == ModifyReport(c, d) <==> a == c && b == d
  {
    if ModifyReport(a, b) == ModifyReport(c, d) {
      assert ReportLiteral(a, b).members[0] == ReportLiteral(c, d).members[0];
      assert ReportLiteral(a, b).members[1] == ReportLiteral(c, d).members[1];
      ParseFormatIso(a);
      ParseFormatIso(b);
      ParseFormatIso(c);
      ParseFormatIso(d);
    }
  }
}
