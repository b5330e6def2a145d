/**
  `get_apple_data` and `get_apple_campaign_data`: from a decoded response
  and a first-column string to one fixed-width tuple per row.

  A tuple is the sequence of its fields. Python builds each tuple left to
  right, so the first subscript that fails decides the exception; the
  loop stops at the first row whose tuple fails, and nothing is returned
  in that case.
*/
module Extractors {
  import opened Wrappers
  import opened Json

  /** The `data_func` a task passes to `write_files`. */
  datatype Extractor = AppleData | AppleCampaignData

  /** `v[k0][k1]...`, one subscript after the other. */
  function Dig(v: Json, keys: seq<string>): (r: Result<Json, PyError>)
    ensures keys == [] ==> r == Ok(v)
    ensures r.Err? ==> r.error == TypeError || (r.error.KeyError? && r.error.key in keys)
  {
    if keys == [] then Ok(v)
    else
      var w :- Lookup(v, keys[0]);
      Dig(w, keys[1..])
  }

  /** Where `get_apple_data` finds its rows. */
  const ReportRowsPath: seq<string> := ["data", "reportingDataResponse", "row"]

  /** The eleven fields `get_apple_data` copies from a row, in tuple order, after the first column. */
  const ReportFieldPaths: seq<seq<string>> := [
    ["metadata", "campaignId"],
    ["metadata", "campaignName"],
    ["metadata", "campaignStatus"],
    ["total", "impressions"],
    ["total", "taps"],
    ["total", "installs"],
    ["total", "newDownloads"],
    ["total", "redownloads"],
    ["total", "avgCPA", "amount"],
    ["total", "avgCPT", "amount"],
    ["total", "localSpend", "amount"]
  ]

  /** Where `get_apple_campaign_data` finds its rows. */
  const CampaignRowsPath: seq<string> := ["data"]

  /** The four fields `get_apple_campaign_data` copies from a row, in tuple order, after the first column. */
  const CampaignFieldPaths: seq<seq<string>> := [["id"], ["name"], ["status"], ["deleted"]]

  function RowsPath(kind: Extractor): seq<string> {
    match kind
    case AppleData => ReportRowsPath
    case AppleCampaignData => CampaignRowsPath
  }

  function FieldPaths(kind: Extractor): seq<seq<string>> {
    match kind
    case AppleData => ReportFieldPaths
    case AppleCampaignData => CampaignFieldPaths
  }

  /**
    The values of `results` when every one of them is a value; otherwise the
    exception of the first one that is not. This is what Python's
    left-to-right evaluation gives, for the fields of a tuple display and for
    the appends of a loop.
  */
  function Collect<T>(results: seq<Result<T, PyError>>): (r: Result<seq<T>, PyError>)
    ensures r.Ok? ==> |r.value| == |results|
  {
    if results == [] then Ok([])
    else
      var init :- Collect(results[..|results| - 1]);
      var last :- results[|results| - 1];
      Ok(init + [last])
  }

  /** All of `results` are values exactly when `Collect` returns, and then it returns them in order. */
  lemma {:induction false} CollectOk<T>(results: seq<Result<T, PyError>>)
    ensures Collect(results).Ok? <==> forall i :: 0 <= i < |results| ==> results[i].Ok?
    ensures Collect(results).Ok? ==> forall i :: 0 <= i < |results| ==> results[i] == Ok(Collect(results).value[i])
    decreases |results|
  {
    if results != [] {
      var n := |results|;
      var init := results[..n - 1];
      CollectOk(init);
      assert forall i :: 0 <= i < n - 1 ==> init[i] == results[i];
      if Collect(init).Ok? && results[n - 1].Ok? {
        var a := Collect(init).value;
        assert Collect(results).value == a + [results[n - 1].value];
      }
    }
  }

  /** When result `i` is the first exception, `Collect` raises it, and already does on `results[..i + 1]`. */
  lemma {:induction false} CollectFirstError<T>(results: seq<Result<T, PyError>>, i: nat)
    requires i < |results| && results[i].Err?
    requires forall j :: 0 <= j < i ==> results[j].Ok?
    ensures Collect(results) == Err(results[i].error)
    ensures Collect(results[..i + 1]) == Err(results[i].error)
    decreases |results|
  {
    var n := |results|;
    var init := results[..n - 1];
    if i == n - 1 {
      CollectOk(init);
      assert results[..i + 1] == results;
    } else {
      assert init[..i + 1] == results[..i + 1];
      CollectFirstError(init, i);
    }
  }

  /** `row[p0[0]][p0[1]]..., row[p1[0]]...`, for each path in order. */
  function Lookups(row: Json, paths: seq<seq<string>>): (r: seq<Result<Json, PyError>>)
    ensures |r| == |paths| && forall k :: 0 <= k < |paths| ==> r[k] == Dig(row, paths[k])
  {
    seq(|paths|, k requires 0 <= k < |paths| => Dig(row, paths[k]))
  }

  /** `(first_col, row[...][...], ...)` for one row. */
  function Tuple(kind: Extractor, row: Json, firstCol: string): Result<seq<Json>, PyError> {
    var fields :- Collect(Lookups(row, FieldPaths(kind)));
    Ok([Str(firstCol)] + fields)
  }

  /** The tuple of each row, in order. */
  function RowTuples(kind: Extractor, rows: seq<Json>, firstCol: string): (r: seq<Result<seq<Json>, PyError>>)
    ensures |r| == |rows| && forall i :: 0 <= i < |rows| ==> r[i] == Tuple(kind, rows[i], firstCol)
  {
    seq(|rows|, i requires 0 <= i < |rows| => Tuple(kind, rows[i], firstCol))
  }

  /** What `data_func(data, first_col)` returns, or the exception it raises. */
  function Extract(kind: Extractor, data: Json, firstCol: string): Result<seq<seq<Json>>, PyError> {
    var rowsValue :- Dig(data, RowsPath(kind));
    var rows :- Iterate(rowsValue);
    Collect(RowTuples(kind, rows, firstCol))
  }

  /** The `for row in rows: cols.append(r)` loop shared by both extractors. */
  method CollectTuples(kind: Extractor, rows: seq<Json>, firstCol: string) returns (r: Result<seq<seq<Json>>, PyError>)
    ensures r == Collect(RowTuples(kind, rows, firstCol))
  {
    ghost var results := RowTuples(kind, rows, firstCol);
    var cols: seq<seq<Json>> := [];
    var i := 0;
    while i < |rows|
      invariant 0 <= i <= |rows|
      invariant Collect(results[..i]) == Ok(cols)
    {
      var t := Tuple(kind, rows[i], firstCol);
      if t.Err? {
        CollectStops(results, i, cols);
        return Err(t.error);
      }
      CollectExtends(results, i, cols);
      cols := cols + [t.value];
      i := i + 1;
    }
    assert results[..i] == results;
    return Ok(cols);
  }

  /** One more value extends what `Collect` returns on the prefix. */
  lemma CollectExtends<T>(results: seq<Result<T, PyError>>, i: nat, done: seq<T>)
    requires i < |results| && results[i].Ok? && Collect(results[..i]) == Ok(done)
    ensures Collect(results[..i + 1]) == Ok(done + [results[i].value])
  {
    assert results[..i + 1][..i] == results[..i];
  }

  /** The first exception after a prefix of values is what `Collect` raises. */
  lemma CollectStops<T>(results: seq<Result<T, PyError>>, i: nat, done: seq<T>)
    requires i < |results| && results[i].Err? && Collect(results[..i]) == Ok(done)
    ensures Collect(results) == Err(results[i].error)
  {
    CollectOk(results[..i]);
    assert forall j :: 0 <= j < i ==> results[..i][j] == results[j];
    CollectFirstError(results, i);
  }

  /** `get_apple_data(data, first_col)`. */
  method GetAppleData(data: Json, firstCol: string) returns (r: Result<seq<seq<Json>>, PyError>)
    ensures r == Extract(AppleData, data, firstCol)
  {
    var rowsValue :- Dig(data, ReportRowsPath);
    var rows :- Iterate(rowsValue);
    r := CollectTuples(AppleData, rows, firstCol);
  }

  /** `get_apple_campaign_data(data, first_col)`. */
  method GetAppleCampaignData(data: Json, firstCol: string) returns (r: Result<seq<seq<Json>>, PyError>)
    ensures r == Extract(AppleCampaignData, data, firstCol)
  {
    var rowsValue :- Dig(data, CampaignRowsPath);
    var rows :- Iterate(rowsValue);
    r := CollectTuples(AppleCampaignData, rows, firstCol);
  }

  // ---------------------------------------------------------------------
  // What the extractors promise

  /** One tuple per row, in input order; each starts with the first column and has 1 + the field count entries. */
  lemma ExtractShape(kind: Extractor, data: Json, firstCol: string)
    requires Extract(kind, data, firstCol).Ok?
    ensures var rows := Iterate(Dig(data, RowsPath(kind)).value).value;
      var tuples := Extract(kind, data, firstCol).value;
      && |tuples| == |rows|
      && forall i :: 0 <= i < |rows| ==>
        && |tuples[i]| == 1 + |FieldPaths(kind)|
        && tuples[i][0] == Str(firstCol)
        && forall k :: 0 <= k < |FieldPaths(kind)| ==> Dig(rows[i], FieldPaths(kind)[k]) == Ok(tuples[i][k + 1])
  {
    var rows := Iterate(Dig(data, RowsPath(kind)).value).value;
    var tuples := Extract(kind, data, firstCol).value;
    CollectOk(RowTuples(kind, rows, firstCol));
    forall i | 0 <= i < |rows|
      ensures |tuples[i]| == 1 + |FieldPaths(kind)| && tuples[i][0] == Str(firstCol)
      ensures forall k :: 0 <= k < |FieldPaths(kind)| ==> Dig(rows[i], FieldPaths(kind)[k]) == Ok(tuples[i][k + 1])
    {
      var lookups := Lookups(rows[i], FieldPaths(kind));
      CollectOk(lookups);
      var fields := Collect(lookups).value;
      assert tuples[i] == [Str(firstCol)] + fields;
    }
  }

  /** `get_apple_data` tuples have 12 fields, `get_apple_campaign_data` tuples 5. */
  lemma TupleWidths(row: Json, firstCol: string)
    ensures Tuple(AppleData, row, firstCol).Ok? ==> |Tuple(AppleData, row, firstCol).value| == 12
    ensures Tuple(AppleCampaignData, row, firstCol).Ok? ==> |Tuple(AppleCampaignData, row, firstCol).value| == 5
  {
  }

  /** An empty row list gives an empty list of tuples. */
  lemma EmptyRowsGiveNoTuples(kind: Extractor, data: Json, firstCol: string)
    requires Dig(data, RowsPath(kind)) == Ok(Array([]))
    ensures Extract(kind, data, firstCol) == Ok([])
  {
  }

  /**
    The first missing key (or non-object) met, in row order and then field
    order, is what the whole call raises: no partial list is returned.
  */
  lemma MissingKeyRaises(kind: Extractor, data: Json, firstCol: string, i: nat, k: nat)
    requires Dig(data, RowsPath(kind)).Ok? && Iterate(Dig(data, RowsPath(kind)).value).Ok?
    requires var rows := Iterate(Dig(data, RowsPath(kind)).value).value;
      && i < |rows| && k < |FieldPaths(kind)|
      && (forall j :: 0 <= j < i ==> Tuple(kind, rows[j], firstCol).Ok?)
      && (forall q :: 0 <= q < k ==> Dig(rows[i], FieldPaths(kind)[q]).Ok?)
      && Dig(rows[i], FieldPaths(kind)[k]).Err?
    ensures var rows := Iterate(Dig(data, RowsPath(kind)).value).value;
      Extract(kind, data, firstCol) == Err(Dig(rows[i], FieldPaths(kind)[k]).error)
  {
    var rows := Iterate(Dig(data, RowsPath(kind)).value).value;
    CollectFirstError(Lookups(rows[i], FieldPaths(kind)), k);
    CollectFirstError(RowTuples(kind, rows, firstCol), i);
  }

  /** A row's tuple is built exactly when every field path of the row can be followed. */
  lemma TupleOkIff(kind: Extractor, row: Json, firstCol: string)
    ensures Tuple(kind, row, firstCol).Ok? <==>
      forall k :: 0 <= k < |FieldPaths(kind)| ==> Dig(row, FieldPaths(kind)[k]).Ok?
  {
    CollectOk(Lookups(row, FieldPaths(kind)));
  }

  /**
    The extraction succeeds exactly when the rows path can be followed, its value can be
    iterated, and every field path of every row can be followed.
  */
  lemma ExtractOkIff(kind: Extractor, data: Json, firstCol: string)
    ensures Extract(kind, data, firstCol).Ok? <==>
      && Dig(data, RowsPath(kind)).Ok?
      && Iterate(Dig(data, RowsPath(kind)).value).Ok?
      && var rows := Iterate(Dig(data, RowsPath(kind)).value).value;
        forall i, k :: 0 <= i < |rows| && 0 <= k < |FieldPaths(kind)| ==> Dig(rows[i], FieldPaths(kind)[k]).Ok?
  {
    if Dig(data, RowsPath(kind)).Ok? && Iterate(Dig(data, RowsPath(kind)).value).Ok? {
      var rows := Iterate(Dig(data, RowsPath(kind)).value).value;
      CollectOk(RowTuples(kind, rows, firstCol));
      forall i | 0 <= i < |rows| {
        TupleOkIff(kind, rows[i], firstCol);
      }
    }
  }

  /** Subscripting a row that is not an object raises `TypeError` before any key is looked up. */
  lemma NonObjectRowRaises(kind: Extractor, row: Json, firstCol: string)
    requires !row.Object?
    ensures Tuple(kind, row, firstCol) == Err(TypeError)
  {
    var lookups := Lookups(row, FieldPaths(kind));
    assert FieldPaths(kind)[0] != [];
    assert lookups[0] == Err(TypeError);
    CollectFirstError(lookups, 0);
  }

  /**
    A non-empty dict or string where the rows belong iterates as strings (the keys, or the
    characters), and the first of them raises `TypeError` when subscripted.
  */
  lemma NonListRowsRaise(kind: Extractor, data: Json, firstCol: string)
    requires Dig(data, RowsPath(kind)).Ok?
    requires var v := Dig(data, RowsPath(kind)).value;
      (v.Object? && v.members != []) || (v.Str? && v.s != [])
    ensures Extract(kind, data, firstCol) == Err(TypeError)
  {
    var rows := Iterate(Dig(data, RowsPath(kind)).value).value;
    assert rows[0].Str?;
    NonObjectRowRaises(kind, rows[0], firstCol);
    CollectFirstError(RowTuples(kind, rows, firstCol), 0);
  }

  /** A report row that is not an object raises `TypeError`; an object without `metadata` raises `KeyError('metadata')`. */
  lemma ReportRowWithoutMetadata(row: Json, firstCol: string)
    ensures !row.Object? ==> Tuple(AppleData, row, firstCol) == Err(TypeError)
    ensures row.Object? && "metadata" !in KeysOf(row.members) ==> Tuple(AppleData, row, firstCol) == Err(KeyError("metadata"))
  {
    assert ReportFieldPaths[0] == ["metadata", "campaignId"];
    var lookups := Lookups(row, ReportFieldPaths);
    if !row.Object? {
      assert lookups[0] == Err(TypeError);
      CollectFirstError(lookups, 0);
    } else if "metadata" !in KeysOf(row.members) {
      assert lookups[0] == Err(KeyError("metadata"));
      CollectFirstError(lookups, 0);
    }
  }

  lemma DigOneKey(v: Json, key: string)
    ensures Dig(v, [key]) == Lookup(v, key)
  {
    assert [key][1..] == [];
  }

  lemma LookupsOfFour(row: Json, paths: seq<seq<string>>)
    requires |paths| == 4
    ensures Lookups(row, paths) == [Dig(row, paths[0]), Dig(row, paths[1]), Dig(row, paths[2]), Dig(row, paths[3])]
  {
  }

  lemma CampaignLookups(c: Json, id: Json, name: Json, status: Json, deleted: Json)
    requires Lookup(c, "id") == Ok(id) && Lookup(c, "name") == Ok(name)
    requires Lookup(c, "status") == Ok(status) && Lookup(c, "deleted") == Ok(deleted)
    ensures Lookups(c, CampaignFieldPaths) == [Ok(id), Ok(name), Ok(status), Ok(deleted)]
  {
    LookupsOfFour(c, CampaignFieldPaths);
    assert CampaignFieldPaths[0] == ["id"] && CampaignFieldPaths[1] == ["name"];
    assert CampaignFieldPaths[2] == ["status"] && CampaignFieldPaths[3] == ["deleted"];
    DigOneKey(c, "id");
    DigOneKey(c, "name");
    DigOneKey(c, "status");
    DigOneKey(c, "deleted");
  }

  /** A sequence of successes collects to their values. */
  lemma CollectAllOk<T>(results: seq<Result<T, PyError>>, values: seq<T>)
    requires |results| == |values| && forall i :: 0 <= i < |results| ==> results[i] == Ok(values[i])
    ensures Collect(results) == Ok(values)
  {
    CollectOk(results);
    assert Collect(results).Ok?;
    var r := Collect(results).value;
    forall i | 0 <= i < |values|
      ensures r[i] == values[i]
    {
      assert results[i] == Ok(r[i]);
    }
    assert r == values;
  }

  lemma TupleOfFields(kind: Extractor, row: Json, firstCol: string, fields: seq<Json>)
    requires Collect(Lookups(row, FieldPaths(kind))) == Ok(fields)
    ensures Tuple(kind, row, firstCol) == Ok([Str(firstCol)] + fields)
  {
  }

  /** Four successes collect to their four values. */
  lemma CollectFourOk(results: seq<Result<Json, PyError>>, fields: seq<Json>)
    requires |fields| == 4
    requires results == [Ok(fields[0]), Ok(fields[1]), Ok(fields[2]), Ok(fields[3])]
    ensures Collect(results) == Ok(fields)
  {
    CollectAllOk(results, fields);
  }

  lemma CampaignRowTuple(firstCol: string, c: Json, id: Json, name: Json, status: Json, deleted: Json)
    requires Collect(Lookups(c, CampaignFieldPaths)) == Ok([id, name, status, deleted])
    ensures Tuple(AppleCampaignData, c, firstCol) == Ok([Str(firstCol), id, name, status, deleted])
  {
    TupleOfFields(AppleCampaignData, c, firstCol, [id, name, status, deleted]);
    PrependFour(Str(firstCol), id, name, status, deleted);
  }

  lemma PrependFour<T>(x: T, a: T, b: T, c: T, d: T)
    ensures [x] + [a, b, c, d] == [x, a, b, c, d]
  {
  }

  /** A listing of one row gives that row's tuple alone. */
  lemma ListingOfOne(firstCol: string, c: Json, tuple: seq<Json>)
    requires Tuple(AppleCampaignData, c, firstCol) == Ok(tuple)
    ensures Extract(AppleCampaignData, Object([("data", Array([c]))]), firstCol) == Ok([tuple])
  {
    var data := Object([("data", Array([c]))]);
    DigOneKey(data, "data");
    LookupAt(data.members, "data", 0);
    CollectAllOk(RowTuples(AppleCampaignData, [c], firstCol), [tuple]);
  }

  /**
    A listing of one campaign whose `id`, `name`, `status` and `deleted`
    are present gives one 5-tuple: the first column, then those four values.
  */
  lemma OneCampaign(firstCol: string, c: Json, id: Json, name: Json, status: Json, deleted: Json)
    requires Lookup(c, "id") == Ok(id) && Lookup(c, "name") == Ok(name)
    requires Lookup(c, "status") == Ok(status) && Lookup(c, "deleted") == Ok(deleted)
    ensures Extract(AppleCampaignData, Object([("data", Array([c]))]), firstCol)
      == Ok([[Str(firstCol), id, name, status, deleted]])
  {
    CampaignLookups(c, id, name, status, deleted);
    CollectFourOk(Lookups(c, CampaignFieldPaths), [id, name, status, deleted]);
    CampaignRowTuple(firstCol, c, id, name, status, deleted);
    ListingOfOne(firstCol, c, [Str(firstCol), id, name, status, deleted]);
  }
}
