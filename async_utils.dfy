/**
  `fetch_data` and `write_files`: one request, the classification of what
  came back, and the decision to leave, raise, or overwrite the output file
  with the CSV encoding of the extracted rows.

  The network is the parameter `Exchange`: what the session did with the
  request. Logging is not modelled.
*/
module AsyncUtils {
  import opened Wrappers
  import opened DateFormat
  import opened Json
  import opened JsonLoad
  import opened JsonRoundTrip
  import opened Extractors
  import opened Csv
  import opened FileSystem

  /** What the session did with one request. */
  datatype Exchange =
    | ConnectionFailure   // `session.request` raised an `aiohttp.ClientError` (connection, TLS, timeout, payload)
    | OtherFailure        // it raised anything else
    | Response(status: int, jsonContentType: bool, body: string)

  /** How `fetch_data` ends, as `write_files` sees it. */
  datatype FetchOutcome =
    | HttpError(status: int)   // `raise_for_status` raised `ClientResponseError`
    | ClientError              // another `aiohttp.ClientError`
    | OtherError               // any other exception, such as a body that is not JSON
    | Fetched(json: Json)      // the decoded body

  /** The bytes `bytes.strip()` removes: space, tab, LF, VT, FF and CR. */
  predicate IsByteSpace(c: char) {
    c == ' ' || '\t' <= c <= '\r'
  }

  function TrimStart(s: string): (r: string)
    ensures |r| <= |s| && r == s[|s| - |r|..]
    ensures r == [] || !IsByteSpace(r[0])
    ensures forall i :: 0 <= i < |s| - |r| ==> IsByteSpace(s[i])
  {
    if s != [] && IsByteSpace(s[0]) then TrimStart(s[1..]) else s
  }

  function TrimEnd(s: string): (r: string)
    ensures |r| <= |s| && r == s[..|r|]
    ensures r == [] || !IsByteSpace(r[|r| - 1])
    ensures forall i :: |r| <= i < |s| ==> IsByteSpace(s[i])
  {
    if s != [] && IsByteSpace(s[|s| - 1]) then TrimEnd(s[..|s| - 1]) else s
  }

  /** `body.strip()`. */
  function Strip(s: string): string {
    TrimEnd(TrimStart(s))
  }

  /**
    `fetch_data`: `raise_for_status()` for a status of 400 or more, then
    `response.json()`, which raises `ContentTypeError` (a `ClientError`) when
    the content type is not JSON, returns `None` for a body that is empty
    once stripped, and otherwise decodes the stripped body.
  */
  function FetchData(x: Exchange): (r: FetchOutcome)
    ensures r.HttpError? <==> x.Response? && x.status >= 400
    ensures r.HttpError? ==> r.status == x.status
    ensures r.ClientError? <==> x.ConnectionFailure? || (x.Response? && x.status < 400 && !x.jsonContentType)
    ensures r.OtherError? <==> (x.OtherFailure?
      || (x.Response? && x.status < 400 && x.jsonContentType && Strip(x.body) != [] && Load(Strip(x.body)).Err?))
    ensures r.Fetched? ==> x.Response? && x.status < 400 && x.jsonContentType
    ensures r.Fetched? && Strip(x.body) == [] ==> r.json == Null
    ensures r.Fetched? && Strip(x.body) != [] ==> Load(Strip(x.body)) == Ok(r.json)
  {
    match x
    case ConnectionFailure => ClientError
    case OtherFailure => OtherError
    case Response(status, jsonContentType, body) =>
      if status >= 400 then HttpError(status)
      else if !jsonContentType then ClientError
      else if Strip(body) == [] then Fetched(Null)
      else match Load(Strip(body))
        case Ok(v) => Fetched(v)
        case Err(_) => OtherError
  }

  // ---------------------------------------------------------------------
  // What one `write_files` call runs

  datatype Verb = Get | Post

  /** The request `fetch_data` sends: url, method and the keyword arguments the downloader passes. */
  datatype Request = Request(url: string, verb: Verb, headers: seq<(string, string)>, json: Option<Json>)

  /** The arguments of one `write_files` call. */
  datatype WriteTask = WriteTask(file: Path, request: Request, dataFunc: Extractor, firstCol: Option<string>)

  /** `first_col=''`: the value used when the caller passes none. */
  function FirstCol(task: WriteTask): (c: string)
    ensures task.firstCol.None? ==> c == ""
    ensures task.firstCol.Some? ==> c == task.firstCol.value
  {
    task.firstCol.GetOr("")
  }

  /** What `write_files` decides before it opens the file. */
  datatype Decision =
    | Leave                            // it returns `None`
    | Fail(error: PyError)             // `data_func` raised
    | Write(rows: seq<seq<Json>>)      // the file is opened and these rows written

  function Decide(task: WriteTask, x: Exchange): Decision {
    match FetchData(x)
    case Fetched(v) =>
      if !Truthy(v) then Leave
      else (match Extract(task.dataFunc, v, FirstCol(task))
        case Err(e) => Fail(e)
        case Ok(rows) => Write(rows))
    case _ => Leave
  }

  /** The exception a `write_files` call lets through. */
  datatype TaskError =
    | DataFuncError(cause: PyError)   // from `data_func`, raised in the `else` branch
    | OpenError(oserror: OsError)     // from `open(file, 'w')`

  /** `write_files(file, url, method, session, writer, data_func, first_col)`, with `writer` the CSV writer. */
  method WriteFiles(disk: Disk, task: WriteTask, x: Exchange) returns (r: Result<(), TaskError>)
    requires disk.Valid()
    modifies disk
    ensures disk.Valid() && disk.dirs == old(disk.dirs)
    ensures Decide(task, x).Leave? ==> r == Ok(()) && disk.files == old(disk.files)
    ensures Decide(task, x).Fail? ==> r == Err(DataFuncError(Decide(task, x).error)) && disk.files == old(disk.files)
    ensures Decide(task, x).Write? && OpenWriteIn(old(disk.files), old(disk.dirs), task.file).Err? ==>
      r == Err(OpenError(OpenWriteIn(old(disk.files), old(disk.dirs), task.file).error))
      && disk.files == old(disk.files)
    ensures Decide(task, x).Write? && OpenWriteIn(old(disk.files), old(disk.dirs), task.file).Ok? ==>
      r == Ok(()) && disk.files == old(disk.files)[task.file := WriteRows(Decide(task, x).rows)]
  {
    var fetched := FetchData(x);
    if !fetched.Fetched? {
      return Ok(());
    }
    var preprocess := fetched.json;
    if !Truthy(preprocess) {
      return Ok(());
    }
    var data;
    match task.dataFunc {
      case AppleData =>
        data := GetAppleData(preprocess, FirstCol(task));
      case AppleCampaignData =>
        data := GetAppleCampaignData(preprocess, FirstCol(task));
    }
    if data.Err? {
      return Err(DataFuncError(data.error));
    }
    var written := disk.WriteText(task.file, WriteRows(data.value));
    if written.Err? {
      return Err(OpenError(written.error));
    }
    r := Ok(());
  }

  // ---------------------------------------------------------------------
  // What `write_files` promises

  /** A status of 400 or more returns `None` and leaves the file as it was. */
  lemma HttpErrorLeavesFile(task: WriteTask, x: Exchange)
    requires x.Response? && x.status >= 400
    ensures FetchData(x) == HttpError(x.status)
    ensures Decide(task, x) == Leave
  {
  }

  /** A failed request, a body that is not JSON, or any other exception while fetching returns `None` as well. */
  lemma FetchFailureLeavesFile(task: WriteTask, x: Exchange)
    requires x.ConnectionFailure? || x.OtherFailure?
      || (x.Response? && x.status < 400 && (!x.jsonContentType || (Strip(x.body) != [] && Load(Strip(x.body)).Err?)))
    ensures Decide(task, x) == Leave
  {
  }

  /** A falsy body (`null`, `false`, `0`, `""`, `[]`, `{}` or an empty response) is not written. */
  lemma FalsyBodyLeavesFile(task: WriteTask, x: Exchange, v: Json)
    requires FetchData(x) == Fetched(v) && !Truthy(v)
    ensures Decide(task, x) == Leave
  {
  }

  /** An empty or all-blank body decodes to `None`, which is falsy. */
  lemma BlankBodyLeavesFile(task: WriteTask, status: int, body: string)
    requires status < 400 && Strip(body) == []
    ensures FetchData(Response(status, true, body)) == Fetched(Null)
    ensures Decide(task, Response(status, true, body)) == Leave
  {
  }

  /** The file is written exactly when the body decodes to a truthy value the extractor accepts, and then with the extracted rows. */
  lemma WrittenIff(task: WriteTask, x: Exchange, rows: seq<seq<Json>>)
    ensures Decide(task, x) == Write(rows) <==>
      FetchData(x).Fetched? && Truthy(FetchData(x).json) && Extract(task.dataFunc, FetchData(x).json, FirstCol(task)) == Ok(rows)
  {
  }

  /** An exception from `data_func` is raised to the caller, before the file is opened. */
  lemma ExtractorErrorRaises(task: WriteTask, x: Exchange, v: Json)
    requires FetchData(x) == Fetched(v) && Truthy(v)
    requires Extract(task.dataFunc, v, FirstCol(task)).Err?
    ensures Decide(task, x) == Fail(Extract(task.dataFunc, v, FirstCol(task)).error)
  {
  }

  /**
    What is written is the CSV encoding of the rows: it reads back as the
    cell texts, one record per row, every row starting with the first
    column; an empty list of rows truncates the file to nothing.
  */
  lemma WrittenContents(task: WriteTask, x: Exchange)
    requires Decide(task, x).Write?
    ensures var rows := Decide(task, x).rows;
      && ParseRows(WriteRows(rows)) == Some(TableTexts(rows))
      && (forall i :: 0 <= i < |rows| ==> |rows[i]| == 1 + |FieldPaths(task.dataFunc)| && rows[i][0] == Str(FirstCol(task)))
      && (rows == [] ==> WriteRows(rows) == "")
  {
    var v := FetchData(x).json;
    ParseWriteRows(Decide(task, x).rows);
    ExtractShape(task.dataFunc, v, FirstCol(task));
  }

  /** Without a `first_col` argument every written row starts with an empty cell. */
  lemma DefaultFirstColumn(task: WriteTask, x: Exchange)
    requires task.firstCol.None? && Decide(task, x).Write?
    ensures var rows := Decide(task, x).rows; forall i :: 0 <= i < |rows| ==> |rows[i]| > 0 && rows[i][0] == Str("")
  {
    WrittenContents(task, x);
    assert FirstCol(task) == "";
  }

  // ---------------------------------------------------------------------
  // A body the server produced with `json.dumps`

  lemma NatTextEnds(n: nat)
    ensures !IsByteSpace(NatText(n)[0]) && !IsByteSpace(NatText(n)[|NatText(n)| - 1])
  {
    var s := NatText(n);
    assert IsDigit(s[0]) && IsDigit(s[|s| - 1]);
  }

  /** A dumped value starts and ends with a character that is not blank. */
  lemma DumpEnds(v: Json)
    requires !v.Float?
    ensures var s := Dump(v); s != [] && !IsByteSpace(s[0]) && !IsByteSpace(s[|s| - 1])
  {
    match v
    case Number(n) =>
      if n < 0 {
        NatTextEnds(-n);
      } else {
        NatTextEnds(n);
      }
    case _ =>
  }

  lemma StripUnchanged(s: string)
    requires s != [] && !IsByteSpace(s[0]) && !IsByteSpace(s[|s| - 1])
    ensures Strip(s) == s
  {
  }

  /** A successful response carrying `json.dumps(v)` is fetched as `v` itself. */
  lemma FetchDumped(status: int, v: Json)
    requires status < 400 && WellFormed(v)
    ensures FetchData(Response(status, true, Dump(v))) == Fetched(v)
  {
    DumpEnds(v);
    StripUnchanged(Dump(v));
    LoadDump(v);
  }

  /** So a campaign listing dumped by the server and accepted by the extractor is written as its tuples. */
  lemma DumpedListingIsWritten(task: WriteTask, status: int, v: Json)
    requires status < 400 && WellFormed(v) && Truthy(v)
    requires Extract(task.dataFunc, v, FirstCol(task)).Ok?
    ensures Decide(task, Response(status, true, Dump(v))) == Write(Extract(task.dataFunc, v, FirstCol(task)).value)
  {
    FetchDumped(status, v);
  }
}
