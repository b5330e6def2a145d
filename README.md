# Apple Search Ads asynchronous downloader, modelled in Dafny

The downloader fetches one Apple Search Ads campaign report per day, from a
configured first date up to yesterday. It also fetches the current campaign
listing. Each response is flattened into fixed-width tuples and written as
a CSV file under a `YYYY/MM/DD` directory tree. A report that already
exists and is older than the re-download interval is not fetched again.

This project models the core of that program and proves what it does.

- `Calendar`, `DateFormat`, `DateRange`: `generate_date_range`. Days are
  Python date ordinals. `strptime('%Y-%m-%d')` follows CPython's
  regular-expression matcher, including the error it raises for each kind
  of bad input. The clock is a parameter, `today`.
- `Json`, `JsonLoad`, `JsonRoundTrip`: decoded JSON values as Python holds
  them. Subscript, iteration, truth value, `json.dumps` and `json.loads`
  are modelled, with `json.loads(json.dumps(v)) == v` proved for every
  float-free value with unique keys.
- `Extractors`: `get_apple_data` and `get_apple_campaign_data`. Their
  loops are methods proved against the specification function `Extract`.
- `Csv`: `csv.writer(..., quoting=QUOTE_MINIMAL).writerows`, and an RFC
  4180 reader (section 2 of RFC 4180). The reader is proved to read back
  exactly the rows written.
- `ApiDefinitions`: `modify_report`, the body of the report request.
- `FileSystem`: the disk as a class holding files and directories, with
  `Path.exists`, `mkdir(parents=True)` and `open(p, 'w')` and the OS
  errors they raise.
- `AsyncUtils`: `fetch_data`, which classifies what the session returned,
  and `write_files`, which leaves the file alone, raises, or overwrites
  the file with the CSV text.
- `Downloader`: the loop of `main` that builds its requests, as a method over the
  disk. It is proved against a left fold (`PlanDays`) and against the
  function `MainTasks`.

## Model

| member | source | states |
|---|---|---|
| Calendar.FromToOrdinal | src/helpers/helpers.py:9-11 | Converting a date to its ordinal and back gives the same date, so day arithmetic on ordinals is date arithmetic |
| DateFormat.Strptime | src/helpers/helpers.py:9 | A date is returned only for text of 8 to 10 characters that starts with four digits and `-` and names a valid date. Its year is those four digits |
| DateFormat.MatchMonthReads | src/helpers/helpers.py:9 | What the `%m` group consumes before its `-` is a spelling of the month returned: two digits, or one digit below 10 |
| DateFormat.MatchMonthSpelled | src/helpers/helpers.py:9 | Every spelling of a month, followed by `-`, matches as that month |
| DateFormat.MatchDayReads | src/helpers/helpers.py:9 | What the `%d` group consumes is a spelling of the day returned: two digits, or below 10 one digit or a space and one digit |
| DateFormat.MatchDaySpelled | src/helpers/helpers.py:9 | Every spelling of a day, alone, matches as that day with nothing left over |
| DateFormat.StrptimeReads | src/helpers/helpers.py:9 | The month and day of a parsed date are the ones the text spells, between the second `-` and the end |
| DateFormat.StrptimeSpelled | src/helpers/helpers.py:9 | Four digits, `-`, any month spelling, `-` and any day spelling parse to the date they spell, or raise the out-of-range error when that date does not exist |
| DateFormat.ParseFormatIso | src/config/api_definitions.py:7-8 | Parsing `%Y-%m-%d` output gives back the same day |
| DateFormat.ConfiguredFirstDateIsRejected | src/config/config.py:25-29 | The configured first date `1993-19-06` does not match the format |
| DateFormat.UnpaddedDigitsAccepted | src/helpers/helpers.py:9 | Single-digit and space-padded months and days are accepted, as CPython's pattern allows |
| DateFormat.InvalidDatesRejected | src/helpers/helpers.py:9 | 29 February of a common year and year 0 are out of range. Trailing text is left unconverted |
| DateFormat.FormatCompactInjective | src/app/downloader.py:48 | Different days never give the same `%Y%m%d` first column |
| DateFormat.SlashPartsInjective | src/app/downloader.py:34 | Different days never give the same `%Y/%m/%d` directory |
| DateRange.GenerateDateRange | src/helpers/helpers.py:7-13 | Raises the strptime error for a bad first date, `OverflowError` when today is the first representable day, and `ValueError` when the first date is after today. Otherwise it yields days, and succeeds exactly when none of these apply |
| DateRange.DateRangeShape | src/helpers/helpers.py:10-12 | The range runs from yesterday down to the first date, one day per step, and contains exactly the days between them |
| DateRange.DateRangeStrictlyDescending | src/helpers/helpers.py:11 | Newest first, with no day repeated |
| DateRange.FirstDateTodayIsEmpty | src/helpers/helpers.py:12 | A first date equal to today yields nothing |
| DateRange.NineDaysOfJanuary | src/helpers/helpers.py:7-13 | From 2024-01-01, on 2024-01-10, the range is the nine days 2024-01-09 down to 2024-01-01 |
| DateRange.ConfiguredFirstDateRaises | src/helpers/helpers.py:9 | With the configured first date, the generator raises before yielding any day |
| Json.Lookup | src/helpers/helpers.py:18 | Subscripting a value that is not a dict raises `TypeError`. A missing key raises `KeyError` for that key. Otherwise it returns a member's value |
| Json.LookupAt | src/helpers/helpers.py:18 | A subscript finds the first member with the key |
| Json.Iterate | src/helpers/helpers.py:20 | A list iterates over its items. A dict iterates over its keys, in order, as strings. A string iterates over its one-character strings. Other values raise `TypeError` |
| JsonRoundTrip.LoadDump | src/config/api_definitions.py:30-31 | `json.loads(json.dumps(v)) == v` for every float-free value with unique keys |
| Extractors.Dig | src/helpers/helpers.py:18 | Nested subscripts fail only with `TypeError` or a `KeyError` for one of the keys |
| Extractors.CollectFirstError | src/helpers/helpers.py:20-33 | The first failing element, taken left to right, decides the exception |
| Extractors.CollectTuples | src/helpers/helpers.py:19-34 | The row loop returns the tuples of all rows, or the first row's exception |
| Extractors.GetAppleData | src/helpers/helpers.py:16-34 | Returns the report extraction specified by `Extract` |
| Extractors.GetAppleCampaignData | src/helpers/helpers.py:37-48 | Returns the listing extraction specified by `Extract` |
| Extractors.ExtractShape | src/helpers/helpers.py:20-33 | One tuple per row, in order. Each tuple is the first column followed by the value at each field path of its row |
| Extractors.TupleWidths | src/helpers/helpers.py:21-32 | Report tuples have 12 entries and campaign tuples 5 |
| Extractors.EmptyRowsGiveNoTuples | src/helpers/helpers.py:19-20 | An empty row list gives an empty result |
| Extractors.TupleOkIff | src/helpers/helpers.py:21-32 | A row's tuple is built exactly when every field path of the row can be followed |
| Extractors.ExtractOkIff | src/helpers/helpers.py:18-34 | The extraction succeeds exactly when the rows path can be followed, its value can be iterated, and every field path of every row can be followed |
| Extractors.NonObjectRowRaises | src/helpers/helpers.py:21-32 | A row that is not a dict raises `TypeError`, for both extractors |
| Extractors.NonListRowsRaise | src/helpers/helpers.py:18-22 | A non-empty dict or string where the rows belong iterates as strings, so the first subscript raises `TypeError` |
| Extractors.MissingKeyRaises | src/helpers/helpers.py:21-33 | The first missing key, by row and then by field, is raised for the whole call. No partial list is returned |
| Extractors.ReportRowWithoutMetadata | src/helpers/helpers.py:22 | A row that is not a dict raises `TypeError`. A row without `metadata` raises `KeyError('metadata')` |
| Extractors.OneCampaign | src/helpers/helpers.py:39-48 | A listing of one campaign that has `id`, `name`, `status` and `deleted` gives one tuple: the first column, then those four values |
| Extractors.ListingOfOne | src/helpers/helpers.py:39-48 | A listing of one campaign gives exactly that campaign's tuple |
| Csv.EncodeField | src/helpers/helpers.py:53 | A field without special characters is written as is. Otherwise it is written between quotes |
| Csv.QuotedOnlyWhenNeeded | src/helpers/helpers.py:53 | A field is left unchanged exactly when it has no `,`, `"`, CR or LF. Otherwise it is quoted with its quotes doubled |
| Csv.ParseEncodeRows | src/helpers/helpers.py:51-55 | Reading the written text gives back exactly the rows |
| Csv.EncodeRowsInjective | src/helpers/helpers.py:54 | Different tables are written as different texts |
| Csv.EncodeRowsAppend | src/helpers/helpers.py:54 | Writing two batches writes the first batch's records, then the second's |
| Csv.WriteNoRows | src/helpers/helpers.py:54 | No rows write nothing |
| Csv.ParseWriteRows | src/helpers/helpers.py:51-55 | The written cells read back as their `str` texts, row by row |
| ApiDefinitions.ModifyReport | src/config/api_definitions.py:5-32 | The dumped and reloaded body equals the dict literal, keys in order |
| ApiDefinitions.ReportTimes | src/config/api_definitions.py:7-8 | `startTime` and `endTime` are the two dates as `%Y-%m-%d`, and they parse back to those dates |
| ApiDefinitions.OneDayReport | src/app/downloader.py:33 | `modify_report(day, day)` starts and ends on that day |
| ApiDefinitions.ReportPagination | src/config/api_definitions.py:16-19 | Offset 0, limit 1000 |
| ApiDefinitions.ReportGrouping | src/config/api_definitions.py:9-23 | Grouped by `countryOrRegion` and ordered by it, ascending |
| ApiDefinitions.ReportTimeZone | src/config/api_definitions.py:24 | Time zone UTC |
| ApiDefinitions.ReportTotals | src/config/api_definitions.py:25-27 | All three `return...` flags are true |
| ApiDefinitions.ModifyReportInjective | src/config/api_definitions.py:5-32 | Two bodies are equal exactly when their dates are equal |
| FileSystem.MakeDirsIn | src/app/downloader.py:40-41 | `mkdir(parents=True)` raises `FileExistsError` on an existing path and `NotADirectoryError` under a file. Otherwise it adds the path and its ancestors |
| FileSystem.OpenWriteIn | src/utils/async_utils.py:85 | `open(p, 'w')` raises `IsADirectoryError` on a directory, and succeeds exactly when the parent is a directory. It then truncates the file |
| FileSystem.MakeDirsKeepsTree | src/app/downloader.py:41 | After `mkdir`, the disk is still a tree and the path is a directory |
| FileSystem.MakeDirsGrows | src/app/downloader.py:41 | `mkdir` only adds the path and its ancestors |
| FileSystem.OpenWriteKeepsTree | src/utils/async_utils.py:85-86 | Writing a file keeps the disk a tree |
| FileSystem.OpenWriteError | src/utils/async_utils.py:85 | On a tree, `open` on a missing path fails with `NotADirectoryError` exactly when an ancestor is a file, and with `FileNotFoundError` otherwise |
| FileSystem.Disk.MakeDirs | src/app/downloader.py:41 | The new directory set, or the error raised with the disk unchanged. Files are untouched and the tree invariant is kept |
| FileSystem.Disk.WriteText | src/utils/async_utils.py:85-86 | The file holds the text, or the error is raised with the disk unchanged. Directories are untouched |
| AsyncUtils.FetchData | src/utils/async_utils.py:17-33 | A status of 400 or more is an HTTP error. Otherwise a non-JSON content type is a `ClientError`, a blank body is `None`, and any other body is loaded after stripping. Each outcome is stated in both directions |
| AsyncUtils.FirstCol | src/utils/async_utils.py:42 | `first_col` defaults to `''` |
| AsyncUtils.WriteFiles | src/utils/async_utils.py:36-87 | Leaves the file, raises the extractor's exception, raises the `open` error, or overwrites the file with the CSV text of the rows |
| AsyncUtils.HttpErrorLeavesFile | src/utils/async_utils.py:29-30 | A status of 400 or more returns `None` without touching the file |
| AsyncUtils.FetchFailureLeavesFile | src/utils/async_utils.py:62-77 | Client errors and other exceptions while fetching return `None` |
| AsyncUtils.FalsyBodyLeavesFile | src/utils/async_utils.py:80-81 | A falsy decoded body is not written |
| AsyncUtils.BlankBodyLeavesFile | src/utils/async_utils.py:32 | A blank JSON body decodes to `None` and is not written |
| AsyncUtils.WrittenIff | src/utils/async_utils.py:79-86 | The file is written exactly when the body decodes to a truthy value that the extractor accepts |
| AsyncUtils.ExtractorErrorRaises | src/utils/async_utils.py:83 | An extractor exception propagates before the file is opened |
| AsyncUtils.WrittenContents | src/utils/async_utils.py:83-86 | The written text reads back as the rows' texts. Every row has the extractor's width and starts with the first column. No rows give an empty file |
| AsyncUtils.DefaultFirstColumn | src/utils/async_utils.py:42 | Without `first_col`, every row starts with an empty cell |
| AsyncUtils.FetchDumped | src/utils/async_utils.py:32 | A successful response carrying `json.dumps(v)` is fetched as `v` |
| AsyncUtils.DumpedListingIsWritten | src/utils/async_utils.py:60-86 | A dumped, truthy body that the extractor accepts is written as the extracted tuples |
| Downloader.ReportPath | src/app/downloader.py:34 | The report path starts with the data directory and has four more components: three for the date and one for the file name. `TaskFields` states the full path |
| Downloader.ScheduleDay | src/app/downloader.py:33-51 | One loop iteration equals one `PlanStep`: skip, or create the parent if it is missing, then append its report task or stop on the `mkdir` error |
| Downloader.BuildTasks | src/app/downloader.py:28-62 | The directories equal the fold over the generated days. The result lists one report task per day the fold schedules, in order, then the listing task. A range error or the first `mkdir` error is raised instead. Files are untouched. The result equals `MainTasks` on the initial disk |
| Downloader.PlanFailureSticks | src/app/downloader.py:40-41 | After a `mkdir` error, no later day changes anything |
| Downloader.PlanStepGrows | src/app/downloader.py:40-41 | One more day never removes a directory |
| Downloader.StepDirs | src/app/downloader.py:36-41 | One iteration only adds directories. It adds some only when it appends its day, and then only that report's parent and its ancestors |
| Downloader.PlanDirs | src/app/downloader.py:36-41 | The loop only adds directories, each shorter than a report path. Every directory it adds is the parent directory of a scheduled day's report, or an ancestor of it, so a skipped day creates nothing |
| Downloader.PlanFailureNotADirectory | src/app/downloader.py:40-41 | `mkdir` runs only when the parent is missing, so it never raises `FileExistsError`. The only error that stops the loop is `NotADirectoryError` |
| Downloader.SkipOnInitialDisk | src/app/downloader.py:36 | The skip test gives the same answer on the disk before the loop |
| Downloader.PlanStepDays | src/app/downloader.py:32-51 | Without a `mkdir` error, one more day adds that day to the scheduled days exactly when it is not skipped |
| Downloader.PlanScheduled | src/app/downloader.py:32-51 | The scheduled days are the days not skipped, in range order |
| Downloader.ScheduledIff | src/app/downloader.py:35-38 | A day is scheduled exactly when it is in the range and is not skipped |
| Downloader.ScheduledDescending | src/app/downloader.py:31-32 | Scheduled days stay newest first |
| Downloader.ReportPathsDistinct | src/app/downloader.py:34 | Different days give different report paths, and no report path is the listing path |
| Downloader.MainTaskList | src/app/downloader.py:28-62 | One report task per scheduled day, newest first, and the listing task last |
| Downloader.EmptyRangeTasks | src/app/downloader.py:31-62 | An empty range gives the listing task alone |
| Downloader.ReportTaskAmong | src/app/downloader.py:44-51 | A day's report task is among the report tasks exactly when the day is among their days |
| Downloader.ReportTaskIn | src/app/downloader.py:44-62 | A day's report task is among the gathered tasks exactly when the day is scheduled. It is never the listing task |
| Downloader.TaskPathsUnique | src/app/downloader.py:34-54 | For any newest-first list of days, no two of the gathered tasks write the same file |
| Downloader.TaskHeaders | src/app/downloader.py:15-61 | For any list of days, every gathered task carries the account header, and only the report tasks carry a JSON body |
| Downloader.DayScheduledIff | src/app/downloader.py:36-51 | A generated day gets a task exactly when its report is missing or no older than the interval |
| Downloader.MainPathsUnique | src/app/downloader.py:34 | No two gathered tasks write the same file |
| Downloader.MainHeaders | src/app/downloader.py:15 | Every task carries `Authorization: orgId=<account>`. Only the report tasks carry a JSON body |
| Downloader.TaskFields | src/app/downloader.py:44-61 | Report tasks POST their day's body to the reports URL and label rows `%Y%m%d`. The listing task uses GET and labels rows with today |
| Downloader.ParentsExist | src/app/downloader.py:40-41 | After the loop, every scheduled report's directory exists |
| Downloader.ListingDirMissing | src/utils/async_utils.py:85 | Opening the listing file under a missing data directory raises `FileNotFoundError` |
| Downloader.EmptyRangeListingFails | src/app/downloader.py:53-62 | With an empty range and a missing data directory, the listing task is the only task, and its `open` raises `FileNotFoundError` |
| Downloader.ConfiguredFirstDateStopsMain | src/app/downloader.py:31-32 | With the configured first date, `main` raises before any directory or request |

## Left out

- The HTTP session, TLS context, certificates and connector are left out. So is `asyncio.gather`: tasks are modelled one at a time, and the outcome of a request is the parameter `Exchange`.
- Logging and `print` are left out. They have no effect on files or results.
- Clock reads are left out. `generate_date_range` and `main` each call `utcnow()`, and the model uses one value, `today`, for all of them.
- AsyncUtils.FetchData: the body is decoded text. Charset detection, `UnicodeDecodeError` and `json.loads` of bytes are not modelled.
- Floats are held as their decoded literal. A cell is written as that literal, not as Python's `repr` of the float. Truthiness of floats that underflow to zero is not modelled.
- Csv.CellText: a list or dict cell is written as its `json.dumps` text, not as Python's `repr`.
- JsonLoad.Load: a lone surrogate escape is rejected, while Python accepts it.
- JsonRoundTrip.LoadDump: the round trip is proved only for float-free values.
- DateFormat.SlashParts: years below 1000 are padded to four digits. The platform `strftime` may not pad `%Y`.
- DateFormat.FormatIso: years below 1000 are padded to four digits, as in `SlashParts`. This padding is part of what `ParseFormatIso` and `ReportTimes` state.
- DateFormat.FormatCompact: years below 1000 are padded to four digits, as in `SlashParts`. This padding is part of what `TaskFields` states.
- DateFormat.Strptime: non-ASCII digits, which Python's `\d` also matches, are not modelled.
- AsyncUtils.WriteFiles: the file is opened with `open(file, 'w')`, in text mode and without `newline=''`. The model assumes POSIX newline handling, so each `\r\n` record terminator reaches the file unchanged. On Windows, text mode would turn it into `\r\r\n`.
- Paths are lists of components. There is no normalisation, no symbolic links and no permissions.
- `modify_report` is evaluated before the skip test in the source. It is pure, so the model builds it only for tasks that are appended.
- `config.py` and `download_data` are not modelled. The configuration is the parameter `Config`.
