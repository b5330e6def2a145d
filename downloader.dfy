/**
  The part of `downloader.main` that builds one report task for every
  generated day that is not skipped, its parent directory created when
  missing, then one campaign-listing task. The clock is the parameter
  `today`, read once; the configuration values are the parameter `Config`.
*/
module Downloader {
  import opened Wrappers
  import opened Calendar
  import opened DateFormat
  import opened DateRange
  import opened Json
  import opened Extractors
  import opened ApiDefinitions
  import opened FileSystem
  import opened AsyncUtils

  /** What `config` provides: account id, data directory, first date and the re-download interval in days. */
  datatype Config = Config(accountId: string, dataDir: Path, firstDate: string, updateReportInterval: int)

  const ReportsUrl: string := "https://api.searchads.apple.com/api/v3/reports/campaigns"
  const CampaignsUrl: string := "https://api.searchads.apple.com/api/v3/campaigns"
  const ReportFileName: string := "applesearch_campaign_report.csv"
  const CampaignsFileName: string := "applesearch_campaigns.csv"

  /** `H`: the one header every request carries. */
  function Headers(cfg: Config): seq<(string, string)> {
    [("Authorization", "orgId=" + cfg.accountId)]
  }

  /** `data_dir / day.strftime('%Y/%m/%d') / 'applesearch_campaign_report.csv'`. */
  function ReportPath(cfg: Config, day: int): (p: Path)
    requires IsDay(day)
    ensures |p| == |cfg.dataDir| + 4 && p[..|cfg.dataDir|] == cfg.dataDir
  {
    cfg.dataDir + SlashParts(day) + [ReportFileName]
  }

  function ReportTask(cfg: Config, day: int): WriteTask
    requires IsDay(day)
  {
    WriteTask(ReportPath(cfg, day), Request(ReportsUrl, Post, Headers(cfg), Some(ModifyReport(day, day))),
      AppleData, Some(FormatCompact(day)))
  }

  /** `data_dir / 'applesearch_campaigns.csv'`. */
  function MetadataPath(cfg: Config): (p: Path)
    ensures |p| == |cfg.dataDir| + 1
  {
    cfg.dataDir + [CampaignsFileName]
  }

  function MetadataTask(cfg: Config, today: int): WriteTask
    requires IsDay(today)
  {
    WriteTask(MetadataPath(cfg), Request(CampaignsUrl, Get, Headers(cfg), None),
      AppleCampaignData, Some(FormatCompact(today)))
  }

  /** The freshness rule: an existing report older than the interval is not fetched again. */
  predicate Skipped(cfg: Config, files: map<Path, string>, dirs: set<Path>, today: int, day: int)
    requires IsDay(day)
  {
    ExistsIn(files, dirs, ReportPath(cfg, day)) && today - day > cfg.updateReportInterval
  }

  /** Why `main` raises before any request is sent. */
  datatype MainError =
    | RangeFailed(cause: RangeError)   // `generate_date_range` raised on the first iteration
    | MkdirFailed(oserror: OsError)    // `path.parent.mkdir(parents=True)` raised

  /** The loop's state: the days whose report task has been appended, the directories, and the error that stopped it. */
  datatype Plan = Plan(days: seq<int>, dirs: set<Path>, failure: Option<OsError>)

  predicate AllDays(days: seq<int>) {
    forall i :: 0 <= i < |days| ==> IsDay(days[i])
  }

  /** One iteration of the `for day in days` loop. */
  function PlanStep(cfg: Config, today: int, files: map<Path, string>, p: Plan, day: int): (r: Plan)
    requires IsDay(day)
    ensures r.days == p.days || r.days == p.days + [day]
  {
    if p.failure.Some? || Skipped(cfg, files, p.dirs, today, day) then p
    else
      var parent := Parent(ReportPath(cfg, day));
      if ExistsIn(files, p.dirs, parent) then p.(days := p.days + [day])
      else match MakeDirsIn(files, p.dirs, parent)
        case Err(e) => p.(failure := Some(e))
        case Ok(d) => Plan(p.days + [day], d, None)
  }

  /** The loop over `days`, from the initial directories. */
  function PlanDays(cfg: Config, today: int, files: map<Path, string>, dirs: set<Path>, days: seq<int>): (r: Plan)
    requires AllDays(days)
    ensures AllDays(r.days)
  {
    if days == [] then Plan([], dirs, None)
    else
      var p := PlanDays(cfg, today, files, dirs, days[..|days| - 1]);
      var last := days[|days| - 1];
      var r := PlanStep(cfg, today, files, p, last);
      AllDaysSnoc(p.days, last);
      r
  }

  lemma AllDaysSnoc(days: seq<int>, day: int)
    requires AllDays(days) && IsDay(day)
    ensures AllDays(days + [day])
  {
    var s := days + [day];
    forall i | 0 <= i < |s|
      ensures IsDay(s[i])
    {
      if i < |days| {
        assert s[i] == days[i];
      }
    }
  }

  /** The report task of each day, in order. */
  function ReportTasks(cfg: Config, days: seq<int>): (ts: seq<WriteTask>)
    requires AllDays(days)
    ensures |ts| == |days| && forall i :: 0 <= i < |days| ==> ts[i] == ReportTask(cfg, days[i])
  {
    seq(|days|, i requires 0 <= i < |days| => ReportTask(cfg, days[i]))
  }

  /**
    The body of the loop for one day: skip it, or create its directory if
    missing and append its task. `done` are the days whose tasks are in `tasks`.
  */
  method ScheduleDay(cfg: Config, today: int, disk: Disk, tasks: seq<WriteTask>, ghost done: seq<int>, day: int)
    returns (tasks': seq<WriteTask>, failure: Option<OsError>)
    requires IsDay(day) && disk.Valid() && AllDays(done) && tasks == ReportTasks(cfg, done)
    modifies disk
    ensures disk.Valid() && disk.files == old(disk.files)
    ensures var p := PlanStep(cfg, today, old(disk.files), Plan(done, old(disk.dirs), None), day);
      && AllDays(p.days) && p.dirs == disk.dirs && p.failure == failure && tasks' == ReportTasks(cfg, p.days)
  {
    var path := ReportPath(cfg, day);
    if disk.Exists(path) && today - day > cfg.updateReportInterval {
      return tasks, None;
    }
    var parent := Parent(path);
    if !disk.Exists(parent) {
      var made := disk.MakeDirs(parent);
      if made.Err? {
        return tasks, Some(made.error);
      }
    }
    AppendDay(cfg, done, tasks, day);
    tasks' := tasks + [ReportTask(cfg, day)];
    failure := None;
  }

  lemma AppendDay(cfg: Config, done: seq<int>, tasks: seq<WriteTask>, day: int)
    requires AllDays(done) && IsDay(day) && tasks == ReportTasks(cfg, done)
    ensures AllDays(done + [day]) && tasks + [ReportTask(cfg, day)] == ReportTasks(cfg, done + [day])
  {
    ReportTasksAppend(cfg, done, [day]);
  }

  /**
    The list of tasks `main` hands to `asyncio.gather`, built with the disk as
    state; `r` is the list, or the exception `main` raises before gathering.
  */
  method BuildTasks(cfg: Config, today: int, disk: Disk) returns (r: Result<seq<WriteTask>, MainError>)
    requires IsDay(today) && disk.Valid()
    modifies disk
    ensures disk.Valid() && disk.files == old(disk.files)
    ensures GenerateDateRange(cfg.firstDate, today).Err? ==>
      r == Err(RangeFailed(GenerateDateRange(cfg.firstDate, today).error)) && disk.dirs == old(disk.dirs)
    ensures GenerateDateRange(cfg.firstDate, today).Ok? ==>
      var p := PlanDays(cfg, today, old(disk.files), old(disk.dirs), GenerateDateRange(cfg.firstDate, today).value);
      && disk.dirs == p.dirs
      && (p.failure.Some? ==> r == Err(MkdirFailed(p.failure.value)))
      && (p.failure.None? ==> r == Ok(ReportTasks(cfg, p.days) + [MetadataTask(cfg, today)]))
    ensures r == MainTasks(cfg, today, old(disk.files), old(disk.dirs))
  {
    var range := GenerateDateRange(cfg.firstDate, today);
    if range.Err? {
      return Err(RangeFailed(range.error));
    }
    var days := range.value;
    ghost var files0, dirs0 := disk.files, disk.dirs;
    var tasks: seq<WriteTask> := [];
    ghost var done: seq<int> := [];
    var i := 0;
    while i < |days|
      invariant 0 <= i <= |days|
      invariant disk.Valid() && disk.files == files0
      invariant PlanDays(cfg, today, files0, dirs0, days[..i]) == Plan(done, disk.dirs, None)
      invariant AllDays(done) && tasks == ReportTasks(cfg, done)
    {
      PlanPrefixStep(cfg, today, files0, dirs0, days, i);
      var failure;
      tasks, failure := ScheduleDay(cfg, today, disk, tasks, done, days[i]);
      done := PlanDays(cfg, today, files0, dirs0, days[..i + 1]).days;
      if failure.Some? {
        PlanFailureSticks(cfg, today, files0, dirs0, days, i + 1);
        return Err(MkdirFailed(failure.value));
      }
      i := i + 1;
    }
    assert days[..i] == days;
    r := Ok(tasks + [MetadataTask(cfg, today)]);
  }

  // ---------------------------------------------------------------------
  // The loop, stated on the initial disk

  lemma PlanPrefixStep(cfg: Config, today: int, files: map<Path, string>, dirs: set<Path>, days: seq<int>, i: nat)
    requires AllDays(days) && i < |days|
    ensures AllDays(days[..i]) && AllDays(days[..i + 1])
    ensures PlanDays(cfg, today, files, dirs, days[..i + 1])
      == PlanStep(cfg, today, files, PlanDays(cfg, today, files, dirs, days[..i]), days[i])
  {
    assert days[..i + 1][..i] == days[..i];
  }

  /** Once `mkdir` has raised, the rest of the loop never runs. */
  lemma {:induction false} PlanFailureSticks(cfg: Config, today: int, files: map<Path, string>, dirs: set<Path>, days: seq<int>, n: nat)
    requires AllDays(days) && n <= |days|
    requires PlanDays(cfg, today, files, dirs, days[..n]).failure.Some?
    ensures PlanDays(cfg, today, files, dirs, days) == PlanDays(cfg, today, files, dirs, days[..n])
    decreases |days| - n
  {
    if n < |days| {
      assert days[..n + 1][..n] == days[..n];
      PlanFailureSticks(cfg, today, files, dirs, days, n + 1);
    } else {
      assert days[..n] == days;
    }
  }

  /** The days that are not skipped, judged on the disk as it was before the loop, in order. */
  function Scheduled(cfg: Config, today: int, files: map<Path, string>, dirs: set<Path>, days: seq<int>): (s: seq<int>)
    requires AllDays(days)
    ensures |s| <= |days| && AllDays(s)
  {
    if days == [] then []
    else
      var last := days[|days| - 1];
      Scheduled(cfg, today, files, dirs, days[..|days| - 1])
        + (if Skipped(cfg, files, dirs, today, last) then [] else [last])
  }

  /** `q` is the parent directory of the report of one of `days`, or an ancestor of that directory. */
  predicate AncestorOfReport(cfg: Config, days: seq<int>, q: Path) {
    exists i :: 0 <= i < |days| && IsDay(days[i]) && q in Prefixes(Parent(ReportPath(cfg, days[i])))
  }

  lemma AncestorOfEarlier(cfg: Config, days: seq<int>, day: int, q: Path)
    requires AncestorOfReport(cfg, days, q)
    ensures AncestorOfReport(cfg, days + [day], q)
  {
    var i :| 0 <= i < |days| && IsDay(days[i]) && q in Prefixes(Parent(ReportPath(cfg, days[i])));
    assert (days + [day])[i] == days[i];
  }

  lemma AncestorOfLast(cfg: Config, days: seq<int>, day: int, q: Path)
    requires IsDay(day) && q in Prefixes(Parent(ReportPath(cfg, day)))
    ensures AncestorOfReport(cfg, days + [day], q)
  {
    assert (days + [day])[|days|] == day;
  }

  /**
    One iteration only adds directories, and only ones shorter than any report path.
    It adds some only when it schedules its day, and then only that report's parent and its ancestors.
  */
  lemma StepDirs(cfg: Config, today: int, files: map<Path, string>, p: Plan, day: int)
    requires IsDay(day)
    ensures p.dirs <= PlanStep(cfg, today, files, p, day).dirs
    ensures forall q :: q in PlanStep(cfg, today, files, p, day).dirs - p.dirs ==> |q| <= |cfg.dataDir| + 3
    ensures PlanStep(cfg, today, files, p, day).dirs != p.dirs ==>
      && PlanStep(cfg, today, files, p, day).days == p.days + [day]
      && PlanStep(cfg, today, files, p, day).dirs - p.dirs <= Prefixes(Parent(ReportPath(cfg, day)))
  {
    if p.failure.None? && !Skipped(cfg, files, p.dirs, today, day) {
      var parent := Parent(ReportPath(cfg, day));
      if !ExistsIn(files, p.dirs, parent) && MakeDirsIn(files, p.dirs, parent).Ok? {
        MakeDirsGrows(files, p.dirs, parent);
      }
    }
  }

  /**
    The loop only adds directories, and only ones shorter than any report path.
    Each one it adds is the parent directory of a scheduled day's report, or an ancestor of it.
  */
  lemma {:induction false} PlanDirs(cfg: Config, today: int, files: map<Path, string>, dirs: set<Path>, days: seq<int>)
    requires AllDays(days)
    ensures dirs <= PlanDays(cfg, today, files, dirs, days).dirs
    ensures forall q :: q in PlanDays(cfg, today, files, dirs, days).dirs - dirs ==> |q| <= |cfg.dataDir| + 3
    ensures forall q :: q in PlanDays(cfg, today, files, dirs, days).dirs - dirs ==>
      AncestorOfReport(cfg, PlanDays(cfg, today, files, dirs, days).days, q)
    decreases |days|
  {
    if days != [] {
      var init := days[..|days| - 1];
      var last := days[|days| - 1];
      PlanDirs(cfg, today, files, dirs, init);
      var p := PlanDays(cfg, today, files, dirs, init);
      var r := PlanStep(cfg, today, files, p, last);
      StepDirs(cfg, today, files, p, last);
      AncestorsKept(cfg, dirs, p, r, last);
    }
  }

  /** The step of `PlanDirs`: directories an iteration adds belong to the day it appends. */
  lemma AncestorsKept(cfg: Config, dirs: set<Path>, p: Plan, r: Plan, day: int)
    requires IsDay(day)
    requires r.days == p.days || r.days == p.days + [day]
    requires forall q :: q in p.dirs - dirs ==> AncestorOfReport(cfg, p.days, q)
    requires r.dirs != p.dirs ==> r.days == p.days + [day] && r.dirs - p.dirs <= Prefixes(Parent(ReportPath(cfg, day)))
    ensures forall q :: q in r.dirs - dirs ==> AncestorOfReport(cfg, r.days, q)
  {
    forall q | q in r.dirs - dirs
      ensures AncestorOfReport(cfg, r.days, q)
    {
      if q !in p.dirs {
        AncestorOfLast(cfg, p.days, day, q);
      } else if r.days != p.days {
        AncestorOfEarlier(cfg, p.days, day, q);
      }
    }
  }

  /** `mkdir` runs only on a missing parent, so the one error that can stop the loop is `NotADirectoryError`. */
  lemma {:induction false} PlanFailureNotADirectory(cfg: Config, today: int, files: map<Path, string>, dirs: set<Path>, days: seq<int>)
    requires AllDays(days)
    ensures PlanDays(cfg, today, files, dirs, days).failure.Some? ==>
      PlanDays(cfg, today, files, dirs, days).failure.value == NotADirectory
    decreases |days|
  {
    if days != [] {
      var init := days[..|days| - 1];
      PlanFailureNotADirectory(cfg, today, files, dirs, init);
      StepFailure(cfg, today, files, PlanDays(cfg, today, files, dirs, init), days[|days| - 1]);
    }
  }

  /** The step of `PlanFailureNotADirectory`: an iteration that raises raises `NotADirectoryError`. */
  lemma StepFailure(cfg: Config, today: int, files: map<Path, string>, p: Plan, day: int)
    requires IsDay(day)
    requires p.failure.Some? ==> p.failure.value == NotADirectory
    ensures PlanStep(cfg, today, files, p, day).failure.Some? ==>
      PlanStep(cfg, today, files, p, day).failure.value == NotADirectory
  {
  }

  /** Directories the loop creates never make a report path exist: skipping depends on the initial disk only. */
  lemma SkipOnInitialDisk(cfg: Config, today: int, files: map<Path, string>, dirs: set<Path>, days: seq<int>, day: int)
    requires AllDays(days) && IsDay(day)
    ensures Skipped(cfg, files, PlanDays(cfg, today, files, dirs, days).dirs, today, day)
      == Skipped(cfg, files, dirs, today, day)
  {
    PlanDirs(cfg, today, files, dirs, days);
    var d := PlanDays(cfg, today, files, dirs, days).dirs;
    var path := ReportPath(cfg, day);
    assert path in d ==> path in dirs;
  }

  lemma PlanStepDays(cfg: Config, today: int, files: map<Path, string>, dirs: set<Path>, days: seq<int>)
    requires AllDays(days) && days != []
    requires PlanDays(cfg, today, files, dirs, days).failure.None?
    ensures PlanDays(cfg, today, files, dirs, days[..|days| - 1]).failure.None?
    ensures var last := days[|days| - 1];
      PlanDays(cfg, today, files, dirs, days).days
        == PlanDays(cfg, today, files, dirs, days[..|days| - 1]).days
          + (if Skipped(cfg, files, dirs, today, last) then [] else [last])
  {
    SkipOnInitialDisk(cfg, today, files, dirs, days[..|days| - 1], days[|days| - 1]);
  }

  lemma ReportTasksAppend(cfg: Config, a: seq<int>, b: seq<int>)
    requires AllDays(a) && AllDays(b)
    ensures AllDays(a + b) && ReportTasks(cfg, a + b) == ReportTasks(cfg, a) + ReportTasks(cfg, b)
  {
    var ab := a + b;
    assert forall i :: 0 <= i < |ab| ==> IsDay(ab[i]) by {
      forall i | 0 <= i < |ab|
        ensures IsDay(ab[i])
      {
        if i < |a| {
          assert ab[i] == a[i];
        } else {
          assert ab[i] == b[i - |a|];
        }
      }
    }
  }

  lemma ScheduledStep(cfg: Config, today: int, files: map<Path, string>, dirs: set<Path>, days: seq<int>)
    requires AllDays(days) && days != []
    ensures var last := days[|days| - 1];
      Scheduled(cfg, today, files, dirs, days)
        == Scheduled(cfg, today, files, dirs, days[..|days| - 1]) + (if Skipped(cfg, files, dirs, today, last) then [] else [last])
  {
  }

  /** The loop appends a task for exactly the scheduled days, in the order of the days. */
  lemma {:induction false} PlanScheduled(cfg: Config, today: int, files: map<Path, string>, dirs: set<Path>, days: seq<int>)
    requires AllDays(days) && PlanDays(cfg, today, files, dirs, days).failure.None?
    ensures PlanDays(cfg, today, files, dirs, days).days == Scheduled(cfg, today, files, dirs, days)
    decreases |days|
  {
    if days != [] {
      PlanStepDays(cfg, today, files, dirs, days);
      PlanScheduled(cfg, today, files, dirs, days[..|days| - 1]);
      ScheduledStep(cfg, today, files, dirs, days);
    }
  }

  /** A day is scheduled exactly when it is not skipped on the initial disk. */
  lemma {:induction false} ScheduledIff(cfg: Config, today: int, files: map<Path, string>, dirs: set<Path>, days: seq<int>, day: int)
    requires AllDays(days)
    ensures day in Scheduled(cfg, today, files, dirs, days) <==> day in days && !Skipped(cfg, files, dirs, today, day)
    decreases |days|
  {
    if days != [] {
      var init := days[..|days| - 1];
      ScheduledIff(cfg, today, files, dirs, init, day);
      InSnoc(days, day);
    }
  }

  lemma InSnoc<T>(xs: seq<T>, x: T)
    requires xs != []
    ensures x in xs <==> x in xs[..|xs| - 1] || x == xs[|xs| - 1]
  {
    assert xs == xs[..|xs| - 1] + [xs[|xs| - 1]];
  }

  predicate Descending(days: seq<int>) {
    forall i, j :: 0 <= i < j < |days| ==> days[i] > days[j]
  }

  lemma DescendingAppend(s: seq<int>, day: int)
    requires Descending(s) && forall x :: x in s ==> x > day
    ensures Descending(s + [day])
  {
    var t := s + [day];
    forall i, j | 0 <= i < j < |t|
      ensures t[i] > t[j]
    {
      assert t[i] == s[i];
      if j < |s| {
        assert t[j] == s[j];
      } else {
        assert s[i] in s && t[j] == day;
      }
    }
  }

  /** Scheduled days keep the order of the range: each is older than the one before. */
  lemma {:induction false} ScheduledDescending(cfg: Config, today: int, files: map<Path, string>, dirs: set<Path>, days: seq<int>)
    requires AllDays(days) && Descending(days)
    ensures Descending(Scheduled(cfg, today, files, dirs, days))
    decreases |days|
  {
    if days != [] {
      var init := days[..|days| - 1];
      var last := days[|days| - 1];
      assert Descending(init);
      ScheduledDescending(cfg, today, files, dirs, init);
      var s := Scheduled(cfg, today, files, dirs, init);
      if !Skipped(cfg, files, dirs, today, last) {
        forall x | x in s
          ensures x > last
        {
          ScheduledIff(cfg, today, files, dirs, init, x);
          EarlierIsLater(days, x);
        }
        DescendingAppend(s, last);
      }
    }
  }

  /** In a descending list, every day before the last one is later than it. */
  lemma EarlierIsLater(days: seq<int>, x: int)
    requires Descending(days) && days != [] && x in days[..|days| - 1]
    ensures x > days[|days| - 1]
  {
    var k :| 0 <= k < |days| - 1 && days[..|days| - 1][k] == x;
    assert days[k] == x;
  }

  /** Distinct days give distinct report paths, and no report path is the listing's path. */
  lemma ReportPathsDistinct(cfg: Config, a: int, b: int)
    requires IsDay(a) && IsDay(b)
    ensures ReportPath(cfg, a) == ReportPath(cfg, b) <==> a == b
    ensures ReportPath(cfg, a) != MetadataPath(cfg)
  {
    if ReportPath(cfg, a) == ReportPath(cfg, b) {
      var n := |cfg.dataDir|;
      assert SlashParts(a) == ReportPath(cfg, a)[n..n + 3];
      assert SlashParts(b) == ReportPath(cfg, b)[n..n + 3];
      SlashPartsInjective(a, b);
    }
  }

  // ---------------------------------------------------------------------
  // What `main` promises

  /** What `main` gathers when nothing raises. */
  function MainTasks(cfg: Config, today: int, files: map<Path, string>, dirs: set<Path>): Result<seq<WriteTask>, MainError>
    requires IsDay(today)
  {
    match GenerateDateRange(cfg.firstDate, today)
    case Err(e) => Err(RangeFailed(e))
    case Ok(days) =>
      var p := PlanDays(cfg, today, files, dirs, days);
      if p.failure.Some? then Err(MkdirFailed(p.failure.value))
      else Ok(ReportTasks(cfg, p.days) + [MetadataTask(cfg, today)])
  }

  /**
    One report task per day the range yields and the freshness rule keeps,
    newest first, then the listing task last.
  */
  lemma MainTaskList(cfg: Config, today: int, files: map<Path, string>, dirs: set<Path>)
    requires IsDay(today) && MainTasks(cfg, today, files, dirs).Ok?
    ensures var days := GenerateDateRange(cfg.firstDate, today).value;
      var s := Scheduled(cfg, today, files, dirs, days);
      && MainTasks(cfg, today, files, dirs).value == ReportTasks(cfg, s) + [MetadataTask(cfg, today)]
      && Descending(s)
  {
    var days := GenerateDateRange(cfg.firstDate, today).value;
    PlanScheduled(cfg, today, files, dirs, days);
    forall i, j | 0 <= i < j < |days|
      ensures days[i] > days[j]
    {
      DateRangeStrictlyDescending(cfg.firstDate, today, i, j);
    }
    ScheduledDescending(cfg, today, files, dirs, days);
  }

  /** Distinct days give distinct report tasks. */
  lemma ReportTaskInjective(cfg: Config, a: int, b: int)
    requires IsDay(a) && IsDay(b) && ReportTask(cfg, a) == ReportTask(cfg, b)
    ensures a == b
  {
    ReportPathsDistinct(cfg, a, b);
  }

  /** A day's report task is among the report tasks exactly when the day is among the days. */
  lemma ReportTaskAmong(cfg: Config, s: seq<int>, day: int)
    requires IsDay(day) && AllDays(s)
    ensures ReportTask(cfg, day) in ReportTasks(cfg, s) <==> day in s
  {
    var rs := ReportTasks(cfg, s);
    if ReportTask(cfg, day) in rs {
      var k :| 0 <= k < |rs| && rs[k] == ReportTask(cfg, day);
      ReportTaskInjective(cfg, s[k], day);
    }
    if day in s {
      var k :| 0 <= k < |s| && s[k] == day;
      assert rs[k] == ReportTask(cfg, day);
    }
  }

  lemma ReportTaskNotListing(cfg: Config, today: int, day: int)
    requires IsDay(today) && IsDay(day)
    ensures ReportTask(cfg, day) != MetadataTask(cfg, today)
  {
    assert ReportTask(cfg, day).dataFunc != MetadataTask(cfg, today).dataFunc;
  }

  /** A day's report task is in the list exactly when the day is, and it is never the listing task. */
  lemma ReportTaskIn(cfg: Config, today: int, s: seq<int>, day: int)
    requires IsDay(today) && IsDay(day) && AllDays(s)
    ensures ReportTask(cfg, day) in ReportTasks(cfg, s) + [MetadataTask(cfg, today)] <==> day in s
  {
    ReportTaskAmong(cfg, s, day);
    ReportTaskNotListing(cfg, today, day);
  }

  /** A generated day gets a task exactly when its report is missing or no older than the interval. */
  lemma DayScheduledIff(cfg: Config, today: int, files: map<Path, string>, dirs: set<Path>, day: int)
    requires IsDay(today) && MainTasks(cfg, today, files, dirs).Ok? && IsDay(day)
    requires day in GenerateDateRange(cfg.firstDate, today).value
    ensures ReportTask(cfg, day) in MainTasks(cfg, today, files, dirs).value
      <==> !ExistsIn(files, dirs, ReportPath(cfg, day)) || today - day <= cfg.updateReportInterval
  {
    var days := GenerateDateRange(cfg.firstDate, today).value;
    var s := Scheduled(cfg, today, files, dirs, days);
    MainTaskList(cfg, today, files, dirs);
    ScheduledIff(cfg, today, files, dirs, days, day);
    ReportTaskIn(cfg, today, s, day);
  }

  /** No two tasks of a list built from distinct days write the same file. */
  lemma TaskPathsUnique(cfg: Config, today: int, s: seq<int>)
    requires IsDay(today) && AllDays(s) && Descending(s)
    ensures var tasks := ReportTasks(cfg, s) + [MetadataTask(cfg, today)];
      forall i, j :: 0 <= i < j < |tasks| ==> tasks[i].file != tasks[j].file
  {
    var tasks := ReportTasks(cfg, s) + [MetadataTask(cfg, today)];
    forall i, j | 0 <= i < j < |tasks|
      ensures tasks[i].file != tasks[j].file
    {
      assert tasks[i] == ReportTask(cfg, s[i]);
      if j == |s| {
        ReportPathsDistinct(cfg, s[i], s[i]);
      } else {
        assert tasks[j] == ReportTask(cfg, s[j]);
        ReportPathsDistinct(cfg, s[i], s[j]);
      }
    }
  }

  /** No two gathered tasks write the same file. */
  lemma MainPathsUnique(cfg: Config, today: int, files: map<Path, string>, dirs: set<Path>)
    requires IsDay(today) && MainTasks(cfg, today, files, dirs).Ok?
    ensures var tasks := MainTasks(cfg, today, files, dirs).value;
      forall i, j :: 0 <= i < j < |tasks| ==> tasks[i].file != tasks[j].file
  {
    MainTaskList(cfg, today, files, dirs);
    TaskPathsUnique(cfg, today, Scheduled(cfg, today, files, dirs, GenerateDateRange(cfg.firstDate, today).value));
  }

  /** Every task of such a list carries the account header, and only the report tasks carry a body. */
  lemma TaskHeaders(cfg: Config, today: int, s: seq<int>)
    requires IsDay(today) && AllDays(s)
    ensures var tasks := ReportTasks(cfg, s) + [MetadataTask(cfg, today)];
      forall i :: 0 <= i < |tasks| ==>
        && tasks[i].request.headers == [("Authorization", "orgId=" + cfg.accountId)]
        && (tasks[i].request.json.Some? <==> i < |tasks| - 1)
  {
    var tasks := ReportTasks(cfg, s) + [MetadataTask(cfg, today)];
    forall i | 0 <= i < |tasks|
      ensures tasks[i].request.headers == [("Authorization", "orgId=" + cfg.accountId)]
      ensures tasks[i].request.json.Some? <==> i < |tasks| - 1
    {
      if i < |s| {
        assert tasks[i] == ReportTask(cfg, s[i]);
      }
    }
  }

  /** Every task carries `Authorization: orgId=<account id>`, and only the report tasks carry a body. */
  lemma MainHeaders(cfg: Config, today: int, files: map<Path, string>, dirs: set<Path>)
    requires IsDay(today) && MainTasks(cfg, today, files, dirs).Ok?
    ensures var tasks := MainTasks(cfg, today, files, dirs).value;
      forall i :: 0 <= i < |tasks| ==>
        && tasks[i].request.headers == [("Authorization", "orgId=" + cfg.accountId)]
        && (tasks[i].request.json.Some? <==> i < |tasks| - 1)
  {
    MainTaskList(cfg, today, files, dirs);
    TaskHeaders(cfg, today, Scheduled(cfg, today, files, dirs, GenerateDateRange(cfg.firstDate, today).value));
  }

  /**
    A report task posts the one-day report body for its day to the reports
    endpoint, files its rows under `YYYY/MM/DD`, and labels them `YYYYMMDD`;
    the listing task gets the campaigns and labels its rows with today.
  */
  lemma TaskFields(cfg: Config, today: int, day: int)
    requires IsDay(today) && IsDay(day)
    ensures var t := ReportTask(cfg, day);
      && t.request.verb == Post && t.request.url == ReportsUrl && t.dataFunc == AppleData
      && t.file == cfg.dataDir + SlashParts(day) + ["applesearch_campaign_report.csv"]
      && FirstCol(t) == FormatCompact(day)
      && Lookup(t.request.json.value, "startTime") == Ok(Str(FormatIso(day)))
      && Lookup(t.request.json.value, "endTime") == Ok(Str(FormatIso(day)))
    ensures var m := MetadataTask(cfg, today);
      && m.request.verb == Get && m.request.url == CampaignsUrl && m.dataFunc == AppleCampaignData
      && m.file == cfg.dataDir + ["applesearch_campaigns.csv"] && FirstCol(m) == FormatCompact(today)
  {
    ReportTimes(day, day);
  }

  lemma PlanStepGrows(cfg: Config, today: int, files: map<Path, string>, dirs: set<Path>, days: seq<int>)
    requires AllDays(days) && days != []
    ensures PlanDays(cfg, today, files, dirs, days[..|days| - 1]).dirs <= PlanDays(cfg, today, files, dirs, days).dirs
  {
    StepDirs(cfg, today, files, PlanDays(cfg, today, files, dirs, days[..|days| - 1]), days[|days| - 1]);
  }

  lemma PlanStepParent(cfg: Config, today: int, files: map<Path, string>, dirs: set<Path>, days: seq<int>)
    requires AllDays(days) && days != [] && PlanDays(cfg, today, files, dirs, days).failure.None?
    requires !Skipped(cfg, files, PlanDays(cfg, today, files, dirs, days[..|days| - 1]).dirs, today, days[|days| - 1])
    ensures ExistsIn(files, PlanDays(cfg, today, files, dirs, days).dirs, Parent(ReportPath(cfg, days[|days| - 1])))
  {
    var p := PlanDays(cfg, today, files, dirs, days[..|days| - 1]);
    var parent := Parent(ReportPath(cfg, days[|days| - 1]));
    if !ExistsIn(files, p.dirs, parent) {
      assert parent == parent[..|parent|];
    }
  }

  /** After the loop, the directory of every scheduled report exists. */
  lemma {:induction false} ParentsExist(cfg: Config, today: int, files: map<Path, string>, dirs: set<Path>, days: seq<int>, day: int)
    requires AllDays(days) && PlanDays(cfg, today, files, dirs, days).failure.None?
    requires day in Scheduled(cfg, today, files, dirs, days)
    ensures IsDay(day) && ExistsIn(files, PlanDays(cfg, today, files, dirs, days).dirs, Parent(ReportPath(cfg, day)))
    decreases |days|
  {
    var init := days[..|days| - 1];
    var last := days[|days| - 1];
    PlanStepDays(cfg, today, files, dirs, days);
    ScheduledStep(cfg, today, files, dirs, days);
    if day in Scheduled(cfg, today, files, dirs, init) {
      ParentsExist(cfg, today, files, dirs, init, day);
      PlanStepGrows(cfg, today, files, dirs, days);
    } else {
      SkipOnInitialDisk(cfg, today, files, dirs, init, last);
      PlanStepParent(cfg, today, files, dirs, days);
    }
  }

  /** Opening a file directly under a missing directory raises `FileNotFoundError`. */
  lemma ListingDirMissing(cfg: Config, files: map<Path, string>, dirs: set<Path>)
    requires Tree(files, dirs)
    requires cfg.dataDir != [] && !ExistsIn(files, dirs, cfg.dataDir) && !UnderFile(files, cfg.dataDir)
    ensures OpenWriteIn(files, dirs, MetadataPath(cfg)) == Err(FileNotFound)
  {
    var p := MetadataPath(cfg);
    assert Parent(p) == cfg.dataDir == p[..|cfg.dataDir|];
    assert p !in dirs;
    assert !IsDirIn(dirs, Parent(p));
    OpenWriteError(files, dirs, p);
  }

  /**
    Only a report task creates directories: when the range is empty and the
    data directory is missing, the listing task is the only task and opening
    its file raises `FileNotFoundError`.
  */
  lemma EmptyRangeListingFails(cfg: Config, today: int, files: map<Path, string>, dirs: set<Path>)
    requires IsDay(today) && GenerateDateRange(cfg.firstDate, today) == Ok([])
    requires Tree(files, dirs)
    requires cfg.dataDir != [] && !ExistsIn(files, dirs, cfg.dataDir) && !UnderFile(files, cfg.dataDir)
    ensures MainTasks(cfg, today, files, dirs) == Ok([MetadataTask(cfg, today)])
    ensures OpenWriteIn(files, dirs, MetadataTask(cfg, today).file) == Err(FileNotFound)
  {
    EmptyRangeTasks(cfg, today, files, dirs);
    ListingDirMissing(cfg, files, dirs);
  }

  lemma EmptyRangeTasks(cfg: Config, today: int, files: map<Path, string>, dirs: set<Path>)
    requires IsDay(today) && GenerateDateRange(cfg.firstDate, today) == Ok([])
    ensures MainTasks(cfg, today, files, dirs) == Ok([MetadataTask(cfg, today)])
  {
    var p := PlanDays(cfg, today, files, dirs, []);
    assert p == Plan([], dirs, None);
    assert ReportTasks(cfg, p.days) + [MetadataTask(cfg, today)] == [MetadataTask(cfg, today)];
  }

  /** With the configured first date `'1993-19-06'`, `main` raises before creating anything or sending any request. */
  lemma ConfiguredFirstDateStopsMain(cfg: Config, today: int, files: map<Path, string>, dirs: set<Path>)
    requires IsDay(today) && cfg.firstDate == "1993-19-06"
    ensures MainTasks(cfg, today, files, dirs) == Err(RangeFailed(InvalidDateFormat(DoesNotMatchFormat)))
  {
    ConfiguredFirstDateRaises(today);
  }
}
