/**
 * The `TranscodeJob` record of app.py and the pure parts of the work done
 * on it: the fields a new job starts with, how `process_job` derives the
 * output path and the encoder settings from the settings table, what the
 * job looks like once the encoder has finished, and which walked files
 * `scan_folder` turns into new jobs.
 */
module Jobs {
  import opened Results
  import opened Numerals
  import opened Paths
  import opened Settings
  import opened Transcoder

  /** The four values of the `status` column. */
  datatype Status = Pending | Processing | Completed | Failed

  /**
   * One row of the `TranscodeJob` table. Timestamps are ticks of a clock
   * that only moves forward; `None` is a NULL column.
   */
  datatype Job = Job(
    sourceFile: string,
    outputFile: Option<string>,
    status: Status,
    progress: real,
    errorMessage: Option<string>,
    createdAt: Option<nat>,
    startedAt: Option<nat>,
    completedAt: Option<nat>)

  /** `TranscodeJob(source_file=..., status='pending')` once committed at time `now`. */
  function NewJob(sourceFile: string, now: nat): (j: Job)
    ensures j.sourceFile == sourceFile && j.status == Pending && j.progress == 0.0
    ensures j.createdAt == Some(now)
    ensures j.outputFile.None? && j.errorMessage.None? && j.startedAt.None? && j.completedAt.None?
  {
    Job(sourceFile, None, Pending, 0.0, None, Some(now), None, None)
  }

  /**
   * What every job record satisfies when the clock reads `clock`: progress
   * is a percentage, every timestamp lies in the past and none precedes
   * the creation time, and each status has the fields it is reached with.
   */
  ghost predicate WellFormed(j: Job, clock: nat) {
    && 0.0 <= j.progress <= 100.0
    && j.createdAt.Some? && j.createdAt.value < clock
    && (j.startedAt.Some? ==> j.createdAt.value <= j.startedAt.value < clock)
    && (j.completedAt.Some? ==> j.createdAt.value <= j.completedAt.value < clock)
    && (j.status == Pending ==>
          j.startedAt.None? && j.completedAt.None? && j.outputFile.None? && j.errorMessage.None? && j.progress == 0.0)
    && (j.status == Processing ==> j.startedAt.Some?)
    && (j.status == Completed ==>
          && j.startedAt.Some? && j.completedAt.Some? && j.outputFile.Some? && j.progress == 100.0
          && j.startedAt.value < j.completedAt.value)
    && (j.status == Failed ==> j.startedAt.Some? && j.errorMessage.Some?)
  }

  ghost predicate AllWellFormed(jobs: map<int, Job>, clock: nat) {
    forall id :: id in jobs ==> WellFormed(jobs[id], clock)
  }

  /** Records stay well formed while the clock moves on. */
  lemma WellFormedLater(j: Job, clock: nat, later: nat)
    requires WellFormed(j, clock) && clock <= later
    ensures WellFormed(j, later)
  {
  }

  /** Storing a record well formed at tick `later` keeps a table well formed at an earlier tick well formed at `later`. */
  lemma UpdateWellFormed(jobs: map<int, Job>, id: int, j: Job, clock: nat, later: nat)
    requires AllWellFormed(jobs, clock) && clock <= later && WellFormed(j, later)
    ensures AllWellFormed(jobs[id := j], later)
  {
    var updated := jobs[id := j];
    forall k | k in updated ensures WellFormed(updated[k], later) {
      if k != id {
        WellFormedLater(jobs[k], clock, later);
      }
    }
  }

  /**
   * `TranscodeJob.query.filter_by(source_file=path).first()` finds a
   * record: `path` is one of the table's source files.
   */
  predicate Recorded(jobs: map<int, Job>, path: string)
    ensures Recorded(jobs, path) <==> path in SourceFiles(jobs)
  {
    exists id :: id in jobs && jobs[id].sourceFile == path
  }

  /** The `source_file` column of the job table. */
  function SourceFiles(jobs: map<int, Job>): set<string> {
    set id | id in jobs :: jobs[id].sourceFile
  }

  /** Adding a job under a new id records its source file and keeps every earlier record. */
  lemma RecordedAfterAdd(jobs: map<int, Job>, id: int, job: Job, path: string)
    requires id !in jobs
    ensures Recorded(jobs[id := job], path) <==> path == job.sourceFile || Recorded(jobs, path)
  {
    if Recorded(jobs, path) {
      var k :| k in jobs && jobs[k].sourceFile == path;
      assert jobs[id := job][k] == jobs[k];
    }
    if path == job.sourceFile {
      assert jobs[id := job][id].sourceFile == path;
    }
  }

  // ---------------------------------------------------------------------
  // process_job: output path and encoder settings

  const TranscodedMark := "_transcoded."
  const DefaultOutputFormat := "mp4"

  /**
   * `f"{Path(source).stem}_transcoded.{output_format}"`: it ends with the
   * mark and the format, and for a format without a separator it is a
   * single path component.
   */
  function OutputFileName(sourceFile: string, format: string): (r: string)
    ensures EndsWith(r, TranscodedMark + format)
    ensures '/' !in format ==> '/' !in r
  {
    var stem := Stem(sourceFile);
    NoSlashInStem(sourceFile);
    NoSlashInMarked(stem, format);
    assert (stem + (TranscodedMark + format))[|stem|..] == TranscodedMark + format;
    stem + (TranscodedMark + format)
  }

  /** `os.path.join(output_folder, output_filename)`. */
  function OutputPath(folder: string, sourceFile: string, format: string): (r: string)
    ensures EndsWith(r, OutputFileName(sourceFile, format))
    ensures EndsWith(r, TranscodedMark + format)
  {
    var stem := Stem(sourceFile);
    JoinEndsWith(folder, stem, TranscodedMark + format);
    Join(folder, stem + (TranscodedMark + format))
  }

  /** Whatever the folder, a joined path ends with the tail of the file name. */
  lemma JoinEndsWith(folder: string, x: string, y: string)
    ensures EndsWith(Join(folder, x + y), y)
  {
    var r := Join(folder, x + y);
    assert r[|r| - |y|..] == r[|r| - |x + y|..][|x|..];
    assert (x + y)[|x|..] == y;
  }

  /** A separator-free stem followed by the mark and a separator-free format holds no separator. */
  lemma NoSlashInMarked(stem: string, format: string)
    requires '/' !in stem
    ensures '/' !in format ==> '/' !in stem + (TranscodedMark + format)
  {
    if '/' !in format {
      assert '/' !in TranscodedMark by {
        assert TranscodedMark == ['_', 't', 'r', 'a', 'n', 's', 'c', 'o', 'd', 'e', 'd', '.'];
      }
      NoSlashInConcat(TranscodedMark, format);
      NoSlashInConcat(stem, TranscodedMark + format);
    }
  }

  /** Used by `NoSlashInMarked` and `TranscodedNameParts` to keep a built file name a single component. */
  lemma NoSlashInConcat(x: string, y: string)
    requires '/' !in x && '/' !in y
    ensures '/' !in x + y
  {
  }

  /** The stem of a path holds no separator, as it is part of the name. */
  lemma NoSlashInStem(p: string)
    ensures '/' !in Stem(p)
  {
    var s := Stem(p);
    assert s + Suffix(p) == Name(p);
    forall k | 0 <= k < |s| ensures s[k] != '/' {
      assert s[k] == Name(p)[k];
    }
  }

  /**
   * For an output format that is a plain extension, the output path names
   * the output file, and reading that file's suffix and stem gives back the
   * format and the source stem with `_transcoded` appended.
   */
  lemma OutputPathParts(folder: string, sourceFile: string, format: string)
    requires format != [] && '/' !in format && '.' !in format
    ensures Name(OutputPath(folder, sourceFile, format)) == OutputFileName(sourceFile, format)
    ensures Suffix(OutputPath(folder, sourceFile, format)) == "." + format
    ensures Stem(OutputPath(folder, sourceFile, format)) == Stem(sourceFile) + "_transcoded"
  {
    NoSlashInStem(sourceFile);
    TranscodedNameParts(folder, Stem(sourceFile), format);
  }

  lemma TranscodedNameParts(folder: string, base: string, format: string)
    requires '/' !in base
    requires format != [] && '/' !in format && '.' !in format
    ensures Name(Join(folder, base + (TranscodedMark + format))) == base + (TranscodedMark + format)
    ensures Suffix(Join(folder, base + (TranscodedMark + format))) == "." + format
    ensures Stem(Join(folder, base + (TranscodedMark + format))) == base + "_transcoded"
  {
    var stem := base + "_transcoded";
    var name := base + (TranscodedMark + format);
    assert name == stem + "." + format;
    NoSlashInConcat(base, "_transcoded");
    NameOfDotted(stem, format);
    NoSlashInDotted(stem, format);
    NameOfJoin(folder, name);
    SuffixOfName(stem, format);
    StemOfName(stem, format);
    SameNameSameParts(Join(folder, name), name);
  }

  /** The suffix and the stem depend on the name alone. */
  lemma SameNameSameParts(p: string, q: string)
    requires Name(p) == Name(q)
    ensures Suffix(p) == Suffix(q) && Stem(p) == Stem(q)
  {
  }

  /** What `process_job` computes before it starts the encoder. */
  datatype Plan = Plan(outputPath: string, settings: EncodeSettings)

  /**
   * The two exceptions the preparation can raise: `os.path.join` with no
   * output folder ever saved, and `int()` on a quality value that is not
   * an integer.
   */
  datatype PlanError = OutputFolderUnset | CrfNotInteger(text: string)

  /**
   * The preparation at the top of `process_job`'s `try` block, in source
   * order: the output folder (no default), the output format (default
   * `mp4`), the output path, then the codec settings with the quality
   * value read by `int()`.
   */
  function PlanJob(sourceFile: string, rows: seq<Row>): (r: Result<Plan, PlanError>)
    ensures Lookup(rows, "output_folder").None? ==> r == Failure(OutputFolderUnset)
    ensures Lookup(rows, "output_folder").Some? && ParseInt(ValueOr(rows, "crf", "23")).None? ==>
      r == Failure(CrfNotInteger(ValueOr(rows, "crf", "23")))
    ensures r.Success? <==> Lookup(rows, "output_folder").Some? && ParseInt(ValueOr(rows, "crf", "23")).Some?
    ensures r.Success? ==>
      && r.value.outputPath == OutputPath(Lookup(rows, "output_folder").value, sourceFile, ValueOr(rows, "output_format", DefaultOutputFormat))
      && EndsWith(r.value.outputPath, TranscodedMark + ValueOr(rows, "output_format", DefaultOutputFormat))
    ensures r.Success? ==> r.value.settings == EncodeSettings(
      Some(ValueOr(rows, "video_codec", DefaultVideoCodec)),
      Some(ValueOr(rows, "audio_codec", DefaultAudioCodec)),
      Some(ValueOr(rows, "preset", DefaultPreset)),
      ParseInt(ValueOr(rows, "crf", "23")))
  {
    match Lookup(rows, "output_folder")
    case None => Failure(OutputFolderUnset)
    case Some(folder) =>
      var format := ValueOr(rows, "output_format", DefaultOutputFormat);
      var outputPath := OutputPath(folder, sourceFile, format);
      var crfText := ValueOr(rows, "crf", "23");
      match ParseInt(crfText)
      case None => Failure(CrfNotInteger(crfText))
      case Some(crf) =>
        Success(Plan(outputPath, EncodeSettings(
          Some(ValueOr(rows, "video_codec", DefaultVideoCodec)),
          Some(ValueOr(rows, "audio_codec", DefaultAudioCodec)),
          Some(ValueOr(rows, "preset", DefaultPreset)),
          Some(crf))))
  }

  /** With no quality value saved, the encoder gets the quality 23. */
  lemma UnsetCrfIsDefault(sourceFile: string, rows: seq<Row>)
    requires Lookup(rows, "output_folder").Some? && Lookup(rows, "crf").None?
    ensures PlanJob(sourceFile, rows).Success?
    ensures PlanJob(sourceFile, rows).value.settings.crf == Some(DefaultCrf)
  {
    assert "23" == NatToString(23);
    ParseIntOfDigits("23");
  }

  /** `str(e)` of the two preparation errors. */
  function PlanErrorText(e: PlanError): (r: string)
    ensures e.OutputFolderUnset? ==> r == UnsetFolderText
    ensures e.CrfNotInteger? ==>
      && |r| == |CrfErrorPrefix| + |e.text| + 1
      && r[..|CrfErrorPrefix|] == CrfErrorPrefix && r[|CrfErrorPrefix|..|r| - 1] == e.text && r[|r| - 1] == '\''
  {
    match e
    case OutputFolderUnset => UnsetFolderText
    case CrfNotInteger(text) => CrfErrorPrefix + text + "'"
  }

  const UnsetFolderText := "expected str, bytes or os.PathLike object, not NoneType"
  const CrfErrorPrefix := "invalid literal for int() with base 10: '"

  /** The last value of `events`, or `otherwise` when there is none. */
  function LastOr(events: seq<real>, otherwise: real): (r: real)
    ensures events == [] ==> r == otherwise
    ensures events != [] ==> r == events[|events| - 1]
  {
    if events == [] then otherwise else events[|events| - 1]
  }

  /**
   * The job as `process_job` leaves it at time `now`, given the job as it
   * was when the work started, the preparation's outcome and what the
   * encoder did. The progress of a failed job is the last value the
   * callback received; a failed job keeps the completion time and output
   * file it had.
   */
  function Finished(j0: Job, plan: Result<Plan, PlanError>, run: EncoderRun, now: nat): (j: Job)
    ensures j.sourceFile == j0.sourceFile && j.createdAt == j0.createdAt && j.startedAt == j0.startedAt
    ensures j.status == Completed || j.status == Failed
    ensures j.status == Completed <==> plan.Success? && run.process.Exited? && run.process.returnCode == 0
    ensures j.status == Completed ==>
      && j.outputFile == Some(plan.value.outputPath) && j.progress == 100.0
      && j.completedAt == Some(now) && j.errorMessage == j0.errorMessage
    ensures j.status == Failed ==> j.outputFile == j0.outputFile && j.completedAt == j0.completedAt
    ensures j.status == Failed && plan.Failure? ==>
      j.errorMessage == Some(PlanErrorText(plan.error)) && j.progress == j0.progress
    ensures j.status == Failed && plan.Success? ==>
      && j.errorMessage == Some(FailureText(ExitResult(plan.value.outputPath, run.process).error))
      && j.progress == LastOr(Events(true, run), j0.progress)
  {
    match plan
    case Failure(e) => j0.(status := Failed, errorMessage := Some(PlanErrorText(e)))
    case Success(p) =>
      var progress := LastOr(Events(true, run), j0.progress);
      match ExitResult(p.outputPath, run.process)
      case Success(output) =>
        j0.(outputFile := Some(output), status := Completed, progress := 100.0, completedAt := Some(now))
      case Failure(f) => j0.(status := Failed, errorMessage := Some(FailureText(f)), progress := progress)
  }

  /** `process_job`'s first commit: the job is marked `processing` and its start time is `now`. */
  function Started(j: Job, now: nat): (r: Job)
    ensures r.status == Processing && r.startedAt == Some(now)
    ensures r.(status := j.status, startedAt := j.startedAt) == j
  {
    j.(status := Processing, startedAt := Some(now))
  }

  /** Starting a well-formed job at tick `now` leaves it well formed one tick later. */
  lemma StartedWellFormed(j: Job, now: nat)
    requires WellFormed(j, now)
    ensures WellFormed(Started(j, now), now + 1)
  {
  }

  /**
   * A job that is marked `processing` and well formed at tick `now` is
   * still well formed, one tick later, once it has finished at `now`.
   */
  lemma FinishedWellFormed(j0: Job, plan: Result<Plan, PlanError>, run: EncoderRun, now: nat)
    requires WellFormed(j0, now) && j0.status == Processing
    ensures WellFormed(Finished(j0, plan, run, now), now + 1)
  {
    var events := Events(true, run);
    if events != [] {
      assert 0.0 <= events[|events| - 1] <= 100.0;
    }
  }

  // ---------------------------------------------------------------------
  // scan_folder

  /** One triple `(root, dirs, files)` of `os.walk`; the directories play no part. */
  datatype WalkEntry = WalkEntry(root: string, files: seq<string>)

  /** The extensions `scan_folder` looks for (two fewer than the watcher's defaults). */
  const ScanExtensions: set<string> := {".mp4", ".avi", ".mkv", ".mov", ".flv", ".wmv", ".m4v", ".webm"}

  /** Every scan extension is a dot and at least two letters, so none is the empty suffix. */
  lemma NoEmptyScanExtension()
    ensures "" !in ScanExtensions
  {
    forall e | e in ScanExtensions ensures |e| >= 4 {}
  }

  predicate IsScanVideo(file: string)
    ensures IsScanVideo(file) ==> Suffix(file) != "" && !NoExtension(Name(file))
  {
    NoEmptyScanExtension();
    Lower(Suffix(file)) in ScanExtensions
  }

  /** The new paths one directory contributes, in listing order. */
  function NewFilesIn(root: string, files: seq<string>, jobs: map<int, Job>): (r: seq<string>)
    ensures |r| <= |files|
    ensures forall k :: 0 <= k < |r| ==> !Recorded(jobs, r[k])
  {
    if files == [] then []
    else
      NewFilesIn(root, files[..|files| - 1], jobs) + NewFileOf(root, files[|files| - 1], jobs)
  }

  /** `new_files` after the walk: every walked video path without a record, in walk order. */
  function NewFiles(walk: seq<WalkEntry>, jobs: map<int, Job>): (r: seq<string>)
    ensures forall k :: 0 <= k < |r| ==> !Recorded(jobs, r[k])
  {
    if walk == [] then []
    else
      var last := walk[|walk| - 1];
      NewFiles(walk[..|walk| - 1], jobs) + NewFilesIn(last.root, last.files, jobs)
  }

  /** Some file listed under `root` that `accepts` passes joins to `path`. */
  ghost predicate ListedBy(root: string, files: seq<string>, path: string, accepts: string -> bool) {
    exists f :: 0 <= f < |files| && accepts(files[f]) && path == Join(root, files[f])
  }

  /** The listing of `root` holds a file with one of the scan extensions whose joined path is `path`. */
  ghost predicate ListedIn(root: string, files: seq<string>, path: string) {
    ListedBy(root, files, path, IsScanVideo)
  }

  /** Some directory of the walk lists a file that `accepts` passes and that joins to `path`. */
  ghost predicate WalkedBy(walk: seq<WalkEntry>, path: string, accepts: string -> bool) {
    exists e :: 0 <= e < |walk| && ListedBy(walk[e].root, walk[e].files, path, accepts)
  }

  /** The walk lists a file with one of the scan extensions whose joined path is `path`. */
  ghost predicate Walked(walk: seq<WalkEntry>, path: string) {
    WalkedBy(walk, path, IsScanVideo)
  }

  /** The part of `NewFilesIn` the last listed file adds. */
  function NewFileOf(root: string, file: string, jobs: map<int, Job>): (r: seq<string>)
    ensures |r| <= 1
    ensures r != [] ==> r[0] == Join(root, file) && !Recorded(jobs, r[0])
  {
    var path := Join(root, file);
    if IsScanVideo(file) && !Recorded(jobs, path) then [path] else []
  }

  lemma ListedBySnoc(root: string, front: seq<string>, file: string, path: string, accepts: string -> bool)
    ensures ListedBy(root, front + [file], path, accepts) <==>
      ListedBy(root, front, path, accepts) || (accepts(file) && path == Join(root, file))
  {
    var files := front + [file];
    if ListedBy(root, files, path, accepts) {
      var f :| 0 <= f < |files| && accepts(files[f]) && path == Join(root, files[f]);
      if f < |front| {
        assert files[f] == front[f];
      } else {
        assert files[f] == file;
      }
    }
    if ListedBy(root, front, path, accepts) {
      var f :| 0 <= f < |front| && accepts(front[f]) && path == Join(root, front[f]);
      assert files[f] == front[f];
    }
    if accepts(file) && path == Join(root, file) {
      assert files[|front|] == file;
    }
  }

  lemma {:induction false} NewFilesInIff(root: string, files: seq<string>, jobs: map<int, Job>, path: string)
    ensures path in NewFilesIn(root, files, jobs) <==> ListedIn(root, files, path) && !Recorded(jobs, path)
  {
    if files != [] {
      var front := files[..|files| - 1];
      var file := files[|files| - 1];
      assert files == front + [file];
      var added := NewFileOf(root, file, jobs);
      assert NewFilesIn(root, files, jobs) == NewFilesIn(root, front, jobs) + added;
      assert path in added <==> IsScanVideo(file) && path == Join(root, file) && !Recorded(jobs, path);
      NewFilesInIff(root, front, jobs, path);
      ListedBySnoc(root, front, file, path, IsScanVideo);
    }
  }

  lemma WalkedBySnoc(front: seq<WalkEntry>, last: WalkEntry, path: string, accepts: string -> bool)
    ensures WalkedBy(front + [last], path, accepts) <==>
      WalkedBy(front, path, accepts) || ListedBy(last.root, last.files, path, accepts)
  {
    var walk := front + [last];
    if WalkedBy(walk, path, accepts) {
      var e :| 0 <= e < |walk| && ListedBy(walk[e].root, walk[e].files, path, accepts);
      if e < |front| {
        assert walk[e] == front[e];
      } else {
        assert walk[e] == last;
      }
    }
    if WalkedBy(front, path, accepts) {
      var e :| 0 <= e < |front| && ListedBy(front[e].root, front[e].files, path, accepts);
      assert walk[e] == front[e];
    }
    if ListedBy(last.root, last.files, path, accepts) {
      assert walk[|front|] == last;
    }
  }

  /**
   * `scan_folder` picks exactly the walked paths whose file name has one
   * of the eight scan extensions (in any case) and that no job record of
   * any status already holds.
   */
  lemma {:induction false} NewFilesIff(walk: seq<WalkEntry>, jobs: map<int, Job>, path: string)
    ensures path in NewFiles(walk, jobs) <==> Walked(walk, path) && !Recorded(jobs, path)
  {
    if walk != [] {
      var front := walk[..|walk| - 1];
      var last := walk[|walk| - 1];
      assert walk == front + [last];
      NewFilesIff(front, jobs, path);
      NewFilesInIff(last.root, last.files, jobs, path);
      WalkedBySnoc(front, last, path, IsScanVideo);
    }
  }

  lemma NewFilesInSnoc(root: string, files: seq<string>, f: nat, jobs: map<int, Job>)
    requires f < |files|
    ensures NewFilesIn(root, files[..f + 1], jobs) == NewFilesIn(root, files[..f], jobs) + NewFileOf(root, files[f], jobs)
  {
    assert files[..f + 1][..f] == files[..f];
  }

  lemma NewFilesSnoc(walk: seq<WalkEntry>, e: nat, jobs: map<int, Job>)
    requires e < |walk|
    ensures NewFiles(walk[..e + 1], jobs) == NewFiles(walk[..e], jobs) + NewFilesIn(walk[e].root, walk[e].files, jobs)
  {
    assert walk[..e + 1][..e] == walk[..e];
  }

  /** The two nested loops of `scan_folder` that collect `new_files`. */
  method FindNewFiles(walk: seq<WalkEntry>, jobs: map<int, Job>) returns (newFiles: seq<string>)
    ensures newFiles == NewFiles(walk, jobs)
    ensures forall k :: 0 <= k < |newFiles| ==> !Recorded(jobs, newFiles[k]) && Walked(walk, newFiles[k])
  {
    newFiles := [];
    var e := 0;
    while e < |walk|
      invariant 0 <= e <= |walk|
      invariant newFiles == NewFiles(walk[..e], jobs)
    {
      var found := FindNewFilesIn(walk[e].root, walk[e].files, jobs);
      NewFilesSnoc(walk, e, jobs);
      newFiles := newFiles + found;
      e := e + 1;
    }
    assert walk[..e] == walk;
    forall k | 0 <= k < |newFiles| ensures !Recorded(jobs, newFiles[k]) && Walked(walk, newFiles[k]) {
      NewFilesIff(walk, jobs, newFiles[k]);
    }
  }

  /** The inner loop, over the files of one directory. */
  method FindNewFilesIn(root: string, files: seq<string>, jobs: map<int, Job>) returns (found: seq<string>)
    ensures found == NewFilesIn(root, files, jobs)
  {
    found := [];
    var f := 0;
    while f < |files|
      invariant 0 <= f <= |files|
      invariant found == NewFilesIn(root, files[..f], jobs)
    {
      var added := CheckFile(root, files[f], jobs);
      NewFilesInSnoc(root, files, f, jobs);
      found := found + added;
      f := f + 1;
    }
    assert files[..f] == files;
  }

  /** The body of the inner loop: the path of `file` when it is a video without a record. */
  method CheckFile(root: string, file: string, jobs: map<int, Job>) returns (added: seq<string>)
    ensures added == NewFileOf(root, file, jobs)
  {
    added := [];
    if IsScanVideo(file) {
      var filePath := Join(root, file);
      if !Recorded(jobs, filePath) {
        added := [filePath];
      }
    }
  }

  // ---------------------------------------------------------------------
  // get_status: jobs per status

  function IdsWith(jobs: map<int, Job>, s: Status): set<int> {
    set id | id in jobs && jobs[id].status == s
  }

  /** `TranscodeJob.query.filter_by(status=s).count()`. */
  function CountWith(jobs: map<int, Job>, s: Status): (r: nat)
    ensures r <= |jobs|
  {
    var ids := IdsWith(jobs, s);
    DisjointUnion(ids, jobs.Keys - ids);
    assert ids + (jobs.Keys - ids) == jobs.Keys;
    |ids|
  }

  /** The four per-status counts of `get_status` add up to `total_jobs`. */
  lemma StatusCountsAddUp(jobs: map<int, Job>)
    ensures CountWith(jobs, Pending) + CountWith(jobs, Processing) + CountWith(jobs, Completed) + CountWith(jobs, Failed) == |jobs|
  {
    var p, r, c, f := IdsWith(jobs, Pending), IdsWith(jobs, Processing), IdsWith(jobs, Completed), IdsWith(jobs, Failed);
    DisjointUnion(p, r);
    DisjointUnion(p + r, c);
    DisjointUnion(p + r + c, f);
    forall id | id in jobs ensures id in p + r + c + f {
      match jobs[id].status
      case Pending => assert id in p;
      case Processing => assert id in r;
      case Completed => assert id in c;
      case Failed => assert id in f;
    }
    assert p + r + c + f == jobs.Keys;
  }

  lemma DisjointUnion(a: set<int>, b: set<int>)
    requires a * b == {}
    ensures |a + b| == |a| + |b|
  {
    assert |a + b| + |a * b| == |a| + |b|;
  }
}
