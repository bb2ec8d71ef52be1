/**
 * The application state of app.py and its endpoints: the job table, the
 * settings table and the global folder watcher, with `create_job`,
 * `delete_job`, `scan_folder`, `update_settings`, `get_settings`,
 * `get_status`, the background `process_job` and the watcher callback
 * `on_new_file`.
 *
 * Every thread the source starts for `process_job` is a direct call here,
 * made where the source starts the thread. The file system is the set of
 * paths that exist; the encoder's behaviour for each source file is a
 * parameter; timestamps are ticks of `clock`.
 */
module App {
  import opened Results
  import opened Numerals
  import opened Settings
  import opened Transcoder
  import opened Watcher
  import opened Jobs

  /** The error responses of the endpoints. */
  datatype ApiError =
    | SourceFileMissing
    | JobNotFound
    | JobInProgress
    | SourceFolderMissing
    | OutputFolderUncreatable(reason: string)
    | ScanFolderUnavailable

  /** The `crf` member of a settings request: a JSON number or a JSON string. */
  datatype CrfValue = CrfNumber(n: int) | CrfText(text: string)

  /** `str(data.get('crf', 23))`. */
  function CrfSetting(crf: Option<CrfValue>): (r: string)
    ensures crf.None? ==> r == IntToString(DefaultCrf)
    ensures crf.Some? && crf.value.CrfNumber? ==> ParseInt(r) == Some(crf.value.n)
    ensures crf.Some? && crf.value.CrfText? ==> r == crf.value.text
  {
    match crf
    case None => IntToString(DefaultCrf)
    case Some(CrfNumber(n)) => ParseIntOfIntToString(n); IntToString(n)
    case Some(CrfText(t)) => t
  }

  /**
   * The body of a `POST /api/settings` request; a missing member is
   * `None`. `watchEnabled` is the truth value of `data.get('watch_enabled')`.
   */
  datatype SettingsRequest = SettingsRequest(
    sourceFolder: Option<string>,
    outputFolder: Option<string>,
    watchEnabled: bool,
    outputFormat: Option<string>,
    videoCodec: Option<string>,
    audioCodec: Option<string>,
    preset: Option<string>,
    crf: Option<CrfValue>)

  /** The body of a `GET /api/settings` response. */
  datatype SettingsView = SettingsView(
    sourceFolder: string,
    outputFolder: string,
    watchEnabled: bool,
    outputFormat: string,
    videoCodec: string,
    audioCodec: string,
    preset: string,
    crf: string)

  /**
   * `get_settings`: every key with its saved value, or its default when
   * none is saved; the watch flag is on only for the text `true`.
   */
  function ViewOf(rows: seq<Row>): (v: SettingsView)
    ensures v.watchEnabled <==> Lookup(rows, "watch_enabled") == Some("true")
    ensures Lookup(rows, "source_folder").Some? ==> v.sourceFolder == Lookup(rows, "source_folder").value
    ensures Lookup(rows, "source_folder").None? ==> v.sourceFolder == ""
    ensures Lookup(rows, "output_folder").Some? ==> v.outputFolder == Lookup(rows, "output_folder").value
    ensures Lookup(rows, "output_folder").None? ==> v.outputFolder == ""
    ensures Lookup(rows, "output_format").Some? ==> v.outputFormat == Lookup(rows, "output_format").value
    ensures Lookup(rows, "output_format").None? ==> v.outputFormat == DefaultOutputFormat
    ensures Lookup(rows, "video_codec").Some? ==> v.videoCodec == Lookup(rows, "video_codec").value
    ensures Lookup(rows, "video_codec").None? ==> v.videoCodec == DefaultVideoCodec
    ensures Lookup(rows, "audio_codec").Some? ==> v.audioCodec == Lookup(rows, "audio_codec").value
    ensures Lookup(rows, "audio_codec").None? ==> v.audioCodec == DefaultAudioCodec
    ensures Lookup(rows, "preset").Some? ==> v.preset == Lookup(rows, "preset").value
    ensures Lookup(rows, "preset").None? ==> v.preset == DefaultPreset
    ensures Lookup(rows, "crf").Some? ==> v.crf == Lookup(rows, "crf").value
    ensures Lookup(rows, "crf").None? ==> v.crf == "23"
  {
    SettingsView(
      ValueOr(rows, "source_folder", ""),
      ValueOr(rows, "output_folder", ""),
      ValueOr(rows, "watch_enabled", "false") == "true",
      ValueOr(rows, "output_format", DefaultOutputFormat),
      ValueOr(rows, "video_codec", DefaultVideoCodec),
      ValueOr(rows, "audio_codec", DefaultAudioCodec),
      ValueOr(rows, "preset", DefaultPreset),
      ValueOr(rows, "crf", "23"))
  }

  /** What `get_settings` answers once `update_settings` has saved `req`. */
  function RequestedView(req: SettingsRequest): SettingsView {
    SettingsView(
      req.sourceFolder.GetOr(""),
      req.outputFolder.GetOr(""),
      req.watchEnabled,
      req.outputFormat.GetOr(DefaultOutputFormat),
      req.videoCodec.GetOr(DefaultVideoCodec),
      req.audioCodec.GetOr(DefaultAudioCodec),
      req.preset.GetOr(DefaultPreset),
      CrfSetting(req.crf))
  }

  /**
   * Once `update_settings` has saved an output folder and a numeric
   * quality value, `process_job` can prepare every job: it reads that
   * folder and that number back.
   */
  lemma SavedSettingsPlan(sourceFile: string, rows: seq<Row>, folder: string, n: int)
    requires Lookup(rows, "output_folder") == Some(folder)
    requires Lookup(rows, "crf") == Some(CrfSetting(Some(CrfNumber(n))))
    ensures PlanJob(sourceFile, rows).Success?
    ensures PlanJob(sourceFile, rows).value.settings.crf == Some(n)
    ensures PlanJob(sourceFile, rows).value.outputPath ==
      OutputPath(folder, sourceFile, ValueOr(rows, "output_format", DefaultOutputFormat))
  {
    assert ValueOr(rows, "crf", "23") == CrfSetting(Some(CrfNumber(n)));
  }

  /** The keys `update_settings` writes. */
  const SettingsKeys: set<string> :=
    {"source_folder", "output_folder", "watch_enabled", "output_format", "video_codec", "audio_codec", "preset", "crf"}

  /** The job counts of `get_status`; the CPU and memory figures are not modelled. */
  datatype StatusReport = StatusReport(
    totalJobs: nat,
    pendingJobs: nat,
    processingJobs: nat,
    completedJobs: nat,
    failedJobs: nat,
    watchEnabled: bool)

  /** What `scan_folder` answers: its message, and the jobs as created. */
  datatype ScanReport = ScanReport(message: string, created: seq<(int, Job)>)

  const FoundPrefix := "Found "
  const FoundSuffix := " new files"

  /** `f'Found {len(new_files)} new files'`: the count can be read back from the message. */
  function ScanMessage(found: nat): (r: string)
    ensures |r| > |FoundPrefix| + |FoundSuffix|
    ensures r[..|FoundPrefix|] == FoundPrefix && r[|r| - |FoundSuffix|..] == FoundSuffix
    ensures ParseInt(r[|FoundPrefix|..|r| - |FoundSuffix|]) == Some(found)
  {
    var digits := NatToString(found);
    var r := FoundPrefix + digits + FoundSuffix;
    assert r[|FoundPrefix|..|r| - |FoundSuffix|] == digits;
    ParseIntOfDigits(digits);
    r
  }

  /** The ids of a list of created jobs. */
  function IdSet(created: seq<(int, Job)>): set<int> {
    set k | 0 <= k < |created| :: created[k].0
  }

  lemma IdSetSnoc(created: seq<(int, Job)>, c: (int, Job))
    ensures IdSet(created + [c]) == IdSet(created) + {c.0}
  {
    var extended := created + [c];
    assert extended[|created|].0 == c.0;
    forall id | id in IdSet(extended) ensures id in IdSet(created) + {c.0} {
      var k :| 0 <= k < |extended| && extended[k].0 == id;
      if k < |created| {
        assert created[k] == extended[k];
      }
    }
    forall id | id in IdSet(created) ensures id in IdSet(extended) {
      var k :| 0 <= k < |created| && created[k].0 == id;
      assert extended[k] == created[k];
    }
  }

  /** Ids in strictly increasing order are distinct, so there are as many as jobs. */
  lemma {:induction false} IdSetSize(created: seq<(int, Job)>)
    requires forall k, m :: 0 <= k < m < |created| ==> created[k].0 < created[m].0
    ensures |IdSet(created)| == |created|
  {
    if created != [] {
      var front := created[..|created| - 1];
      var last := created[|created| - 1];
      assert created == front + [last];
      IdSetSnoc(front, last);
      IdSetSize(front);
      forall k | 0 <= k < |front| ensures front[k].0 != last.0 {
        assert front[k] == created[k];
      }
      assert last.0 !in IdSet(front);
    }
  }

  /** The four folder keys are distinct, so `SaveFolderSettings` can save them as two pairs. */
  lemma FolderKeysDiffer()
    ensures "source_folder" != "output_folder" && "source_folder" != "watch_enabled" && "source_folder" != "output_format"
    ensures "output_folder" != "watch_enabled" && "output_folder" != "output_format" && "watch_enabled" != "output_format"
  {
    assert "source_folder"[0] == 's' && "output_folder"[0] == 'o' && "watch_enabled"[0] == 'w';
    assert "output_folder"[7] == 'f' && "output_format"[7] == 'f' && "output_folder"[8] == 'o' && "output_format"[8] == 'o';
    assert "output_folder"[9] == 'l' && "output_format"[9] == 'r';
  }

  /**
   * The folder keys are thirteen characters long and the encoder keys
   * shorter, so `SaveSettings` knows the encoder writes keep the folder values.
   */
  lemma FolderKeysNotEncoderKeys()
    ensures forall f, e | f in ["source_folder", "output_folder", "watch_enabled", "output_format"]
                       && e in ["video_codec", "audio_codec", "preset", "crf"] :: f != e
  {
    forall f, e | f in ["source_folder", "output_folder", "watch_enabled", "output_format"]
               && e in ["video_codec", "audio_codec", "preset", "crf"]
      ensures f != e
    {
      assert |f| == 13 && |e| < 13;
    }
  }

  /**
   * The jobs `created` so far by the loop of `scan_folder`, one per path of
   * `paths` in order, starting from the table `oldJobs` at tick `oldClock`:
   * fresh ids in increasing order below `nextId`, each with its pending
   * record, and no earlier record changed.
   */
  ghost predicate PendingAdded(oldJobs: map<int, Job>, oldClock: nat, paths: seq<string>,
                               created: seq<(int, Job)>, jobs: map<int, Job>, nextId: int) {
    && |created| <= |paths|
    && (forall k :: 0 <= k < |created| ==>
          && created[k].0 !in oldJobs && created[k].0 in jobs && created[k].0 < nextId
          && created[k].1 == jobs[created[k].0] && created[k].1 == NewJob(paths[k], oldClock + k))
    && (forall k, m :: 0 <= k < m < |created| ==> created[k].0 < created[m].0)
    && jobs.Keys == oldJobs.Keys + IdSet(created)
    && (forall k :: k in oldJobs ==> jobs[k] == oldJobs[k])
  }

  /** Adding the job for the next path with the next id keeps `PendingAdded`. */
  lemma PendingAddedStep(oldJobs: map<int, Job>, oldClock: nat, paths: seq<string>,
                         created: seq<(int, Job)>, jobs: map<int, Job>, id: int)
    requires PendingAdded(oldJobs, oldClock, paths, created, jobs, id)
    requires |created| < |paths| && id !in jobs
    ensures var job := NewJob(paths[|created|], oldClock + |created|);
      PendingAdded(oldJobs, oldClock, paths, created + [(id, job)], jobs[id := job], id + 1)
  {
    var job := NewJob(paths[|created|], oldClock + |created|);
    var created', jobs' := created + [(id, job)], jobs[id := job];
    IdSetSnoc(created, (id, job));
    assert id !in oldJobs;
    forall k | 0 <= k < |created'|
      ensures && created'[k].0 !in oldJobs && created'[k].0 in jobs' && created'[k].0 < id + 1
              && created'[k].1 == jobs'[created'[k].0] && created'[k].1 == NewJob(paths[k], oldClock + k)
    {
      if k < |created| {
        assert created'[k] == created[k];
      }
    }
  }

  /**
   * The loop of `scan_folder` that processes the `created` jobs has
   * finished the first `done` of them: `jobs` has the keys of `oldJobs`,
   * every job it did not create is as it was, every created job keeps its
   * source file, and the first `done` are completed or failed.
   */
  ghost predicate Settled(created: seq<(int, Job)>, paths: seq<string>, oldJobs: map<int, Job>, jobs: map<int, Job>, done: nat) {
    && |created| == |paths| && done <= |created|
    && jobs.Keys == oldJobs.Keys
    && (forall k :: k in oldJobs && k !in IdSet(created) ==> jobs[k] == oldJobs[k])
    && (forall k :: 0 <= k < |created| ==> created[k].0 in jobs && jobs[created[k].0].sourceFile == paths[k])
    && (forall k :: 0 <= k < done ==> jobs[created[k].0].status == Completed || jobs[created[k].0].status == Failed)
  }

  /** Processing the next created job, and changing no other job, settles one more. */
  lemma SettledStep(created: seq<(int, Job)>, paths: seq<string>, oldJobs: map<int, Job>,
                    before: map<int, Job>, after: map<int, Job>, done: nat)
    requires Settled(created, paths, oldJobs, before, done) && done < |created|
    requires var id := created[done].0;
      && after.Keys == before.Keys
      && (after[id].status == Completed || after[id].status == Failed)
      && after[id].sourceFile == before[id].sourceFile
      && (forall k :: k in after && k != id ==> after[k] == before[k])
    ensures Settled(created, paths, oldJobs, after, done + 1)
  {
    var id := created[done].0;
    assert id in IdSet(created);
    forall k | 0 <= k < done + 1
      ensures after[created[k].0].status == Completed || after[created[k].0].status == Failed
    {
      if created[k].0 != id {
        assert after[created[k].0] == before[created[k].0];
      }
    }
  }

  /**
   * What `scan_folder` leaves behind for the new files `paths`, starting
   * from the table `oldJobs`: one job per path, in order, under fresh
   * increasing ids, created `pending` with progress 0 and processed to
   * `completed` or `failed`; every earlier job is untouched.
   */
  ghost predicate ScanCreated(oldJobs: map<int, Job>, paths: seq<string>, created: seq<(int, Job)>, jobs: map<int, Job>) {
    && |created| == |paths|
    && (forall k :: 0 <= k < |created| ==>
          && created[k].0 !in oldJobs && created[k].0 in jobs
          && created[k].1.sourceFile == paths[k] && created[k].1.status == Pending && created[k].1.progress == 0.0
          && jobs[created[k].0].sourceFile == paths[k]
          && (jobs[created[k].0].status == Completed || jobs[created[k].0].status == Failed))
    && (forall k, m :: 0 <= k < m < |created| ==> created[k].0 < created[m].0)
    && |jobs.Keys| == |oldJobs.Keys| + |created|
    && (forall k :: k in oldJobs ==> k in jobs && jobs[k] == oldJobs[k])
  }

  /**
   * Adding the pending jobs (`oldJobs` to `added`) and then processing them
   * (`added` to `jobs`) leaves what `ScanCreated` describes.
   */
  lemma ScanCreatedFrom(oldJobs: map<int, Job>, clock0: nat, paths: seq<string>, created: seq<(int, Job)>,
                        added: map<int, Job>, nextId: int, jobs: map<int, Job>)
    requires |created| == |paths| && PendingAdded(oldJobs, clock0, paths, created, added, nextId)
    requires Settled(created, paths, added, jobs, |created|)
    ensures ScanCreated(oldJobs, paths, created, jobs)
  {
    IdSetSize(created);
    DisjointUnion(oldJobs.Keys, IdSet(created));
    forall k | k in oldJobs ensures k in jobs && jobs[k] == oldJobs[k] {
      assert k !in IdSet(created);
    }
  }

  /** Rows that hold the eight values `update_settings` saves for `req` read back as `req`. */
  lemma StoredRequestView(rows: seq<Row>, req: SettingsRequest)
    requires Lookup(rows, "source_folder") == Some(req.sourceFolder.GetOr(""))
    requires Lookup(rows, "output_folder") == Some(req.outputFolder.GetOr(""))
    requires Lookup(rows, "watch_enabled") == Some(if req.watchEnabled then "true" else "false")
    requires Lookup(rows, "output_format") == Some(req.outputFormat.GetOr(DefaultOutputFormat))
    requires Lookup(rows, "video_codec") == Some(req.videoCodec.GetOr(DefaultVideoCodec))
    requires Lookup(rows, "audio_codec") == Some(req.audioCodec.GetOr(DefaultAudioCodec))
    requires Lookup(rows, "preset") == Some(req.preset.GetOr(DefaultPreset))
    requires Lookup(rows, "crf") == Some(CrfSetting(req.crf))
    ensures ViewOf(rows) == RequestedView(req)
  {
  }

  /**
   * The table `after` as `process_job` leaves it, given the table `before`
   * it ran on `id`: the same ids, only `id` changed, every source file
   * kept; a job that existed is completed or failed, and one that was
   * pending and failed has no completion time or output.
   */
  ghost predicate Processed(before: map<int, Job>, id: int, after: map<int, Job>) {
    && after.Keys == before.Keys
    && (forall k :: k in after && k != id ==> after[k] == before[k])
    && (forall k :: k in after ==> after[k].sourceFile == before[k].sourceFile)
    && (id in before ==> after[id].status == Completed || after[id].status == Failed)
    && (id in before && before[id].status == Pending && after[id].status == Failed ==>
          after[id].completedAt.None? && after[id].outputFile.None?)
  }

  /** Starting and then finishing a well-formed job gives a `Processed` table. */
  lemma ProcessedTable(jobs: map<int, Job>, id: int, plan: Result<Plan, PlanError>, run: EncoderRun, now: nat)
    requires id in jobs && WellFormed(jobs[id], now)
    ensures Processed(jobs, id, jobs[id := Finished(Started(jobs[id], now), plan, run, now + 1)])
  {
  }

  /** Lets `FinishWith` state its result as one update of the table it was given. */
  lemma UpdateTwice(m: map<int, Job>, id: int, a: Job, b: Job)
    ensures m[id := a][id := b] == m[id := b]
  {
  }

  class Application {
    var jobs: map<int, Job>
    var nextId: nat
    var clock: nat
    const settings: SettingsTable
    var watcher: FolderWatcher?

    /**
     * Record ids are positive and below `nextId`, the id the next record
     * gets; every record is well formed at the current tick; the settings
     * keys are unique.
     */
    ghost predicate Valid()
      reads this, settings
    {
      && settings.Valid()
      && nextId >= 1
      && (forall id :: id in jobs ==> 1 <= id < nextId)
      && AllWellFormed(jobs, clock)
    }

    /** The application as `db.create_all()` leaves it: no jobs, no settings, no watcher. */
    constructor ()
      ensures Valid()
      ensures jobs == map[] && settings.rows == [] && watcher == null && fresh(settings)
    {
      jobs := map[];
      nextId := 1;
      clock := 0;
      settings := new SettingsTable();
      watcher := null;
    }

    /** `TranscodeJob(source_file=path, status='pending')` added and committed. */
    method AddJob(path: string) returns (id: int)
      requires Valid()
      modifies this
      ensures Valid()
      ensures id == old(nextId) && id !in old(jobs)
      ensures jobs == old(jobs)[id := NewJob(path, old(clock))]
      ensures nextId == old(nextId) + 1 && clock == old(clock) + 1 && watcher == old(watcher)
    {
      id := nextId;
      UpdateWellFormed(jobs, id, NewJob(path, clock), clock, clock + 1);
      jobs := jobs[id := NewJob(path, clock)];
      nextId := nextId + 1;
      clock := clock + 1;
    }

    /** The first part of `process_job`: the job is marked `processing` with its start time, and committed. */
    method BeginJob(id: int)
      requires Valid() && id in jobs
      modifies this
      ensures Valid()
      ensures jobs == old(jobs)[id := Started(old(jobs)[id], old(clock))]
      ensures clock == old(clock) + 1 && nextId == old(nextId) && watcher == old(watcher)
    {
      StartedWellFormed(jobs[id], clock);
      UpdateWellFormed(jobs, id, Started(jobs[id], clock), clock, clock + 1);
      jobs := jobs[id := Started(jobs[id], clock)];
      clock := clock + 1;
    }

    /**
     * The `try` block of `process_job` and its `except` clause: prepare
     * the output path and the encoder settings, run the encoder, relay
     * every progress value to the job, then record success or failure.
     */
    method FinishJob(id: int, run: EncoderRun)
      requires Valid() && id in jobs && jobs[id].status == Processing
      modifies this
      ensures Valid()
      ensures jobs == old(jobs)[id := Finished(old(jobs)[id], PlanJob(old(jobs)[id].sourceFile, settings.rows), run, old(clock))]
      ensures clock == old(clock) + 1 && nextId == old(nextId) && watcher == old(watcher)
    {
      var plan := PlanJob(jobs[id].sourceFile, settings.rows);
      FinishWith(id, plan, run);
    }

    /** The rest of `process_job` once the preparation has succeeded or raised. */
    method FinishWith(id: int, plan: Result<Plan, PlanError>, run: EncoderRun)
      requires Valid() && id in jobs && jobs[id].status == Processing
      modifies this
      ensures Valid()
      ensures jobs == old(jobs)[id := Finished(old(jobs)[id], plan, run, old(clock))]
      ensures clock == old(clock) + 1 && nextId == old(nextId) && watcher == old(watcher)
    {
      var j0 := jobs[id];
      var now := clock;
      match plan {
        case Failure(e) =>
          jobs := jobs[id := jobs[id].(status := Failed, errorMessage := Some(PlanErrorText(e)))];
        case Success(p) =>
          Encode(id, p, run);
      }
      FinishedWellFormed(j0, plan, run, now);
      UpdateWellFormed(old(jobs), id, Finished(j0, plan, run, now), now, now + 1);
      clock := clock + 1;
    }

    /**
     * The encoder call of `process_job` and what follows it: every
     * progress value is relayed to the job, then the job is completed
     * with its output path or marked failed with the error text.
     */
    method Encode(id: int, p: Plan, run: EncoderRun)
      requires id in jobs
      modifies this
      ensures jobs == old(jobs)[id := Finished(old(jobs)[id], Success(p), run, old(clock))]
      ensures clock == old(clock) && nextId == old(nextId) && watcher == old(watcher)
    {
      var j0 := jobs[id];
      var cmd, events, result := Transcode(j0.sourceFile, p.outputPath, p.settings, true, run);
      RelayProgress(id, events);
      var relayed := j0.(progress := LastOr(events, j0.progress));
      if result.Success? {
        jobs := jobs[id := relayed.(outputFile := Some(p.outputPath), status := Completed, progress := 100.0, completedAt := Some(clock))];
      } else {
        jobs := jobs[id := relayed.(status := Failed, errorMessage := Some(FailureText(result.error)))];
      }
      UpdateTwice(old(jobs), id, relayed, jobs[id]);
    }

    /** `progress_callback(progress)` for each value in turn: the job's progress ends at the last one. */
    method RelayProgress(id: int, events: seq<real>)
      requires id in jobs
      modifies this
      ensures jobs == old(jobs)[id := old(jobs)[id].(progress := LastOr(events, old(jobs)[id].progress))]
      ensures clock == old(clock) && nextId == old(nextId) && watcher == old(watcher)
    {
      var i := 0;
      while i < |events|
        invariant 0 <= i <= |events|
        invariant jobs == old(jobs)[id := old(jobs)[id].(progress := LastOr(events[..i], old(jobs)[id].progress))]
        invariant clock == old(clock) && nextId == old(nextId) && watcher == old(watcher)
      {
        assert events[..i + 1][..i] == events[..i];
        jobs := jobs[id := jobs[id].(progress := events[i])];
        i := i + 1;
      }
      assert events[..i] == events;
    }

    /**
     * `process_job(job_id)`: an unknown id changes nothing; otherwise the
     * job is started, then finished with what the encoder does for its
     * source file. A job that is pending when the work starts and fails
     * has no completion time.
     */
    method ProcessJob(id: int, encoder: string -> EncoderRun)
      requires Valid()
      modifies this
      ensures Valid()
      ensures id !in old(jobs) ==> jobs == old(jobs) && clock == old(clock)
      ensures id in old(jobs) ==>
        var file := old(jobs)[id].sourceFile;
        && jobs == old(jobs)[id := Finished(Started(old(jobs)[id], old(clock)), PlanJob(file, settings.rows), encoder(file), old(clock) + 1)]
        && clock == old(clock) + 2
      ensures Processed(old(jobs), id, jobs)
      ensures nextId == old(nextId) && watcher == old(watcher)
    {
      if id !in jobs {
        return;
      }
      ghost var file := jobs[id].sourceFile;
      RunJob(id, encoder);
      ProcessedTable(old(jobs), id, PlanJob(file, settings.rows), encoder(file), old(clock));
    }

    /** The body of `process_job` for a job that exists: start it, then finish it. */
    method RunJob(id: int, encoder: string -> EncoderRun)
      requires Valid() && id in jobs
      modifies this
      ensures Valid()
      ensures var file := old(jobs)[id].sourceFile;
        jobs == old(jobs)[id := Finished(Started(old(jobs)[id], old(clock)), PlanJob(file, settings.rows), encoder(file), old(clock) + 1)]
      ensures clock == old(clock) + 2 && nextId == old(nextId) && watcher == old(watcher)
    {
      var file := jobs[id].sourceFile;
      BeginJob(id);
      assert jobs[id].sourceFile == file;
      FinishJob(id, encoder(file));
    }

    /**
     * `threading.Thread(target=process_job, args=(id,)).start()`, run to
     * completion on the spot: the job ends completed or failed, keeps its
     * source file, and no other job changes.
     */
    method Dispatch(id: int, encoder: string -> EncoderRun)
      requires Valid() && id in jobs
      modifies this
      ensures Valid()
      ensures jobs.Keys == old(jobs).Keys && nextId == old(nextId) && watcher == old(watcher)
      ensures jobs[id].status == Completed || jobs[id].status == Failed
      ensures jobs[id].sourceFile == old(jobs)[id].sourceFile
      ensures forall k :: k in jobs && k != id ==> jobs[k] == old(jobs)[k]
    {
      ProcessJob(id, encoder);
    }

    /**
     * `create_job`: a missing, empty or nonexistent source file is refused
     * and nothing changes; otherwise exactly one pending job is added,
     * no existing job changes, and the new job is processed. The result
     * carries the job as first committed.
     */
    method CreateJob(sourceFile: Option<string>, existing: set<string>, encoder: string -> EncoderRun)
      returns (r: Result<(int, Job), ApiError>)
      requires Valid()
      modifies this
      ensures Valid()
      ensures (sourceFile.None? || sourceFile.value == "" || sourceFile.value !in existing) <==> r.Failure?
      ensures r.Failure? ==> r.error == SourceFileMissing && jobs == old(jobs) && clock == old(clock)
      ensures r.Success? ==>
        var (id, job) := r.value;
        && id !in old(jobs) && jobs.Keys == old(jobs).Keys + {id}
        && job == NewJob(sourceFile.value, old(clock)) && job.status == Pending && job.progress == 0.0
        && jobs[id].sourceFile == sourceFile.value
        && (forall k :: k in old(jobs) ==> jobs[k] == old(jobs)[k])
      ensures watcher == old(watcher)
    {
      if sourceFile.None? || sourceFile.value == "" || sourceFile.value !in existing {
        return Failure(SourceFileMissing);
      }
      var id := AddJob(sourceFile.value);
      var job := jobs[id];
      Dispatch(id, encoder);
      r := Success((id, job));
    }

    /** `delete_job`: an unknown id or a job in progress is refused and nothing changes; otherwise only that job goes. */
    method DeleteJob(id: int) returns (r: Outcome<ApiError>)
      requires Valid()
      modifies this
      ensures Valid()
      ensures id !in old(jobs) ==> r == Fail(JobNotFound) && jobs == old(jobs)
      ensures id in old(jobs) && old(jobs)[id].status == Processing ==> r == Fail(JobInProgress) && jobs == old(jobs)
      ensures id in old(jobs) && old(jobs)[id].status != Processing ==> r == Pass && jobs == old(jobs) - {id}
      ensures clock == old(clock) && nextId == old(nextId) && watcher == old(watcher)
    {
      if id !in jobs {
        return Fail(JobNotFound);
      }
      if jobs[id].status == Processing {
        return Fail(JobInProgress);
      }
      jobs := jobs - {id};
      r := Pass;
    }

    /**
     * `scan_folder`: refused when no source folder is saved or it does not
     * exist. Otherwise one pending job is created for every new file of
     * the walk, in walk order, with fresh ids; the jobs are then processed
     * one by one; the reported count is the number of jobs created; jobs
     * that existed before are untouched.
     */
    method ScanFolder(existing: set<string>, walk: seq<WalkEntry>, encoder: string -> EncoderRun)
      returns (r: Result<ScanReport, ApiError>)
      requires Valid()
      modifies this
      ensures Valid()
      ensures (settings.Get("source_folder").None? || settings.Get("source_folder").value == "" ||
               settings.Get("source_folder").value !in existing) <==> r.Failure?
      ensures r.Failure? ==> r.error == ScanFolderUnavailable && jobs == old(jobs) && clock == old(clock)
      ensures r.Success? ==> r.value.message == ScanMessage(|r.value.created|)
      ensures r.Success? ==> ScanCreated(old(jobs), NewFiles(walk, old(jobs)), r.value.created, jobs)
      ensures watcher == old(watcher)
    {
      var sourceFolder := settings.Get("source_folder");
      if sourceFolder.None? || sourceFolder.value == "" || sourceFolder.value !in existing {
        return Failure(ScanFolderUnavailable);
      }
      var newFiles := FindNewFiles(walk, jobs);
      var created := AddPendingJobs(newFiles);
      ghost var added, afterAdd := jobs, nextId;
      ProcessCreated(created, newFiles, encoder);
      ScanCreatedFrom(old(jobs), old(clock), newFiles, created, added, afterAdd, jobs);
      r := Success(ScanReport(ScanMessage(|newFiles|), created));
    }
  
    /** The loop of `scan_folder` that adds one pending job per new file, in order. */
    method AddPendingJobs(paths: seq<string>) returns (created: seq<(int, Job)>)
      requires Valid()
      modifies this
      ensures Valid() && watcher == old(watcher)
      ensures |created| == |paths|
      ensures forall k :: 0 <= k < |created| ==>
        && created[k].0 !in old(jobs) && created[k].0 in jobs
        && created[k].1 == jobs[created[k].0] && created[k].1 == NewJob(paths[k], old(clock) + k)
      ensures forall k, m :: 0 <= k < m < |created| ==> created[k].0 < created[m].0
      ensures jobs.Keys == old(jobs).Keys + IdSet(created)
      ensures forall k :: k in old(jobs) ==> jobs[k] == old(jobs)[k]
      ensures PendingAdded(old(jobs), old(clock), paths, created, jobs, nextId)
    {
      created := [];
      var i := 0;
      while i < |paths|
        invariant 0 <= i <= |paths|
        invariant Valid() && watcher == old(watcher)
        invariant |created| == i && clock == old(clock) + i
        invariant PendingAdded(old(jobs), old(clock), paths, created, jobs, nextId)
      {
        ghost var before, prev := jobs, created;
        ghost var job := NewJob(paths[i], old(clock) + i);
        var id := AddJob(paths[i]);
        PendingAddedStep(old(jobs), old(clock), paths, prev, before, id);
        created := created + [(id, jobs[id])];
        assert jobs == before[id := job] && created == prev + [(id, job)] && nextId == id + 1;
        i := i + 1;
      }
    }

    /** The loop of `scan_folder` that starts the work on each created job, in order. */
    method ProcessCreated(created: seq<(int, Job)>, paths: seq<string>, encoder: string -> EncoderRun)
      requires Valid() && |created| == |paths|
      requires forall k :: 0 <= k < |created| ==> created[k].0 in jobs && jobs[created[k].0].sourceFile == paths[k]
      modifies this
      ensures Valid() && watcher == old(watcher) && jobs.Keys == old(jobs).Keys
      ensures forall k :: k in old(jobs) && k !in IdSet(created) ==> jobs[k] == old(jobs)[k]
      ensures forall k :: 0 <= k < |created| ==> jobs[created[k].0].sourceFile == paths[k]
      ensures forall k :: 0 <= k < |created| ==>
        jobs[created[k].0].status == Completed || jobs[created[k].0].status == Failed
      ensures Settled(created, paths, old(jobs), jobs, |created|)
    {
      var d := 0;
      while d < |created|
        invariant 0 <= d <= |created|
        invariant Valid() && watcher == old(watcher)
        invariant Settled(created, paths, old(jobs), jobs, d)
      {
        ghost var before := jobs;
        var id := created[d].0;
        Dispatch(id, encoder);
        SettledStep(created, paths, old(jobs), before, jobs, d);
        d := d + 1;
      }
    }

    /**
     * `on_new_file(path)`: a path that already has a record of any status
     * changes nothing; otherwise one pending job is added for it and
     * processed. Either way a record for the path exists afterwards.
     */
    method OnNewFile(path: string, encoder: string -> EncoderRun)
      requires Valid()
      modifies this
      ensures Valid() && watcher == old(watcher)
      ensures Recorded(jobs, path)
      ensures Recorded(old(jobs), path) ==> jobs == old(jobs) && clock == old(clock)
      ensures !Recorded(old(jobs), path) ==>
        && old(nextId) !in old(jobs) && jobs.Keys == old(jobs).Keys + {old(nextId)}
        && jobs[old(nextId)].sourceFile == path
        && (forall k :: k in old(jobs) ==> jobs[k] == old(jobs)[k])
    {
      if !Recorded(jobs, path) {
        var id := AddJob(path);
        Dispatch(id, encoder);
      }
    }

    /** Two `on_new_file` calls for the same path add at most one job. */
    method OnNewFileTwice(path: string, encoder: string -> EncoderRun)
      requires Valid()
      modifies this
      ensures Valid()
      ensures |jobs| <= old(|jobs|) + 1
      ensures Recorded(old(jobs), path) ==> jobs == old(jobs)
    {
      OnNewFile(path, encoder);
      assert |jobs.Keys| <= |old(jobs).Keys| + 1;
      ghost var afterFirst := jobs;
      OnNewFile(path, encoder);
      assert jobs == afterFirst;
    }

    /**
     * A file-creation event reaching the running watcher: the handler
     * decides whether to call `on_new_file`, which never raises.
     */
    method DeliverEvent(event: CreatedEvent, existing: set<string>, encoder: string -> EncoderRun)
      returns (delivered: bool)
      requires Valid() && watcher != null && watcher.handler != null
      modifies this, watcher.handler
      ensures Valid() && watcher == old(watcher)
      ensures delivered <==> Delivers(event, watcher.handler.videoExtensions, existing, old(watcher.handler.processingFiles))
      ensures watcher.handler.processingFiles == old(watcher.handler.processingFiles)
      ensures !delivered ==> jobs == old(jobs)
      ensures delivered ==> Recorded(jobs, event.srcPath)
      ensures delivered && Recorded(old(jobs), event.srcPath) ==> jobs == old(jobs)
    {
      var handler := watcher.handler;
      var outcome, held := handler.OnCreated(event, existing, false);
      delivered := outcome.Delivered?;
      if delivered {
        OnNewFile(outcome.path, encoder);
      }
    }

    /** `get_settings`. */
    function GetSettings(): (v: SettingsView)
      reads this, settings
      ensures v == ViewOf(settings.rows)
      ensures v.watchEnabled <==> settings.Get("watch_enabled") == Some("true")
    {
      ViewOf(settings.rows)
    }

    /** The job counts of `get_status`, and the watch flag as `get_settings` reads it. */
    function GetStatus(): (s: StatusReport)
      reads this, settings
      ensures s.totalJobs == |jobs|
      ensures s.pendingJobs + s.processingJobs + s.completedJobs + s.failedJobs == s.totalJobs
      ensures s.pendingJobs == |set id | id in jobs && jobs[id].status == Pending|
      ensures s.processingJobs == |set id | id in jobs && jobs[id].status == Processing|
      ensures s.completedJobs == |set id | id in jobs && jobs[id].status == Completed|
      ensures s.failedJobs == |set id | id in jobs && jobs[id].status == Failed|
      ensures s.watchEnabled <==> settings.Get("watch_enabled") == Some("true")
    {
      StatusCountsAddUp(jobs);
      StatusReport(
        |jobs|,
        CountWith(jobs, Pending),
        CountWith(jobs, Processing),
        CountWith(jobs, Completed),
        CountWith(jobs, Failed),
        settings.GetValue("watch_enabled", "false") == "true")
    }

    /**
     * `update_settings`: a non-empty source folder that does not exist is
     * refused, then a non-empty output folder that does not exist and
     * cannot be created (`makedirsError` is the reason `os.makedirs`
     * gives); a refusal writes nothing and keeps the watcher. Otherwise the
     * eight settings are saved, and a fresh running watcher on the source
     * folder replaces any previous one exactly when watching is requested
     * and the source folder is not empty; a previous watcher is stopped
     * in every case.
     */
    method UpdateSettings(req: SettingsRequest, existing: set<string>, makedirsError: Option<string>)
      returns (r: Outcome<ApiError>)
      requires Valid()
      modifies this, settings, watcher
      ensures Valid()
      ensures jobs == old(jobs) && clock == old(clock) && nextId == old(nextId)
      ensures var source := req.sourceFolder.GetOr("");
        source != "" && source !in existing ==> r == Fail(SourceFolderMissing)
      ensures var source, output := req.sourceFolder.GetOr(""), req.outputFolder.GetOr("");
        !(source != "" && source !in existing) && output != "" && output !in existing && makedirsError.Some? ==>
          r == Fail(OutputFolderUncreatable(makedirsError.value))
      ensures r.Fail? ==> settings.rows == old(settings.rows) && watcher == old(watcher)
      ensures r.Fail? && old(watcher) != null ==> watcher.observer == old(watcher.observer) && watcher.handler == old(watcher.handler)
      ensures var source, output := req.sourceFolder.GetOr(""), req.outputFolder.GetOr("");
        r == Pass <==> !(source != "" && source !in existing) && !(output != "" && output !in existing && makedirsError.Some?)
      ensures r == Pass ==> GetSettings() == RequestedView(req)
      ensures r == Pass ==> forall k :: k !in SettingsKeys ==> settings.Get(k) == old(settings.Get(k))
      ensures r == Pass ==> (watcher != null <==> req.watchEnabled && req.sourceFolder.GetOr("") != "")
      ensures r == Pass && watcher != null ==>
        fresh(watcher) && watcher.folderPath == req.sourceFolder.GetOr("") && watcher.IsRunning()
      ensures r == Pass && watcher != null ==>
        && watcher.handler != null && fresh(watcher.handler)
        && watcher.handler.videoExtensions == DefaultVideoExtensions && watcher.handler.processingFiles == {}
      ensures r == Pass && old(watcher) != null ==>
        old(watcher).observer == if old(watcher.observer) == Unset then Unset else Joined
    {
      var sourceFolder := req.sourceFolder.GetOr("");
      var outputFolder := req.outputFolder.GetOr("");
      if sourceFolder != "" && sourceFolder !in existing {
        return Fail(SourceFolderMissing);
      }
      if outputFolder != "" && outputFolder !in existing && makedirsError.Some? {
        return Fail(OutputFolderUncreatable(makedirsError.value));
      }
      SaveSettings(req);
      ReplaceWatcher(req.watchEnabled && sourceFolder != "", sourceFolder, existing);
      r := Pass;
    }
  
    /** The eight `Settings.set_value` calls of `update_settings`, in source order. */
    method SaveSettings(req: SettingsRequest)
      requires settings.Valid()
      modifies settings
      ensures settings.Valid()
      ensures ViewOf(settings.rows) == RequestedView(req)
      ensures forall k :: k !in SettingsKeys ==> settings.Get(k) == old(settings.Get(k))
    {
      var sourceFolder := req.sourceFolder.GetOr("");
      var outputFolder := req.outputFolder.GetOr("");
      var watchEnabled := if req.watchEnabled then "true" else "false";
      var outputFormat := req.outputFormat.GetOr(DefaultOutputFormat);
      var videoCodec := req.videoCodec.GetOr(DefaultVideoCodec);
      var audioCodec := req.audioCodec.GetOr(DefaultAudioCodec);
      var preset := req.preset.GetOr(DefaultPreset);
      var crf := CrfSetting(req.crf);
      SaveFolderSettings(sourceFolder, outputFolder, watchEnabled, outputFormat);
      ghost var folders := settings.rows;
      SaveEncoderSettings(videoCodec, audioCodec, preset, crf);
      FolderKeysNotEncoderKeys();
      assert Lookup(settings.rows, "source_folder") == Lookup(folders, "source_folder") == Some(sourceFolder);
      assert Lookup(settings.rows, "output_folder") == Lookup(folders, "output_folder") == Some(outputFolder);
      assert Lookup(settings.rows, "watch_enabled") == Lookup(folders, "watch_enabled") == Some(watchEnabled);
      assert Lookup(settings.rows, "output_format") == Lookup(folders, "output_format") == Some(outputFormat);
      StoredRequestView(settings.rows, req);
    }

    /** The first four `set_value` calls: the folders, the watch flag and the output format. */
    method SaveFolderSettings(sourceFolder: string, outputFolder: string, watchEnabled: string, outputFormat: string)
      requires settings.Valid()
      modifies settings
      ensures settings.Valid()
      ensures settings.Get("source_folder") == Some(sourceFolder)
      ensures settings.Get("output_folder") == Some(outputFolder)
      ensures settings.Get("watch_enabled") == Some(watchEnabled)
      ensures settings.Get("output_format") == Some(outputFormat)
      ensures forall k :: k != "source_folder" && k != "output_folder" && k != "watch_enabled" && k != "output_format" ==>
        settings.Get(k) == old(settings.Get(k))
    {
      FolderKeysDiffer();
      SavePair("source_folder", sourceFolder, "output_folder", outputFolder);
      SavePair("watch_enabled", watchEnabled, "output_format", outputFormat);
    }

    /** Two `set_value` calls in a row, for two different keys. */
    method SavePair(key1: string, value1: string, key2: string, value2: string)
      requires settings.Valid() && key1 != key2
      modifies settings
      ensures settings.Valid()
      ensures settings.Get(key1) == Some(value1) && settings.Get(key2) == Some(value2)
      ensures forall k :: k != key1 && k != key2 ==> settings.Get(k) == old(settings.Get(k))
    {
      settings.SetValue(key1, value1);
      settings.SetValue(key2, value2);
    }

    /** The last four `set_value` calls: the encoder settings. */
    method SaveEncoderSettings(videoCodec: string, audioCodec: string, preset: string, crf: string)
      requires settings.Valid()
      modifies settings
      ensures settings.Valid()
      ensures settings.Get("video_codec") == Some(videoCodec)
      ensures settings.Get("audio_codec") == Some(audioCodec)
      ensures settings.Get("preset") == Some(preset)
      ensures settings.Get("crf") == Some(crf)
      ensures forall k :: k != "video_codec" && k != "audio_codec" && k != "preset" && k != "crf" ==>
        settings.Get(k) == old(settings.Get(k))
    {
      SavePair("video_codec", videoCodec, "audio_codec", audioCodec);
      SavePair("preset", preset, "crf", crf);
    }

    /**
     * The watcher rule of `update_settings`: any previous watcher is
     * stopped; a fresh one is started on `folder` when `wanted`, and
     * otherwise none is kept.
     */
    method ReplaceWatcher(wanted: bool, folder: string, existing: set<string>)
      requires folder in existing || !wanted
      modifies this, watcher
      ensures jobs == old(jobs) && clock == old(clock) && nextId == old(nextId)
      ensures watcher != null <==> wanted
      ensures watcher != null ==> fresh(watcher) && watcher.folderPath == folder && watcher.IsRunning()
      ensures watcher != null ==>
        && watcher.handler != null && fresh(watcher.handler)
        && watcher.handler.videoExtensions == DefaultVideoExtensions && watcher.handler.processingFiles == {}
      ensures old(watcher) != null ==>
        old(watcher).observer == if old(watcher.observer) == Unset then Unset else Joined
    {
      if wanted {
        if watcher != null {
          watcher.Stop();
        }
        var replacement := new FolderWatcher(folder);
        var started := replacement.Start(existing);
        watcher := replacement;
      } else if watcher != null {
        watcher.Stop();
        watcher := null;
      }
    }
  }
}
