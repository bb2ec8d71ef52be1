# Video transcoder orchestration, modelled in Dafny

This project models the orchestration core of a small video transcoder. The
transcoder is a Flask application that keeps encode jobs in a database and
hands each job to ffmpeg. A folder watcher feeds it newly created files.

The model has three parts.

- **Job lifecycle and job store** (`app.py`).
  - `jobs.dfy` holds the `TranscodeJob` record and its well-formedness
    invariant. It also holds the pure parts of `process_job`: the output
    path, the encoder settings read from the settings table, and the
    finished record. The `scan_folder` file filter is here too.
  - `settings.dfy` holds the `Settings` key/value table.
  - `app.dfy` holds the application state as a class. It has the job map,
    the next id, a logical clock, the settings table and the global watcher.
    Each HTTP endpoint is a method that returns a result value.
- **Encoder adapter** (`app/transcoder.py`): `transcoder.dfy`.
  - It models the fixed ffmpeg argument vector and the settings defaults.
  - It models the `out_time_ms=` progress parser and the clamp to 100.
  - It models the exit-code rule and the final 100.0 event.
  - The subprocess is an input value: the probe's answer, then either a
    spawn failure or the output lines and the exit code. The progress
    callback becomes the sequence of values it receives.
- **Folder watcher** (`app/watcher.py`): `watcher.dfy`. It models
  `VideoFileHandler.on_created` with its in-flight set, and `FolderWatcher`
  as a small state machine over its observer.

`numerals.dfy` and `paths.dfy` define the Python behaviour the core relies
on:

- `str(int)` and `int(str)`;
- `pathlib`'s `name`, `suffix` and `stem`;
- `os.path.join`;
- ASCII `str.lower`.

`results.dfy` holds the Option and Result wrappers.

The modelling choices:

- Threads become direct calls. Each `threading.Thread(target=process_job)`
  becomes a call of `Application.Dispatch`, made where the source starts
  the thread. `Dispatch` runs `process_job` to completion.
- `process_job` is split into `BeginJob` and `FinishJob`. The split exposes
  the `processing` state, which is where `delete_job` refuses to act.
- The file system is a `set<string>` of existing paths. `os.walk` is a given
  sequence of (directory, file names) entries.
- The encoder's behaviour for each source file is a function parameter.
- Timestamps are ticks of a clock that only moves forward.
- Job ids come from a counter that starts at 1.

In these places the code does something a reader might not expect, and
the model follows the code:

- `create_job` does no duplicate check.
- A failed job gets no completion time. `process_job`'s `except` branch only
  sets `status` and `error_message`.
- `scan_folder` skips a path that has a record of any status. It does not
  check for a live job only.
- `scan_folder` looks for 8 extensions. The watcher's default set has 10.
- The watcher's in-flight set only keeps apart calls that overlap in time.
  Sequential events for the same path are each delivered
  (`Watcher.RepeatedEvent`). The job store's lookup in `on_new_file` is what
  stops a second job (`App.Application.OnNewFileTwice`).

## Model

| member | source | states |
|---|---|---|
| `Numerals.IntToString` | app/transcoder.py:46 | `str(n)` of an int is non-empty and starts with `-` exactly when `n` is negative |
| `Numerals.NatToString` | app.py:219 | `str(n)` of a natural is a digit run without leading zeros whose decimal value is `n` |
| `Numerals.ParseIntOfIntToString` | app.py:269 | `int(str(n)) == n` for every integer, so a numeric quality value saved as text reads back unchanged |
| `Numerals.ParseInt` | app.py:269 | `int()` accepts only text whose stripped form ends in a digit; a negative result needs a leading `-`; a text without any digit is refused |
| `Numerals.ParseIntOfNegative` | app.py:269 | `int(str(n)) == n` for every negative `n`: a minus sign then the digits of `-n` |
| `Numerals.ParseIntOfDigits` | app.py:269 | `int()` of a plain non-empty digit run is its decimal value |
| `Paths.Lower` | app.py:198 | `str.lower` keeps the length, leaves no ASCII capital, and changes only capitals, each to its lower-case letter |
| `Paths.Name` | app.py:260 | the name of a path holds no separator and is never `.` |
| `Paths.NameOfPlainComponent` | app.py:199 | a path that ends with a plain component after a separator, or is that component alone, has that component as its name |
| `Paths.LastIndexOf` | app.py:198 | `rfind` inside `Path.suffix` and `Path.stem`: the index of the last occurrence of the character, or -1 when there is none |
| `Paths.LastIndexBefore` | app.py:198 | finds the last position below a bound that holds the given character, or reports that none does |
| `Paths.NameSuffix` | app.py:198 | the suffix of a file name is empty or a dot followed by a dot-free extension, and ends the name; it is empty exactly when the name is shorter than two characters, has no dot after its first character, or ends with a dot |
| `Paths.LastDotAndExtension` | app.py:198 | the last dot of a name splits off an extension exactly when the name is not one of the extension-less forms |
| `Paths.NoSuffixUnder` | app.py:198-199 | a plain file name without an extension has an empty suffix under any folder |
| `Paths.NameStem` | app.py:261 | the stem of a name followed by its suffix gives back the name |
| `Paths.Suffix` | app/watcher.py:25 | `Path(p).suffix` is empty or `.ext` with no further dot, and ends `Path(p).name`; it is empty exactly when the name has no extension |
| `Paths.Stem` | app.py:260-261 | `Path(p).stem + Path(p).suffix == Path(p).name` |
| `Paths.Join` | app.py:199 | `os.path.join(a, b)` ends with `b`; an absolute `b` replaces `a`; otherwise `b` follows `a`, with one separator between them unless `a` is empty or already ends with one |
| `Paths.NameOfJoin` | app.py:262 | joining a folder and a plain file name gives a path whose name is that file name |
| `Paths.SuffixOfName` | app.py:198 | a name `stem.ext` with a non-empty stem has the suffix `.ext` |
| `Paths.StemOfName` | app.py:261 | a name `stem.ext` with a non-empty stem has the stem `stem` |
| `Settings.IndexOf` | app.py:58 | `filter_by(key=key).first()` finds the first row with that key, or reports that no row has it |
| `Settings.ValueOr` | app.py:57-59 | `get_value(k, d)` is the stored value when `k` has a row and `d` otherwise |
| `Settings.LookupAt` | app.py:53 | with unique keys, every row is the one found for its key |
| `Settings.LookupAfterOverwrite` | app.py:64-65 | overwriting a row keeps keys unique; that key reads the new value and every other key reads as before |
| `Settings.LookupAfterAppend` | app.py:66-68 | adding a row for a new key keeps keys unique; that key reads the new value and every other key reads as before |
| `Settings.SettingsTable.constructor` | app.py:51-54 | the table starts empty with unique keys |
| `Settings.SettingsTable.GetValue` | app.py:56-59 | `get_value(k, d)` returns `d` when `k` is absent and the stored value otherwise |
| `Settings.SettingsTable.SetValue` | app.py:61-69 | after `set_value(k, v)`, `k` reads `v` and every other key reads as before; keys stay unique; the table grows by one row only for a new key |
| `Transcoder.Resolve` | app/transcoder.py:35-38 | each missing setting takes its default (`libx264`, `aac`, `medium`, 23) and each present setting is kept |
| `Transcoder.Command` | app/transcoder.py:41-53 | the argument vector has 19 elements, the input at index 2 and the output last |
| `Transcoder.CommandRoundTrip` | app/transcoder.py:41-53 | the argument vector is exactly the fixed flags (`192k`, `+faststart`, `-y`, `-progress pipe:1` included) around the input, the output and the parameters, and all of them can be read back from it |
| `Transcoder.ProbeDuration` | app/transcoder.py:15-23 | the duration is the probed one, or 0 when the probe failed |
| `Transcoder.FirstMatchFrom` | app/transcoder.py:70 | finds the leftmost position from which `out_time_ms=` followed by a digit matches, or reports that none does |
| `Transcoder.DigitRun` | app/transcoder.py:70 | `\d+` takes the longest digit run at a position |
| `Transcoder.OutTimeMicros` | app/transcoder.py:70-72 | a line yields a time exactly when `out_time_ms=` followed by a digit occurs in it; the time is the value of the whole digit run at the first such occurrence |
| `Transcoder.Percent` | app/transcoder.py:72-73 | the progress value is `min(100, micros / 1e6 / duration * 100)` and lies in [0, 100] |
| `Transcoder.LineEvent` | app/transcoder.py:68-74 | a line reports progress exactly when there is a callback, the duration is positive and the pattern matches in the line; the value lies in [0, 100] |
| `Transcoder.LineEvents` | app/transcoder.py:67-74 | the line loop reports at most one value per line, each in [0, 100] |
| `Transcoder.LineEventsStep` | app/transcoder.py:67-74 | one more line adds that line's event, if any, after the events of the lines before it |
| `Transcoder.FailureText` | app/transcoder.py:78-79 | a spawn error's text is passed on as it is; a non-zero exit gives a text that starts with `FFmpeg failed with return code ` and goes on past it |
| `Transcoder.Events` | app/transcoder.py:58-82 | a spawn failure reports nothing; a run reports at most one value per line plus the final one; every value the callback receives lies in [0, 100] |
| `Transcoder.ExitResult` | app/transcoder.py:76-84 | success with the output path exactly when ffmpeg exited with code 0; a non-zero code is a failure carrying that code; a spawn error is a failure of its own kind |
| `Transcoder.FailureTextNamesCode` | app/transcoder.py:79 | the failure message starts with `FFmpeg failed with return code ` and the exit code can be read back from its remainder |
| `Transcoder.Transcode` | app/transcoder.py:25-84 | the line loop reports progress events; the method returns the command, those events and the exit-code result; every event is in [0, 100]; a success with a callback ends with 100.0 |
| `Transcoder.LineEventsAppend` | app/transcoder.py:67-74 | events follow line order: the events of two stretches of output are those of the first, then those of the second |
| `Transcoder.NoLineEventsWithoutCallbackOrDuration` | app/transcoder.py:68 | without a callback or without a positive duration the line loop reports nothing |
| `Transcoder.ProbeFailureReportsOnlyCompletion` | app/transcoder.py:15-23 | a failed probe makes the duration 0; a successful run then reports exactly one 100.0 with a callback and nothing without one |
| `Transcoder.SuccessEndsWithOneCompletionEvent` | app/transcoder.py:81-84 | exit code 0 with a callback reports the line events, then exactly one 100.0 |
| `Transcoder.FailureHasNoCompletionEvent` | app/transcoder.py:76-79 | a non-zero exit reports only the line events, with no final 100.0 |
| `Watcher.EffectiveExtensions` | app/watcher.py:13-16 | a missing or empty extension set falls back to the 10 defaults; a non-empty set is used as given |
| `Watcher.IsVideoPath` | app/watcher.py:25-28 | with no empty extension in the set, a path passes only when its name has an extension |
| `Watcher.Delivers` | app/watcher.py:19-40 | with no empty extension in the set, a delivered path always has a non-empty suffix, so a name without an extension is never delivered |
| `Watcher.VideoFileHandler.constructor` | app/watcher.py:11-17 | a new handler has the effective extension set and an empty in-flight set |
| `Watcher.VideoFileHandler.OnCreated` | app/watcher.py:19-40 | the callback runs at most once, exactly when the event is for a file, its lower-cased suffix is a video extension, the path exists, and the path is not in flight; the path is in the in-flight set while the callback runs; the set is restored afterwards, also when the callback raises |
| `Watcher.RepeatedEvent` | app/watcher.py:33-40 | two sequential events for the same path are both delivered when the first is |
| `Watcher.DirectoriesNeverDelivered` | app/watcher.py:21-22 | directory events never reach the callback |
| `Watcher.UpperCaseSuffixPasses` | app/watcher.py:25-28 | the extension test ignores case: `.MP4` passes the default set |
| `Watcher.FolderWatcher.constructor` | app/watcher.py:46-50 | a new watcher has no observer and no handler |
| `Watcher.FolderWatcher.Start` | app/watcher.py:52-61 | a missing folder is refused and leaves observer and handler as they were; otherwise a fresh handler with the default extensions and a running observer are installed, and the watcher reports itself running |
| `Watcher.FolderWatcher.Stop` | app/watcher.py:63-68 | stops and joins an observer that is set; does nothing when none is set; afterwards the watcher is not running |
| `Watcher.FolderWatcher.IsRunning` | app/watcher.py:70-72 | running means an observer is set and has not been joined |
| `Jobs.NewJob` | app.py:27-36 | a new record is `pending` with progress 0, a creation time, and no output, error, start or completion |
| `Jobs.UpdateWellFormed` | app.py:27-36 | storing a well-formed record keeps the whole job table well formed as the clock moves on |
| `Jobs.OutputFileName` | app.py:261 | the output file name ends with `_transcoded.` and the format, and for a format without `/` it is a single path component |
| `Jobs.OutputPath` | app.py:256-262 | the output path ends with `stem + "_transcoded." + format`, and so with `"_transcoded." + format` |
| `Jobs.OutputPathParts` | app.py:259-262 | for a plain format the output path is named `stem_transcoded.format`; its suffix is `.format` and its stem is the source stem plus `_transcoded` |
| `Jobs.PlanJob` | app.py:255-270 | preparation fails when no output folder is saved or the quality text is not an integer; otherwise it yields the joined output path (format default `mp4`) and the codec settings with their defaults |
| `Jobs.PlanErrorText` | app.py:291-293 | the failure text of an unset output folder is the `NoneType` message of `os.path.join`; that of a bad quality value is the `int()` message quoting the text |
| `Jobs.UnsetCrfIsDefault` | app.py:269 | with no quality value saved, the encoder gets quality 23 |
| `Jobs.LastOr` | app.py:275-277 | the progress the callback leaves is the last value reported, or the earlier progress when none was reported |
| `Jobs.Started` | app.py:251-253 | the job becomes `processing` with its start time set, and nothing else changes |
| `Jobs.Finished` | app.py:255-295 | the job ends `completed` exactly when preparation and encoding succeed, with the output file, progress 100 and a completion time; otherwise it ends `failed` with the error text, its progress at the last reported value, and no new completion time or output |
| `Jobs.StartedWellFormed` | app.py:251-253 | starting a well-formed job keeps it well formed |
| `Jobs.FinishedWellFormed` | app.py:255-295 | finishing a processing job keeps it well formed: a completed job has an output and progress 100, a failed job has an error, progress stays in [0, 100] |
| `Jobs.Recorded` | app.py:201-202 | a path has a record exactly when it is one of the job table's source files |
| `Jobs.RecordedAfterAdd` | app.py:301-305 | once a job is added under a new id, a path has a record exactly when it is that job's source file or had one before |
| `Jobs.IsScanVideo` | app.py:198 | a file passes the scan filter only when its name has an extension, since no scan extension is empty |
| `Jobs.NewFileOf` | app.py:198-203 | one listed file contributes at most its joined path, and only when no record holds it |
| `Jobs.NewFilesIn` | app.py:197-203 | one directory contributes at most one path per listed file, none of them recorded |
| `Jobs.NewFiles` | app.py:196-203 | no path of `new_files` has a record |
| `Jobs.CheckFile` | app.py:198-203 | the body of the inner loop adds exactly the path `NewFileOf` gives |
| `Jobs.WalkedBySnoc` | app.py:196 | a path is walked by a longer walk exactly when the shorter walk or the added directory lists it |
| `Jobs.NewFilesInIff` | app.py:197-203 | one directory contributes exactly its listed video files that have no record |
| `Jobs.NewFilesIff` | app.py:193-203 | `new_files` holds exactly the walked files with one of the 8 scan extensions, in any case, that no record of any status holds |
| `Jobs.FindNewFiles` | app.py:196-203 | the walk loop collects `NewFiles` of the walk, and each collected path is walked and unrecorded |
| `Jobs.FindNewFilesIn` | app.py:197-203 | the inner loop collects the new files of one directory in listing order |
| `Jobs.CountWith` | app.py:227-230 | a per-status count never exceeds the number of jobs |
| `Jobs.StatusCountsAddUp` | app.py:226-230 | the four per-status counts add up to the total |
| `App.CrfSetting` | app.py:122 | a numeric quality value is saved as text that `int()` reads back as that number; with no value the text is the text of 23 |
| `App.ViewOf` | app.py:80-92 | `get_settings` reports watching on exactly when `watch_enabled` is saved as `true`; each of the other seven keys shows its stored value, or its default (`''`, `mp4`, `libx264`, `aac`, `medium`, `23`) when missing |
| `App.StoredRequestView` | app.py:114-122 | rows holding the eight values saved for a request read back through `get_settings` as that request |
| `App.ScanMessage` | app.py:219 | the message is `Found `, the count, ` new files`, and the count reads back from its middle |
| `App.SavedSettingsPlan` | app.py:114-122 | once an output folder and a numeric quality are saved, `process_job` prepares every job with that folder and that number |
| `App.PendingAddedStep` | app.py:207-210 | adding the pending job for the next path under the next id keeps the created jobs fresh, increasing, one per path in order, and every earlier record unchanged |
| `App.SettledStep` | app.py:215-216 | processing the next created job, and changing no other job, leaves one more created job completed or failed |
| `App.ScanCreatedFrom` | app.py:205-216 | adding one pending job per new file and then processing each leaves one job per file, in order, under fresh increasing ids, each completed or failed, with the table grown by exactly that many jobs and every earlier job untouched |
| `App.IdSetSize` | app.py:206-210 | jobs created with increasing ids have distinct ids |
| `App.Application.constructor` | app.py:71-73 | the application starts with no jobs, no settings and no watcher |
| `App.Application.AddJob` | app.py:163-165 | adds one new `pending` record under a fresh id and changes no other record |
| `App.Application.BeginJob` | app.py:251-253 | marks the job `processing` with its start time |
| `App.Application.FinishJob` | app.py:255-295 | the job ends as `Finished` describes for the prepared plan and the encoder's run |
| `App.Application.FinishWith` | app.py:255-295 | the rest of `process_job` once preparation has succeeded or raised |
| `App.Application.Encode` | app.py:273-289 | relays every progress value to the job, then completes it or records the failure |
| `App.Application.RelayProgress` | app.py:275-277 | after the callbacks the job's progress is the last value reported, and nothing else changes |
| `App.Application.ProcessJob` | app.py:244-295 | an unknown id changes nothing; otherwise the job is started, then finished; it ends completed or failed; a job that was pending and fails has no completion time or output; no other job changes |
| `App.Application.RunJob` | app.py:251-295 | for a job that exists, the table afterwards is the one where that job is started, then finished with the prepared plan and the encoder's run for its source file; the clock moves two ticks |
| `App.ProcessedTable` | app.py:251-295 | starting then finishing one well-formed job keeps the ids and every source file, changes no other job, ends the job completed or failed, and leaves a pending job that fails with no completion time or output |
| `App.Application.Dispatch` | app.py:168 | the background run ends the job completed or failed, keeps its source file, and changes no other job |
| `App.Application.CreateJob` | app.py:155-170 | a missing, empty or nonexistent source is refused and nothing changes; otherwise exactly one pending job with progress 0 is added, with no duplicate check, and no existing job changes |
| `App.Application.DeleteJob` | app.py:173-183 | an unknown id or a `processing` job is refused and nothing changes; otherwise exactly that job is removed |
| `App.Application.ScanFolder` | app.py:186-221 | refused when the source folder is unset, empty or missing; otherwise one pending job per new file, in walk order, with fresh increasing ids, each then processed to completed or failed; the message `Found n new files` names the number created, which is the number of new files; existing jobs are untouched |
| `App.Application.AddPendingJobs` | app.py:206-212 | adds one pending record per path, in order, under fresh increasing ids |
| `App.Application.ProcessCreated` | app.py:215-216 | every created job ends completed or failed; jobs not created by the scan are untouched |
| `App.Application.OnNewFile` | app.py:297-308 | a path with a record of any status changes nothing; otherwise exactly one job is added for it; either way the path has a record afterwards |
| `App.Application.OnNewFileTwice` | app.py:301-305 | two calls with the same path add at most one job |
| `App.Application.DeliverEvent` | app/watcher.py:33-40 | a watcher event reaches `on_new_file` exactly when the handler delivers it; a skipped event changes no job |
| `App.Application.GetSettings` | app.py:80-92 | the answer is the eight-key view of the settings table; watching is reported on exactly when `watch_enabled` is saved as `true` |
| `App.Application.GetStatus` | app.py:223-241 | the total is the number of jobs; each per-status count is the number of jobs with that status; the four add up to the total; the watch flag is read as `get_settings` reads it |
| `App.Application.UpdateSettings` | app.py:95-134 | a non-empty missing source folder, then an uncreatable output folder, is refused before anything is written; on success the eight settings read back as requested; a refusal keeps the watcher, its observer and its handler; on success a watcher exists afterwards exactly when watching is on and the source folder is non-empty, and it is fresh, running, on the source folder, with a fresh handler for the default extensions; any previous watcher is stopped |
| `App.Application.SaveSettings` | app.py:114-122 | the eight `set_value` calls leave `get_settings` reporting the request, with its defaults, and no other key changes |
| `App.Application.SaveFolderSettings` | app.py:115-118 | the folder, watch-flag and format keys read the new values and no other key changes |
| `App.Application.SaveEncoderSettings` | app.py:119-122 | the codec, preset and quality keys read the new values and no other key changes |
| `App.Application.ReplaceWatcher` | app.py:124-132 | any previous watcher is stopped; a fresh running watcher on the folder, with a fresh handler for the default extensions and nothing in flight, is installed exactly when watching is wanted |

## Left out

- HTTP and Flask: routing, JSON encoding, status codes and CORS. Each endpoint is a method that returns a result value.
- `to_dict` and the timestamp formatting: JSON output only.
- `get_jobs` and `get_job`: read-only queries. Their `created_at desc` ordering belongs to the database.
- SQLAlchemy sessions and commits: the store is an in-memory map, and each commit is a single update.
- SQLite's own id choice: the model uses a counter that never reuses an id.
- `datetime.utcnow`: timestamps are ticks of a forward-moving clock.
- psutil's CPU and memory percentages in `get_status`: floating-point readings from a foreign library.
- Threads: each `process_job` runs to completion where the source starts its thread. Interleavings of concurrent jobs, and a delete racing a running job, are not modelled.
- `subprocess.Popen`, ffmpeg itself and `ffmpeg.probe`: these are inputs. The probe gives a duration or nothing. The process gives a spawn error, or its output lines and exit code.
- `get_video_info`: a foreign probe with float fields and `eval` of the frame rate.
- Floating-point arithmetic: durations and progress are exact `real`s, so float rounding in the percentage is not modelled.
- The watchdog `Observer` scheduling and threads: an observer is a three-state value (unset, alive, joined).
- `time.sleep` in the watcher: no-ops.
- `os.path.exists`, `os.walk` and `os.makedirs`: a set of existing paths, a given walk, and an optional `makedirs` error. The folder that `makedirs` creates is not added to that set.
- `App.Application.DeliverEvent`: `on_new_file` is taken never to raise, so the handler always sees a normal return.
- `Numerals.ParseInt`: only ASCII digits and the ASCII white space characters are modelled; Python's `int()` also accepts other Unicode decimal digits and Unicode white space.
- `Numerals.ParseInt`: Python's limit of 4300 digits on converting text to an integer (CPython 3.11 and later, and the 3.7 to 3.10 security releases) is not modelled, so a longer quality text parses here where `int()` raises. `Jobs.PlanJob` inherits this: with such a text the model plans the job where the source fails it.
- `Numerals.IntToString`: the same 4300-digit limit on `str()` of an integer is not modelled, so `App.CrfSetting` stores the text of a JSON quality number of any size, where the source cannot convert one of more than 4300 digits.
- `Paths.Suffix`, `Paths.Stem`: the rule is CPython's up to 3.13, where a name ending in a dot has no suffix. From 3.14 `Path("movie.").suffix` is `.` and the stem `movie`, so `Jobs.OutputFileName` there gives `movie_transcoded.mp4` where the model gives `movie._transcoded.mp4`.
- `Transcoder.DigitRun`: `\d` is taken as the ASCII digits only, while Python's `re` also matches other Unicode decimal digits in a `str` pattern.
- `Jobs.PlanErrorText`: the `int()` message is modelled with single quotes around the raw text; Python's `%.200R` picks double quotes when the text holds a single quote, escapes characters such as `\t`, and cuts the quoted text at 200 characters.
- `Jobs.PlanJob`: it accepts a quality text exactly when `Numerals.ParseInt` does, so it does not accept Unicode digits or Unicode white space as Python does. The error text a failed job records comes from `Jobs.PlanErrorText`, so that text also lacks `%.200R` quoting, escaping and the 200-character cut.
- JSON `null` and non-string members of the settings request: a `SettingsRequest` field is a string or absent. In the source a `null` output folder is stored as NULL, so later jobs fail in `os.path.join`, and a `"crf"` of `null` or `23.5` is stored as the text `None` or `23.5`.
- An exception raised while reading ffmpeg's output, such as a `UnicodeDecodeError`: the model's run always ends with an exit code, while the source would propagate the exception after some progress events and without `wait()`.
- Error responses are modelled by their kind (`ApiError`), not by their JSON text or HTTP status code.
- Paths are POSIX paths: `/` is the only separator, and Windows drive letters and backslash separators are not modelled.
- Non-ASCII case folding in `str.lower`, and the PurePath parsing of `..` and of doubled leading separators: `.` components and trailing separators are handled, nothing more.
- app.js, mock_rag_service.py, test_rag_integration.py, debug_examples.py, generate_secret_key.py and app/config.py: none of them is part of the transcoding core.
