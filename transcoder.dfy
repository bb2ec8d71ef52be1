/**
 * `VideoTranscoder.transcode` (app/transcoder.py): builds the ffmpeg command
 * line, takes the source duration from a probe, reads ffmpeg's progress
 * stream line by line, reports a percentage for every `out_time_ms=` line
 * and ends with the exit-code rule.
 *
 * The subprocess is an input here: the probe's answer, and either a spawn
 * failure or the lines ffmpeg printed (standard output and standard error
 * merged, as the source asks) together with its exit code. The progress
 * callback becomes the sequence of values it would have been called with.
 */
module Transcoder {
  import opened Results
  import opened Numerals

  const FfmpegPath := "ffmpeg"
  const DefaultVideoCodec := "libx264"
  const DefaultAudioCodec := "aac"
  const DefaultPreset := "medium"
  const DefaultCrf := 23

  /** The `settings` dictionary handed to `transcode`; a missing key is `None`. */
  datatype EncodeSettings = EncodeSettings(
    videoCodec: Option<string>,
    audioCodec: Option<string>,
    preset: Option<string>,
    crf: Option<int>)

  /** The encode parameters once every missing key has its default. */
  datatype Params = Params(videoCodec: string, audioCodec: string, preset: string, crf: int)

  /** The `settings.get(key, default)` reads at the top of `transcode`. */
  function Resolve(s: EncodeSettings): (p: Params)
    ensures s.videoCodec.None? ==> p.videoCodec == DefaultVideoCodec
    ensures s.audioCodec.None? ==> p.audioCodec == DefaultAudioCodec
    ensures s.preset.None? ==> p.preset == DefaultPreset
    ensures s.crf.None? ==> p.crf == DefaultCrf
    ensures s.videoCodec.Some? ==> p.videoCodec == s.videoCodec.value
    ensures s.audioCodec.Some? ==> p.audioCodec == s.audioCodec.value
    ensures s.preset.Some? ==> p.preset == s.preset.value
    ensures s.crf.Some? ==> p.crf == s.crf.value
  {
    Params(
      s.videoCodec.GetOr(DefaultVideoCodec),
      s.audioCodec.GetOr(DefaultAudioCodec),
      s.preset.GetOr(DefaultPreset),
      s.crf.GetOr(DefaultCrf))
  }

  /** The argument vector `transcode` starts ffmpeg with. */
  function Command(input: string, output: string, p: Params): (cmd: seq<string>)
    ensures |cmd| == 19
    ensures cmd[2] == input && cmd[|cmd| - 1] == output
  {
    [FfmpegPath,
     "-i", input,
     "-c:v", p.videoCodec,
     "-preset", p.preset,
     "-crf", IntToString(p.crf),
     "-c:a", p.audioCodec,
     "-b:a", "192k",
     "-movflags", "+faststart",
     "-y",
     "-progress", "pipe:1",
     output]
  }

  /** The vector has the length and the fixed flags of the command `transcode` builds. */
  predicate HasFixedArgs(cmd: seq<string>) {
    && |cmd| == 19
    && cmd[0] == FfmpegPath && cmd[1] == "-i" && cmd[3] == "-c:v" && cmd[5] == "-preset"
    && cmd[7] == "-crf" && cmd[9] == "-c:a" && cmd[11] == "-b:a" && cmd[12] == "192k"
    && cmd[13] == "-movflags" && cmd[14] == "+faststart" && cmd[15] == "-y"
    && cmd[16] == "-progress" && cmd[17] == "pipe:1"
  }

  /**
   * Reads an argument vector of the shape `Command` builds back into its
   * input, output and parameters; `None` for any other vector.
   */
  function CommandFields(cmd: seq<string>): Option<(string, string, Params)> {
    if HasFixedArgs(cmd) then
      match ParseInt(cmd[8])
      case Some(crf) => Some((cmd[2], cmd[18], Params(cmd[4], cmd[10], cmd[6], crf)))
      case None => None
    else None
  }

  lemma CommandHasFixedArgs(input: string, output: string, p: Params)
    ensures HasFixedArgs(Command(input, output, p))
  {
    var cmd := Command(input, output, p);
    assert cmd[..8] == [FfmpegPath, "-i", input, "-c:v", p.videoCodec, "-preset", p.preset, "-crf"];
    assert cmd[9..] == ["-c:a", p.audioCodec, "-b:a", "192k", "-movflags", "+faststart", "-y", "-progress", "pipe:1", output];
  }

  /**
   * The command line is unambiguous: the input, the output and every
   * parameter, the quality value included, can be read back from it.
   */
  lemma CommandRoundTrip(input: string, output: string, p: Params)
    ensures CommandFields(Command(input, output, p)) == Some((input, output, p))
  {
    var cmd := Command(input, output, p);
    CommandHasFixedArgs(input, output, p);
    CrfOfCommand(input, output, p);
    CommandVariableArgs(input, output, p);
    FieldsOfFixedArgs(cmd, p.crf);
  }

  lemma CommandVariableArgs(input: string, output: string, p: Params)
    ensures var cmd := Command(input, output, p);
      cmd[2] == input && cmd[18] == output && cmd[4] == p.videoCodec && cmd[10] == p.audioCodec && cmd[6] == p.preset
  {
  }

  lemma CrfOfCommand(input: string, output: string, p: Params)
    ensures ParseInt(Command(input, output, p)[8]) == Some(p.crf)
  {
    CrfArgument(input, output, p);
    ParseIntOfIntToString(p.crf);
  }

  lemma CrfArgument(input: string, output: string, p: Params)
    ensures Command(input, output, p)[8] == IntToString(p.crf)
  {
  }

  lemma FieldsOfFixedArgs(cmd: seq<string>, crf: int)
    requires HasFixedArgs(cmd) && ParseInt(cmd[8]) == Some(crf)
    ensures CommandFields(cmd) == Some((cmd[2], cmd[18], Params(cmd[4], cmd[10], cmd[6], crf)))
  {
  }

  // ---------------------------------------------------------------------
  // The progress line parser: re.search(r'out_time_ms=(\d+)', line)

  const Marker := "out_time_ms="

  /** The pattern matches at position `i`: the marker, then at least one digit. */
  predicate MatchesAt(line: string, i: nat) {
    i + |Marker| < |line| && line[i..i + |Marker|] == Marker && IsDigit(line[i + |Marker|])
  }

  /** The leftmost position at or after `from` where the pattern matches. */
  function FirstMatchFrom(line: string, from: nat): (r: Option<nat>)
    ensures r.Some? ==> from <= r.value && MatchesAt(line, r.value)
    ensures r.Some? ==> forall j :: from <= j < r.value ==> !MatchesAt(line, j)
    ensures r.None? ==> forall j :: from <= j ==> !MatchesAt(line, j)
    decreases |line| - from
  {
    if from + |Marker| >= |line| then None
    else if MatchesAt(line, from) then Some(from)
    else FirstMatchFrom(line, from + 1)
  }

  /** The digit run starting at `j`, as long as it goes (`\d+` is greedy). */
  function DigitRun(line: string, j: nat): (r: string)
    requires j <= |line|
    ensures AllDigits(r)
    ensures j + |r| <= |line| && line[j..j + |r|] == r
    ensures j + |r| == |line| || !IsDigit(line[j + |r|])
    decreases |line| - j
  {
    if j < |line| && IsDigit(line[j]) then
      var rest := DigitRun(line, j + 1);
      assert line[j..j + 1 + |rest|] == [line[j]] + line[j + 1..j + 1 + |rest|];
      [line[j]] + rest
    else []
  }

  /**
   * The number after the first `out_time_ms=` that is followed by a
   * digit, read as the whole digit run there; `None` when no such place
   * exists in the line.
   */
  function OutTimeMicros(line: string): (r: Option<nat>)
    ensures r.None? <==> forall j :: !MatchesAt(line, j)
    ensures r.Some? ==> exists i: nat :: FirstMatch(line, i) && r.value == DigitsValue(DigitRun(line, i + |Marker|))
  {
    match FirstMatchFrom(line, 0)
    case Some(i) =>
      assert FirstMatch(line, i);
      Some(DigitsValue(DigitRun(line, i + |Marker|)))
    case None => None
  }

  /** `i` is the leftmost position where the pattern matches. */
  predicate FirstMatch(line: string, i: nat) {
    MatchesAt(line, i) && forall j :: 0 <= j < i ==> !MatchesAt(line, j)
  }

  // ---------------------------------------------------------------------
  // Progress values

  /** `get_video_duration`: the probed duration, or 0 when the probe failed. */
  function ProbeDuration(probed: Option<real>): (r: real)
    ensures probed.None? ==> r == 0.0
    ensures probed.Some? ==> r == probed.value
  {
    probed.GetOr(0.0)
  }

  /**
   * `min(100.0, (micros / 1000000) / duration * 100)`: elapsed time over
   * total duration as a percentage, cut off at 100.
   */
  function Percent(micros: nat, duration: real): (r: real)
    requires duration > 0.0
    ensures 0.0 <= r <= 100.0
    ensures r < 100.0 ==> r == (micros as real / 1000000.0) / duration * 100.0
    ensures r == 100.0 ==> (micros as real / 1000000.0) / duration * 100.0 >= 100.0
  {
    var ratio := (micros as real / 1000000.0) / duration * 100.0;
    assert micros as real / 1000000.0 >= 0.0;
    assert ratio >= 0.0 by { PercentNonNegative(micros as real / 1000000.0, duration); }
    if ratio < 100.0 then ratio else 100.0
  }

  lemma PercentNonNegative(seconds: real, duration: real)
    requires seconds >= 0.0 && duration > 0.0
    ensures seconds / duration * 100.0 >= 0.0
  {
    assert seconds / duration >= 0.0;
  }

  /** The event one progress line produces, if any. */
  function LineEvent(line: string, duration: real, hasCallback: bool): (r: Option<real>)
    ensures r.Some? <==> hasCallback && duration > 0.0 && exists i :: MatchesAt(line, i)
    ensures r.Some? ==> 0.0 <= r.value <= 100.0
  {
    if hasCallback && duration > 0.0 then
      match OutTimeMicros(line)
      case Some(micros) => Some(Percent(micros, duration))
      case None => None
    else None
  }

  /** The events the line loop emits for `lines`, in line order. */
  function LineEvents(lines: seq<string>, duration: real, hasCallback: bool): (r: seq<real>)
    ensures |r| <= |lines|
    ensures forall k :: 0 <= k < |r| ==> 0.0 <= r[k] <= 100.0
  {
    if lines == [] then []
    else
      var front := LineEvents(lines[..|lines| - 1], duration, hasCallback);
      match LineEvent(lines[|lines| - 1], duration, hasCallback)
      case Some(p) => front + [p]
      case None => front
  }

  // ---------------------------------------------------------------------
  // The subprocess and the terminal rule

  /** What the environment answers: the probe result, and what ffmpeg did. */
  datatype EncoderRun = EncoderRun(probedDuration: Option<real>, process: Process)

  datatype Process =
    | SpawnFailed(message: string)
    | Exited(lines: seq<string>, returnCode: int)

  /** Why a transcode failed: ffmpeg could not be started, or it exited with a non-zero code. */
  datatype EncodeFailure = SpawnError(message: string) | ExitStatus(returnCode: int)

  const FailurePrefix := "FFmpeg failed with return code "

  /** `str(e)` of the exception `transcode` lets escape. */
  function FailureText(f: EncodeFailure): (r: string)
    ensures f.SpawnError? ==> r == f.message
    ensures f.ExitStatus? ==> |r| > |FailurePrefix| && r[..|FailurePrefix|] == FailurePrefix
  {
    match f
    case SpawnError(m) => m
    case ExitStatus(code) => FailurePrefix + IntToString(code)
  }

  /** The diagnostic of a non-zero exit names the exit code, which can be read back from it. */
  lemma FailureTextNamesCode(code: int)
    ensures var text := FailureText(ExitStatus(code));
      |text| > |FailurePrefix| && text[..|FailurePrefix|] == FailurePrefix &&
      ParseInt(text[|FailurePrefix|..]) == Some(code)
  {
    var text := FailureText(ExitStatus(code));
    assert text[|FailurePrefix|..] == IntToString(code);
    ParseIntOfIntToString(code);
  }

  /** The terminal result: the output path on exit code 0, otherwise the failure. */
  function ExitResult(output: string, process: Process): (r: Result<string, EncodeFailure>)
    ensures r.Success? <==> process.Exited? && process.returnCode == 0
    ensures r.Success? ==> r.value == output
    ensures process.Exited? && process.returnCode != 0 ==> r == Failure(ExitStatus(process.returnCode))
    ensures process.SpawnFailed? ==> r == Failure(SpawnError(process.message))
  {
    match process
    case SpawnFailed(m) => Failure(SpawnError(m))
    case Exited(_, code) => if code != 0 then Failure(ExitStatus(code)) else Success(output)
  }

  /** Every value the callback receives during one `transcode` call, in order. */
  function Events(hasCallback: bool, run: EncoderRun): (r: seq<real>)
    ensures run.process.SpawnFailed? ==> r == []
    ensures run.process.Exited? ==> |r| <= |run.process.lines| + 1
    ensures forall k :: 0 <= k < |r| ==> 0.0 <= r[k] <= 100.0
  {
    match run.process
    case SpawnFailed(_) => []
    case Exited(lines, code) =>
      var fromLines := LineEvents(lines, ProbeDuration(run.probedDuration), hasCallback);
      if code == 0 && hasCallback then fromLines + [100.0] else fromLines
  }

  /**
   * `VideoTranscoder.transcode`: the command it runs, the progress values
   * it reports and how it ends.
   */
  method Transcode(input: string, output: string, settings: EncodeSettings, hasCallback: bool, run: EncoderRun)
    returns (cmd: seq<string>, events: seq<real>, result: Result<string, EncodeFailure>)
    ensures cmd == Command(input, output, Resolve(settings))
    ensures result == ExitResult(output, run.process)
    ensures events == Events(hasCallback, run)
    ensures forall k :: 0 <= k < |events| ==> 0.0 <= events[k] <= 100.0
    ensures result.Success? && hasCallback ==> events != [] && events[|events| - 1] == 100.0
  {
    var params := Resolve(settings);
    cmd := Command(input, output, params);
    var totalDuration := ProbeDuration(run.probedDuration);
    match run.process {
      case SpawnFailed(message) =>
        events := [];
        result := Failure(SpawnError(message));
      case Exited(lines, returnCode) =>
        events := [];
        var i := 0;
        while i < |lines|
          invariant 0 <= i <= |lines|
          invariant events == LineEvents(lines[..i], totalDuration, hasCallback)
        {
          LineEventsStep(lines, i, totalDuration, hasCallback);
          if hasCallback && totalDuration > 0.0 {
            var micros := OutTimeMicros(lines[i]);
            if micros.Some? {
              events := events + [Percent(micros.value, totalDuration)];
            }
          }
          i := i + 1;
        }
        assert lines[..i] == lines;
        if returnCode != 0 {
          result := Failure(ExitStatus(returnCode));
        } else {
          if hasCallback {
            events := events + [100.0];
          }
          result := Success(output);
        }
    }
  }

  // ---------------------------------------------------------------------
  // Properties of the progress stream

  /** One more line adds that line's event, if any, after the events before it. */
  lemma LineEventsStep(lines: seq<string>, i: nat, duration: real, hasCallback: bool)
    requires i < |lines|
    ensures var e := LineEvent(lines[i], duration, hasCallback);
      LineEvents(lines[..i + 1], duration, hasCallback) ==
        if e.Some? then LineEvents(lines[..i], duration, hasCallback) + [e.value]
        else LineEvents(lines[..i], duration, hasCallback)
  {
    assert lines[..i + 1][..i] == lines[..i];
    assert lines[..i + 1][i] == lines[i];
  }

  /** Events follow line order: the events of two stretches of output are the events of each, in turn. */
  lemma {:induction false} LineEventsAppend(a: seq<string>, b: seq<string>, duration: real, hasCallback: bool)
    ensures LineEvents(a + b, duration, hasCallback) ==
            LineEvents(a, duration, hasCallback) + LineEvents(b, duration, hasCallback)
  {
    if b == [] {
      assert a + b == a;
    } else {
      var front := b[..|b| - 1];
      assert (a + b)[..|a + b| - 1] == a + front;
      assert (a + b)[|a + b| - 1] == b[|b| - 1];
      LineEventsAppend(a, front, duration, hasCallback);
    }
  }

  /** Without a callback, or without a positive duration, the line loop reports nothing. */
  lemma {:induction false} NoLineEventsWithoutCallbackOrDuration(lines: seq<string>, duration: real, hasCallback: bool)
    requires !hasCallback || duration <= 0.0
    ensures LineEvents(lines, duration, hasCallback) == []
  {
    if lines != [] {
      NoLineEventsWithoutCallbackOrDuration(lines[..|lines| - 1], duration, hasCallback);
    }
  }

  /**
   * A failed probe leaves the duration at 0: no line reports progress, but
   * a successful run still ends with exactly one 100.0.
   */
  lemma ProbeFailureReportsOnlyCompletion(lines: seq<string>, hasCallback: bool)
    ensures Events(hasCallback, EncoderRun(None, Exited(lines, 0))) == if hasCallback then [100.0] else []
  {
    NoLineEventsWithoutCallbackOrDuration(lines, 0.0, hasCallback);
  }

  /** On exit code 0 with a callback, the line events come first and exactly one 100.0 follows them. */
  lemma SuccessEndsWithOneCompletionEvent(lines: seq<string>, probed: Option<real>)
    ensures var events := Events(true, EncoderRun(probed, Exited(lines, 0)));
      events == LineEvents(lines, ProbeDuration(probed), true) + [100.0] &&
      |events| <= |lines| + 1
  {
  }

  /** A non-zero exit reports only what the lines reported, with no final completion event. */
  lemma FailureHasNoCompletionEvent(lines: seq<string>, code: int, probed: Option<real>, hasCallback: bool)
    requires code != 0
    ensures Events(hasCallback, EncoderRun(probed, Exited(lines, code))) == LineEvents(lines, ProbeDuration(probed), hasCallback)
    ensures |Events(hasCallback, EncoderRun(probed, Exited(lines, code)))| <= |lines|
  {
  }
}
