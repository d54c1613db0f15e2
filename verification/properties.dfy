/** Properties of the bcc-exporter's request handling, stated over every
    request and every environment. */
module Properties {
  import opened Wrappers
  import opened Strconv
  import opened Strings
  import opened Http
  import opened Folded
  import opened Mock
  import opened Exporter

  // ---------------------------------------------------------------------
  // Validation

  /** A request that fails validation is answered 400 before anything else
      happens: no PID lookup, no mock, no subprocess, whatever the environment. */
  lemma RejectionHasNoEffects(q: Query, format: Format, env: Env)
    requires !ValidParams(q)
    ensures RunProfile(q, format, env).trace == []
    ensures RunProfile(q, format, env).response.status == StatusBadRequest
    ensures q.pid == "" || q.seconds == "" ==>
              IsError(RunProfile(q, format, env).response, StatusBadRequest, MsgMissing)
    ensures q.pid != "" && q.seconds != "" ==>
              IsError(RunProfile(q, format, env).response, StatusBadRequest, MsgInvalidSeconds)
  {
  }

  /** With both parameters present, `seconds` is accepted exactly when it
      is an integer in 1..300, and then it is the duration. */
  lemma DurationRange(q: Query)
    requires q.pid != "" && q.seconds != ""
    ensures ParseDuration(q).Ok? <==> Atoi(q.seconds).Some? && 1 <= Atoi(q.seconds).value <= 300
    ensures ParseDuration(q).Ok? ==> ParseDuration(q).value == Atoi(q.seconds).value
  {
  }

  /** The lower bound is inclusive: 1 passes, 0 does not. */
  lemma DurationLowerBound(pid: string, test: string)
    requires pid != ""
    ensures ParseDuration(Query(pid, "1", test)) == Ok(1)
    ensures ParseDuration(Query(pid, "0", test)).Err?
  {
    assert Atoi("1") == Some(1) by { AtoiOfItoa(1); assert Itoa(1) == "1"; }
    assert Atoi("0") == Some(0) by { AtoiOfItoa(0); assert Itoa(0) == "0"; }
  }

  /** The upper bound is inclusive: 300 passes, 301 does not. */
  lemma DurationUpperBound(pid: string, test: string)
    requires pid != ""
    ensures ParseDuration(Query(pid, "300", test)) == Ok(300)
    ensures ParseDuration(Query(pid, "301", test)).Err?
  {
    assert Atoi("300") == Some(300) by { AtoiOfItoa(300); assert Itoa(300) == "300"; }
    assert Atoi("301") == Some(301) by { AtoiOfItoa(301); assert Itoa(301) == "301"; }
  }

  /** A '+'-signed literal is a number like any other; a negative one is
      out of range. */
  lemma DurationSignedLiterals(pid: string, test: string)
    requires pid != ""
    ensures ParseDuration(Query(pid, "+5", test)) == Ok(5)
    ensures ParseDuration(Query(pid, "-5", test)).Err?
  {
    assert "+5"[1..] == "5";
    assert Atoi("-5") == Some(-5) by { AtoiOfItoa(-5); assert Itoa(-5) == "-5"; }
  }

  /** A non-number is rejected with the same message as an out-of-range
      number such as 500. */
  lemma DurationRejections(pid: string, test: string)
    requires pid != ""
    ensures ParseDuration(Query(pid, "abc", test)) == Err(Error(map[], MsgInvalidSeconds, StatusBadRequest))
    ensures ParseDuration(Query(pid, "500", test)) == Err(Error(map[], MsgInvalidSeconds, StatusBadRequest))
  {
    assert "abc"[0] == 'a';
    assert Atoi("500") == Some(500) by { AtoiOfItoa(500); assert Itoa(500) == "500"; }
  }

  // ---------------------------------------------------------------------
  // Test mode

  /** With valid parameters and `test=true` the handler serves the mock
      profile with status 200, the endpoint's content type and no download
      name; nothing in the environment is consulted, so two environments
      give the same answer. */
  lemma TestModeShortCircuit(q: Query, format: Format, env1: Env, env2: Env)
    requires ValidParams(q) && q.test == "true"
    ensures RunProfile(q, format, env1) == RunProfile(q, format, env2)
    ensures var h := RunProfile(q, format, env1);
            && h.trace == []
            && h.response.status == StatusOK
            && h.response.header == map[ContentType := ProfileContentType(format)]
            && ContentDisposition !in h.response.header
            && h.response.body == Text(GenerateMockProfile(q.pid, LiteralValue(q.seconds)))
  {
  }

  /** The mock answer of the example requests `pid=1234&seconds=5&test=true`. */
  lemma TestModeExample(format: Format, env: Env)
    ensures var h := RunProfile(Query("1234", "5", "true"), format, env);
            && h.response.status == StatusOK
            && h.response.header[ContentType] == (if format == PprofFormat then OctetStream else TextPlain)
            && h.response.body.Text?
            && HeaderPrefix <= h.response.body.text
            && Contains(h.response.body.text, "1234")
            && HeaderPrefix + "1234, duration 5 seconds\n" <= h.response.body.text
            && Contains(h.response.body.text, "redis-server")
  {
    assert Atoi("5") == Some(5) by { AtoiOfItoa(5); assert Itoa(5) == "5"; }
    ExampleMockHeader();
  }

  /** The example's mock begins with its header line, literally. */
  lemma ExampleMockHeader()
    ensures HeaderPrefix + "1234, duration 5 seconds\n" <= GenerateMockProfile("1234", 5)
  {
    ExampleHeaderLine();
    var head := HeaderPrefix + "1234, duration 5 seconds\n";
    assert GenerateMockProfile("1234", 5) == head + Render(MockStacks);
  }

  /** The first line of the example's mock, as a literal. */
  lemma ExampleHeaderLine()
    ensures MockHeader("1234", 5) + "\n" == HeaderPrefix + "1234, duration 5 seconds\n"
    ensures Itoa(5) == "5"
  {
    assert Itoa(5) == "5";
  }

  // ---------------------------------------------------------------------
  // PID validation

  /** Outside test mode a PID that fails `validatePID` is a 400 whose body
      starts with "Invalid PID: ", with no subprocess and no workspace. */
  lemma InvalidPidIsBadRequest(q: Query, format: Format, env: Env)
    requires ValidParams(q) && q.test != "true"
    requires ValidatePID(q.pid, env.stat).Some?
    ensures var h := RunProfile(q, format, env);
            && h.trace == []
            && IsError(h.response, StatusBadRequest, InvalidPidPrefix + ValidatePID(q.pid, env.stat).value)
            && h.response.body.Text? && InvalidPidPrefix <= h.response.body.text
  {
  }

  /** "abc" is a malformed PID, whatever /proc holds. */
  lemma NonNumericPidIsMalformed(stat: string -> StatResult)
    ensures ValidatePID("abc", stat) == Some("invalid PID format: abc")
  {
    assert "abc"[0] == 'a';
    assert ValidatePID("abc", stat) == Some("invalid PID format: " + "abc");
    assert "invalid PID format: " + "abc" == "invalid PID format: abc";
  }

  /** The empty PID is malformed too (the handler never gets that far with
      it: an empty `pid` is already a missing parameter). */
  lemma EmptyPidIsMalformed(stat: string -> StatResult)
    ensures ValidatePID("", stat) == Some("invalid PID format: ")
  {
    assert ValidatePID("", stat) == Some("invalid PID format: " + "");
    assert "invalid PID format: " + "" == "invalid PID format: ";
  }

  /** The PID of the non-existent-process example parses; the rendering
      of 999999 is unfolded one digit at a time. */
  lemma PidExampleParses()
    ensures Atoi("999999") == Some(999999)
  {
    assert NatToDecimal(9) == "9";
    assert NatToDecimal(99) == "99";
    assert NatToDecimal(999) == "999";
    assert NatToDecimal(9999) == "9999";
    assert NatToDecimal(99999) == "99999";
    assert NatToDecimal(999999) == "999999";
    AtoiOfItoa(999999);
  }

  /** The /proc path of the example PID, as a literal. */
  lemma PidExampleProcPath()
    ensures ProcPath("999999") == "/proc/999999"
  {
    assert "/proc/" + "999999" == "/proc/999999";
  }

  /** The example's "does not exist" message, as a literal. */
  lemma PidExampleMessage()
    ensures "process with PID " + "999999" + " does not exist" == "process with PID 999999 does not exist"
  {
  }

  /** A well-formed PID with no /proc entry "does not exist". */
  lemma MissingProcessExample(stat: string -> StatResult)
    requires stat("/proc/999999") == NotExist
    ensures ValidatePID("999999", stat) == Some("process with PID 999999 does not exist")
  {
    PidExampleParses();
    PidExampleProcPath();
    PidExampleMessage();
  }

  /** PID 1 is accepted when /proc/1 stats. */
  lemma LivePidExample(stat: string -> StatResult)
    requires stat("/proc/1").FileInfo?
    ensures ValidatePID("1", stat) == None
  {
    assert Atoi("1") == Some(1) by { AtoiOfItoa(1); assert Itoa(1) == "1"; }
    assert ProcPath("1") == "/proc/1";
  }

  /** A PID need not be positive: "-1" passes the format check and is
      rejected only if /proc/-1 does not stat. */
  lemma NegativePidPassesFormatCheck(stat: string -> StatResult)
    ensures stat("/proc/-1").FileInfo? ==> ValidatePID("-1", stat) == None
    ensures stat("/proc/-1") == NotExist ==>
              ValidatePID("-1", stat) == Some("process with PID -1 does not exist")
  {
    assert Atoi("-1") == Some(-1) by { AtoiOfItoa(-1); assert Itoa(-1) == "-1"; }
    assert ProcPath("-1") == "/proc/-1";
    if stat("/proc/-1") == NotExist {
      assert ValidatePID("-1", stat) == Some("process with PID " + "-1" + " does not exist");
      assert "process with PID " + "-1" + " does not exist" == "process with PID -1 does not exist";
    }
  }

  // ---------------------------------------------------------------------
  // Stderr classification

  // Which literal messages do not contain which patterns: each shows a
  // character of the pattern that the message lacks.

  lemma LowercaseLacksCapitalPattern()
    ensures !Contains("permission denied", "Permission denied")
  {
    assert "Permission denied"[0] == 'P';
    NotContainsWithoutChar("permission denied", "Permission denied", 0);
  }

  lemma LowercaseLacksNoSuchProcess()
    ensures !Contains("permission denied", "No such process")
  {
    assert "No such process"[0] == 'N';
    NotContainsWithoutChar("permission denied", "No such process", 0);
  }

  lemma CapitalLacksNoSamples()
    ensures !Contains("Permission denied", "no samples")
  {
    assert "no samples"[4] == 'a';
    NotContainsWithoutChar("Permission denied", "no samples", 4);
  }

  lemma CapitalLacksLowercasePattern()
    ensures !Contains("Permission denied", "permission denied")
  {
    assert "permission denied"[0] == 'p';
    NotContainsWithoutChar("Permission denied", "permission denied", 0);
  }

  /** The capture stage matches "Permission denied" with a capital P only:
      the lower-case message falls through to the generic 500. */
  lemma PerfClassificationIsCaseSensitive(pid: string, err: string)
    ensures PerfFailure(pid, err, "permission denied").status == StatusInternalServerError
  {
    LowercaseLacksCapitalPattern();
    LowercaseLacksNoSuchProcess();
  }

  /** The conversion stage matches lower-case "permission denied" only: the
      capitalised message the capture stage would answer 403 is a 500 here. */
  lemma PprofClassificationIsCaseSensitive(err: string)
    ensures PprofFailure(err, "Permission denied").status == StatusInternalServerError
  {
    CapitalLacksNoSamples();
    CapitalLacksLowercasePattern();
  }

  /** "no samples" is tried first: it wins when both patterns occur. */
  lemma PprofNoSamplesWins(err: string, stderr: string)
    requires Contains(stderr, "no samples") && Contains(stderr, "permission denied")
    ensures PprofFailure(err, stderr).status == StatusBadRequest
  {
  }

  // ---------------------------------------------------------------------
  // Workspace lifecycle

  predicate IsWorkspaceEffect(e: Effect) {
    e.MkTemp? || e.RemoveAll?
  }

  predicate NoWorkspaceEffect(t: seq<Effect>) {
    forall i :: 0 <= i < |t| ==> !IsWorkspaceEffect(t[i])
  }

  /** The workspace `dir` is created first, removed last, and touched by no
      other workspace effect in between: exactly one removal. */
  predicate Bracketed(t: seq<Effect>, dir: string) {
    && |t| >= 2
    && t[0] == MkTemp(dir)
    && t[|t| - 1] == RemoveAll(dir)
    && NoWorkspaceEffect(t[1..|t| - 1])
  }

  lemma ServeProfileHasNoWorkspaceEffect(pid: string, duration: int, path: string, env: Env)
    ensures NoWorkspaceEffect(ServeProfile(pid, duration, path, env).trace)
  {
  }

  lemma ConvertAndServeHasNoWorkspaceEffect(pid: string, duration: int, dir: string, env: Env)
    ensures NoWorkspaceEffect(ConvertAndServe(pid, duration, dir, env).trace)
  {
    ServeProfileHasNoWorkspaceEffect(pid, duration, ProfilePath(dir), env);
  }

  lemma PerfSessionHasNoWorkspaceEffect(pid: string, duration: int, dir: string, env: Env)
    ensures NoWorkspaceEffect(PerfSession(pid, duration, dir, env).trace)
  {
    ConvertAndServeHasNoWorkspaceEffect(pid, duration, dir, env);
  }

  /** Every request either never touches a workspace, or creates one as its
      first effect and removes that same directory exactly once, as its last
      effect, on every exit path after the creation. */
  lemma WorkspaceAlwaysRemoved(q: Query, format: Format, env: Env)
    ensures var t := RunProfile(q, format, env).trace;
            NoWorkspaceEffect(t) || (|t| > 0 && t[0].MkTemp? && Bracketed(t, t[0].dir))
  {
    if ValidParams(q) && q.test != "true" && ValidatePID(q.pid, env.stat).None?
       && format == PprofFormat && CheckRequiredTools(env.lookPath).None? && env.mkdirTemp.Ok?
    {
      var dir := env.mkdirTemp.value;
      var duration := LiteralValue(q.seconds);
      var session := PerfSession(q.pid, duration, dir, env);
      PerfSessionHasNoWorkspaceEffect(q.pid, duration, dir, env);
      Dispatch(q, format, env);
      PreparedTrace(q.pid, duration, env, dir);
      var t := RunProfile(q, format, env).trace;
      assert t[1..|t| - 1] == session.trace;
    }
  }

  /** A workspace is created exactly when the request reaches the pprof
      pipeline past its tool check and `os.MkdirTemp` succeeds; the folded
      pipeline never creates one. */
  lemma WorkspaceCreatedIff(q: Query, format: Format, env: Env)
    ensures var t := RunProfile(q, format, env).trace;
            (|t| > 0 && t[0].MkTemp?) <==>
              (&& ValidParams(q) && q.test != "true" && ValidatePID(q.pid, env.stat).None?
               && format == PprofFormat && CheckRequiredTools(env.lookPath).None?
               && env.mkdirTemp.Ok?)
  {
  }

  // ---------------------------------------------------------------------
  // The pprof pipeline

  /** Past validation, the handler hands the request to the pipeline its
      endpoint names, with the parsed duration. */
  lemma Dispatch(q: Query, format: Format, env: Env)
    requires ValidParams(q) && q.test != "true" && ValidatePID(q.pid, env.stat).None?
    ensures format == PprofFormat ==>
              RunProfile(q, format, env) == RunPerfProfile(q.pid, LiteralValue(q.seconds), env)
    ensures format == FoldedFormat ==>
              RunProfile(q, format, env) == RunBCCProfile(q.pid, LiteralValue(q.seconds), env)
  {
  }

  /** The pipeline's tool check passed and `os.MkdirTemp` returned `dir`. */
  predicate Prepared(env: Env, dir: string) {
    CheckRequiredTools(env.lookPath).None? && env.mkdirTemp == Ok(dir)
  }

  /** The whole trace of a prepared pipeline: workspace, session, removal. */
  lemma PreparedTrace(pid: string, duration: int, env: Env, dir: string)
    requires Prepared(env, dir)
    ensures RunPerfProfile(pid, duration, env).trace
              == [MkTemp(dir)] + PerfSession(pid, duration, dir, env).trace + [RemoveAll(dir)]
    ensures RunPerfProfile(pid, duration, env).response == PerfSession(pid, duration, dir, env).response
  {
  }

  /** The capture command: call-graph sampling of the PID at 999 Hz into
      `<dir>/perf.data`, for as long as `sleep <seconds>` runs. */
  lemma PerfRecordArguments(pid: string, duration: int, dir: string)
    ensures PerfCommand(pid, duration, dir)
              == Command("perf", ["record", "-g", "--pid", pid, "-F", "999",
                                  "-o", dir + "/perf.data", "--", "sleep", Itoa(duration)])
  {
    assert dir + "/" + "perf.data" == dir + "/perf.data";
  }

  /** The conversion command: `pprof -proto -output <dir>/profile.pb.gz
      <dir>/perf.data`. */
  lemma PprofArguments(dir: string)
    ensures PprofCommand(dir)
              == Command("pprof", ["-proto", "-output", dir + "/profile.pb.gz", dir + "/perf.data"])
  {
    assert dir + "/" + "perf.data" == dir + "/perf.data";
    assert dir + "/" + "profile.pb.gz" == dir + "/profile.pb.gz";
  }

  /** `perf record` is the first command run inside the new workspace. */
  lemma CaptureRunsFirst(pid: string, duration: int, env: Env, dir: string)
    requires Prepared(env, dir)
    ensures var t := RunPerfProfile(pid, duration, env).trace;
            |t| >= 3 && t[0] == MkTemp(dir) && t[1] == Exec(PerfCommand(pid, duration, dir))
  {
    PreparedTrace(pid, duration, env, dir);
  }

  /** The conversion runs, as the third effect, exactly when the capture
      exited cleanly and left a non-empty perf.data. */
  lemma PprofGatedOnCapture(pid: string, duration: int, env: Env, dir: string)
    requires Prepared(env, dir)
    ensures var t := RunPerfProfile(pid, duration, env).trace;
            (|t| >= 4 && t[2] == Exec(PprofCommand(dir))) <==>
              env.run(PerfCommand(pid, duration, dir)).err.None? && NonEmptyFile(env.stat(PerfDataPath(dir)))
  {
    PreparedTrace(pid, duration, env, dir);
  }

  /** The profile is streamed only when the conversion exited cleanly and
      left a non-empty profile.pb.gz. */
  lemma StreamGatedOnConversion(pid: string, duration: int, env: Env, dir: string)
    requires Prepared(env, dir)
    ensures Stream(ProfilePath(dir)) in RunPerfProfile(pid, duration, env).trace ==>
              && env.run(PprofCommand(dir)).err.None?
              && NonEmptyFile(env.stat(ProfilePath(dir)))
  {
    PreparedTrace(pid, duration, env, dir);
    SessionStreamsOnlyOnSuccess(pid, duration, dir, env);
  }

  /** A missing or empty perf.data after a clean capture is a 500 (the
      message says "no samples collected", the status stays 500). */
  lemma UnusablePerfDataIsServerError(pid: string, duration: int, env: Env, dir: string)
    requires Prepared(env, dir)
    requires env.run(PerfCommand(pid, duration, dir)).err.None?
    requires !NonEmptyFile(env.stat(PerfDataPath(dir)))
    ensures var r := RunPerfProfile(pid, duration, env).response;
            && (env.stat(PerfDataPath(dir)) == FileInfo(0) ==>
                  IsError(r, StatusInternalServerError, MsgPerfDataEmpty))
            && (!env.stat(PerfDataPath(dir)).FileInfo? ==>
                  IsError(r, StatusInternalServerError, MsgPerfDataMissing))
  {
    PreparedTrace(pid, duration, env, dir);
  }

  /** A missing or empty profile.pb.gz after a clean conversion is a 500
      with its own message, and the workspace is removed right after the
      conversion: nothing is opened or streamed. */
  lemma UnusableProfileIsServerError(pid: string, duration: int, env: Env, dir: string)
    requires Prepared(env, dir)
    requires env.run(PerfCommand(pid, duration, dir)).err.None?
    requires NonEmptyFile(env.stat(PerfDataPath(dir)))
    requires env.run(PprofCommand(dir)).err.None?
    requires !NonEmptyFile(env.stat(ProfilePath(dir)))
    ensures var h := RunPerfProfile(pid, duration, env);
            && (env.stat(ProfilePath(dir)) == FileInfo(0) ==>
                  IsError(h.response, StatusInternalServerError, MsgProfileEmpty))
            && (!env.stat(ProfilePath(dir)).FileInfo? ==>
                  IsError(h.response, StatusInternalServerError, MsgProfileMissing))
            && h.trace == [MkTemp(dir), Exec(PerfCommand(pid, duration, dir)), Exec(PprofCommand(dir)),
                           RemoveAll(dir)]
  {
    PreparedTrace(pid, duration, env, dir);
  }

  /** The same answer seen from the handler: a valid, non-test pprof request
      whose conversion leaves no usable profile is a 500. */
  lemma UnusableProfileAnswer(q: Query, env: Env, dir: string)
    requires ValidParams(q) && q.test != "true" && ValidatePID(q.pid, env.stat).None?
    requires Prepared(env, dir)
    requires env.run(PerfCommand(q.pid, LiteralValue(q.seconds), dir)).err.None?
    requires NonEmptyFile(env.stat(PerfDataPath(dir)))
    requires env.run(PprofCommand(dir)).err.None?
    requires !NonEmptyFile(env.stat(ProfilePath(dir)))
    ensures var h := RunProfile(q, PprofFormat, env);
            && h.response.status == StatusInternalServerError
            && NoStream(h.trace)
            && RemoveAll(dir) == h.trace[|h.trace| - 1]
  {
    Dispatch(q, PprofFormat, env);
    UnusableProfileIsServerError(q.pid, LiteralValue(q.seconds), env, dir);
  }

  /** A failed capture answers by the capture-stage classification, and the
      workspace is still removed right after it. */
  lemma CaptureFailureClassified(pid: string, duration: int, env: Env, dir: string)
    requires Prepared(env, dir)
    requires env.run(PerfCommand(pid, duration, dir)).err.Some?
    ensures var result := env.run(PerfCommand(pid, duration, dir));
            var h := RunPerfProfile(pid, duration, env);
            && h.response == PerfFailure(pid, result.err.value, result.stderr)
            && h.trace == [MkTemp(dir), Exec(PerfCommand(pid, duration, dir)), RemoveAll(dir)]
  {
    PreparedTrace(pid, duration, env, dir);
  }

  /** A failed conversion answers by the conversion-stage classification,
      and the workspace is still removed right after it. */
  lemma ConversionFailureClassified(pid: string, duration: int, env: Env, dir: string)
    requires Prepared(env, dir)
    requires env.run(PerfCommand(pid, duration, dir)).err.None?
    requires NonEmptyFile(env.stat(PerfDataPath(dir)))
    requires env.run(PprofCommand(dir)).err.Some?
    ensures var result := env.run(PprofCommand(dir));
            var h := RunPerfProfile(pid, duration, env);
            && h.response == PprofFailure(result.err.value, result.stderr)
            && h.trace == [MkTemp(dir), Exec(PerfCommand(pid, duration, dir)), Exec(PprofCommand(dir)),
                           RemoveAll(dir)]
  {
    PreparedTrace(pid, duration, env, dir);
  }

  /** A pprof response is 200 exactly when every stage succeeded; it then
      carries the download headers and the profile file, and its trace ends
      by streaming the file, closing it, and removing the workspace, in that
      order (deferred calls run last-in, first-out). */
  lemma PprofSuccess(pid: string, duration: int, env: Env, dir: string)
    requires Prepared(env, dir)
    ensures var h := RunPerfProfile(pid, duration, env);
            h.response.status == StatusOK <==>
              && env.run(PerfCommand(pid, duration, dir)).err.None?
              && NonEmptyFile(env.stat(PerfDataPath(dir)))
              && env.run(PprofCommand(dir)).err.None?
              && NonEmptyFile(env.stat(ProfilePath(dir)))
              && env.open(ProfilePath(dir)).Opened?
    ensures var h := RunPerfProfile(pid, duration, env);
            var path := ProfilePath(dir);
            h.response.status == StatusOK ==>
              && h.response.header[ContentType] == OctetStream
              && h.response.header[ContentDisposition]
                   == "attachment; filename=profile-" + pid + "-" + Itoa(duration) + ".pb.gz"
              && h.response.body == FileContents(path)
              && h.trace == [MkTemp(dir), Exec(PerfCommand(pid, duration, dir)), Exec(PprofCommand(dir)),
                             OpenFile(path), Stream(path), CloseFile(path), RemoveAll(dir)]
  {
    PreparedTrace(pid, duration, env, dir);
  }

  /** The download name of the integration example `pid=1&seconds=1`. */
  lemma DispositionExample()
    ensures Disposition("1", 1) == "attachment; filename=profile-1-1.pb.gz"
  {
    assert Itoa(1) == "1";
  }

  predicate NoStream(t: seq<Effect>) {
    forall i :: 0 <= i < |t| ==> !t[i].Stream?
  }

  /** What an `http.Error` response looks like: a plain-text body. */
  predicate IsErrorShaped(r: Response) {
    && r.body.Text?
    && ContentType in r.header
    && r.header[ContentType] == "text/plain; charset=utf-8"
  }

  /** From the conversion on, the profile is streamed only in a 200 answer. */
  lemma ConversionStreamsOnlyOnSuccess(pid: string, duration: int, dir: string, env: Env)
    ensures var c := ConvertAndServe(pid, duration, dir, env);
            c.response.status != StatusOK ==> NoStream(c.trace) && IsErrorShaped(c.response)
    ensures var c := ConvertAndServe(pid, duration, dir, env);
            c.response.status == StatusOK ==> c.response.body.FileContents?
  {
  }

  /** Inside the workspace, the profile is streamed only in a 200 answer. */
  lemma SessionStreamsOnlyOnSuccess(pid: string, duration: int, dir: string, env: Env)
    ensures var s := PerfSession(pid, duration, dir, env);
            s.response.status != StatusOK ==> NoStream(s.trace) && IsErrorShaped(s.response)
    ensures var s := PerfSession(pid, duration, dir, env);
            s.response.status == StatusOK ==> s.response.body.FileContents?
  {
    var s := PerfSession(pid, duration, dir, env);
    if |s.trace| > 1 {
      ConversionStreamsOnlyOnSuccess(pid, duration, dir, env);
      var rest := ConvertAndServe(pid, duration, dir, env);
      if rest.response.status != StatusOK {
        assert s.trace == [Exec(PerfCommand(pid, duration, dir)), Exec(PprofCommand(dir))];
      }
    }
  }

  /** The pprof pipeline streams the profile only in its 200 answer; any
      other answer is an `http.Error`. */
  lemma PerfPipelineStreamsOnlyOnSuccess(pid: string, duration: int, env: Env)
    ensures var h := RunPerfProfile(pid, duration, env);
            h.response.status != StatusOK ==> NoStream(h.trace) && IsErrorShaped(h.response)
    ensures var h := RunPerfProfile(pid, duration, env);
            h.response.status == StatusOK ==> h.response.body.FileContents?
  {
    if CheckRequiredTools(env.lookPath).None? && env.mkdirTemp.Ok? {
      var dir := env.mkdirTemp.value;
      PreparedTrace(pid, duration, env, dir);
      SessionStreamsOnlyOnSuccess(pid, duration, dir, env);
    }
  }

  /** The folded pipeline never streams a file: its answer is stdout as
      text, or an `http.Error`. */
  lemma FoldedStreamsNothing(pid: string, duration: int, env: Env)
    ensures var h := RunBCCProfile(pid, duration, env);
            && NoStream(h.trace)
            && h.response.body.Text?
            && (h.response.status != StatusOK ==> IsErrorShaped(h.response))
  {
  }

  /** Whatever the handler answers before reaching a pipeline (a rejection,
      or the mock) has no effects and a text body. */
  lemma EarlyAnswers(q: Query, format: Format, env: Env)
    requires !(ValidParams(q) && q.test != "true" && ValidatePID(q.pid, env.stat).None?)
    ensures var h := RunProfile(q, format, env);
            && h.trace == []
            && h.response.body.Text?
            && (h.response.status != StatusOK ==> IsErrorShaped(h.response))
  {
  }

  /** One request, one response: the profile file is streamed only in a 200
      response, and every non-200 response is an `http.Error` text body. */
  lemma StreamOnlyOnSuccess(q: Query, format: Format, env: Env)
    ensures var h := RunProfile(q, format, env);
            h.response.status != StatusOK ==> NoStream(h.trace) && IsErrorShaped(h.response)
    ensures var h := RunProfile(q, format, env);
            h.response.body.FileContents? ==> h.response.status == StatusOK
  {
    if ValidParams(q) && q.test != "true" && ValidatePID(q.pid, env.stat).None? {
      Dispatch(q, format, env);
      PerfPipelineStreamsOnlyOnSuccess(q.pid, LiteralValue(q.seconds), env);
      FoldedStreamsNothing(q.pid, LiteralValue(q.seconds), env);
    } else {
      EarlyAnswers(q, format, env);
    }
  }

  predicate KnownStatus(status: int) {
    status in {StatusOK, StatusBadRequest, StatusForbidden, StatusInternalServerError}
  }

  lemma SessionStatus(pid: string, duration: int, dir: string, env: Env)
    ensures KnownStatus(PerfSession(pid, duration, dir, env).response.status)
  {
  }

  lemma PerfPipelineStatus(pid: string, duration: int, env: Env)
    ensures KnownStatus(RunPerfProfile(pid, duration, env).response.status)
  {
    if CheckRequiredTools(env.lookPath).None? && env.mkdirTemp.Ok? {
      PreparedTrace(pid, duration, env, env.mkdirTemp.value);
      SessionStatus(pid, duration, env.mkdirTemp.value, env);
    }
  }

  /** Every response status is one of 200, 400, 403 and 500. */
  lemma StatusCodes(q: Query, format: Format, env: Env)
    ensures KnownStatus(RunProfile(q, format, env).response.status)
  {
    if ValidParams(q) && q.test != "true" && ValidatePID(q.pid, env.stat).None? {
      Dispatch(q, format, env);
      PerfPipelineStatus(q.pid, LiteralValue(q.seconds), env);
    }
  }

  // ---------------------------------------------------------------------
  // The folded pipeline

  /** The folded endpoint runs one command, `sudo profile-bpfcc -p <pid>
      -F 999 -f <seconds>`, with no tool check and no workspace: the tool
      and temp-dir oracles do not matter. It answers 200 with stdout
      verbatim, or 500 "Profiler failed" carrying stderr. */
  lemma FoldedPipeline(q: Query, env: Env, env2: Env)
    requires ValidParams(q) && q.test != "true" && ValidatePID(q.pid, env.stat).None?
    requires env2.stat == env.stat && env2.run == env.run
    ensures var duration := LiteralValue(q.seconds);
            var cmd := BccCommand(q.pid, duration);
            var h := RunProfile(q, FoldedFormat, env);
            && h == RunProfile(q, FoldedFormat, env2)
            && cmd == Command("sudo", ["profile-bpfcc", "-p", q.pid, "-F", "999", "-f", Itoa(duration)])
            && h.trace == [Exec(cmd)]
            && (env.run(cmd).err.None? ==>
                  h.response == Response(StatusOK, map[ContentType := TextPlain], Text(env.run(cmd).stdout)))
            && (env.run(cmd).err.Some? ==>
                  IsError(h.response, StatusInternalServerError,
                          "Profiler failed: " + env.run(cmd).err.value + "\nStderr: " + env.run(cmd).stderr))
  {
  }

  // ---------------------------------------------------------------------
  // Authentication

  /** With a password configured, a request without the right credentials
      gets 401 and runs nothing; with the right ones, or with no password
      configured, it is handled as if unauthenticated. */
  lemma AuthGuard(route: Format, password: string, creds: Option<Credentials>, q: Query, env: Env)
    ensures password != "" && !Authorized(creds, password) ==>
              Serve(route, password, creds, q, env).trace == [] &&
              Serve(route, password, creds, q, env).response.status == StatusUnauthorized
    ensures password == "" || Authorized(creds, password) ==>
              Serve(route, password, creds, q, env) == RunProfile(q, route, env)
  {
  }
}
