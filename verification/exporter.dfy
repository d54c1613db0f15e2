/** The request handling of the bcc-exporter (main.go): parameter validation,
    the test-mode bypass, the PID check, and the two profiling pipelines, as
    one pure function from a request and an environment to a response and the
    ordered trace of side effects the handler performs.

    Everything the handler asks the operating system is an oracle in `Env`,
    keyed by what the handler passes: `os.Stat` by path, `exec.LookPath` by
    tool name, a subprocess by its command line, `os.Open` by path. */
module Exporter {
  import opened Wrappers
  import opened Strconv
  import opened Strings
  import opened Http
  import opened Mock

  /** Which endpoint was hit: `/debug/pprof/profile` or `/debug/folded/profile`. */
  datatype Format = PprofFormat | FoldedFormat

  /** The query values the handler reads; an absent parameter reads as "". */
  datatype Query = Query(pid: string, seconds: string, test: string)

  /** Outcome of `os.Stat`: an error satisfying `os.IsNotExist`, any other
      error (its text), or the file's size. */
  datatype StatResult = NotExist | StatFailed(err: string) | FileInfo(size: nat)

  /** Outcome of `exec.LookPath`: found, or the error text. */
  datatype Lookup = Found | NotFound(err: string)

  /** A subprocess command line: the program and its arguments. */
  datatype Command = Command(name: string, args: seq<string>)

  /** Outcome of `cmd.Run()`: the error text if it returned one (a non-zero
      exit or a failure to start), and the captured output streams. */
  datatype RunResult = RunResult(err: Option<string>, stdout: string, stderr: string)

  /** Outcome of `os.Open`: the file is open, or the error text. */
  datatype OpenResult = Opened | OpenFailed(err: string)

  /** What the operating system answers, as seen by one request. */
  datatype Env = Env(
    stat: string -> StatResult,
    lookPath: string -> Lookup,
    mkdirTemp: Result<string, string>,
    run: Command -> RunResult,
    open: string -> OpenResult)

  /** Side effects, in the order the handler performs them. `MkTemp` and
      `OpenFile` are recorded only when they succeed. */
  datatype Effect =
    | MkTemp(dir: string)
    | Exec(cmd: Command)
    | OpenFile(path: string)
    | Stream(path: string)
    | CloseFile(path: string)
    | RemoveAll(dir: string)

  /** What one request produces: its single response and its effect trace. */
  datatype Handled = Handled(response: Response, trace: seq<Effect>)

  const MaxSeconds: int := 300
  const SamplingFrequency: string := "999"
  const OctetStream: string := "application/octet-stream"
  const TextPlain: string := "text/plain"

  const MsgMissing: string := "Missing pid or seconds"
  const MsgInvalidSeconds: string := "Invalid seconds"
  const InvalidPidPrefix: string := "Invalid PID: "
  const MsgPerfPermission: string :=
    "Permission denied: perf requires elevated privileges. Run with sudo or adjust perf_event_paranoid settings."
  const MsgPerfDataMissing: string := "perf.data file was not created"
  const MsgPerfDataEmpty: string := "perf.data file is empty - no samples collected"
  const MsgNoSamples: string :=
    "No samples found in perf.data - process may have been idle during profiling"
  const MsgPprofPermission: string := "Permission denied accessing perf.data file"
  const MsgProfileMissing: string := "pprof file was not created"
  const MsgProfileEmpty: string := "pprof file is empty - conversion produced no data"

  /** Stderr patterns of the capture stage, in the order they are tried. */
  const PerfPatterns: seq<string> := ["Permission denied", "No such process"]
  /** Stderr patterns of the conversion stage, in the order they are tried. */
  const PprofPatterns: seq<string> := ["no samples", "permission denied"]

  /** `defer f()`: the deferred effect runs after everything already in the
      trace, just before control returns to the caller. */
  function Defer(h: Handled, e: Effect): Handled {
    Handled(h.response, h.trace + [e])
  }

  // ---------------------------------------------------------------------
  // Parameter validation

  /** The duration the handler accepts: `seconds` is a decimal literal whose
      value lies in 1..300, and `pid` is present. */
  predicate ValidParams(q: Query) {
    && q.pid != ""
    && IsDecimalLiteral(q.seconds)
    && 1 <= LiteralValue(q.seconds) <= MaxSeconds
  }

  /** The checks at the top of `runProfile`: both parameters present, then
      `seconds` an integer in 1..300. The error is the response to send. */
  function ParseDuration(q: Query): (r: Result<int, Response>)
    ensures r.Ok? <==> ValidParams(q)
    ensures r.Ok? ==> r.value == LiteralValue(q.seconds) && 1 <= r.value <= MaxSeconds
    ensures (q.pid == "" || q.seconds == "") ==> r == Err(Error(map[], MsgMissing, StatusBadRequest))
    ensures q.pid != "" && q.seconds != "" && r.Err? ==>
              r == Err(Error(map[], MsgInvalidSeconds, StatusBadRequest))
  {
    if q.pid == "" || q.seconds == "" then
      Err(Error(map[], MsgMissing, StatusBadRequest))
    else
      match Atoi(q.seconds)
      case None => Err(Error(map[], MsgInvalidSeconds, StatusBadRequest))
      case Some(dur) =>
        if dur <= 0 || dur > MaxSeconds then Err(Error(map[], MsgInvalidSeconds, StatusBadRequest))
        else Ok(dur)
  }

  // ---------------------------------------------------------------------
  // PID and tool checks

  function ProcPath(pid: string): string {
    "/proc/" + pid
  }

  /** `validatePID`: the PID must be an integer literal (any sign) and
      `/proc/<pid>` must stat cleanly. The error is the Go error's text. */
  function ValidatePID(pid: string, stat: string -> StatResult): (r: Option<string>)
    ensures r.None? <==> IsDecimalLiteral(pid) && InInt64(LiteralValue(pid))
                         && stat(ProcPath(pid)).FileInfo?
    ensures !(IsDecimalLiteral(pid) && InInt64(LiteralValue(pid))) ==> r == Some("invalid PID format: " + pid)
    ensures IsDecimalLiteral(pid) && InInt64(LiteralValue(pid)) && stat(ProcPath(pid)).NotExist? ==>
              r == Some("process with PID " + pid + " does not exist")
    ensures IsDecimalLiteral(pid) && InInt64(LiteralValue(pid)) && stat(ProcPath(pid)).StatFailed? ==>
              r == Some("cannot access process " + pid + ": " + stat(ProcPath(pid)).err)
  {
    if Atoi(pid).None? then Some("invalid PID format: " + pid)
    else
      match stat(ProcPath(pid))
      case NotExist => Some("process with PID " + pid + " does not exist")
      case StatFailed(e) => Some("cannot access process " + pid + ": " + e)
      case FileInfo(_) => None
  }

  /** `checkRequiredTools`: perf is looked up first, then pprof; the first
      missing one is reported with an install hint. */
  function CheckRequiredTools(lookPath: string -> Lookup): (r: Option<string>)
    ensures r.None? <==> lookPath("perf").Found? && lookPath("pprof").Found?
    ensures lookPath("perf").NotFound? ==>
              r == Some("perf tool not found: " + lookPath("perf").err
                        + ". Install with: sudo apt-get install linux-perf")
    ensures lookPath("perf").Found? && lookPath("pprof").NotFound? ==>
              r == Some("pprof tool not found: " + lookPath("pprof").err
                        + ". Install with: go install github.com/google/pprof@latest")
  {
    match lookPath("perf")
    case NotFound(e) =>
      Some("perf tool not found: " + e + ". Install with: sudo apt-get install linux-perf")
    case Found =>
      match lookPath("pprof")
      case NotFound(e) =>
        Some("pprof tool not found: " + e + ". Install with: go install github.com/google/pprof@latest")
      case Found => None
  }

  // ---------------------------------------------------------------------
  // The pprof pipeline: perf record, then pprof conversion

  /** `filepath.Join(dir, name)` for the clean directory `os.MkdirTemp` returns. */
  function PathJoin(dir: string, name: string): string {
    dir + "/" + name
  }

  function PerfDataPath(dir: string): string {
    PathJoin(dir, "perf.data")
  }

  function ProfilePath(dir: string): string {
    PathJoin(dir, "profile.pb.gz")
  }

  /** `perf record -g --pid <pid> -F 999 -o <dir>/perf.data -- sleep <duration>`. */
  function PerfCommand(pid: string, duration: int, dir: string): Command {
    Command("perf", ["record", "-g", "--pid", pid, "-F", SamplingFrequency,
                     "-o", PerfDataPath(dir), "--", "sleep", Itoa(duration)])
  }

  /** `pprof -proto -output <dir>/profile.pb.gz <dir>/perf.data`. */
  function PprofCommand(dir: string): Command {
    Command("pprof", ["-proto", "-output", ProfilePath(dir), PerfDataPath(dir)])
  }

  /** The response to a failed `perf record`, chosen by the first stderr
      pattern that occurs (case-sensitive), else a 500 carrying stderr. */
  function PerfFailure(pid: string, err: string, stderr: string): (r: Response)
    ensures Contains(stderr, "Permission denied") ==> IsError(r, StatusForbidden, MsgPerfPermission)
    ensures !Contains(stderr, "Permission denied") && Contains(stderr, "No such process") ==>
              IsError(r, StatusBadRequest,
                      "Process with PID " + pid + " not found or exited during profiling")
    ensures !Contains(stderr, "Permission denied") && !Contains(stderr, "No such process") ==>
              IsError(r, StatusInternalServerError, "perf record failed: " + err + "\nStderr: " + stderr)
  {
    match FirstMatch(PerfPatterns, stderr)
    case Some(i) =>
      if i == 0 then Error(map[], MsgPerfPermission, StatusForbidden)
      else Error(map[], "Process with PID " + pid + " not found or exited during profiling", StatusBadRequest)
    case None =>
      Error(map[], "perf record failed: " + err + "\nStderr: " + stderr, StatusInternalServerError)
  }

  /** The response to a failed pprof conversion: "no samples" first, then
      lower-case "permission denied", else a 500 carrying stderr. */
  function PprofFailure(err: string, stderr: string): (r: Response)
    ensures Contains(stderr, "no samples") ==> IsError(r, StatusBadRequest, MsgNoSamples)
    ensures !Contains(stderr, "no samples") && Contains(stderr, "permission denied") ==>
              IsError(r, StatusForbidden, MsgPprofPermission)
    ensures !Contains(stderr, "no samples") && !Contains(stderr, "permission denied") ==>
              IsError(r, StatusInternalServerError, "pprof conversion failed: " + err + "\nStderr: " + stderr)
  {
    match FirstMatch(PprofPatterns, stderr)
    case Some(i) =>
      if i == 0 then Error(map[], MsgNoSamples, StatusBadRequest)
      else Error(map[], MsgPprofPermission, StatusForbidden)
    case None =>
      Error(map[], "pprof conversion failed: " + err + "\nStderr: " + stderr, StatusInternalServerError)
  }

  /** The suggested download name: `attachment; filename=profile-<pid>-<d>.pb.gz`. */
  function Disposition(pid: string, duration: int): string {
    "attachment; filename=profile-" + pid + "-" + Itoa(duration) + ".pb.gz"
  }

  /** Step 3 of `runPerfProfile`: open the converted profile, set the
      download headers and stream it; the file is closed by a deferred call. */
  function ServeProfile(pid: string, duration: int, path: string, env: Env): (h: Handled)
    ensures env.open(path).OpenFailed? ==> h.trace == []
    ensures env.open(path).OpenFailed? ==>
              IsError(h.response, StatusInternalServerError, "Failed to open pprof file: " + env.open(path).err)
    ensures env.open(path).Opened? ==>
              && h.trace == [OpenFile(path), Stream(path), CloseFile(path)]
              && h.response.status == StatusOK
              && h.response.header == map[ContentType := OctetStream,
                                          ContentDisposition := Disposition(pid, duration)]
              && h.response.body == FileContents(path)
  {
    match env.open(path)
    case OpenFailed(e) =>
      Handled(Error(map[], "Failed to open pprof file: " + e, StatusInternalServerError), [])
    case Opened =>
      var header := map[ContentType := OctetStream][ContentDisposition := Disposition(pid, duration)];
      Defer(Handled(Write(header, FileContents(path)), [OpenFile(path), Stream(path)]), CloseFile(path))
  }

  /** A stat result that `runPerfProfile` accepts as a usable output file. */
  predicate NonEmptyFile(s: StatResult) {
    s.FileInfo? && s.size > 0
  }

  /** The conversion stage and what follows it, once perf.data is usable. */
  function ConvertAndServe(pid: string, duration: int, dir: string, env: Env): (h: Handled)
    ensures |h.trace| > 0 && h.trace[0] == Exec(PprofCommand(dir))
    ensures h.response.status == StatusOK <==>
              && env.run(PprofCommand(dir)).err.None?
              && NonEmptyFile(env.stat(ProfilePath(dir)))
              && env.open(ProfilePath(dir)).Opened?
    ensures h.response.status == StatusOK ==>
              h.trace == [Exec(PprofCommand(dir))] + ServeProfile(pid, duration, ProfilePath(dir), env).trace
    ensures h.response.status != StatusOK ==> h.trace == [Exec(PprofCommand(dir))]
    ensures env.run(PprofCommand(dir)).err.None? && !env.stat(ProfilePath(dir)).FileInfo? ==>
              IsError(h.response, StatusInternalServerError, MsgProfileMissing)
    ensures env.run(PprofCommand(dir)).err.None? && env.stat(ProfilePath(dir)) == FileInfo(0) ==>
              IsError(h.response, StatusInternalServerError, MsgProfileEmpty)
  {
    var pprof := PprofCommand(dir);
    var converted := env.run(pprof);
    if converted.err.Some? then
      Handled(PprofFailure(converted.err.value, converted.stderr), [Exec(pprof)])
    else
      match env.stat(ProfilePath(dir))
      case NotExist =>
        Handled(Error(map[], MsgProfileMissing, StatusInternalServerError), [Exec(pprof)])
      case StatFailed(_) =>
        Handled(Error(map[], MsgProfileMissing, StatusInternalServerError), [Exec(pprof)])
      case FileInfo(size) =>
        if size == 0 then
          Handled(Error(map[], MsgProfileEmpty, StatusInternalServerError), [Exec(pprof)])
        else
          var served := ServeProfile(pid, duration, ProfilePath(dir), env);
          Handled(served.response, [Exec(pprof)] + served.trace)
  }

  /** The body of `runPerfProfile` after the workspace exists: capture,
      check perf.data, convert, check the profile, serve it. */
  function PerfSession(pid: string, duration: int, dir: string, env: Env): (h: Handled)
    ensures |h.trace| > 0 && h.trace[0] == Exec(PerfCommand(pid, duration, dir))
    ensures |h.trace| > 1 <==>
              env.run(PerfCommand(pid, duration, dir)).err.None? && NonEmptyFile(env.stat(PerfDataPath(dir)))
    ensures |h.trace| > 1 ==> h == Handled(ConvertAndServe(pid, duration, dir, env).response,
                                          [Exec(PerfCommand(pid, duration, dir))]
                                          + ConvertAndServe(pid, duration, dir, env).trace)
    ensures |h.trace| == 1 ==> h.response.status != StatusOK
  {
    var perf := PerfCommand(pid, duration, dir);
    var captured := env.run(perf);
    if captured.err.Some? then
      Handled(PerfFailure(pid, captured.err.value, captured.stderr), [Exec(perf)])
    else
      match env.stat(PerfDataPath(dir))
      case NotExist =>
        Handled(Error(map[], MsgPerfDataMissing, StatusInternalServerError), [Exec(perf)])
      case StatFailed(_) =>
        Handled(Error(map[], MsgPerfDataMissing, StatusInternalServerError), [Exec(perf)])
      case FileInfo(size) =>
        if size == 0 then
          Handled(Error(map[], MsgPerfDataEmpty, StatusInternalServerError), [Exec(perf)])
        else
          var rest := ConvertAndServe(pid, duration, dir, env);
          Handled(rest.response, [Exec(perf)] + rest.trace)
  }

  /** `runPerfProfile`: tool check, workspace creation with a deferred
      removal, then the session. */
  function RunPerfProfile(pid: string, duration: int, env: Env): (h: Handled)
    ensures CheckRequiredTools(env.lookPath).Some? ==> h.trace == []
    ensures CheckRequiredTools(env.lookPath).Some? ==>
              IsError(h.response, StatusInternalServerError,
                      "Required tools not available: " + CheckRequiredTools(env.lookPath).value)
    ensures CheckRequiredTools(env.lookPath).None? && env.mkdirTemp.Err? ==> h.trace == []
    ensures CheckRequiredTools(env.lookPath).None? && env.mkdirTemp.Err? ==>
              IsError(h.response, StatusInternalServerError,
                      "Failed to create temp directory: " + env.mkdirTemp.error)
  {
    match CheckRequiredTools(env.lookPath)
    case Some(e) =>
      Handled(Error(map[], "Required tools not available: " + e, StatusInternalServerError), [])
    case None =>
      match env.mkdirTemp
      case Err(e) =>
        Handled(Error(map[], "Failed to create temp directory: " + e, StatusInternalServerError), [])
      case Ok(dir) =>
        var session := PerfSession(pid, duration, dir, env);
        Defer(Handled(session.response, [MkTemp(dir)] + session.trace), RemoveAll(dir))
  }

  // ---------------------------------------------------------------------
  // The folded pipeline

  /** `sudo profile-bpfcc -p <pid> -F 999 -f <duration>`. */
  function BccCommand(pid: string, duration: int): Command {
    Command("sudo", ["profile-bpfcc", "-p", pid, "-F", SamplingFrequency, "-f", Itoa(duration)])
  }

  /** `runBCCProfile`: one subprocess; its stdout is the response body. */
  function RunBCCProfile(pid: string, duration: int, env: Env): (h: Handled)
    ensures h.trace == [Exec(BccCommand(pid, duration))]
  {
    var cmd := BccCommand(pid, duration);
    var result := env.run(cmd);
    if result.err.Some? then
      Handled(Error(map[], "Profiler failed: " + result.err.value + "\nStderr: " + result.stderr,
                    StatusInternalServerError), [Exec(cmd)])
    else
      Handled(Write(map[ContentType := TextPlain], Text(result.stdout)), [Exec(cmd)])
  }

  // ---------------------------------------------------------------------
  // The handler

  /** The content type each endpoint serves its profile with. */
  function ProfileContentType(format: Format): string {
    if format == PprofFormat then OctetStream else TextPlain
  }

  /** `runProfile(w, r, format)`. */
  function RunProfile(q: Query, format: Format, env: Env): Handled {
    match ParseDuration(q)
    case Err(rejection) => Handled(rejection, [])
    case Ok(duration) =>
      if q.test == "true" then
        Handled(Write(map[ContentType := ProfileContentType(format)],
                      Text(GenerateMockProfile(q.pid, duration))), [])
      else
        match ValidatePID(q.pid, env.stat)
        case Some(e) => Handled(Error(map[], InvalidPidPrefix + e, StatusBadRequest), [])
        case None =>
          if format == PprofFormat then RunPerfProfile(q.pid, duration, env)
          else RunBCCProfile(q.pid, duration, env)
  }

  // ---------------------------------------------------------------------
  // Authentication and routing

  /** HTTP basic-auth credentials sent with a request. */
  datatype Credentials = Credentials(user: string, password: string)

  predicate Authorized(creds: Option<Credentials>, password: string) {
    creds.Some? && creds.value.user == "admin" && creds.value.password == password
  }

  /** `basicAuth(handler, password)`: the wrapped handler runs only for user
      "admin" with the configured password; anything else is a 401. */
  function BasicAuth(password: string, creds: Option<Credentials>, handler: Handled): (h: Handled)
    ensures Authorized(creds, password) ==> h == handler
    ensures !Authorized(creds, password) ==>
              && h.trace == []
              && IsError(h.response, StatusUnauthorized, "Unauthorized")
              && WwwAuthenticate in h.response.header
              && h.response.header[WwwAuthenticate] == "Basic realm=\"bcc-exporter\""
  {
    if Authorized(creds, password) then handler
    else
      Handled(Error(map[WwwAuthenticate := "Basic realm=\"bcc-exporter\""], "Unauthorized",
                    StatusUnauthorized), [])
  }

  /** One request to one of the two endpoints, as `main` wires them: behind
      basic auth exactly when a password is configured. */
  function Serve(route: Format, password: string, creds: Option<Credentials>, q: Query, env: Env): Handled {
    if password != "" then BasicAuth(password, creds, RunProfile(q, route, env))
    else RunProfile(q, route, env)
  }
}
