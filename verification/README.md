# bcc-exporter request handling, modelled in Dafny

bcc-exporter is a small HTTP server. It profiles a running process on
demand. `/debug/pprof/profile?pid=<pid>&seconds=<n>` runs `perf record`
on the process and converts the capture with `pprof -proto`. Then it
streams the resulting `profile.pb.gz` as a download.
`/debug/folded/profile` runs `sudo profile-bpfcc` and returns its
folded-stack text. With `test=true`, either endpoint answers with a fixed
mock profile and runs nothing.

The model makes one request's handling a pure function:

    RunProfile(q: Query, format: Format, env: Env): Handled

- `Query` holds the three query values (`pid`, `seconds`, `test`); an
  absent one reads as "".
- `Format` names the endpoint.
- `Env` answers every question the handler asks the operating system:
  - `stat` for `os.Stat`, by path;
  - `lookPath` for `exec.LookPath`, by tool name;
  - `mkdirTemp` for `os.MkdirTemp`;
  - `run` for one subprocess, by its exact command line;
  - `open` for `os.Open`, by path.
- `Handled` is the single response (status, header map, body) plus the
  ordered trace of side effects the handler performs:
  - `MkTemp` and `RemoveAll` for the workspace;
  - `Exec` with the full argv;
  - `OpenFile`, `Stream` and `CloseFile` for the served profile.
- A Go `defer` is modelled as an effect appended after everything the
  function did. Nested defers therefore unwind last-in, first-out.
- `http.Error` is modelled as Go writes it: status, `text/plain;
  charset=utf-8`, `nosniff`, and the message plus a newline.

Modules, in dependency order:

- `Wrappers`: `Option` and `Result`.
- `Strconv`: Go's `strconv.Atoi` on 64-bit `int`, exactly. It takes an
  optional sign, then at least one ASCII digit, and rejects anything out of
  range. Also `%d` rendering (`Itoa`), with both round trips.
- `Strings`: `strings.Contains`, ordered first-match classification,
  `strings.Join` and `strings.Split` on newlines.
- `Folded`: folded-stack samples, their one-line rendering
  `frame;frame;... COUNT`, and a recogniser for such lines.
- `Http`: status codes, header names, `http.Error` and a plain write.
- `Mock`: `generateMockProfile` as a header line followed by six structured
  samples. The mock's text is produced by rendering those samples.
- `Exporter`: the handler and both pipelines (`runProfile`, `validatePID`,
  `checkRequiredTools`, `runPerfProfile`, `runBCCProfile`) and the
  basic-auth guard.
- `Properties`: the properties over all requests and environments.

## Behaviour worth noting

- An empty `perf.data` after a clean capture is a 500 (main.go:186-187),
  although its message says no samples were collected; an idle process
  found only at conversion time is a 400 (main.go:203-204).
- A PID only has to parse with `strconv.Atoi` (main.go:110). So `-1` and
  `+5` pass the format check and are decided by the `/proc` lookup.
- The folded endpoint does no tool check and creates no workspace
  (main.go:244-275).
- A non-numeric `seconds` and an out-of-range one get the same message,
  "Invalid seconds" (main.go:75-76). `+5` is accepted as 5.
- Stderr classification is case-sensitive, and its patterns differ by
  stage. The capture stage looks for "Permission denied" and the conversion
  stage for "permission denied", so the bare message one stage answers 403
  to is a 500 at the other (`Properties.PerfClassificationIsCaseSensitive`,
  `Properties.PprofClassificationIsCaseSensitive`).
- Test mode skips `validatePID` (main.go:80-90), so the PID reaches the
  mock unchecked. A PID with a newline, such as `1%0A2`, splits the mock's
  header (main.go:278): its second line becomes `2, duration 5 seconds`,
  which is not a folded line. This is why `Mock.MockProfileLines` requires
  a newline-free PID.

## Model

| member | source | states |
|---|---|---|
| Strconv.Atoi | main.go:74 | Succeeds exactly on an optional sign followed by one or more ASCII digits whose value fits in 64 bits, and then returns that value |
| Strconv.AtoiOfItoa | main.go:161 | Reading back the `%d` rendering of any 64-bit int gives the same int |
| Strconv.ItoaOfAtoi | main.go:74 | Rendering a parsed canonical literal (no '+', no leading zero, no "-0") reproduces the literal |
| Strconv.DigitsValueOfNatToDecimal | main.go:161 | The digits written for a natural number denote that number |
| Strconv.NatToDecimalOfDigitsValue | main.go:161 | On digit strings without a leading zero, writing the denoted number reproduces the string |
| Strings.Contains | main.go:172 | Substring search holds exactly when the pattern occurs at some offset of the text |
| Strings.FirstMatch | main.go:172-178 | Returns the first pattern, in order, that occurs in the text; returns none exactly when no pattern occurs |
| Strings.NotContainsWithoutChar | main.go:205 | A text that lacks one character of the pattern does not contain the pattern |
| Folded.JoinIsFrameList | main.go:279-284 | Joining valid frame names with ';' gives a non-empty list with no empty frame, no space and no newline |
| Folded.LineIsFolded | main.go:279-284 | A sample with valid frames renders as `frames COUNT` with a decimal count |
| Folded.SplitRender | main.go:278-285 | Splitting the rendered samples on newlines gives back exactly one line per sample, in order, then the empty remainder after the final newline |
| Folded.SplitHeaderAndRender | main.go:278-285 | A newline-free header line followed by rendered samples splits into the header, the sample lines, and the empty remainder |
| Folded.LinesAreFolded | main.go:279-284 | Every rendered line of valid samples has the folded-stack form |
| Mock.GenerateMockProfile | main.go:277-286 | The mock starts with "# Mock profile data for PID " and contains the PID, the `%d` duration and "redis-server" |
| Mock.HeaderEmbedsValues | main.go:278 | The header line embeds the PID and the rendered duration whatever follows it |
| Mock.MockStacksValid | main.go:279-284 | All six mock stacks consist of valid frame names |
| Mock.MockProfileLines | main.go:277-286 | For a newline-free PID, the mock splits into the header, the six stack lines in order, and a trailing empty string; every stack line is a folded line |
| Exporter.ParseDuration | main.go:69-78 | Accepts exactly a present `pid` and a `seconds` that parses to 1..300, yielding that value. A missing value answers 400 "Missing pid or seconds"; any other rejection answers 400 "Invalid seconds" |
| Exporter.ValidatePID | main.go:108-123 | Accepts exactly an `Atoi`-valid PID whose `/proc/<pid>` stats cleanly. Otherwise the error reports an invalid format (any `Atoi` failure, including a 64-bit overflow), a non-existent process, or the inaccessible process with the stat error |
| Exporter.CheckRequiredTools | main.go:126-138 | Passes exactly when both `perf` and `pprof` resolve. A missing `perf` is reported first, as "perf tool not found: " with the lookup error and the apt-get install hint; otherwise a missing `pprof` gives "pprof tool not found: " with its lookup error and the `go install` hint |
| Exporter.PerfFailure | main.go:171-178 | Failed capture: "Permission denied" in stderr gives 403; otherwise "No such process" gives 400 naming the PID; otherwise 500 carrying the error and stderr |
| Exporter.PprofFailure | main.go:202-209 | Failed conversion: "no samples" gives 400; otherwise lower-case "permission denied" gives 403; otherwise 500 carrying the error and stderr |
| Exporter.ServeProfile | main.go:223-232 | An open failure is a 500 with no effects. Otherwise: 200, octet-stream, the download name, the file as body, and the trace open, stream, close |
| Exporter.ConvertAndServe | main.go:193-232 | Conversion runs first; the answer is 200 exactly when conversion exits cleanly, the profile is non-empty and opens. Any failure stops after the conversion. After a clean conversion a missing or unreadable profile is 500 "pprof file was not created" and an empty one 500 "pprof file is empty - conversion produced no data" |
| Exporter.PerfSession | main.go:161-189 | Capture runs first; anything follows it exactly when the capture exits cleanly and leaves a non-empty perf.data. Otherwise the answer is not 200 |
| Exporter.RunPerfProfile | main.go:141-154 | A missing tool or a failed `MkdirTemp` is a 500 with the Go message and no effects |
| Exporter.RunBCCProfile | main.go:244-275 | The folded pipeline's whole trace is the single `sudo profile-bpfcc` command |
| Exporter.BasicAuth | main.go:44-54 | Only user "admin" with the configured password reaches the handler. Anything else is a 401 with `WWW-Authenticate: Basic realm="bcc-exporter"` and no effects |
| Exporter.RunProfile | main.go:64-105 | `runProfile`: validation, the test-mode bypass, the PID check, then the endpoint's pipeline. Specified by `Properties.RejectionHasNoEffects`, `TestModeShortCircuit`, `InvalidPidIsBadRequest`, `Dispatch`, `WorkspaceAlwaysRemoved`, `StreamOnlyOnSuccess` and `StatusCodes` |
| Exporter.Serve | main.go:27-33 | The two endpoints behind basic auth exactly when a password is configured. Specified by `Properties.AuthGuard` |
| Mock.MockHeader | main.go:278 | The mock's first line with the PID and the `%d` duration. Specified by `Mock.HeaderEmbedsValues` and `Mock.MockProfileLines` |
| Exporter.PerfCommand | main.go:161 | The capture argv. Specified by `Properties.PerfRecordArguments` |
| Exporter.PprofCommand | main.go:193 | The conversion argv. Specified by `Properties.PprofArguments` |
| Exporter.BccCommand | main.go:246-254 | The `sudo profile-bpfcc` argv. Specified by `Properties.FoldedPipeline` |
| Exporter.Disposition | main.go:232 | The download name `profile-<pid>-<seconds>.pb.gz`. Specified by `Properties.PprofSuccess` and `Properties.DispositionExample` |
| Properties.RejectionHasNoEffects | main.go:69-78 | A request failing parameter validation is a 400 with the matching message and an empty trace, whatever the environment |
| Properties.DurationRange | main.go:74-78 | With both parameters present, `seconds` is accepted exactly when it parses to a value in 1..300, and that value is the duration |
| Properties.DurationLowerBound | main.go:75 | 1 is accepted and 0 is rejected |
| Properties.DurationUpperBound | main.go:75 | 300 is accepted and 301 is rejected |
| Properties.DurationSignedLiterals | main.go:74-75 | "+5" is accepted as 5; "-5" is rejected |
| Properties.DurationRejections | main_test.go:133-142 | "abc" and "500" both get 400 "Invalid seconds" |
| Properties.TestModeShortCircuit | main.go:80-90 | Valid parameters with `test=true` give 200 with the mock body and the endpoint's content type, no download name and no effects; the environment is never consulted |
| Properties.TestModeExample | main_test.go:60-110 | `pid=1234&seconds=5&test=true` gives 200 with the endpoint's content type and a mock body whose first line is literally `# Mock profile data for PID 1234, duration 5 seconds` and which contains "redis-server" |
| Properties.ExampleMockHeader | main.go:277-278 | For PID "1234" and duration 5 the mock begins with the line `# Mock profile data for PID 1234, duration 5 seconds` and a newline |
| Properties.InvalidPidIsBadRequest | main.go:92-96 | A PID failing validation gives 400 "Invalid PID: " followed by the validation error, with no effects |
| Properties.NonNumericPidIsMalformed | main_test.go:23-27 | "abc" is an invalid PID format |
| Properties.EmptyPidIsMalformed | main_test.go:28-32 | "" is an invalid PID format |
| Properties.MissingProcessExample | main_test.go:33-37 | "999999" with no /proc entry is a process that does not exist |
| Properties.LivePidExample | main_test.go:18-22 | "1" is accepted when /proc/1 stats |
| Properties.NegativePidPassesFormatCheck | main.go:110-120 | "-1" passes the format check and is decided by the /proc lookup alone |
| Properties.PerfClassificationIsCaseSensitive | main.go:172-177 | Lower-case "permission denied" from the capture stage is a 500, not a 403 |
| Properties.PprofClassificationIsCaseSensitive | main.go:203-208 | Capitalised "Permission denied" from the conversion stage is a 500, not a 403 |
| Properties.PprofNoSamplesWins | main.go:203-206 | When conversion stderr has both "no samples" and "permission denied", the answer is 400 |
| Properties.ServeProfileHasNoWorkspaceEffect | main.go:223-238 | Serving the file never creates or removes a workspace |
| Properties.ConvertAndServeHasNoWorkspaceEffect | main.go:193-238 | Conversion and serving never create or remove a workspace |
| Properties.PerfSessionHasNoWorkspaceEffect | main.go:161-238 | The session inside the workspace never creates or removes one |
| Properties.WorkspaceAlwaysRemoved | main.go:149-154 | Every trace either has no workspace effect, or creates the workspace first and removes that same directory exactly once, last |
| Properties.WorkspaceCreatedIff | main.go:143-154 | A workspace is created exactly when a valid, non-test pprof request passes the tool check and `MkdirTemp` succeeds |
| Properties.Dispatch | main.go:98-104 | Past validation, the pprof endpoint runs the perf pipeline and the folded endpoint the BCC pipeline, with the parsed duration |
| Properties.PreparedTrace | main.go:149-154 | Once the workspace exists, the trace is its creation, the session's effects, and its removal; the answer is the session's |
| Properties.PerfRecordArguments | main.go:156-161 | The capture runs `perf record -g --pid <pid> -F 999 -o <dir>/perf.data -- sleep <seconds>` |
| Properties.PprofArguments | main.go:193 | The conversion runs `pprof -proto -output <dir>/profile.pb.gz <dir>/perf.data` |
| Properties.CaptureRunsFirst | main.go:149-166 | Inside the workspace, the capture is the first command run |
| Properties.PprofGatedOnCapture | main.go:166-198 | The conversion runs, third in the trace, exactly when the capture exits cleanly and perf.data is non-empty |
| Properties.StreamGatedOnConversion | main.go:198-235 | The profile is streamed only after a clean conversion that left a non-empty profile |
| Properties.UnusablePerfDataIsServerError | main.go:183-189 | After a clean capture, a missing perf.data is 500 "was not created" and an empty one is 500 "is empty" |
| Properties.UnusableProfileIsServerError | main.go:213-220 | After a clean conversion, a missing profile.pb.gz is 500 "was not created" and an empty one 500 "is empty"; the trace is creation, capture, conversion, removal |
| Properties.UnusableProfileAnswer | main.go:99-100 | For the handler, a valid non-test pprof request whose conversion leaves no usable profile is a 500 that streams nothing, with the workspace removed last |
| Properties.CaptureFailureClassified | main.go:166-180 | A failed capture answers by the capture-stage classification; the trace is creation, capture, removal |
| Properties.ConversionFailureClassified | main.go:198-211 | A failed conversion answers by the conversion-stage classification; the trace is creation, capture, conversion, removal |
| Properties.PprofSuccess | main.go:214-232 | The pprof answer is 200 exactly when every stage succeeds. It then has the octet-stream type, the download name and the file body, and the trace ends with open, stream, close, then workspace removal |
| Properties.DispositionExample | main_test.go:290-299 | `pid=1`, one second downloads as `profile-1-1.pb.gz` |
| Properties.ConversionStreamsOnlyOnSuccess | main.go:198-235 | From the conversion on, a non-200 answer streams nothing and is an `http.Error` |
| Properties.SessionStreamsOnlyOnSuccess | main.go:166-235 | Inside the workspace, a non-200 answer streams nothing and is an `http.Error` |
| Properties.PerfPipelineStreamsOnlyOnSuccess | main.go:141-235 | The pprof pipeline streams only in its 200 answer, which always carries the file |
| Properties.FoldedStreamsNothing | main.go:263-274 | The folded pipeline never streams a file; its failure is an `http.Error` |
| Properties.EarlyAnswers | main.go:69-96 | Rejections and the mock have no effects and a text body |
| Properties.StreamOnlyOnSuccess | main.go:64-105 | For every request, a file is streamed only in a 200 answer, and every non-200 answer is an `http.Error` |
| Properties.SessionStatus | main.go:161-232 | Inside the workspace, every answer is 200, 400, 403 or 500 |
| Properties.PerfPipelineStatus | main.go:141-232 | Every pprof pipeline answer is 200, 400, 403 or 500 |
| Properties.StatusCodes | main.go:64-105 | Every handler answer is 200, 400, 403 or 500 |
| Properties.FoldedPipeline | main.go:244-275 | The folded endpoint runs `sudo profile-bpfcc -p <pid> -F 999 -f <seconds>` and nothing else, whatever the tool and temp-dir oracles say. It answers 200 `text/plain` with stdout verbatim, or 500 "Profiler failed" with the error and stderr |
| Properties.AuthGuard | main.go:27-33 | With a password configured, bad credentials give 401 and run nothing. Good credentials, or no password configured, give the unauthenticated handling |

## Left out

- `main`, flag parsing, handler registration beyond the choice above, and
  `http.ListenAndServe` (main.go:18-41) are process start-up and network
  I/O.
- The operating system is represented by oracles only. `os.Stat`,
  `exec.LookPath`, `os.MkdirTemp`, `os.Open` and each subprocess are the
  answers in `Env`; `/proc`, the file system and the tools themselves are
  not modelled.
- `os.RemoveAll` and `Close` are recorded as effects; their own errors are
  ignored by the code and so are not modelled.
- The `io.Copy` failure branch (main.go:235-238) only logs after the 200
  header has gone out. All `log.Printf` calls are output with no decision
  content.
- `Properties.AuthGuard` and `Exporter.BasicAuth` model the password check
  as equality. The constant-time property of `subtle.ConstantTimeCompare`
  is a timing property and cannot be stated here.
- `Exporter.PathJoin` is plain concatenation with "/", where
  `filepath.Join` also cleans the path. The two agree when the directory
  `os.MkdirTemp` returns is clean, which holds when `$TMPDIR` is unset (the
  default /tmp) or itself clean. A `$TMPDIR` such as `/var//tmp` or
  `./tmp` would change the argv; the model assumes a clean one.
- The temporary directory's name (the `bcc-exporter-` prefix under
  `os.TempDir`) is whatever the `mkdirTemp` oracle returns.
- Go's `http.Error` also deletes `Content-Length` and sets the status
  header. The model keeps only the headers this program can observe.
- `Mock.GenerateMockProfile` builds the mock from structured samples rather
  than from one format string. `Mock.MockProfileLines` states that the
  result has the source's line structure: the header, then the six stacks
  in order with their counts.
- Strings are modelled as sequences of characters, while Go strings are
  bytes and query values, stdout and stderr may be invalid UTF-8. The
  classification agrees with Go's byte search because every pattern in
  `PerfPatterns` and `PprofPatterns` is ASCII.
- `Strconv.Atoi` returns `None` for both Go error kinds (syntax and range),
  since every caller only tests for an error.
