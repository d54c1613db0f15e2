/** `generateMockProfile` (main.go): the deterministic synthetic profile that
    test mode serves in place of any real sampling. */
module Mock {
  import opened Strconv
  import opened Strings
  import opened Folded

  // Frame names of the mock stacks.
  const Main: string := "main"
  const RuntimeMain: string := "runtime.main"
  const MainMain: string := "main.main"
  const ListenAndServe: string := "net/http.ListenAndServe"
  const ServerServe: string := "net/http.(*Server).Serve"
  const ConnServe: string := "net/http.(*conn).serve"
  const ServeHttp: string := "net/http.serverHandler.ServeHTTP"
  const RedisServer: string := "redis-server"
  const AeMain: string := "aeMain"
  const AeProcessEvents: string := "aeProcessEvents"
  const AeApiPoll: string := "aeApiPoll"
  const ProcessCommand: string := "processCommand"
  const LookupCommand: string := "lookupCommand"
  const Call: string := "call"

  /** The six stacks of the mock text, in order: three from a Go HTTP server,
      three from a redis-server event loop. */
  const MockStacks: seq<Sample> := [
    Sample([Main, RuntimeMain, MainMain, ListenAndServe, ServerServe], 10),
    Sample([Main, RuntimeMain, MainMain, ListenAndServe, ServerServe, ConnServe], 25),
    Sample([Main, RuntimeMain, MainMain, ListenAndServe, ServerServe, ConnServe, ServeHttp], 15),
    Sample([RedisServer, Main, AeMain, AeProcessEvents, AeApiPoll], 50),
    Sample([RedisServer, Main, AeMain, AeProcessEvents, ProcessCommand, LookupCommand], 30),
    Sample([RedisServer, Main, AeMain, AeProcessEvents, ProcessCommand, Call], 40)
  ]

  const HeaderPrefix: string := "# Mock profile data for PID "

  /** The first line: `# Mock profile data for PID <pid>, duration <d> seconds`. */
  function MockHeader(pid: string, duration: int): string {
    HeaderPrefix + pid + ", duration " + Itoa(duration) + " seconds"
  }

  /** `generateMockProfile(pid, duration)`: the header line, then the mock
      stacks in folded form. It embeds the PID, the duration and redis frames. */
  function GenerateMockProfile(pid: string, duration: int): (r: string)
    ensures HeaderPrefix <= r
    ensures Contains(r, pid)
    ensures Contains(r, Itoa(duration))
    ensures Contains(r, "redis-server")
  {
    var r := MockHeader(pid, duration) + "\n" + Render(MockStacks);
    HeaderEmbedsValues(pid, duration, Render(MockStacks));
    RedisInRender();
    ContainsSuffix(MockHeader(pid, duration) + "\n", Render(MockStacks), "redis-server");
    r
  }

  /** The header line carries the PID and the decimal duration, whatever follows it. */
  lemma HeaderEmbedsValues(pid: string, duration: int, rest: string)
    ensures HeaderPrefix <= MockHeader(pid, duration) + "\n" + rest
    ensures Contains(MockHeader(pid, duration) + "\n" + rest, pid)
    ensures Contains(MockHeader(pid, duration) + "\n" + rest, Itoa(duration))
  {
    var d := Itoa(duration);
    var s := MockHeader(pid, duration) + "\n" + rest;
    assert s == HeaderPrefix + pid + (", duration " + d + " seconds\n" + rest);
    ContainsMiddle(HeaderPrefix, pid, ", duration " + d + " seconds\n" + rest);
    assert s == HeaderPrefix + pid + ", duration " + d + (" seconds\n" + rest);
    ContainsMiddle(HeaderPrefix + pid + ", duration ", d, " seconds\n" + rest);
  }

  /** Text containing `sub` still contains it after a prefix is added. */
  lemma ContainsSuffix(a: string, b: string, sub: string)
    requires Contains(b, sub)
    ensures Contains(a + b, sub)
  {
    var i :| OccursAt(b, sub, i);
    assert (a + b)[|a| + i..|a| + i + |sub|] == b[i..i + |sub|];
    assert OccursAt(a + b, sub, |a| + i);
  }

  /** The rendering of samples contains the outermost frame of each sample. */
  lemma {:induction false} RenderContainsOutermostFrame(samples: seq<Sample>, k: nat)
    requires k < |samples| && |samples[k].frames| > 0
    ensures Contains(Render(samples), samples[k].frames[0])
  {
    var f := samples[k].frames[0];
    if k == 0 {
      assert f <= Line(samples[0]);
      assert OccursAt(Render(samples), f, 0);
    } else {
      RenderContainsOutermostFrame(samples[1..], k - 1);
      ContainsSuffix(Line(samples[0]) + "\n", Render(samples[1..]), f);
      assert Render(samples) == Line(samples[0]) + "\n" + Render(samples[1..]);
    }
  }

  lemma RedisInRender()
    ensures Contains(Render(MockStacks), "redis-server")
  {
    RenderContainsOutermostFrame(MockStacks, 3);
  }

  /** Every stack of the mock profile is a valid folded sample. */
  lemma MockStacksValid()
    ensures forall i :: 0 <= i < |MockStacks| ==> ValidSample(MockStacks[i])
  {
    forall k | 0 <= k < |MockStacks|
      ensures ValidSample(MockStacks[k])
    {
      MockSampleValid(k);
    }
  }

  // The literal names are checked one at a time to keep each proof small.

  lemma MainValid() ensures ValidFrame(Main) {}
  lemma RuntimeMainValid() ensures ValidFrame(RuntimeMain) {}
  lemma MainMainValid() ensures ValidFrame(MainMain) {}
  lemma ListenAndServeValid() ensures ValidFrame(ListenAndServe) {}
  lemma ServerServeValid() ensures ValidFrame(ServerServe) {}
  lemma ConnServeValid() ensures ValidFrame(ConnServe) {}
  lemma ServeHttpValid() ensures ValidFrame(ServeHttp) {}
  lemma RedisServerValid() ensures ValidFrame(RedisServer) {}
  lemma AeMainValid() ensures ValidFrame(AeMain) {}
  lemma AeProcessEventsValid() ensures ValidFrame(AeProcessEvents) {}
  lemma AeApiPollValid() ensures ValidFrame(AeApiPoll) {}
  lemma ProcessCommandValid() ensures ValidFrame(ProcessCommand) {}
  lemma LookupCommandValid() ensures ValidFrame(LookupCommand) {}
  lemma CallValid() ensures ValidFrame(Call) {}

  lemma MockSampleValid(k: nat)
    requires k < |MockStacks|
    ensures ValidSample(MockStacks[k])
  {
    MainValid();
    RuntimeMainValid();
    MainMainValid();
    ListenAndServeValid();
    ServerServeValid();
    ConnServeValid();
    ServeHttpValid();
    RedisServerValid();
    AeMainValid();
    AeProcessEventsValid();
    AeApiPollValid();
    ProcessCommandValid();
    LookupCommandValid();
    CallValid();
    var fs := MockStacks[k].frames;
    forall i | 0 <= i < |fs|
      ensures ValidFrame(fs[i])
    {
      if i == 0 {} else if i == 1 {} else if i == 2 {} else if i == 3 {}
      else if i == 4 {} else if i == 5 {} else {}
    }
  }

  /** When the PID holds no newline, the mock text is exactly the header line,
      one well-formed `frame;...;frame COUNT` line per mock stack, and the
      empty piece after the final newline. */
  lemma MockProfileLines(pid: string, duration: int)
    requires '\n' !in pid
    ensures SplitLines(GenerateMockProfile(pid, duration))
              == [MockHeader(pid, duration)] + Lines(MockStacks) + [""]
    ensures forall i :: 0 <= i < |MockStacks| ==> IsFoldedLine(Lines(MockStacks)[i])
  {
    MockStacksValid();
    NoNewlineInHeader(pid, duration);
    SplitHeaderAndRender(MockHeader(pid, duration), MockStacks);
    LinesAreFolded(MockStacks);
  }

  lemma NoNewlineInHeader(pid: string, duration: int)
    requires '\n' !in pid
    ensures '\n' !in MockHeader(pid, duration)
  {
    NoNewlineInItoa(duration);
  }
}
