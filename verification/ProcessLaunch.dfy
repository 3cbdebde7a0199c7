/** When a command is started, which program that is, and by when it has to be done. */
module ProcessLaunch {
  import opened ProcessRunner
  import opened ProcessRuns
  import opened ProcessOutput

  // ---- Which program is started -----------------------------------------------------------------

  /** The eight commands that may be run. */
  predicate IsAllowed(name: string) {
    name in {"dpkg", "dpkg-query", "apt-mark", "apt-get", "uname", "dkms", "mokutil", "true"}
  }

  lemma AllowedExactly(name: string)
    ensures name in ALLOWED <==> IsAllowed(name)
    ensures IsAllowed(name) ==> '/' !in name && name != ""
  {
    assert ALLOWED == ["dpkg", "dpkg-query", "apt-mark", "apt-get", "uname", "dkms", "mokutil", "true"];
  }

  /** Some directory of the search path has the program. */
  predicate IsInstalled(name: string, executables: set<string>) {
    || "/usr/bin/" + name in executables || "/bin/" + name in executables
    || "/usr/sbin/" + name in executables || "/sbin/" + name in executables
  }

  lemma ResolvesExactly(name: string, executables: set<string>)
    requires '/' !in name
    ensures var path := Resolve(name, executables);
            if IsInstalled(name, executables) then
              path == if "/usr/bin/" + name in executables then "/usr/bin/" + name
                      else if "/bin/" + name in executables then "/bin/" + name
                      else if "/usr/sbin/" + name in executables then "/usr/sbin/" + name
                      else "/sbin/" + name
            else path == ""
  {
    var dirs := ["/usr/bin/", "/bin/", "/usr/sbin/", "/sbin/"];
    assert DIRECTORIES == dirs;
    ResolveFirst(dirs, name, executables);
    ResolveFirst(dirs[1..], name, executables);
    ResolveFirst(dirs[2..], name, executables);
    ResolveFirst(dirs[3..], name, executables);
    assert dirs[1..][1..] == dirs[2..] && dirs[2..][1..] == dirs[3..] && dirs[3..][1..] == [];
  }

  lemma ResolveFirst(dirs: seq<string>, name: string, executables: set<string>)
    requires dirs != []
    ensures ResolveIn(dirs, name, executables) ==
              if dirs[0] + name in executables then dirs[0] + name else ResolveIn(dirs[1..], name, executables)
  {
  }

  /**
   What a run comes to: a child is started exactly if the pipes and the fork succeed, the command is one of
   the eight and one of the four directories has it; otherwise the first of these that fails is what is said.
   */
  lemma LaunchedExactly(request: Request, launch: Launch, w: World)
    ensures var (outcome, name) := (Run(request, launch, w).0, request.executable);
            if !launch.firstPipe || !launch.secondPipe then outcome == Error("pipe failed")
            else if !IsAllowed(name) then outcome == Failed("executable is not allowlisted")
            else if !IsInstalled(name, launch.executables) then
              outcome == Failed("allowlisted executable is unavailable or not executable")
            else if !launch.fork then outcome == Error("fork failed")
            else Launched(outcome)
  {
    hide IsAllowed, IsInstalled, Attend, Advance, Close, Resolve;
    var name := request.executable;
    AllowedExactly(name);
    if launch.firstPipe && launch.secondPipe {
      if IsAllowed(name) {
        ResolvesExactly(name, launch.executables);
        InstalledIsSomewhere(name, launch.executables);
      }
      var w2 := Advance(Advance(w, Opened(StdOut)), Opened(StdErr));
      var (child, w3) := Spawn(request, launch, w2);
      ConcludeLaunches(request, child, CloseBoth(w3, WriteEnd(StdOut), WriteEnd(StdErr)));
    }
  }

  lemma InstalledIsSomewhere(name: string, executables: set<string>)
    ensures "/usr/bin/" + name != "" && "/bin/" + name != "" && "/usr/sbin/" + name != "" && "/sbin/" + name != ""
  {
  }

  lemma ConcludeLaunches(request: Request, child: Outcome, w: World)
    ensures Launched(Conclude(request, child, w).0) == Launched(child)
    ensures !Launched(child) ==> Conclude(request, child, w).0 == child
  {
    hide Supervise, Begin, Close;
    if Launched(child) {
      AttendLaunches(w, w.clock + request.timeout, request.maxOutputBytes);
    }
  }

  lemma AttendLaunches(w: World, deadline: int, limit: nat)
    ensures Launched(Attend(w, deadline, limit).0)
  {
    hide Begin;
    SuperviseSpawned(Begin(w, deadline), limit, deadline);
    NothingFailed(w, deadline);
  }

  lemma NothingFailed(w: World, deadline: int)
    ensures !Begin(w, deadline).result.spawnFailed
  {
  }

  lemma {:induction false} DrainSpawned(s: Sup, x: Stream, limit: nat)
    ensures Drain(s, x, limit).result.spawnFailed == s.result.spawnFailed
    decreases Left(s.w)
  {
    var (w, data) := Read(s.w, x);
    ReadTakesBytes(s.w, x);
    if data != "" {
      DrainSpawned(Sup(w, Take(s.result, x, data, limit), s.got.Set(x, s.got.Get(x) + data)), x, limit);
    }
  }

  lemma RoundSpawned(s: Sup, limit: nat, deadline: int)
    ensures Round(s, limit, deadline).0.result.spawnFailed == s.result.spawnFailed
  {
    hide Poll, Drain, WaitNoHang, KillAndReap;
    var s1 := s.(w := Poll(s.w));
    DrainSpawned(s1, StdOut, limit);
    DrainSpawned(Drain(s1, StdOut, limit), StdErr, limit);
  }

  lemma {:induction false} SuperviseSpawned(s: Sup, limit: nat, deadline: int)
    ensures Supervise(s, limit, deadline).result.spawnFailed == s.result.spawnFailed
    decreases deadline - s.w.clock
  {
    hide Round;
    RoundTakesTime(s, limit, deadline);
    RoundSpawned(s, limit, deadline);
    var (next, running) := Round(s, limit, deadline);
    if running { SuperviseSpawned(next, limit, deadline); }
  }

  // ---- How a run begins -------------------------------------------------------------------------

  lemma {:induction false} LogsGo(s: Sup, limit: nat, deadline: int)
    ensures s.w.log <= Supervise(s, limit, deadline).w.log
    decreases deadline - s.w.clock
  {
    hide Round;
    RoundTakesTime(s, limit, deadline);
    RoundLogsGo(s, limit, deadline);
    var (next, running) := Round(s, limit, deadline);
    if running { LogsGo(next, limit, deadline); }
  }

  lemma RoundLogsGo(s: Sup, limit: nat, deadline: int)
    ensures s.w.log <= Round(s, limit, deadline).0.w.log
  {
    hide Drain, WaitNoHang, KillAndReap;
    var s1 := s.(w := Poll(s.w));
    AdvanceLogs(s.w, Polled);
    var out := DrainLogs(s1, StdOut, limit);
    var s2 := Drain(s1, StdOut, limit);
    var err := DrainLogs(s2, StdErr, limit);
    WaitLogsGo(Drain(s2, StdErr, limit).w);
  }

  lemma WaitLogsGo(w: World)
    ensures var (v, _) := WaitNoHang(w); w.log <= v.log && w.log <= KillAndReap(v).log
  {
    hide Advance;
    var (v, child) := WaitNoHang(w);
    AdvanceLogs(w, Waited(child.Zombie?));
    AdvanceLogs(v, Killed(v.clock));
    AdvanceLogs(Advance(v, Killed(v.clock)).(child := Reaped), Waited(true));
  }

  lemma AttendLogsGo(w: World, deadline: int, limit: nat)
    ensures w.log + [SetDeadline(deadline)] <= Attend(w, deadline, limit).1.log
  {
    hide Supervise, Advance;
    AdvanceLogs(w, SetDeadline(deadline));
    var s := Begin(w, deadline);
    LogsGo(s, limit, deadline);
    var end := Supervise(s, limit, deadline).w;
    AdvanceLogs(end, Closed(ReadEnd(StdOut)));
    AdvanceLogs(Close(end, ReadEnd(StdOut)), Closed(ReadEnd(StdErr)));
  }

  lemma AdvanceTakes(w: World, c: Call)
    ensures var v := Advance(w, c);
      && v.clock == w.clock + w.schedule(w.turn).ticks && v.turn == w.turn + 1
      && v.schedule == w.schedule && v.log == w.log + [c]
  {
    AdvanceLogs(w, c);
    RunsKeepSchedule(w, w.schedule(w.turn).childSteps);
  }

  lemma StartedTakes(w: World, path: string)
    ensures var v := Started(w, path);
      && v.log == w.log + [Opened(StdOut), Opened(StdErr), Forked(path), Closed(WriteEnd(StdOut)),
                           Closed(WriteEnd(StdErr))]
      && v.clock == w.clock + w.schedule(w.turn).ticks + w.schedule(w.turn + 1).ticks + w.schedule(w.turn + 2).ticks
                            + w.schedule(w.turn + 3).ticks + w.schedule(w.turn + 4).ticks
  {
    hide Advance;
    AdvanceTakes(w, Opened(StdOut));
    var w1 := Advance(w, Opened(StdOut));
    AdvanceTakes(w1, Opened(StdErr));
    var w2 := Advance(w1, Opened(StdErr));
    AdvanceTakes(w2, Forked(path));
    var w3 := Forking(w, path);
    AdvanceTakes(w3, Closed(WriteEnd(StdOut)));
    AdvanceTakes(Close(w3, WriteEnd(StdOut)), Closed(WriteEnd(StdErr)));
  }

  /**
   How a run begins that starts a child: the program is the first that the four directories have, and the
   deadline is the clock behind the two closes plus the time-out that was asked for.
   */
  lemma RunBegins(request: Request, launch: Launch, w: World)
    requires Launched(Run(request, launch, w).0)
    ensures var (name, has) := (request.executable, launch.executables);
            var path := if "/usr/bin/" + name in has then "/usr/bin/" + name
                        else if "/bin/" + name in has then "/bin/" + name
                        else if "/usr/sbin/" + name in has then "/usr/sbin/" + name
                        else "/sbin/" + name;
            var started := w.clock + w.schedule(w.turn).ticks + w.schedule(w.turn + 1).ticks
                           + w.schedule(w.turn + 2).ticks + w.schedule(w.turn + 3).ticks + w.schedule(w.turn + 4).ticks;
            w.log + [Opened(StdOut), Opened(StdErr), Forked(path), Closed(WriteEnd(StdOut)), Closed(WriteEnd(StdErr))]
              + [SetDeadline(started + request.timeout)] <= Run(request, launch, w).1.log
  {
    hide Run, Attend, Started, IsAllowed, IsInstalled, Resolve, Launched;
    RunAttends(request, launch, w);
    LaunchedNeeds(request, launch, w);
    ResolvesExactly(request.executable, launch.executables);
    var path := Resolve(request.executable, launch.executables);
    StartedTakes(w, path);
    AttendLogsGo(Started(w, path), Started(w, path).clock + request.timeout, request.maxOutputBytes);
  }

  lemma LaunchedNeeds(request: Request, launch: Launch, w: World)
    requires Launched(Run(request, launch, w).0)
    ensures '/' !in request.executable && IsInstalled(request.executable, launch.executables)
  {
    hide Run, IsAllowed, IsInstalled;
    LaunchedExactly(request, launch, w);
    AllowedExactly(request.executable);
  }
}
