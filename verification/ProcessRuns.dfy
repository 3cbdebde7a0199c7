/** What holds of every run of a command, whatever the child does and whenever it does it. */
module ProcessRuns {
  import opened ProcessRunner
  import opened Wrappers

  // ---- Capture ----------------------------------------------------------------------------------

  function Prefix(s: string, limit: nat): string {
    if |s| <= limit then s else s[..limit]
  }

  /** The result holds the first `limit` bytes of each stream and says whether that was all. */
  predicate Captures(r: ProcessResult, got: Both<string>, limit: nat) {
    && r.stdoutText == Prefix(got.out, limit) && (r.stdoutTruncated <==> |got.out| > limit)
    && r.stderrText == Prefix(got.err, limit) && (r.stderrTruncated <==> |got.err| > limit)
    && (r.truncated <==> |got.out| > limit || |got.err| > limit)
  }

  lemma TakeCaptures(r: ProcessResult, got: Both<string>, x: Stream, data: string, limit: nat)
    requires Captures(r, got, limit)
    ensures Captures(Take(r, x, data, limit), got.Set(x, got.Get(x) + data), limit)
  {
  }

  /** Any sequence of chunks of the two streams. */
  function TakeAll(chunks: seq<(Stream, string)>, limit: nat): ProcessResult {
    if chunks == [] then EMPTY_RESULT
    else
      var (x, data) := chunks[|chunks| - 1];
      Take(TakeAll(chunks[..|chunks| - 1], limit), x, data, limit)
  }

  function Content(chunks: seq<(Stream, string)>): Both<string> {
    if chunks == [] then Both("", "")
    else
      var (x, data) := chunks[|chunks| - 1];
      var before := Content(chunks[..|chunks| - 1]);
      before.Set(x, before.Get(x) + data)
  }

  lemma {:induction false} CapturesContent(chunks: seq<(Stream, string)>, limit: nat)
    ensures Captures(TakeAll(chunks, limit), Content(chunks), limit)
  {
    if chunks != [] {
      CapturesContent(chunks[..|chunks| - 1], limit);
      var (x, data) := chunks[|chunks| - 1];
      TakeCaptures(TakeAll(chunks[..|chunks| - 1], limit), Content(chunks[..|chunks| - 1]), x, data, limit);
    }
  }

  lemma {:induction false} OtherFieldsStay(chunks: seq<(Stream, string)>, limit: nat)
    ensures var r := TakeAll(chunks, limit);
            EMPTY_RESULT == r.(stdoutText := "", stderrText := "", truncated := false,
                               stdoutTruncated := false, stderrTruncated := false)
  {
    if chunks != [] { OtherFieldsStay(chunks[..|chunks| - 1], limit); }
  }

  /** How the streams are cut into chunks and interleaved makes no difference. */
  lemma CaptureIgnoresChunks(chunks: seq<(Stream, string)>, others: seq<(Stream, string)>, limit: nat)
    requires Content(chunks) == Content(others)
    ensures TakeAll(chunks, limit) == TakeAll(others, limit)
  {
    CapturesContent(chunks, limit);
    CapturesContent(others, limit);
    OtherFieldsStay(chunks, limit);
    OtherFieldsStay(others, limit);
  }

  // ---- The protocol of system calls -------------------------------------------------------------

  datatype Life = NotForked | Alive | Gone

  /**
   What a monitor of the parent's calls knows: open and closed descriptors, the child, the deadline, and
   whether there was a kill.
   */
  datatype Monitor = Monitor(open: set<End>, spent: set<End>, life: Life, deadline: int, killed: bool)

  /** The monitor after one more call, unless the call breaks the protocol. */
  function Observe(m: Monitor, c: Call): (r: Verdict) {
    match c
    case Opened(x) =>
      var ends := {ReadEnd(x), WriteEnd(x)};
      if ends !! m.open + m.spent then Fine(m.(open := m.open + ends)) else Broken
    case Closed(fd) =>
      if fd in m.open then Fine(m.(open := m.open - {fd}, spent := m.spent + {fd})) else Broken
    case Forked(_) =>
      if m.life.NotForked? && WriteEnd(StdOut) in m.open && WriteEnd(StdErr) in m.open
      then Fine(m.(life := Alive)) else Broken
    case SetDeadline(t) => Fine(m.(deadline := t))
    case Polled =>
      if ReadEnd(StdOut) in m.open && ReadEnd(StdErr) in m.open then Fine(m) else Broken
    case ReadFrom(x) => if ReadEnd(x) in m.open then Fine(m) else Broken
    case Waited(reaped) =>
      if m.life.Alive? then Fine(if reaped then m.(life := Gone) else m) else Broken
    case Killed(at) => if m.life.Alive? && at >= m.deadline then Fine(m.(killed := true)) else Broken
  }

  datatype Verdict = Fine(m: Monitor) | Broken

  const START := Monitor({}, {}, NotForked, 0, false)

  function Watch(log: seq<Call>): Verdict {
    if log == [] then Fine(START)
    else match Watch(log[..|log| - 1])
      case Fine(m) => Observe(m, log[|log| - 1])
      case Broken => Broken
  }

  lemma WatchMore(log: seq<Call>, c: Call)
    ensures Watch(log + [c]) == (match Watch(log) case Fine(m) => Observe(m, c) case Broken => Broken)
  {
    assert (log + [c])[..|log|] == log;
  }

  ghost predicate HasKill(log: seq<Call>) {
    exists c :: c in log && c.Killed?
  }

  lemma {:induction false} KillIsObserved(log: seq<Call>)
    requires Watch(log).Fine?
    ensures Watch(log).m.killed <==> HasKill(log)
  {
    if log != [] {
      var front, last := log[..|log| - 1], log[|log| - 1];
      KillIsObserved(front);
      KillAtTheEnd(log);
    }
  }

  lemma KillAtTheEnd(log: seq<Call>)
    requires log != []
    ensures HasKill(log) <==> HasKill(log[..|log| - 1]) || log[|log| - 1].Killed?
  {
    assert log == log[..|log| - 1] + [log[|log| - 1]];
  }

  // ---- One step of the machine ------------------------------------------------------------------

  /** Every byte written was read or is still in the pipe. */
  predicate Conserves(w: World, got: Both<string>) {
    && w.pipes.out.written == got.out + w.pipes.out.pending
    && w.pipes.err.written == got.err + w.pipes.err.pending
  }

  /** The status with which a program ends; what it says behind that is never done. */
  function FirstDeath(program: seq<ChildStep>): Option<WaitStatus> {
    if program == [] then None
    else match program[0]
      case Die(status) => Some(status)
      case Write(_, _) => FirstDeath(program[1..])
  }

  /** `w` is reached from the child's program `whole`, with the bytes of `got` read on the way. */
  ghost predicate On(w: World, whole: seq<ChildStep>, got: Both<string>) {
    && Conserves(w, got)
    && (w.child.NoChild? || w.child.Running? ==> FirstDeath(w.program) == FirstDeath(whole))
    && (w.child.Zombie? ==> FirstDeath(whole) == Some(w.child.status))
  }

  lemma {:induction false} ChildRunsStaysOn(w: World, n: nat, whole: seq<ChildStep>, got: Both<string>)
    requires On(w, whole, got)
    ensures On(ChildRuns(w, n), whole, got)
    ensures ChildRuns(w, n).log == w.log && ChildRuns(w, n).clock == w.clock
    ensures w.child.Running? || w.child.Zombie? ==> ChildRuns(w, n).child.Running? || ChildRuns(w, n).child.Zombie?
    ensures !w.child.Running? ==> ChildRuns(w, n).child == w.child
    decreases n
  {
    if !(n == 0 || !w.child.Running? || w.program == []) {
      ChildRunsStaysOn(ChildStepped(w), n - 1, whole, got);
    }
  }

  lemma AdvanceStaysOn(w: World, c: Call, whole: seq<ChildStep>, got: Both<string>)
    requires On(w, whole, got)
    ensures var m := Advance(w, c);
            && On(m, whole, got) && m.log == w.log + [c] && m.clock >= w.clock
            && (w.child.Running? || w.child.Zombie? ==> m.child.Running? || m.child.Zombie?)
            && (!w.child.Running? ==> m.child == w.child)
            && Watch(m.log) == (match Watch(w.log) case Fine(k) => Observe(k, c) case Broken => Broken)
  {
    ChildRunsStaysOn(w, w.schedule(w.turn).childSteps, whole, got);
    WatchMore(w.log, c);
  }

  // ---- Supervision ------------------------------------------------------------------------------

  /** The monitor during supervision. */
  function Watching(deadline: int): Monitor {
    Monitor({ReadEnd(StdOut), ReadEnd(StdErr)}, {WriteEnd(StdOut), WriteEnd(StdErr)}, Alive, deadline, false)
  }

  /** The fields of a result that reading does not touch. */
  predicate Unfinished(r: ProcessResult) {
    && !r.timedOut && !r.signaled && !r.spawnFailed && r.failureMessage == ""
    && r.exitCode == -1 && r.terminationSignal == 0
  }

  /** Between two rounds. */
  ghost predicate Supervising(s: Sup, whole: seq<ChildStep>, limit: nat, deadline: int) {
    && On(s.w, whole, s.got) && Captures(s.result, s.got, limit)
    && (s.w.child.Running? || s.w.child.Zombie?)
    && Unfinished(s.result)
    && Watch(s.w.log) == Fine(Watching(deadline))
  }

  lemma ReadStaysOn(w: World, x: Stream, whole: seq<ChildStep>, got: Both<string>, deadline: int)
    requires On(w, whole, got) && (w.child.Running? || w.child.Zombie?) && Watch(w.log) == Fine(Watching(deadline))
    ensures var (m, data) := Read(w, x);
            && On(m, whole, got.Set(x, got.Get(x) + data)) && (m.child.Running? || m.child.Zombie?)
            && Watch(m.log) == Fine(Watching(deadline)) && m.log == w.log + [ReadFrom(x)]
  {
    AdvanceStaysOn(w, ReadFrom(x), whole, got);
    var m := Advance(w, ReadFrom(x));
    var n := ReadCount(w.schedule(w.turn).chunk, |m.pipes.Get(x).pending|);
    HandedOver(m, x, n, got);
  }

  lemma HandedOver(m: World, x: Stream, n: nat, got: Both<string>)
    requires Conserves(m, got) && n <= |m.pipes.Get(x).pending|
    ensures var p := m.pipes.Get(x);
            var left := m.(pipes := m.pipes.Set(x, p.(pending := p.pending[n..])));
            Conserves(left, got.Set(x, got.Get(x) + p.pending[..n]))
  {
    var p := m.pipes.Get(x);
    assert got.Get(x) + p.pending == got.Get(x) + p.pending[..n] + p.pending[n..];
  }

  lemma {:induction false} DrainKeepsSupervising(s: Sup, x: Stream, whole: seq<ChildStep>, limit: nat, deadline: int)
    requires Supervising(s, whole, limit, deadline)
    ensures Supervising(Drain(s, x, limit), whole, limit, deadline)
    decreases Left(s.w)
  {
    var (w, data) := Read(s.w, x);
    ReadTakesBytes(s.w, x);
    ReadStaysOn(s.w, x, whole, s.got, deadline);
    if data == "" {
      assert s.got.Get(x) + data == s.got.Get(x);
    } else {
      TakeCaptures(s.result, s.got, x, data, limit);
      var next := Sup(w, Take(s.result, x, data, limit), s.got.Set(x, s.got.Get(x) + data));
      DrainKeepsSupervising(next, x, whole, limit, deadline);
    }
  }

  /** How supervision ends: with the child's own status, or with a kill and then only. */
  ghost predicate Concluded(r: ProcessResult, whole: seq<ChildStep>, killed: bool) {
    && !r.spawnFailed && r.timedOut == killed
    && if killed then
         r.signaled && r.terminationSignal == SIGKILL && r.exitCode == 124
       else
         match FirstDeath(whole)
         case None => false
         case Some(Exited(code)) => !r.signaled && r.terminationSignal == 0 && r.exitCode == code
         case Some(Signaled(sig)) => r.signaled && r.terminationSignal == sig && r.exitCode == 128 + sig
  }

  /** After supervision. */
  ghost predicate Supervised(s: Sup, whole: seq<ChildStep>, limit: nat, deadline: int) {
    && On(s.w, whole, s.got) && Captures(s.result, s.got, limit)
    && s.w.child.Reaped? && Concluded(s.result, whole, s.result.timedOut)
    && Watch(s.w.log) == Fine(Watching(deadline).(life := Gone, killed := s.result.timedOut))
  }

  lemma RoundSupervises(s: Sup, whole: seq<ChildStep>, limit: nat, deadline: int)
    requires Supervising(s, whole, limit, deadline)
    ensures var (next, running) := Round(s, limit, deadline);
            if running then Supervising(next, whole, limit, deadline) else Supervised(next, whole, limit, deadline)
  {
    AdvanceStaysOn(s.w, Polled, whole, s.got);
    var s1 := s.(w := Poll(s.w));
    DrainKeepsSupervising(s1, StdOut, whole, limit, deadline);
    var s2 := Drain(s1, StdOut, limit);
    DrainKeepsSupervising(s2, StdErr, whole, limit, deadline);
    var read := Drain(s2, StdErr, limit);
    WaitSupervises(read, whole, limit, deadline);
  }

  lemma WaitSupervises(s: Sup, whole: seq<ChildStep>, limit: nat, deadline: int)
    requires Supervising(s, whole, limit, deadline)
    ensures var (w, child) := WaitNoHang(s.w);
            if child.Zombie? then
              Supervised(s.(w := w, result := WithStatus(s.result, child.status)), whole, limit, deadline)
            else if w.clock >= deadline then
              Supervised(s.(w := KillAndReap(w), result := s.result.(timedOut := true, signaled := true,
                            terminationSignal := SIGKILL, exitCode := 124)), whole, limit, deadline)
            else Supervising(s.(w := w), whole, limit, deadline)
  {
    var (w, child) := WaitNoHang(s.w);
    AdvanceStaysOn(s.w, Waited(child.Zombie?), whole, s.got);
    ChildRunsStaysOn(s.w, s.w.schedule(s.w.turn).childSteps, whole, s.got);
    if !child.Zombie? && w.clock >= deadline {
      KillStaysOn(w, whole, s.got, deadline);
    }
  }

  lemma KillStaysOn(w: World, whole: seq<ChildStep>, got: Both<string>, deadline: int)
    requires On(w, whole, got) && Watch(w.log) == Fine(Watching(deadline)) && w.clock >= deadline
    ensures On(KillAndReap(w), whole, got) && KillAndReap(w).child.Reaped?
    ensures Watch(KillAndReap(w).log) == Fine(Watching(deadline).(life := Gone, killed := true))
  {
    AdvanceStaysOn(w, Killed(w.clock), whole, got);
    AdvanceStaysOn(Advance(w, Killed(w.clock)).(child := Reaped), Waited(true), whole, got);
  }

  lemma {:induction false} SuperviseConcludes(s: Sup, whole: seq<ChildStep>, limit: nat, deadline: int)
    requires Supervising(s, whole, limit, deadline)
    ensures Supervised(Supervise(s, limit, deadline), whole, limit, deadline)
    decreases deadline - s.w.clock
  {
    RoundTakesTime(s, limit, deadline);
    RoundSupervises(s, whole, limit, deadline);
    var (next, running) := Round(s, limit, deadline);
    if running { SuperviseConcludes(next, whole, limit, deadline); }
  }

  // ---- Whole runs -------------------------------------------------------------------------------

  /** Nothing has happened yet. */
  ghost predicate Fresh(w: World) {
    w.log == [] && w.child.NoChild? && w.pipes == Both(Pipe("", ""), Pipe("", ""))
  }

  predicate Launched(outcome: Outcome) {
    outcome.Ok? && !outcome.value.spawnFailed
  }

  /** Every descriptor that was opened is closed, and no child is left. */
  predicate Tidy(v: Verdict, launched: bool) {
    v.Fine? && v.m.open == {} && (if launched then v.m.life.Gone? else v.m.life.NotForked?)
  }

  lemma CloseStaysOn(w: World, a: End, b: End, whole: seq<ChildStep>, got: Both<string>, m: Monitor)
    requires On(w, whole, got) && Watch(w.log) == Fine(m) && a in m.open && b in m.open && a != b
    ensures var c := CloseBoth(w, a, b);
            && On(c, whole, got) && c.clock >= w.clock
            && (w.child.Running? || w.child.Zombie? ==> c.child.Running? || c.child.Zombie?)
            && (!w.child.Running? ==> c.child == w.child)
            && Watch(c.log) == Fine(m.(open := m.open - {a, b}, spent := m.spent + {a, b}))
  {
    AdvanceStaysOn(w, Closed(a), whole, got);
    AdvanceStaysOn(Close(w, a), Closed(b), whole, got);
    assert m.open - {a} - {b} == m.open - {a, b} && m.spent + {a} + {b} == m.spent + {a, b};
  }

  const FOUR_ENDS := {ReadEnd(StdOut), WriteEnd(StdOut), ReadEnd(StdErr), WriteEnd(StdErr)}

  lemma OpenStaysOn(w: World, whole: seq<ChildStep>, got: Both<string>)
    requires On(w, whole, got) && w.log == [] && w.child.NoChild?
    ensures var w1 := Advance(w, Opened(StdOut));
            var w2 := Advance(w1, Opened(StdErr));
            && On(w1, whole, got) && w1.child.NoChild?
            && Watch(w1.log) == Fine(START.(open := {ReadEnd(StdOut), WriteEnd(StdOut)}))
            && On(w2, whole, got) && w2.child.NoChild?
            && Watch(w2.log) == Fine(START.(open := FOUR_ENDS))
  {
    AdvanceStaysOn(w, Opened(StdOut), whole, got);
    AdvanceStaysOn(Advance(w, Opened(StdOut)), Opened(StdErr), whole, got);
    assert {} + {ReadEnd(StdOut), WriteEnd(StdOut)} == {ReadEnd(StdOut), WriteEnd(StdOut)};
    assert {ReadEnd(StdOut), WriteEnd(StdOut)} + {ReadEnd(StdErr), WriteEnd(StdErr)} == FOUR_ENDS;
  }

  lemma StartIsSupervising(w: World, limit: nat, deadline: int, whole: seq<ChildStep>, m: Monitor)
    requires On(w, whole, Both("", "")) && Watch(w.log) == Fine(m)
    requires m.life.Alive? && (w.child.Running? || w.child.Zombie?)
    requires m.open == {ReadEnd(StdOut), ReadEnd(StdErr)} && m.spent == {WriteEnd(StdOut), WriteEnd(StdErr)}
    requires !m.killed
    ensures Supervising(Begin(w, deadline), whole, limit, deadline)
  {
    AdvanceStaysOn(w, SetDeadline(deadline), whole, Both("", ""));
  }

  /** What is promised of the outcome, the machine and the bytes read at the end of a run. */
  ghost predicate Orderly(run: (Outcome, World, Both<string>), whole: seq<ChildStep>, limit: nat) {
    var (outcome, end, got) := run;
    && Tidy(Watch(end.log), Launched(outcome))
    && Conserves(end, got)
    && (Launched(outcome) ==> Captures(outcome.value, got, limit) && Concluded(outcome.value, whole, HasKill(end.log)))
  }

  /** From the closed write ends on. */
  lemma ConcludeIsOrderly(request: Request, child: Outcome, w: World, whole: seq<ChildStep>, m: Monitor)
    requires On(w, whole, Both("", "")) && Watch(w.log) == Fine(m)
    requires m.open == {ReadEnd(StdOut), ReadEnd(StdErr)} && m.spent == {WriteEnd(StdOut), WriteEnd(StdErr)}
    requires !m.killed
    requires if Launched(child) then m.life.Alive? && (w.child.Running? || w.child.Zombie?) else m.life.NotForked?
    ensures Orderly(Conclude(request, child, w), whole, request.maxOutputBytes)
  {
    hide Attend, CloseBoth, Orderly;
    if Launched(child) {
      AttendIsOrderly(w, w.clock + request.timeout, request.maxOutputBytes, whole, m);
    } else {
      FailureIsOrderly(child, w, whole, request.maxOutputBytes, m);
    }
  }

  lemma FailureIsOrderly(child: Outcome, w: World, whole: seq<ChildStep>, limit: nat, m: Monitor)
    requires On(w, whole, Both("", "")) && Watch(w.log) == Fine(m) && m.life.NotForked? && !Launched(child)
    requires m.open == {ReadEnd(StdOut), ReadEnd(StdErr)}
    ensures Orderly((child, CloseBoth(w, ReadEnd(StdOut), ReadEnd(StdErr)), Both("", "")), whole, limit)
  {
    CloseStaysOn(w, ReadEnd(StdOut), ReadEnd(StdErr), whole, Both("", ""), m);
  }

  lemma AttendIsOrderly(w: World, deadline: int, limit: nat, whole: seq<ChildStep>, m: Monitor)
    requires On(w, whole, Both("", "")) && Watch(w.log) == Fine(m)
    requires m.life.Alive? && (w.child.Running? || w.child.Zombie?)
    requires m.open == {ReadEnd(StdOut), ReadEnd(StdErr)} && m.spent == {WriteEnd(StdOut), WriteEnd(StdErr)}
    requires !m.killed
    ensures Orderly(Attend(w, deadline, limit), whole, limit)
  {
    StartIsSupervising(w, limit, deadline, whole, m);
    SettleIsOrderly(Begin(w, deadline), whole, limit, deadline);
  }

  lemma SettleIsOrderly(s: Sup, whole: seq<ChildStep>, limit: nat, deadline: int)
    requires Supervising(s, whole, limit, deadline)
    ensures Orderly(Settle(Supervise(s, limit, deadline)), whole, limit)
  {
    SuperviseConcludes(s, whole, limit, deadline);
    SettleIsTidy(Supervise(s, limit, deadline), whole, limit, deadline);
  }

  lemma SettleIsTidy(s: Sup, whole: seq<ChildStep>, limit: nat, deadline: int)
    requires Supervised(s, whole, limit, deadline)
    ensures Orderly(Settle(s), whole, limit)
  {
    CloseStaysOn(s.w, ReadEnd(StdOut), ReadEnd(StdErr), whole, s.got,
      Watching(deadline).(life := Gone, killed := s.result.timedOut));
    KillIsObserved(Settle(s).1.log);
  }

  lemma SpawnStaysOn(request: Request, launch: Launch, w: World, whole: seq<ChildStep>)
    requires On(w, whole, Both("", "")) && w.child.NoChild?
    requires Watch(w.log) == Fine(START.(open := FOUR_ENDS))
    ensures var (child, w') := Spawn(request, launch, w);
            && On(w', whole, Both("", ""))
            && (Launched(child) <==> w'.child.Running?)
            && Watch(w'.log) == Fine(Watch(w.log).m.(life := if Launched(child) then Alive else NotForked))
  {
    AdvanceStaysOn(w, Forked(Resolve(request.executable, launch.executables)), whole, Both("", ""));
  }

  /**
   Whatever the child and the machine do: no byte is lost or invented, the result holds the first bytes of
   what was read, each descriptor is closed exactly once and never used afterwards, a child is killed only
   after the deadline and is reaped exactly once, and the result is a time-out if there was a kill and
   otherwise the status with which the child's program ends.
   */
  lemma RunIsOrderly(request: Request, launch: Launch, w: World)
    requires Fresh(w)
    ensures var (outcome, end, got) := Run(request, launch, w);
            && Tidy(Watch(end.log), Launched(outcome))
            && Conserves(end, got)
            && (Launched(outcome) ==>
                  && Captures(outcome.value, got, request.maxOutputBytes)
                  && Concluded(outcome.value, w.program, HasKill(end.log)))
  {
    var none := Both("", "");
    assert On(w, w.program, none);
    OpenStaysOn(w, w.program, none);
    var w1 := Advance(w, Opened(StdOut));
    if launch.firstPipe && launch.secondPipe {
      var w2 := Advance(w1, Opened(StdErr));
      SpawnStaysOn(request, launch, w2, w.program);
      var (child, w3) := Spawn(request, launch, w2);
      CloseStaysOn(w3, WriteEnd(StdOut), WriteEnd(StdErr), w.program, none, Watch(w3.log).m);
      var w4 := CloseBoth(w3, WriteEnd(StdOut), WriteEnd(StdErr));
      ConcludeIsOrderly(request, child, w4, w.program, Watch(w4.log).m);
    } else if launch.firstPipe {
      CloseStaysOn(w1, ReadEnd(StdOut), WriteEnd(StdOut), w.program, none, Watch(w1.log).m);
    }
  }

  // ---- Is all output captured? ------------------------------------------------------------------

  /** The child writes and exits after the last read of a round and before the wait. */
  function LateWriter(): World {
    World([ChildStep.Write(StdOut, "x"), Die(Exited(0))], NoChild, Both(Pipe("", ""), Pipe("", "")), 0,
          n => if n == 9 then Turn(2, 0, 0) else Turn(0, 0, 0), 0, [])
  }

  /** Draining a stream leaves nothing in its pipe, and nothing moves in the other pipe of a dead child. */
  lemma {:induction false} DrainEmptiesPipe(s: Sup, x: Stream, limit: nat)
    ensures Drain(s, x, limit).w.pipes.Get(x).pending == ""
    ensures s.w.child.Zombie? ==>
              && Drain(s, x, limit).w.child == s.w.child
              && forall y :: y != x ==> Drain(s, x, limit).w.pipes.Get(y) == s.w.pipes.Get(y)
    decreases Left(s.w)
  {
    var (w, data) := Read(s.w, x);
    ReadTakesBytes(s.w, x);
    if data != "" {
      DrainEmptiesPipe(Sup(w, Take(s.result, x, data, limit), s.got.Set(x, s.got.Get(x) + data)), x, limit);
    }
  }

  /** A child that is over before a round starts is read out in that round, which is the last. */
  lemma DeadChildIsReadOut(s: Sup, limit: nat, deadline: int)
    requires s.w.child.Zombie?
    ensures var (next, running) := Round(s, limit, deadline);
            !running && next.w.pipes.out.pending == "" && next.w.pipes.err.pending == ""
  {
    var s1 := s.(w := Poll(s.w));
    DrainEmptiesPipe(s1, StdOut, limit);
    DrainEmptiesPipe(Drain(s1, StdOut, limit), StdErr, limit);
  }

  /** So a clean exit does not mean that all output was captured. */
  lemma LateOutputIsLost()
    ensures var w := LateWriter();
            var (outcome, end, _) := Run(Request("true", 1000, 4096), Launch(true, true, {"/usr/bin/true"}, true), w);
            && Fresh(w) && Launched(outcome)
            && outcome.value.exitCode == 0 && !outcome.value.timedOut && !outcome.value.truncated
            && end.pipes.out.written == "x" && outcome.value.stdoutText == ""
  {
    var w4 := LateStart();
    var w5 := Advance(w4, SetDeadline(1000));
    assert Begin(w4, 1000) == Sup(w5, EMPTY_RESULT, Both("", ""));
    LateRound(w5);
    var last := Round(Begin(w4, 1000), 4096, 1000).0;
    assert Supervise(Begin(w4, 1000), 4096, 1000) == last;
    LateEnd(last);
  }

  lemma LateStart() returns (w: World)
    ensures var request, launch := Request("true", 1000, 4096), Launch(true, true, {"/usr/bin/true"}, true);
            Run(request, launch, LateWriter()) == Conclude(request, Ok(EMPTY_RESULT), w)
    ensures w.turn == 5 && w.clock == 0 && w.child.Running? && w.pipes == LateWriter().pipes
    ensures w.program == LateWriter().program && w.schedule == LateWriter().schedule
  {
    hide Conclude;
    var launch := Launch(true, true, {"/usr/bin/true"}, true);
    assert "true" == ALLOWED[7];
    assert Resolve("true", launch.executables) == "/usr/bin/true" by {
      assert DIRECTORIES[0] + "true" == "/usr/bin/true";
    }
    var w2 := Advance(Advance(LateWriter(), Opened(StdOut)), Opened(StdErr));
    var w3 := Advance(w2, Forked("/usr/bin/true")).(child := Running);
    w := CloseBoth(w3, WriteEnd(StdOut), WriteEnd(StdErr));
  }

  lemma LateEnd(s: Sup)
    requires s.w.child.Reaped?
    ensures Settle(s).0 == Ok(s.result) && Settle(s).1.pipes == s.w.pipes
  {
  }

  /** In its last round the parent finds both pipes empty, and then the child writes and exits. */
  lemma LateRound(w: World)
    requires w.turn == 6 && w.clock == 0 && w.child.Running? && w.pipes == LateWriter().pipes
    requires w.program == LateWriter().program && w.schedule == LateWriter().schedule
    ensures var (last, running) := Round(Sup(w, EMPTY_RESULT, Both("", "")), 4096, 1000);
            && !running && last.result == EMPTY_RESULT.(exitCode := 0)
            && last.w.pipes.out.written == "x" && last.w.child.Reaped?
  {
    var s := Sup(w, EMPTY_RESULT, Both("", ""));
    var s1 := s.(w := Poll(s.w));
    var s2 := Drain(s1, StdOut, 4096);
    assert s2 == s1.(w := Read(s1.w, StdOut).0) && s2.w.turn == 8;
    var s3 := Drain(s2, StdErr, 4096);
    assert s3 == s2.(w := Read(s2.w, StdErr).0) && s3.w.turn == 9;
    var m1 := ChildStepped(s3.w);
    assert ChildRuns(s3.w, 2) == ChildStepped(m1);
    assert WaitNoHang(s3.w).1 == Zombie(Exited(0));
  }

  // ---- How long supervision can take ------------------------------------------------------------

  function Polls(log: seq<Call>): nat {
    if log == [] then 0 else Polls(log[..|log| - 1]) + (if log[|log| - 1].Polled? then 1 else 0)
  }

  lemma AdvancePolls(w: World, c: Call)
    ensures Polls(Advance(w, c).log) == Polls(w.log) + if c.Polled? then 1 else 0
  {
    ChildRunsLogs(w, w.schedule(w.turn).childSteps);
    assert (w.log + [c])[..|w.log|] == w.log;
  }

  lemma ChildRunsLogs(w: World, n: nat)
    ensures ChildRuns(w, n).log == w.log
    decreases n
  {
    if !(n == 0 || !w.child.Running? || w.program == []) { ChildRunsLogs(ChildStepped(w), n - 1); }
  }

  lemma {:induction false} DrainPolls(s: Sup, x: Stream, limit: nat)
    ensures Polls(Drain(s, x, limit).w.log) == Polls(s.w.log)
    decreases Left(s.w)
  {
    var (w, data) := Read(s.w, x);
    ReadTakesBytes(s.w, x);
    AdvancePolls(s.w, ReadFrom(x));
    if data != "" {
      DrainPolls(Sup(w, Take(s.result, x, data, limit), s.got.Set(x, s.got.Get(x) + data)), x, limit);
    }
  }

  lemma RoundPollsOnce(s: Sup, limit: nat, deadline: int)
    ensures Polls(Round(s, limit, deadline).0.w.log) == Polls(s.w.log) + 1
  {
    AdvancePolls(s.w, Polled);
    var s1 := s.(w := Poll(s.w));
    DrainPolls(s1, StdOut, limit);
    var s2 := Drain(s1, StdOut, limit);
    DrainPolls(s2, StdErr, limit);
    var s3 := Drain(s2, StdErr, limit);
    var (w, child) := WaitNoHang(s3.w);
    AdvancePolls(s3.w, Waited(child.Zombie?));
    AdvancePolls(w, Killed(w.clock));
    var m := Advance(w, Killed(w.clock)).(child := Reaped);
    AdvancePolls(m, Waited(true));
  }

  /** The loop ends: there are no more rounds than ticks up to the deadline, and at least one. */
  lemma {:induction false} SupervisePollsAtMost(s: Sup, limit: nat, deadline: int)
    ensures Polls(Supervise(s, limit, deadline).w.log) - Polls(s.w.log) <=
              if s.w.clock < deadline then deadline - s.w.clock else 1
    decreases deadline - s.w.clock
  {
    RoundTakesTime(s, limit, deadline);
    RoundPollsOnce(s, limit, deadline);
    var (next, running) := Round(s, limit, deadline);
    if running { SupervisePollsAtMost(next, limit, deadline); }
  }
}
