/**
 Running one command: the parent's system calls against a child and a clock that move by an arbitrary
 schedule between any two of them.
 */
module ProcessRunner {

  // ---- The rest of the machine ------------------------------------------------------------------

  datatype Stream = StdOut | StdErr

  datatype Both<T> = Both(out: T, err: T) {
    function Get(x: Stream): T { if x.StdOut? then out else err }

    function Set(x: Stream, v: T): Both<T> { if x.StdOut? then Both(v, err) else Both(out, v) }
  }

  datatype WaitStatus = Exited(code: int) | Signaled(signal: int)

  /** What the child does next; a child whose program is over hangs until it is killed. */
  datatype ChildStep = Write(x: Stream, data: string) | Die(status: WaitStatus)

  datatype Child = NoChild | Running | Zombie(status: WaitStatus) | Reaped

  /** What happens before one system call of the parent, and how much a read hands over. */
  datatype Turn = Turn(childSteps: nat, ticks: nat, chunk: nat)

  /** `written` is all that went into the pipe so far, `pending` what is still inside. */
  datatype Pipe = Pipe(written: string, pending: string)

  datatype End = ReadEnd(x: Stream) | WriteEnd(x: Stream)

  datatype Call =
    | Opened(x: Stream)
    | Closed(fd: End)
    | Forked(path: string)
    | SetDeadline(deadline: int)
    | Polled
    | ReadFrom(x: Stream)
    | Waited(reaped: bool)
    | Killed(at: int)

  datatype World = World(program: seq<ChildStep>, child: Child, pipes: Both<Pipe>, clock: int,
                         schedule: nat -> Turn, turn: nat, log: seq<Call>)

  /** Up to `n` steps of the child. */
  function ChildRuns(w: World, n: nat): World
    decreases n
  {
    if n == 0 || !w.child.Running? || w.program == [] then w
    else ChildRuns(ChildStepped(w), n - 1)
  }

  function ChildStepped(w: World): World
    requires w.program != []
  {
    var rest := w.(program := w.program[1..]);
    match w.program[0]
    case Write(x, data) =>
      var p := w.pipes.Get(x);
      rest.(pipes := w.pipes.Set(x, Pipe(p.written + data, p.pending + data)))
    case Die(status) => rest.(child := Zombie(status))
  }

  /** The machine moves on, and then the parent's call is recorded. */
  function Advance(w: World, call: Call): World {
    var t := w.schedule(w.turn);
    var m := ChildRuns(w, t.childSteps);
    m.(clock := w.clock + t.ticks, turn := w.turn + 1, log := w.log + [call])
  }

  // ---- System calls -----------------------------------------------------------------------------

  /** A poll takes at least one tick. */
  function Poll(w: World): World {
    var m := Advance(w, Polled);
    m.(clock := m.clock + 1)
  }

  /** A non-blocking read hands over between one byte and a buffer full of what is pending, if anything is. */
  function ReadCount(chunk: nat, pending: nat): (n: nat)
    ensures n <= pending && n <= 4096 && (n == 0 <==> pending == 0)
  {
    var most := if pending < 4096 then pending else 4096;
    if most == 0 then 0 else 1 + chunk % most
  }

  function Read(w: World, x: Stream): (World, string) {
    var m := Advance(w, ReadFrom(x));
    var p := m.pipes.Get(x);
    var n := ReadCount(w.schedule(w.turn).chunk, |p.pending|);
    (m.(pipes := m.pipes.Set(x, p.(pending := p.pending[n..]))), p.pending[..n])
  }

  /** `waitpid(pid, &status, WNOHANG)`: the status, if the child is over. */
  function WaitNoHang(w: World): (World, Child) {
    var m := ChildRuns(w, w.schedule(w.turn).childSteps);
    var w' := Advance(w, Waited(m.child.Zombie?));
    (if m.child.Zombie? then w'.(child := Reaped) else w', m.child)
  }

  /** `kill(pid, SIGKILL)` and the `waitpid` after it: whatever the child did meanwhile, it is gone. */
  function KillAndReap(w: World): World {
    var m := Advance(w, Killed(w.clock));
    Advance(m.(child := Reaped), Waited(true))
  }

  // ---- The parent -------------------------------------------------------------------------------

  datatype Request = Request(executable: string, timeout: int, maxOutputBytes: nat)

  datatype ProcessResult = ProcessResult(
    exitCode: int, stdoutText: string, stderrText: string, timedOut: bool, truncated: bool,
    stdoutTruncated: bool, stderrTruncated: bool, signaled: bool, terminationSignal: int,
    spawnFailed: bool, failureMessage: string)
  {
    function Text(x: Stream): string { if x.StdOut? then stdoutText else stderrText }

    predicate Cut(x: Stream) { if x.StdOut? then stdoutTruncated else stderrTruncated }
  }

  const EMPTY_RESULT := ProcessResult(-1, "", "", false, false, false, false, false, 0, false, "")
  const SIGKILL := 9

  datatype Outcome = Ok(value: ProcessResult) | Error(message: string)

  /** What the operating system answers before there is a child. */
  datatype Launch = Launch(firstPipe: bool, secondPipe: bool, executables: set<string>, fork: bool)

  const ALLOWED := ["dpkg", "dpkg-query", "apt-mark", "apt-get", "uname", "dkms", "mokutil", "true"]
  const DIRECTORIES := ["/usr/bin/", "/bin/", "/usr/sbin/", "/sbin/"]

  /** The first directory that has the program; a name with a slash stands for itself. */
  function Resolve(name: string, executables: set<string>): string {
    if '/' in name then name else ResolveIn(DIRECTORIES, name, executables)
  }

  function ResolveIn(dirs: seq<string>, name: string, executables: set<string>): string {
    if dirs == [] then ""
    else if dirs[0] + name in executables then dirs[0] + name
    else ResolveIn(dirs[1..], name, executables)
  }

  /** What `append_limited` leaves in its target. */
  function Limited(target: string, data: string, limit: nat): string {
    if |target| + |data| <= limit then target + data
    else if |target| < limit then target + data[..limit - |target|]
    else target
  }

  /** When `append_limited` sets its flag. */
  predicate Overflows(target: string, data: string, limit: nat) {
    data != "" && |target| + |data| > limit
  }

  /** One chunk of one stream goes into the result. */
  function Take(r: ProcessResult, x: Stream, data: string, limit: nat): ProcessResult {
    var cut := r.Cut(x) || Overflows(r.Text(x), data, limit);
    if x.StdOut?
    then r.(stdoutText := Limited(r.stdoutText, data, limit), stdoutTruncated := cut,
            truncated := cut || r.stderrTruncated)
    else r.(stderrText := Limited(r.stderrText, data, limit), stderrTruncated := cut,
            truncated := r.stdoutTruncated || cut)
  }

  /** The bytes that can still be read: finite, since the child's program is. */
  function Unread(program: seq<ChildStep>): nat {
    if program == [] then 0
    else (if program[0].Write? then |program[0].data| else 0) + Unread(program[1..])
  }

  function Left(w: World): nat {
    Unread(w.program) + |w.pipes.out.pending| + |w.pipes.err.pending|
  }

  lemma {:induction false} ChildRunsKeepsBytes(w: World, n: nat)
    ensures Left(ChildRuns(w, n)) == Left(w)
    decreases n
  {
    if !(n == 0 || !w.child.Running? || w.program == []) {
      ChildRunsKeepsBytes(ChildStepped(w), n - 1);
    }
  }

  lemma ReadTakesBytes(w: World, x: Stream)
    ensures Left(Read(w, x).0) + |Read(w, x).1| == Left(w)
  {
    ChildRunsKeepsBytes(w, w.schedule(w.turn).childSteps);
  }

  /** The supervision of one child: the result under construction, and the bytes read so far. */
  datatype Sup = Sup(w: World, result: ProcessResult, got: Both<string>)

  /** Read a stream until a read hands over nothing. */
  function Drain(s: Sup, x: Stream, limit: nat): Sup
    decreases Left(s.w)
  {
    var (w, data) := Read(s.w, x);
    ReadTakesBytes(s.w, x);
    if data == "" then s.(w := w)
    else Drain(Sup(w, Take(s.result, x, data, limit), s.got.Set(x, s.got.Get(x) + data)), x, limit)
  }

  function WithStatus(r: ProcessResult, status: WaitStatus): ProcessResult {
    match status
    case Exited(code) => r.(exitCode := code)
    case Signaled(sig) => r.(signaled := true, terminationSignal := sig, exitCode := 128 + sig)
  }

  /** What one round of the supervision loop leaves, and whether it is the last. */
  function Round(s: Sup, limit: nat, deadline: int): (Sup, bool) {
    var read := Drain(Drain(s.(w := Poll(s.w)), StdOut, limit), StdErr, limit);
    var (w, child) := WaitNoHang(read.w);
    if child.Zombie? then
      (read.(w := w, result := WithStatus(read.result, child.status)), false)
    else if w.clock >= deadline then
      (read.(w := KillAndReap(w),
             result := read.result.(timedOut := true, signaled := true, terminationSignal := SIGKILL, exitCode := 124)),
       false)
    else
      (read.(w := w), true)
  }

  lemma ClockGoesOn(w: World, n: nat)
    ensures ChildRuns(w, n).clock == w.clock
    decreases n
  {
    if !(n == 0 || !w.child.Running? || w.program == []) { ClockGoesOn(ChildStepped(w), n - 1); }
  }

  lemma {:induction false} DrainTakesTime(s: Sup, x: Stream, limit: nat)
    ensures s.w.clock <= Drain(s, x, limit).w.clock
    decreases Left(s.w)
  {
    var (w, data) := Read(s.w, x);
    ReadTakesBytes(s.w, x);
    if data != "" {
      DrainTakesTime(Sup(w, Take(s.result, x, data, limit), s.got.Set(x, s.got.Get(x) + data)), x, limit);
    }
  }

  lemma RoundTakesTime(s: Sup, limit: nat, deadline: int)
    ensures s.w.clock < Round(s, limit, deadline).0.w.clock
    ensures Round(s, limit, deadline).1 ==> Round(s, limit, deadline).0.w.clock < deadline
  {
    var s1 := s.(w := Poll(s.w));
    DrainTakesTime(s1, StdOut, limit);
    DrainTakesTime(Drain(s1, StdOut, limit), StdErr, limit);
  }

  /** The supervision loop. */
  function Supervise(s: Sup, limit: nat, deadline: int): Sup
    decreases deadline - s.w.clock
  {
    var (next, running) := Round(s, limit, deadline);
    RoundTakesTime(s, limit, deadline);
    if running then Supervise(next, limit, deadline) else next
  }

  function Close(w: World, fd: End): World {
    Advance(w, Closed(fd))
  }

  function CloseBoth(w: World, out: End, err: End): World {
    Close(Close(w, out), err)
  }

  function Failed(message: string): Outcome {
    Ok(EMPTY_RESULT.(spawnFailed := true, failureMessage := message))
  }

  /** `spawn_child`. */
  function Spawn(request: Request, launch: Launch, w: World): (Outcome, World) {
    if request.executable !in ALLOWED then (Failed("executable is not allowlisted"), w)
    else if Resolve(request.executable, launch.executables) == "" then
      (Failed("allowlisted executable is unavailable or not executable"), w)
    else if !launch.fork then (Error("fork failed"), w)
    else (Ok(EMPTY_RESULT), Advance(w, Forked(Resolve(request.executable, launch.executables))).(child := Running))
  }

  /** The outcome of `run`, the machine after it, and the bytes that were read. */
  function Run(request: Request, launch: Launch, w: World): (Outcome, World, Both<string>) {
    var none := Both("", "");
    if !launch.firstPipe then (Error("pipe failed"), w, none)
    else
      var w1 := Advance(w, Opened(StdOut));
      if !launch.secondPipe then
        (Error("pipe failed"), CloseBoth(w1, ReadEnd(StdOut), WriteEnd(StdOut)), none)
      else
        var (child, w2) := Spawn(request, launch, Advance(w1, Opened(StdErr)));
        Conclude(request, child, CloseBoth(w2, WriteEnd(StdOut), WriteEnd(StdErr)))
  }

  /** The rest of `run`, from the point where the parent has closed the write ends. */
  function Conclude(request: Request, child: Outcome, w: World): (Outcome, World, Both<string>) {
    var none := Both("", "");
    if child.Error? || child.value.spawnFailed then
      (child, CloseBoth(w, ReadEnd(StdOut), ReadEnd(StdErr)), none)
    else
      Attend(w, w.clock + request.timeout, request.maxOutputBytes)
  }

  /** The supervision of a child that was started, and what follows it. */
  function Attend(w: World, deadline: int, limit: nat): (Outcome, World, Both<string>) {
    Settle(Supervise(Begin(w, deadline), limit, deadline))
  }

  function Begin(w: World, deadline: int): Sup {
    Sup(Advance(w, SetDeadline(deadline)), EMPTY_RESULT, Both("", ""))
  }

  function Settle(s: Sup): (Outcome, World, Both<string>) {
    (Ok(s.result), CloseBoth(s.w, ReadEnd(StdOut), ReadEnd(StdErr)), s.got)
  }

  // ---- The same, step by step -------------------------------------------------------------------

  /** `append_limited`: the target and the flag are updated in place. */
  method AppendLimited(target: string, data: string, limit: nat, truncated: bool) returns (text: string, cut: bool)
    ensures text == Limited(target, data, limit)
    ensures cut == (truncated || Overflows(target, data, limit))
  {
    text, cut := target, truncated;
    if |data| == 0 {
      return;
    }
    if |target| + |data| <= limit {
      text := target + data;
      return;
    }
    if |target| < limit {
      text := target + data[..limit - |target|];
    }
    cut := true;
  }

  /** The inner loops of `run`: drain one descriptor. */
  method DrainStream(start: Sup, x: Stream, limit: nat) returns (s: Sup)
    ensures s == Drain(start, x, limit)
  {
    s := start;
    while true
      invariant Drain(s, x, limit) == Drain(start, x, limit)
      decreases Left(s.w)
    {
      var (w, data) := Read(s.w, x);
      ReadTakesBytes(s.w, x);
      if data == "" {
        s := s.(w := w);
        return;
      }
      var r := s.result;
      var text, cut := AppendLimited(r.Text(x), data, limit, false);
      if x.StdOut? {
        r := r.(stdoutText := text, stdoutTruncated := r.stdoutTruncated || cut);
      } else {
        r := r.(stderrText := text, stderrTruncated := r.stderrTruncated || cut);
      }
      r := r.(truncated := r.stdoutTruncated || r.stderrTruncated);
      s := Sup(w, r, s.got.Set(x, s.got.Get(x) + data));
    }
  }

  /** The body of the supervision loop. */
  method SuperviseOnce(start: Sup, limit: nat, deadline: int) returns (s: Sup, running: bool)
    ensures (s, running) == Round(start, limit, deadline)
  {
    s, running := start.(w := Poll(start.w)), true;
    s := DrainStream(s, StdOut, limit);
    s := DrainStream(s, StdErr, limit);
    var (w, child) := WaitNoHang(s.w);
    s := s.(w := w);
    if child.Zombie? {
      match child.status {
        case Exited(code) =>
          s := s.(result := s.result.(exitCode := code));
        case Signaled(sig) =>
          s := s.(result := s.result.(signaled := true, terminationSignal := sig, exitCode := 128 + sig));
      }
      running := false;
    } else if s.w.clock >= deadline {
      s := s.(w := KillAndReap(s.w),
              result := s.result.(timedOut := true, signaled := true, terminationSignal := SIGKILL, exitCode := 124));
      running := false;
    }
  }

  method SuperviseChild(start: Sup, limit: nat, deadline: int) returns (s: Sup)
    ensures s == Supervise(start, limit, deadline)
  {
    s := start;
    var running := true;
    while running
      invariant Supervise(start, limit, deadline) == if running then Supervise(s, limit, deadline) else s
      decreases running, deadline - s.w.clock
    {
      RoundTakesTime(s, limit, deadline);
      s, running := SuperviseOnce(s, limit, deadline);
    }
  }

  /** `PosixProcessRunner::run`. */
  method RunCommand(request: Request, launch: Launch, world: World)
    returns (outcome: Outcome, w: World, got: Both<string>)
    ensures (outcome, w, got) == Run(request, launch, world)
  {
    w, got := world, Both("", "");
    if !launch.firstPipe {
      return Error("pipe failed"), w, got;
    }
    w := Advance(w, Opened(StdOut));
    if !launch.secondPipe {
      w := Close(w, ReadEnd(StdOut));
      w := Close(w, WriteEnd(StdOut));
      return Error("pipe failed"), w, got;
    }
    w := Advance(w, Opened(StdErr));
    var (child, spawned) := Spawn(request, launch, w);
    w := Close(spawned, WriteEnd(StdOut));
    w := Close(w, WriteEnd(StdErr));
    outcome, w, got := ConcludeCommand(request, child, w);
  }

  method ConcludeCommand(request: Request, child: Outcome, world: World)
    returns (outcome: Outcome, w: World, got: Both<string>)
    ensures (outcome, w, got) == Conclude(request, child, world)
  {
    w, got := world, Both("", "");
    if child.Error? || child.value.spawnFailed {
      w := Close(w, ReadEnd(StdOut));
      w := Close(w, ReadEnd(StdErr));
      return child, w, got;
    }
    var deadline := w.clock + request.timeout;
    w := Advance(w, SetDeadline(deadline));
    var s := SuperviseChild(Sup(w, EMPTY_RESULT, got), request.maxOutputBytes, deadline);
    w := Close(s.w, ReadEnd(StdOut));
    w := Close(w, ReadEnd(StdErr));
    return Ok(s.result), w, s.got;
  }
}
