/**
 Which output of a child is captured, in terms of its program and the schedule: what it writes in the turns
 behind the last read of a stream is lost, and nothing else is.
 */
module ProcessOutput {
  import opened ProcessRunner
  import opened ProcessRuns
  import opened Sequences
  import opened Wrappers

  // ---- The course of the child ------------------------------------------------------------------

  /** How many steps of a program are ever taken: up to the first death. */
  function Span(program: seq<ChildStep>): (n: nat)
    ensures n <= |program|
  {
    if program == [] then 0 else if program[0].Die? then 1 else 1 + Span(program[1..])
  }

  /** What these steps write to the stream. */
  function Output(steps: seq<ChildStep>, x: Stream): string {
    FlatMap(Bytes(x), steps)
  }

  function Bytes(x: Stream): ChildStep -> string {
    (step: ChildStep) => if step.Write? && step.x == x then step.data else ""
  }

  /** How far the schedule would let a child come from turn `from` to turn `to`. */
  function Moves(schedule: nat -> Turn, from: nat, to: nat): nat {
    if to <= from then 0 else Moves(schedule, from, to - 1) + schedule(to - 1).childSteps
  }

  /** A child's program and the turns that it is scheduled for: the parent's calls begin at turn `begin`. */
  datatype Plan = Plan(program: seq<ChildStep>, schedule: nat -> Turn, begin: nat) {

    /** The steps taken by the `k`-th call of the parent; the child is there from the third on. */
    function Taken(k: nat): (n: nat)
      ensures n <= Span(program)
    {
      var n := Moves(schedule, begin + 3, begin + k);
      if n < Span(program) then n else Span(program)
    }

    lemma {:induction false} TakenGrows(i: nat, j: nat)
      requires i <= j
      ensures Taken(i) <= Taken(j)
      decreases j - i
    {
      if i < j { TakenGrows(i, j - 1); }
    }

    /** The steps that the child is scheduled to take in the turns from call `i` up to call `j`. */
    function Steps(i: nat, j: nat): seq<ChildStep>
      requires i <= j
    {
      TakenGrows(i, j);
      program[Taken(i)..Taken(j)]
    }
  }

  lemma {:induction false} DeathEndsSpan(program: seq<ChildStep>)
    ensures match FirstDeath(program)
            case None => Span(program) == |program|
            case Some(status) => Span(program) > 0 && program[Span(program) - 1] == Die(status)
    ensures forall i :: 0 <= i < Span(program) - 1 ==> program[i].Write?
  {
    if program != [] && program[0].Write? { DeathEndsSpan(program[1..]); }
  }

  // ---- The machine follows its plan -------------------------------------------------------------

  /** The child has taken `n` steps of the program. */
  ghost predicate Stands(w: World, program: seq<ChildStep>, n: nat) {
    && n <= Span(program)
    && w.program == program[n..]
    && w.pipes.out.written == Output(program[..n], StdOut)
    && w.pipes.err.written == Output(program[..n], StdErr)
    && (w.child.Running? && n == Span(program) ==> FirstDeath(program).None?)
    && (w.child.Zombie? ==> n == Span(program))
  }

  /** What the child writes goes into the pipes, behind what is there. */
  ghost predicate Adds(w: World, v: World, steps: seq<ChildStep>) {
    && v.pipes.out.pending == w.pipes.out.pending + Output(steps, StdOut)
    && v.pipes.err.pending == w.pipes.err.pending + Output(steps, StdErr)
  }

  lemma StepAdds(w: World, step: ChildStep)
    requires w.program != [] && w.program[0] == step
    ensures Adds(w, ChildStepped(w), [step])
    ensures ChildStepped(w).pipes.out.written == w.pipes.out.written + Output([step], StdOut)
    ensures ChildStepped(w).pipes.err.written == w.pipes.err.written + Output([step], StdErr)
  {
    FlatMapOne(Bytes(StdOut), step);
    FlatMapOne(Bytes(StdErr), step);
    assert w.pipes.out.written + "" == w.pipes.out.written && w.pipes.err.written + "" == w.pipes.err.written;
    assert w.pipes.out.pending + "" == w.pipes.out.pending && w.pipes.err.pending + "" == w.pipes.err.pending;
  }

  lemma StepStands(w: World, program: seq<ChildStep>, n: nat)
    requires Stands(w, program, n) && w.child.Running? && w.program != []
    ensures n < Span(program) && Stands(ChildStepped(w), program, n + 1)
    ensures Adds(w, ChildStepped(w), [program[n]])
    ensures ChildStepped(w).child.Running? || ChildStepped(w).child.Zombie?
  {
    DeathEndsSpan(program);
    assert w.program[0] == program[n] && w.program[1..] == program[n + 1..];
    assert program[..n + 1] == program[..n] + [program[n]];
    StepAdds(w, program[n]);
    FlatMapJoins(Bytes(StdOut), program[..n], [program[n]]);
    FlatMapJoins(Bytes(StdErr), program[..n], [program[n]]);
  }

  lemma AddsTwice(u: World, v: World, w: World, a: seq<ChildStep>, b: seq<ChildStep>)
    requires Adds(u, v, a) && Adds(v, w, b)
    ensures Adds(u, w, a + b)
  {
    AppendTwice(u.pipes.out.pending, StdOut, a, b);
    AppendTwice(u.pipes.err.pending, StdErr, a, b);
  }

  lemma AppendTwice(s: string, x: Stream, a: seq<ChildStep>, b: seq<ChildStep>)
    ensures s + Output(a, x) + Output(b, x) == s + Output(a + b, x)
  {
    FlatMapJoins(Bytes(x), a, b);
    assert s + Output(a, x) + Output(b, x) == s + (Output(a, x) + Output(b, x));
  }

  lemma AddsNothing(w: World)
    ensures Adds(w, w, [])
  {
  }

  /** Where a program of length `span` stands after `k` more steps. */
  function Further(n: nat, k: nat, span: nat): nat {
    if n + k < span then n + k else span
  }

  lemma {:induction false} RunsStand(w: World, program: seq<ChildStep>, n: nat, k: nat)
    requires Stands(w, program, n) && (w.child.Running? || w.child.Zombie?)
    ensures Stands(ChildRuns(w, k), program, Further(n, k, Span(program)))
    ensures ChildRuns(w, k).child.Running? || ChildRuns(w, k).child.Zombie?
    decreases k
  {
    hide Stands, ChildStepped, Adds;
    if k == 0 || !w.child.Running? || w.program == [] {
      StaysFurther(w, program, n, k);
    } else {
      StepStands(w, program, n);
      RunsStand(ChildStepped(w), program, n + 1, k - 1);
    }
  }

  lemma StaysFurther(w: World, program: seq<ChildStep>, n: nat, k: nat)
    requires Stands(w, program, n) && (k == 0 || w.program == [] || w.child.Zombie?)
    ensures n == Further(n, k, Span(program))
  {
  }

  lemma {:induction false} RunsAdd(w: World, program: seq<ChildStep>, n: nat, k: nat)
    requires Stands(w, program, n) && (w.child.Running? || w.child.Zombie?)
    ensures Adds(w, ChildRuns(w, k), program[n..Further(n, k, Span(program))])
    decreases k
  {
    hide Stands, ChildStepped, Adds;
    if k == 0 || !w.child.Running? || w.program == [] {
      StaysAdds(w, program, n, k);
    } else {
      StepStands(w, program, n);
      FurtherIsIn(n, k, program);
      RunsAdd(ChildStepped(w), program, n + 1, k - 1);
      FirstAdds(w, ChildStepped(w), ChildRuns(ChildStepped(w), k - 1), program, n, Further(n, k, Span(program)));
    }
  }

  lemma FurtherIsIn(n: nat, k: nat, program: seq<ChildStep>)
    requires n < Span(program) && k > 0
    ensures Further(n, k, Span(program)) == Further(n + 1, k - 1, Span(program))
    ensures n < Further(n, k, Span(program)) <= |program|
  {
  }

  lemma StaysAdds(w: World, program: seq<ChildStep>, n: nat, k: nat)
    requires Stands(w, program, n) && (k == 0 || w.program == [] || w.child.Zombie?)
    ensures Adds(w, w, program[n..Further(n, k, Span(program))])
  {
    AddsNothing(w);
    assert program[n..n] == [];
  }

  lemma FirstAdds(u: World, v: World, w: World, program: seq<ChildStep>, n: nat, m: nat)
    requires n < m <= |program| && Adds(u, v, [program[n]]) && Adds(v, w, program[n + 1..m])
    ensures Adds(u, w, program[n..m])
  {
    AddsTwice(u, v, w, [program[n]], program[n + 1..m]);
    assert program[n..m] == [program[n]] + program[n + 1..m];
  }

  lemma RunsKeepSchedule(w: World, k: nat)
    ensures ChildRuns(w, k).schedule == w.schedule
    decreases k
  {
    if !(k == 0 || !w.child.Running? || w.program == []) { RunsKeepSchedule(ChildStepped(w), k - 1); }
  }

  // ---- What the log says ------------------------------------------------------------------------

  /** The number of calls up to the last read of the stream, that one included. */
  function LastRead(log: seq<Call>, x: Stream): (n: nat)
    ensures n <= |log|
  {
    if log == [] then 0
    else if log[|log| - 1] == ReadFrom(x) then |log|
    else LastRead(log[..|log| - 1], x)
  }

  function LastKill(log: seq<Call>): (n: nat)
    ensures n <= |log|
  {
    if log == [] then 0 else if log[|log| - 1].Killed? then |log| else LastKill(log[..|log| - 1])
  }

  /** The number of calls during which the child could still move. */
  function LastMove(log: seq<Call>): (n: nat)
    ensures n <= |log|
  {
    if LastKill(log) == 0 then |log| else LastKill(log)
  }

  lemma LogGrows(log: seq<Call>, c: Call, x: Stream)
    ensures LastRead(log + [c], x) == if c == ReadFrom(x) then |log| + 1 else LastRead(log, x)
    ensures LastKill(log + [c]) == if c.Killed? then |log| + 1 else LastKill(log)
  {
    assert (log + [c])[..|log|] == log;
  }

  // ---- The run follows the plan -----------------------------------------------------------------

  /** So far: the child is there, was not killed, and has done what it was scheduled for. */
  ghost predicate Follows(w: World, plan: Plan) {
    && w.schedule == plan.schedule && |w.log| >= 3 && w.turn == plan.begin + |w.log|
    && (w.child.Running? || w.child.Zombie?) && LastKill(w.log) == 0
    && Stands(w, plan.program, plan.Taken(|w.log|))
  }

  /** In the pipe is what the child wrote since the last read of the stream. */
  ghost predicate Waits(w: World, plan: Plan, x: Stream) {
    w.pipes.Get(x).pending == Output(plan.Steps(LastRead(w.log, x), |w.log|), x)
  }

  lemma TakenNext(plan: Plan, k: nat)
    requires k >= 3
    ensures plan.Taken(k + 1) == Further(plan.Taken(k), plan.schedule(plan.begin + k).childSteps, Span(plan.program))
  {
  }

  lemma StepsJoin(plan: Plan, i: nat, j: nat, k: nat, x: Stream)
    requires i <= j <= k
    ensures Output(plan.Steps(i, k), x) == Output(plan.Steps(i, j), x) + Output(plan.Steps(j, k), x)
  {
    plan.TakenGrows(i, j);
    plan.TakenGrows(j, k);
    assert plan.Steps(i, k) == plan.Steps(i, j) + plan.Steps(j, k);
    FlatMapJoins(Bytes(x), plan.Steps(i, j), plan.Steps(j, k));
  }

  lemma AdvanceStands(w: World, c: Call, plan: Plan)
    requires Follows(w, plan)
    ensures var v := Advance(w, c);
            && v.schedule == plan.schedule && v.turn == w.turn + 1 && v.log == w.log + [c]
            && (v.child.Running? || v.child.Zombie?)
            && Stands(v, plan.program, plan.Taken(|w.log| + 1))
  {
    var k := w.schedule(w.turn).childSteps;
    TakenNext(plan, |w.log|);
    RunsKeepSchedule(w, k);
    ChildRunsLogs(w, k);
    RunsStand(w, plan.program, plan.Taken(|w.log|), k);
    RecordedStands(ChildRuns(w, k), Advance(w, c), plan.program, plan.Taken(|w.log| + 1));
  }

  lemma AdvanceAdds(w: World, c: Call, plan: Plan)
    requires Follows(w, plan)
    ensures Adds(w, Advance(w, c), plan.Steps(|w.log|, |w.log| + 1))
  {
    var k := w.schedule(w.turn).childSteps;
    TakenNext(plan, |w.log|);
    RunsAdd(w, plan.program, plan.Taken(|w.log|), k);
    RecordedAdds(w, ChildRuns(w, k), Advance(w, c), plan.Steps(|w.log|, |w.log| + 1));
  }

  /** Clock, turn and log do not matter to what the child has done. */
  lemma RecordedStands(w: World, v: World, program: seq<ChildStep>, n: nat)
    requires Stands(w, program, n) && v.program == w.program && v.child == w.child && v.pipes == w.pipes
    ensures Stands(v, program, n)
  {
  }

  lemma RecordedAdds(u: World, w: World, v: World, steps: seq<ChildStep>)
    requires Adds(u, w, steps) && v.pipes == w.pipes
    ensures Adds(u, v, steps)
  {
  }

  lemma AdvanceFollows(w: World, c: Call, plan: Plan)
    requires Follows(w, plan) && !c.Killed?
    ensures Follows(Advance(w, c), plan) && Advance(w, c).log == w.log + [c]
  {
    AdvanceStands(w, c, plan);
    LogGrows(w.log, c, StdOut);
  }

  lemma AdvanceWaits(w: World, c: Call, plan: Plan, x: Stream)
    requires Follows(w, plan) && Waits(w, plan, x) && c != ReadFrom(x)
    ensures Waits(Advance(w, c), plan, x)
  {
    hide Advance, Stands, Output, LastRead, LastKill, Plan.Taken, Plan.Steps;
    AdvanceStands(w, c, plan);
    AdvanceAdds(w, c, plan);
    LogGrows(w.log, c, x);
    StepsJoin(plan, LastRead(w.log, x), |w.log|, |w.log| + 1, x);
  }

  function Other(x: Stream): Stream {
    if x.StdOut? then StdErr else StdOut
  }

  lemma ReadFollows(w: World, x: Stream, plan: Plan)
    requires Follows(w, plan)
    ensures Follows(Read(w, x).0, plan)
    ensures Read(w, x).1 == "" ==> Read(w, x).0.pipes.Get(x).pending == ""
  {
    AdvanceFollows(w, ReadFrom(x), plan);
  }

  lemma ReadWaits(w: World, x: Stream, plan: Plan)
    requires Follows(w, plan) && Waits(w, plan, Other(x))
    ensures Waits(Read(w, x).0, plan, Other(x))
  {
    AdvanceFollows(w, ReadFrom(x), plan);
    AdvanceWaits(w, ReadFrom(x), plan, Other(x));
  }

  lemma {:induction false} DrainFollows(s: Sup, x: Stream, limit: nat, plan: Plan)
    requires Follows(s.w, plan)
    ensures Follows(Drain(s, x, limit).w, plan)
    ensures Drain(s, x, limit).w.pipes.Get(x).pending == ""
    decreases Left(s.w)
  {
    var (w, data) := Read(s.w, x);
    ReadTakesBytes(s.w, x);
    ReadFollows(s.w, x, plan);
    if data != "" {
      DrainFollows(Sup(w, Take(s.result, x, data, limit), s.got.Set(x, s.got.Get(x) + data)), x, limit, plan);
    }
  }

  lemma {:induction false} DrainWaits(s: Sup, x: Stream, limit: nat, plan: Plan)
    requires Follows(s.w, plan) && Waits(s.w, plan, Other(x))
    ensures Waits(Drain(s, x, limit).w, plan, Other(x))
    decreases Left(s.w)
  {
    var (w, data) := Read(s.w, x);
    ReadTakesBytes(s.w, x);
    ReadFollows(s.w, x, plan);
    ReadWaits(s.w, x, plan);
    if data != "" {
      DrainWaits(Sup(w, Take(s.result, x, data, limit), s.got.Set(x, s.got.Get(x) + data)), x, limit, plan);
    }
  }

  /** These calls are reads of the stream. */
  predicate OnlyReads(calls: seq<Call>, x: Stream) {
    forall i :: 0 <= i < |calls| ==> calls[i] == ReadFrom(x)
  }

  lemma ReadLogs(w: World, x: Stream)
    ensures Read(w, x).0.log == w.log + [ReadFrom(x)]
  {
    ChildRunsLogs(w, w.schedule(w.turn).childSteps);
  }

  /** Draining a stream is one read or more of it. */
  lemma {:induction false} DrainLogs(s: Sup, x: Stream, limit: nat) returns (calls: seq<Call>)
    ensures Drain(s, x, limit).w.log == s.w.log + calls && calls != [] && OnlyReads(calls, x)
    decreases Left(s.w)
  {
    var (w, data) := Read(s.w, x);
    ReadTakesBytes(s.w, x);
    ReadLogs(s.w, x);
    calls := [ReadFrom(x)];
    if data != "" {
      var more := DrainLogs(Sup(w, Take(s.result, x, data, limit), s.got.Set(x, s.got.Get(x) + data)), x, limit);
      calls := calls + more;
      assert s.w.log + calls == s.w.log + [ReadFrom(x)] + more;
    }
  }

  lemma {:induction false} ReadsMarkTheLog(log: seq<Call>, calls: seq<Call>, x: Stream)
    requires calls != [] && OnlyReads(calls, x)
    ensures LastRead(log + calls, x) == |log + calls| && LastRead(log + calls, Other(x)) == LastRead(log, Other(x))
  {
    var n := |calls| - 1;
    LogGrows(log + calls[..n], calls[n], x);
    LogGrows(log + calls[..n], calls[n], Other(x));
    assert log + calls == log + calls[..n] + [calls[n]];
    if n > 0 { ReadsMarkTheLog(log, calls[..n], x); } else { assert log + calls[..n] == log; }
  }

  // ---- The end ----------------------------------------------------------------------------------

  /** What supervision leaves behind: every pipe holds what the child wrote behind its last read. */
  ghost predicate Finished(w: World, plan: Plan) {
    && w.child.Reaped?
    && (LastKill(w.log) == 0 ==> plan.Taken(|w.log|) == Span(plan.program))
    && Leaves(w, plan, StdOut) && Leaves(w, plan, StdErr)
  }

  ghost predicate Leaves(w: World, plan: Plan, x: Stream) {
    && LastRead(w.log, x) <= LastMove(w.log)
    && w.pipes.Get(x).pending == Output(plan.Steps(LastRead(w.log, x), LastMove(w.log)), x)
    && w.pipes.Get(x).written == Output(plan.program[..plan.Taken(LastMove(w.log))], x)
  }

  lemma DeadStaysDead(w: World, k: nat)
    requires !w.child.Running?
    ensures ChildRuns(w, k) == w
  {
  }

  /** A reaped child writes no more. */
  lemma CallAfterFinish(w: World, c: Call, plan: Plan)
    requires Finished(w, plan) && !c.Killed? && c != ReadFrom(StdOut) && c != ReadFrom(StdErr)
    ensures Finished(Advance(w, c), plan) && Advance(w, c).log == w.log + [c]
  {
    DeadStaysDead(w, w.schedule(w.turn).childSteps);
    LogGrows(w.log, c, StdOut);
    LogGrows(w.log, c, StdErr);
    plan.TakenGrows(|w.log|, |w.log| + 1);
  }

  // ---- One round --------------------------------------------------------------------------------

  /** A pipe that a read left empty waits for what comes. */
  lemma EmptyWaits(w: World, plan: Plan, x: Stream)
    requires w.pipes.Get(x).pending == "" && LastRead(w.log, x) == |w.log|
    ensures Waits(w, plan, x)
  {
    assert plan.Steps(|w.log|, |w.log|) == [];
  }

  lemma PollFollows(w: World, plan: Plan)
    requires Follows(w, plan)
    ensures Follows(Poll(w), plan)
  {
    AdvanceFollows(w, Polled, plan);
    RecordedStands(Advance(w, Polled), Poll(w), plan.program, plan.Taken(|w.log| + 1));
  }

  /** After the two drains of a round: both pipes were left empty by their last read. */
  lemma DrainsFollow(s: Sup, limit: nat, plan: Plan)
    requires Follows(s.w, plan)
    ensures var read := Drain(Drain(s, StdOut, limit), StdErr, limit).w;
            Follows(read, plan) && Waits(read, plan, StdOut) && Waits(read, plan, StdErr)
  {
    DrainFollows(s, StdOut, limit, plan);
    var calls := DrainLogs(s, StdOut, limit);
    ReadsMarkTheLog(s.w.log, calls, StdOut);
    var s' := Drain(s, StdOut, limit);
    EmptyWaits(s'.w, plan, StdOut);
    DrainFollows(s', StdErr, limit, plan);
    DrainWaits(s', StdErr, limit, plan);
    calls := DrainLogs(s', StdErr, limit);
    ReadsMarkTheLog(s'.w.log, calls, StdErr);
    EmptyWaits(Drain(s', StdErr, limit).w, plan, StdErr);
  }

  /** A machine that follows its plan up to the death of the child, which is then reaped. */
  lemma ReapedFinishes(w: World, v: World, plan: Plan)
    requires Follows(w, plan) && Waits(w, plan, StdOut) && Waits(w, plan, StdErr) && w.child.Zombie?
    requires v.child.Reaped? && v.pipes == w.pipes && v.log == w.log
    ensures Finished(v, plan)
  {
  }

  lemma WaitFollows(w: World, plan: Plan)
    requires Follows(w, plan) && Waits(w, plan, StdOut) && Waits(w, plan, StdErr)
    ensures var (v, child) := WaitNoHang(w);
            if child.Zombie? then Finished(v, plan)
            else Follows(v, plan) && Waits(v, plan, StdOut) && Waits(v, plan, StdErr)
  {
    var (v, child) := WaitNoHang(w);
    var c := Waited(child.Zombie?);
    AdvanceFollows(w, c, plan);
    AdvanceWaits(w, c, plan, StdOut);
    AdvanceWaits(w, c, plan, StdErr);
    if child.Zombie? { ReapedFinishes(Advance(w, c), v, plan); }
  }

  lemma KillFinishes(w: World, plan: Plan)
    requires Follows(w, plan) && Waits(w, plan, StdOut) && Waits(w, plan, StdErr)
    ensures Finished(KillAndReap(w), plan)
  {
    var c := Killed(w.clock);
    AdvanceStands(w, c, plan);
    AdvanceWaits(w, c, plan, StdOut);
    AdvanceWaits(w, c, plan, StdErr);
    LogGrows(w.log, c, StdOut);
    CallAfterFinish(Advance(w, c).(child := Reaped), Waited(true), plan);
  }

  /** Whatever the wait finds. */
  lemma WaitFollowsOrFinishes(read: World, plan: Plan)
    requires Follows(read, plan) && Waits(read, plan, StdOut) && Waits(read, plan, StdErr)
    ensures var (w, child) := WaitNoHang(read);
            if child.Zombie? then Finished(w, plan) else Follows(w, plan) && Finished(KillAndReap(w), plan)
  {
    WaitFollows(read, plan);
    var (w, child) := WaitNoHang(read);
    if !child.Zombie? { KillFinishes(w, plan); }
  }

  lemma RoundFollows(s: Sup, limit: nat, deadline: int, plan: Plan)
    requires Follows(s.w, plan)
    ensures var (next, running) := Round(s, limit, deadline);
            if running then Follows(next.w, plan) else Finished(next.w, plan)
  {
    hide Poll, Drain, WaitNoHang, KillAndReap, Follows, Waits, Finished;
    PollFollows(s.w, plan);
    var s1 := s.(w := Poll(s.w));
    DrainsFollow(s1, limit, plan);
    WaitFollowsOrFinishes(Drain(Drain(s1, StdOut, limit), StdErr, limit).w, plan);
  }

  lemma {:induction false} SuperviseFinishes(s: Sup, limit: nat, deadline: int, plan: Plan)
    requires Follows(s.w, plan)
    ensures Finished(Supervise(s, limit, deadline).w, plan)
    decreases deadline - s.w.clock
  {
    RoundTakesTime(s, limit, deadline);
    RoundFollows(s, limit, deadline, plan);
    var (next, running) := Round(s, limit, deadline);
    if running { SuperviseFinishes(next, limit, deadline, plan); }
  }

  // ---- Whole runs -------------------------------------------------------------------------------

  function PlanOf(w: World): Plan {
    Plan(w.program, w.schedule, w.turn)
  }

  lemma OpeningStands(w: World, c: Call)
    requires w.child.NoChild?
    ensures Advance(w, c) == w.(clock := w.clock + w.schedule(w.turn).ticks, turn := w.turn + 1, log := w.log + [c])
  {
    DeadStaysDead(w, w.schedule(w.turn).childSteps);
  }

  /** The child at its fork. */
  lemma ForkFollows(w: World, v: World, path: string)
    requires Fresh(w) && v.child.Running? && v.turn == w.turn + 3
    requires v.program == w.program && v.schedule == w.schedule && v.pipes == w.pipes
    requires v.log == [Opened(StdOut), Opened(StdErr), Forked(path)]
    ensures Follows(v, PlanOf(w))
  {
    DeathEndsSpan(w.program);
    LogGrows([Opened(StdOut), Opened(StdErr)], Forked(path), StdOut);
    LogGrows([Opened(StdOut)], Opened(StdErr), StdOut);
    LogGrows([], Opened(StdOut), StdOut);
    assert [Opened(StdOut), Opened(StdErr)] + [Forked(path)] == v.log;
    assert [Opened(StdOut)] + [Opened(StdErr)] == [Opened(StdOut), Opened(StdErr)];
    assert [] + [Opened(StdOut)] == [Opened(StdOut)];
    assert w.program[..0] == [] && w.program[0..] == w.program;
  }

  /** The machine right behind the fork. */
  function Forking(w: World, path: string): World {
    Advance(Advance(Advance(w, Opened(StdOut)), Opened(StdErr)), Forked(path)).(child := Running)
  }

  lemma ForkingFollows(w: World, path: string)
    requires Fresh(w)
    ensures Follows(Forking(w, path), PlanOf(w))
  {
    var w1 := Advance(w, Opened(StdOut));
    OpeningStands(w, Opened(StdOut));
    OpeningStands(w1, Opened(StdErr));
    OpeningStands(Advance(w1, Opened(StdErr)), Forked(path));
    assert [] + [Opened(StdOut)] + [Opened(StdErr)] + [Forked(path)] == [Opened(StdOut), Opened(StdErr), Forked(path)];
    ForkFollows(w, Forking(w, path), path);
  }

  /** The machine at the point from which the parent supervises the child. */
  function Started(w: World, path: string): World {
    CloseBoth(Forking(w, path), WriteEnd(StdOut), WriteEnd(StdErr))
  }

  lemma StartedFollows(w: World, path: string)
    requires Fresh(w)
    ensures Follows(Started(w, path), PlanOf(w))
  {
    ForkingFollows(w, path);
    ClosesFollow(Forking(w, path), WriteEnd(StdOut), WriteEnd(StdErr), PlanOf(w));
  }

  lemma ClosesFollow(w: World, a: End, b: End, plan: Plan)
    requires Follows(w, plan)
    ensures Follows(CloseBoth(w, a, b), plan)
  {
    AdvanceFollows(w, Closed(a), plan);
    AdvanceFollows(Close(w, a), Closed(b), plan);
  }

  /** A run that launches is the supervision of a child. */
  lemma RunAttends(request: Request, launch: Launch, w: World)
    requires Launched(Run(request, launch, w).0)
    ensures var start := Started(w, Resolve(request.executable, launch.executables));
            Run(request, launch, w) == Attend(start, start.clock + request.timeout, request.maxOutputBytes)
  {
    hide Attend, Advance, Close;
    var (child, w3) := Spawn(request, launch, Advance(Advance(w, Opened(StdOut)), Opened(StdErr)));
    FailureStays(request, child, CloseBoth(w3, WriteEnd(StdOut), WriteEnd(StdErr)));
  }

  lemma FailureStays(request: Request, child: Outcome, w: World)
    ensures !Launched(child) ==> Conclude(request, child, w).0 == child
  {
  }

  lemma BeginFollows(w: World, deadline: int, plan: Plan)
    requires Follows(w, plan)
    ensures Follows(Begin(w, deadline).w, plan)
  {
    AdvanceFollows(w, SetDeadline(deadline), plan);
  }

  lemma AttendFinishes(w: World, deadline: int, limit: nat, plan: Plan)
    requires Follows(w, plan)
    ensures Finished(Attend(w, deadline, limit).1, plan)
  {
    BeginFollows(w, deadline, plan);
    SuperviseFinishes(Begin(w, deadline), limit, deadline, plan);
    SettleFinishes(Supervise(Begin(w, deadline), limit, deadline), plan);
  }

  lemma SettleFinishes(s: Sup, plan: Plan)
    requires Finished(s.w, plan)
    ensures Finished(Settle(s).1, plan)
  {
    CallAfterFinish(s.w, Closed(ReadEnd(StdOut)), plan);
    CallAfterFinish(Close(s.w, ReadEnd(StdOut)), Closed(ReadEnd(StdErr)), plan);
  }

  lemma RunFinishes(request: Request, launch: Launch, w: World)
    requires Fresh(w) && Launched(Run(request, launch, w).0)
    ensures Finished(Run(request, launch, w).1, PlanOf(w))
  {
    hide *;
    RunAttends(request, launch, w);
    var start := Started(w, Resolve(request.executable, launch.executables));
    StartedFollows(w, Resolve(request.executable, launch.executables));
    AttendFinishes(start, start.clock + request.timeout, request.maxOutputBytes, PlanOf(w));
  }

  lemma FinishedLeaves(w: World, plan: Plan, x: Stream)
    requires Finished(w, plan)
    ensures Leaves(w, plan, x)
  {
  }

  /**
   What the child wrote is what it was scheduled to write, and what is still in a pipe at the end is what it
   wrote in the turns behind the last read of that stream.
   */
  lemma PendingIsLate(request: Request, launch: Launch, w: World, x: Stream)
    requires Fresh(w) && Launched(Run(request, launch, w).0)
    ensures var plan := PlanOf(w);
            var end := Run(request, launch, w).1;
            var (read, last) := (LastRead(end.log, x), LastMove(end.log));
            && read <= last
            && end.pipes.Get(x).written == Output(plan.program[..plan.Taken(last)], x)
            && end.pipes.Get(x).pending == Output(plan.Steps(read, last), x)
  {
    hide Run, Attend, Finished;
    RunFinishes(request, launch, w);
    FinishedLeaves(Run(request, launch, w).1, PlanOf(w), x);
  }

  predicate Writes(step: ChildStep, x: Stream) {
    step.Write? && step.x == x && step.data != ""
  }

  predicate Silent(steps: seq<ChildStep>, x: Stream) {
    forall step :: step in steps ==> !Writes(step, x)
  }

  lemma {:induction false} SilentExactly(steps: seq<ChildStep>, x: Stream)
    ensures Output(steps, x) == "" <==> Silent(steps, x)
  {
    if steps != [] {
      var front, step := steps[..|steps| - 1], steps[|steps| - 1];
      SilentExactly(front, x);
      assert steps == front + [step];
      assert Silent(steps, x) <==> Silent(front, x) && !Writes(step, x);
      assert Bytes(x)(step) == "" <==> !Writes(step, x);
    }
  }

  lemma CapturedUpToPending(r: ProcessResult, got: Both<string>, w: World, limit: nat, x: Stream)
    requires Captures(r, got, limit) && Conserves(w, got)
    ensures var p := w.pipes.Get(x);
            r.Text(x) == p.written <==> |p.written| <= limit && p.pending == ""
  {
  }

  /**
   A stream is captured in full exactly if all that the child writes to it fits the limit and the child is
   not scheduled to write to it behind the last read of it.
   */
  lemma CapturedInFullExactly(request: Request, launch: Launch, w: World, x: Stream)
    requires Fresh(w) && Launched(Run(request, launch, w).0)
    ensures var plan := PlanOf(w);
            var (outcome, end, _) := Run(request, launch, w);
            var (read, last) := (LastRead(end.log, x), LastMove(end.log));
            var written := Output(plan.program[..plan.Taken(last)], x);
            read <= last &&
            (outcome.value.Text(x) == written <==>
               && |written| <= request.maxOutputBytes
               && Silent(plan.Steps(read, last), x))
  {
    hide Run;
    var end := Run(request, launch, w).1;
    RunIsOrderly(request, launch, w);
    CapturedUpToPending(Run(request, launch, w).0.value, Run(request, launch, w).2, end, request.maxOutputBytes, x);
    PendingIsLate(request, launch, w, x);
    SilentExactly(PlanOf(w).Steps(LastRead(end.log, x), LastMove(end.log)), x);
  }

  // ---- The turns behind the last reads ----------------------------------------------------------

  /**
   How supervision ends: behind the last read of the standard output there are only reads of the standard
   error, and behind those the wait that reaps the child, or a wait that does not, the kill and its wait.
   */
  predicate ReadOut(log: seq<Call>) {
    var (i, j) := (LastRead(log, StdOut), LastRead(log, StdErr));
    && i < j && OnlyReads(log[i..j], StdErr)
    && (log[j..] == [Waited(true)] ||
        (|log| == j + 3 && log[j] == Waited(false) && log[j + 1].Killed? && log[j + 2] == Waited(true)))
  }

  /** Up to the wait. */
  predicate BothRead(log: seq<Call>) {
    && LastRead(log, StdErr) == |log|
    && LastRead(log, StdOut) < |log| && OnlyReads(log[LastRead(log, StdOut)..], StdErr)
  }

  lemma DrainsRead(s: Sup, limit: nat)
    ensures BothRead(Drain(Drain(s, StdOut, limit), StdErr, limit).w.log)
  {
    var calls := DrainLogs(s, StdOut, limit);
    ReadsMarkTheLog(s.w.log, calls, StdOut);
    var s' := Drain(s, StdOut, limit);
    var more := DrainLogs(s', StdErr, limit);
    ReadsMarkTheLog(s'.w.log, more, StdErr);
    assert (s'.w.log + more)[|s'.w.log|..] == more;
  }

  lemma WaitEndsLog(log: seq<Call>)
    requires BothRead(log)
    ensures ReadOut(log + [Waited(true)])
  {
    LogGrows(log, Waited(true), StdOut);
    LogGrows(log, Waited(true), StdErr);
    var i := LastRead(log, StdOut);
    assert (log + [Waited(true)])[i..|log|] == log[i..];
  }

  lemma KillEndsLog(log: seq<Call>, kill: Call)
    requires BothRead(log) && kill.Killed?
    ensures ReadOut(log + [Waited(false)] + [kill] + [Waited(true)])
  {
    var log1, log2 := log + [Waited(false)], log + [Waited(false)] + [kill];
    LogGrows(log, Waited(false), StdOut);
    LogGrows(log, Waited(false), StdErr);
    LogGrows(log1, kill, StdOut);
    LogGrows(log1, kill, StdErr);
    LogGrows(log2, Waited(true), StdOut);
    LogGrows(log2, Waited(true), StdErr);
    var more := [Waited(false), kill, Waited(true)];
    assert log2 + [Waited(true)] == log + more;
    assert (log + more)[LastRead(log, StdOut)..|log|] == log[LastRead(log, StdOut)..];
  }

  lemma AdvanceLogs(w: World, c: Call)
    ensures Advance(w, c).log == w.log + [c]
  {
    ChildRunsLogs(w, w.schedule(w.turn).childSteps);
  }

  lemma WaitReadsOut(read: World, deadline: int)
    requires BothRead(read.log)
    ensures var (w, child) := WaitNoHang(read);
            if child.Zombie? then ReadOut(w.log) else w.clock >= deadline ==> ReadOut(KillAndReap(w).log)
  {
    var (w, child) := WaitNoHang(read);
    AdvanceLogs(read, Waited(child.Zombie?));
    if child.Zombie? {
      WaitEndsLog(read.log);
    } else {
      var kill := Killed(w.clock);
      AdvanceLogs(w, kill);
      AdvanceLogs(Advance(w, kill).(child := Reaped), Waited(true));
      KillEndsLog(read.log, kill);
    }
  }

  lemma RoundReadsOut(s: Sup, limit: nat, deadline: int)
    ensures var (next, running) := Round(s, limit, deadline);
            !running ==> ReadOut(next.w.log)
  {
    hide Poll, Drain, WaitNoHang, KillAndReap, BothRead, ReadOut;
    var s1 := s.(w := Poll(s.w));
    DrainsRead(s1, limit);
    WaitReadsOut(Drain(Drain(s1, StdOut, limit), StdErr, limit).w, deadline);
  }

  lemma {:induction false} SuperviseReadsOut(s: Sup, limit: nat, deadline: int)
    ensures ReadOut(Supervise(s, limit, deadline).w.log)
    decreases deadline - s.w.clock
  {
    RoundTakesTime(s, limit, deadline);
    RoundReadsOut(s, limit, deadline);
    var (next, running) := Round(s, limit, deadline);
    if running { SuperviseReadsOut(next, limit, deadline); }
  }

  /** A log that ends with the two closes behind the end of supervision. */
  ghost predicate ClosedReadOut(log: seq<Call>) {
    var closed := [Closed(ReadEnd(StdOut)), Closed(ReadEnd(StdErr))];
    exists supervised ::
      && ReadOut(supervised) && log == supervised + closed
      && LastRead(log, StdOut) == LastRead(supervised, StdOut) && LastRead(log, StdErr) == LastRead(supervised, StdErr)
  }

  lemma ClosesEndLog(log: seq<Call>)
    requires ReadOut(log)
    ensures ClosedReadOut(log + [Closed(ReadEnd(StdOut))] + [Closed(ReadEnd(StdErr))])
  {
    var (a, b) := (Closed(ReadEnd(StdOut)), Closed(ReadEnd(StdErr)));
    LogGrows(log, a, StdOut);
    LogGrows(log, a, StdErr);
    LogGrows(log + [a], b, StdOut);
    LogGrows(log + [a], b, StdErr);
    assert log + [a] + [b] == log + [a, b];
  }

  lemma AttendReadsOut(w: World, deadline: int, limit: nat)
    ensures ClosedReadOut(Attend(w, deadline, limit).1.log)
  {
    var end := Supervise(Begin(w, deadline), limit, deadline);
    SuperviseReadsOut(Begin(w, deadline), limit, deadline);
    AdvanceLogs(end.w, Closed(ReadEnd(StdOut)));
    AdvanceLogs(Close(end.w, ReadEnd(StdOut)), Closed(ReadEnd(StdErr)));
    ClosesEndLog(end.w.log);
  }

  /** Which turns those are: the calls behind the last reads of a run. */
  lemma BehindTheLastRead(request: Request, launch: Launch, w: World)
    requires Fresh(w) && Launched(Run(request, launch, w).0)
    ensures ClosedReadOut(Run(request, launch, w).1.log)
  {
    hide *;
    RunAttends(request, launch, w);
    var start := Started(w, Resolve(request.executable, launch.executables));
    AttendReadsOut(start, start.clock + request.timeout, request.maxOutputBytes);
  }
}
