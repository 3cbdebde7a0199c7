/**
 From the output of commands to the verdict: what the facts at the end of a scan owe to each command, for
 every runner and every system.
 */
module Pipeline {
  import opened Collectors
  import opened Domain
  import opened Rules
  import opened ScanService
  import opened Sequences
  import opened Text
  import opened Verdicts
  import opened Wrappers
  import AptSimulation
  import AptTranscripts

  // ---- What the collectors leave alone ----------------------------------------------------------

  /** What the simulation says. */
  datatype Simulation = Simulation(performed: bool, incomplete: bool, plan: Plan, essential: seq<string>)

  function SimulationOf(f: Facts): Simulation {
    var p := f.packages;
    Simulation(p.simulationPerformed, p.simulationIncomplete,
               Plan(p.proposedRemovals, p.proposedInstalls, p.proposedUpgrades), p.essentialRemovals)
  }

  /** The part of the facts that is the business of one collector. */
  datatype Part =
    | PlatformPart(platform: Option<PlatformFacts>)
    | AptPart(simulation: Simulation, broken: seq<string>, available: bool, freshKnown: bool, stale: bool)
    | DpkgPart(audit: seq<string>, holds: seq<string>)
    | SourcesPart(third: seq<string>, disabled: seq<string>, duplicates: seq<string>)
    | StoragePart(storage: StorageFacts)
    | KernelPart(kernel: KernelFacts)
    | DkmsPart(dkms: DkmsFacts)
    | SecureBootPart(secureBoot: SecureBootFacts)
    | RebootPart(reboot: RebootFacts)

  function Owned(c: Collector, f: Facts): Part {
    var p := f.packages;
    match c
    case PlatformCollector => PlatformPart(f.platform)
    case AptCollector => AptPart(SimulationOf(f), p.brokenPackages, p.cacheAvailable, p.cacheFreshKnown, p.cacheStale)
    case DpkgCollector => DpkgPart(p.dpkgAudit, p.heldPackages)
    case SourcesCollector => SourcesPart(p.thirdPartySources, p.disabledSources, p.duplicateSources)
    case StorageCollector => StoragePart(f.storage)
    case KernelCollector => KernelPart(f.kernel)
    case DkmsCollector => DkmsPart(f.dkms)
    case SecureBootCollector => SecureBootPart(f.secureBoot)
    case RebootCollector => RebootPart(f.reboot)
  }

  /** From `f` to `g` only these collectors did anything. */
  ghost predicate Leaves(f: Facts, g: Facts, cs: seq<Collector>) {
    forall d :: d !in cs ==> Owned(d, g) == Owned(d, f)
  }

  lemma OneLeaves(c: Collector, run: Runner, host: Host, f: Facts)
    ensures Leaves(f, After(c, run, host, f), [c])
  {
    match c
    case AptCollector => AptLeaves(f, host, run(AptGet()));
    case DpkgCollector => DpkgLeaves(f, run(Dpkg()), run(AptMark()));
    case KernelCollector => KernelLeaves(f, host, run(DpkgQuery()));
    case DkmsCollector => DkmsLeaves(f, run(Dkms()));
    case _ =>
  }

  lemma AptLeaves(f: Facts, host: Host, sim: Outcome)
    ensures Leaves(f, AfterSimulation(AfterLists(AfterCache(f, host.cache), host.lists), sim), [AptCollector])
  {
    CacheLeaves(f, host.cache, host.lists);
    SimulationLeaves(AfterLists(AfterCache(f, host.cache), host.lists), sim);
  }

  lemma CacheLeaves(f: Facts, cache: Cache, lists: Lists)
    ensures var g := AfterLists(AfterCache(f, cache), lists);
      Leaves(f, g, [AptCollector]) && SimulationOf(g) == SimulationOf(f)
  {
    var h := AfterCache(f, cache);
    assert Leaves(f, h, [AptCollector]) && SimulationOf(h) == SimulationOf(f);
    ListsLeave(h, lists);
  }

  lemma ListsLeave(f: Facts, lists: Lists)
    ensures var g := AfterLists(f, lists); Leaves(f, g, [AptCollector]) && SimulationOf(g) == SimulationOf(f)
  {
  }

  lemma SimulationLeaves(f: Facts, sim: Outcome)
    ensures Leaves(f, AfterSimulation(f, sim), [AptCollector])
  {
  }

  lemma DpkgLeaves(f: Facts, audit: Outcome, holds: Outcome)
    ensures Leaves(f, AfterDpkg(f, audit, holds), [DpkgCollector])
  {
  }

  lemma KernelLeaves(f: Facts, host: Host, query: Outcome)
    ensures Leaves(f, AfterKernel(f, host, query), [KernelCollector])
  {
  }

  lemma DkmsLeaves(f: Facts, status: Outcome)
    ensures Leaves(f, AfterDkms(f, status), [DkmsCollector])
  {
  }

  ghost predicate Careful(step: Step) {
    forall c, f :: Leaves(f, step(c, f), [c])
  }

  lemma StepsAreCareful(run: Runner, host: Host)
    ensures Careful(Steps(run, host))
  {
    forall c, f
      ensures Leaves(f, Steps(run, host)(c, f), [c])
    {
      OneLeaves(c, run, host, f);
    }
  }

  lemma {:induction false} AllLeave(step: Step, a: seq<Collector>, b: seq<Collector>, f: Facts)
    requires Careful(step)
    ensures Leaves(InTurn(step, a, f), InTurn(step, a + b, f), b)
  {
    if b == [] {
      assert a + b == a;
    } else {
      var n := |b| - 1;
      AllLeave(step, a, b[..n], f);
      assert Leaves(InTurn(step, a + b[..n], f), step(b[n], InTurn(step, a + b[..n], f)), [b[n]]);
      assert (a + b)[..|a| + n] == a + b[..n];
      assert b == b[..n] + [b[n]];
    }
  }

  function Final(request: ScanRequest, run: Runner, host: Host): Facts {
    AfterAll(COLLECTORS, run, host, Blank(request))
  }

  lemma Between(step: Step, a: seq<Collector>, c: Collector, b: seq<Collector>, f: Facts) returns (before: Facts)
    requires Careful(step)
    ensures Leaves(f, before, a) && Leaves(before, step(c, before), [c])
    ensures Leaves(step(c, before), InTurn(step, a + [c] + b, f), b)
  {
    before := InTurn(step, a, f);
    AllLeave(step, [], a, f);
    assert [] + a == a;
    assert (a + [c])[..|a|] == a;
    assert InTurn(step, a + [c], f) == step(c, before);
    AllLeave(step, a + [c], b, f);
  }

  lemma Once(k: nat)
    requires k < |COLLECTORS|
    ensures COLLECTORS[k] !in COLLECTORS[..k] && COLLECTORS[k] !in COLLECTORS[k + 1..]
  {
  }

  /** At the end of a scan, the part of a collector is what the collector made of the part it found empty. */
  lemma Around(k: nat, c: Collector, request: ScanRequest, run: Runner, host: Host) returns (before: Facts)
    requires k < |COLLECTORS| && COLLECTORS[k] == c
    ensures Owned(c, before) == Owned(c, Blank(request))
    ensures Owned(c, Final(request, run, host)) == Owned(c, After(c, run, host, before))
  {
    StepsAreCareful(run, host);
    var cs, a, b := COLLECTORS, COLLECTORS[..k], COLLECTORS[k + 1..];
    before := Between(Steps(run, host), a, c, b, Blank(request));
    assert a + [c] + b == cs;
    assert Steps(run, host)(c, before) == After(c, run, host, before);
    Once(k);
  }

  // ---- What each command decides ----------------------------------------------------------------

  /** What the simulation says after a command with this outcome, if nothing was known before. */
  function Decided(sim: Outcome): Simulation {
    if Spawned(sim) && !sim.value.timedOut then
      var plan := PlanOf(sim.value.stdoutText);
      Simulation(sim.value.exitCode == 0, sim.value.truncated || sim.value.exitCode != 0, plan,
                 FlatMap(EssentialOnly, plan.removals))
    else Simulation(false, true, Plan([], [], []), [])
  }

  lemma SimulationDecides(f: Facts, sim: Outcome)
    requires SimulationOf(f) == Simulation(false, false, Plan([], [], []), [])
    ensures SimulationOf(AfterSimulation(f, sim)) == Decided(sim)
  {
  }

  lemma AptDecides(request: ScanRequest, run: Runner, host: Host)
    ensures SimulationOf(Final(request, run, host)) == Decided(run(AptGet()))
  {
    var before := Around(1, AptCollector, request, run, host);
    CacheLeaves(before, host.cache, host.lists);
    SimulationDecides(AfterLists(AfterCache(before, host.cache), host.lists), run(AptGet()));
  }

  lemma DkmsDecides(request: ScanRequest, run: Runner, host: Host)
    ensures var status, s := run(Dkms()), Final(request, run, host);
      if Spawned(status) then
        s.dkms == Classified(DkmsFacts(true, false, [], [], [], []), Lines(status.value.stdoutText))
      else
        s.dkms == DkmsFacts(false, true, [], [], [], [])
  {
    var before := Around(6, DkmsCollector, request, run, host);
  }

  lemma MokutilDecides(request: ScanRequest, run: Runner, host: Host)
    ensures var state, s := run(Mokutil()), Final(request, run, host);
      && (s.secureBoot.stateUnknown <==> !Succeeded(state) || state.value.truncated || state.value.stdoutText == "")
      && (Spawned(state) ==> s.secureBoot.enabled == Contains(state.value.stdoutText, "enabled"))
  {
    var before := Around(7, SecureBootCollector, request, run, host);
  }

  // ---- Issues -----------------------------------------------------------------------------------

  /** The collector has nothing to complain of. */
  predicate Quiet(c: Collector, run: Runner, host: Host) {
    match c
    case PlatformCollector => host.platform.Some?
    case AptCollector => !host.cache.CacheError? && Spawned(run(AptGet())) && !run(AptGet()).value.timedOut
    case DpkgCollector => Succeeded(run(Dpkg())) && Succeeded(run(AptMark()))
    case KernelCollector => Succeeded(run(DpkgQuery()))
    case DkmsCollector => Spawned(run(Dkms())) ==> Succeeded(run(Dkms())) && !run(Dkms()).value.truncated
    case _ => true
  }

  lemma QuietExactly(c: Collector, run: Runner, host: Host, f: Facts)
    ensures var g := After(c, run, host, f); f.issues <= g.issues && (g.issues == f.issues <==> Quiet(c, run, host))
  {
    match c
    case AptCollector => AptIssues(f, host, run(AptGet()));
    case DpkgCollector => DpkgIssues(f, run(Dpkg()), run(AptMark()));
    case KernelCollector => KernelIssues(f, host, run(DpkgQuery()));
    case DkmsCollector => DkmsIssues(f, run(Dkms()));
    case _ =>
  }

  lemma AptIssues(f: Facts, host: Host, sim: Outcome)
    ensures var g := AfterSimulation(AfterLists(AfterCache(f, host.cache), host.lists), sim);
      f.issues <= g.issues && (g.issues == f.issues <==> !host.cache.CacheError? && Spawned(sim) && !sim.value.timedOut)
  {
    CacheIssues(f, host.cache, host.lists);
    SimulationIssues(AfterLists(AfterCache(f, host.cache), host.lists), sim);
  }

  lemma DpkgIssues(f: Facts, audit: Outcome, holds: Outcome)
    ensures var g := AfterDpkg(f, audit, holds);
      f.issues <= g.issues && (g.issues == f.issues <==> Succeeded(audit) && Succeeded(holds))
  {
  }

  lemma KernelIssues(f: Facts, host: Host, query: Outcome)
    ensures var g := AfterKernel(f, host, query);
      f.issues <= g.issues && (g.issues == f.issues <==> Succeeded(query))
  {
  }

  lemma DkmsIssues(f: Facts, status: Outcome)
    ensures var g := AfterDkms(f, status);
      f.issues <= g.issues &&
      (g.issues == f.issues <==> (Spawned(status) ==> Succeeded(status) && !status.value.truncated))
  {
  }

  lemma CacheIssues(f: Facts, cache: Cache, lists: Lists)
    ensures AfterLists(AfterCache(f, cache), lists).issues ==
              f.issues + if cache.CacheError? then [CollectorIssue("libapt-pkg", cache.message)] else []
  {
  }

  lemma SimulationIssues(f: Facts, sim: Outcome)
    ensures AfterSimulation(f, sim).issues ==
              f.issues + if Spawned(sim) && !sim.value.timedOut then [] else [CollectorIssue("apt", Complaint(sim))]
  {
  }

  /** A step adds issues exactly if its collector is not among the quiet ones. */
  ghost predicate Complains(step: Step, quiet: Collector -> bool) {
    forall c, f: Facts :: f.issues <= step(c, f).issues && (step(c, f).issues == f.issues <==> quiet(c))
  }

  lemma {:induction false} IssuesInTurn(step: Step, quiet: Collector -> bool, cs: seq<Collector>, f: Facts)
    requires Complains(step, quiet)
    ensures f.issues <= InTurn(step, cs, f).issues
    ensures InTurn(step, cs, f).issues == f.issues <==> forall c :: c in cs ==> quiet(c)
  {
    if cs != [] {
      var n := |cs| - 1;
      var g := InTurn(step, cs[..n], f);
      IssuesInTurn(step, quiet, cs[..n], f);
      assert g.issues <= step(cs[n], g).issues && (step(cs[n], g).issues == g.issues <==> quiet(cs[n]));
      assert cs == cs[..n] + [cs[n]];
    }
  }

  /** A scan ends without issues exactly if every collector was quiet. */
  lemma IssuesExactly(request: ScanRequest, run: Runner, host: Host)
    ensures Final(request, run, host).issues == [] <==> forall c :: c in COLLECTORS ==> Quiet(c, run, host)
  {
    var step, quiet := Steps(run, host), (c: Collector) => Quiet(c, run, host);
    forall c, f: Facts
      ensures f.issues <= step(c, f).issues && (step(c, f).issues == f.issues <==> quiet(c))
    {
      QuietExactly(c, run, host, f);
    }
    IssuesInTurn(step, quiet, COLLECTORS, Blank(request));
    assert forall c :: quiet(c) == Quiet(c, run, host);
  }

  lemma NoiseIsLeft(c: Collector, request: ScanRequest, run: Runner, host: Host)
    requires c in COLLECTORS && !Quiet(c, run, host)
    ensures Final(request, run, host).issues != []
  {
    IssuesExactly(request, run, host);
  }

  // ---- No failed command looks ready ------------------------------------------------------------

  /** A command gave an error, was not spawned, ran out of time or exited with another status than 0. */
  predicate Failed(o: Outcome) {
    !Succeeded(o)
  }

  predicate Truncated(o: Outcome) {
    o.Ok? && o.value.truncated
  }

  lemma FindingOfRule(rules: seq<Rule>, k: nat, say: Wording, s: Facts)
    requires k < |rules|
    ensures Evaluate(rules[k], say, s) in Findings(rules, say, s)
  {
    assert Findings(rules, say, s)[k] == Evaluate(rules[k], say, s);
  }

  lemma FindingOfIssue(rules: seq<Rule>, say: Wording, s: Facts)
    requires s.issues != []
    ensures IssueFinding(say, s.issues[0]) in Findings(rules, say, s)
  {
    assert Findings(rules, say, s)[|rules|] == IssueFinding(say, s.issues[0]);
  }

  /** One incomplete finding is enough. */
  lemma IncompleteShows(findings: seq<Finding>, f: Finding)
    requires f in findings && (IsIncomplete(f) || f.status == Blocked)
    ensures Rank(Aggregate(findings)) >= 2
  {
  }

  lemma IssueShows(rules: seq<Rule>, say: Wording, s: Facts)
    requires s.issues != []
    ensures Rank(Aggregate(Findings(rules, say, s))) >= 2
  {
    FindingOfIssue(rules, say, s);
    IncompleteShows(Findings(rules, say, s), IssueFinding(say, s.issues[0]));
  }

  lemma RuleShows(rules: seq<Rule>, k: nat, say: Wording, s: Facts)
    requires k < |rules| && var f := Evaluate(rules[k], say, s); IsIncomplete(f) || f.status == Blocked
    ensures Rank(Aggregate(Findings(rules, say, s))) >= 2
  {
    FindingOfRule(rules, k, say, s);
    IncompleteShows(Findings(rules, say, s), Evaluate(rules[k], say, s));
  }

  lemma AptFailureShows(request: ScanRequest, run: Runner, host: Host, say: Wording)
    requires Failed(run(AptGet())) || Truncated(run(AptGet()))
    ensures Rank(Aggregate(Findings(RULES, say, Final(request, run, host)))) >= 2
  {
    AptDecides(request, run, host);
    var s := Final(request, run, host);
    assert SimulationFailed(s.packages);
    assert RULES[3] == DatabaseRule;
    RuleShows(RULES, 3, say, s);
  }

  lemma DkmsFailureShows(request: ScanRequest, run: Runner, host: Host, say: Wording)
    requires Failed(run(Dkms())) || Truncated(run(Dkms()))
    ensures Rank(Aggregate(Findings(RULES, say, Final(request, run, host)))) >= 2
  {
    var s := Final(request, run, host);
    if Spawned(run(Dkms())) {
      NoiseIsLeft(DkmsCollector, request, run, host);
      IssueShows(RULES, say, s);
    } else {
      DkmsDecides(request, run, host);
      assert RULES[13] == DkmsRule;
      RuleShows(RULES, 13, say, s);
    }
  }

  lemma MokutilFailureShows(request: ScanRequest, run: Runner, host: Host, say: Wording)
    requires Failed(run(Mokutil())) || Truncated(run(Mokutil()))
    ensures Rank(Aggregate(Findings(RULES, say, Final(request, run, host)))) >= 2
  {
    MokutilDecides(request, run, host);
    assert RULES[16] == SecureBootRule;
    RuleShows(RULES, 16, say, Final(request, run, host));
  }

  /**
   Whatever the system is like and whatever the other commands do: if one of the six fails, or the output of
   one of the three that are checked for it is truncated, the scan ends blocked or incomplete.
   */
  lemma NoFailedCommandLooksReady(request: ScanRequest, run: Runner, host: Host,
                                  say: Wording, limits: Limits, stamp: Stamp)
    requires || Failed(run(AptGet())) || Failed(run(Dpkg())) || Failed(run(AptMark())) || Failed(run(DpkgQuery()))
             || Failed(run(Dkms())) || Failed(run(Mokutil()))
             || Truncated(run(AptGet())) || Truncated(run(Dkms())) || Truncated(run(Mokutil()))
    ensures Verdict(request, run, host, say, limits, stamp) in {None, Some(NotReady), Some(Incomplete)}
  {
    var s := Final(request, run, host);
    if Failed(run(AptGet())) || Truncated(run(AptGet())) {
      AptFailureShows(request, run, host, say);
    } else if Failed(run(Dkms())) || Truncated(run(Dkms())) {
      DkmsFailureShows(request, run, host, say);
    } else if Failed(run(Mokutil())) || Truncated(run(Mokutil())) {
      MokutilFailureShows(request, run, host, say);
    } else if Failed(run(DpkgQuery())) {
      NoiseIsLeft(KernelCollector, request, run, host);
      IssueShows(RULES, say, s);
    } else {
      NoiseIsLeft(DpkgCollector, request, run, host);
      IssueShows(RULES, say, s);
    }
    assert Rank(Aggregate(Findings(RULES, say, s))) >= 2;
    VerdictOfFacts(request, run, host, say, limits, stamp);
  }

  // ---- Scans without a report -------------------------------------------------------------------

  /** libapt-pkg opened its cache, and the directory of package lists is not there. */
  predicate NoLists(host: Host) {
    host.cache.Cache? && host.cache.compiled && host.cache.opened_ && host.lists.NoDirectory?
  }

  /** A scan throws exactly then. */
  lemma ThrowsExactly(request: ScanRequest, run: Runner, host: Host)
    ensures SomeThrows(COLLECTORS, request, run, host) <==> NoLists(host)
  {
    FirstCollector(request, run, host);
    var f := AfterAll(COLLECTORS[..1], run, host, Blank(request));
    assert COLLECTORS[1] == AptCollector;
    assert Throws(COLLECTORS[1], host, f) <==> NoLists(host);
    forall i | 0 <= i < |COLLECTORS| && COLLECTORS[i] == AptCollector
      ensures i == 1
    {
    }
  }

  lemma FirstCollector(request: ScanRequest, run: Runner, host: Host)
    ensures !AfterAll(COLLECTORS[..1], run, host, Blank(request)).packages.cacheAvailable
  {
    var cs, step := [PlatformCollector], Steps(run, host);
    assert COLLECTORS[..1] == cs;
    assert cs[..0] == [];
    assert InTurn(step, cs, Blank(request)) == step(PlatformCollector, Blank(request));
  }

  /** What a scan that does not throw makes of the facts at the end. */
  lemma VerdictOfFacts(request: ScanRequest, run: Runner, host: Host, say: Wording, limits: Limits, stamp: Stamp)
    ensures Verdict(request, run, host, say, limits, stamp) ==
              if NoLists(host) then None else Some(Aggregate(Findings(RULES, say, Final(request, run, host))))
  {
    hide SomeThrows, NoLists;
    ThrowsExactly(request, run, host);
  }

  // ---- Truncation that goes unnoticed -----------------------------------------------------------

  /** The same outcome, but for what is said about truncation. */
  predicate SameButTruncation(o: Outcome, q: Outcome) {
    o == q || (o.Ok? && q.Ok? && q.value == o.value.(truncated := q.value.truncated,
      stdoutTruncated := q.value.stdoutTruncated, stderrTruncated := q.value.stderrTruncated))
  }

  /** Two runners that differ at most in whether dpkg, apt-mark and dpkg-query had output cut off. */
  predicate AlikeForScans(run: Runner, other: Runner) {
    && run(AptGet()) == other(AptGet()) && run(Dkms()) == other(Dkms()) && run(Mokutil()) == other(Mokutil())
    && SameButTruncation(run(Dpkg()), other(Dpkg()))
    && SameButTruncation(run(AptMark()), other(AptMark()))
    && SameButTruncation(run(DpkgQuery()), other(DpkgQuery()))
  }

  lemma SameStep(c: Collector, run: Runner, other: Runner, host: Host, f: Facts)
    requires AlikeForScans(run, other)
    ensures After(c, run, host, f) == After(c, other, host, f)
  {
    hide AfterCache, AfterLists, AfterSimulation, AfterDkms, AfterSecureBoot, FilledLines;
  }

  lemma {:induction false} SameSteps(cs: seq<Collector>, run: Runner, other: Runner, host: Host, f: Facts)
    requires AlikeForScans(run, other)
    ensures AfterAll(cs, run, host, f) == AfterAll(cs, other, host, f)
  {
    if cs != [] {
      var n := |cs| - 1;
      SameSteps(cs[..n], run, other, host, f);
      SameStep(cs[n], run, other, host, AfterAll(cs[..n], run, host, f));
    }
  }

  /** The output of these three may be truncated without any trace in the report. */
  lemma TruncationGoesUnnoticed(request: ScanRequest, run: Runner, other: Runner, host: Host,
                                say: Wording, limits: Limits, stamp: Stamp)
    requires AlikeForScans(run, other)
    ensures Scan(request, run, host, say, limits, stamp) == Scan(request, other, host, say, limits, stamp)
  {
    SameSteps(COLLECTORS, run, other, host, Blank(request));
    ThrowsExactly(request, run, host);
    ThrowsExactly(request, other, host);
  }

  // ---- From text to verdict ---------------------------------------------------------------------

  lemma {:induction false} FlatMapEmpty<A, B>(f: A -> seq<B>, xs: seq<A>)
    ensures FlatMap(f, xs) == [] <==> forall x :: x in xs ==> f(x) == []
  {
    if xs != [] {
      var n := |xs| - 1;
      FlatMapEmpty(f, xs[..n]);
      assert xs == xs[..n] + [xs[n]];
    }
  }

  /** A line of `dkms status` that gives no reason for concern. */
  predicate CleanLine(line: string) {
    line == "" ||
    (&& ',' in line && ':' in line
     && !Contains(line, "bad") && !Contains(line, "failed") && !Contains(line, "broken")
     && !Contains(line, ": added") && !Contains(line, ": built"))
  }

  lemma CleanExactly(line: string)
    ensures CleanLine(line) <==> FailedOnly(line) == [] && UnfinishedOnly(line) == [] && OddOnly(line) == []
  {
  }

  lemma ClassifiedClean(lines: seq<string>)
    ensures var d := Classified(DkmsFacts(true, false, [], [], [], []), lines);
      d.failedModules == [] && d.incompleteModules == [] && d.parseErrors == [] <==>
        forall l :: l in lines ==> CleanLine(l)
  {
    FlatMapEmpty(FailedOnly, lines);
    FlatMapEmpty(UnfinishedOnly, lines);
    FlatMapEmpty(OddOnly, lines);
    forall l: string
      ensures CleanLine(l) <==> FailedOnly(l) == [] && UnfinishedOnly(l) == [] && OddOnly(l) == []
    {
      CleanExactly(l);
    }
  }

  /** UG-DKM-001 passes exactly if dkms was spawned and no line of its output gives reason for concern. */
  lemma DkmsPassesExactly(request: ScanRequest, run: Runner, host: Host, say: Wording)
    ensures Evaluate(DkmsRule, say, Final(request, run, host)).status == Passed <==>
              Spawned(run(Dkms())) && forall l :: l in Lines(run(Dkms()).value.stdoutText) ==> CleanLine(l)
  {
    DkmsDecides(request, run, host);
    if Spawned(run(Dkms())) { ClassifiedClean(Lines(run(Dkms()).value.stdoutText)); }
  }

  /**
   UG-APT-006 blocks exactly if the simulation came to its end, untruncated and with status 0, and would
   remove an essential package.
   */
  lemma RemovalsBlockExactly(request: ScanRequest, run: Runner, host: Host, say: Wording)
    ensures var sim := run(AptGet());
      Evaluate(RemovalsRule, say, Final(request, run, host)).status == Blocked <==>
        Succeeded(sim) && !sim.value.truncated &&
        var removals := AptSimulation.Section(Lines(sim.value.stdoutText), "The following packages will be REMOVED:");
        exists p :: p in {"apt", "dpkg", "systemd", "ubuntu-minimal"} && p in removals
  {
    AptDecides(request, run, host);
    var sim := run(AptGet());
    if Spawned(sim) && !sim.value.timedOut {
      var removals := PlanOf(sim.value.stdoutText).removals;
      FlatMapEmpty(EssentialOnly, removals);
      assert forall p :: p in {"apt", "dpkg", "systemd", "ubuntu-minimal"} <==> EssentialOnly(p) != [];
    }
  }

  /** So of a simulation that prints these items, it blocks exactly if an essential one is listed for removal. */
  lemma TranscriptBlocksExactly(request: ScanRequest, run: Runner, host: Host, say: Wording,
                                items: seq<AptTranscripts.Item>)
    requires AptTranscripts.GoodTranscript(items)
    requires forall l :: l in AptTranscripts.Transcript(items) ==> IsLine(l)
    requires Succeeded(run(AptGet())) && !run(AptGet()).value.truncated
    requires run(AptGet()).value.stdoutText == Unlines(AptTranscripts.Transcript(items))
    ensures Evaluate(RemovalsRule, say, Final(request, run, host)).status == Blocked <==>
              exists p :: p in {"apt", "dpkg", "systemd", "ubuntu-minimal"}
                          && p in AptTranscripts.Wanted(items, "The following packages will be REMOVED:")
  {
    hide *;
    RemovalsRead(items);
    RemovalsBlockExactly(request, run, host, say);
  }

  lemma RemovalsRead(items: seq<AptTranscripts.Item>)
    requires AptTranscripts.GoodTranscript(items)
    requires forall l :: l in AptTranscripts.Transcript(items) ==> IsLine(l)
    ensures var heading := "The following packages will be REMOVED:";
            AptSimulation.Section(Lines(Unlines(AptTranscripts.Transcript(items))), heading) ==
              AptTranscripts.Wanted(items, heading)
  {
    hide AptSimulation.Section, AptTranscripts.Wanted, Lines, Unlines;
    AptTranscripts.HeadingsStandOut();
    AptTranscripts.SectionReads(items, "The following packages will be REMOVED:");
    TextOfLines(AptTranscripts.Transcript(items));
  }
}
