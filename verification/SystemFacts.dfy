/** What the facts at the end of a scan are, in terms of command outcomes and of what the system has. */
module SystemFacts {
  import opened Collectors
  import opened Domain
  import opened Pipeline
  import opened ScanService
  import opened Sequences
  import opened Text
  import opened Wrappers
  import AptSimulation
  import Json
  import ProcessRunner
  import Readiness
  import SourceFacts
  import Sources

  // ---- Choosing lines ---------------------------------------------------------------------------

  /** The elements that have the property, in order. */
  function Filter<A>(p: A -> bool, xs: seq<A>): seq<A> {
    if xs == [] then []
    else Filter(p, xs[..|xs| - 1]) + (if p(xs[|xs| - 1]) then [xs[|xs| - 1]] else [])
  }

  lemma {:induction false} FilterHas<A>(p: A -> bool, xs: seq<A>, x: A)
    ensures x in Filter(p, xs) <==> x in xs && p(x)
  {
    if xs != [] {
      FilterHas(p, xs[..|xs| - 1], x);
      assert xs == xs[..|xs| - 1] + [xs[|xs| - 1]];
    }
  }

  lemma {:induction false} FilterIsFlatMap<A>(f: A -> seq<A>, p: A -> bool, xs: seq<A>)
    requires forall x :: x in xs ==> f(x) == if p(x) then [x] else []
    ensures FlatMap(f, xs) == Filter(p, xs)
  {
    if xs != [] {
      var n := |xs| - 1;
      assert xs == xs[..n] + [xs[n]];
      FilterIsFlatMap(f, p, xs[..n]);
    }
  }

  predicate NotEmpty(line: string) {
    line != ""
  }

  predicate SaysFailed(line: string) {
    line != "" && (Contains(line, "bad") || Contains(line, "failed") || Contains(line, "broken"))
  }

  predicate SaysUnfinished(line: string) {
    line != "" && (Contains(line, ": added") || Contains(line, ": built"))
  }

  predicate Malformed(line: string) {
    line != "" && (',' !in line || ':' !in line)
  }

  predicate KeepsSystemGoing(name: string) {
    name in {"apt", "dpkg", "systemd", "ubuntu-minimal"}
  }

  lemma FilledIsFilter(text: string)
    ensures FilledLines(text) == Filter(NotEmpty, Lines(text))
  {
    FilterIsFlatMap(Filled, NotEmpty, Lines(text));
  }

  lemma ModulesAreFilters(lines: seq<string>)
    ensures FlatMap(Filled, lines) == Filter(NotEmpty, lines)
    ensures FlatMap(FailedOnly, lines) == Filter(SaysFailed, lines)
    ensures FlatMap(UnfinishedOnly, lines) == Filter(SaysUnfinished, lines)
    ensures FlatMap(OddOnly, lines) == Filter(Malformed, lines)
  {
    FilterIsFlatMap(Filled, NotEmpty, lines);
    FilterIsFlatMap(FailedOnly, SaysFailed, lines);
    FilterIsFlatMap(UnfinishedOnly, SaysUnfinished, lines);
    FilterIsFlatMap(OddOnly, Malformed, lines);
  }

  // ---- Commands ---------------------------------------------------------------------------------

  /** The outcome of one command, by its name, its time-out and its limit on output. */
  function Answer(run: Runner, name: string, timeout: int, limit: nat): Outcome {
    run(ProcessRunner.Request(name, timeout, limit))
  }

  predicate Spoke(o: Outcome) {
    o.Ok? && !o.value.spawnFailed && !o.value.timedOut
  }

  /** The command came to its end with status 0. */
  predicate Worked(o: Outcome) {
    Spoke(o) && o.value.exitCode == 0
  }

  lemma WorkedExactly(o: Outcome)
    ensures Worked(o) <==> Succeeded(o)
    ensures Spoke(o) <==> Spawned(o) && !o.value.timedOut
  {
  }

  /** The lines that a command printed, if it worked. */
  function Printed(o: Outcome): seq<string> {
    if Worked(o) then Filter(NotEmpty, Lines(o.value.stdoutText)) else []
  }

  // ---- Packages ---------------------------------------------------------------------------------

  /** Whether the simulation came to its end with all its output. */
  predicate SimulationDone(sim: Outcome) {
    Worked(sim) && !sim.value.truncated
  }

  /** The packages that the simulation lists for removal. */
  function ProposedRemovals(sim: Outcome): seq<string> {
    if Spoke(sim)
    then AptSimulation.Section(Lines(sim.value.stdoutText), "The following packages will be REMOVED:") else []
  }

  /** The packages that it lists as new. */
  function ProposedInstalls(sim: Outcome): seq<string> {
    if Spoke(sim)
    then AptSimulation.Section(Lines(sim.value.stdoutText), "The following NEW packages will be installed:") else []
  }

  function BrokenByCache(cache: Cache): seq<string> {
    if cache.Cache? && cache.compiled && cache.broken != 0
    then [Json.Decimal(cache.broken) + " package(s) marked broken by libapt-pkg"] else []
  }

  function BrokenBySimulation(sim: Outcome): seq<string> {
    if Spoke(sim) && Contains(sim.value.stderrText, "Unmet dependencies")
    then ["APT reported unmet dependencies"] else []
  }

  /** The reasons to call packages broken. */
  function BrokenReasons(cache: Cache, sim: Outcome): seq<string> {
    BrokenByCache(cache) + BrokenBySimulation(sim)
  }

  predicate CacheIsThere(host: Host) {
    (host.cache.Cache? && host.cache.compiled && host.cache.opened_) || !host.lists.NoDirectory?
  }

  lemma AptIs(request: ScanRequest, run: Runner, host: Host)
    ensures var (sim, p) := (Answer(run, "apt-get", 8000, 131072), Final(request, run, host).packages);
      && (p.simulationPerformed && !p.simulationIncomplete <==> SimulationDone(sim))
      && (p.simulationIncomplete <==> !SimulationDone(sim))
      && p.proposedRemovals == ProposedRemovals(sim) && p.proposedInstalls == ProposedInstalls(sim)
      && p.essentialRemovals == Filter(KeepsSystemGoing, ProposedRemovals(sim))
      && p.brokenPackages == BrokenReasons(host.cache, sim)
      && p.cacheAvailable == CacheIsThere(host)
      && p.cacheFreshKnown == host.lists.Dated?
      && (host.lists.Dated? ==> p.cacheStale == host.lists.old_)
  {
    hide AptSimulation.Section, Filter;
    var before := Around(1, AptCollector, request, run, host);
    var sim := run(AptGet());
    AptMakes(before, host.cache, host.lists, sim);
    EssentialIsFilter(ProposedRemovals(sim));
  }

  lemma EssentialIsFilter(names: seq<string>)
    ensures FlatMap(EssentialOnly, names) == Filter(KeepsSystemGoing, names)
  {
    FilterIsFlatMap(EssentialOnly, KeepsSystemGoing, names);
  }

  lemma AptMakes(f: Facts, cache: Cache, lists: Lists, sim: Outcome)
    requires Owned(AptCollector, f) == Owned(AptCollector, Blank(f.request))
    ensures var p := AfterSimulation(AfterLists(AfterCache(f, cache), lists), sim).packages;
      && (p.simulationPerformed && !p.simulationIncomplete <==> SimulationDone(sim))
      && (p.simulationIncomplete <==> !SimulationDone(sim))
      && p.proposedRemovals == ProposedRemovals(sim) && p.proposedInstalls == ProposedInstalls(sim)
      && p.essentialRemovals == FlatMap(EssentialOnly, ProposedRemovals(sim))
      && p.brokenPackages == BrokenReasons(cache, sim)
      && p.cacheAvailable == ((cache.Cache? && cache.compiled && cache.opened_) || !lists.NoDirectory?)
      && p.cacheFreshKnown == lists.Dated?
      && (lists.Dated? ==> p.cacheStale == lists.old_)
  {
    hide AfterSimulation, AfterLists, AfterCache, BrokenReasons, ProposedRemovals, ProposedInstalls,
         SimulationDone;
    var g := AfterLists(AfterCache(f, cache), lists);
    CacheMakes(f, cache, lists);
    SimulationMakes(g, sim);
    BrokenAdds(cache, sim);
  }

  lemma CacheMakes(f: Facts, cache: Cache, lists: Lists)
    requires Owned(AptCollector, f) == Owned(AptCollector, Blank(f.request))
    ensures var p := AfterLists(AfterCache(f, cache), lists).packages;
      && !p.simulationPerformed && !p.simulationIncomplete && p.essentialRemovals == []
      && p.proposedRemovals == [] && p.proposedInstalls == []
      && p.brokenPackages == BrokenByCache(cache)
      && p.cacheAvailable == ((cache.Cache? && cache.compiled && cache.opened_) || !lists.NoDirectory?)
      && p.cacheFreshKnown == lists.Dated?
      && (lists.Dated? ==> p.cacheStale == lists.old_)
  {
  }

  lemma SimulationMakes(f: Facts, sim: Outcome)
    requires !f.packages.simulationPerformed && !f.packages.simulationIncomplete
    requires f.packages.proposedRemovals == [] && f.packages.proposedInstalls == []
    requires f.packages.essentialRemovals == []
    ensures var (p, q) := (f.packages, AfterSimulation(f, sim).packages);
      && (q.simulationPerformed && !q.simulationIncomplete <==> SimulationDone(sim))
      && (q.simulationIncomplete <==> !SimulationDone(sim))
      && q.proposedRemovals == ProposedRemovals(sim) && q.proposedInstalls == ProposedInstalls(sim)
      && q.essentialRemovals == FlatMap(EssentialOnly, ProposedRemovals(sim))
      && q.brokenPackages == p.brokenPackages + BrokenBySimulation(sim)
      && q.cacheAvailable == p.cacheAvailable && q.cacheFreshKnown == p.cacheFreshKnown && q.cacheStale == p.cacheStale
  {
    hide AptSimulation.Section, FlatMap, Contains;
    assert [] + FlatMap(EssentialOnly, ProposedRemovals(sim)) == FlatMap(EssentialOnly, ProposedRemovals(sim));
    assert f.packages.brokenPackages + [] == f.packages.brokenPackages;
    NoNamesNoEssentials();
  }

  lemma BrokenAdds(cache: Cache, sim: Outcome)
    ensures BrokenReasons(cache, sim) == BrokenByCache(cache) + BrokenBySimulation(sim)
  {
  }

  lemma NoNamesNoEssentials()
    ensures FlatMap(EssentialOnly, []) == []
  {
  }

  lemma DpkgIs(request: ScanRequest, run: Runner, host: Host)
    ensures var p := Final(request, run, host).packages;
      && p.dpkgAudit == Printed(Answer(run, "dpkg", 3000, 65536))
      && p.heldPackages == Printed(Answer(run, "apt-mark", 3000, 65536))
  {
    hide Lines, Filter;
    Readiness.DpkgDecides(request, run, host);
    PrintedIs(run(Dpkg()));
    PrintedIs(run(AptMark()));
  }

  lemma PrintedIs(o: Outcome)
    ensures Printed(o) == if Succeeded(o) then FilledLines(o.value.stdoutText) else []
  {
    if Succeeded(o) { FilledIsFilter(o.value.stdoutText); }
  }

  /** The enabled entries, in the order in which they are read. */
  function EnabledEntries(host: Host): seq<string> {
    SourceFacts.EnabledIn(Sources.Read(host.sourcesList, host.sourcesDirectory))
  }

  predicate FromElsewhere(text: string) {
    || Contains(text, "ppa.launchpadcontent.net")
    || (!Contains(text, "ubuntu.com") && !Contains(text, "archive.canonical.com"))
  }

  /** The elements that came before already, each as often as it comes again. */
  function Repeats<A(==)>(xs: seq<A>): seq<A> {
    if xs == [] then []
    else Repeats(xs[..|xs| - 1]) + (if xs[|xs| - 1] in xs[..|xs| - 1] then [xs[|xs| - 1]] else [])
  }

  lemma {:induction false} DuplicatesAreRepeats(entries: SourceFacts.Entries)
    ensures Sources.NoteAll(Sources.NOTHING, entries).duplicates == Repeats(SourceFacts.EnabledIn(entries))
  {
    if entries != [] {
      var front, last := entries[..|entries| - 1], entries[|entries| - 1];
      DuplicatesAreRepeats(front);
      SourceFacts.RecordOfEntries(front);
      var enabled := SourceFacts.EnabledIn(front);
      match last
      case Some(Enabled(text)) => assert (enabled + [text])[..|enabled|] == enabled;
      case _ => assert enabled + [] == enabled;
    }
  }

  lemma SourcesAre(request: ScanRequest, run: Runner, host: Host)
    ensures var (p, enabled) := (Final(request, run, host).packages, EnabledEntries(host));
      && p.thirdPartySources == Filter(FromElsewhere, enabled) && p.duplicateSources == Repeats(enabled)
      && p.disabledSources ==
           SourceFacts.DisabledIn(Sources.Read(host.sourcesList, host.sourcesDirectory))
  {
    hide Filter, Contains, Repeats;
    var entries := Sources.Read(host.sourcesList, host.sourcesDirectory);
    Readiness.SourcesDecide(request, run, host);
    SourceFacts.RecordOfEntries(entries);
    ThirdIsFilter(EnabledEntries(host));
    DuplicatesAreRepeats(entries);
  }

  lemma ThirdIsFilter(texts: seq<string>)
    ensures SourceFacts.ThirdIn(texts) == Filter(FromElsewhere, texts)
  {
    FilterIsFlatMap(SourceFacts.ThirdText, FromElsewhere, texts);
  }

  // ---- Kernels, modules and Secure Boot ---------------------------------------------------------

  lemma KernelIs(request: ScanRequest, run: Runner, host: Host)
    ensures var k := Final(request, run, host).kernel;
      && k.installedKernels == Printed(Answer(run, "dpkg-query", 4000, 65536))
      && k.hasFallbackKernel == (|k.installedKernels| > 1)
      && k.missingHeaders == host.missingHeaders && k.initramfsIssues == host.initramfsIssues
      && k.runningKernel == host.runningKernel
  {
    hide Lines, Filter;
    Readiness.KernelDecides(request, run, host);
    PrintedIs(run(DpkgQuery()));
  }

  /** The command could be started, whatever came of it. */
  predicate Started(o: Outcome) {
    o.Ok? && !o.value.spawnFailed
  }

  /** What dkms printed, also if it failed. */
  function ModuleLines(status: Outcome): seq<string> {
    if Started(status) then Lines(status.value.stdoutText) else []
  }

  lemma DkmsIs(request: ScanRequest, run: Runner, host: Host)
    ensures var (d, status) := (Final(request, run, host).dkms, Answer(run, "dkms", 4000, 65536));
      && d.installed == Started(status) && d.commandMissing == !Started(status)
      && d.modules == Filter(NotEmpty, ModuleLines(status))
      && d.failedModules == Filter(SaysFailed, ModuleLines(status))
      && d.incompleteModules == Filter(SaysUnfinished, ModuleLines(status))
      && d.parseErrors == Filter(Malformed, ModuleLines(status))
  {
    hide Lines, Filter, FlatMap;
    DkmsDecides(request, run, host);
    ModulesAreFilters(ModuleLines(run(Dkms())));
    NothingToFilter();
  }

  lemma NothingToFilter()
    ensures Filter(NotEmpty, []) == [] && Filter(SaysFailed, []) == []
    ensures Filter(SaysUnfinished, []) == [] && Filter(Malformed, []) == []
  {
  }

  lemma SecureBootIs(request: ScanRequest, run: Runner, host: Host)
    ensures var (b, state) := (Final(request, run, host).secureBoot, Answer(run, "mokutil", 3000, 8192));
      && b.mokutilInstalled == Started(state)
      && b.enabled == (Started(state) && Contains(state.value.stdoutText, "enabled"))
      && b.rawState == (if Started(state) then state.value.stdoutText else "")
      && b.stateUnknown == !(Worked(state) && !state.value.truncated && state.value.stdoutText != "")
  {
    hide Contains;
    var before := Around(7, SecureBootCollector, request, run, host);
  }

  // ---- Issues -----------------------------------------------------------------------------------

  /** What an outcome says of itself. */
  function Message(o: Outcome): string {
    if o.Ok? then o.value.failureMessage else o.message
  }

  function Unless(good: bool, collector: string, message: string): seq<CollectorIssue> {
    if good then [] else [CollectorIssue(collector, message)]
  }

  /** Everything that collectors complain of, in order. */
  function Complaints(run: Runner, host: Host): seq<CollectorIssue> {
    var sim, status := Answer(run, "apt-get", 8000, 131072), Answer(run, "dkms", 4000, 65536);
    var audit, holds := Answer(run, "dpkg", 3000, 65536), Answer(run, "apt-mark", 3000, 65536);
    Unless(host.platform.Some?, "platform", "could not read os-release") +
    (if host.cache.CacheError? then [CollectorIssue("libapt-pkg", host.cache.message)] else []) +
    Unless(Spoke(sim), "apt", Message(sim)) +
    Unless(Worked(audit), "dpkg", Message(audit)) +
    Unless(Worked(holds), "dpkg", Message(holds)) +
    Unless(Worked(Answer(run, "dpkg-query", 4000, 65536)), "kernel",
           "installed kernel package query did not complete") +
    Unless(Started(status) ==> Worked(status) && !status.value.truncated, "dkms",
           "dkms status did not complete successfully")
  }

  /** What one collector adds. */
  function Added(run: Runner, host: Host): Collector -> seq<CollectorIssue> {
    (c: Collector) =>
      match c
      case PlatformCollector => Unless(host.platform.Some?, "platform", "could not read os-release")
      case AptCollector =>
        (if host.cache.CacheError? then [CollectorIssue("libapt-pkg", host.cache.message)] else []) +
        Unless(Spoke(run(AptGet())), "apt", Message(run(AptGet())))
      case DpkgCollector =>
        Unless(Worked(run(Dpkg())), "dpkg", Message(run(Dpkg()))) +
        Unless(Worked(run(AptMark())), "dpkg", Message(run(AptMark())))
      case KernelCollector =>
        Unless(Worked(run(DpkgQuery())), "kernel", "installed kernel package query did not complete")
      case DkmsCollector =>
        Unless(Started(run(Dkms())) ==> Worked(run(Dkms())) && !run(Dkms()).value.truncated, "dkms",
               "dkms status did not complete successfully")
      case _ => []
  }

  lemma StepAdds(c: Collector, run: Runner, host: Host, f: Facts)
    ensures After(c, run, host, f).issues == f.issues + Added(run, host)(c)
  {
    hide Lines, FlatMap, AfterDpkg, AfterKernel, AfterDkms, AfterSimulation, AfterLists, AfterCache;
    hide Spoke, Worked, Started, Message;
    match c
    case AptCollector => AptAdds(f, host, run(AptGet()));
    case DpkgCollector => DpkgAdds(f, run(Dpkg()), run(AptMark()));
    case KernelCollector => KernelAdds(f, host, run(DpkgQuery()));
    case DkmsCollector => DkmsAdds(f, run(Dkms()));
    case _ =>
  }

  lemma AptAdds(f: Facts, host: Host, sim: Outcome)
    ensures AfterSimulation(AfterLists(AfterCache(f, host.cache), host.lists), sim).issues ==
              f.issues + ((if host.cache.CacheError? then [CollectorIssue("libapt-pkg", host.cache.message)] else []) +
                          Unless(Spoke(sim), "apt", Message(sim)))
  {
    hide AfterSimulation, AfterLists, AfterCache;
    CacheIssues(f, host.cache, host.lists);
    SimulationIssues(AfterLists(AfterCache(f, host.cache), host.lists), sim);
  }

  lemma DpkgAdds(f: Facts, audit: Outcome, holds: Outcome)
    ensures AfterDpkg(f, audit, holds).issues ==
              f.issues + (Unless(Worked(audit), "dpkg", Message(audit)) + Unless(Worked(holds), "dpkg", Message(holds)))
  {
    hide FilledLines;
  }

  lemma KernelAdds(f: Facts, host: Host, query: Outcome)
    ensures AfterKernel(f, host, query).issues ==
              f.issues + Unless(Worked(query), "kernel", "installed kernel package query did not complete")
  {
    hide FilledLines;
  }

  lemma DkmsAdds(f: Facts, status: Outcome)
    ensures AfterDkms(f, status).issues ==
              f.issues + Unless(Started(status) ==> Worked(status) && !status.value.truncated, "dkms",
                                "dkms status did not complete successfully")
  {
    hide Classified;
  }

  lemma {:induction false} StepsAdd(cs: seq<Collector>, run: Runner, host: Host, f: Facts)
    ensures AfterAll(cs, run, host, f).issues == f.issues + FlatMap(Added(run, host), cs)
  {
    hide After;
    if cs != [] {
      var n := |cs| - 1;
      StepsAdd(cs[..n], run, host, f);
      StepAdds(cs[n], run, host, AfterAll(cs[..n], run, host, f));
    } else {
      assert f.issues + [] == f.issues;
    }
  }

  lemma NineAdd(add: Collector -> seq<CollectorIssue>, cs: seq<Collector>)
    requires |cs| == 9
    ensures FlatMap(add, cs) == add(cs[0]) + add(cs[1]) + add(cs[2]) + add(cs[3]) + add(cs[4])
                                + add(cs[5]) + add(cs[6]) + add(cs[7]) + add(cs[8])
  {
    assert cs[..8][..7] == cs[..7] && cs[..7][..6] == cs[..6] && cs[..6][..5] == cs[..5] && cs[..5][..4] == cs[..4];
    assert cs[..4][..3] == cs[..3] && cs[..3][..2] == cs[..2] && cs[..2][..1] == cs[..1] && cs[..1][..0] == [];
    assert FlatMap(add, cs[..1]) == add(cs[0]);
    assert FlatMap(add, cs[..2]) == add(cs[0]) + add(cs[1]);
    assert FlatMap(add, cs[..3]) == FlatMap(add, cs[..2]) + add(cs[2]);
    assert FlatMap(add, cs[..4]) == FlatMap(add, cs[..3]) + add(cs[3]);
    assert FlatMap(add, cs[..5]) == FlatMap(add, cs[..4]) + add(cs[4]);
    assert FlatMap(add, cs[..6]) == FlatMap(add, cs[..5]) + add(cs[5]);
    assert FlatMap(add, cs[..7]) == FlatMap(add, cs[..6]) + add(cs[6]);
    assert FlatMap(add, cs[..8]) == FlatMap(add, cs[..7]) + add(cs[7]);
  }

  /** The issues of a scan. */
  lemma IssuesAre(request: ScanRequest, run: Runner, host: Host)
    ensures Final(request, run, host).issues == Complaints(run, host)
  {
    hide After, FlatMap, Spoke, Worked, Message, Unless, Started;
    StepsAdd(COLLECTORS, run, host, Blank(request));
    NineAdd(Added(run, host), COLLECTORS);
    var add := Added(run, host);
    var sim, status := run(AptGet()), run(Dkms());
    Regrouped(add(PlatformCollector),
      if host.cache.CacheError? then [CollectorIssue("libapt-pkg", host.cache.message)] else [],
      Unless(Spoke(sim), "apt", Message(sim)),
      Unless(Worked(run(Dpkg())), "dpkg", Message(run(Dpkg()))),
      Unless(Worked(run(AptMark())), "dpkg", Message(run(AptMark()))),
      add(KernelCollector), add(DkmsCollector));
  }

  lemma Regrouped<A>(p: seq<A>, c: seq<A>, s: seq<A>, a: seq<A>, h: seq<A>, k: seq<A>, d: seq<A>)
    ensures [] + (p + (c + s) + (a + h) + [] + [] + k + d + [] + []) == p + c + s + a + h + k + d
  {
  }
}
