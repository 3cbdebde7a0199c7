/** Exactly when a scan calls a system ready: every condition, from the text of commands to the free space. */
module Readiness {
  import opened Collectors
  import opened Domain
  import opened Pipeline
  import opened Rules
  import opened ScanService
  import opened Sequences
  import opened Text
  import opened Wrappers
  import ProcessRunner
  import SourceFacts
  import Sources
  import Verdicts

  // ---- The conditions ---------------------------------------------------------------------------

  ghost predicate PlatformClear(host: Host) {
    && host.platform.Some?
    && var p := host.platform.value;
       !p.detectionOnly && p.supportedCurrentRelease && p.supportedUpgradePath && !p.containerDetected
  }

  /** The cache could be asked, knows no broken package, and the package lists are recent. */
  ghost predicate CacheClear(host: Host) {
    host.cache.Cache? && (host.cache.compiled ==> host.cache.broken == 0) && host.lists == Dated(false)
  }

  /** The simulation is complete, and would remove nothing and mentions no unmet dependency. */
  ghost predicate SimulationClear(sim: Outcome) {
    && Succeeded(sim) && !sim.value.truncated && !Contains(sim.value.stderrText, "Unmet dependencies")
    && PlanOf(sim.value.stdoutText).removals == []
  }

  ghost predicate PrintsNothing(o: Outcome) {
    Succeeded(o) && FilledLines(o.value.stdoutText) == []
  }

  /** No enabled source is from elsewhere, and none is there twice. */
  ghost predicate SourcesClear(host: Host) {
    var enabled := SourceFacts.EnabledIn(Sources.Read(host.sourcesList, host.sourcesDirectory));
    && (forall text :: text in enabled ==> !Sources.ThirdParty(text))
    && (forall text :: text in enabled ==> multiset(enabled)[text] == 1)
  }

  ghost predicate StorageClear(storage: StorageFacts) {
    && storage.root.available && !storage.root.readError && storage.root.freeBytes >= 5 * 1024 * MIB
    && storage.boot.available && !storage.boot.readError && storage.boot.freeBytes >= 512 * MIB
    && !storage.efi.readError && (storage.efi.available ==> storage.efi.freeBytes >= 100 * MIB)
  }

  ghost predicate KernelClear(host: Host, query: Outcome) {
    && Succeeded(query) && |FilledLines(query.value.stdoutText)| > 1
    && host.missingHeaders == [] && host.initramfsIssues == []
  }

  ghost predicate DkmsClear(status: Outcome) {
    && Succeeded(status) && !status.value.truncated
    && forall l :: l in Lines(status.value.stdoutText) ==> CleanLine(l)
  }

  /** The state is known, and Secure Boot is not on while there are modules. */
  ghost predicate SecureBootClear(state: Outcome, status: Outcome) {
    && Succeeded(state) && !state.value.truncated && state.value.stdoutText != ""
    && (Contains(state.value.stdoutText, "enabled") ==> Spawned(status) && FilledLines(status.value.stdoutText) == [])
  }

  ghost predicate AllClear(run: Runner, host: Host) {
    && PlatformClear(host) && CacheClear(host) && SimulationClear(run(AptGet()))
    && PrintsNothing(run(Dpkg())) && PrintsNothing(run(AptMark()))
    && SourcesClear(host) && StorageClear(host.storage) && KernelClear(host, run(DpkgQuery()))
    && DkmsClear(run(Dkms())) && SecureBootClear(run(Mokutil()), run(Dkms()))
    && !host.reboot.readError && !host.reboot.rebootRequired
  }

  // ---- The facts at the end ---------------------------------------------------------------------

  lemma HostDecides(request: ScanRequest, run: Runner, host: Host)
    ensures var s := Final(request, run, host);
      s.platform == host.platform && s.storage == host.storage && s.reboot == host.reboot
  {
    var b0 := Around(0, PlatformCollector, request, run, host);
    var b4 := Around(4, StorageCollector, request, run, host);
    var b8 := Around(8, RebootCollector, request, run, host);
  }

  lemma DpkgDecides(request: ScanRequest, run: Runner, host: Host)
    ensures var audit, holds := run(Dpkg()), run(AptMark());
      Owned(DpkgCollector, Final(request, run, host)) ==
        DpkgPart(if Succeeded(audit) then FilledLines(audit.value.stdoutText) else [],
                 if Succeeded(holds) then FilledLines(holds.value.stdoutText) else [])
  {
    var before := Around(2, DpkgCollector, request, run, host);
  }

  lemma KernelDecides(request: ScanRequest, run: Runner, host: Host)
    ensures var k, query := Final(request, run, host).kernel, run(DpkgQuery());
      && k.installedKernels == (if Succeeded(query) then FilledLines(query.value.stdoutText) else [])
      && k.hasFallbackKernel == (|k.installedKernels| > 1)
      && k.missingHeaders == host.missingHeaders && k.initramfsIssues == host.initramfsIssues
      && k.runningKernel == host.runningKernel
  {
    hide FilledLines;
    var before := Around(5, KernelCollector, request, run, host);
  }

  lemma SourcesDecide(request: ScanRequest, run: Runner, host: Host)
    ensures var r := Sources.NoteAll(Sources.NOTHING, Sources.Read(host.sourcesList, host.sourcesDirectory));
      Owned(SourcesCollector, Final(request, run, host)) == SourcesPart(r.third, r.disabled, r.duplicates)
  {
    var before := Around(3, SourcesCollector, request, run, host);
  }

  lemma CacheMakes(f: Facts, cache: Cache, lists: Lists, sim: Outcome)
    requires Owned(AptCollector, f) == Owned(AptCollector, Blank(f.request))
    ensures var p := AfterSimulation(AfterLists(AfterCache(f, cache), lists), sim).packages;
      && (p.brokenPackages == [] <==>
            (cache.Cache? && cache.compiled ==> cache.broken == 0) &&
            (Spawned(sim) && !sim.value.timedOut ==> !Contains(sim.value.stderrText, "Unmet dependencies")))
      && (p.cacheFreshKnown && !p.cacheStale <==> lists == Dated(false))
  {
    hide AfterSimulation, AfterLists, AfterCache, Owned;
    ListsMake(f, cache, lists);
    SimulationBreaks(AfterLists(AfterCache(f, cache), lists), sim);
  }

  lemma ListsMake(f: Facts, cache: Cache, lists: Lists)
    requires Owned(AptCollector, f) == Owned(AptCollector, Blank(f.request))
    ensures var p := AfterLists(AfterCache(f, cache), lists).packages;
      && (p.brokenPackages == [] <==> (cache.Cache? && cache.compiled ==> cache.broken == 0))
      && (p.cacheFreshKnown && !p.cacheStale <==> lists == Dated(false))
  {
  }

  lemma SimulationBreaks(f: Facts, sim: Outcome)
    ensures var (p, q) := (f.packages, AfterSimulation(f, sim).packages);
      && (q.brokenPackages == [] <==>
            p.brokenPackages == [] &&
            (Spawned(sim) && !sim.value.timedOut ==> !Contains(sim.value.stderrText, "Unmet dependencies")))
      && q.cacheFreshKnown == p.cacheFreshKnown && q.cacheStale == p.cacheStale
  {
    hide PlanOf, Contains;
  }

  lemma CacheDecides(request: ScanRequest, run: Runner, host: Host)
    ensures var sim, p := run(AptGet()), Final(request, run, host).packages;
      && (p.brokenPackages == [] <==>
            (host.cache.Cache? && host.cache.compiled ==> host.cache.broken == 0) &&
            (Spawned(sim) && !sim.value.timedOut ==> !Contains(sim.value.stderrText, "Unmet dependencies")))
      && (p.cacheFreshKnown && !p.cacheStale <==> host.lists == Dated(false))
  {
    var before := Around(1, AptCollector, request, run, host);
    CacheMakes(before, host.cache, host.lists, run(AptGet()));
  }

  // ---- The rules on these facts -----------------------------------------------------------------

  predicate Gives(rule: Rule, status: CheckStatus, say: Wording, s: Facts) {
    Evaluate(rule, say, s).status == status
  }

  /** The facts about packages that their rules pass on; holds and sources come apart. */
  predicate PackagesPass(p: PackageFacts) {
    && p.dpkgAudit == [] && p.brokenPackages == [] && p.heldPackages == []
    && !SimulationFailed(p) && p.essentialRemovals == [] && p.proposedRemovals == []
    && p.cacheFreshKnown && !p.cacheStale
  }

  lemma PackageRulesPass(say: Wording, s: Facts)
    ensures PackagesPass(s.packages) <==>
              && Gives(DatabaseRule, Passed, say, s) && Gives(BrokenRule, Passed, say, s)
              && Gives(HoldsRule, Passed, say, s) && Gives(RemovalsRule, Passed, say, s)
              && Gives(CacheRule, Passed, say, s)
  {
  }

  lemma PackagesPassExactly(request: ScanRequest, run: Runner, host: Host)
    requires Quiet(AptCollector, run, host) && Quiet(DpkgCollector, run, host)
    ensures PackagesPass(Final(request, run, host).packages) <==>
              && CacheClear(host) && SimulationClear(run(AptGet()))
              && PrintsNothing(run(Dpkg())) && PrintsNothing(run(AptMark()))
  {
    AptDecides(request, run, host);
    CacheDecides(request, run, host);
    DpkgDecides(request, run, host);
    FlatMapEmpty(EssentialOnly, SimulationOf(Final(request, run, host)).plan.removals);
  }

  lemma SourceRulesPass(say: Wording, s: Facts)
    ensures s.packages.thirdPartySources == [] && s.packages.duplicateSources == [] <==>
              Gives(ThirdPartyRule, Passed, say, s) && Gives(DuplicatesRule, Passed, say, s)
  {
  }

  lemma SourcesPassExactly(request: ScanRequest, run: Runner, host: Host)
    ensures var p := Final(request, run, host).packages;
      p.thirdPartySources == [] && p.duplicateSources == [] <==> SourcesClear(host)
  {
    SourcesDecide(request, run, host);
    NotedClear(Sources.Read(host.sourcesList, host.sourcesDirectory));
  }

  lemma NotedClear(entries: SourceFacts.Entries)
    ensures var r, enabled := Sources.NoteAll(Sources.NOTHING, entries), SourceFacts.EnabledIn(entries);
      && (r.third == [] <==> forall text :: text in enabled ==> !Sources.ThirdParty(text))
      && (r.duplicates == [] <==> forall text :: text in enabled ==> multiset(enabled)[text] == 1)
  {
    var r, enabled := Sources.NoteAll(Sources.NOTHING, entries), SourceFacts.EnabledIn(entries);
    SourceFacts.RecordOfEntries(entries);
    FlatMapEmpty(SourceFacts.ThirdText, enabled);
    forall text | text in enabled
      ensures text in r.duplicates <==> multiset(enabled)[text] > 1
    {
      SourceFacts.DuplicateExactly(entries, text);
    }
    if r.duplicates != [] {
      SourceFacts.DuplicateExactly(entries, r.duplicates[0]);
    }
  }

  lemma KernelRulesPass(say: Wording, s: Facts)
    ensures Gives(FallbackRule, Passed, say, s) && Gives(ConsistencyRule, Passed, say, s) <==>
              && !InContainer(s) && s.kernel.installedKernels != [] && s.kernel.hasFallbackKernel
              && s.kernel.missingHeaders == [] && s.kernel.initramfsIssues == []
  {
  }

  lemma ModuleRulesPass(say: Wording, s: Facts)
    ensures Gives(DkmsRule, Passed, say, s) && Gives(SecureBootRule, Passed, say, s) <==>
              && !s.dkms.commandMissing && s.dkms.failedModules == [] && s.dkms.incompleteModules == []
              && s.dkms.parseErrors == [] && !InContainer(s) && !s.secureBoot.stateUnknown
              && !(s.secureBoot.enabled && s.dkms.modules != [])
  {
  }

  lemma ModulesPassExactly(request: ScanRequest, run: Runner, host: Host)
    requires PlatformClear(host) && Quiet(DkmsCollector, run, host)
    ensures var s := Final(request, run, host);
      (&& !s.dkms.commandMissing && s.dkms.failedModules == [] && s.dkms.incompleteModules == []
       && s.dkms.parseErrors == [] && !s.secureBoot.stateUnknown && !(s.secureBoot.enabled && s.dkms.modules != []))
      <==> DkmsClear(run(Dkms())) && SecureBootClear(run(Mokutil()), run(Dkms()))
  {
    DkmsDecides(request, run, host);
    MokutilDecides(request, run, host);
    if Spawned(run(Dkms())) { ClassifiedClean(Lines(run(Dkms()).value.stdoutText)); }
  }

  lemma HostRulesPass(say: Wording, s: Facts)
    ensures (&& Gives(CurrentReleaseRule, Passed, say, s) && Gives(UpgradePathRule, Passed, say, s)
             && Gives(DerivativeRule, Passed, say, s)) <==>
              s.platform.Some? && !s.platform.value.detectionOnly && s.platform.value.supportedCurrentRelease &&
              s.platform.value.supportedUpgradePath
    ensures Gives(RebootRule, Passed, say, s) <==> !s.reboot.readError && !s.reboot.rebootRequired
  {
  }

  lemma SpaceRulesPass(say: Wording, s: Facts)
    ensures (&& Gives(RootSpaceRule, Passed, say, s) && Gives(BootSpaceRule, Passed, say, s)
             && Gives(EfiSpaceRule, Passed, say, s)) <==> StorageClear(s.storage)
  {
  }

  // ---- The scan ---------------------------------------------------------------------------------

  lemma ReadyWhenAllPass(rules: seq<Rule>, say: Wording, s: Facts)
    ensures Aggregate(Findings(rules, say, s)) == Ready <==>
              s.issues == [] && forall rule :: rule in rules ==> Gives(rule, Passed, say, s)
  {
    var findings := Findings(rules, say, s);
    Verdicts.FindingsAreSound(rules, say, s);
    if s.issues != [] { IssueShows(rules, say, s); }
    forall k | 0 <= k < |rules|
      ensures Evaluate(rules[k], say, s) in findings
      ensures Gives(rules[k], Passed, say, s) <==> Evaluate(rules[k], say, s).status == Passed
    {
      FindingOfRule(rules, k, say, s);
    }
    if s.issues == [] {
      assert findings == Judged(rules, say, s);
      forall f | f in findings
        ensures exists k :: 0 <= k < |rules| && f == Evaluate(rules[k], say, s)
      {
        var k :| 0 <= k < |rules| && findings[k] == f;
      }
    }
  }

  /** Every rule is in the list. */
  lemma AllRules(rule: Rule)
    ensures rule in RULES
  {
    match rule
    case CurrentReleaseRule => assert RULES[0] == rule;
    case UpgradePathRule => assert RULES[1] == rule;
    case DerivativeRule => assert RULES[2] == rule;
    case DatabaseRule => assert RULES[3] == rule;
    case BrokenRule => assert RULES[4] == rule;
    case HoldsRule => assert RULES[5] == rule;
    case ThirdPartyRule => assert RULES[6] == rule;
    case DuplicatesRule => assert RULES[7] == rule;
    case RemovalsRule => assert RULES[8] == rule;
    case CacheRule => assert RULES[9] == rule;
    case RootSpaceRule => assert RULES[10] == rule;
    case BootSpaceRule => assert RULES[11] == rule;
    case EfiSpaceRule => assert RULES[12] == rule;
    case DkmsRule => assert RULES[13] == rule;
    case FallbackRule => assert RULES[14] == rule;
    case ConsistencyRule => assert RULES[15] == rule;
    case SecureBootRule => assert RULES[16] == rule;
    case RebootRule => assert RULES[17] == rule;
  }

  ghost predicate AllQuiet(run: Runner, host: Host) {
    forall c :: Quiet(c, run, host)
  }

  lemma QuietMeansNoIssues(request: ScanRequest, run: Runner, host: Host)
    ensures Final(request, run, host).issues == [] <==> AllQuiet(run, host)
  {
    IssuesExactly(request, run, host);
    forall c: Collector
      ensures c in COLLECTORS
    {
      AllCollectors(c);
    }
  }

  lemma AllCollectors(c: Collector)
    ensures c in COLLECTORS
  {
    match c
    case PlatformCollector => assert COLLECTORS[0] == c;
    case AptCollector => assert COLLECTORS[1] == c;
    case DpkgCollector => assert COLLECTORS[2] == c;
    case SourcesCollector => assert COLLECTORS[3] == c;
    case StorageCollector => assert COLLECTORS[4] == c;
    case KernelCollector => assert COLLECTORS[5] == c;
    case DkmsCollector => assert COLLECTORS[6] == c;
    case SecureBootCollector => assert COLLECTORS[7] == c;
    case RebootCollector => assert COLLECTORS[8] == c;
  }

  lemma ClearIsQuiet(run: Runner, host: Host)
    requires AllClear(run, host)
    ensures AllQuiet(run, host)
  {
  }

  /** What the facts have to be for every rule to pass. */
  ghost predicate FactsPass(s: Facts) {
    && s.platform.Some? && !s.platform.value.detectionOnly && s.platform.value.supportedCurrentRelease
    && s.platform.value.supportedUpgradePath && !s.platform.value.containerDetected
    && PackagesPass(s.packages) && s.packages.thirdPartySources == [] && s.packages.duplicateSources == []
    && StorageClear(s.storage)
    && s.kernel.installedKernels != [] && s.kernel.hasFallbackKernel
    && s.kernel.missingHeaders == [] && s.kernel.initramfsIssues == []
    && !s.dkms.commandMissing && s.dkms.failedModules == []
    && s.dkms.incompleteModules == [] && s.dkms.parseErrors == []
    && !s.secureBoot.stateUnknown && !(s.secureBoot.enabled && s.dkms.modules != [])
    && !s.reboot.readError && !s.reboot.rebootRequired
  }

  lemma RulesPassTogether(say: Wording, s: Facts)
    ensures (forall rule :: Gives(rule, Passed, say, s)) <==> FactsPass(s)
  {
    HostRulesPass(say, s);
    SpaceRulesPass(say, s);
    KernelRulesPass(say, s);
    PackageRulesPass(say, s);
    SourceRulesPass(say, s);
    ModuleRulesPass(say, s);
    if FactsPass(s) {
      forall rule
        ensures Gives(rule, Passed, say, s)
      {
        match rule
        case CurrentReleaseRule | UpgradePathRule | DerivativeRule =>
        case DatabaseRule | BrokenRule | HoldsRule | ThirdPartyRule | DuplicatesRule | RemovalsRule | CacheRule =>
        case RootSpaceRule | BootSpaceRule | EfiSpaceRule =>
        case DkmsRule | FallbackRule | ConsistencyRule =>
        case SecureBootRule | RebootRule =>
      }
    }
  }

  /** Without issues, the facts are such exactly if all conditions hold. */
  lemma FactsPassExactly(request: ScanRequest, run: Runner, host: Host)
    requires AllQuiet(run, host)
    ensures FactsPass(Final(request, run, host)) <==> AllClear(run, host)
  {
    HostDecides(request, run, host);
    KernelDecides(request, run, host);
    PackagesPassExactly(request, run, host);
    SourcesPassExactly(request, run, host);
    assert Quiet(DpkgCollector, run, host) && Quiet(KernelCollector, run, host) && Quiet(DkmsCollector, run, host);
    if PlatformClear(host) { ModulesPassExactly(request, run, host); }
  }

  /** A scan calls the system ready exactly if all conditions hold. */
  lemma ReadyExactly(request: ScanRequest, run: Runner, host: Host, say: Wording, limits: Limits, stamp: Stamp)
    ensures Verdict(request, run, host, say, limits, stamp) == Some(Ready) <==> AllClear(run, host)
  {
    hide Verdict, Final, Findings, Aggregate, Evaluate, FactsPass, AllClear, AllQuiet, Gives, NoLists;
    VerdictOfFacts(request, run, host, say, limits, stamp);
    var s := Final(request, run, host);
    ReadyWhenAllPass(RULES, say, s);
    forall rule: Rule
      ensures rule in RULES
    {
      AllRules(rule);
    }
    RulesPassTogether(say, s);
    QuietMeansNoIssues(request, run, host);
    if AllQuiet(run, host) { FactsPassExactly(request, run, host); }
    if AllClear(run, host) {
      ClearIsQuiet(run, host);
      ClearHasLists(run, host);
    }
  }

  lemma ClearHasLists(run: Runner, host: Host)
    requires AllClear(run, host)
    ensures !NoLists(host)
  {
  }

  // ---- A ready system, and what it does not show ------------------------------------------------

  function Printed(text: string, cut: bool): Outcome {
    var nothing := ProcessRunner.EMPTY_RESULT;
    ProcessRunner.Ok(nothing.(exitCode := 0, stdoutText := text, truncated := cut, stdoutTruncated := cut))
  }

  /** A runner whose dpkg, apt-mark and dpkg-query may have had output cut off. */
  function CalmRunner(kernels: string, cut: bool): Runner {
    request =>
      if request == DpkgQuery() then Printed(kernels, cut)
      else if request == Mokutil() then Printed("-", false)
      else Printed("", cut && (request == Dpkg() || request == AptMark()))
  }

  const UBUNTU :=
    PlatformFacts(Distribution("ubuntu", "Ubuntu", "24.04", "noble", false), "x86_64", "6.8", true, true, false, false)

  function Roomy(mount: string): SpaceFacts {
    SpaceFacts(mount, 5 * 1024 * MIB, true, false)
  }

  function CalmHost(): Host {
    Host(Some(UBUNTU), Cache(true, true, [], 0), Dated(false), None, [],
         StorageFacts(Roomy("/"), Roomy("/boot"), Roomy("/boot/efi")), "6.8", [], [], RebootFacts(false, [], false))
  }

  lemma NothingPrinted()
    ensures Lines("") == [] && FilledLines("") == [] && PlanOf("").removals == []
    ensures !Contains("", "Unmet dependencies") && !Contains("-", "enabled")
  {
  }

  lemma CalmRunnerAnswers(kernels: string, cut: bool)
    ensures var run := CalmRunner(kernels, cut);
      && run(DpkgQuery()) == Printed(kernels, cut) && run(Mokutil()) == Printed("-", false)
      && run(Dpkg()) == Printed("", cut) && run(AptMark()) == Printed("", cut)
      && run(AptGet()) == Printed("", false) && run(Dkms()) == Printed("", false)
  {
  }

  /**
   There are systems that are called ready, and they are called so even if the output of dpkg, apt-mark and
   dpkg-query was cut off: these three are never asked whether it was.
   */
  lemma ReadyDespiteTruncation(request: ScanRequest, kernels: string, cut: bool,
                               say: Wording, limits: Limits, stamp: Stamp)
    requires |FilledLines(kernels)| > 1
    ensures Verdict(request, CalmRunner(kernels, cut), CalmHost(), say, limits, stamp) == Some(Ready)
    ensures cut ==> Truncated(CalmRunner(kernels, cut)(Dpkg())) && Truncated(CalmRunner(kernels, cut)(AptMark())) &&
                    Truncated(CalmRunner(kernels, cut)(DpkgQuery()))
  {
    CalmRunnerAnswers(kernels, cut);
    CalmIsClear(CalmRunner(kernels, cut), kernels, cut);
    ReadyExactly(request, CalmRunner(kernels, cut), CalmHost(), say, limits, stamp);
  }

  lemma CalmIsClear(run: Runner, kernels: string, cut: bool)
    requires |FilledLines(kernels)| > 1
    requires run(DpkgQuery()) == Printed(kernels, cut) && run(Mokutil()) == Printed("-", false)
    requires run(Dpkg()) == Printed("", cut) && run(AptMark()) == Printed("", cut)
    requires run(AptGet()) == Printed("", false) && run(Dkms()) == Printed("", false)
    ensures AllClear(run, CalmHost())
  {
    NothingPrinted();
    SourcesOfNothing();
  }

  lemma SourcesOfNothing()
    ensures SourcesClear(CalmHost())
  {
    assert Sources.Read(None, []) == [];
  }
}
