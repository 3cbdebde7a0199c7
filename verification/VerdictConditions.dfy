/**
 Exactly when a scan ends blocked, and exactly when it ends incomplete. With the conditions for a ready
 system, these leave one verdict for every outcome of the commands and every state of the system.
 */
module VerdictConditions {
  import opened Collectors
  import opened Domain
  import opened Pipeline
  import opened Readiness
  import opened Rules
  import opened ScanService
  import opened Sequences
  import opened SystemFacts
  import opened Text
  import opened Wrappers
  import AptSimulation
  import Json
  import Verdicts

  // ---- The conditions ---------------------------------------------------------------------------

  /** An Ubuntu release or path outside the support matrix. */
  ghost predicate PlatformBlocks(host: Host) {
    && host.platform.Some?
    && var p := host.platform.value;
       !p.detectionOnly && !(p.supportedCurrentRelease && p.supportedUpgradePath)
  }

  /** Broken packages, as libapt-pkg or the simulation tells of them. */
  ghost predicate DependenciesBlock(host: Host, sim: Outcome) {
    || (host.cache.Cache? && host.cache.compiled && host.cache.broken != 0)
    || (Spawned(sim) && !sim.value.timedOut && Contains(sim.value.stderrText, "Unmet dependencies"))
  }

  ghost predicate AuditBlocks(audit: Outcome) {
    Succeeded(audit) && FilledLines(audit.value.stdoutText) != []
  }

  ghost predicate SimulationEnded(sim: Outcome) {
    Succeeded(sim) && !sim.value.truncated
  }

  ghost predicate RemovalsBlock(sim: Outcome) {
    SimulationEnded(sim) &&
    exists p :: p in {"apt", "dpkg", "systemd", "ubuntu-minimal"}
                && p in AptSimulation.Section(Lines(sim.value.stdoutText), "The following packages will be REMOVED:")
  }

  /** A module that failed, or is registered without being installed. */
  predicate BadLine(line: string) {
    SaysFailed(line) || SaysUnfinished(line)
  }

  ghost predicate ModulesBlock(status: Outcome) {
    Spawned(status) && exists l :: l in Lines(status.value.stdoutText) && BadLine(l)
  }

  ghost predicate Blocks(run: Runner, host: Host) {
    || PlatformBlocks(host) || AuditBlocks(run(Dpkg())) || DependenciesBlock(host, run(AptGet()))
    || RemovalsBlock(run(AptGet())) || ModulesBlock(run(Dkms()))
  }

  predicate InContainerHost(host: Host) {
    host.platform.Some? && host.platform.value.containerDetected
  }

  predicate Readable(space: SpaceFacts, optional: bool) {
    !space.readError && (space.available || optional)
  }

  /** Everything that could not be found out. */
  ghost predicate Lacks(run: Runner, host: Host) {
    || !AllQuiet(run, host) || InContainerHost(host)
    || !SimulationEnded(run(AptGet())) || host.lists != Dated(false)
    || !Readable(host.storage.root, false) || !Readable(host.storage.boot, false) || !Readable(host.storage.efi, true)
    || (Succeeded(run(DpkgQuery())) && FilledLines(run(DpkgQuery()).value.stdoutText) == [])
    || !Spawned(run(Dkms())) || (exists l :: l in Lines(run(Dkms()).value.stdoutText) && Malformed(l))
    || !Succeeded(run(Mokutil())) || run(Mokutil()).value.truncated || run(Mokutil()).value.stdoutText == ""
    || host.reboot.readError
  }

  // ---- Which rules give a status ----------------------------------------------------------------

  lemma HostRulesBlock(say: Wording, s: Facts)
    ensures Gives(CurrentReleaseRule, Blocked, say, s) || Gives(UpgradePathRule, Blocked, say, s) <==>
              s.platform.Some? && !s.platform.value.detectionOnly &&
              !(s.platform.value.supportedCurrentRelease && s.platform.value.supportedUpgradePath)
    ensures !Gives(DerivativeRule, Blocked, say, s) && !Gives(RebootRule, Blocked, say, s)
  {
  }

  lemma SpaceRulesDoNotBlock(say: Wording, s: Facts)
    ensures !Gives(RootSpaceRule, Blocked, say, s) && !Gives(BootSpaceRule, Blocked, say, s)
    ensures !Gives(EfiSpaceRule, Blocked, say, s)
  {
  }

  lemma PackageRulesBlock(say: Wording, s: Facts)
    ensures var p := s.packages;
      (|| Gives(DatabaseRule, Blocked, say, s) || Gives(BrokenRule, Blocked, say, s)
       || Gives(RemovalsRule, Blocked, say, s)) <==>
        p.dpkgAudit != [] || p.brokenPackages != [] || (!SimulationFailed(p) && p.essentialRemovals != [])
  {
    hide ListEvidence, BoolName, Json.Decimal;
  }

  lemma OtherPackageRulesDoNotBlock(say: Wording, s: Facts)
    ensures !Gives(HoldsRule, Blocked, say, s) && !Gives(CacheRule, Blocked, say, s)
    ensures !Gives(ThirdPartyRule, Blocked, say, s) && !Gives(DuplicatesRule, Blocked, say, s)
  {
    hide ListEvidence, BoolName;
  }

  lemma ModuleRulesBlock(say: Wording, s: Facts)
    ensures Gives(DkmsRule, Blocked, say, s) <==>
              !s.dkms.commandMissing && (s.dkms.failedModules != [] || s.dkms.incompleteModules != [])
  {
    hide ListEvidence, DkmsEvidence, BoolName, Json.Decimal;
  }

  lemma KernelRulesDoNotBlock(say: Wording, s: Facts)
    ensures !Gives(FallbackRule, Blocked, say, s) && !Gives(ConsistencyRule, Blocked, say, s)
    ensures !Gives(SecureBootRule, Blocked, say, s)
  {
    hide ListEvidence, BoolName, Json.Decimal;
  }

  /** The facts that block. */
  ghost predicate FactsBlock(s: Facts) {
    || (s.platform.Some? && !s.platform.value.detectionOnly &&
        !(s.platform.value.supportedCurrentRelease && s.platform.value.supportedUpgradePath))
    || s.packages.dpkgAudit != [] || s.packages.brokenPackages != []
    || (!SimulationFailed(s.packages) && s.packages.essentialRemovals != [])
    || (!s.dkms.commandMissing && (s.dkms.failedModules != [] || s.dkms.incompleteModules != []))
  }

  lemma RulesBlockTogether(say: Wording, s: Facts)
    ensures (exists rule :: Gives(rule, Blocked, say, s)) <==> FactsBlock(s)
  {
    HostRulesBlock(say, s);
    SpaceRulesDoNotBlock(say, s);
    PackageRulesBlock(say, s);
    OtherPackageRulesDoNotBlock(say, s);
    ModuleRulesBlock(say, s);
    KernelRulesDoNotBlock(say, s);
    if rule :| Gives(rule, Blocked, say, s) {
      match rule
      case CurrentReleaseRule | UpgradePathRule | DerivativeRule =>
      case DatabaseRule | BrokenRule | HoldsRule | ThirdPartyRule | DuplicatesRule | RemovalsRule | CacheRule =>
      case RootSpaceRule | BootSpaceRule | EfiSpaceRule =>
      case DkmsRule | FallbackRule | ConsistencyRule =>
      case SecureBootRule | RebootRule =>
    }
  }

  lemma SomeLine(f: string -> seq<string>, lines: seq<string>)
    ensures FlatMap(f, lines) != [] <==> exists l :: l in lines && f(l) != []
  {
    FlatMapEmpty(f, lines);
  }

  lemma FactsBlockExactly(request: ScanRequest, run: Runner, host: Host)
    ensures FactsBlock(Final(request, run, host)) <==> Blocks(run, host)
  {
    HostDecides(request, run, host);
    PackagesBlockExactly(request, run, host);
    ModulesBlockExactly(request, run, host);
  }

  lemma PackagesBlockExactly(request: ScanRequest, run: Runner, host: Host)
    ensures var p := Final(request, run, host).packages;
      && (p.dpkgAudit != [] <==> AuditBlocks(run(Dpkg())))
      && (p.brokenPackages != [] <==> DependenciesBlock(host, run(AptGet())))
      && (SimulationFailed(p) <==> !SimulationEnded(run(AptGet())))
      && (!SimulationFailed(p) && p.essentialRemovals != [] <==> RemovalsBlock(run(AptGet())))
  {
    AptDecides(request, run, host);
    CacheDecides(request, run, host);
    DpkgDecides(request, run, host);
    var removals := SimulationOf(Final(request, run, host)).plan.removals;
    SomeLine(EssentialOnly, removals);
    assert forall p :: p in {"apt", "dpkg", "systemd", "ubuntu-minimal"} <==> EssentialOnly(p) != [];
  }

  lemma ModulesBlockExactly(request: ScanRequest, run: Runner, host: Host)
    ensures var d := Final(request, run, host).dkms;
      && (!d.commandMissing && (d.failedModules != [] || d.incompleteModules != []) <==> ModulesBlock(run(Dkms())))
      && (d.commandMissing <==> !Spawned(run(Dkms())))
      && (Spawned(run(Dkms())) ==>
            (d.parseErrors != [] <==> exists l :: l in Lines(run(Dkms()).value.stdoutText) && Malformed(l)))
  {
    hide Lines, Final;
    DkmsDecides(request, run, host);
    if Spawned(run(Dkms())) {
      var lines := Lines(run(Dkms()).value.stdoutText);
      SomeLine(FailedOnly, lines);
      SomeLine(UnfinishedOnly, lines);
      SomeLine(OddOnly, lines);
      assert (exists l :: l in lines && BadLine(l)) <==>
             (exists l :: l in lines && FailedOnly(l) != []) || (exists l :: l in lines && UnfinishedOnly(l) != []) by {
        if l :| l in lines && FailedOnly(l) != [] { assert BadLine(l); }
        if l :| l in lines && UnfinishedOnly(l) != [] { assert BadLine(l); }
      }
    }
  }

  lemma BlockedWhenSomeBlocks(rules: seq<Rule>, say: Wording, s: Facts)
    ensures Aggregate(Findings(rules, say, s)) == NotReady <==>
              exists rule :: rule in rules && Gives(rule, Blocked, say, s)
  {
    var findings := Findings(rules, say, s);
    forall k | 0 <= k < |rules|
      ensures Evaluate(rules[k], say, s) in findings
      ensures Gives(rules[k], Blocked, say, s) <==> Evaluate(rules[k], say, s).status == Blocked
    {
      FindingOfRule(rules, k, say, s);
    }
    forall f | f in findings && f.status == Blocked
      ensures exists rule :: rule in rules && Gives(rule, Blocked, say, s)
    {
      var k :| 0 <= k < |findings| && findings[k] == f;
      assert k < |rules|;
      assert rules[k] in rules && Gives(rules[k], Blocked, say, s);
    }
  }

  /** A scan ends blocked exactly if one of these conditions does. */
  lemma BlockedExactly(request: ScanRequest, run: Runner, host: Host, say: Wording, limits: Limits, stamp: Stamp)
    ensures Verdict(request, run, host, say, limits, stamp) == Some(NotReady) <==> !NoLists(host) && Blocks(run, host)
  {
    hide Verdict, Final, Findings, Aggregate, Evaluate, FactsBlock, Blocks, Gives, NoLists;
    VerdictOfFacts(request, run, host, say, limits, stamp);
    var s := Final(request, run, host);
    BlockedWhenSomeBlocks(RULES, say, s);
    forall rule: Rule
      ensures rule in RULES
    {
      AllRules(rule);
    }
    RulesBlockTogether(say, s);
    FactsBlockExactly(request, run, host);
  }

  // ---- Incomplete scans -------------------------------------------------------------------------

  lemma HostRulesLack(say: Wording, s: Facts)
    ensures (|| Gives(CurrentReleaseRule, Unknown, say, s) || Gives(UpgradePathRule, Unknown, say, s)
             || Gives(DerivativeRule, Unknown, say, s)) <==> s.platform.None?
    ensures Gives(RebootRule, Unknown, say, s) <==> s.reboot.readError
  {
  }

  lemma SpaceRulesLack(say: Wording, s: Facts)
    ensures (|| Gives(RootSpaceRule, Unknown, say, s) || Gives(BootSpaceRule, Unknown, say, s)
             || Gives(EfiSpaceRule, Unknown, say, s)) <==>
              !Readable(s.storage.root, false) || !Readable(s.storage.boot, false) || !Readable(s.storage.efi, true)
  {
  }

  lemma PackageRulesLack(say: Wording, s: Facts)
    ensures (|| Gives(DatabaseRule, Unknown, say, s) || Gives(BrokenRule, Unknown, say, s)
             || Gives(RemovalsRule, Unknown, say, s)) <==> SimulationFailed(s.packages)
    ensures Gives(CacheRule, Unknown, say, s) <==> !s.packages.cacheFreshKnown || s.packages.cacheStale
    ensures !Gives(HoldsRule, Unknown, say, s) && !Gives(ThirdPartyRule, Unknown, say, s)
    ensures !Gives(DuplicatesRule, Unknown, say, s)
  {
  }

  lemma KernelRulesLack(say: Wording, s: Facts)
    ensures Gives(FallbackRule, Unknown, say, s) || Gives(ConsistencyRule, Unknown, say, s) <==>
              InContainer(s) || s.kernel.installedKernels == []
    ensures Gives(SecureBootRule, Unknown, say, s) <==> InContainer(s) || s.secureBoot.stateUnknown
    ensures Gives(DkmsRule, Unknown, say, s) <==>
              || s.dkms.commandMissing
              || (s.dkms.failedModules == [] && s.dkms.incompleteModules == [] && s.dkms.parseErrors != [])
  {
  }

  /** What is missing from the facts, as far as no rule blocks. */
  ghost predicate FactsLack(s: Facts) {
    || s.platform.None? || InContainer(s) || SimulationFailed(s.packages)
    || !s.packages.cacheFreshKnown || s.packages.cacheStale
    || !Readable(s.storage.root, false) || !Readable(s.storage.boot, false) || !Readable(s.storage.efi, true)
    || s.kernel.installedKernels == [] || s.dkms.commandMissing || s.dkms.parseErrors != []
    || s.secureBoot.stateUnknown || s.reboot.readError
  }

  lemma RulesLackTogether(say: Wording, s: Facts)
    requires !FactsBlock(s)
    ensures (exists rule :: Gives(rule, Unknown, say, s)) <==> FactsLack(s)
  {
    HostRulesLack(say, s);
    SpaceRulesLack(say, s);
    PackageRulesLack(say, s);
    KernelRulesLack(say, s);
    if rule :| Gives(rule, Unknown, say, s) {
      match rule
      case CurrentReleaseRule | UpgradePathRule | DerivativeRule =>
      case DatabaseRule | BrokenRule | HoldsRule | ThirdPartyRule | DuplicatesRule | RemovalsRule | CacheRule =>
      case RootSpaceRule | BootSpaceRule | EfiSpaceRule =>
      case DkmsRule | FallbackRule | ConsistencyRule =>
      case SecureBootRule | RebootRule =>
    }
  }

  lemma IncompleteWhenSomeLacks(rules: seq<Rule>, say: Wording, s: Facts)
    ensures var verdict := Aggregate(Findings(rules, say, s));
      verdict != NotReady ==>
        (verdict == Incomplete <==> s.issues != [] || exists rule :: rule in rules && Gives(rule, Unknown, say, s))
  {
    var findings := Findings(rules, say, s);
    Verdicts.FindingsAreSound(rules, say, s);
    if s.issues != [] { IssueShows(rules, say, s); }
    forall k | 0 <= k < |rules|
      ensures Evaluate(rules[k], say, s) in findings
      ensures Gives(rules[k], Unknown, say, s) <==> Evaluate(rules[k], say, s).status == Unknown
    {
      FindingOfRule(rules, k, say, s);
    }
    if s.issues == [] {
      forall f | f in findings && f.status == Unknown
        ensures exists rule :: rule in rules && Gives(rule, Unknown, say, s)
      {
        assert findings == Judged(rules, say, s);
        var k :| 0 <= k < |findings| && findings[k] == f;
        assert rules[k] in rules && Gives(rules[k], Unknown, say, s);
      }
    }
  }

  lemma FactsLackExactly(request: ScanRequest, run: Runner, host: Host)
    requires AllQuiet(run, host)
    ensures FactsLack(Final(request, run, host)) <==> Lacks(run, host)
  {
    HostDecides(request, run, host);
    PackagesBlockExactly(request, run, host);
    CacheDecides(request, run, host);
    KernelDecides(request, run, host);
    ModulesBlockExactly(request, run, host);
    MokutilDecides(request, run, host);
    assert Quiet(PlatformCollector, run, host) && Quiet(KernelCollector, run, host);
  }

  lemma LoudLacks(run: Runner, host: Host)
    ensures !AllQuiet(run, host) ==> Lacks(run, host)
  {
  }

  /** A scan ends incomplete exactly if nothing blocks and something could not be found out. */
  lemma IncompleteExactly(request: ScanRequest, run: Runner, host: Host, say: Wording, limits: Limits, stamp: Stamp)
    ensures Verdict(request, run, host, say, limits, stamp) == Some(Incomplete) <==>
              !NoLists(host) && !Blocks(run, host) && Lacks(run, host)
  {
    hide Verdict, Final, Findings, Aggregate, Evaluate, FactsBlock, FactsLack, Blocks, Lacks, AllQuiet, Gives, NoLists;
    VerdictOfFacts(request, run, host, say, limits, stamp);
    var s := Final(request, run, host);
    BlockedExactly(request, run, host, say, limits, stamp);
    FactsBlockExactly(request, run, host);
    IncompleteWhenSomeLacks(RULES, say, s);
    forall rule: Rule
      ensures rule in RULES
    {
      AllRules(rule);
    }
    QuietMeansNoIssues(request, run, host);
    LoudLacks(run, host);
    if !Blocks(run, host) && AllQuiet(run, host) {
      RulesLackTogether(say, s);
      FactsLackExactly(request, run, host);
    }
  }

  /** The verdict of every scan. */
  lemma VerdictExactly(request: ScanRequest, run: Runner, host: Host, say: Wording, limits: Limits, stamp: Stamp)
    ensures Verdict(request, run, host, say, limits, stamp) ==
              if NoLists(host) then None
              else if Blocks(run, host) then Some(NotReady)
              else if Lacks(run, host) then Some(Incomplete)
              else if AllClear(run, host) then Some(Ready)
              else Some(ReadyWithWarnings)
  {
    hide Verdict, Final, Findings, Aggregate, Evaluate, Blocks, Lacks, AllClear, NoLists;
    VerdictOfFacts(request, run, host, say, limits, stamp);
    match Aggregate(Findings(RULES, say, Final(request, run, host)))
    case Ready | ReadyWithWarnings | NotReady | Incomplete =>
    BlockedExactly(request, run, host, say, limits, stamp);
    IncompleteExactly(request, run, host, say, limits, stamp);
    ReadyExactly(request, run, host, say, limits, stamp);
  }
}
