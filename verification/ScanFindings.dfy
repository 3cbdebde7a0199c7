/**
 What a scan reports, rule by rule: for each identifier the one finding that a report has, with its status, its
 evidence and its words, in terms of command outcomes and of what the system has.
 */
module ScanFindings {
  import opened Collectors
  import opened Domain
  import opened Pipeline
  import opened Rules
  import opened ScanService
  import opened SystemFacts
  import opened Text
  import opened Wrappers
  import AptSimulation
  import AptTranscripts
  import Json
  import Readiness
  import VerdictConditions

  // ---- Findings of a scan -----------------------------------------------------------------------

  /** Everything that a scan depends on. */
  datatype Setting = Setting(
    request: ScanRequest, run: Runner, host: Host, say: Wording, limits: Limits, stamp: Stamp) {

    function Scanned(): Option<ScanReport> {
      Scan(request, run, host, say, limits, stamp)
    }

    function Facts(): Facts {
      Final(request, run, host)
    }

    function Ask(name: string, timeout: int, limit: nat): Outcome {
      Answer(run, name, timeout, limit)
    }
  }

  function SeverityFor(status: CheckStatus): Severity {
    match status
    case Passed => Info
    case Blocked => Blocker
    case _ => Caution
  }

  /** A finding, with the words for the branch that was taken. */
  function Said(say: Wording, id: string, branch: nat, status: CheckStatus, evidence: seq<Evidence>,
                confidence: Confidence): Finding {
    var p := say(id, branch);
    Finding(id, status, SeverityFor(status), p.title, p.explanation, evidence, p.recommendation, confidence,
            status != Unknown, p.documentationRef)
  }

  function Each(caption: string, items: seq<string>): seq<Evidence> {
    seq(|items|, k requires 0 <= k < |items| => Evidence(caption, items[k]))
  }

  function Flag(b: bool): string {
    if b then "true" else "false"
  }

  lemma EachIsList(caption: string, items: seq<string>)
    ensures Each(caption, items) == ListEvidence(caption, items)
    ensures Each(caption, items) == [] <==> items == []
  {
  }

  /** The report has the finding, and no other with its identifier. */
  ghost predicate Has(report: ScanReport, f: Finding) {
    exists k :: 0 <= k < |report.findings| && report.findings[k] == f && OnlyAt(report.findings, f.id, k)
  }

  ghost predicate OnlyAt(findings: seq<Finding>, id: string, k: int) {
    forall j :: 0 <= j < |findings| && findings[j].id == id ==> j == k
  }

  /** If the scan has a report, that has the finding. */
  ghost predicate Reports(c: Setting, f: Finding) {
    c.Scanned().Some? ==> Has(c.Scanned().value, f)
  }

  const IDS := [
    "UG-REL-001", "UG-REL-002", "UG-REL-003",
    "UG-APT-001", "UG-APT-002", "UG-APT-003", "UG-APT-004", "UG-APT-005", "UG-APT-006", "UG-APT-007",
    "UG-DSK-001", "UG-DSK-002", "UG-DSK-003",
    "UG-DKM-001", "UG-KRN-001", "UG-KRN-002",
    "UG-SEC-001",
    "UG-RBT-001"]

  lemma IdOfRules(k: nat)
    requires k < 18
    ensures |RULES| == |IDS| == 18 && IdOf(RULES[k]) == IDS[k]
  {
  }

  /** The identifier says which rule it is. */
  function NumberOf(id: string): int {
    if |id| != 10 then -1
    else if id[3] == 'R' then (if id[4] == 'E' then Digit(id[9]) - 1 else 17)
    else if id[3] == 'A' then 2 + Digit(id[9])
    else if id[3] == 'D' then (if id[4] == 'S' then 9 + Digit(id[9]) else 13)
    else if id[3] == 'K' then 13 + Digit(id[9])
    else if id[3] == 'S' then 16
    else -1
  }

  function Digit(c: char): int {
    c as int - '0' as int
  }

  lemma IdsDiffer(k: nat)
    requires k < 18
    ensures NumberOf(IDS[k]) == k && NumberOf("UG-COL-001") == -1
  {
  }

  lemma FindingIs(rules: seq<Rule>, say: Wording, s: Facts, j: nat)
    requires j < |Findings(rules, say, s)|
    ensures Findings(rules, say, s)[j] ==
              if j < |rules| then Evaluate(rules[j], say, s) else IssueFinding(say, s.issues[j - |rules|])
    ensures |Findings(rules, say, s)| == |rules| + |s.issues|
  {
  }

  lemma IdIs(say: Wording, s: Facts, j: nat)
    requires j < |Findings(RULES, say, s)|
    ensures NumberOf(Findings(RULES, say, s)[j].id) == if j < 18 then j else -1
  {
    hide Evaluate, NumberOf, Findings, IdOf;
    FindingIs(RULES, say, s, j);
    if j < 18 {
      IdOfRules(j);
      IdIsOfRule(RULES[j], say, s);
      IdsDiffer(j);
    } else {
      IdOfRules(0);
      IdsDiffer(0);
      IssueId(say, s.issues[j - 18]);
    }
  }

  lemma IssueId(say: Wording, issue: CollectorIssue)
    ensures IssueFinding(say, issue).id == "UG-COL-001"
  {
  }

  lemma ScannedHas(c: Setting)
    requires c.Scanned().Some?
    ensures c.Scanned().value == ReportOf(RULES, c.say, c.limits, c.stamp, c.Facts())
  {
  }

  /** The finding of a rule is in the report, once. */
  lemma RuleReports(c: Setting, k: nat, rule: Rule)
    requires k < 18 && RULES[k] == rule
    ensures Reports(c, Evaluate(rule, c.say, c.Facts()))
  {
    hide Evaluate, Findings, Final, NumberOf, Aggregate, Limitations;
    if c.Scanned().Some? {
      ScannedHas(c);
      var findings := Findings(RULES, c.say, c.Facts());
      RulesComeFirst(c.say, c.Facts());
      FindingIs(RULES, c.say, c.Facts(), k);
      IdIs(c.say, c.Facts(), k);
      forall j | 0 <= j < |findings| && findings[j].id == findings[k].id
        ensures j == k
      {
        IdIs(c.say, c.Facts(), j);
      }
    }
  }

  lemma RulesComeFirst(say: Wording, s: Facts)
    ensures |Findings(RULES, say, s)| >= 18 && |RULES| == 18
  {
  }

  // ---- Platform ---------------------------------------------------------------------------------

  lemma CurrentReleaseReport(c: Setting)
    ensures Reports(c,
      if c.host.platform.None? then Said(c.say, "UG-REL-001", 0, Unknown, [], High)
      else
        var p := c.host.platform.value;
        var evidence := [Evidence("distribution", p.distribution.name), Evidence("version", p.distribution.versionId)];
        if p.detectionOnly then Said(c.say, "UG-REL-001", 1, Warning, evidence, High)
        else if !p.supportedCurrentRelease then Said(c.say, "UG-REL-001", 2, Blocked, evidence, High)
        else Said(c.say, "UG-REL-001", 3, Passed, evidence, High))
  {
    hide Reports, Final;
    RuleReports(c, 0, CurrentReleaseRule);
    Readiness.HostDecides(c.request, c.run, c.host);
  }

  lemma UpgradePathReport(c: Setting)
    ensures Reports(c,
      if c.host.platform.None? then Said(c.say, "UG-REL-002", 0, Unknown, [], High)
      else
        var p := c.host.platform.value;
        var evidence := [Evidence("from", p.distribution.versionId), Evidence("target", c.request.targetRelease)];
        if p.detectionOnly then Said(c.say, "UG-REL-002", 1, Warning, evidence, High)
        else if !p.supportedUpgradePath then Said(c.say, "UG-REL-002", 2, Blocked, evidence, High)
        else Said(c.say, "UG-REL-002", 3, Passed, evidence, High))
  {
    hide Reports, Final;
    RuleReports(c, 1, UpgradePathRule);
    Readiness.HostDecides(c.request, c.run, c.host);
    RequestStays(c);
  }

  lemma RequestStays(c: Setting)
    ensures c.Facts().request == c.request
  {
    hide After;
    StepsKeepRequest(COLLECTORS, c.run, c.host, Blank(c.request));
  }

  lemma {:induction false} StepsKeepRequest(cs: seq<Collector>, run: Runner, host: Host, f: Facts)
    ensures AfterAll(cs, run, host, f).request == f.request
  {
    hide After;
    if cs != [] {
      var n := |cs| - 1;
      StepsKeepRequest(cs[..n], run, host, f);
      StepKeepsRequest(cs[n], run, host, AfterAll(cs[..n], run, host, f));
    }
  }

  lemma StepKeepsRequest(c: Collector, run: Runner, host: Host, f: Facts)
    ensures After(c, run, host, f).request == f.request
  {
  }

  lemma DerivativeReport(c: Setting)
    ensures Reports(c,
      if c.host.platform.None? then Said(c.say, "UG-REL-003", 0, Unknown, [], High)
      else
        var p := c.host.platform.value;
        var evidence := [Evidence("distribution", p.distribution.id),
                         Evidence("detection_only", Flag(p.detectionOnly))];
        if p.detectionOnly then Said(c.say, "UG-REL-003", 1, Warning, evidence, High)
        else Said(c.say, "UG-REL-003", 2, Passed, evidence, High))
  {
    hide Reports, Final;
    RuleReports(c, 2, DerivativeRule);
    Readiness.HostDecides(c.request, c.run, c.host);
  }

  // ---- Packages ---------------------------------------------------------------------------------

  lemma DatabaseReport(c: Setting)
    ensures Reports(c,
      var done := SimulationDone(c.Ask("apt-get", 8000, 131072));
      var found := Printed(c.Ask("dpkg", 3000, 65536));
      var evidence := [Evidence("dpkg audit entries", Json.Decimal(|found|)),
                       Evidence("simulation incomplete", Flag(!done))];
      if found != [] then Said(c.say, "UG-APT-001", 0, Blocked, evidence, Medium)
      else if !done then Said(c.say, "UG-APT-001", 1, Unknown, evidence, Medium)
      else Said(c.say, "UG-APT-001", 2, Passed, evidence, Medium))
  {
    hide Reports, Final, Printed, SimulationDone, Json.Decimal, Filter, ProposedRemovals, ProposedInstalls;
    hide BrokenReasons, CacheIsThere;
    RuleReports(c, 3, DatabaseRule);
    AptIs(c.request, c.run, c.host);
    DpkgIs(c.request, c.run, c.host);
  }

  lemma BrokenReport(c: Setting)
    ensures Reports(c,
      var sim := c.Ask("apt-get", 8000, 131072);
      var reasons := BrokenReasons(c.host.cache, sim);
      var evidence := Each("broken package", reasons);
      if reasons != [] then Said(c.say, "UG-APT-002", 0, Blocked, evidence, Medium)
      else if !SimulationDone(sim) then Said(c.say, "UG-APT-002", 1, Unknown, evidence, Medium)
      else Said(c.say, "UG-APT-002", 2, Passed, evidence, Medium))
  {
    hide Reports, Final, BrokenReasons, SimulationDone, Each, ListEvidence, Filter, ProposedRemovals, ProposedInstalls;
    hide CacheIsThere;
    RuleReports(c, 4, BrokenRule);
    AptIs(c.request, c.run, c.host);
    EachIsList("broken package", BrokenReasons(c.host.cache, c.Ask("apt-get", 8000, 131072)));
  }

  lemma HoldsReport(c: Setting)
    ensures Reports(c,
      var held := Printed(c.Ask("apt-mark", 3000, 65536));
      var evidence := Each("held package", held);
      if held != [] then Said(c.say, "UG-APT-003", 0, Warning, evidence, Medium)
      else Said(c.say, "UG-APT-003", 1, Passed, evidence, Medium))
  {
    hide Reports, Final, Printed, Each, ListEvidence;
    RuleReports(c, 5, HoldsRule);
    DpkgIs(c.request, c.run, c.host);
    EachIsList("held package", Printed(c.Ask("apt-mark", 3000, 65536)));
  }

  lemma ThirdPartyReport(c: Setting)
    ensures Reports(c,
      var third := Filter(FromElsewhere, EnabledEntries(c.host));
      var evidence := Each("source", third);
      if third != [] then Said(c.say, "UG-APT-004", 0, Warning, evidence, Low)
      else Said(c.say, "UG-APT-004", 1, Passed, evidence, Medium))
  {
    hide Reports, Final, Filter, EnabledEntries, Each, ListEvidence;
    RuleReports(c, 6, ThirdPartyRule);
    SourcesAre(c.request, c.run, c.host);
    EachIsList("source", Filter(FromElsewhere, EnabledEntries(c.host)));
  }

  lemma DuplicatesReport(c: Setting)
    ensures Reports(c,
      var again := Repeats(EnabledEntries(c.host));
      var evidence := Each("duplicate source", again);
      if again != [] then Said(c.say, "UG-APT-005", 0, Warning, evidence, Medium)
      else Said(c.say, "UG-APT-005", 1, Passed, evidence, Medium))
  {
    hide Reports, Final, Repeats, EnabledEntries, Each, ListEvidence;
    RuleReports(c, 7, DuplicatesRule);
    SourcesAre(c.request, c.run, c.host);
    EachIsList("duplicate source", Repeats(EnabledEntries(c.host)));
  }

  lemma RemovalsReport(c: Setting)
    ensures Reports(c,
      var sim := c.Ask("apt-get", 8000, 131072);
      var removals := ProposedRemovals(sim);
      var evidence := Each("proposed removal", removals);
      if !SimulationDone(sim) then Said(c.say, "UG-APT-006", 0, Unknown, evidence, Medium)
      else if exists name :: name in {"apt", "dpkg", "systemd", "ubuntu-minimal"} && name in removals then
        Said(c.say, "UG-APT-006", 1, Blocked, evidence, Medium)
      else if removals != [] then Said(c.say, "UG-APT-006", 2, Warning, evidence, Medium)
      else Said(c.say, "UG-APT-006", 3, Passed, evidence, Medium))
  {
    hide Reports, Final, ProposedRemovals, SimulationDone, Filter, Each, ListEvidence;
    RuleReports(c, 8, RemovalsRule);
    AptIs(c.request, c.run, c.host);
    var removals := ProposedRemovals(c.Ask("apt-get", 8000, 131072));
    EssentialExactly(removals);
    EachIsList("proposed removal", removals);
  }

  lemma EssentialExactly(removals: seq<string>)
    ensures Filter(KeepsSystemGoing, removals) != [] <==>
              exists name :: name in {"apt", "dpkg", "systemd", "ubuntu-minimal"} && name in removals
  {
    hide Filter;
    var kept := Filter(KeepsSystemGoing, removals);
    if kept != [] {
      FilterHas(KeepsSystemGoing, removals, kept[0]);
    }
    if name :| name in {"apt", "dpkg", "systemd", "ubuntu-minimal"} && name in removals {
      FilterHas(KeepsSystemGoing, removals, name);
    }
  }

  lemma CacheReport(c: Setting)
    ensures Reports(c,
      var evidence := [Evidence("cache available", Flag(CacheIsThere(c.host))),
                       Evidence("freshness known", Flag(c.host.lists.Dated?))];
      if c.host.lists != Dated(false) then Said(c.say, "UG-APT-007", 0, Unknown, evidence, Medium)
      else Said(c.say, "UG-APT-007", 1, Passed, evidence, Medium))
  {
    hide Reports, Final, CacheIsThere, BrokenReasons, SimulationDone, Filter, ProposedRemovals, ProposedInstalls;
    RuleReports(c, 9, CacheRule);
    AptIs(c.request, c.run, c.host);
  }

  // ---- Storage ----------------------------------------------------------------------------------

  function MiB(bytes: nat): string {
    Json.Decimal(bytes / 1048576) + " MiB"
  }

  lemma MibIs(bytes: nat)
    ensures Mib(bytes) == MiB(bytes)
  {
    assert bytes / 1024 / 1024 == bytes / 1048576;
  }

  /** What is said of a filesystem that has to be there. */
  function SpaceSaid(say: Wording, id: string, space: SpaceFacts, least: nat): Finding {
    var evidence := [Evidence("mount", space.mountPoint), Evidence("free", MiB(space.freeBytes)),
                     Evidence("threshold", MiB(least))];
    if space.readError || !space.available then Said(say, id, 1, Unknown, evidence, Medium)
    else if space.freeBytes < least then Said(say, id, 2, Warning, evidence, Medium)
    else Said(say, id, 3, Passed, evidence, Medium)
  }

  lemma SpaceIs(say: Wording, id: string, space: SpaceFacts, least: nat)
    ensures CheckSpace(say, id, space, least, false) == SpaceSaid(say, id, space, least)
  {
    hide Mib, MiB;
    MibIs(space.freeBytes);
    MibIs(least);
  }

  /** The root filesystem needs 5 GiB. */
  lemma RootSpaceReport(c: Setting)
    ensures Reports(c, SpaceSaid(c.say, "UG-DSK-001", c.host.storage.root, 5368709120))
  {
    hide Reports, Final, SpaceSaid, CheckSpace;
    RuleReports(c, 10, RootSpaceRule);
    Readiness.HostDecides(c.request, c.run, c.host);
    SpaceIs(c.say, "UG-DSK-001", c.host.storage.root, 5368709120);
  }

  /** `/boot` needs 512 MiB. */
  lemma BootSpaceReport(c: Setting)
    ensures Reports(c, SpaceSaid(c.say, "UG-DSK-002", c.host.storage.boot, 536870912))
  {
    hide Reports, Final, SpaceSaid, CheckSpace;
    RuleReports(c, 11, BootSpaceRule);
    Readiness.HostDecides(c.request, c.run, c.host);
    SpaceIs(c.say, "UG-DSK-002", c.host.storage.boot, 536870912);
  }

  /** The EFI filesystem needs 100 MiB, if there is one. */
  lemma EfiSpaceReport(c: Setting)
    ensures Reports(c,
      var space := c.host.storage.efi;
      if !space.available && !space.readError then
        Said(c.say, "UG-DSK-003", 0, Passed,
             [Evidence("mount", space.mountPoint), Evidence("free", MiB(space.freeBytes)),
              Evidence("threshold", MiB(104857600)),
              Evidence("heuristic", "optional mount checked when discoverable")], Medium)
      else SpaceSaid(c.say, "UG-DSK-003", space, 104857600))
  {
    hide Reports, Final, SpaceSaid, MiB, Mib;
    RuleReports(c, 12, EfiSpaceRule);
    Readiness.HostDecides(c.request, c.run, c.host);
    EfiIs(c.say, c.host.storage.efi);
  }

  lemma EfiIs(say: Wording, space: SpaceFacts)
    ensures CheckSpace(say, "UG-DSK-003", space, 100 * MIB, true) ==
      if !space.available && !space.readError then
        Said(say, "UG-DSK-003", 0, Passed,
             [Evidence("mount", space.mountPoint), Evidence("free", MiB(space.freeBytes)),
              Evidence("threshold", MiB(104857600)),
              Evidence("heuristic", "optional mount checked when discoverable")], Medium)
      else SpaceSaid(say, "UG-DSK-003", space, 104857600)
  {
    hide Mib, MiB;
    MibIs(space.freeBytes);
    MibIs(104857600);
  }

  // ---- Kernels, modules, Secure Boot and reboot -------------------------------------------------

  lemma DkmsReport(c: Setting)
    ensures Reports(c,
      var status := c.Ask("dkms", 4000, 65536);
      var lines := ModuleLines(status);
      var failed, unfinished := Filter(SaysFailed, lines), Filter(SaysUnfinished, lines);
      var odd := Filter(Malformed, lines);
      var evidence := [Evidence("dkms installed", Flag(SystemFacts.Started(status))),
                       Evidence("dkms command missing", Flag(!SystemFacts.Started(status)))]
                      + Each("failed module", failed) + Each("parse warning", odd)
                      + Each("incomplete module", unfinished);
      if !SystemFacts.Started(status) then Said(c.say, "UG-DKM-001", 0, Unknown, evidence, Medium)
      else if failed != [] then Said(c.say, "UG-DKM-001", 1, Blocked, evidence, Medium)
      else if unfinished != [] then Said(c.say, "UG-DKM-001", 2, Blocked, evidence, Medium)
      else if odd != [] then Said(c.say, "UG-DKM-001", 3, Unknown, evidence, Medium)
      else Said(c.say, "UG-DKM-001", 4, Passed, evidence, Medium))
  {
    hide Reports, Final, ModuleLines, Filter, Each, ListEvidence;
    RuleReports(c, 13, DkmsRule);
    DkmsIs(c.request, c.run, c.host);
    var lines := ModuleLines(c.Ask("dkms", 4000, 65536));
    EachIsList("failed module", Filter(SaysFailed, lines));
    EachIsList("parse warning", Filter(Malformed, lines));
    EachIsList("incomplete module", Filter(SaysUnfinished, lines));
  }

  lemma FallbackReport(c: Setting)
    ensures Reports(c,
      var kernels := Printed(c.Ask("dpkg-query", 4000, 65536));
      var evidence := [Evidence("installed kernels", Json.Decimal(|kernels|))];
      if VerdictConditions.InContainerHost(c.host) then Said(c.say, "UG-KRN-001", 0, Unknown, evidence, Medium)
      else if |kernels| == 0 then Said(c.say, "UG-KRN-001", 1, Unknown, evidence, Medium)
      else if |kernels| == 1 then Said(c.say, "UG-KRN-001", 2, Warning, evidence, Medium)
      else Said(c.say, "UG-KRN-001", 3, Passed, evidence, Medium))
  {
    hide Reports, Final, Printed;
    RuleReports(c, 14, FallbackRule);
    Readiness.HostDecides(c.request, c.run, c.host);
    KernelIs(c.request, c.run, c.host);
  }

  lemma ConsistencyReport(c: Setting)
    ensures Reports(c,
      var evidence := Each("missing header", c.host.missingHeaders) + Each("initramfs issue", c.host.initramfsIssues);
      if VerdictConditions.InContainerHost(c.host) then Said(c.say, "UG-KRN-002", 0, Unknown, [], Medium)
      else if c.host.missingHeaders != [] || c.host.initramfsIssues != [] then
        Said(c.say, "UG-KRN-002", 1, Warning, evidence, Medium)
      else Said(c.say, "UG-KRN-002", 2, Passed, [], Medium))
  {
    hide Reports, Final, Each, ListEvidence;
    RuleReports(c, 15, ConsistencyRule);
    Readiness.HostDecides(c.request, c.run, c.host);
    KernelIs(c.request, c.run, c.host);
    EachIsList("missing header", c.host.missingHeaders);
    EachIsList("initramfs issue", c.host.initramfsIssues);
  }

  lemma SecureBootReport(c: Setting)
    ensures Reports(c,
      var state := c.Ask("mokutil", 3000, 8192);
      var modules := Filter(NotEmpty, ModuleLines(c.Ask("dkms", 4000, 65536)));
      var on := SystemFacts.Started(state) && Contains(state.value.stdoutText, "enabled");
      var evidence := [Evidence("mokutil installed", Flag(SystemFacts.Started(state))),
                       Evidence("secure boot enabled", Flag(on)),
                       Evidence("dkms modules", Json.Decimal(|modules|))];
      if VerdictConditions.InContainerHost(c.host) then Said(c.say, "UG-SEC-001", 0, Unknown, evidence, Medium)
      else if !(Worked(state) && !state.value.truncated && state.value.stdoutText != "") then
        Said(c.say, "UG-SEC-001", 1, Unknown, evidence, Medium)
      else if on && modules != [] then Said(c.say, "UG-SEC-001", 2, Warning, evidence, Medium)
      else Said(c.say, "UG-SEC-001", 3, Passed, evidence, Medium))
  {
    hide Reports, Final, ModuleLines, Filter, Contains;
    RuleReports(c, 16, SecureBootRule);
    Readiness.HostDecides(c.request, c.run, c.host);
    DkmsIs(c.request, c.run, c.host);
    SecureBootIs(c.request, c.run, c.host);
  }

  lemma RebootReport(c: Setting)
    ensures Reports(c,
      var r := c.host.reboot;
      var evidence := [Evidence("reboot required", Flag(r.rebootRequired))] + Each("reboot package", r.packages);
      if r.readError then Said(c.say, "UG-RBT-001", 0, Unknown, evidence, High)
      else if r.rebootRequired then Said(c.say, "UG-RBT-001", 1, Warning, evidence, High)
      else Said(c.say, "UG-RBT-001", 2, Passed, evidence, High))
  {
    hide Reports, Final, Each, ListEvidence;
    RuleReports(c, 17, RebootRule);
    Readiness.HostDecides(c.request, c.run, c.host);
    EachIsList("reboot package", c.host.reboot.packages);
  }

  // ---- The rest of the report -------------------------------------------------------------------

  function IssueSaid(say: Wording, issue: CollectorIssue): Finding {
    Said(say, "UG-COL-001", 0, Unknown,
         [Evidence("collector", issue.collector), Evidence("message", issue.message)], High)
  }

  /**
   A report has the 18 findings of the rules in the order of their identifiers here, then one for each thing
   that a collector complained of; and it says when, for what and on what system it was made.
   */
  lemma ReportIs(c: Setting)
    ensures match c.Scanned()
      case None => NoLists(c.host)
      case Some(r) =>
        && !NoLists(c.host)
        && r.scanId == c.stamp.scanId && r.startedAt == c.stamp.startedAt && r.completedAt == c.stamp.completedAt
        && r.request == c.request
        && |r.findings| == 18 + |Complaints(c.run, c.host)|
        && (forall k :: 0 <= k < 18 ==> r.findings[k].id == IDS[k])
        && (forall k :: 18 <= k < |r.findings| ==>
              r.findings[k] == IssueSaid(c.say, Complaints(c.run, c.host)[k - 18]))
        && r.limitations ==
             [c.limits.first] + (if VerdictConditions.InContainerHost(c.host) then [c.limits.container] else [])
             + [c.limits.last]
        && r.platform == (if c.host.platform.Some? then c.host.platform.value
                          else PlatformFacts(Distribution("", "", "", "", false), "", "", false, false, false, false))
  {
    hide Evaluate, Final, Complaints, Aggregate, NoLists, SomeThrows, IdOf;
    ThrowsExactly(c.request, c.run, c.host);
    if c.Scanned().Some? {
      ScannedHas(c);
      var s := c.Facts();
      RequestStays(c);
      Readiness.HostDecides(c.request, c.run, c.host);
      IssuesAre(c.request, c.run, c.host);
      var findings := Findings(RULES, c.say, s);
      IdOfRules(0);
      RulesComeFirst(c.say, s);
      forall k: nat | k < |findings|
        ensures if k < 18 then findings[k].id == IDS[k]
                else findings[k] == IssueSaid(c.say, Complaints(c.run, c.host)[k - 18])
        ensures |findings| == 18 + |Complaints(c.run, c.host)|
      {
        FindingIs(RULES, c.say, s, k);
        if k < 18 {
          IdOfRules(k);
          IdIsOfRule(RULES[k], c.say, s);
        }
      }
    }
  }

  // ---- From what a simulation prints ------------------------------------------------------------

  /** The names listed for removal in what a simulation printed. */
  ghost function ListedForRemoval(items: seq<AptTranscripts.Item>): seq<string> {
    AptTranscripts.Wanted(items, "The following packages will be REMOVED:")
  }

  /**
   Of a simulation that ended well and printed these items, UG-APT-006 blocks exactly if one of four packages
   is listed for removal; then so does the scan, if it has a report.
   */
  lemma PrintedRemovalsReport(c: Setting, items: seq<AptTranscripts.Item>)
    requires AptTranscripts.GoodTranscript(items)
    requires forall l :: l in AptTranscripts.Transcript(items) ==> IsLine(l)
    requires SimulationDone(c.Ask("apt-get", 8000, 131072))
    requires c.Ask("apt-get", 8000, 131072).value.stdoutText == Unlines(AptTranscripts.Transcript(items))
    ensures var removals := ListedForRemoval(items);
            var evidence := Each("proposed removal", removals);
            var blocks := exists name :: name in {"apt", "dpkg", "systemd", "ubuntu-minimal"} && name in removals;
            && Reports(c, if blocks then Said(c.say, "UG-APT-006", 1, Blocked, evidence, Medium)
                          else if removals != [] then Said(c.say, "UG-APT-006", 2, Warning, evidence, Medium)
                          else Said(c.say, "UG-APT-006", 3, Passed, evidence, Medium))
            && (blocks && c.Scanned().Some? ==> c.Scanned().value.overallStatus == NotReady)
  {
    hide *;
    TranscriptRemovals(c.Ask("apt-get", 8000, 131072), items);
    RemovalsReport(c);
    var removals := ListedForRemoval(items);
    if c.Scanned().Some? && exists name :: name in {"apt", "dpkg", "systemd", "ubuntu-minimal"} && name in removals {
      SaidIs(c.say, "UG-APT-006", 1, Blocked, Each("proposed removal", removals), Medium);
      BlockedFindingBlocks(c, Said(c.say, "UG-APT-006", 1, Blocked, Each("proposed removal", removals), Medium));
    }
  }

  lemma TranscriptRemovals(sim: Outcome, items: seq<AptTranscripts.Item>)
    requires AptTranscripts.GoodTranscript(items)
    requires forall l :: l in AptTranscripts.Transcript(items) ==> IsLine(l)
    requires SimulationDone(sim) && sim.value.stdoutText == Unlines(AptTranscripts.Transcript(items))
    ensures ProposedRemovals(sim) == ListedForRemoval(items)
  {
    hide AptSimulation.Section, AptTranscripts.Wanted, Lines, Unlines;
    AptTranscripts.HeadingsStandOut();
    AptTranscripts.SectionReads(items, "The following packages will be REMOVED:");
    TextOfLines(AptTranscripts.Transcript(items));
  }

  lemma SaidIs(say: Wording, id: string, branch: nat, status: CheckStatus, evidence: seq<Evidence>,
               confidence: Confidence)
    ensures Said(say, id, branch, status, evidence, confidence).status == status
  {
  }

  /** With one blocked finding a scan is blocked. */
  lemma BlockedFindingBlocks(c: Setting, f: Finding)
    requires c.Scanned().Some? && Reports(c, f) && f.status == Blocked
    ensures c.Scanned().value.overallStatus == NotReady
  {
    hide Findings, Final;
    ScannedHas(c);
  }
}
