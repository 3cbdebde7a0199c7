/** One scan: the collectors fill a snapshot, the rules judge it, and the findings add up to a verdict. */
module ScanService {
  import opened Collectors
  import opened Domain
  import opened Rules
  import opened Wrappers

  // ---- The verdict ------------------------------------------------------------------------------

  predicate IsIncomplete(f: Finding) {
    f.status == Unknown || f.status == CheckStatus.Error || !f.collectorComplete
  }

  function Aggregate(findings: seq<Finding>): ReadinessStatus {
    if exists f :: f in findings && f.status == Blocked then NotReady
    else if exists f :: f in findings && IsIncomplete(f) then Incomplete
    else if exists f :: f in findings && f.status == Warning then ReadyWithWarnings
    else Ready
  }

  // ---- The collectors, in order -----------------------------------------------------------------

  datatype Collector =
    | PlatformCollector | AptCollector | DpkgCollector | SourcesCollector | StorageCollector
    | KernelCollector | DkmsCollector | SecureBootCollector | RebootCollector
  {
    function Name(): string {
      match this
      case PlatformCollector => "platform"
      case AptCollector => "apt"
      case DpkgCollector => "dpkg"
      case SourcesCollector => "apt-sources"
      case StorageCollector => "storage"
      case KernelCollector => "kernel"
      case DkmsCollector => "dkms"
      case SecureBootCollector => "secure-boot"
      case RebootCollector => "reboot"
    }
  }

  const COLLECTORS := [
    PlatformCollector, AptCollector, DpkgCollector, SourcesCollector, StorageCollector, KernelCollector, DkmsCollector,
    SecureBootCollector, RebootCollector]

  /** The facts after one more collector. */
  function After(c: Collector, run: Runner, host: Host, f: Facts): Facts {
    match c
    case PlatformCollector =>
      if host.platform.Some? then f.(platform := host.platform) else WithIssue(f, c.Name(), "could not read os-release")
    case AptCollector => AfterSimulation(AfterLists(AfterCache(f, host.cache), host.lists), run(AptGet()))
    case DpkgCollector => AfterDpkg(f, run(Dpkg()), run(AptMark()))
    case SourcesCollector => AfterSources(f, host.sourcesList, host.sourcesDirectory)
    case StorageCollector => f.(storage := host.storage)
    case KernelCollector => AfterKernel(f, host, run(DpkgQuery()))
    case DkmsCollector => AfterDkms(f, run(Dkms()))
    case SecureBootCollector => AfterSecureBoot(f, run(Mokutil()))
    case RebootCollector => f.(reboot := host.reboot)
  }

  type Step = (Collector, Facts) -> Facts

  function Steps(run: Runner, host: Host): Step {
    (c, f) => After(c, run, host, f)
  }

  function InTurn(step: Step, cs: seq<Collector>, f: Facts): Facts {
    if cs == [] then f else step(cs[|cs| - 1], InTurn(step, cs[..|cs| - 1], f))
  }

  /** The facts after all these collectors. */
  function AfterAll(cs: seq<Collector>, run: Runner, host: Host, f: Facts): Facts {
    InTurn(Steps(run, host), cs, f)
  }

  predicate Throws(c: Collector, host: Host, f: Facts) {
    c.AptCollector? && AptThrows(f, host)
  }

  method Collect(c: Collector, snapshot: Snapshot, run: Runner, host: Host) returns (ending: Ending)
    modifies snapshot
    ensures ending.Thrown? <==> Throws(c, host, old(snapshot.State()))
    ensures !ending.Thrown? ==>
              After(c, run, host, old(snapshot.State())) ==
                if ending.Failed? then WithIssue(snapshot.State(), c.Name(), ending.message) else snapshot.State()
  {
    match c {
      case PlatformCollector => ending := CollectPlatform(snapshot, host);
      case AptCollector => ending := CollectApt(snapshot, run, host);
      case DpkgCollector => ending := CollectDpkg(snapshot, run);
      case SourcesCollector => ending := CollectSources(snapshot, host);
      case StorageCollector => ending := CollectStorage(snapshot, host);
      case KernelCollector => ending := CollectKernel(snapshot, run, host);
      case DkmsCollector => ending := CollectDkms(snapshot, run);
      case SecureBootCollector => ending := CollectSecureBoot(snapshot, run);
      case RebootCollector => ending := CollectReboot(snapshot, host);
    }
  }

  // ---- The scan ---------------------------------------------------------------------------------

  function IssueFinding(say: Wording, issue: CollectorIssue): Finding {
    Judge(say, "UG-COL-001", 0, Unknown, Caution,
          [Evidence("collector", issue.collector), Evidence("message", issue.message)], High, false)
  }

  function Judged(rules: seq<Rule>, say: Wording, s: Facts): seq<Finding> {
    seq(|rules|, i requires 0 <= i < |rules| => Evaluate(rules[i], say, s))
  }

  function Reported(say: Wording, issues: seq<CollectorIssue>): seq<Finding> {
    seq(|issues|, i requires 0 <= i < |issues| => IssueFinding(say, issues[i]))
  }

  function Findings(rules: seq<Rule>, say: Wording, s: Facts): seq<Finding> {
    Judged(rules, say, s) + Reported(say, s.issues)
  }

  /** What is said about the limits of a scan: always, in containers, and at the end. */
  datatype Limits = Limits(first: string, container: string, last: string)

  function Limitations(limits: Limits, s: Facts): seq<string> {
    [limits.first] + (if InContainer(s) then [limits.container] else []) + [limits.last]
  }

  /** The clock and the random identifier of a scan. */
  datatype Stamp = Stamp(scanId: string, startedAt: string, completedAt: string)

  const NO_PLATFORM := PlatformFacts(Distribution("", "", "", "", false), "", "", false, false, false, false)

  function ReportOf(rules: seq<Rule>, say: Wording, limits: Limits, stamp: Stamp, s: Facts): ScanReport {
    var findings := Findings(rules, say, s);
    ScanReport(stamp.scanId, stamp.startedAt, stamp.completedAt, s.request, Aggregate(findings), findings,
               Limitations(limits, s), if s.platform.Some? then s.platform.value else NO_PLATFORM)
  }

  /** Some collector of these throws when its turn comes. */
  predicate SomeThrows(collectors: seq<Collector>, request: ScanRequest, run: Runner, host: Host) {
    exists i :: 0 <= i < |collectors| &&
      Throws(collectors[i], host, AfterAll(collectors[..i], run, host, Blank(request)))
  }

  /** There is no report if a collector throws. */
  function Executed(collectors: seq<Collector>, rules: seq<Rule>, request: ScanRequest,
                    run: Runner, host: Host, say: Wording, limits: Limits, stamp: Stamp): Option<ScanReport> {
    if SomeThrows(collectors, request, run, host) then None
    else Some(ReportOf(rules, say, limits, stamp, AfterAll(collectors, run, host, Blank(request))))
  }

  /** The rest of `execute`, behind the collectors. */
  method WriteReport(s: Facts, rules: seq<Rule>, say: Wording, limits: Limits, stamp: Stamp)
    returns (report: ScanReport)
    ensures report == ReportOf(rules, say, limits, stamp, s)
  {
    var findings: seq<Finding> := [];
    for i := 0 to |rules|
      invariant findings == Judged(rules[..i], say, s)
    {
      findings := findings + [Evaluate(rules[i], say, s)];
    }
    assert rules[..|rules|] == rules;
    for i := 0 to |s.issues|
      invariant findings == Judged(rules, say, s) + Reported(say, s.issues[..i])
    {
      findings := findings + [IssueFinding(say, s.issues[i])];
    }
    assert s.issues[..|s.issues|] == s.issues;
    var limitations := [limits.first];
    if InContainer(s) {
      limitations := limitations + [limits.container];
    }
    limitations := limitations + [limits.last];
    report := ScanReport(stamp.scanId, stamp.startedAt, stamp.completedAt, s.request, Aggregate(findings), findings,
                         limitations, if s.platform.Some? then s.platform.value else NO_PLATFORM);
  }

  method Execute(collectors: seq<Collector>, rules: seq<Rule>, request: ScanRequest,
                 run: Runner, host: Host, say: Wording, limits: Limits, stamp: Stamp)
    returns (report: Option<ScanReport>)
    ensures report == Executed(collectors, rules, request, run, host, say, limits, stamp)
  {
    hide After, Throws, ReportOf, WithIssue;
    var snapshot := new Snapshot(request);
    for i := 0 to |collectors|
      invariant snapshot.State() == AfterAll(collectors[..i], run, host, Blank(request))
      invariant forall k :: 0 <= k < i ==>
        !Throws(collectors[k], host, AfterAll(collectors[..k], run, host, Blank(request)))
    {
      assert collectors[..i + 1][..i] == collectors[..i];
      var ending := Collect(collectors[i], snapshot, run, host);
      if ending.Thrown? {
        return None;
      }
      if ending.Failed? {
        snapshot.AddIssue(collectors[i].Name(), ending.message);
      }
    }
    assert collectors[..|collectors|] == collectors;
    var written := WriteReport(snapshot.State(), rules, say, limits, stamp);
    report := Some(written);
  }

  /** A scan with all collectors and all rules. */
  function Scan(request: ScanRequest, run: Runner, host: Host, say: Wording, limits: Limits, stamp: Stamp)
    : Option<ScanReport>
  {
    Executed(COLLECTORS, RULES, request, run, host, say, limits, stamp)
  }

  /** The verdict that a scan ends with, if it does not throw. */
  function Verdict(request: ScanRequest, run: Runner, host: Host, say: Wording, limits: Limits, stamp: Stamp)
    : Option<ReadinessStatus>
  {
    match Scan(request, run, host, say, limits, stamp)
    case None => None
    case Some(report) => Some(report.overallStatus)
  }
}
