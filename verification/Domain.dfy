/** Facts, findings and reports, as they pass from the collectors to the rules and on to the reporters. */
module Domain {
  import opened Wrappers

  const TOOL_VERSION := "0.1.0-beta.1"

  datatype CheckStatus = Passed | Warning | Blocked | Unknown | Error

  datatype Severity = Info | Caution | Blocker

  datatype ReadinessStatus = Ready | ReadyWithWarnings | NotReady | Incomplete

  datatype Confidence = Low | Medium | High

  datatype Evidence = Evidence(caption: string, text: string)

  datatype Finding = Finding(
    id: string,
    status: CheckStatus,
    severity: Severity,
    title: string,
    explanation: string,
    evidence: seq<Evidence>,
    recommendation: string,
    confidence: Confidence,
    collectorComplete: bool,
    documentationRef: string)

  datatype Distribution = Distribution(
    id: string,
    name: string,
    versionId: string,
    codename: string,
    ubuntuDerivative: bool)

  datatype PlatformFacts = PlatformFacts(
    distribution: Distribution,
    architecture: string,
    kernelVersion: string,
    supportedCurrentRelease: bool,
    supportedUpgradePath: bool,
    detectionOnly: bool,
    containerDetected: bool)

  datatype PackageFacts = PackageFacts(
    cacheAvailable: bool,
    cacheFreshKnown: bool,
    cacheStale: bool,
    brokenPackages: seq<string>,
    upgradablePackages: seq<string>,
    heldPackages: seq<string>,
    dpkgAudit: seq<string>,
    duplicateSources: seq<string>,
    disabledSources: seq<string>,
    thirdPartySources: seq<string>,
    proposedRemovals: seq<string>,
    proposedInstalls: seq<string>,
    proposedUpgrades: seq<string>,
    essentialRemovals: seq<string>,
    simulationPerformed: bool,
    simulationIncomplete: bool)

  datatype SpaceFacts = SpaceFacts(mountPoint: string, freeBytes: nat, available: bool, readError: bool)

  datatype StorageFacts = StorageFacts(root: SpaceFacts, boot: SpaceFacts, efi: SpaceFacts)

  datatype KernelFacts = KernelFacts(
    runningKernel: string,
    installedKernels: seq<string>,
    missingHeaders: seq<string>,
    initramfsIssues: seq<string>,
    hasFallbackKernel: bool)

  datatype DkmsFacts = DkmsFacts(
    installed: bool,
    commandMissing: bool,
    modules: seq<string>,
    failedModules: seq<string>,
    incompleteModules: seq<string>,
    parseErrors: seq<string>)

  datatype SecureBootFacts = SecureBootFacts(
    mokutilInstalled: bool,
    enabled: bool,
    stateUnknown: bool,
    rawState: string)

  datatype RebootFacts = RebootFacts(rebootRequired: bool, packages: seq<string>, readError: bool)

  datatype CollectorIssue = CollectorIssue(collector: string, message: string)

  /** The facts of a snapshot at one moment. */
  datatype Facts = Facts(
    request: ScanRequest,
    platform: Option<PlatformFacts>,
    packages: PackageFacts,
    storage: StorageFacts,
    kernel: KernelFacts,
    dkms: DkmsFacts,
    secureBoot: SecureBootFacts,
    reboot: RebootFacts,
    issues: seq<CollectorIssue>)

  datatype ScanRequest = ScanRequest(targetRelease: string, verbose: bool)

  datatype ScanReport = ScanReport(
    scanId: string,
    startedAt: string,
    completedAt: string,
    request: ScanRequest,
    overallStatus: ReadinessStatus,
    findings: seq<Finding>,
    limitations: seq<string>,
    platform: PlatformFacts)

  /** How many findings have the given status. */
  function CountStatus(findings: seq<Finding>, status: CheckStatus): (count: nat)
    ensures count > 0 <==> exists f :: f in findings && f.status == status
  {
    if findings == [] then 0
    else
      var last := findings[|findings| - 1];
      assert findings == findings[..|findings| - 1] + [last];
      CountStatus(findings[..|findings| - 1], status) + if last.status == status then 1 else 0
  }
}
