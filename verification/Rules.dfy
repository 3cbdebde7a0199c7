/**
 The 18 readiness rules: what each makes of the facts of a snapshot. The wording of findings is a parameter:
 the words for a rule and for the branch that it took.
 */
module Rules {
  import opened Domain
  import opened Sequences
  import opened Wrappers
  import Json

  datatype Prose = Prose(title: string, explanation: string, recommendation: string, documentationRef: string)

  type Wording = (string, nat) -> Prose

  function Judge(say: Wording, id: string, branch: nat, status: CheckStatus, severity: Severity,
                 evidence: seq<Evidence>, confidence: Confidence, complete: bool): Finding {
    var p := say(id, branch);
    Finding(id, status, severity, p.title, p.explanation, evidence, p.recommendation, confidence, complete,
            p.documentationRef)
  }

  /**
   What all rules keep: a finding says that its evidence is incomplete exactly when its status is unknown, it
   reports no error, and its severity goes with its status.
   */
  predicate Sound(f: Finding) {
    && (f.collectorComplete <==> f.status != Unknown)
    && f.status != CheckStatus.Error
    && (f.severity == Blocker <==> f.status == Blocked)
    && (f.severity == Info <==> f.status == Passed)
  }

  function BoolName(b: bool): string {
    if b then "true" else "false"
  }

  function ListEvidence(caption: string, items: seq<string>): seq<Evidence> {
    seq(|items|, i requires 0 <= i < |items| => Evidence(caption, items[i]))
  }

  method AddEvidence(evidence: seq<Evidence>, caption: string, items: seq<string>) returns (more: seq<Evidence>)
    ensures more == evidence + ListEvidence(caption, items)
  {
    more := evidence;
    for i := 0 to |items|
      invariant more == evidence + ListEvidence(caption, items[..i])
    {
      more := more + [Evidence(caption, items[i])];
      assert ListEvidence(caption, items[..i + 1]) == ListEvidence(caption, items[..i]) + [Evidence(caption, items[i])];
    }
    assert items[..|items|] == items;
  }

  // ---- Platform ---------------------------------------------------------------------------------

  function CurrentRelease(say: Wording, s: Facts): (f: Finding)
    ensures Sound(f)
  {
    match s.platform
    case None => Judge(say, "UG-REL-001", 0, Unknown, Caution, [], High, false)
    case Some(p) =>
      var evidence := [Evidence("distribution", p.distribution.name), Evidence("version", p.distribution.versionId)];
      if p.detectionOnly then Judge(say, "UG-REL-001", 1, Warning, Caution, evidence, High, true)
      else if !p.supportedCurrentRelease then Judge(say, "UG-REL-001", 2, Blocked, Blocker, evidence, High, true)
      else Judge(say, "UG-REL-001", 3, Passed, Info, evidence, High, true)
  }

  function UpgradePath(say: Wording, s: Facts): (f: Finding)
    ensures Sound(f)
  {
    match s.platform
    case None => Judge(say, "UG-REL-002", 0, Unknown, Caution, [], High, false)
    case Some(p) =>
      var evidence := [Evidence("from", p.distribution.versionId), Evidence("target", s.request.targetRelease)];
      if p.detectionOnly then Judge(say, "UG-REL-002", 1, Warning, Caution, evidence, High, true)
      else if !p.supportedUpgradePath then Judge(say, "UG-REL-002", 2, Blocked, Blocker, evidence, High, true)
      else Judge(say, "UG-REL-002", 3, Passed, Info, evidence, High, true)
  }

  function Derivative(say: Wording, s: Facts): (f: Finding)
    ensures Sound(f)
  {
    match s.platform
    case None => Judge(say, "UG-REL-003", 0, Unknown, Caution, [], High, false)
    case Some(p) =>
      var evidence := [Evidence("distribution", p.distribution.id),
                       Evidence("detection_only", BoolName(p.detectionOnly))];
      if p.detectionOnly then Judge(say, "UG-REL-003", 1, Warning, Caution, evidence, High, true)
      else Judge(say, "UG-REL-003", 2, Passed, Info, evidence, High, true)
  }

  // ---- Packages ---------------------------------------------------------------------------------

  /** The simulation gave no evidence that can be relied on. */
  predicate SimulationFailed(p: PackageFacts) {
    !p.simulationPerformed || p.simulationIncomplete
  }

  function Database(say: Wording, s: Facts): (f: Finding)
    ensures Sound(f)
  {
    var evidence := [Evidence("dpkg audit entries", Json.Decimal(|s.packages.dpkgAudit|)),
                     Evidence("simulation incomplete", BoolName(s.packages.simulationIncomplete))];
    if s.packages.dpkgAudit != [] then Judge(say, "UG-APT-001", 0, Blocked, Blocker, evidence, Medium, true)
    else if SimulationFailed(s.packages) then Judge(say, "UG-APT-001", 1, Unknown, Caution, evidence, Medium, false)
    else Judge(say, "UG-APT-001", 2, Passed, Info, evidence, Medium, true)
  }

  function Broken(say: Wording, s: Facts): (f: Finding)
    ensures Sound(f)
  {
    var evidence := ListEvidence("broken package", s.packages.brokenPackages);
    if s.packages.brokenPackages != [] then Judge(say, "UG-APT-002", 0, Blocked, Blocker, evidence, Medium, true)
    else if SimulationFailed(s.packages) then Judge(say, "UG-APT-002", 1, Unknown, Caution, evidence, Medium, false)
    else Judge(say, "UG-APT-002", 2, Passed, Info, evidence, Medium, true)
  }

  function Holds(say: Wording, s: Facts): (f: Finding)
    ensures Sound(f)
  {
    var evidence := ListEvidence("held package", s.packages.heldPackages);
    if s.packages.heldPackages != [] then Judge(say, "UG-APT-003", 0, Warning, Caution, evidence, Medium, true)
    else Judge(say, "UG-APT-003", 1, Passed, Info, evidence, Medium, true)
  }

  function ThirdParty(say: Wording, s: Facts): (f: Finding)
    ensures Sound(f)
  {
    var evidence := ListEvidence("source", s.packages.thirdPartySources);
    if s.packages.thirdPartySources != [] then Judge(say, "UG-APT-004", 0, Warning, Caution, evidence, Low, true)
    else Judge(say, "UG-APT-004", 1, Passed, Info, evidence, Medium, true)
  }

  function Duplicates(say: Wording, s: Facts): (f: Finding)
    ensures Sound(f)
  {
    var evidence := ListEvidence("duplicate source", s.packages.duplicateSources);
    if s.packages.duplicateSources != [] then Judge(say, "UG-APT-005", 0, Warning, Caution, evidence, Medium, true)
    else Judge(say, "UG-APT-005", 1, Passed, Info, evidence, Medium, true)
  }

  function Removals(say: Wording, s: Facts): (f: Finding)
    ensures Sound(f)
  {
    var evidence := ListEvidence("proposed removal", s.packages.proposedRemovals);
    if SimulationFailed(s.packages) then Judge(say, "UG-APT-006", 0, Unknown, Caution, evidence, Medium, false)
    else if s.packages.essentialRemovals != [] then
      Judge(say, "UG-APT-006", 1, Blocked, Blocker, evidence, Medium, true)
    else if s.packages.proposedRemovals != [] then Judge(say, "UG-APT-006", 2, Warning, Caution, evidence, Medium, true)
    else Judge(say, "UG-APT-006", 3, Passed, Info, evidence, Medium, true)
  }

  function CacheAge(say: Wording, s: Facts): (f: Finding)
    ensures Sound(f)
  {
    var evidence := [Evidence("cache available", BoolName(s.packages.cacheAvailable)),
                     Evidence("freshness known", BoolName(s.packages.cacheFreshKnown))];
    if !s.packages.cacheFreshKnown || s.packages.cacheStale then
      Judge(say, "UG-APT-007", 0, Unknown, Caution, evidence, Medium, false)
    else Judge(say, "UG-APT-007", 1, Passed, Info, evidence, Medium, true)
  }

  // ---- Storage ----------------------------------------------------------------------------------

  const MIB := 1024 * 1024

  function Mib(bytes: nat): string {
    Json.Decimal(bytes / 1024 / 1024) + " MiB"
  }

  function CheckSpace(say: Wording, id: string, facts: SpaceFacts, minBytes: nat, optional: bool): (f: Finding)
    ensures Sound(f)
  {
    var evidence := [Evidence("mount", facts.mountPoint), Evidence("free", Mib(facts.freeBytes)),
                     Evidence("threshold", Mib(minBytes))];
    if optional && !facts.available && !facts.readError then
      var heuristic := Evidence("heuristic", "optional mount checked when discoverable");
      Judge(say, id, 0, Passed, Info, evidence + [heuristic], Medium, true)
    else if facts.readError || !facts.available then Judge(say, id, 1, Unknown, Caution, evidence, Medium, false)
    else if facts.freeBytes < minBytes then Judge(say, id, 2, Warning, Caution, evidence, Medium, true)
    else Judge(say, id, 3, Passed, Info, evidence, Medium, true)
  }

  // ---- Kernel -----------------------------------------------------------------------------------

  predicate InContainer(s: Facts) {
    s.platform.Some? && s.platform.value.containerDetected
  }

  function Fallback(say: Wording, s: Facts): (f: Finding)
    ensures Sound(f)
  {
    var evidence := [Evidence("installed kernels", Json.Decimal(|s.kernel.installedKernels|))];
    if InContainer(s) then Judge(say, "UG-KRN-001", 0, Unknown, Caution, evidence, Medium, false)
    else if s.kernel.installedKernels == [] then Judge(say, "UG-KRN-001", 1, Unknown, Caution, evidence, Medium, false)
    else if !s.kernel.hasFallbackKernel then Judge(say, "UG-KRN-001", 2, Warning, Caution, evidence, Medium, true)
    else Judge(say, "UG-KRN-001", 3, Passed, Info, evidence, Medium, true)
  }

  function Consistency(say: Wording, s: Facts): (f: Finding)
    ensures Sound(f)
  {
    var evidence := ListEvidence("missing header", s.kernel.missingHeaders) +
                    ListEvidence("initramfs issue", s.kernel.initramfsIssues);
    if InContainer(s) then Judge(say, "UG-KRN-002", 0, Unknown, Caution, [], Medium, false)
    else if evidence != [] then Judge(say, "UG-KRN-002", 1, Warning, Caution, evidence, Medium, true)
    else Judge(say, "UG-KRN-002", 2, Passed, Info, [], Medium, true)
  }

  method EvaluateConsistency(say: Wording, s: Facts) returns (f: Finding)
    ensures f == Consistency(say, s)
  {
    if InContainer(s) {
      return Judge(say, "UG-KRN-002", 0, Unknown, Caution, [], Medium, false);
    }
    var evidence := AddEvidence([], "missing header", s.kernel.missingHeaders);
    evidence := AddEvidence(evidence, "initramfs issue", s.kernel.initramfsIssues);
    if evidence != [] {
      return Judge(say, "UG-KRN-002", 1, Warning, Caution, evidence, Medium, true);
    }
    return Judge(say, "UG-KRN-002", 2, Passed, Info, [], Medium, true);
  }

  function DkmsEvidence(d: DkmsFacts): seq<Evidence> {
    [Evidence("dkms installed", BoolName(d.installed)), Evidence("dkms command missing", BoolName(d.commandMissing))] +
    ListEvidence("failed module", d.failedModules) + ListEvidence("parse warning", d.parseErrors) +
    ListEvidence("incomplete module", d.incompleteModules)
  }

  function DkmsHealth(say: Wording, s: Facts): (f: Finding)
    ensures Sound(f)
  {
    var evidence := DkmsEvidence(s.dkms);
    if s.dkms.commandMissing then Judge(say, "UG-DKM-001", 0, Unknown, Caution, evidence, Medium, false)
    else if s.dkms.failedModules != [] then Judge(say, "UG-DKM-001", 1, Blocked, Blocker, evidence, Medium, true)
    else if s.dkms.incompleteModules != [] then Judge(say, "UG-DKM-001", 2, Blocked, Blocker, evidence, Medium, true)
    else if s.dkms.parseErrors != [] then Judge(say, "UG-DKM-001", 3, Unknown, Caution, evidence, Medium, false)
    else Judge(say, "UG-DKM-001", 4, Passed, Info, evidence, Medium, true)
  }

  method EvaluateDkms(say: Wording, s: Facts) returns (f: Finding)
    ensures f == DkmsHealth(say, s)
  {
    var evidence := [Evidence("dkms installed", BoolName(s.dkms.installed)),
                     Evidence("dkms command missing", BoolName(s.dkms.commandMissing))];
    evidence := AddEvidence(evidence, "failed module", s.dkms.failedModules);
    evidence := AddEvidence(evidence, "parse warning", s.dkms.parseErrors);
    evidence := AddEvidence(evidence, "incomplete module", s.dkms.incompleteModules);
    if s.dkms.commandMissing {
      return Judge(say, "UG-DKM-001", 0, Unknown, Caution, evidence, Medium, false);
    } else if s.dkms.failedModules != [] {
      return Judge(say, "UG-DKM-001", 1, Blocked, Blocker, evidence, Medium, true);
    } else if s.dkms.incompleteModules != [] {
      return Judge(say, "UG-DKM-001", 2, Blocked, Blocker, evidence, Medium, true);
    } else if s.dkms.parseErrors != [] {
      return Judge(say, "UG-DKM-001", 3, Unknown, Caution, evidence, Medium, false);
    }
    return Judge(say, "UG-DKM-001", 4, Passed, Info, evidence, Medium, true);
  }

  // ---- Secure Boot and reboot -------------------------------------------------------------------

  function SecureBoot(say: Wording, s: Facts): (f: Finding)
    ensures Sound(f)
  {
    var evidence := [Evidence("mokutil installed", BoolName(s.secureBoot.mokutilInstalled)),
                     Evidence("secure boot enabled", BoolName(s.secureBoot.enabled)),
                     Evidence("dkms modules", Json.Decimal(|s.dkms.modules|))];
    if InContainer(s) then Judge(say, "UG-SEC-001", 0, Unknown, Caution, evidence, Medium, false)
    else if s.secureBoot.stateUnknown then Judge(say, "UG-SEC-001", 1, Unknown, Caution, evidence, Medium, false)
    else if s.secureBoot.enabled && s.dkms.modules != [] then
      Judge(say, "UG-SEC-001", 2, Warning, Caution, evidence, Medium, true)
    else Judge(say, "UG-SEC-001", 3, Passed, Info, evidence, Medium, true)
  }

  function RebootEvidence(r: RebootFacts): seq<Evidence> {
    [Evidence("reboot required", BoolName(r.rebootRequired))] + ListEvidence("reboot package", r.packages)
  }

  function Reboot(say: Wording, s: Facts): (f: Finding)
    ensures Sound(f)
  {
    var evidence := RebootEvidence(s.reboot);
    if s.reboot.readError then Judge(say, "UG-RBT-001", 0, Unknown, Caution, evidence, High, false)
    else if s.reboot.rebootRequired then Judge(say, "UG-RBT-001", 1, Warning, Caution, evidence, High, true)
    else Judge(say, "UG-RBT-001", 2, Passed, Info, evidence, High, true)
  }

  method EvaluateReboot(say: Wording, s: Facts) returns (f: Finding)
    ensures f == Reboot(say, s)
  {
    var evidence := [Evidence("reboot required", BoolName(s.reboot.rebootRequired))];
    evidence := AddEvidence(evidence, "reboot package", s.reboot.packages);
    if s.reboot.readError {
      return Judge(say, "UG-RBT-001", 0, Unknown, Caution, evidence, High, false);
    } else if s.reboot.rebootRequired {
      return Judge(say, "UG-RBT-001", 1, Warning, Caution, evidence, High, true);
    }
    return Judge(say, "UG-RBT-001", 2, Passed, Info, evidence, High, true);
  }

  // ---- All of them ------------------------------------------------------------------------------

  datatype Rule =
    | CurrentReleaseRule | UpgradePathRule | DerivativeRule
    | DatabaseRule | BrokenRule | HoldsRule | ThirdPartyRule | DuplicatesRule | RemovalsRule | CacheRule
    | RootSpaceRule | BootSpaceRule | EfiSpaceRule
    | DkmsRule | FallbackRule | ConsistencyRule
    | SecureBootRule
    | RebootRule

  function Evaluate(rule: Rule, say: Wording, s: Facts): (f: Finding)
    ensures Sound(f)
  {
    match rule
    case CurrentReleaseRule => CurrentRelease(say, s)
    case UpgradePathRule => UpgradePath(say, s)
    case DerivativeRule => Derivative(say, s)
    case DatabaseRule => Database(say, s)
    case BrokenRule => Broken(say, s)
    case HoldsRule => Holds(say, s)
    case ThirdPartyRule => ThirdParty(say, s)
    case DuplicatesRule => Duplicates(say, s)
    case RemovalsRule => Removals(say, s)
    case CacheRule => CacheAge(say, s)
    case RootSpaceRule => CheckSpace(say, "UG-DSK-001", s.storage.root, 5 * 1024 * MIB, false)
    case BootSpaceRule => CheckSpace(say, "UG-DSK-002", s.storage.boot, 512 * MIB, false)
    case EfiSpaceRule => CheckSpace(say, "UG-DSK-003", s.storage.efi, 100 * MIB, true)
    case DkmsRule => DkmsHealth(say, s)
    case FallbackRule => Fallback(say, s)
    case ConsistencyRule => Consistency(say, s)
    case SecureBootRule => SecureBoot(say, s)
    case RebootRule => Reboot(say, s)
  }

  /** The identifier that all findings of a rule have. */
  function IdOf(rule: Rule): string {
    match rule
    case CurrentReleaseRule => "UG-REL-001"
    case UpgradePathRule => "UG-REL-002"
    case DerivativeRule => "UG-REL-003"
    case DatabaseRule => "UG-APT-001"
    case BrokenRule => "UG-APT-002"
    case HoldsRule => "UG-APT-003"
    case ThirdPartyRule => "UG-APT-004"
    case DuplicatesRule => "UG-APT-005"
    case RemovalsRule => "UG-APT-006"
    case CacheRule => "UG-APT-007"
    case RootSpaceRule => "UG-DSK-001"
    case BootSpaceRule => "UG-DSK-002"
    case EfiSpaceRule => "UG-DSK-003"
    case DkmsRule => "UG-DKM-001"
    case FallbackRule => "UG-KRN-001"
    case ConsistencyRule => "UG-KRN-002"
    case SecureBootRule => "UG-SEC-001"
    case RebootRule => "UG-RBT-001"
  }

  lemma IdIsOfRule(rule: Rule, say: Wording, s: Facts)
    ensures Evaluate(rule, say, s).id == IdOf(rule)
  {
    hide ListEvidence, DkmsEvidence, RebootEvidence, BoolName, Mib;
  }

  /** The rules in the order in which they are evaluated. */
  const RULES := [
    CurrentReleaseRule, UpgradePathRule, DerivativeRule,
    DatabaseRule, BrokenRule, HoldsRule, ThirdPartyRule, DuplicatesRule, RemovalsRule, CacheRule,
    RootSpaceRule, BootSpaceRule, EfiSpaceRule,
    DkmsRule, FallbackRule, ConsistencyRule,
    SecureBootRule,
    RebootRule]
}
