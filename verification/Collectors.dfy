/**
 The collectors: what they make of the outcomes of commands and of the facts that the system hands over, and
 where they write it in the snapshot.
 */
module Collectors {
  import opened AptSimulation
  import opened Domain
  import opened Sequences
  import opened Text
  import opened Wrappers
  import Json
  import ProcessRunner
  import Sources

  type Request = ProcessRunner.Request
  type Outcome = ProcessRunner.Outcome

  /** Every command is run once, so a runner is no more than an outcome for each. */
  type Runner = Request -> Outcome

  function AptGet(): Request { ProcessRunner.Request("apt-get", 8000, 131072) }
  function Dpkg(): Request { ProcessRunner.Request("dpkg", 3000, 65536) }
  function AptMark(): Request { ProcessRunner.Request("apt-mark", 3000, 65536) }
  function DpkgQuery(): Request { ProcessRunner.Request("dpkg-query", 4000, 65536) }
  function Dkms(): Request { ProcessRunner.Request("dkms", 4000, 65536) }
  function Mokutil(): Request { ProcessRunner.Request("mokutil", 3000, 8192) }

  /** What libapt-pkg answers. */
  datatype Cache =
    | CacheError(message: string)
    | Cache(compiled: bool, opened_: bool, upgradable: seq<string>, broken: nat)

  /** The directory of package lists, and whether the newest of its files has a time and is more than a week old. */
  datatype Lists = NoDirectory | NoFiles | Undated | Dated(old_: bool)

  /** Everything else that the collectors find on the system. */
  datatype Host = Host(
    platform: Option<PlatformFacts>,
    cache: Cache,
    lists: Lists,
    sourcesList: Option<string>,
    sourcesDirectory: seq<Sources.File>,
    storage: StorageFacts,
    runningKernel: string,
    missingHeaders: seq<string>,
    initramfsIssues: seq<string>,
    reboot: RebootFacts)

  // ---- Outcomes ---------------------------------------------------------------------------------

  predicate Spawned(o: Outcome) {
    o.Ok? && !o.value.spawnFailed
  }

  predicate Succeeded(o: Outcome) {
    Spawned(o) && !o.value.timedOut && o.value.exitCode == 0
  }

  function Complaint(o: Outcome): string {
    if o.Ok? then o.value.failureMessage else o.message
  }

  function Filled(line: string): seq<string> {
    if line == "" then [] else [line]
  }

  /** The lines that are not empty. */
  function FilledLines(text: string): seq<string> {
    FlatMap(Filled, Lines(text))
  }

  method ReadLines(text: string) returns (result: seq<string>)
    ensures result == FilledLines(text)
  {
    var lines := Lines(text);
    result := [];
    for i := 0 to |lines|
      invariant result == FlatMap(Filled, lines[..i])
    {
      FlatMapMore(Filled, lines[..i], lines[i]);
      assert lines[..i + 1] == lines[..i] + [lines[i]];
      if lines[i] != "" {
        result := result + [lines[i]];
      }
    }
    assert lines[..|lines|] == lines;
  }

  // ---- What each collector adds to the facts ----------------------------------------------------

  function WithIssue(f: Facts, collector: string, message: string): Facts {
    f.(issues := f.issues + [CollectorIssue(collector, message)])
  }

  function AfterCache(f: Facts, cache: Cache): Facts {
    match cache
    case CacheError(message) => WithIssue(f, "libapt-pkg", message)
    case Cache(compiled, opened_, upgradable, broken) =>
      if !compiled then f
      else
        var p := f.packages.(cacheAvailable := opened_, upgradablePackages := upgradable);
        f.(packages := if broken == 0 then p else p.(brokenPackages := p.brokenPackages + [BrokenCount(broken)]))
  }

  function BrokenCount(n: nat): string {
    Json.Decimal(n) + " package(s) marked broken by libapt-pkg"
  }

  function AfterLists(f: Facts, lists: Lists): Facts {
    var p := f.packages;
    f.(packages :=
      match lists
      case NoDirectory => p
      case NoFiles => p.(cacheAvailable := true)
      case Undated => p.(cacheAvailable := true, cacheFreshKnown := false)
      case Dated(old_) => p.(cacheAvailable := true, cacheFreshKnown := true, cacheStale := old_))
  }

  /** The directory is asked whether it is empty although it is not there. */
  predicate ListsThrow(f: Facts, lists: Lists) {
    f.packages.cacheAvailable && lists.NoDirectory?
  }

  predicate AptThrows(f: Facts, host: Host) {
    ListsThrow(AfterCache(f, host.cache), host.lists)
  }

  predicate Essential(name: string) {
    name == "apt" || name == "dpkg" || name == "systemd" || name == "ubuntu-minimal"
  }

  function EssentialOnly(name: string): seq<string> {
    if Essential(name) then [name] else []
  }

  /** What a simulation would do. */
  datatype Plan = Plan(removals: seq<string>, installs: seq<string>, upgrades: seq<string>)

  function PlanOf(text: string): Plan {
    var lines := Lines(text);
    Plan(Section(lines, REMOVED_HEADING), Section(lines, INSTALLED_HEADING), Upgrades(lines))
  }

  function Planned(p: PackageFacts, plan: Plan): PackageFacts {
    p.(proposedRemovals := plan.removals, proposedInstalls := plan.installs, proposedUpgrades := plan.upgrades,
       upgradablePackages := if p.upgradablePackages == [] then plan.upgrades else p.upgradablePackages,
       essentialRemovals := p.essentialRemovals + FlatMap(EssentialOnly, plan.removals))
  }

  function Simulated(p: PackageFacts, plan: Plan, r: ProcessRunner.ProcessResult): PackageFacts {
    Planned(p, plan).(
      simulationPerformed := r.exitCode == 0,
      brokenPackages :=
        if Contains(r.stderrText, "Unmet dependencies") then p.brokenPackages + ["APT reported unmet dependencies"]
        else p.brokenPackages,
      simulationIncomplete := r.truncated || r.exitCode != 0)
  }

  function AfterSimulation(f: Facts, sim: Outcome): Facts {
    if Spawned(sim) && !sim.value.timedOut then
      f.(packages := Simulated(f.packages, PlanOf(sim.value.stdoutText), sim.value))
    else
      WithIssue(f.(packages := f.packages.(simulationIncomplete := true)), "apt", Complaint(sim))
  }

  function AfterDpkg(f: Facts, audit: Outcome, holds: Outcome): Facts {
    var f1 :=
      if Succeeded(audit) then f.(packages := f.packages.(dpkgAudit := FilledLines(audit.value.stdoutText)))
      else WithIssue(f, "dpkg", Complaint(audit));
    if Succeeded(holds) then f1.(packages := f1.packages.(heldPackages := FilledLines(holds.value.stdoutText)))
    else WithIssue(f1, "dpkg", Complaint(holds))
  }

  function AfterSources(f: Facts, main: Option<string>, directory: seq<Sources.File>): Facts {
    var p := f.packages;
    var r := Sources.NoteAll(Sources.Record(p.thirdPartySources, p.disabledSources, p.duplicateSources, {}),
                             Sources.Read(main, directory));
    f.(packages := p.(thirdPartySources := r.third, disabledSources := r.disabled, duplicateSources := r.duplicates))
  }

  function AfterKernel(f: Facts, host: Host, query: Outcome): Facts {
    var f1 := if Succeeded(query) then f else WithIssue(f, "kernel", "installed kernel package query did not complete");
    var installed := if Succeeded(query) then FilledLines(query.value.stdoutText) else f.kernel.installedKernels;
    f1.(kernel := KernelFacts(host.runningKernel, installed, f.kernel.missingHeaders + host.missingHeaders,
                              f.kernel.initramfsIssues + host.initramfsIssues, |installed| > 1))
  }

  function FailedOnly(line: string): seq<string> {
    if line != "" && (Contains(line, "bad") || Contains(line, "failed") || Contains(line, "broken")) then [line] else []
  }

  function UnfinishedOnly(line: string): seq<string> {
    if line != "" && (Contains(line, ": added") || Contains(line, ": built")) then [line] else []
  }

  function OddOnly(line: string): seq<string> {
    if line != "" && (',' !in line || ':' !in line) then [line] else []
  }

  function AfterDkms(f: Facts, status: Outcome): Facts {
    if !Spawned(status) then f.(dkms := f.dkms.(commandMissing := true))
    else
      var r := status.value;
      var f1 :=
        if r.timedOut || r.exitCode != 0 || r.truncated then
          WithIssue(f, "dkms", "dkms status did not complete successfully")
        else f;
      f1.(dkms := Classified(f.dkms.(installed := true), Lines(r.stdoutText)))
  }

  function Classified(d: DkmsFacts, lines: seq<string>): DkmsFacts {
    d.(modules := d.modules + FlatMap(Filled, lines),
       failedModules := d.failedModules + FlatMap(FailedOnly, lines),
       incompleteModules := d.incompleteModules + FlatMap(UnfinishedOnly, lines),
       parseErrors := d.parseErrors + FlatMap(OddOnly, lines))
  }

  function AfterSecureBoot(f: Facts, state: Outcome): Facts {
    f.(secureBoot :=
      if !Spawned(state) then f.secureBoot.(mokutilInstalled := false, stateUnknown := true)
      else
        var r := state.value;
        SecureBootFacts(true, Contains(r.stdoutText, "enabled"),
                        r.stdoutText == "" || r.exitCode != 0 || r.timedOut || r.truncated, r.stdoutText))
  }

  // ---- The snapshot, written in place -----------------------------------------------------------

  const NO_PACKAGES := PackageFacts(false, false, false, [], [], [], [], [], [], [], [], [], [], [], false, false)
  const NO_SPACE := SpaceFacts("", 0, false, false)

  function Blank(request: ScanRequest): Facts {
    Facts(request, None, NO_PACKAGES, StorageFacts(NO_SPACE, NO_SPACE, NO_SPACE), KernelFacts("", [], [], [], false),
          DkmsFacts(false, false, [], [], [], []), SecureBootFacts(false, false, true, ""),
          RebootFacts(false, [], false), [])
  }

  class Snapshot {
    const request: ScanRequest
    var platform: Option<PlatformFacts>
    var packages: PackageFacts
    var storage: StorageFacts
    var kernel: KernelFacts
    var dkms: DkmsFacts
    var secureBoot: SecureBootFacts
    var reboot: RebootFacts
    var issues: seq<CollectorIssue>

    constructor (request: ScanRequest)
      ensures State() == Blank(request)
    {
      this.request := request;
      platform, packages := None, NO_PACKAGES;
      storage := StorageFacts(NO_SPACE, NO_SPACE, NO_SPACE);
      kernel := KernelFacts("", [], [], [], false);
      dkms := DkmsFacts(false, false, [], [], [], []);
      secureBoot := SecureBootFacts(false, false, true, "");
      reboot := RebootFacts(false, [], false);
      issues := [];
    }

    function State(): Facts
      reads this
    {
      Facts(request, platform, packages, storage, kernel, dkms, secureBoot, reboot, issues)
    }

    method AddIssue(collector: string, message: string)
      modifies `issues
      ensures State() == WithIssue(old(State()), collector, message)
    {
      issues := issues + [CollectorIssue(collector, message)];
    }
  }

  /** A collector returns, or returns an error, or throws. */
  datatype Ending = Done | Failed(message: string) | Thrown

  method CollectPlatform(snapshot: Snapshot, host: Host) returns (ending: Ending)
    modifies snapshot
    ensures snapshot.State() == old(snapshot.State()).(platform := snapshot.platform)
    ensures snapshot.platform == if host.platform.Some? then host.platform else old(snapshot.platform)
    ensures ending == if host.platform.Some? then Done else Failed("could not read os-release")
  {
    if host.platform.None? {
      return Failed("could not read os-release");
    }
    snapshot.platform := host.platform;
    return Done;
  }

  method CollectCache(snapshot: Snapshot, cache: Cache)
    modifies snapshot
    ensures snapshot.State() == AfterCache(old(snapshot.State()), cache)
  {
    match cache {
      case CacheError(message) => snapshot.AddIssue("libapt-pkg", message);
      case Cache(compiled, opened_, upgradable, broken) =>
        if compiled {
          snapshot.packages := snapshot.packages.(cacheAvailable := opened_);
          snapshot.packages := snapshot.packages.(upgradablePackages := upgradable);
          if broken != 0 {
            var reasons := snapshot.packages.brokenPackages + [BrokenCount(broken)];
            snapshot.packages := snapshot.packages.(brokenPackages := reasons);
          }
        }
    }
  }

  method CollectLists(snapshot: Snapshot, lists: Lists) returns (thrown: bool)
    modifies snapshot
    ensures snapshot.State() == AfterLists(old(snapshot.State()), lists)
    ensures thrown == ListsThrow(old(snapshot.State()), lists)
  {
    snapshot.packages := snapshot.packages.(cacheAvailable := snapshot.packages.cacheAvailable || !lists.NoDirectory?);
    if snapshot.packages.cacheAvailable {
      if lists.NoDirectory? {
        return true;
      }
      if !lists.NoFiles? {
        snapshot.packages := snapshot.packages.(cacheFreshKnown := lists.Dated?);
        if snapshot.packages.cacheFreshKnown {
          snapshot.packages := snapshot.packages.(cacheStale := lists.old_);
        }
      }
    }
    return false;
  }

  method CollectApt(snapshot: Snapshot, run: Runner, host: Host) returns (ending: Ending)
    modifies snapshot
    ensures ending == if AptThrows(old(snapshot.State()), host) then Thrown else Done
    ensures ending == Done ==>
              snapshot.State() ==
                AfterSimulation(AfterLists(AfterCache(old(snapshot.State()), host.cache), host.lists), run(AptGet()))
  {
    CollectCache(snapshot, host.cache);
    var thrown := CollectLists(snapshot, host.lists);
    if thrown {
      return Thrown;
    }
    var sim := run(AptGet());
    if Spawned(sim) && !sim.value.timedOut {
      var plan := ParsePlan(sim.value.stdoutText);
      CollectSimulation(snapshot, plan, sim.value);
    } else {
      snapshot.packages := snapshot.packages.(simulationIncomplete := true);
      snapshot.AddIssue("apt", Complaint(sim));
    }
    ending := Done;
  }

  method FindEssential(removals: seq<string>) returns (essential: seq<string>)
    ensures essential == FlatMap(EssentialOnly, removals)
  {
    essential := [];
    for i := 0 to |removals|
      invariant essential == FlatMap(EssentialOnly, removals[..i])
    {
      FlatMapMore(EssentialOnly, removals[..i], removals[i]);
      assert removals[..i + 1] == removals[..i] + [removals[i]];
      if Essential(removals[i]) {
        essential := essential + [removals[i]];
      }
    }
    assert removals[..|removals|] == removals;
  }

  method ParsePlan(text: string) returns (plan: Plan)
    ensures plan == PlanOf(text)
  {
    var lines := Lines(text);
    var removals := ParseSection(lines, REMOVED_HEADING);
    var installs := ParseSection(lines, INSTALLED_HEADING);
    var upgrades := ParseInst(lines);
    plan := Plan(removals, installs, upgrades);
  }

  method CollectPlan(snapshot: Snapshot, plan: Plan)
    modifies snapshot`packages
    ensures snapshot.packages == Planned(old(snapshot.packages), plan)
  {
    var p := snapshot.packages;
    p := p.(proposedRemovals := plan.removals, proposedInstalls := plan.installs, proposedUpgrades := plan.upgrades);
    if p.upgradablePackages == [] {
      p := p.(upgradablePackages := plan.upgrades);
    }
    var essential := FindEssential(plan.removals);
    snapshot.packages := p.(essentialRemovals := p.essentialRemovals + essential);
  }

  method CollectSimulation(snapshot: Snapshot, plan: Plan, sim: ProcessRunner.ProcessResult)
    modifies snapshot`packages
    ensures snapshot.packages == Simulated(old(snapshot.packages), plan, sim)
  {
    CollectPlan(snapshot, plan);
    var p := snapshot.packages.(simulationPerformed := sim.exitCode == 0);
    if Contains(sim.stderrText, "Unmet dependencies") {
      p := p.(brokenPackages := p.brokenPackages + ["APT reported unmet dependencies"]);
    }
    snapshot.packages := p.(simulationIncomplete := sim.truncated || sim.exitCode != 0);
  }

  method CollectDpkg(snapshot: Snapshot, run: Runner) returns (ending: Ending)
    modifies snapshot
    ensures snapshot.State() == AfterDpkg(old(snapshot.State()), run(Dpkg()), run(AptMark()))
    ensures ending == Done
  {
    var audit := run(Dpkg());
    if Succeeded(audit) {
      var lines := ReadLines(audit.value.stdoutText);
      snapshot.packages := snapshot.packages.(dpkgAudit := lines);
    } else {
      snapshot.AddIssue("dpkg", Complaint(audit));
    }
    var holds := run(AptMark());
    if Succeeded(holds) {
      var lines := ReadLines(holds.value.stdoutText);
      snapshot.packages := snapshot.packages.(heldPackages := lines);
    } else {
      snapshot.AddIssue("dpkg", Complaint(holds));
    }
    ending := Done;
  }

  method CollectSources(snapshot: Snapshot, host: Host) returns (ending: Ending)
    modifies snapshot
    ensures snapshot.State() == AfterSources(old(snapshot.State()), host.sourcesList, host.sourcesDirectory)
    ensures ending == Done
  {
    var p := snapshot.packages;
    var reader := new Sources.Reader(p.thirdPartySources, p.disabledSources, p.duplicateSources);
    reader.Collect(host.sourcesList, host.sourcesDirectory);
    snapshot.packages := p.(thirdPartySources := reader.third, disabledSources := reader.disabled,
                            duplicateSources := reader.duplicates);
    ending := Done;
  }

  method CollectStorage(snapshot: Snapshot, host: Host) returns (ending: Ending)
    modifies snapshot
    ensures snapshot.State() == old(snapshot.State()).(storage := host.storage)
    ensures ending == Done
  {
    snapshot.storage := host.storage;
    ending := Done;
  }

  method CollectKernel(snapshot: Snapshot, run: Runner, host: Host) returns (ending: Ending)
    modifies snapshot
    ensures snapshot.State() == AfterKernel(old(snapshot.State()), host, run(DpkgQuery()))
    ensures ending == Done
  {
    snapshot.kernel := snapshot.kernel.(runningKernel := host.runningKernel);
    var query := run(DpkgQuery());
    if Succeeded(query) {
      var lines := ReadLines(query.value.stdoutText);
      snapshot.kernel := snapshot.kernel.(installedKernels := lines);
    } else {
      snapshot.AddIssue("kernel", "installed kernel package query did not complete");
    }
    snapshot.kernel := snapshot.kernel.(hasFallbackKernel := |snapshot.kernel.installedKernels| > 1);
    snapshot.kernel := snapshot.kernel.(missingHeaders := snapshot.kernel.missingHeaders + host.missingHeaders);
    snapshot.kernel := snapshot.kernel.(initramfsIssues := snapshot.kernel.initramfsIssues + host.initramfsIssues);
    ending := Done;
  }

  method CollectDkms(snapshot: Snapshot, run: Runner) returns (ending: Ending)
    modifies snapshot
    ensures snapshot.State() == AfterDkms(old(snapshot.State()), run(Dkms()))
    ensures ending == Done
  {
    ending := Done;
    var status := run(Dkms());
    if !Spawned(status) {
      snapshot.dkms := snapshot.dkms.(commandMissing := true);
      return;
    }
    snapshot.dkms := snapshot.dkms.(installed := true);
    if status.value.timedOut || status.value.exitCode != 0 || status.value.truncated {
      snapshot.AddIssue("dkms", "dkms status did not complete successfully");
    }
    ClassifyModules(snapshot, Lines(status.value.stdoutText));
  }

  method ClassifyModules(snapshot: Snapshot, lines: seq<string>)
    modifies snapshot`dkms
    ensures snapshot.dkms == Classified(old(snapshot.dkms), lines)
  {
    ghost var start := snapshot.dkms;
    for i := 0 to |lines|
      invariant snapshot.dkms == Classified(start, lines[..i])
    {
      var line := lines[i];
      ClassifiedMore(start, lines, i);
      if line == "" {
        continue;
      }
      snapshot.dkms := snapshot.dkms.(modules := snapshot.dkms.modules + [line]);
      if Contains(line, "bad") || Contains(line, "failed") || Contains(line, "broken") {
        snapshot.dkms := snapshot.dkms.(failedModules := snapshot.dkms.failedModules + [line]);
      }
      if Contains(line, ": added") || Contains(line, ": built") {
        snapshot.dkms := snapshot.dkms.(incompleteModules := snapshot.dkms.incompleteModules + [line]);
      }
      if ',' !in line || ':' !in line {
        snapshot.dkms := snapshot.dkms.(parseErrors := snapshot.dkms.parseErrors + [line]);
      }
    }
    assert lines[..|lines|] == lines;
  }

  lemma ClassifiedMore(d: DkmsFacts, lines: seq<string>, i: nat)
    requires i < |lines|
    ensures var e := Classified(d, lines[..i]);
      Classified(d, lines[..i + 1]) ==
        e.(modules := e.modules + Filled(lines[i]), failedModules := e.failedModules + FailedOnly(lines[i]),
           incompleteModules := e.incompleteModules + UnfinishedOnly(lines[i]),
           parseErrors := e.parseErrors + OddOnly(lines[i]))
  {
    assert lines[..i + 1] == lines[..i] + [lines[i]];
    FlatMapMore(Filled, lines[..i], lines[i]);
    FlatMapMore(FailedOnly, lines[..i], lines[i]);
    FlatMapMore(UnfinishedOnly, lines[..i], lines[i]);
    FlatMapMore(OddOnly, lines[..i], lines[i]);
  }

  method CollectSecureBoot(snapshot: Snapshot, run: Runner) returns (ending: Ending)
    modifies snapshot
    ensures snapshot.State() == AfterSecureBoot(old(snapshot.State()), run(Mokutil()))
    ensures ending == Done
  {
    ending := Done;
    var state := run(Mokutil());
    if !Spawned(state) {
      snapshot.secureBoot := snapshot.secureBoot.(mokutilInstalled := false);
      snapshot.secureBoot := snapshot.secureBoot.(stateUnknown := true);
      return;
    }
    var r := state.value;
    snapshot.secureBoot := snapshot.secureBoot.(mokutilInstalled := true);
    snapshot.secureBoot := snapshot.secureBoot.(rawState := r.stdoutText);
    snapshot.secureBoot := snapshot.secureBoot.(enabled := Contains(r.stdoutText, "enabled"));
    snapshot.secureBoot := snapshot.secureBoot.(
      stateUnknown := r.stdoutText == "" || r.exitCode != 0 || r.timedOut || r.truncated);
  }

  method CollectReboot(snapshot: Snapshot, host: Host) returns (ending: Ending)
    modifies snapshot
    ensures snapshot.State() == old(snapshot.State()).(reboot := host.reboot)
    ensures ending == Done
  {
    snapshot.reboot := host.reboot;
    ending := Done;
  }
}
