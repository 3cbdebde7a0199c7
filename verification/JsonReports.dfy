/** Reports survive being written as JSON: a reader of the text recovers what the report says. */
module JsonReports {
  import opened Domain
  import opened Json
  import opened JsonReporter
  import Redaction
  import Rewrite
  import opened Wrappers

  // ---- A reader of reports ----------------------------------------------------------------------

  /** What a printed report says. */
  datatype Printed = Printed(
    scanId: string,
    startedAt: string,
    completedAt: string,
    system: seq<string>,       // id, name, version, codename, architecture and kernel
    containerDetected: bool,
    targetRelease: string,
    overallStatus: ReadinessStatus,
    counts: seq<nat>,          // blockers, warnings, unknown and errors
    findings: seq<Finding>,
    limitations: seq<string>)

  const HEADER_FIELDS := ["schema_version", "tool_version", "scan_id", "started_at", "completed_at"]
  const BODY_FIELDS :=
    ["current_system", "target_release", "overall_status", "summary", "findings", "limitations", "privacy"]
  const SYSTEM_FIELDS :=
    ["id", "name", "version_id", "codename", "architecture", "kernel_release", "container_detected"]
  const SUMMARY_FIELDS := ["blockers", "warnings", "unknown", "errors"]
  const FINDING_FIELDS :=
    ["id", "status", "severity", "title", "explanation", "evidence", "recommendation", "confidence",
     "collector_complete", "documentation_ref"]
  const EVIDENCE_FIELDS := ["label", "value"]

  predicate Named(ms: Members, names: seq<string>) {
    |ms| == |names| && forall k :: 0 <= k < |ms| ==> ms[k].0 == names[k]
  }

  function ReadCheck(name: string): Option<CheckStatus> {
    if name == "passed" then Some(Passed) else if name == "warning" then Some(Warning)
    else if name == "blocked" then Some(Blocked) else if name == "unknown" then Some(Unknown)
    else if name == "error" then Some(Error) else None
  }

  function ReadSeverity(name: string): Option<Severity> {
    if name == "info" then Some(Info) else if name == "warning" then Some(Caution)
    else if name == "blocker" then Some(Blocker) else None
  }

  function ReadConfidence(name: string): Option<Confidence> {
    if name == "low" then Some(Low) else if name == "medium" then Some(Medium)
    else if name == "high" then Some(High) else None
  }

  function ReadOverall(name: string): Option<ReadinessStatus> {
    if name == "ready" then Some(Ready) else if name == "ready_with_warnings" then Some(ReadyWithWarnings)
    else if name == "blocked" then Some(NotReady) else if name == "incomplete" then Some(Incomplete) else None
  }

  lemma NamesReadBack(check: CheckStatus, severity: Severity, confidence: Confidence, overall: ReadinessStatus)
    ensures ReadCheck(CheckName(check)) == Some(check)
    ensures ReadSeverity(SeverityName(severity)) == Some(severity)
    ensures ReadConfidence(ConfidenceName(confidence)) == Some(confidence)
    ensures ReadOverall(OverallName(overall)) == Some(overall)
  {
  }

  function ReadStrings(vs: seq<Value>): Option<seq<string>> {
    if forall k :: 0 <= k < |vs| ==> vs[k].Str? then
      Some(seq(|vs|, k requires 0 <= k < |vs| && vs[k].Str? => vs[k].s))
    else None
  }

  function ReadNumbers(vs: seq<Value>): Option<seq<nat>> {
    if forall k :: 0 <= k < |vs| ==> vs[k].Num? then
      Some(seq(|vs|, k requires 0 <= k < |vs| && vs[k].Num? => vs[k].n))
    else None
  }

  function Values(ms: Members): seq<Value> {
    seq(|ms|, k requires 0 <= k < |ms| => ms[k].1)
  }

  function ReadEvidence(v: Value): Option<Evidence> {
    if v.Obj? && Named(v.members, EVIDENCE_FIELDS) && v.members[0].1.Str? && v.members[1].1.Str? then
      Some(Evidence(v.members[0].1.s, v.members[1].1.s))
    else None
  }

  function ReadEvidenceList(vs: seq<Value>): Option<seq<Evidence>> {
    if vs == [] then Some([])
    else match (ReadEvidence(vs[0]), ReadEvidenceList(vs[1..]))
      case (Some(e), Some(es)) => Some([e] + es)
      case _ => None
  }

  function ReadFinding(v: Value): Option<Finding> {
    if !(v.Obj? && Named(v.members, FINDING_FIELDS)) then None
    else
      var vs := Values(v.members);
      if !(vs[5].Arr? && vs[8].Bool?) then None
      else match (ReadStrings(vs[..5]), ReadStrings([vs[6], vs[7], vs[9]]), ReadEvidenceList(vs[5].items))
        case (Some(a), Some(b), Some(evidence)) =>
          (match (ReadCheck(a[1]), ReadSeverity(a[2]), ReadConfidence(b[1]))
           case (Some(status), Some(severity), Some(confidence)) =>
             Some(Finding(a[0], status, severity, a[3], a[4], evidence, b[0], confidence, vs[8].b, b[2]))
           case _ => None)
        case _ => None
  }

  function ReadFindings(vs: seq<Value>): Option<seq<Finding>> {
    if vs == [] then Some([])
    else match (ReadFinding(vs[0]), ReadFindings(vs[1..]))
      case (Some(f), Some(fs)) => Some([f] + fs)
      case _ => None
  }

  function ReadSheet(v: Value): Option<Printed> {
    if !(v.Obj? && Named(v.members, HEADER_FIELDS + BODY_FIELDS)) then None
    else
      var vs := Values(v.members);
      if !(vs[5].Obj? && Named(vs[5].members, SYSTEM_FIELDS) && vs[5].members[6].1.Bool?) then None
      else if !(vs[8].Obj? && Named(vs[8].members, SUMMARY_FIELDS) && vs[9].Arr? && vs[10].Arr?) then None
      else match (ReadStrings(vs[..5]), ReadStrings(Values(vs[5].members)[..6]), ReadStrings(vs[6..8]))
        case (Some(header), Some(system), Some(body)) =>
          var counts := ReadNumbers(Values(vs[8].members));
          (match (ReadOverall(body[1]), counts, ReadFindings(vs[9].items), ReadStrings(vs[10].items))
           case (Some(overall), Some(counts), Some(findings), Some(limitations)) =>
             Some(Printed(header[2], header[3], header[4], system, vs[5].members[6].1.b, body[0], overall, counts,
                          findings, limitations))
           case _ => None)
        case _ => None
  }

  /** Parse a text as JSON and take it for a report. */
  function ReadReport(text: string): Option<Printed> {
    match ParseDocument(text)
    case None => None
    case Some(v) => ReadSheet(v)
  }

  // ---- What it should see -----------------------------------------------------------------------

  function ShownEvidence(redact: Redactor, evidence: seq<Evidence>): seq<Evidence> {
    if evidence == [] then []
    else [Evidence(Strip(redact(evidence[0].caption)), Strip(redact(evidence[0].text)))] +
         ShownEvidence(redact, evidence[1..])
  }

  /** A finding without carriage returns and with its evidence redacted. */
  function ShownFinding(redact: Redactor, f: Finding): Finding {
    f.(title := Strip(f.title),
       explanation := Strip(f.explanation),
       evidence := ShownEvidence(redact, f.evidence),
       recommendation := Strip(f.recommendation),
       documentationRef := Strip(f.documentationRef))
  }

  function ShownFindings(redact: Redactor, fs: seq<Finding>): seq<Finding> {
    if fs == [] then [] else [ShownFinding(redact, fs[0])] + ShownFindings(redact, fs[1..])
  }

  function Stripped(texts: seq<string>): seq<string> {
    seq(|texts|, k requires 0 <= k < |texts| => Strip(texts[k]))
  }

  function SystemTexts(platform: PlatformFacts): seq<string> {
    var d := platform.distribution;
    Stripped([d.id, d.name, d.versionId, d.codename, platform.architecture, platform.kernelVersion])
  }

  function Counts(findings: seq<Finding>): seq<nat> {
    [CountStatus(findings, Blocked), CountStatus(findings, Warning), CountStatus(findings, Unknown),
     CountStatus(findings, Error)]
  }

  function Shown(redact: Redactor, r: ScanReport): Printed {
    Printed(
      Strip(r.scanId), r.startedAt, r.completedAt,
      SystemTexts(r.platform),
      r.platform.containerDetected, Strip(r.request.targetRelease), r.overallStatus,
      Counts(r.findings),
      ShownFindings(redact, r.findings), Stripped(r.limitations))
  }

  // ---- The reader sees it -----------------------------------------------------------------------

  lemma {:induction false} SeenMembersAt(ms: Members)
    ensures |SeenMembers(ms)| == |ms| && forall k :: 0 <= k < |ms| ==> SeenMembers(ms)[k] == (ms[k].0, Seen(ms[k].1))
  {
    if ms != [] {
      SeenMembersAt(ms[1..]);
      forall k | 0 < k < |ms|
        ensures SeenMembers(ms)[k] == (ms[k].0, Seen(ms[k].1))
      {
        assert SeenMembers(ms)[k] == SeenMembers(ms[1..])[k - 1];
      }
    }
  }

  lemma {:induction false} SeenItemsAt(items: seq<Value>)
    ensures |SeenItems(items)| == |items| && forall k :: 0 <= k < |items| ==> SeenItems(items)[k] == Seen(items[k])
  {
    if items != [] {
      SeenItemsAt(items[1..]);
      forall k | 0 < k < |items|
        ensures SeenItems(items)[k] == Seen(items[k])
      {
        assert SeenItems(items)[k] == SeenItems(items[1..])[k - 1];
      }
    }
  }

  lemma EvidenceReads(redact: Redactor, e: Evidence)
    ensures ReadEvidence(Seen(Obj(EvidenceMembers(redact, e)))) ==
              Some(Evidence(Strip(redact(e.caption)), Strip(redact(e.text))))
  {
    SeenMembersAt(EvidenceMembers(redact, e));
  }

  lemma {:induction false} EvidenceListReads(redact: Redactor, evidence: seq<Evidence>)
    ensures ReadEvidenceList(SeenItems(EvidenceValues(redact, evidence))) == Some(ShownEvidence(redact, evidence))
  {
    var vs := EvidenceValues(redact, evidence);
    if evidence != [] {
      EvidenceReads(redact, evidence[0]);
      EvidenceListReads(redact, evidence[1..]);
      assert vs[1..] == EvidenceValues(redact, evidence[1..]);
      assert SeenItems(vs) == [Seen(vs[0])] + SeenItems(vs[1..]);
      assert SeenItems(vs)[1..] == SeenItems(vs[1..]);
    }
  }

  lemma FindingIsNamed(redact: Redactor, f: Finding)
    ensures Named(SeenMembers(FindingMembers(redact, f)), FINDING_FIELDS)
  {
    SeenMembersAt(FindingMembers(redact, f));
  }

  lemma FindingStringsRead(redact: Redactor, f: Finding)
    ensures var vs := Values(SeenMembers(FindingMembers(redact, f)));
      && |vs| == 10
      && ReadStrings(vs[..5]) ==
           Some([f.id, CheckName(f.status), SeverityName(f.severity), Strip(f.title), Strip(f.explanation)])
      && ReadStrings([vs[6], vs[7], vs[9]]) ==
           Some([Strip(f.recommendation), ConfidenceName(f.confidence), Strip(f.documentationRef)])
      && vs[5] == Arr(SeenItems(EvidenceValues(redact, f.evidence)))
      && vs[8] == Bool(f.collectorComplete)
  {
    SeenMembersAt(FindingMembers(redact, f));
    var vs := Values(SeenMembers(FindingMembers(redact, f)));
    StringsRead(vs[..5], [f.id, CheckName(f.status), SeverityName(f.severity), Strip(f.title), Strip(f.explanation)]);
    StringsRead([vs[6], vs[7], vs[9]],
      [Strip(f.recommendation), ConfidenceName(f.confidence), Strip(f.documentationRef)]);
  }

  lemma FindingReads(redact: Redactor, f: Finding)
    ensures ReadFinding(Seen(Obj(FindingMembers(redact, f)))) == Some(ShownFinding(redact, f))
  {
    FindingIsNamed(redact, f);
    FindingStringsRead(redact, f);
    EvidenceListReads(redact, f.evidence);
    NamesReadBack(f.status, f.severity, f.confidence, Ready);
  }

  lemma {:induction false} FindingsRead(redact: Redactor, fs: seq<Finding>)
    ensures ReadFindings(SeenItems(FindingValues(redact, fs))) == Some(ShownFindings(redact, fs))
  {
    var vs := FindingValues(redact, fs);
    if fs != [] {
      FindingReads(redact, fs[0]);
      FindingsRead(redact, fs[1..]);
      assert vs[1..] == FindingValues(redact, fs[1..]);
      assert SeenItems(vs) == [Seen(vs[0])] + SeenItems(vs[1..]);
      assert SeenItems(vs)[1..] == SeenItems(vs[1..]);
    }
  }

  lemma StringsRead(vs: seq<Value>, texts: seq<string>)
    requires |vs| == |texts| && forall k :: 0 <= k < |vs| ==> vs[k] == Str(texts[k])
    ensures ReadStrings(vs) == Some(texts)
  {
    assert ReadStrings(vs).Some? && ReadStrings(vs).value == texts;
  }

  lemma NumbersRead(vs: seq<Value>, counts: seq<nat>)
    requires |vs| == |counts| && forall k :: 0 <= k < |vs| ==> vs[k] == Num(counts[k])
    ensures ReadNumbers(vs) == Some(counts)
  {
    assert ReadNumbers(vs).Some? && ReadNumbers(vs).value == counts;
  }

  lemma HeaderReads(report: ScanReport)
    ensures Named(SeenMembers(Header(report)), HEADER_FIELDS)
    ensures ReadStrings(Values(SeenMembers(Header(report)))) ==
              Some(["1.0", TOOL_VERSION, Strip(report.scanId), report.startedAt, report.completedAt])
  {
    SeenMembersAt(Header(report));
    StringsRead(Values(SeenMembers(Header(report))),
      ["1.0", TOOL_VERSION, Strip(report.scanId), report.startedAt, report.completedAt]);
  }

  lemma SystemReads(platform: PlatformFacts)
    ensures var ms := SeenMembers(System(platform));
      Named(ms, SYSTEM_FIELDS) && ms[6].1 == Bool(platform.containerDetected) &&
      ReadStrings(Values(ms)[..6]) == Some(SystemTexts(platform))
  {
    SeenMembersAt(System(platform));
    StringsRead(Values(SeenMembers(System(platform)))[..6], SystemTexts(platform));
  }

  lemma SummaryReads(findings: seq<Finding>)
    ensures var ms := SeenMembers(Summary(findings));
      Named(ms, SUMMARY_FIELDS) && ReadNumbers(Values(ms)) == Some(Counts(findings))
  {
    SeenMembersAt(Summary(findings));
    NumbersRead(Values(SeenMembers(Summary(findings))), Counts(findings));
  }

  lemma TextsRead(texts: seq<string>)
    ensures ReadStrings(SeenItems(Texts(texts))) == Some(Stripped(texts))
  {
    SeenItemsAt(Texts(texts));
    StringsRead(SeenItems(Texts(texts)), Stripped(texts));
  }

  lemma SheetIsNamed(redact: Redactor, report: ScanReport)
    ensures Named(SeenMembers(Sheet(redact, report)), HEADER_FIELDS + BODY_FIELDS)
  {
    SeenMembersAt(Sheet(redact, report));
  }

  lemma SheetValues(redact: Redactor, report: ScanReport)
    ensures var vs := Values(SeenMembers(Sheet(redact, report)));
      && |vs| == 12
      && vs[5] == Obj(SeenMembers(System(report.platform)))
      && vs[6..8] == [Str(Strip(report.request.targetRelease)), Str(OverallName(report.overallStatus))]
      && vs[8] == Obj(SeenMembers(Summary(report.findings)))
      && vs[9] == Arr(SeenItems(FindingValues(redact, report.findings)))
      && vs[10] == Arr(SeenItems(Texts(report.limitations)))
  {
    hide System, Summary, FindingValues, Texts, Privacy, SeenItems, SeenMembers;
    SeenMembersAt(Sheet(redact, report));
    var vs := Values(SeenMembers(Sheet(redact, report)));
    assert vs[6..8] == [vs[6], vs[7]];
  }

  lemma SheetStartsWithHeader(redact: Redactor, report: ScanReport)
    ensures var vs := Values(SeenMembers(Sheet(redact, report)));
            |vs| == 12 && vs[..5] == Values(SeenMembers(Header(report)))
  {
    SeenMembersAt(Sheet(redact, report));
    SeenMembersAt(Header(report));
  }

  lemma SheetReads(redact: Redactor, report: ScanReport)
    ensures ReadSheet(Seen(Obj(Sheet(redact, report)))) == Some(Shown(redact, report))
  {
    hide Sheet, System, Summary, FindingValues, Texts, SeenItems, SeenMembers, Counts;
    hide ReadStrings, ReadNumbers, ReadFindings, ReadOverall, Strip, Stripped, ShownFindings, SystemTexts;
    SheetIsNamed(redact, report);
    SheetValues(redact, report);
    SheetStartsWithHeader(redact, report);
    HeaderReads(report);
    SystemReads(report.platform);
    SummaryReads(report.findings);
    FindingsRead(redact, report.findings);
    TextsRead(report.limitations);
    NamesReadBack(Passed, Info, Low, report.overallStatus);
    var body := [Strip(report.request.targetRelease), OverallName(report.overallStatus)];
    StringsRead([Str(body[0]), Str(body[1])], body);
  }

  // ---- Which reports can be read ----------------------------------------------------------------

  /** The strings that are written as they are: identifiers of findings and the two times. */
  predicate RawIsPlain(report: ScanReport) {
    && Plain(report.startedAt) && Plain(report.completedAt)
    && forall f :: f in report.findings ==> Plain(f.id)
  }

  predicate EvidenceEscapable(redact: Redactor, e: Evidence) {
    Escapable(redact(e.caption)) && Escapable(redact(e.text))
  }

  predicate FindingEscapable(redact: Redactor, f: Finding) {
    && Escapable(f.title) && Escapable(f.explanation) && Escapable(f.recommendation) && Escapable(f.documentationRef)
    && forall e :: e in f.evidence ==> EvidenceEscapable(redact, e)
  }

  predicate SystemEscapable(platform: PlatformFacts) {
    var d := platform.distribution;
    && Escapable(d.id) && Escapable(d.name) && Escapable(d.versionId) && Escapable(d.codename)
    && Escapable(platform.architecture) && Escapable(platform.kernelVersion)
  }

  /** No text of the report has a control character other than line feed and carriage return. */
  predicate ReportEscapable(redact: Redactor, report: ScanReport) {
    && Escapable(report.scanId) && SystemEscapable(report.platform) && Escapable(report.request.targetRelease)
    && (forall f :: f in report.findings ==> FindingEscapable(redact, f))
    && (forall l :: l in report.limitations ==> Escapable(l))
  }

  lemma {:induction false} CleanMembersAt(ms: Members)
    ensures CleanMembers(ms) <==> forall k :: 0 <= k < |ms| ==> Clean(ms[k].1)
  {
    if ms != [] {
      CleanMembersAt(ms[1..]);
      assert forall k :: 0 < k < |ms| ==> ms[1..][k - 1] == ms[k];
    }
  }

  lemma {:induction false} CleanItemsAt(items: seq<Value>)
    ensures CleanItems(items) <==> forall k :: 0 <= k < |items| ==> Clean(items[k])
  {
    if items != [] {
      CleanItemsAt(items[1..]);
      assert forall k :: 0 < k < |items| ==> items[1..][k - 1] == items[k];
    }
  }

  lemma {:induction false} WellMadeMembersAt(ms: Members)
    requires forall k :: 0 <= k < |ms| ==> WellMadeMember(ms[k])
    ensures WellMadeMembers(ms)
  {
    if ms != [] { WellMadeMembersAt(ms[1..]); }
  }

  lemma {:induction false} WellMadeItemsAt(items: seq<Value>)
    requires forall k :: 0 <= k < |items| ==> WellMade(items[k])
    ensures WellMadeItems(items)
  {
    if items != [] { WellMadeItemsAt(items[1..]); }
  }

  lemma EvidenceIsClean(redact: Redactor, evidence: seq<Evidence>)
    ensures CleanItems(EvidenceValues(redact, evidence)) <==> forall e :: e in evidence ==> EvidenceEscapable(redact, e)
    ensures WellMadeItems(EvidenceValues(redact, evidence))
  {
    var vs := EvidenceValues(redact, evidence);
    forall k | 0 <= k < |vs|
      ensures Clean(vs[k]) <==> EvidenceEscapable(redact, evidence[k])
      ensures WellMade(vs[k])
    {
      CleanMembersAt(EvidenceMembers(redact, evidence[k]));
      WellMadeMembersAt(EvidenceMembers(redact, evidence[k]));
    }
    CleanItemsAt(vs);
    WellMadeItemsAt(vs);
  }

  lemma FindingIsClean(redact: Redactor, f: Finding)
    ensures Clean(Obj(FindingMembers(redact, f))) <==> FindingEscapable(redact, f)
  {
    EvidenceIsClean(redact, f.evidence);
    var ms := FindingMembers(redact, f);
    CleanMembersAt(ms);
    assert Clean(Obj(ms)) ==> Clean(ms[3].1) && Clean(ms[4].1) && Clean(ms[5].1) && Clean(ms[6].1) && Clean(ms[9].1);
  }

  lemma FindingIsWellMade(redact: Redactor, f: Finding)
    requires Plain(f.id)
    ensures WellMade(Obj(FindingMembers(redact, f)))
  {
    var ms := FindingMembers(redact, f);
    VerdictIsWellMade(f);
    GroundsAreWellMade(redact, f);
    forall k | 0 <= k < |ms|
      ensures WellMadeMember(ms[k])
    {
      assert k < 5 ==> ms[k] == Verdict(f)[k];
      assert k >= 5 ==> ms[k] == ms[5..][k - 5];
    }
    WellMadeMembersAt(ms);
  }

  lemma VerdictIsWellMade(f: Finding)
    requires Plain(f.id)
    ensures forall k :: 0 <= k < 5 ==> WellMadeMember(Verdict(f)[k])
  {
  }

  lemma GroundsAreWellMade(redact: Redactor, f: Finding)
    ensures var ms := FindingMembers(redact, f)[5..]; forall k :: 0 <= k < |ms| ==> WellMadeMember(ms[k])
  {
    hide EvidenceValues, Esc;
    EvidenceIsClean(redact, f.evidence);
  }

  lemma FindingsAreClean(redact: Redactor, fs: seq<Finding>)
    ensures CleanItems(FindingValues(redact, fs)) <==> forall f :: f in fs ==> FindingEscapable(redact, f)
    ensures (forall f :: f in fs ==> Plain(f.id)) ==> WellMadeItems(FindingValues(redact, fs))
  {
    var vs := FindingValues(redact, fs);
    forall k | 0 <= k < |vs|
      ensures Clean(vs[k]) <==> FindingEscapable(redact, fs[k])
      ensures Plain(fs[k].id) ==> WellMade(vs[k])
    {
      FindingIsClean(redact, fs[k]);
      if Plain(fs[k].id) { FindingIsWellMade(redact, fs[k]); }
    }
    CleanItemsAt(vs);
    if forall f :: f in fs ==> Plain(f.id) { WellMadeItemsAt(vs); }
  }

  lemma TextsAreClean(texts: seq<string>)
    ensures CleanItems(Texts(texts)) <==> forall l :: l in texts ==> Escapable(l)
    ensures WellMadeItems(Texts(texts))
  {
    CleanItemsAt(Texts(texts));
    WellMadeItemsAt(Texts(texts));
    assert forall k :: 0 <= k < |texts| ==> (Clean(Texts(texts)[k]) <==> Escapable(texts[k]));
  }

  lemma SystemIsClean(platform: PlatformFacts)
    ensures Clean(Obj(System(platform))) <==> SystemEscapable(platform)
    ensures WellMade(Obj(System(platform)))
  {
    hide Escapable;
    SystemIsWellMade(platform);
    var ms := System(platform);
    CleanMembersAt(ms);
    assert CleanMembers(ms) ==> Clean(ms[0].1) && Clean(ms[1].1) && Clean(ms[2].1);
    assert CleanMembers(ms) ==> Clean(ms[3].1) && Clean(ms[4].1) && Clean(ms[5].1);
  }

  lemma SystemNamesArePlain()
    ensures forall k :: 0 <= k < |SYSTEM_FIELDS| ==> Plain(SYSTEM_FIELDS[k])
  {
  }

  lemma SystemIsWellMade(platform: PlatformFacts)
    ensures WellMade(Obj(System(platform)))
  {
    hide WellMadeMembers, Plain;
    var ms := System(platform);
    SystemNamesArePlain();
    forall k | 0 <= k < |ms|
      ensures WellMadeMember(ms[k])
    {
      assert ms[k].0 == SYSTEM_FIELDS[k];
    }
    WellMadeMembersAt(ms);
  }

  lemma SmallPartsAreClean(findings: seq<Finding>)
    ensures Clean(Obj(Summary(findings))) && WellMade(Obj(Summary(findings)))
    ensures Clean(Obj(Privacy())) && WellMade(Obj(Privacy()))
  {
    CleanMembersAt(Summary(findings));
    WellMadeMembersAt(Summary(findings));
    CleanMembersAt(Privacy());
    WellMadeMembersAt(Privacy());
  }

  lemma SheetIsClean(redact: Redactor, report: ScanReport)
    ensures Clean(Obj(Sheet(redact, report))) <==> ReportEscapable(redact, report)
  {
    CleanJoins(Header(report), Body(redact, report));
    HeaderIsClean(report);
    BodyIsClean(redact, report);
  }

  lemma CleanJoins(a: Members, b: Members)
    ensures CleanMembers(a + b) <==> CleanMembers(a) && CleanMembers(b)
  {
    CleanMembersAt(a + b);
    CleanMembersAt(a);
    CleanMembersAt(b);
    assert forall k :: 0 <= k < |a| ==> (a + b)[k] == a[k];
    assert forall k :: 0 <= k < |b| ==> (a + b)[|a| + k] == b[k];
  }

  lemma HeaderIsClean(report: ScanReport)
    ensures CleanMembers(Header(report)) <==> Escapable(report.scanId)
  {
    CleanMembersAt(Header(report));
    assert Clean(Header(report)[2].1) == Escapable(report.scanId);
  }

  lemma BodyIsClean(redact: Redactor, report: ScanReport)
    ensures CleanMembers(Body(redact, report)) <==>
              && SystemEscapable(report.platform) && Escapable(report.request.targetRelease)
              && (forall f :: f in report.findings ==> FindingEscapable(redact, f))
              && (forall l :: l in report.limitations ==> Escapable(l))
  {
    hide System, Summary, FindingValues, Texts, Privacy, CleanItems, CleanMembers;
    hide SystemEscapable, FindingEscapable, Escapable;
    SystemIsClean(report.platform);
    SmallPartsAreClean(report.findings);
    FindingsAreClean(redact, report.findings);
    TextsAreClean(report.limitations);
    var ms := Body(redact, report);
    CleanMembersAt(ms);
    assert CleanMembers(ms) ==> Clean(ms[0].1) && Clean(ms[1].1) && Clean(ms[4].1) && Clean(ms[5].1);
  }

  lemma SheetIsWellMade(redact: Redactor, report: ScanReport)
    requires RawIsPlain(report)
    ensures WellMade(Obj(Sheet(redact, report)))
  {
    var ms := Sheet(redact, report);
    HeaderIsWellMade(report);
    BodyIsWellMade(redact, report);
    forall k | 0 <= k < |ms|
      ensures WellMadeMember(ms[k])
    {
      assert k < 5 ==> ms[k] == Header(report)[k];
      assert k >= 5 ==> ms[k] == Body(redact, report)[k - 5];
    }
    WellMadeMembersAt(ms);
  }

  lemma HeaderIsWellMade(report: ScanReport)
    requires RawIsPlain(report)
    ensures forall k :: 0 <= k < 5 ==> WellMadeMember(Header(report)[k])
  {
  }

  lemma BodyIsWellMade(redact: Redactor, report: ScanReport)
    requires RawIsPlain(report)
    ensures var body := Body(redact, report); forall k :: 0 <= k < |body| ==> WellMadeMember(body[k])
  {
    var body := Body(redact, report);
    BodyNamesArePlain();
    forall k | 0 <= k < |body|
      ensures body[k].0 == BODY_FIELDS[k] && WellMade(body[k].1)
    {
      BodyValueIsWellMade(redact, report, k);
    }
  }

  lemma BodyNamesArePlain()
    ensures forall k :: 0 <= k < |BODY_FIELDS| ==> Plain(BODY_FIELDS[k])
  {
  }

  lemma OverallIsPlain(overall: ReadinessStatus)
    ensures Plain(OverallName(overall))
  {
  }

  lemma BodyValueIsWellMade(redact: Redactor, report: ScanReport, k: nat)
    requires RawIsPlain(report) && k < 7
    ensures Body(redact, report)[k].0 == BODY_FIELDS[k] && WellMade(Body(redact, report)[k].1)
  {
    hide System, Summary, FindingValues, Texts, Privacy, OverallName, WellMadeMembers, WellMadeItems;
    SystemIsClean(report.platform);
    SmallPartsAreClean(report.findings);
    FindingsAreClean(redact, report.findings);
    TextsAreClean(report.limitations);
    OverallIsPlain(report.overallStatus);
    assert WellMade(Raw(OverallName(report.overallStatus)));
    var body := Body(redact, report);
    assert body[0].1 == Obj(System(report.platform)) && body[3].1 == Obj(Summary(report.findings));
    assert body[4].1 == Arr(FindingValues(redact, report.findings)) && body[5].1 == Arr(Texts(report.limitations));
    assert body[6].1 == Obj(Privacy());
  }

  // ---- Print, then read -------------------------------------------------------------------------

  /**
   Reading a printed report gives back what it says, if no text keeps a control character that the
   printer neither escapes nor drops; otherwise the text is no JSON at all.
   */
  lemma ReportReadsBack(redact: Redactor, report: ScanReport)
    requires RawIsPlain(report)
    ensures ReadReport(Document(Sheet(redact, report))) ==
              if ReportEscapable(redact, report) then Some(Shown(redact, report)) else None
  {
    var ms := Sheet(redact, report);
    SheetIsWellMade(redact, report);
    SheetIsClean(redact, report);
    DocumentReadsBack(ms);
    SheetReads(redact, report);
  }

  // ---- With the redaction in use ----------------------------------------------------------------

  /**
   With the redaction in use, every report whose own texts have no other control character than line feed
   and carriage return is read back: redaction brings no new ones in.
   */
  lemma PrintedReportReadsBack(report: ScanReport)
    requires RawIsPlain(report) && ReportEscapable(s => s, report)
    ensures ReadReport(Document(Sheet(Redaction.Redact, report))) == Some(Shown(Redaction.Redact, report))
  {
    forall f, e | f in report.findings && e in f.evidence
      ensures EvidenceEscapable(Redaction.Redact, e)
    {
      assert EvidenceEscapable(s => s, e);
      RedactKeepsEscapable(e.caption);
      RedactKeepsEscapable(e.text);
    }
    ReportReadsBack(Redaction.Redact, report);
  }

  lemma RedactKeepsEscapable(s: string)
    requires Escapable(s)
    ensures Escapable(Redaction.Redact(s))
  {
    hide Redaction.Redact;
    var p := (c: char) => IsControl(c) ==> c == '\n' || c == '\r';
    assert Rewrite.All(p, s);
    FillsHave(p);
    Redaction.RedactKeeps(p, s);
    AllEscapable(p, Redaction.Redact(s));
  }

  /** The replacements are made of characters that need no escaping. */
  lemma FillsHave(p: char -> bool)
    requires forall c :: !IsControl(c) ==> p(c)
    ensures Rewrite.All(p, Redaction.REDACTED_AT) && Rewrite.All(p, Redaction.REDACTED_HOST)
    ensures Rewrite.All(p, Redaction.REDACTED_IP)
  {
  }

  lemma AllEscapable(p: char -> bool, s: string)
    requires Rewrite.All(p, s) && forall c :: p(c) ==> (IsControl(c) ==> c == '\n' || c == '\r')
    ensures Escapable(s)
  {
  }
}
