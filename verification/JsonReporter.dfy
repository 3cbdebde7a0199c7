/**
 The JSON reporter. It writes a report by hand, piece by piece; here the text is proved to be the rendering
 of a JSON object, and a reader of JSON to recover the report from it.
 */
module JsonReporter {
  import opened Domain
  import opened Json
  import Redaction

  /** What is done to evidence before it is written. */
  type Redactor = string -> string

  // ---- Names of the enumerators -----------------------------------------------------------------

  function CheckName(value: CheckStatus): string {
    match value
    case Passed => "passed"
    case Warning => "warning"
    case Blocked => "blocked"
    case Unknown => "unknown"
    case Error => "error"
  }

  function SeverityName(value: Severity): string {
    match value
    case Info => "info"
    case Caution => "warning"
    case Blocker => "blocker"
  }

  function ConfidenceName(value: Confidence): string {
    match value
    case Low => "low"
    case Medium => "medium"
    case High => "high"
  }

  function OverallName(value: ReadinessStatus): string {
    match value
    case Ready => "ready"
    case ReadyWithWarnings => "ready_with_warnings"
    case NotReady => "blocked"
    case Incomplete => "incomplete"
  }

  // ---- The object that a report is written as ---------------------------------------------------

  type Members = seq<(string, Value)>

  function Header(report: ScanReport): Members {
    [("schema_version", Raw("1.0")),
     ("tool_version", Raw(TOOL_VERSION)),
     ("scan_id", Str(report.scanId)),
     ("started_at", Raw(report.startedAt)),
     ("completed_at", Raw(report.completedAt))]
  }

  function System(platform: PlatformFacts): Members {
    [("id", Str(platform.distribution.id)),
     ("name", Str(platform.distribution.name)),
     ("version_id", Str(platform.distribution.versionId)),
     ("codename", Str(platform.distribution.codename)),
     ("architecture", Str(platform.architecture)),
     ("kernel_release", Str(platform.kernelVersion)),
     ("container_detected", Bool(platform.containerDetected))]
  }

  function Summary(findings: seq<Finding>): Members {
    [("blockers", Num(CountStatus(findings, Blocked))),
     ("warnings", Num(CountStatus(findings, Warning))),
     ("unknown", Num(CountStatus(findings, Unknown))),
     ("errors", Num(CountStatus(findings, Error)))]
  }

  function EvidenceMembers(redact: Redactor, e: Evidence): Members {
    [("label", Str(redact(e.caption))), ("value", Str(redact(e.text)))]
  }

  function EvidenceValues(redact: Redactor, evidence: seq<Evidence>): seq<Value> {
    seq(|evidence|, j requires 0 <= j < |evidence| => Obj(EvidenceMembers(redact, evidence[j])))
  }

  function Verdict(f: Finding): Members {
    [("id", Raw(f.id)),
     ("status", Raw(CheckName(f.status))),
     ("severity", Raw(SeverityName(f.severity))),
     ("title", Str(f.title)),
     ("explanation", Str(f.explanation))]
  }

  function FindingMembers(redact: Redactor, f: Finding): Members {
    Verdict(f) +
    [("evidence", Arr(EvidenceValues(redact, f.evidence))),
     ("recommendation", Str(f.recommendation)),
     ("confidence", Raw(ConfidenceName(f.confidence))),
     ("collector_complete", Bool(f.collectorComplete)),
     ("documentation_ref", Str(f.documentationRef))]
  }

  function FindingValues(redact: Redactor, findings: seq<Finding>): seq<Value> {
    seq(|findings|, i requires 0 <= i < |findings| => Obj(FindingMembers(redact, findings[i])))
  }

  function Texts(texts: seq<string>): seq<Value> {
    seq(|texts|, i requires 0 <= i < |texts| => Str(texts[i]))
  }

  function Privacy(): Members {
    [("redaction", Raw("default"))]
  }

  function Body(redact: Redactor, report: ScanReport): Members {
    [("current_system", Obj(System(report.platform))),
     ("target_release", Str(report.request.targetRelease)),
     ("overall_status", Raw(OverallName(report.overallStatus))),
     ("summary", Obj(Summary(report.findings))),
     ("findings", Arr(FindingValues(redact, report.findings))),
     ("limitations", Arr(Texts(report.limitations))),
     ("privacy", Obj(Privacy()))]
  }

  function Sheet(redact: Redactor, report: ScanReport): Members {
    Header(report) + Body(redact, report)
  }

  // ---- Writing it piece by piece ----------------------------------------------------------------

  method EscText(text: string) returns (out: string)
    ensures out == Esc(text)
  {
    out := "";
    for i := 0 to |text|
      invariant out == Esc(text[..i])
    {
      EscGrows(text[..i], text[i]);
      assert text[..i + 1] == text[..i] + [text[i]];
      match text[i] {
        case '\\' => out := out + "\\\\";
        case '"' => out := out + "\\\"";
        case '\n' => out := out + "\\n";
        case '\r' =>
        case ch => out := out + [ch];
      }
    }
    assert text[..|text|] == text;
  }

  method CountOf(findings: seq<Finding>, value: CheckStatus) returns (count: nat)
    ensures count == CountStatus(findings, value)
  {
    count := 0;
    for i := 0 to |findings|
      invariant count == CountStatus(findings[..i], value)
    {
      assert findings[..i + 1][..i] == findings[..i];
      if findings[i].status == value {
        count := count + 1;
      }
    }
    assert findings[..|findings|] == findings;
  }

  /** Members, each with a comma behind it. */
  ghost function Listed(ms: Members): string {
    if ms == [] then "" else Listed(ms[..|ms| - 1]) + RenderMember(ms[|ms| - 1]) + ","
  }

  lemma NothingListed(out: string)
    ensures out + Listed([]) == out
  {
  }

  lemma ListedMore(ms: Members, m: (string, Value))
    ensures Listed(ms + [m]) == Listed(ms) + (RenderMember(m) + ",")
  {
    assert (ms + [m])[..|ms|] == ms;
    assert Listed(ms + [m]) == Listed(ms) + RenderMember(m) + ",";
  }

  /** Without the comma behind the last member, that is how the members of an object are written. */
  lemma {:induction false} ListedLast(ms: Members, m: (string, Value))
    ensures RenderMembers(ms + [m]) == Listed(ms) + RenderMember(m)
  {
    var all := ms + [m];
    assert all[..|ms|] == ms;
    if ms != [] {
      var n := |ms| - 1;
      ListedLast(ms[..n], ms[n]);
      assert ms == ms[..n] + [ms[n]];
    }
  }

  /** The text between the quotation marks when the value is written. */
  predicate IsText(v: Value, text: string) {
    v == Raw(text) || (v.Str? && text == Esc(v.s))
  }

  /** One more member of a string: its key, a quotation mark, the text, and the mark and comma behind it. */
  lemma StringMember(out: string, ms: Members, name: string, v: Value, text: string) returns (more: Members)
    requires IsText(v, text)
    ensures more == ms + [(name, v)]
    ensures out + Listed(ms) + Key(name) + "\"" + text + "\"," == out + Listed(more)
  {
    more := ms + [(name, v)];
    ListedMore(ms, (name, v));
    Regrouped(out, Listed(ms), Key(name), text);
  }

  lemma Regrouped(out: string, before: string, key: string, text: string)
    ensures out + before + key + "\"" + text + "\"," == out + (before + (key + Quote(text) + ","))
  {
  }

  /** The last member of a string, without the comma. */
  lemma LastStringMember(out: string, ms: Members, name: string, v: Value, text: string) returns (more: Members)
    requires IsText(v, text)
    ensures more == ms + [(name, v)]
    ensures out + Listed(ms) + Key(name) + "\"" + text + "\"}" == out + RenderMembers(more) + "}"
  {
    more := ms + [(name, v)];
    ListedLast(ms, (name, v));
    RegroupedLast(out, Listed(ms), Key(name), Quote(text));
    RegroupedQuote(out + Listed(ms) + Key(name), text, "}");
  }

  lemma RegroupedLast(out: string, before: string, key: string, text: string)
    ensures out + before + key + text + "}" == out + (before + (key + text)) + "}"
  {
  }

  lemma RegroupedQuote(out: string, text: string, close: string)
    ensures out + "\"" + text + ("\"" + close) == out + Quote(text) + close
  {
  }

  lemma Quoted(out: string, text: string)
    ensures out + "\"" + text + "\"" == out + Quote(text)
  {
  }

  /** One more member of any kind. */
  lemma AnyMember(out: string, ms: Members, name: string, v: Value) returns (more: Members)
    ensures more == ms + [(name, v)]
    ensures out + Listed(ms) + Key(name) + Render(v) + "," == out + Listed(more)
  {
    more := ms + [(name, v)];
    ListedMore(ms, (name, v));
  }

  lemma LastMember(out: string, ms: Members, name: string, v: Value) returns (more: Members)
    ensures more == ms + [(name, v)]
    ensures out + Listed(ms) + Key(name) + Render(v) + "}" == out + RenderMembers(more) + "}"
  {
    more := ms + [(name, v)];
    ListedLast(ms, (name, v));
    RegroupedLast(out, Listed(ms), Key(name), Render(v));
  }

  /** One more member of a number, and the last one. */
  lemma NumberMember(out: string, ms: Members, name: string, n: nat) returns (more: Members)
    ensures more == ms + [(name, Num(n))]
    ensures out + Listed(ms) + (Key(name) + Decimal(n) + ",") == out + Listed(more)
  {
    hide Listed, Key, Decimal;
    more := AnyMember(out, ms, name, Num(n));
    RegroupedChunk(out + Listed(ms), Key(name), Decimal(n), ",");
  }

  lemma LastNumberMember(out: string, ms: Members, name: string, n: nat) returns (more: Members)
    ensures more == ms + [(name, Num(n))]
    ensures out + Listed(ms) + (Key(name) + Decimal(n) + "}") == out + RenderMembers(more) + "}"
  {
    hide Listed, Key, Decimal, RenderMembers;
    more := LastMember(out, ms, name, Num(n));
    RegroupedChunk(out + Listed(ms), Key(name), Decimal(n), "}");
  }

  /** One more member of a truth value. */
  lemma FlagMember(out: string, ms: Members, name: string, b: bool) returns (more: Members)
    ensures more == ms + [(name, Bool(b))]
    ensures out + Listed(ms) + Key(name) + (if b then "true" else "false") + "," == out + Listed(more)
  {
    hide Listed, Key;
    more := AnyMember(out, ms, name, Bool(b));
  }

  lemma RegroupedChunk(out: string, key: string, text: string, close: string)
    ensures out + (key + text + close) == out + key + text + close
  {
  }

  lemma ObjectText(ms: Members)
    ensures Render(Obj(ms)) == "{" + RenderMembers(ms) + "}"
  {
  }

  lemma SevenInOrder<T>(front: seq<T>, a: T, b: T, c: T, d: T, e: T, f: T, g: T)
    ensures front + [a] + [b] + [c] + [d] + [e] + [f] + [g] == front + [a, b, c, d, e, f, g]
    ensures [] + [a, b, c, d, e, f, g] == [a, b, c, d, e, f, g]
  {
  }

  lemma TwoInOrder<T>(a: T, b: T)
    ensures [] + [a] + [b] == [a, b]
  {
  }

  lemma FourInOrder<T>(a: T, b: T, c: T, d: T)
    ensures [] + [a] + [b] + [c] + [d] == [a, b, c, d]
  {
  }

  lemma FiveInOrder<T>(front: seq<T>, a: T, b: T, c: T, d: T, e: T)
    ensures front + [a] + [b] + [c] + [d] + [e] == front + [a, b, c, d, e]
    ensures [] + [a, b, c, d, e] == [a, b, c, d, e]
  {
  }

  method WriteHeader(report: ScanReport) returns (out: string)
    ensures out == "{\n" + Listed(Header(report))
  {
    ghost var start, ms: Members := "{\n", [];
    out := "{\n";
    assert out == start + Listed(ms);
    out := out + Key("schema_version") + "\"" + "1.0" + "\",";
    ms := StringMember(start, ms, "schema_version", Raw("1.0"), "1.0");
    out := out + Key("tool_version") + "\"" + TOOL_VERSION + "\",";
    ms := StringMember(start, ms, "tool_version", Raw(TOOL_VERSION), TOOL_VERSION);
    var scanId := EscText(report.scanId);
    out := out + Key("scan_id") + "\"" + scanId + "\",";
    ms := StringMember(start, ms, "scan_id", Str(report.scanId), scanId);
    out := out + Key("started_at") + "\"" + report.startedAt + "\",";
    ms := StringMember(start, ms, "started_at", Raw(report.startedAt), report.startedAt);
    out := out + Key("completed_at") + "\"" + report.completedAt + "\",";
    ms := StringMember(start, ms, "completed_at", Raw(report.completedAt), report.completedAt);
    FiveInOrder([], ("schema_version", Raw("1.0")), ("tool_version", Raw(TOOL_VERSION)),
      ("scan_id", Str(report.scanId)),
      ("started_at", Raw(report.startedAt)), ("completed_at", Raw(report.completedAt)));
  }

  method WriteSystem(platform: PlatformFacts) returns (out: string)
    ensures out == Render(Obj(System(platform)))
  {
    ghost var start, ms: Members := "{", [];
    out := "{";
    assert out == start + Listed(ms);
    var id := EscText(platform.distribution.id);
    out := out + Key("id") + "\"" + id + "\",";
    ms := StringMember(start, ms, "id", Str(platform.distribution.id), id);
    var name := EscText(platform.distribution.name);
    out := out + Key("name") + "\"" + name + "\",";
    ms := StringMember(start, ms, "name", Str(platform.distribution.name), name);
    var versionId := EscText(platform.distribution.versionId);
    out := out + Key("version_id") + "\"" + versionId + "\",";
    ms := StringMember(start, ms, "version_id", Str(platform.distribution.versionId), versionId);
    var codename := EscText(platform.distribution.codename);
    out := out + Key("codename") + "\"" + codename + "\",";
    ms := StringMember(start, ms, "codename", Str(platform.distribution.codename), codename);
    var architecture := EscText(platform.architecture);
    out := out + Key("architecture") + "\"" + architecture + "\",";
    ms := StringMember(start, ms, "architecture", Str(platform.architecture), architecture);
    var kernel := EscText(platform.kernelVersion);
    out := out + Key("kernel_release") + "\"" + kernel + "\",";
    ms := StringMember(start, ms, "kernel_release", Str(platform.kernelVersion), kernel);
    out := out + Key("container_detected") + (if platform.containerDetected then "true" else "false") + "}";
    ms := LastMember(start, ms, "container_detected", Bool(platform.containerDetected));
    var d := platform.distribution;
    SevenInOrder([], ("id", Str(d.id)), ("name", Str(d.name)), ("version_id", Str(d.versionId)),
      ("codename", Str(d.codename)), ("architecture", Str(platform.architecture)),
      ("kernel_release", Str(platform.kernelVersion)), ("container_detected", Bool(platform.containerDetected)));
  }

  method WriteSummary(findings: seq<Finding>) returns (out: string)
    ensures out == Render(Obj(Summary(findings)))
  {
    hide Listed, Key, Decimal, Render, RenderMembers, CountStatus;
    ghost var start, ms: Members := "{", [];
    out := "{";
    NothingListed(start);
    var count := CountOf(findings, Blocked);
    var blockers := Key("blockers") + Decimal(count) + ",";
    out := out + blockers;
    ms := NumberMember(start, ms, "blockers", count);
    count := CountOf(findings, Warning);
    var warnings := Key("warnings") + Decimal(count) + ",";
    out := out + warnings;
    ms := NumberMember(start, ms, "warnings", count);
    count := CountOf(findings, Unknown);
    var unknown := Key("unknown") + Decimal(count) + ",";
    out := out + unknown;
    ms := NumberMember(start, ms, "unknown", count);
    count := CountOf(findings, Error);
    var errors := Key("errors") + Decimal(count) + "}";
    out := out + errors;
    ms := LastNumberMember(start, ms, "errors", count);
    ObjectText(ms);
    FourInOrder(("blockers", Num(CountStatus(findings, Blocked))), ("warnings", Num(CountStatus(findings, Warning))),
      ("unknown", Num(CountStatus(findings, Unknown))), ("errors", Num(CountStatus(findings, Error))));
  }

  lemma OneMoreItem(vs: seq<Value>, i: nat)
    requires i < |vs|
    ensures RenderItems(vs[..i + 1]) == RenderItems(vs[..i]) + (if i == 0 then "" else ",") + Render(vs[i])
  {
    assert vs[..i + 1][..i] == vs[..i];
    if i == 0 { assert RenderItems(vs[..1]) == Render(vs[0]) == "" + "" + Render(vs[0]); }
  }

  method WriteEvidence(redact: Redactor, e: Evidence) returns (out: string)
    ensures out == Render(Obj(EvidenceMembers(redact, e)))
  {
    ghost var start, ms: Members := "{", [];
    out := "{";
    assert out == start + Listed(ms);
    var caption := EscText(redact(e.caption));
    out := out + Key("label") + "\"" + caption + "\",";
    ms := StringMember(start, ms, "label", Str(redact(e.caption)), caption);
    var text := EscText(redact(e.text));
    out := out + Key("value") + "\"" + text + "\"}";
    ms := LastStringMember(start, ms, "value", Str(redact(e.text)), text);
    TwoInOrder(("label", Str(redact(e.caption))), ("value", Str(redact(e.text))));
  }

  method WriteEvidenceList(redact: Redactor, evidence: seq<Evidence>) returns (out: string)
    ensures out == Render(Arr(EvidenceValues(redact, evidence)))
  {
    ghost var vs := EvidenceValues(redact, evidence);
    out := "[";
    for j := 0 to |evidence|
      invariant out == "[" + RenderItems(vs[..j])
    {
      if j != 0 {
        out := out + ",";
      }
      var one := WriteEvidence(redact, evidence[j]);
      out := out + one;
      OneMoreItem(vs, j);
    }
    assert vs[..|evidence|] == vs;
    out := out + "]";
  }

  method WriteVerdict(f: Finding) returns (out: string)
    ensures out == "{" + Listed(Verdict(f))
  {
    ghost var start, ms: Members := "{", [];
    out := "{";
    assert out == start + Listed(ms);
    out := out + Key("id") + "\"" + f.id + "\",";
    ms := StringMember(start, ms, "id", Raw(f.id), f.id);
    out := out + Key("status") + "\"" + CheckName(f.status) + "\",";
    ms := StringMember(start, ms, "status", Raw(CheckName(f.status)), CheckName(f.status));
    out := out + Key("severity") + "\"" + SeverityName(f.severity) + "\",";
    ms := StringMember(start, ms, "severity", Raw(SeverityName(f.severity)), SeverityName(f.severity));
    var title := EscText(f.title);
    out := out + Key("title") + "\"" + title + "\",";
    ms := StringMember(start, ms, "title", Str(f.title), title);
    var explanation := EscText(f.explanation);
    out := out + Key("explanation") + "\"" + explanation + "\",";
    ms := StringMember(start, ms, "explanation", Str(f.explanation), explanation);
    FiveInOrder([], ("id", Raw(f.id)), ("status", Raw(CheckName(f.status))),
      ("severity", Raw(SeverityName(f.severity))), ("title", Str(f.title)), ("explanation", Str(f.explanation)));
  }

  method WriteFinding(redact: Redactor, f: Finding) returns (out: string)
    ensures out == Render(Obj(FindingMembers(redact, f)))
  {
    hide Listed, Key, Render, RenderMembers, EvidenceValues;
    ghost var start, ms := "{", Verdict(f);
    out := WriteVerdict(f);
    var evidence := WriteEvidenceList(redact, f.evidence);
    out := out + Key("evidence") + evidence + ",";
    ms := AnyMember(start, ms, "evidence", Arr(EvidenceValues(redact, f.evidence)));
    var recommendation := EscText(f.recommendation);
    out := out + Key("recommendation") + "\"" + recommendation + "\",";
    ms := StringMember(start, ms, "recommendation", Str(f.recommendation), recommendation);
    out := out + Key("confidence") + "\"" + ConfidenceName(f.confidence) + "\",";
    ms := StringMember(start, ms, "confidence", Raw(ConfidenceName(f.confidence)), ConfidenceName(f.confidence));
    out := out + Key("collector_complete") + (if f.collectorComplete then "true" else "false") + ",";
    ms := FlagMember(start, ms, "collector_complete", f.collectorComplete);
    var reference := EscText(f.documentationRef);
    out := out + Key("documentation_ref") + "\"" + reference + "\"}";
    ms := LastStringMember(start, ms, "documentation_ref", Str(f.documentationRef), reference);
    ObjectText(ms);
    FiveInOrder(Verdict(f), ("evidence", Arr(EvidenceValues(redact, f.evidence))),
      ("recommendation", Str(f.recommendation)), ("confidence", Raw(ConfidenceName(f.confidence))),
      ("collector_complete", Bool(f.collectorComplete)), ("documentation_ref", Str(f.documentationRef)));
  }

  method WriteFindings(redact: Redactor, findings: seq<Finding>) returns (out: string)
    ensures out == Render(Arr(FindingValues(redact, findings)))
  {
    ghost var vs := FindingValues(redact, findings);
    out := "[";
    for i := 0 to |findings|
      invariant out == "[" + RenderItems(vs[..i])
    {
      if i != 0 {
        out := out + ",";
      }
      var one := WriteFinding(redact, findings[i]);
      out := out + one;
      OneMoreItem(vs, i);
    }
    assert vs[..|findings|] == vs;
    out := out + "]";
  }

  lemma TextIsQuoted(text: string)
    ensures Render(Str(text)) == Quote(Esc(text))
  {
  }

  lemma NoItems()
    ensures RenderItems([]) == ""
  {
  }

  lemma ArrayText(vs: seq<Value>)
    ensures Render(Arr(vs)) == "[" + RenderItems(vs) + "]"
  {
  }

  method WriteLimitations(limitations: seq<string>) returns (out: string)
    ensures out == Render(Arr(Texts(limitations)))
  {
    hide Esc, Quote, Render;
    ghost var vs := Texts(limitations);
    out := "[";
    NoItems();
    for i := 0 to |limitations|
      invariant out == "[" + RenderItems(vs[..i])
    {
      if i != 0 {
        out := out + ",";
      }
      ghost var before := out;
      var one := EscText(limitations[i]);
      out := out + "\"" + one + "\"";
      Quoted(before, one);
      TextIsQuoted(limitations[i]);
      OneMoreItem(vs, i);
    }
    assert vs[..|limitations|] == vs;
    out := out + "]";
    ArrayText(vs);
  }

  lemma PrivacyText()
    ensures Render(Obj(Privacy())) == "{\"redaction\":\"default\"}"
  {
    var m := ("redaction", Raw("default"));
    assert RenderMembers(Privacy()) == RenderMember(m) == Key("redaction") + Quote("default");
  }

  lemma EndOfDocument(out: string)
    ensures out + "}" + "\n" == out + "}\n"
  {
  }

  method FormatWith(redact: Redactor, report: ScanReport) returns (out: string)
    ensures out == Document(Sheet(redact, report))
  {
    ghost var start, ms := "{\n", Header(report);
    out := WriteHeader(report);
    var system := WriteSystem(report.platform);
    out := out + Key("current_system") + system + ",";
    ms := AnyMember(start, ms, "current_system", Obj(System(report.platform)));
    var target := EscText(report.request.targetRelease);
    out := out + Key("target_release") + "\"" + target + "\",";
    ms := StringMember(start, ms, "target_release", Str(report.request.targetRelease), target);
    var status := OverallName(report.overallStatus);
    out := out + Key("overall_status") + "\"" + status + "\",";
    ms := StringMember(start, ms, "overall_status", Raw(status), status);
    var summary := WriteSummary(report.findings);
    out := out + Key("summary") + summary + ",";
    ms := AnyMember(start, ms, "summary", Obj(Summary(report.findings)));
    var findings := WriteFindings(redact, report.findings);
    out := out + Key("findings") + findings + ",";
    ms := AnyMember(start, ms, "findings", Arr(FindingValues(redact, report.findings)));
    var limitations := WriteLimitations(report.limitations);
    out := out + Key("limitations") + limitations + ",";
    ms := AnyMember(start, ms, "limitations", Arr(Texts(report.limitations)));
    PrivacyText();
    out := out + Key("privacy") + "{\"redaction\":\"default\"}" + "}";
    ms := LastMember(start, ms, "privacy", Obj(Privacy()));
    EndOfDocument(start + RenderMembers(ms));
    out := out + "\n";
    SevenInOrder(Header(report), ("current_system", Obj(System(report.platform))),
      ("target_release", Str(report.request.targetRelease)),
      ("overall_status", Raw(OverallName(report.overallStatus))),
      ("summary", Obj(Summary(report.findings))), ("findings", Arr(FindingValues(redact, report.findings))),
      ("limitations", Arr(Texts(report.limitations))), ("privacy", Obj(Privacy())));
  }

  method Format(report: ScanReport) returns (out: string)
    ensures out == Document(Sheet(Redaction.Redact, report))
  {
    out := FormatWith(Redaction.Redact, report);
  }
}
