/**
 What the verdict of a scan means, for every runner and every system: it is the worst of the findings, the
 printed counts decide it, and no command can fail and still leave the system looking ready.
 */
module Verdicts {
  import opened Collectors
  import opened Domain
  import opened Rules
  import opened ScanService
  import opened Sequences
  import opened Text
  import opened Wrappers
  import Json
  import JsonReporter
  import JsonReports

  // ---- The worst of the findings ----------------------------------------------------------------

  function Rank(r: ReadinessStatus): nat {
    match r
    case Ready => 0
    case ReadyWithWarnings => 1
    case Incomplete => 2
    case NotReady => 3
  }

  function Weight(f: Finding): nat {
    if f.status == Blocked then 3 else if IsIncomplete(f) then 2 else if f.status == Warning then 1 else 0
  }

  function Max(a: nat, b: nat): nat {
    if a < b then b else a
  }

  function Heaviest(findings: seq<Finding>): nat {
    if findings == [] then 0 else Max(Weight(findings[0]), Heaviest(findings[1..]))
  }

  lemma {:induction false} HeaviestIsReached(findings: seq<Finding>)
    ensures forall f :: f in findings ==> Weight(f) <= Heaviest(findings)
    ensures Heaviest(findings) > 0 ==> exists f :: f in findings && Weight(f) == Heaviest(findings)
  {
    if findings != [] { HeaviestIsReached(findings[1..]); }
  }

  lemma AggregateIsHeaviest(findings: seq<Finding>)
    ensures Rank(Aggregate(findings)) == Heaviest(findings)
  {
    HeaviestIsReached(findings);
    if f :| f in findings && f.status == Blocked { assert Weight(f) == 3; }
    if f :| f in findings && IsIncomplete(f) { assert Weight(f) >= 2; }
    if f :| f in findings && f.status == Warning { assert Weight(f) >= 1; }
  }

  lemma {:induction false} HeaviestJoins(a: seq<Finding>, b: seq<Finding>)
    ensures Heaviest(a + b) == Max(Heaviest(a), Heaviest(b))
  {
    if a == [] {
      assert a + b == b;
    } else {
      assert (a + b)[1..] == a[1..] + b;
      HeaviestJoins(a[1..], b);
    }
  }

  /** Findings taken together are as bad as the worse of the two. */
  lemma AggregateJoins(a: seq<Finding>, b: seq<Finding>)
    ensures Rank(Aggregate(a + b)) == Max(Rank(Aggregate(a)), Rank(Aggregate(b)))
  {
    AggregateIsHeaviest(a + b);
    AggregateIsHeaviest(a);
    AggregateIsHeaviest(b);
    HeaviestJoins(a, b);
  }

  lemma AggregateInAnyOrder(a: seq<Finding>, b: seq<Finding>)
    requires multiset(a) == multiset(b)
    ensures Aggregate(a) == Aggregate(b)
  {
    assert forall f :: f in a <==> f in multiset(a);
    assert forall f :: f in b <==> f in multiset(b);
  }

  // ---- The printed counts -----------------------------------------------------------------------

  /** The verdict that four counts call for. */
  function FromCounts(blockers: nat, warnings: nat, unknown: nat, errors: nat): ReadinessStatus {
    if blockers > 0 then NotReady
    else if unknown + errors > 0 then Incomplete
    else if warnings > 0 then ReadyWithWarnings
    else Ready
  }

  lemma CountsDecide(findings: seq<Finding>)
    requires forall f :: f in findings ==> Sound(f)
    ensures Aggregate(findings) ==
              FromCounts(CountStatus(findings, Blocked), CountStatus(findings, Warning),
                         CountStatus(findings, Unknown), CountStatus(findings, CheckStatus.Error))
  {
  }

  lemma FindingsAreSound(rules: seq<Rule>, say: Wording, s: Facts)
    ensures forall f :: f in Findings(rules, say, s) ==> Sound(f)
  {
    JudgedAreSound(rules, say, s);
    ReportedAreSound(say, s.issues);
  }

  lemma JudgedAreSound(rules: seq<Rule>, say: Wording, s: Facts)
    ensures forall f :: f in Judged(rules, say, s) ==> Sound(f)
  {
    var findings := Judged(rules, say, s);
    forall k | 0 <= k < |findings|
      ensures Sound(findings[k])
    {
      assert findings[k] == Evaluate(rules[k], say, s);
    }
  }

  lemma ReportedAreSound(say: Wording, issues: seq<CollectorIssue>)
    ensures forall f :: f in Reported(say, issues) ==> Sound(f)
  {
    var findings := Reported(say, issues);
    forall k | 0 <= k < |findings|
      ensures Sound(findings[k])
    {
      assert findings[k] == IssueFinding(say, issues[k]);
    }
  }

  lemma RuleIdIsPlain(rule: Rule)
    ensures Json.Plain(IdOf(rule))
  {
  }

  /** The identifiers of findings need no escaping. */
  lemma IdsArePlain(rules: seq<Rule>, say: Wording, s: Facts)
    ensures forall f :: f in Findings(rules, say, s) ==> Json.Plain(f.id)
  {
    forall k | 0 <= k < |rules|
      ensures Json.Plain(Judged(rules, say, s)[k].id)
    {
      IdIsOfRule(rules[k], say, s);
      RuleIdIsPlain(rules[k]);
    }
    forall k | 0 <= k < |s.issues|
      ensures Json.Plain(Reported(say, s.issues)[k].id)
    {
    }
  }

  /** Whoever reads a printed scan finds a verdict and four counts that agree. */
  lemma PrintedVerdictAgrees(request: ScanRequest, run: Runner, host: Host, say: Wording, limits: Limits, stamp: Stamp,
                             redact: JsonReporter.Redactor, p: JsonReports.Printed)
    requires Json.Plain(stamp.startedAt) && Json.Plain(stamp.completedAt)
    requires var scan := Scan(request, run, host, say, limits, stamp);
      scan.Some? && JsonReports.ReadReport(Json.Document(JsonReporter.Sheet(redact, scan.value))) == Some(p)
    ensures |p.counts| == 4 && p.overallStatus == FromCounts(p.counts[0], p.counts[1], p.counts[2], p.counts[3])
  {
    var report := Scan(request, run, host, say, limits, stamp).value;
    IdsArePlain(RULES, say, AfterAll(COLLECTORS, run, host, Blank(request)));
    JsonReports.ReportReadsBack(redact, report);
    FindingsAreSound(RULES, say, AfterAll(COLLECTORS, run, host, Blank(request)));
    CountsDecide(report.findings);
  }
}
