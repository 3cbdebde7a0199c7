/** The parser of what a simulated upgrade prints, and the transcripts that it recovers the package names from. */
module AptSimulation {
  import opened Sequences
  import opened Text

  const REMOVED_HEADING := "The following packages will be REMOVED:"
  const INSTALLED_HEADING := "The following NEW packages will be installed:"

  // ---- Words ------------------------------------------------------------------------------------

  function SpaceRun(s: string): (n: nat)
    ensures n <= |s| && (forall i :: 0 <= i < n ==> IsSpace(s[i])) && (n < |s| ==> !IsSpace(s[n]))
  {
    if s == "" || !IsSpace(s[0]) then 0 else 1 + SpaceRun(s[1..])
  }

  function SkipSpace(s: string): (t: string)
    ensures |t| <= |s| && (t != "" ==> !IsSpace(t[0]))
  {
    s[SpaceRun(s)..]
  }

  function WordRun(s: string): (n: nat)
    ensures n <= |s| && (s != "" && !IsSpace(s[0]) ==> n > 0)
    ensures n <= |s| && (forall i :: 0 <= i < n ==> !IsSpace(s[i])) && (n < |s| ==> IsSpace(s[n]))
  {
    if s == "" || IsSpace(s[0]) then 0 else 1 + WordRun(s[1..])
  }

  lemma {:induction false} SpaceRunIs(s: string, n: nat)
    requires n <= |s| && (forall i :: 0 <= i < n ==> IsSpace(s[i])) && (n < |s| ==> !IsSpace(s[n]))
    ensures SpaceRun(s) == n
  {
    if n > 0 { SpaceRunIs(s[1..], n - 1); }
  }

  lemma {:induction false} WordRunIs(s: string, n: nat)
    requires n <= |s| && (forall i :: 0 <= i < n ==> !IsSpace(s[i])) && (n < |s| ==> IsSpace(s[n]))
    ensures WordRun(s) == n
  {
    if n > 0 { WordRunIs(s[1..], n - 1); }
  }

  /** The words that a loop of `stream >> word` reads. */
  function Words(s: string): seq<string>
    decreases |s|
  {
    var t := SkipSpace(s);
    if t == "" then [] else [t[..WordRun(t)]] + Words(t[WordRun(t)..])
  }

  // ---- The parsers ------------------------------------------------------------------------------

  function BehindHeading(lines: seq<string>, heading: string): seq<string> {
    if lines == [] then [] else if heading <= lines[0] then lines[1..] else BehindHeading(lines[1..], heading)
  }

  predicate Indented(line: string) {
    "  " <= line
  }

  /** The words of the indented lines up to the first line that is neither indented nor the heading again. */
  function Listed(lines: seq<string>, heading: string): seq<string> {
    if lines == [] then []
    else if heading <= lines[0] then Listed(lines[1..], heading)
    else if Indented(lines[0]) then Words(lines[0]) + Listed(lines[1..], heading)
    else []
  }

  function Section(lines: seq<string>, heading: string): seq<string> {
    Listed(BehindHeading(lines, heading), heading)
  }

  method AddWords(packages: seq<string>, line: string) returns (more: seq<string>)
    ensures more == packages + Words(line)
  {
    more := packages;
    var words := Words(line);
    for j := 0 to |words|
      invariant more == packages + words[..j]
    {
      more := more + [words[j]];
    }
  }

  /** What is still to come of the section, once the heading was seen or before. */
  function Pending(section: bool, lines: seq<string>, heading: string): seq<string> {
    if section then Listed(lines, heading) else Section(lines, heading)
  }

  method ParseSection(lines: seq<string>, heading: string) returns (packages: seq<string>)
    ensures packages == Section(lines, heading)
  {
    packages := [];
    var section := false;
    for i := 0 to |lines|
      invariant packages + Pending(section, lines[i..], heading) == Section(lines, heading)
    {
      var line := lines[i];
      PendingLine(packages, section, lines[i..], heading);
      assert lines[i..][1..] == lines[i + 1..];
      if heading <= line {
        section := true;
        continue;
      }
      if section && "  " <= line {
        packages := AddWords(packages, line);
      } else if section {
        break;
      }
    }
  }

  lemma PendingLine(packages: seq<string>, section: bool, lines: seq<string>, heading: string)
    requires lines != []
    ensures packages + Pending(section, lines, heading) ==
              if heading <= lines[0] then packages + Pending(true, lines[1..], heading)
              else if !section then packages + Pending(false, lines[1..], heading)
              else if Indented(lines[0]) then packages + Words(lines[0]) + Pending(true, lines[1..], heading)
              else packages
  {
  }

  function InstName(line: string): seq<string> {
    if "Inst " <= line then
      var words := Words(line[5..]);
      if words == [] then [] else [words[0]]
    else []
  }

  function Upgrades(lines: seq<string>): seq<string> {
    FlatMap(InstName, lines)
  }

  method ParseInst(lines: seq<string>) returns (packages: seq<string>)
    ensures packages == Upgrades(lines)
  {
    packages := [];
    for i := 0 to |lines|
      invariant packages == Upgrades(lines[..i])
    {
      FlatMapMore(InstName, lines[..i], lines[i]);
      assert lines[..i + 1] == lines[..i] + [lines[i]];
      if "Inst " <= lines[i] {
        var words := Words(lines[i][5..]);
        if words != [] {
          packages := packages + [words[0]];
        }
      }
    }
    assert lines[..|lines|] == lines;
  }
}
