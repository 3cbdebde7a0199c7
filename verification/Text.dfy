/** Characters and the small string searches shared by the models. A C++ byte is a Dafny `char`. */
module Text {

  /** `isspace` in the C locale, which is also `\s` of the regular expressions. */
  predicate IsSpace(c: char) {
    c == ' ' || '\t' <= c <= '\r'
  }

  predicate IsDigit(c: char) {
    '0' <= c <= '9'
  }

  predicate IsLetter(c: char) {
    'a' <= c <= 'z' || 'A' <= c <= 'Z'
  }

  /** The word characters of `\b`. */
  predicate IsWord(c: char) {
    IsLetter(c) || IsDigit(c) || c == '_'
  }

  function Lower(c: char): char {
    if 'A' <= c <= 'Z' then c + ' ' else c
  }

  /** The position of the first `c`, or the length if there is none. */
  function IndexOf(s: string, c: char): (n: nat)
    ensures n <= |s| && (forall j :: 0 <= j < n ==> s[j] != c) && (n < |s| ==> s[n] == c)
  {
    if s == "" || s[0] == c then 0 else 1 + IndexOf(s[1..], c)
  }

  lemma {:induction false} IndexIs(s: string, c: char, n: nat)
    requires n <= |s| && c !in s[..n] && (n < |s| ==> s[n] == c)
    ensures IndexOf(s, c) == n
  {
    if n > 0 {
      assert s[..n] == [s[0]] + s[1..][..n - 1];
      IndexIs(s[1..], c, n - 1);
    }
  }

  predicate PartAt(s: string, part: string, k: nat) {
    k + |part| <= |s| && s[k..k + |part|] == part
  }

  /** Whether `std::string::find` finds the part. */
  predicate Contains(s: string, part: string) {
    exists k: nat :: k <= |s| && PartAt(s, part, k)
  }

  /** What is left behind the first line. */
  function AfterLine(s: string): (r: string)
    requires s != ""
    ensures |r| < |s|
  {
    var n := IndexOf(s, '\n');
    if n < |s| then s[n + 1..] else ""
  }

  /** The lines that a loop of `std::getline` reads. */
  function Lines(s: string): seq<string>
    decreases |s|
  {
    if s == "" then [] else [s[..IndexOf(s, '\n')]] + Lines(AfterLine(s))
  }

  /** Lines, each with a line feed behind it. */
  function Unlines(lines: seq<string>): string {
    if lines == [] then "" else lines[0] + ("\n" + Unlines(lines[1..]))
  }

  predicate IsLine(s: string) {
    '\n' !in s
  }

  lemma LineFirst(line: string, more: string)
    requires IsLine(line)
    ensures Lines(line + ("\n" + more)) == [line] + Lines(more)
  {
    var s := line + ("\n" + more);
    assert s[|line|] == '\n';
    assert IndexOf(s, '\n') == |line|;
    assert AfterLine(s) == more;
    assert s[..|line|] == line;
  }

  /** Lines are read as they were written, whatever comes behind them. */
  lemma {:induction false} LinesOfUnlines(lines: seq<string>, rest: string)
    requires forall l :: l in lines ==> IsLine(l)
    ensures Lines(Unlines(lines) + rest) == lines + Lines(rest)
  {
    if lines == [] {
      assert Unlines(lines) + rest == rest;
    } else {
      assert IsLine(lines[0]);
      LinesOfUnlines(lines[1..], rest);
      LineThenText(lines[0], Unlines(lines[1..]), rest, lines[1..] + Lines(rest));
      FirstAndOthers(lines, Lines(rest));
    }
  }

  lemma FirstAndOthers(lines: seq<string>, more: seq<string>)
    requires lines != []
    ensures [lines[0]] + (lines[1..] + more) == lines + more
  {
  }

  lemma LineThenText(line: string, text: string, rest: string, lines: seq<string>)
    requires IsLine(line) && Lines(text + rest) == lines
    ensures Lines(line + ("\n" + text) + rest) == [line] + lines
  {
    LineFirst(line, text + rest);
    LineAndRest(line, text, rest);
  }

  lemma LastLine(last: string)
    requires IsLine(last)
    ensures Lines(last) == if last == "" then [] else [last]
  {
    if last != "" { assert IndexOf(last, '\n') == |last| && last[..|last|] == last; }
  }

  lemma LineAndRest(line: string, rest: string, last: string)
    ensures line + ("\n" + rest) + last == line + ("\n" + (rest + last))
  {
  }

  lemma TextOfLines(lines: seq<string>)
    requires forall l :: l in lines ==> IsLine(l)
    ensures Lines(Unlines(lines)) == lines
  {
    LinesOfUnlines(lines, "");
    assert Unlines(lines) + "" == Unlines(lines) && lines + Lines("") == lines;
  }

  /** Whatever a text is, its lines are without line feeds, and with line feeds behind them they are the text. */
  lemma {:induction false} LinesMakeText(s: string)
    ensures forall l :: l in Lines(s) ==> IsLine(l)
    ensures Unlines(Lines(s)) == if s == "" || s[|s| - 1] == '\n' then s else s + "\n"
    decreases |s|
  {
    if s != "" {
      var n := IndexOf(s, '\n');
      var rest := AfterLine(s);
      LinesMakeText(rest);
      assert IsLine(s[..n]);
      assert Lines(s) == [s[..n]] + Lines(rest);
      UnlinesFirst(s[..n], Lines(rest));
      LineAndAfter(s, n, rest);
    }
  }

  lemma UnlinesFirst(line: string, lines: seq<string>)
    ensures Unlines([line] + lines) == line + ("\n" + Unlines(lines))
  {
    assert ([line] + lines)[1..] == lines;
  }

  lemma LineAndAfter(s: string, n: nat, rest: string)
    requires s != "" && n == IndexOf(s, '\n') && rest == AfterLine(s)
    ensures n < |s| ==> s[..n] + ("\n" + rest) == s && (if rest == "" then s[|s| - 1] == '\n' else
                          rest[|rest| - 1] == s[|s| - 1] && s[..n] + ("\n" + (rest + "\n")) == s + "\n")
    ensures n == |s| ==> rest == "" && s[..n] + ("\n" + rest) == s + "\n" && s[|s| - 1] != '\n'
  {
    hide IndexOf;
    if n < |s| {
      CutAt(s, n, '\n');
      LineAndRest(s[..n], rest, "\n");
    } else {
      assert s[..n] == s && "\n" + rest == "\n";
    }
  }

  lemma CutAt(s: string, n: nat, c: char)
    requires n < |s| && s[n] == c
    ensures s[..n] + ([c] + s[n + 1..]) == s
  {
  }

  /** A part is contained exactly if the text is that part with something in front of it and behind it. */
  lemma ContainsExactly(s: string, part: string)
    ensures Contains(s, part) <==> exists front, back :: s == front + part + back
  {
    if Contains(s, part) {
      var k: nat :| k <= |s| && PartAt(s, part, k);
      assert s == s[..k] + part + s[k + |part|..];
    }
    if front, back :| s == front + part + back {
      assert PartAt(s, part, |front|);
    }
  }

  /** White space is space, tab, line feed, vertical tab, form feed and carriage return. */
  lemma SpaceExactly(c: char)
    ensures IsSpace(c) <==> c in [' ', '\t', '\n', '\U{0B}', '\U{0C}', '\r']
  {
    assert '\t' as int == 9 && '\r' as int == 13;
  }

  /** Folding turns each letter of the one alphabet into that of the other, and leaves everything else. */
  lemma LowerExactly(c: char)
    ensures var (upper, lower) := ("ABCDEFGHIJKLMNOPQRSTUVWXYZ", "abcdefghijklmnopqrstuvwxyz");
      && (c !in upper ==> Lower(c) == c)
      && (forall k :: 0 <= k < |upper| && upper[k] == c ==> Lower(c) == lower[k])
      && (IsLetter(c) <==> c in upper || c in lower)
  {
    var upper, lower := "ABCDEFGHIJKLMNOPQRSTUVWXYZ", "abcdefghijklmnopqrstuvwxyz";
    assert forall k :: 0 <= k < 26 ==> upper[k] == 'A' + k as char && lower[k] == 'a' + k as char;
    if 'A' <= c <= 'Z' { assert upper[c as int - 'A' as int] == c; }
    if 'a' <= c <= 'z' { assert lower[c as int - 'a' as int] == c; }
  }
}
