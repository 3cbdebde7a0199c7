/** The deb822 format of section 5.1 of the Debian Policy Manual, written out, is read back by the reader. */
module Deb822 {
  import opened Sequences
  import opened Text
  import opened Sources
  import opened SourceFacts

  // ---- Writing ----------------------------------------------------------------------------------

  datatype Continuation = Continuation(indent: string, text: string)

  /** A field: `key:`, padding and the first part of the value, and any number of continuation lines. */
  datatype Field = Field(key: string, pad: string, first: string, more: seq<Continuation>)

  /** A stanza and the blank lines behind it. */
  datatype Paragraph = Paragraph(fields: seq<Field>, gap: seq<string>)

  predicate GoodContinuation(c: Continuation) {
    && c.indent != "" && (c.indent[0] == ' ' || c.indent[0] == '\t') && Blank(c.indent)
    && c.text != "" && Neat(c.text) && IsLine(c.text)
  }

  predicate GoodKey(key: string) {
    key != "" && key[0] != ' ' && key[0] != '\t' && ':' !in key && IsLine(key)
  }

  predicate GoodField(f: Field) {
    && GoodKey(f.key) && Blank(f.pad) && Neat(f.first) && IsLine(f.first)
    && forall c :: c in f.more ==> GoodContinuation(c)
  }

  predicate GoodParagraph(p: Paragraph) {
    && p.fields != [] && (forall f :: f in p.fields ==> GoodField(f))
    && Gaps(p.gap) && forall l :: l in p.gap ==> IsLine(l)
  }

  /** Stanzas with a blank line behind each, but maybe not the last. */
  predicate GoodFile(ps: seq<Paragraph>) {
    && (forall p :: p in ps ==> GoodParagraph(p))
    && forall i :: 0 <= i < |ps| - 1 ==> ps[i].gap != []
  }

  function FirstLine(f: Field): string {
    f.key + (":" + (f.pad + f.first))
  }

  function MoreLines(more: seq<Continuation>): seq<string> {
    seq(|more|, i requires 0 <= i < |more| => more[i].indent + more[i].text)
  }

  function FieldLines(f: Field): seq<string> {
    [FirstLine(f)] + MoreLines(f.more)
  }

  function ParagraphLines(p: Paragraph): seq<string> {
    FlatMap(FieldLines, p.fields) + p.gap
  }

  // ---- What it means ----------------------------------------------------------------------------

  /** The parts of the value, joined with single spaces. */
  function Value(first: string, more: seq<Continuation>): string {
    if more == [] then first else Value(first, more[..|more| - 1]) + " " + more[|more| - 1].text
  }

  /** Keys and values; a later field of the same key wins. */
  function Meaning(fields: seq<Field>): Stanza {
    if fields == [] then map[]
    else
      var last := fields[|fields| - 1];
      Meaning(fields[..|fields| - 1])[last.key := Value(last.first, last.more)]
  }

  lemma {:induction false} MeaningOfDistinct(fields: seq<Field>)
    requires forall i, j :: 0 <= i < j < |fields| ==> fields[i].key != fields[j].key
    ensures |Meaning(fields)| == |fields|
    ensures forall f :: f in fields ==> f.key in Meaning(fields) && Meaning(fields)[f.key] == Value(f.first, f.more)
    ensures forall k :: k in Meaning(fields) ==> exists f :: f in fields && f.key == k
  {
    if fields != [] {
      var front, last := fields[..|fields| - 1], fields[|fields| - 1];
      MeaningOfDistinct(front);
      assert fields == front + [last];
      assert last.key !in Meaning(front);
    }
  }

  // ---- Reading ----------------------------------------------------------------------------------

  lemma {:induction false} FieldsOfMore(group: seq<string>, line: string)
    ensures FieldsOf(group + [line]) == AddLine(FieldsOf(group), line)
  {
    assert (group + [line])[..|group|] == group;
  }

  lemma FirstLineReads(fields: Fields, f: Field)
    requires GoodField(f) && (fields.key != "" ==> fields.key in fields.stanza)
    ensures AddLine(fields, FirstLine(f)) == Fields(fields.stanza[f.key := f.first], f.key)
    ensures !IsGap(FirstLine(f))
  {
    var line := FirstLine(f);
    assert line[|f.key|] == ':' && line[0] == f.key[0];
    assert line[..|f.key|] == f.key && line[|f.key| + 1..] == f.pad + f.first;
    IndexIs(line, ':', |f.key|);
    TrimTakesPadding(f.pad, f.first, "");
    assert f.pad + (f.first + "") == f.pad + f.first;
    NotBlankIsNoGap(line, |f.key|);
    assert !Continues(fields, line);
    assert Trim(line[|f.key| + 1..]) == f.first;
  }

  lemma {:induction false} TrimLeftKeeps(s: string, k: nat)
    requires k < |s| && !IsBlank(s[k])
    ensures exists j :: 0 <= j < |TrimLeft(s)| && !IsBlank(TrimLeft(s)[j])
  {
    if IsBlank(s[0]) {
      assert s[1..][k - 1] == s[k];
      TrimLeftKeeps(s[1..], k - 1);
      assert TrimLeft(s) == TrimLeft(s[1..]);
    } else {
      assert TrimLeft(s) == s && !IsBlank(s[k]);
    }
  }

  lemma {:induction false} TrimRightKeeps(s: string, k: nat)
    requires k < |s| && !IsBlank(s[k])
    ensures TrimRight(s) != ""
  {
    if IsBlank(s[|s| - 1]) { TrimRightKeeps(s[..|s| - 1], k); }
  }

  lemma NotBlankIsNoGap(line: string, k: nat)
    requires k < |line| && !IsBlank(line[k])
    ensures !IsGap(line)
  {
    TrimLeftKeeps(line, k);
    var j :| 0 <= j < |TrimLeft(line)| && !IsBlank(TrimLeft(line)[j]);
    TrimRightKeeps(TrimLeft(line), j);
  }

  lemma ContinuationReads(fields: Fields, c: Continuation)
    requires GoodContinuation(c) && fields.key != "" && fields.key in fields.stanza
    ensures AddLine(fields, c.indent + c.text) ==
              Fields(fields.stanza[fields.key := fields.stanza[fields.key] + " " + c.text], fields.key)
    ensures !IsGap(c.indent + c.text)
  {
    TrimTakesPadding(c.indent, c.text, "");
    assert c.text + "" == c.text;
  }

  lemma {:induction false} FieldReads(group: seq<string>, f: Field, more: seq<Continuation>)
    requires GoodField(f) && more <= f.more
    ensures FieldsOf(group + ([FirstLine(f)] + MoreLines(more))) ==
              Fields(FieldsOf(group).stanza[f.key := Value(f.first, more)], f.key)
    ensures Solid([FirstLine(f)] + MoreLines(more))
  {
    hide FieldsOf, FirstLine;
    if more == [] {
      FirstLineReads(FieldsOf(group), f);
      FieldsOfMore(group, FirstLine(f));
      assert [FirstLine(f)] + MoreLines(more) == [FirstLine(f)];
    } else {
      var front, last := more[..|more| - 1], more[|more| - 1];
      FieldReads(group, f, front);
      assert last in f.more;
      var lines := [FirstLine(f)] + MoreLines(front);
      var line := last.indent + last.text;
      assert MoreLines(more) == MoreLines(front) + [line];
      assert group + ([FirstLine(f)] + MoreLines(more)) == (group + lines) + [line];
      FieldsOfMore(group + lines, line);
      ContinuationReads(FieldsOf(group + lines), last);
    }
  }

  /** The reader makes of a stanza what it means. */
  lemma {:induction false} StanzaReads(fields: seq<Field>)
    requires forall f :: f in fields ==> GoodField(f)
    ensures FieldsOf(FlatMap(FieldLines, fields)).stanza == Meaning(fields)
    ensures Solid(FlatMap(FieldLines, fields))
  {
    if fields != [] {
      var front, last := fields[..|fields| - 1], fields[|fields| - 1];
      StanzaReads(front);
      FieldReads(FlatMap(FieldLines, front), last, last.more);
    }
  }

  function Meanings(ps: seq<Paragraph>): seq<Stanza> {
    seq(|ps|, i requires 0 <= i < |ps| => Meaning(ps[i].fields))
  }

  /** The stanzas that are handed on to be inspected. */
  function Stanzas(lines: seq<string>): seq<Stanza> {
    var groups := Groups(lines);
    seq(|groups|, i requires 0 <= i < |groups| => FieldsOf(groups[i]).stanza)
  }

  lemma ParagraphReads(p: Paragraph)
    requires GoodParagraph(p)
    ensures Stanzas(FlatMap(FieldLines, p.fields)) == [Meaning(p.fields)]
  {
    StanzaReads(p.fields);
    var lines := FlatMap(FieldLines, p.fields);
    GroupsOfSolid(lines);
    var last := p.fields[|p.fields| - 1];
    assert lines == FlatMap(FieldLines, p.fields[..|p.fields| - 1]) + FieldLines(last);
  }

  lemma {:induction false} ParagraphsRead(ps: seq<Paragraph>)
    requires GoodFile(ps)
    ensures Stanzas(FlatMap(ParagraphLines, ps)) == Meanings(ps)
  {
    if ps != [] {
      var first, others := ps[0], ps[1..];
      ParagraphsRead(others);
      ParagraphReads(first);
      ParagraphsFromTheLeft(ps);
      StanzasSeparate(FlatMap(FieldLines, first.fields), first.gap, FlatMap(ParagraphLines, others));
      assert Meanings(ps) == [Meaning(first.fields)] + Meanings(others);
    }
  }

  lemma ParagraphsFromTheLeft(ps: seq<Paragraph>)
    requires ps != []
    ensures FlatMap(ParagraphLines, ps) ==
              FlatMap(FieldLines, ps[0].fields) + (ps[0].gap + FlatMap(ParagraphLines, ps[1..]))
  {
    assert ps == [ps[0]] + ps[1..];
    FlatMapJoins(ParagraphLines, [ps[0]], ps[1..]);
    FlatMapOne(ParagraphLines, ps[0]);
  }

  lemma StanzasSeparate(a: seq<string>, gaps: seq<string>, b: seq<string>)
    requires Gaps(gaps) && (gaps != [] || b == [])
    ensures Stanzas(a + (gaps + b)) == Stanzas(a) + Stanzas(b)
  {
    if gaps == [] {
      assert a + (gaps + b) == a;
    } else {
      GapsSeparate(a, gaps, b);
    }
  }

  // ---- Whole files ------------------------------------------------------------------------------

  lemma LinesOfField(f: Field, l: string)
    requires GoodField(f) && l in FieldLines(f)
    ensures IsLine(l)
  {
    forall i | 0 <= i < |f.pad|
      ensures f.pad[i] != '\n'
    {
      assert IsBlank(f.pad[i]);
    }
    if l != FirstLine(f) {
      var k :| 0 <= k < |f.more| && l == f.more[k].indent + f.more[k].text;
      var c := f.more[k];
      assert c in f.more && GoodContinuation(c);
      forall i | 0 <= i < |c.indent|
        ensures c.indent[i] != '\n'
      {
        assert IsBlank(c.indent[i]);
      }
    }
  }

  lemma LinesOfFile(ps: seq<Paragraph>, l: string)
    requires GoodFile(ps) && l in FlatMap(ParagraphLines, ps)
    ensures IsLine(l)
  {
    FlatMapHas(ParagraphLines, ps, l);
    var p :| p in ps && l in ParagraphLines(p);
    if l !in p.gap {
      FlatMapHas(FieldLines, p.fields, l);
      var f :| f in p.fields && l in FieldLines(f);
      LinesOfField(f, l);
    }
  }

  /** All the lines of a file: stanzas, and blank lines in front of, between and behind them. */
  function FileLines(lead: seq<string>, ps: seq<Paragraph>): seq<string> {
    lead + FlatMap(ParagraphLines, ps)
  }

  /** Whatever stanzas are written, the reader hands on exactly their meanings, in order. */
  lemma FileReadsBack(lead: seq<string>, ps: seq<Paragraph>)
    requires GoodFile(ps) && Gaps(lead) && forall l :: l in lead ==> IsLine(l)
    ensures Stanzas(Lines(Unlines(FileLines(lead, ps)))) == Meanings(ps)
  {
    FileReads(lead, ps);
    TextOfLines(FileLines(lead, ps));
  }

  /** That is so as well if the last line has no line feed. */
  lemma UnfinishedFileReadsBack(lead: seq<string>, ps: seq<Paragraph>, front: seq<string>, last: string)
    requires GoodFile(ps) && Gaps(lead) && forall l :: l in lead ==> IsLine(l)
    requires FileLines(lead, ps) == front + [last] && last != ""
    ensures Stanzas(Lines(Unlines(front) + last)) == Meanings(ps)
  {
    FileReads(lead, ps);
    assert last in front + [last] && forall l :: l in front ==> l in front + [last];
    LinesOfUnlines(front, last);
    LastLine(last);
  }

  lemma FileReads(lead: seq<string>, ps: seq<Paragraph>)
    requires GoodFile(ps) && Gaps(lead) && forall l :: l in lead ==> IsLine(l)
    ensures Stanzas(FileLines(lead, ps)) == Meanings(ps)
    ensures forall l :: l in FileLines(lead, ps) ==> IsLine(l)
  {
    var body := FlatMap(ParagraphLines, ps);
    GapsAreNothing(lead, body);
    ParagraphsRead(ps);
    forall l | l in body
      ensures IsLine(l)
    {
      LinesOfFile(ps, l);
    }
  }
}
