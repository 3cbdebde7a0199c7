/** What lines and stanzas of package sources are taken for, with everything that decides it spelled out. */
module SourceLines {
  import opened Deb822
  import opened Sequences
  import opened SourceFacts
  import opened Sources
  import opened Text
  import opened Wrappers

  // ---- Lines ------------------------------------------------------------------------------------

  /** Spaces, tabs and carriage returns. */
  predicate Padding(s: string) {
    forall k :: 0 <= k < |s| ==> s[k] == ' ' || s[k] == '\t' || s[k] == '\r'
  }

  /** Text that starts and ends with something else. */
  predicate Tidy(s: string) {
    s != "" && !Padding([s[0]]) && !Padding([s[|s| - 1]])
  }

  /** What an entry starts with, the space included. */
  predicate IsEntry(text: string) {
    "deb " <= text || "URIs:" <= text
  }

  lemma PaddingIsTrimmed(before: string, text: string, after: string)
    requires Padding(before) && Padding(after) && (text == "" || Tidy(text))
    ensures Trim(before + text + after) == text
  {
    if text != "" { assert [text[0]][0] == text[0] && [text[|text| - 1]][0] == text[|text| - 1]; }
    TrimTakesPadding(before, text, after);
    assert before + (text + after) == before + text + after;
  }

  lemma TidyIsTrimmed(text: string)
    requires text == "" || Tidy(text)
    ensures Trim(text) == text
  {
    PaddingIsTrimmed("", text, "");
    assert "" + text + "" == text;
  }

  lemma GapIsTrimmed(gap: string, text: string)
    requires Padding(gap) && (text == "" || Tidy(text))
    ensures Trim(gap + text) == text
  {
    PaddingIsTrimmed(gap, text, "");
    assert gap + text + "" == gap + text;
  }

  lemma CommentStarts(gap: string, text: string)
    requires Padding(gap) && Tidy(text)
    ensures Tidy("#" + (gap + text)) && "#" <= "#" + (gap + text) && ("#" + (gap + text))[1..] == gap + text
  {
    var s := "#" + (gap + text);
    assert s[|s| - 1] == text[|text| - 1] && s[0] == '#';
  }

  lemma StartsWith(word: string, text: string)
    requires word != "" && word <= text
    ensures text != "" && text[0] == word[0]
  {
  }

  lemma EntryIsNoComment(text: string)
    requires IsEntry(text)
    ensures !("#" <= text)
  {
    if "deb " <= text { StartsWith("deb ", text); } else { StartsWith("URIs:", text); }
    if "#" <= text { StartsWith("#", text); }
  }

  /** An entry behind a `#` is disabled, and nothing else. */
  lemma CommentedLine(r: Record, before: string, gap: string, text: string, after: string)
    requires Padding(before) && Padding(gap) && Padding(after) && Tidy(text) && IsEntry(text)
    ensures Note(r, LineEntry(before + ("#" + (gap + text)) + after)) ==
              Record(r.third, r.disabled + [text], r.duplicates, r.seen)
  {
    hide Trim, Tidy, Padding;
    CommentStarts(gap, text);
    PaddingIsTrimmed(before, "#" + (gap + text), after);
    GapIsTrimmed(gap, text);
  }

  /** An entry that is not commented out is seen, and may be third-party and a duplicate. */
  lemma ActiveLine(r: Record, before: string, text: string, after: string)
    requires Padding(before) && Padding(after) && Tidy(text) && IsEntry(text)
    ensures var third := Contains(text, "ppa.launchpadcontent.net")
                         || (!Contains(text, "ubuntu.com") && !Contains(text, "archive.canonical.com"));
            Note(r, LineEntry(before + text + after)) ==
              Record(if third then r.third + [text] else r.third, r.disabled,
                     if text in r.seen then r.duplicates + [text] else r.duplicates, r.seen + {text})
  {
    hide Trim, Tidy, Padding, Contains;
    EntryIsNoComment(text);
    PaddingIsTrimmed(before, text, after);
    TidyIsTrimmed(text);
  }

  /** Any other line changes nothing, commented out or not. */
  lemma OtherLine(r: Record, before: string, text: string, after: string)
    requires Padding(before) && Padding(after) && (text == "" || Tidy(text)) && !IsEntry(text) && !("#" <= text)
    ensures Note(r, LineEntry(before + text + after)) == r
  {
    hide Trim, Tidy, Padding;
    PaddingIsTrimmed(before, text, after);
    TidyIsTrimmed(text);
  }

  lemma OtherComment(r: Record, before: string, gap: string, text: string, after: string)
    requires Padding(before) && Padding(gap) && Padding(after) && Tidy(text) && !IsEntry(text)
    ensures Note(r, LineEntry(before + ("#" + (gap + text)) + after)) == r
  {
    hide Trim, Tidy, Padding;
    CommentStarts(gap, text);
    PaddingIsTrimmed(before, "#" + (gap + text), after);
    GapIsTrimmed(gap, text);
  }

  lemma EmptyComment(r: Record, before: string, after: string)
    requires Padding(before) && Padding(after)
    ensures Note(r, LineEntry(before + "#" + after)) == r
  {
    hide Trim;
    PaddingIsTrimmed(before, "#", after);
    TidyIsTrimmed("");
    assert "#"[1..] == "";
  }

  // ---- List files -------------------------------------------------------------------------------

  /** A line of a list file, by what it is meant to be. */
  datatype Meant =
    | Active(before: string, text: string, after: string)
    | Off(before: string, gap: string, text: string, after: string)
    | Remark(before: string, gap: string, text: string, after: string)
    | Else(before: string, text: string, after: string)

  function MeantLine(m: Meant): string {
    match m
    case Active(before, text, after) => before + text + after
    case Off(before, gap, text, after) => before + ("#" + (gap + text)) + after
    case Remark(before, gap, text, after) => before + ("#" + (gap + text)) + after
    case Else(before, text, after) => before + text + after
  }

  predicate GoodLine(m: Meant) {
    && IsLine(MeantLine(m)) && Padding(m.before) && Padding(m.after)
    && match m
       case Active(_, text, _) => Tidy(text) && IsEntry(text)
       case Off(_, gap, text, _) => Padding(gap) && Tidy(text) && IsEntry(text)
       case Remark(_, gap, text, _) => Padding(gap) && Tidy(text) && !IsEntry(text)
       case Else(_, text, _) => (text == "" || Tidy(text)) && !IsEntry(text) && !("#" <= text)
  }

  function MeantEntry(m: Meant): Option<Entry> {
    match m
    case Active(_, text, _) => Some(Enabled(text))
    case Off(_, _, text, _) => Some(Disabled(text))
    case _ => None
  }

  lemma LineReads(m: Meant)
    requires GoodLine(m)
    ensures LineEntry(MeantLine(m)) == MeantEntry(m)
  {
    hide Trim, Tidy, Padding, IsLine;
    match m
    case Active(before, text, after) =>
      EntryIsNoComment(text);
      PaddingIsTrimmed(before, text, after);
      TidyIsTrimmed(text);
    case Off(before, gap, text, after) =>
      CommentStarts(gap, text);
      PaddingIsTrimmed(before, "#" + (gap + text), after);
      GapIsTrimmed(gap, text);
    case Remark(before, gap, text, after) =>
      CommentStarts(gap, text);
      PaddingIsTrimmed(before, "#" + (gap + text), after);
      GapIsTrimmed(gap, text);
    case Else(before, text, after) =>
      PaddingIsTrimmed(before, text, after);
      TidyIsTrimmed(text);
  }

  function MeantLines(ms: seq<Meant>): seq<string> {
    seq(|ms|, k requires 0 <= k < |ms| => MeantLine(ms[k]))
  }

  function MeantEntries(ms: seq<Meant>): seq<Option<Entry>> {
    seq(|ms|, k requires 0 <= k < |ms| => MeantEntry(ms[k]))
  }

  /** A list file is read as what its lines are meant to be, in order. */
  lemma ListFileReads(ms: seq<Meant>)
    requires forall m :: m in ms ==> GoodLine(m)
    ensures FileEntries(ListFile(Unlines(MeantLines(ms)))) == MeantEntries(ms)
  {
    hide GoodLine, LineEntry, MeantLine, MeantEntry;
    var lines := MeantLines(ms);
    forall l | l in lines
      ensures IsLine(l)
    {
      var k :| 0 <= k < |lines| && lines[k] == l;
      GoodLineIsLine(ms[k]);
    }
    TextOfLines(lines);
    forall k | 0 <= k < |ms|
      ensures LineEntry(lines[k]) == MeantEntry(ms[k])
    {
      LineReads(ms[k]);
    }
  }

  lemma GoodLineIsLine(m: Meant)
    requires GoodLine(m)
    ensures IsLine(MeantLine(m))
  {
  }

  // ---- Stanzas ----------------------------------------------------------------------------------

  /** A value of one line. */
  predicate IsValue(s: string) {
    Tidy(s) && IsLine(s)
  }

  /** The field of a stanza, if it has a value. */
  function FieldOf(key: string, value: Option<string>): seq<Field> {
    if value.Some? then [Field(key, " ", value.value, [])] else []
  }

  function LineOf(key: string, value: Option<string>): seq<string> {
    if value.Some? then [key + ": " + value.value] else []
  }

  function With(m: Stanza, key: string, value: Option<string>): Stanza {
    if value.Some? then m[key := value.value] else m
  }

  predicate IsField(key: string, value: Option<string>) {
    key in ["Types", "URIs", "Suites", "Components", "Enabled"] && (value.Some? ==> IsValue(value.value))
  }

  lemma FieldIsGood(key: string, value: string)
    requires key in ["Types", "URIs", "Suites", "Components", "Enabled"] && IsValue(value)
    ensures var f := Field(key, " ", value, []); GoodField(f) && FieldLines(f) == [key + ": " + value]
  {
    assert [value[0]][0] == value[0] && [value[|value| - 1]][0] == value[|value| - 1];
    assert MoreLines([]) == [];
    assert key + (":" + (" " + value)) == key + ": " + value;
    KeyIsGood(key);
  }

  lemma KeyIsGood(key: string)
    requires key in ["Types", "URIs", "Suites", "Components", "Enabled"]
    ensures GoodKey(key)
  {
  }

  /** One more field is one more line and one more value. */
  lemma OneMore(fields: seq<Field>, key: string, value: Option<string>)
    requires IsField(key, value) && forall f :: f in fields ==> GoodField(f)
    ensures var more := fields + FieldOf(key, value);
      && (forall f :: f in more ==> GoodField(f))
      && FlatMap(FieldLines, more) == FlatMap(FieldLines, fields) + LineOf(key, value)
      && Meaning(more) == With(Meaning(fields), key, value)
  {
    hide GoodField, FieldLines, IsValue;
    match value
    case None =>
      assert fields + [] == fields && FlatMap(FieldLines, fields) + [] == FlatMap(FieldLines, fields);
    case Some(v) =>
      FieldIsGood(key, v);
      FlatMapMore(FieldLines, fields, Field(key, " ", v, []));
      assert (fields + [Field(key, " ", v, [])])[..|fields|] == fields;
  }

  /** The text of an entry: `deb`, then what there is of these. */
  function EntryText(uris: string, suites: Option<string>, components: Option<string>): string {
    "deb " + uris + (if suites.Some? then " " + suites.value else "")
                  + (if components.Some? then " " + components.value else "")
  }

  /**
   A stanza is one entry if it has URIs: disabled if its `Enabled` says `no`, and otherwise enabled, with its
   URIs, suites and components behind `deb`. Without URIs it is none.
   */
  lemma StanzaIs(types: Option<string>, uris: Option<string>, suites: Option<string>, components: Option<string>,
                 enabled: Option<string>)
    requires IsField("Types", types) && IsField("URIs", uris) && IsField("Suites", suites)
    requires IsField("Components", components) && IsField("Enabled", enabled)
    ensures var lines := LineOf("Types", types) + LineOf("URIs", uris) + LineOf("Suites", suites)
                         + LineOf("Components", components) + LineOf("Enabled", enabled);
            lines != [] ==>
              FileEntries(SourcesFile(Unlines(lines))) ==
                [if uris.None? then None
                 else
                   var text := EntryText(uris.value, suites, components);
                   Some(if enabled == Some("no") then Disabled(text) else Enabled(text))]
  {
    hide IsField, FieldOf, LineOf, With, EntryText, Meaning, FlatMap;
    var fields := FieldOf("Types", types);
    NoFields();
    OneMore([], "Types", types);
    FromNothing(FieldOf("Types", types), LineOf("Types", types));
    OneMore(fields, "URIs", uris);
    var fields1 := fields + FieldOf("URIs", uris);
    OneMore(fields1, "Suites", suites);
    var fields2 := fields1 + FieldOf("Suites", suites);
    OneMore(fields2, "Components", components);
    var fields3 := fields2 + FieldOf("Components", components);
    OneMore(fields3, "Enabled", enabled);
    var fields4 := fields3 + FieldOf("Enabled", enabled);
    var lines := LineOf("Types", types) + LineOf("URIs", uris) + LineOf("Suites", suites)
                 + LineOf("Components", components) + LineOf("Enabled", enabled);
    if lines != [] {
      if fields4 == [] { NoFields(); }
      ParagraphFile(fields4, lines);
      EnabledIsTrimmed(enabled);
      WithAll(types, uris, suites, components, enabled);
    }
  }

  lemma NoFields()
    ensures FlatMap(FieldLines, []) == [] && Meaning([]) == map[]
  {
  }

  lemma FromNothing(fields: seq<Field>, lines: seq<string>)
    ensures [] + fields == fields && [] + lines == lines
  {
  }

  lemma EnabledIsTrimmed(enabled: Option<string>)
    requires IsField("Enabled", enabled)
    ensures enabled.Some? ==> Trim(enabled.value) == enabled.value
  {
    if enabled.Some? { TidyIsTrimmed(enabled.value); }
  }

  lemma WithAll(types: Option<string>, uris: Option<string>, suites: Option<string>, components: Option<string>,
                enabled: Option<string>)
    requires enabled.Some? ==> Trim(enabled.value) == enabled.value
    ensures var m := With(With(With(With(With(map[], "Types", types), "URIs", uris), "Suites", suites),
                               "Components", components), "Enabled", enabled);
            StanzaEntry(m) ==
              if uris.None? then None
              else
                var text := EntryText(uris.value, suites, components);
                Some(if enabled == Some("no") then Disabled(text) else Enabled(text))
  {
    hide Trim;
  }

  /** A file of one stanza is one entry. */
  lemma ParagraphFile(fields: seq<Field>, lines: seq<string>)
    requires fields != [] && (forall f :: f in fields ==> GoodField(f)) && FlatMap(FieldLines, fields) == lines
    ensures FileEntries(SourcesFile(Unlines(lines))) == [StanzaEntry(Meaning(fields))]
  {
    hide GoodField, FieldLines, Meaning, StanzaEntry;
    var p := Paragraph(fields, []);
    FlatMapOne(ParagraphLines, p);
    assert lines + [] == lines && [] + lines == lines;
    FileReadsBack([], [p]);
    var groups := Groups(Lines(Unlines(lines)));
    assert Stanzas(Lines(Unlines(lines))) == Meanings([p]);
    assert |groups| == 1 && FieldsOf(groups[0]).stanza == Stanzas(Lines(Unlines(lines)))[0] == Meaning(fields);
  }
}
