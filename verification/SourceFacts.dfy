/**
 What the source readers record, as a matter of the entries in the files: duplicates are the entries beyond
 the first of their kind, neither the order of files nor extra blank lines matter, and deb822 text is read
 as it was written.
 */
module SourceFacts {
  import opened Sequences
  import opened Text
  import opened Wrappers
  import opened Sources

  type Entries = seq<Option<Entry>>

  // ---- The record and the entries ---------------------------------------------------------------

  function EnabledText(entry: Option<Entry>): seq<string> {
    match entry
    case Some(Enabled(text)) => [text]
    case _ => []
  }

  function DisabledText(entry: Option<Entry>): seq<string> {
    match entry
    case Some(Disabled(text)) => [text]
    case _ => []
  }

  function ThirdText(text: string): seq<string> {
    if ThirdParty(text) then [text] else []
  }

  function EnabledIn(entries: Entries): seq<string> {
    FlatMap(EnabledText, entries)
  }

  function DisabledIn(entries: Entries): seq<string> {
    FlatMap(DisabledText, entries)
  }

  function ThirdIn(texts: seq<string>): seq<string> {
    FlatMap(ThirdText, texts)
  }

  /** The record is what these enabled and disabled entries amount to. */
  ghost predicate Accounts(r: Record, enabled: seq<string>, disabled: seq<string>) {
    && r.disabled == disabled
    && r.third == ThirdIn(enabled)
    && (forall t :: t in r.seen <==> t in enabled)
    && multiset(r.duplicates) + multiset(r.seen) == multiset(enabled)
  }

  lemma ThirdInMore(texts: seq<string>, text: string)
    ensures ThirdIn(texts + [text]) == if ThirdParty(text) then ThirdIn(texts) + [text] else ThirdIn(texts)
  {
    hide ThirdParty;
    FlatMapMore(ThirdText, texts, text);
    assert ThirdIn(texts) + [] == ThirdIn(texts);
  }

  lemma EnabledAccounts(r: Record, enabled: seq<string>, disabled: seq<string>, text: string)
    requires Accounts(r, enabled, disabled)
    ensures Accounts(Note(r, Some(Enabled(text))), enabled + [text], disabled)
  {
    hide ThirdParty, ThirdIn;
    ThirdInMore(enabled, text);
    var q := Note(r, Some(Enabled(text)));
    if text in r.seen {
      assert q.seen == r.seen;
    } else {
      assert multiset(q.seen) == multiset(r.seen) + multiset{text};
    }
  }

  /**
   The record after any entries: duplicates and distinct entries together are the enabled entries, so a
   duplicate is recorded for every occurrence but one.
   */
  lemma {:induction false} RecordOfEntries(entries: Entries)
    ensures Accounts(NoteAll(NOTHING, entries), EnabledIn(entries), DisabledIn(entries))
  {
    if entries != [] {
      var front, last := entries[..|entries| - 1], entries[|entries| - 1];
      RecordOfEntries(front);
      assert EnabledIn(entries) == EnabledIn(front) + EnabledText(last);
      assert DisabledIn(entries) == DisabledIn(front) + DisabledText(last);
      assert EnabledIn(front) + [] == EnabledIn(front) && DisabledIn(front) + [] == DisabledIn(front);
      match last
      case Some(Enabled(text)) => EnabledAccounts(NoteAll(NOTHING, front), EnabledIn(front), DisabledIn(front), text);
      case _ =>
    }
  }

  /** An entry is a duplicate exactly if it is enabled more than once. */
  lemma DuplicateExactly(entries: Entries, text: string)
    ensures text in NoteAll(NOTHING, entries).duplicates <==> multiset(EnabledIn(entries))[text] > 1
    ensures multiset(NoteAll(NOTHING, entries).duplicates)[text] ==
              if text in EnabledIn(entries) then multiset(EnabledIn(entries))[text] - 1 else 0
  {
    RecordOfEntries(entries);
    var r := NoteAll(NOTHING, entries);
    assert multiset(r.duplicates)[text] + multiset(r.seen)[text] == multiset(EnabledIn(entries))[text];
    assert text in r.duplicates <==> multiset(r.duplicates)[text] > 0;
  }

  // ---- Order ------------------------------------------------------------------------------------

  predicate SameFacts(r: Record, q: Record) {
    && multiset(r.third) == multiset(q.third) && multiset(r.disabled) == multiset(q.disabled)
    && multiset(r.duplicates) == multiset(q.duplicates) && r.seen == q.seen
  }

  lemma EntriesInAnyOrder(a: Entries, b: Entries)
    requires multiset(a) == multiset(b)
    ensures SameFacts(NoteAll(NOTHING, a), NoteAll(NOTHING, b))
  {
    RecordOfEntries(a);
    RecordOfEntries(b);
    FlatMapInAnyOrder(EnabledText, a, b);
    FlatMapInAnyOrder(DisabledText, a, b);
    FlatMapInAnyOrder(ThirdText, EnabledIn(a), EnabledIn(b));
    var r, q := NoteAll(NOTHING, a), NoteAll(NOTHING, b);
    forall text: string
      ensures text in r.seen <==> text in q.seen
    {
      assert text in EnabledIn(a) <==> text in multiset(EnabledIn(a));
      assert text in EnabledIn(b) <==> text in multiset(EnabledIn(b));
    }
    Cancel(multiset(r.duplicates), multiset(q.duplicates), multiset(r.seen));
  }

  /** The directory may list its files in any order. */
  lemma DirectoryOrderDoesNotMatter(main: Option<string>, a: seq<File>, b: seq<File>)
    requires multiset(a) == multiset(b)
    ensures SameFacts(NoteAll(NOTHING, Read(main, a)), NoteAll(NOTHING, Read(main, b)))
  {
    FlatMapInAnyOrder(FileEntries, a, b);
    EntriesInAnyOrder(Read(main, a), Read(main, b));
  }

  // ---- Blank lines ------------------------------------------------------------------------------

  predicate Gaps(lines: seq<string>) {
    forall l :: l in lines ==> IsGap(l)
  }

  lemma {:induction false} GapsAreNothing(gaps: seq<string>, b: seq<string>)
    requires Gaps(gaps)
    ensures Groups(gaps + b) == Groups(b)
  {
    if gaps == [] {
      assert gaps + b == b;
    } else {
      GapsAreNothing(gaps[1..], b);
      assert (gaps + b)[1..] == gaps[1..] + b && IsGap((gaps + b)[0]);
      assert Groups(gaps + b) == Groups((gaps + b)[1..]);
    }
  }

  /** Any blank lines separate like any others, and blank lines at the ends are as good as none. */
  lemma GapsSeparate(a: seq<string>, gaps: seq<string>, b: seq<string>)
    requires Gaps(gaps) && gaps != []
    ensures Groups(a + (gaps + b)) == Groups(a) + Groups(b)
  {
    GroupsSplit(a, gaps[0], gaps[1..] + b);
    GapsAreNothing(gaps[1..], b);
    Sequences.Uncons(gaps, b);
  }

  /** So more or fewer blank lines where there are some change nothing that is recorded. */
  lemma ExtraBlankLines(r: Record, a: seq<string>, gaps: seq<string>, others: seq<string>, b: seq<string>)
    requires Gaps(gaps) && Gaps(others) && gaps != []
    requires others != [] || a == [] || b == []
    ensures NoteAll(r, StanzaEntries(Groups(a + (gaps + b)))) == NoteAll(r, StanzaEntries(Groups(a + (others + b))))
  {
    GapsSeparate(a, gaps, b);
    if others != [] {
      GapsSeparate(a, others, b);
    } else if a == [] {
      assert a + (others + b) == b;
      assert Groups(a) + Groups(b) == Groups(b);
    } else {
      assert a + (others + b) == a;
      assert Groups(a) + Groups(b) == Groups(a);
    }
  }

  // ---- Duplicates across the two formats --------------------------------------------------------

  /** The file has the entry, enabled. */
  predicate Holds(file: File, text: string) {
    Some(Enabled(text)) in FileEntries(file)
  }

  /** An entry that two different files have is recorded as a duplicate, whatever else there is. */
  lemma HeldTwiceIsDuplicate(main: Option<string>, files: seq<File>, i: nat, j: nat, text: string)
    requires i < j < |files| && Holds(files[i], text) && Holds(files[j], text)
    ensures text in NoteAll(NOTHING, Read(main, files)).duplicates
  {
    var front, back := files[..j], files[j..];
    assert files == front + back && front[i] == files[i] && back[0] == files[j];
    FlatMapJoins(FileEntries, front, back);
    FlatMapHas(FileEntries, front, Some(Enabled(text)));
    FlatMapHas(FileEntries, back, Some(Enabled(text)));
    TwiceInEntries(Read(main, []), AllEntries(front), AllEntries(back), text);
    assert Read(main, files) == Read(main, []) + (AllEntries(front) + AllEntries(back));
  }

  lemma TwiceInEntries(a: Entries, b: Entries, c: Entries, text: string)
    requires Some(Enabled(text)) in b && Some(Enabled(text)) in c
    ensures text in NoteAll(NOTHING, a + (b + c)).duplicates
  {
    FlatMapJoins(EnabledText, a, b + c);
    FlatMapJoins(EnabledText, b, c);
    FlatMapHas(EnabledText, b, text);
    FlatMapHas(EnabledText, c, text);
    assert text in EnabledText(Some(Enabled(text)));
    TwoOf(EnabledIn(a), EnabledIn(b), EnabledIn(c), text);
    DuplicateExactly(a + (b + c), text);
  }

  lemma TwoOf<A>(a: seq<A>, b: seq<A>, c: seq<A>, x: A)
    requires x in b && x in c
    ensures multiset(a + (b + c))[x] > 1
  {
    assert multiset(b)[x] > 0 && multiset(c)[x] > 0;
  }

  lemma {:induction false} TrimRightOfSolid(s: string, pad: string)
    requires s != "" && !IsBlank(s[|s| - 1]) && forall i :: 0 <= i < |pad| ==> IsBlank(pad[i])
    ensures TrimRight(s + pad) == s
  {
    if pad == "" {
      assert s + pad == s;
    } else {
      assert (s + pad)[..|s + pad| - 1] == s + pad[..|pad| - 1];
      TrimRightOfSolid(s, pad[..|pad| - 1]);
    }
  }

  lemma {:induction false} TrimLeftOfSolid(pad: string, s: string)
    requires s != "" && !IsBlank(s[0]) && forall i :: 0 <= i < |pad| ==> IsBlank(pad[i])
    ensures TrimLeft(pad + s) == s
  {
    if pad == "" {
      assert pad + s == s;
    } else {
      assert (pad + s)[1..] == pad[1..] + s;
      TrimLeftOfSolid(pad[1..], s);
    }
  }

  predicate Blank(s: string) {
    forall i :: 0 <= i < |s| ==> IsBlank(s[i])
  }

  /** Text with no blanks at its ends. */
  predicate Neat(s: string) {
    s == "" || (!IsBlank(s[0]) && !IsBlank(s[|s| - 1]))
  }

  lemma {:induction false} TrimOfBlank(pad: string)
    requires Blank(pad)
    ensures Trim(pad) == ""
  {
    if pad != "" { TrimOfBlank(pad[1..]); }
  }

  /** Trimming takes off exactly the blanks around a neat text. */
  lemma TrimTakesPadding(before: string, s: string, after: string)
    requires Blank(before) && Blank(after) && Neat(s)
    ensures Trim(before + (s + after)) == s
  {
    if s == "" {
      TrimOfBlank(before + (s + after));
    } else {
      TrimLeftOfSolid(before, s + after);
      TrimRightOfSolid(s, after);
    }
  }

  /** The entry of URIs, suites and components. */
  function OneLine(uris: string, suites: string, components: string): string {
    "deb " + uris + " " + suites + " " + components
  }

  /** The stanza names these, and is not switched off. */
  predicate Offers(m: Stanza, uris: string, suites: string, components: string) {
    && "URIs" in m && m["URIs"] == uris
    && "Suites" in m && m["Suites"] == suites
    && "Components" in m && m["Components"] == components
    && ("Enabled" in m ==> Trim(m["Enabled"]) != "no")
  }

  lemma OneLineIsNeat(uris: string, suites: string, components: string)
    requires components != "" && !IsBlank(components[|components| - 1])
    ensures Neat(OneLine(uris, suites, components)) && "deb " <= OneLine(uris, suites, components)
  {
  }

  lemma OfferedEntry(m: Stanza, uris: string, suites: string, components: string)
    requires Offers(m, uris, suites, components)
    ensures StanzaEntry(m) == Some(Enabled(OneLine(uris, suites, components)))
  {
    assert "deb " + uris + (" " + suites) + (" " + components) == OneLine(uris, suites, components);
  }

  lemma ListLineEntry(before: string, text: string, after: string)
    requires Blank(before) && Blank(after) && Neat(text) && "deb " <= text
    ensures LineEntry(before + (text + after)) == Some(Enabled(text))
  {
    TrimTakesPadding(before, text, after);
    TrimTakesPadding("", text, "");
    assert "" + (text + "") == text;
  }

  /**
   A line of a list file and a stanza of a sources file that name the same URIs, suites and components are
   duplicates of each other, wherever the two files come among any others.
   */
  lemma DuplicateAcrossFormats(main: Option<string>, files: seq<File>, i: nat, j: nat,
                               before: string, after: string, group: seq<string>,
                               uris: string, suites: string, components: string)
    requires i < |files| && j < |files| && files[i].ListFile? && files[j].SourcesFile?
    requires Blank(before) && Blank(after) && components != "" && !IsBlank(components[|components| - 1])
    requires before + (OneLine(uris, suites, components) + after) in Lines(files[i].text)
    requires group in Groups(Lines(files[j].text))
    requires Offers(FieldsOf(group).stanza, uris, suites, components)
    ensures OneLine(uris, suites, components) in NoteAll(NOTHING, Read(main, files)).duplicates
  {
    var text := OneLine(uris, suites, components);
    OneLineIsNeat(uris, suites, components);
    ListHolds(files[i], before, text, after);
    StanzaHolds(files[j], group, uris, suites, components);
    if i < j {
      HeldTwiceIsDuplicate(main, files, i, j, text);
    } else {
      HeldTwiceIsDuplicate(main, files, j, i, text);
    }
  }

  /** `sources.list` counts as one more list file in front of the others. */
  lemma MainIsAListFile(text: string, files: seq<File>)
    ensures Read(Some(text), files) == Read(None, [ListFile(text)] + files)
  {
    FlatMapJoins(FileEntries, [ListFile(text)], files);
    FlatMapOne(FileEntries, ListFile(text));
    assert [] + (FileEntries(ListFile(text)) + AllEntries(files)) == ListEntries(Lines(text)) + AllEntries(files);
  }

  lemma ListHolds(file: File, before: string, text: string, after: string)
    requires file.ListFile? && Blank(before) && Blank(after) && Neat(text) && "deb " <= text
    requires before + (text + after) in Lines(file.text)
    ensures Holds(file, text)
  {
    var lines := Lines(file.text);
    var k :| 0 <= k < |lines| && lines[k] == before + (text + after);
    ListLineEntry(before, text, after);
    assert ListEntries(lines)[k] == Some(Enabled(text));
  }

  lemma StanzaHolds(file: File, group: seq<string>, uris: string, suites: string, components: string)
    requires file.SourcesFile? && group in Groups(Lines(file.text))
    requires Offers(FieldsOf(group).stanza, uris, suites, components)
    ensures Holds(file, OneLine(uris, suites, components))
  {
    OfferedEntry(FieldsOf(group).stanza, uris, suites, components);
    var groups := Groups(Lines(file.text));
    var k :| 0 <= k < |groups| && groups[k] == group;
    assert StanzaEntries(groups)[k] == StanzaEntry(FieldsOf(group).stanza);
  }
}
