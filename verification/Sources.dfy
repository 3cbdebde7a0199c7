/**
 The APT source readers: one-line `.list` files and deb822 `.sources` files. A reader works through lines
 with a record of the entries seen so far; what it records is proved to be a matter of the entries alone.
 */
module Sources {
  import opened Sequences
  import opened Text
  import opened Wrappers

  // ---- Entries ----------------------------------------------------------------------------------

  predicate IsBlank(c: char) {
    c == ' ' || c == '\t' || c == '\r'
  }

  function TrimLeft(s: string): string {
    if s != "" && IsBlank(s[0]) then TrimLeft(s[1..]) else s
  }

  function TrimRight(s: string): string {
    if s != "" && IsBlank(s[|s| - 1]) then TrimRight(s[..|s| - 1]) else s
  }

  function Trim(s: string): string {
    TrimRight(TrimLeft(s))
  }

  predicate ThirdParty(line: string) {
    || Contains(line, "ppa.launchpadcontent.net")
    || (!Contains(line, "ubuntu.com") && !Contains(line, "archive.canonical.com"))
  }

  /** What a line or a stanza says. */
  datatype Entry = Enabled(text: string) | Disabled(text: string)

  function LineEntry(line: string): Option<Entry> {
    var cleaned := Trim(line);
    var disabled := "#" <= cleaned;
    var active := Trim(if disabled then cleaned[1..] else cleaned);
    if !("deb " <= active) && !("URIs:" <= active) then None
    else if disabled then Some(Disabled(active)) else Some(Enabled(active))
  }

  type Stanza = map<string, string>

  function Normalized(stanza: Stanza): string
    requires "URIs" in stanza
  {
    "deb " + stanza["URIs"]
    + (if "Suites" in stanza then " " + stanza["Suites"] else "")
    + (if "Components" in stanza then " " + stanza["Components"] else "")
  }

  function StanzaEntry(stanza: Stanza): Option<Entry> {
    if "URIs" !in stanza then None
    else if "Enabled" in stanza && Trim(stanza["Enabled"]) == "no" then Some(Disabled(Normalized(stanza)))
    else Some(Enabled(Normalized(stanza)))
  }

  // ---- The record -------------------------------------------------------------------------------

  datatype Record = Record(third: seq<string>, disabled: seq<string>, duplicates: seq<string>, seen: set<string>)

  const NOTHING := Record([], [], [], {})

  function Note(r: Record, entry: Option<Entry>): Record {
    match entry
    case None => r
    case Some(Disabled(text)) => r.(disabled := r.disabled + [text])
    case Some(Enabled(text)) =>
      r.(third := if ThirdParty(text) then r.third + [text] else r.third,
         duplicates := if text in r.seen then r.duplicates + [text] else r.duplicates,
         seen := r.seen + {text})
  }

  function NoteAll(r: Record, entries: seq<Option<Entry>>): Record {
    if entries == [] then r else Note(NoteAll(r, entries[..|entries| - 1]), entries[|entries| - 1])
  }

  lemma {:induction false} NoteAllJoins(r: Record, a: seq<Option<Entry>>, b: seq<Option<Entry>>)
    ensures NoteAll(r, a + b) == NoteAll(NoteAll(r, a), b)
  {
    if b == [] {
      assert a + b == a;
    } else {
      var n := |b| - 1;
      NoteAllJoins(r, a, b[..n]);
      assert (a + b)[..|a| + n] == a + b[..n];
    }
  }

  // ---- Files ------------------------------------------------------------------------------------

  function ListEntries(lines: seq<string>): seq<Option<Entry>> {
    seq(|lines|, i requires 0 <= i < |lines| => LineEntry(lines[i]))
  }

  predicate IsGap(line: string) {
    Trim(line) == ""
  }

  /** How many lines come before the first blank one. */
  function GroupLength(lines: seq<string>): (n: nat)
    ensures n <= |lines| && (forall i :: 0 <= i < n ==> !IsGap(lines[i])) && (n < |lines| ==> IsGap(lines[n]))
  {
    if lines == [] || IsGap(lines[0]) then 0 else 1 + GroupLength(lines[1..])
  }

  lemma {:induction false} GroupLengthIs(lines: seq<string>, n: nat)
    requires n <= |lines| && (forall i :: 0 <= i < n ==> !IsGap(lines[i])) && (n < |lines| ==> IsGap(lines[n]))
    ensures GroupLength(lines) == n
  {
    if n > 0 { GroupLengthIs(lines[1..], n - 1); }
  }

  /** The lines between blank lines. */
  function Groups(lines: seq<string>): seq<seq<string>>
    decreases |lines|
  {
    if lines == [] then []
    else
      var n := GroupLength(lines);
      if n == 0 then Groups(lines[1..]) else [lines[..n]] + Groups(lines[n..])
  }

  /** The fields read so far and the field that a continuation line belongs to. */
  datatype Fields = Fields(stanza: Stanza, key: string)

  const NO_FIELDS := Fields(map[], "")

  predicate Continues(fields: Fields, line: string) {
    fields.key != "" && line != "" && (line[0] == ' ' || line[0] == '\t')
  }

  function AddLine(fields: Fields, line: string): (r: Fields)
    requires fields.key != "" ==> fields.key in fields.stanza
    ensures r.key != "" ==> r.key in r.stanza
  {
    var Fields(stanza, key) := fields;
    var colon := IndexOf(line, ':');
    if Continues(fields, line) then
      Fields(stanza[key := stanza[key] + " " + Trim(line)], key)
    else if colon < |line| then
      Fields(stanza[line[..colon] := Trim(line[colon + 1..])], line[..colon])
    else
      fields
  }

  function FieldsOf(group: seq<string>): (r: Fields)
    ensures r.key != "" ==> r.key in r.stanza
  {
    if group == [] then NO_FIELDS else AddLine(FieldsOf(group[..|group| - 1]), group[|group| - 1])
  }

  function StanzaEntries(groups: seq<seq<string>>): seq<Option<Entry>> {
    seq(|groups|, i requires 0 <= i < |groups| => StanzaEntry(FieldsOf(groups[i]).stanza))
  }

  /** A file of the sources directory, by its extension. */
  datatype File = ListFile(text: string) | SourcesFile(text: string) | OtherFile

  function FileEntries(file: File): seq<Option<Entry>> {
    match file
    case ListFile(text) => ListEntries(Lines(text))
    case SourcesFile(text) => StanzaEntries(Groups(Lines(text)))
    case OtherFile => []
  }

  function AllEntries(files: seq<File>): seq<Option<Entry>> {
    FlatMap(FileEntries, files)
  }

  // ---- The readers ------------------------------------------------------------------------------

  class Reader {
    var third: seq<string>
    var disabled: seq<string>
    var duplicates: seq<string>
    var seen: set<string>

    /** A reader that adds to what was recorded before; it has seen nothing yet. */
    constructor (third: seq<string>, disabled: seq<string>, duplicates: seq<string>)
      ensures State() == Record(third, disabled, duplicates, {})
    {
      this.third, this.disabled, this.duplicates, this.seen := third, disabled, duplicates, {};
    }

    function State(): Record
      reads this
    {
      Record(third, disabled, duplicates, seen)
    }

    /** What enabled and disabled entries of either format have in common. */
    method Keep(text: string)
      modifies this
      ensures State() == Note(old(State()), Some(Enabled(text)))
    {
      if ThirdParty(text) {
        third := third + [text];
      }
      if text in seen {
        duplicates := duplicates + [text];
      }
      seen := seen + {text};
    }

    method InspectLine(line: string)
      modifies this
      ensures State() == Note(old(State()), LineEntry(line))
    {
      var cleaned := Trim(line);
      var off := "#" <= cleaned;
      var active := Trim(if off then cleaned[1..] else cleaned);
      if !("deb " <= active) && !("URIs:" <= active) {
        return;
      }
      if off {
        disabled := disabled + [active];
        return;
      }
      Keep(active);
    }

    method ReadList(lines: seq<string>)
      modifies this
      ensures State() == NoteAll(old(State()), ListEntries(lines))
    {
      ghost var start := State();
      for i := 0 to |lines|
        invariant State() == NoteAll(start, ListEntries(lines[..i]))
      {
        InspectLine(lines[i]);
        NextLine(start, lines, i);
      }
      assert lines[..|lines|] == lines;
    }

    method InspectStanza(stanza: Stanza)
      modifies this
      ensures State() == Note(old(State()), StanzaEntry(stanza))
    {
      if stanza == map[] || "URIs" !in stanza {
        return;
      }
      var normalized := "deb " + stanza["URIs"];
      if "Suites" in stanza {
        normalized := normalized + " " + stanza["Suites"];
      }
      if "Components" in stanza {
        normalized := normalized + " " + stanza["Components"];
      }
      assert normalized == Normalized(stanza);
      if "Enabled" in stanza && Trim(stanza["Enabled"]) == "no" {
        disabled := disabled + [normalized];
        return;
      }
      Keep(normalized);
    }

    method ReadDeb822(lines: seq<string>)
      modifies this
      ensures State() == NoteAll(old(State()), StanzaEntries(Groups(lines)))
    {
      ghost var start, closed, open := State(), [], [];
      var stanza: Stanza, key := map[], "";
      for i := 0 to |lines|
        invariant lines[..i] == closed + open && Closed(closed) && Solid(open)
        invariant FieldsOf(open) == Fields(stanza, key)
        invariant State() == NoteAll(start, StanzaEntries(Groups(closed)))
      {
        var line := lines[i];
        LineFollows(lines, i, closed, open);
        if Trim(line) == "" {
          NextGroup(start, closed, open);
          InspectStanza(stanza);
          stanza, key := map[], "";
          GapCloses(closed + open, line);
          closed, open := closed + open + [line], [];
          continue;
        }
        LineJoins(open, line);
        open := open + [line];
        if key != "" && line != "" && (line[0] == ' ' || line[0] == '\t') {
          stanza := stanza[key := stanza[key] + " " + Trim(line)];
          continue;
        }
        var colon := IndexOf(line, ':');
        if colon < |line| {
          key := line[..colon];
          stanza := stanza[key := Trim(line[colon + 1..])];
        }
      }
      assert lines[..|lines|] == lines;
      NextGroup(start, closed, open);
      InspectStanza(stanza);
    }

    method Collect(main: Option<string>, directory: seq<File>)
      modifies this
      ensures State() == NoteAll(old(State()), Read(main, directory))
    {
      ghost var start := State();
      if main.Some? {
        ReadList(Lines(main.value));
      }
      ghost var listed := State();
      for i := 0 to |directory|
        invariant State() == NoteAll(listed, AllEntries(directory[..i]))
      {
        match directory[i] {
          case ListFile(text) => ReadList(Lines(text));
          case SourcesFile(text) => ReadDeb822(Lines(text));
          case OtherFile =>
        }
        NextFile(listed, directory, i);
      }
      assert directory[..|directory|] == directory;
      NoteAllJoins(start, if main.Some? then ListEntries(Lines(main.value)) else [], AllEntries(directory));
    }
  }

  /** Everything that is read: `sources.list`, if there is one, and the files of `sources.list.d`. */
  function Read(main: Option<string>, directory: seq<File>): seq<Option<Entry>> {
    (if main.Some? then ListEntries(Lines(main.value)) else []) + AllEntries(directory)
  }

  lemma NextFile(r: Record, files: seq<File>, i: nat)
    requires i < |files|
    ensures NoteAll(r, AllEntries(files[..i + 1])) == NoteAll(NoteAll(r, AllEntries(files[..i])), FileEntries(files[i]))
  {
    FlatMapMore(FileEntries, files[..i], files[i]);
    assert files[..i + 1] == files[..i] + [files[i]];
    NoteAllJoins(r, AllEntries(files[..i]), FileEntries(files[i]));
  }

  lemma NextLine(r: Record, lines: seq<string>, i: nat)
    requires i < |lines|
    ensures NoteAll(r, ListEntries(lines[..i + 1])) == Note(NoteAll(r, ListEntries(lines[..i])), LineEntry(lines[i]))
  {
    assert ListEntries(lines[..i + 1])[..i] == ListEntries(lines[..i]);
  }

  // ---- Splitting at blank lines -----------------------------------------------------------------

  predicate Solid(lines: seq<string>) {
    forall l :: l in lines ==> !IsGap(l)
  }

  /** Nothing is left open: the last line, if any, is blank. */
  predicate Closed(lines: seq<string>) {
    lines == [] || IsGap(lines[|lines| - 1])
  }

  /** A blank line separates: what is before and what is behind it are split on their own. */
  lemma {:induction false} GroupsSplit(a: seq<string>, gap: string, b: seq<string>)
    requires IsGap(gap)
    ensures Groups(a + ([gap] + b)) == Groups(a) + Groups(b)
    decreases |a|
  {
    var all := a + ([gap] + b);
    if a == [] {
      assert all[1..] == b;
      assert Groups(all) == Groups(b);
    } else if IsGap(a[0]) {
      assert all[1..] == a[1..] + ([gap] + b);
      GroupsSplit(a[1..], gap, b);
    } else {
      var n := GroupLength(a);
      assert all[|a|] == gap;
      GroupLengthJoins(a, gap, b);
      assert all[..n] == a[..n] && all[n..] == a[n..] + ([gap] + b);
      GroupsSplit(a[n..], gap, b);
    }
  }

  lemma GroupLengthJoins(a: seq<string>, gap: string, b: seq<string>)
    requires IsGap(gap)
    ensures GroupLength(a + ([gap] + b)) == GroupLength(a)
  {
    var all := a + ([gap] + b);
    assert all[|a|] == gap;
    GroupLengthIs(all, GroupLength(a));
  }

  lemma GroupsOfSolid(lines: seq<string>)
    requires Solid(lines)
    ensures Groups(lines) == if lines == [] then [] else [lines]
  {
    if lines != [] {
      var n := |lines|;
      GroupLengthIs(lines, n);
      assert lines[..n] == lines && lines[n..] == [];
    }
  }

  /** The groups of closed lines, and the one that is still open. */
  lemma GroupsOfOpen(closed: seq<string>, open: seq<string>)
    requires Closed(closed) && Solid(open)
    ensures Groups(closed + open) == Groups(closed) + (if open == [] then [] else [open])
  {
    GroupsOfSolid(open);
    if closed == [] {
      assert closed + open == open;
    } else {
      var n := |closed| - 1;
      GroupsSplit(closed[..n], closed[n], open);
      GroupsSplit(closed[..n], closed[n], []);
      assert closed == closed[..n] + ([closed[n]] + []);
      assert closed + open == closed[..n] + ([closed[n]] + open);
    }
  }

  lemma LineFollows(lines: seq<string>, i: nat, closed: seq<string>, open: seq<string>)
    requires i < |lines| && lines[..i] == closed + open
    ensures lines[..i + 1] == closed + (open + [lines[i]])
    ensures lines[..i + 1] == (closed + open + [lines[i]]) + []
  {
  }

  lemma LineJoins(open: seq<string>, line: string)
    requires Solid(open) && !IsGap(line)
    ensures Solid(open + [line]) && FieldsOf(open + [line]) == AddLine(FieldsOf(open), line)
  {
    assert (open + [line])[..|open|] == open;
  }

  lemma GapCloses(lines: seq<string>, gap: string)
    requires IsGap(gap)
    ensures Groups(lines + [gap]) == Groups(lines) && Closed(lines + [gap])
  {
    GroupsSplit(lines, gap, []);
    assert [gap] + [] == [gap];
  }

  /** The open group is inspected last. */
  lemma NextGroup(r: Record, closed: seq<string>, open: seq<string>)
    requires Closed(closed) && Solid(open)
    ensures NoteAll(r, StanzaEntries(Groups(closed + open))) ==
              Note(NoteAll(r, StanzaEntries(Groups(closed))), StanzaEntry(FieldsOf(open).stanza))
  {
    GroupsOfOpen(closed, open);
    var all := Groups(closed + open);
    if open == [] {
      assert closed + open == closed;
    } else {
      assert StanzaEntries(all)[..|all| - 1] == StanzaEntries(Groups(closed));
    }
  }
}
