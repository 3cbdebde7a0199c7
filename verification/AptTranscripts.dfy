/** What a simulation prints, written out and parsed: no name is lost, added or moved to another section. */
module AptTranscripts {
  import opened Sequences
  import opened Text
  import opened AptSimulation

  // ---- Transcripts ------------------------------------------------------------------------------

  /** A name and the space in front of it. */
  datatype Spaced = Spaced(space: string, name: string)

  /** An indented line of names. */
  datatype Row = Row(names: seq<Spaced>, trail: string)

  datatype Item =
    | Prose(line: string)
    | Listing(heading: string, rows: seq<Row>)
    | Inst(name: Spaced, details: string)

  function SpacedText(n: Spaced): string {
    n.space + n.name
  }

  function RowLine(row: Row): string {
    FlatMap(SpacedText, row.names) + row.trail
  }

  function RowLines(rows: seq<Row>): seq<string> {
    seq(|rows|, i requires 0 <= i < |rows| => RowLine(rows[i]))
  }

  function ItemLines(item: Item): (lines: seq<string>)
    ensures lines != []
  {
    match item
    case Prose(line) => [line]
    case Listing(heading, rows) => [heading] + RowLines(rows)
    case Inst(name, details) => ["Inst " + (name.space + (name.name + details))]
  }

  function Transcript(items: seq<Item>): seq<string> {
    FlatMap(ItemLines, items)
  }

  predicate Spaces(s: string) {
    forall i :: 0 <= i < |s| ==> IsSpace(s[i])
  }

  predicate IsName(s: string) {
    s != "" && forall i :: 0 <= i < |s| ==> !IsSpace(s[i])
  }

  predicate GoodName(n: Spaced) {
    n.space != "" && Spaces(n.space) && IsName(n.name)
  }

  predicate GoodRow(row: Row) {
    Indented(RowLine(row)) && Spaces(row.trail) && forall n :: n in row.names ==> GoodName(n)
  }

  /** Nothing but the rows of a listing is indented, and only Inst lines start like one. */
  predicate GoodItem(item: Item) {
    match item
    case Prose(line) => !Indented(line) && !("Inst " <= line)
    case Listing(heading, rows) => !Indented(heading) && !("Inst " <= heading) && forall r :: r in rows ==> GoodRow(r)
    case Inst(name, details) =>
      Spaces(name.space) && IsName(name.name) && (details == "" || IsSpace(details[0]))
  }

  /** The item starts with a line that starts with the heading. */
  predicate Heads(item: Item, heading: string) {
    heading <= ItemLines(item)[0]
  }

  function NameOnly(n: Spaced): seq<string> {
    [n.name]
  }

  function RowNames(row: Row): seq<string> {
    FlatMap(NameOnly, row.names)
  }

  /** The names of the listing. */
  function Names(item: Item): seq<string> {
    if item.Listing? then FlatMap(RowNames, item.rows) else []
  }

  function InstNames(item: Item): seq<string> {
    if item.Inst? then [item.name.name] else []
  }

  // ---- Words ------------------------------------------------------------------------------------

  lemma WordFirst(space: string, name: string, rest: string)
    requires Spaces(space) && IsName(name) && (rest == "" || IsSpace(rest[0]))
    ensures Words(space + (name + rest)) == [name] + Words(rest)
  {
    var s, t := space + (name + rest), name + rest;
    SpaceRunIs(s, |space|);
    assert s[|space|..] == t;
    WordRunIs(t, |name|);
    assert t[..|name|] == name && t[|name|..] == rest;
  }

  lemma NoWords(s: string)
    requires Spaces(s)
    ensures Words(s) == []
  {
    SpaceRunIs(s, |s|);
  }

  lemma {:induction false} WordsOfRow(names: seq<Spaced>, trail: string)
    requires Spaces(trail) && forall n :: n in names ==> GoodName(n)
    ensures Words(FlatMap(SpacedText, names) + trail) == FlatMap(NameOnly, names)
    decreases |names|
  {
    if names == [] {
      NoWords(trail);
      assert [] + trail == trail;
    } else {
      WordsOfRow(names[1..], trail);
      RestStartsWithSpace(names[1..], trail);
      assert GoodName(names[0]);
      NextWord(names[0], FlatMap(SpacedText, names[1..]), trail);
      FlatMapFirst(SpacedText, names);
      FlatMapFirst(NameOnly, names);
    }
  }

  lemma NextWord(n: Spaced, others: string, trail: string)
    requires GoodName(n) && (others + trail == "" || IsSpace((others + trail)[0]))
    ensures Words(n.space + n.name + others + trail) == [n.name] + Words(others + trail)
  {
    WordFirst(n.space, n.name, others + trail);
    Regroup(n.space, n.name, others, trail);
  }

  lemma Regroup(space: string, name: string, others: string, trail: string)
    ensures space + name + others + trail == space + (name + (others + trail))
  {
  }

  lemma RestStartsWithSpace(names: seq<Spaced>, trail: string)
    requires Spaces(trail) && forall n :: n in names ==> GoodName(n)
    ensures var rest := FlatMap(SpacedText, names) + trail; rest == "" || IsSpace(rest[0])
  {
    if names != [] {
      assert GoodName(names[0]);
      FlatMapFirst(SpacedText, names);
    }
  }

  // ---- Sections ---------------------------------------------------------------------------------

  /** Behind the heading of a listing its rows are read, and the lines that follow decide what else is. */
  lemma {:induction false} RowsAreListed(rows: seq<Row>, heading: string, more: seq<string>)
    requires !Indented(heading) && |heading| > 1 && forall r :: r in rows ==> GoodRow(r)
    ensures Listed(RowLines(rows) + more, heading) == FlatMap(RowNames, rows) + Listed(more, heading)
    decreases |rows|
  {
    if rows == [] {
      assert RowLines(rows) + more == more;
      assert [] + Listed(more, heading) == Listed(more, heading);
    } else {
      assert GoodRow(rows[0]);
      RowsAreListed(rows[1..], heading, more);
      NextRow(rows[0], RowLines(rows[1..]) + more, heading);
      FlatMapFirst(RowNames, rows);
      FirstRow(rows, more);
      Regrouped(RowNames(rows[0]), FlatMap(RowNames, rows[1..]), Listed(more, heading));
    }
  }

  lemma FirstRow(rows: seq<Row>, more: seq<string>)
    requires rows != []
    ensures RowLines(rows) + more == [RowLine(rows[0])] + (RowLines(rows[1..]) + more)
  {
  }

  lemma Regrouped(a: seq<string>, b: seq<string>, c: seq<string>)
    ensures a + (b + c) == a + b + c
  {
  }

  lemma NextRow(row: Row, lines: seq<string>, heading: string)
    requires !Indented(heading) && |heading| > 1 && GoodRow(row)
    ensures Listed([RowLine(row)] + lines, heading) == RowNames(row) + Listed(lines, heading)
  {
    var line := RowLine(row);
    WordsOfRow(row.names, row.trail);
    IndentedIsNoHeading(line, heading);
    assert ([line] + lines)[1..] == lines;
  }

  lemma IndentedIsNoHeading(line: string, heading: string)
    requires Indented(line) && !Indented(heading) && |heading| > 1
    ensures !(heading <= line)
  {
    IndentedExactly(line);
    IndentedExactly(heading);
  }

  lemma IndentedExactly(line: string)
    ensures Indented(line) <==> |line| > 1 && line[0] == ' ' && line[1] == ' '
  {
    if |line| > 1 { assert line[..2] == [line[0], line[1]]; }
  }

  predicate GoodTranscript(items: seq<Item>) {
    forall item :: item in items ==> GoodItem(item)
  }

  /** The names of the items with the heading that items start with. */
  function Leading(items: seq<Item>, heading: string): seq<string> {
    if items == [] || !Heads(items[0], heading) then [] else Names(items[0]) + Leading(items[1..], heading)
  }

  /** The names of the first item with the heading, and of those right behind it that have it as well. */
  function Wanted(items: seq<Item>, heading: string): seq<string> {
    if items == [] || Heads(items[0], heading) then Leading(items, heading) else Wanted(items[1..], heading)
  }

  lemma ItemStarts(item: Item)
    requires GoodItem(item)
    ensures !Indented(ItemLines(item)[0])
  {
    if item.Inst? { assert ItemLines(item)[0][0] == 'I'; }
  }

  lemma {:induction false} RowsAreSkipped(rows: seq<Row>, heading: string, more: seq<string>)
    requires !Indented(heading) && |heading| > 1 && forall r :: r in rows ==> GoodRow(r)
    ensures BehindHeading(RowLines(rows) + more, heading) == BehindHeading(more, heading)
    decreases |rows|
  {
    if rows == [] {
      assert RowLines(rows) + more == more;
    } else {
      assert GoodRow(rows[0]);
      RowsAreSkipped(rows[1..], heading, more);
      IndentedIsNoHeading(RowLine(rows[0]), heading);
      var lines := RowLines(rows) + more;
      assert lines[0] == RowLine(rows[0]) && lines[1..] == RowLines(rows[1..]) + more;
    }
  }

  lemma ItemIsListed(item: Item, heading: string, more: seq<string>)
    requires GoodItem(item) && !Indented(heading) && |heading| > 1 && Heads(item, heading)
    ensures Listed(ItemLines(item) + more, heading) == Names(item) + Listed(more, heading)
    ensures Section(ItemLines(item) + more, heading) == Names(item) + Listed(more, heading)
  {
    ItemTail(item, more);
    RowsAreListed(RowsOf(item), heading, more);
  }

  function RowsOf(item: Item): seq<Row> {
    if item.Listing? then item.rows else []
  }

  lemma ItemTail(item: Item, more: seq<string>)
    ensures (ItemLines(item) + more)[1..] == RowLines(RowsOf(item)) + more
  {
    assert ItemLines(item)[1..] == RowLines(RowsOf(item));
  }

  lemma ItemIsSkipped(item: Item, heading: string, more: seq<string>)
    requires GoodItem(item) && !Indented(heading) && |heading| > 1 && !Heads(item, heading)
    ensures Section(ItemLines(item) + more, heading) == Section(more, heading)
  {
    ItemTail(item, more);
    RowsAreSkipped(RowsOf(item), heading, more);
  }

  /** Anything else that can start an item of its own ends the section. */
  lemma {:induction false} ItemsAreListed(items: seq<Item>, heading: string)
    requires GoodTranscript(items) && !Indented(heading) && |heading| > 1
    ensures Listed(Transcript(items), heading) == Leading(items, heading)
    decreases |items|
  {
    if items != [] {
      assert GoodItem(items[0]);
      FlatMapFirst(ItemLines, items);
      ItemStarts(items[0]);
      if Heads(items[0], heading) {
        ItemsAreListed(items[1..], heading);
        ItemIsListed(items[0], heading, Transcript(items[1..]));
      }
    }
  }

  /** The names of a section are those listed under its heading, and no others. */
  lemma {:induction false} SectionReads(items: seq<Item>, heading: string)
    requires GoodTranscript(items) && !Indented(heading) && |heading| > 1
    ensures Section(Transcript(items), heading) == Wanted(items, heading)
    decreases |items|
  {
    if items != [] {
      var more := Transcript(items[1..]);
      FlatMapFirst(ItemLines, items);
      assert GoodItem(items[0]);
      if Heads(items[0], heading) {
        ItemsAreListed(items[1..], heading);
        ItemIsListed(items[0], heading, more);
      } else {
        SectionReads(items[1..], heading);
        ItemIsSkipped(items[0], heading, more);
      }
    }
  }

  /** Items with the heading are wanted from the first one on, up to the first one without it. */
  lemma {:induction false} WantedIs(before: seq<Item>, headed: seq<Item>, more: seq<Item>, heading: string)
    requires forall item :: item in before ==> !Heads(item, heading)
    requires forall item :: item in headed ==> Heads(item, heading)
    requires more != [] ==> headed != [] && !Heads(more[0], heading)
    ensures Wanted(before + (headed + more), heading) == FlatMap(Names, headed)
    decreases |before|
  {
    if before == [] {
      assert before + (headed + more) == headed + more;
      LeadingIs(headed, more, heading);
    } else {
      assert (before + (headed + more))[1..] == before[1..] + (headed + more);
      WantedIs(before[1..], headed, more, heading);
    }
  }

  lemma {:induction false} LeadingIs(headed: seq<Item>, more: seq<Item>, heading: string)
    requires forall item :: item in headed ==> Heads(item, heading)
    requires more != [] ==> !Heads(more[0], heading)
    ensures Leading(headed + more, heading) == FlatMap(Names, headed)
    decreases |headed|
  {
    if headed == [] {
      assert headed + more == more;
    } else {
      assert (headed + more)[1..] == headed[1..] + more;
      LeadingIs(headed[1..], more, heading);
      FlatMapFirst(Names, headed);
    }
  }

  // ---- Inst lines -------------------------------------------------------------------------------

  lemma {:induction false} NoInstInRows(rows: seq<Row>)
    requires forall r :: r in rows ==> GoodRow(r)
    ensures Upgrades(RowLines(rows)) == []
  {
    if rows != [] {
      var n := |rows| - 1;
      NoInstInRows(rows[..n]);
      assert GoodRow(rows[n]);
      NoInstInRow(rows[n]);
      FlatMapMore(InstName, RowLines(rows[..n]), RowLine(rows[n]));
      LastRow(rows);
    }
  }

  lemma NoInstInRow(row: Row)
    requires GoodRow(row)
    ensures InstName(RowLine(row)) == []
  {
    assert RowLine(row)[0] == ' ';
  }

  lemma LastRow(rows: seq<Row>)
    requires rows != []
    ensures RowLines(rows) == RowLines(rows[..|rows| - 1]) + [RowLine(rows[|rows| - 1])]
  {
    hide RowLine;
  }

  lemma NoInstInListing(heading: string, rows: seq<Row>)
    requires !("Inst " <= heading) && forall r :: r in rows ==> GoodRow(r)
    ensures Upgrades([heading] + RowLines(rows)) == []
  {
    NoInstInRows(rows);
    FlatMapJoins(InstName, [heading], RowLines(rows));
    FlatMapOne(InstName, heading);
  }

  lemma ItemInst(item: Item)
    requires GoodItem(item)
    ensures Upgrades(ItemLines(item)) == InstNames(item)
  {
    match item
    case Prose(line) => FlatMapOne(InstName, line);
    case Listing(heading, rows) => NoInstInListing(heading, rows);
    case Inst(name, details) =>
      InstLine("Inst ", name, details);
      FlatMapOne(InstName, ItemLines(item)[0]);
  }

  lemma InstLine(prefix: string, name: Spaced, details: string)
    requires prefix == "Inst " && Spaces(name.space) && IsName(name.name) && (details == "" || IsSpace(details[0]))
    ensures InstName(prefix + (name.space + (name.name + details))) == [name.name]
  {
    var rest := name.space + (name.name + details);
    assert (prefix + rest)[5..] == rest;
    WordFirst(name.space, name.name, details);
  }

  lemma {:induction false} UpgradesRead(items: seq<Item>)
    requires GoodTranscript(items)
    ensures Upgrades(Transcript(items)) == FlatMap(InstNames, items)
  {
    if items != [] {
      var n := |items| - 1;
      UpgradesRead(items[..n]);
      assert GoodItem(items[n]);
      ItemInst(items[n]);
      FlatMapJoins(InstName, Transcript(items[..n]), ItemLines(items[n]));
    }
  }

  lemma HeadingsStandOut()
    ensures !Indented(REMOVED_HEADING) && |REMOVED_HEADING| > 1
    ensures !Indented(INSTALLED_HEADING) && |INSTALLED_HEADING| > 1
  {
    assert REMOVED_HEADING[0] == 'T' && INSTALLED_HEADING[0] == 'T';
  }

  /**
   Whatever a simulation lists, in whatever order and however the names are wrapped over lines, each of the
   three lists is recovered exactly.
   */
  lemma TranscriptReadsBack(items: seq<Item>)
    requires GoodTranscript(items)
    requires forall l :: l in Transcript(items) ==> IsLine(l)
    ensures var lines := Lines(Unlines(Transcript(items)));
      && Section(lines, REMOVED_HEADING) == Wanted(items, REMOVED_HEADING)
      && Section(lines, INSTALLED_HEADING) == Wanted(items, INSTALLED_HEADING)
      && Upgrades(lines) == FlatMap(InstNames, items)
  {
    TextOfLines(Transcript(items));
    HeadingsStandOut();
    SectionReads(items, REMOVED_HEADING);
    SectionReads(items, INSTALLED_HEADING);
    UpgradesRead(items);
  }
}
