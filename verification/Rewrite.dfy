/**
 `std::regex_replace` with a format that keeps the first group and replaces the rest, together with
 the provenance of every character of its result.
 */
module Rewrite {
  import opened Regex

  /** A pattern `(group)rest` whose matches become the group's text followed by `fill`. */
  datatype Rule = Rule(group: Re, rest: Re, fill: string)

  /** A match starting at some `i`: the group is `s[i..keep]`, the whole match `s[i..end]`. */
  datatype Match = NoMatch | Hit(keep: nat, end: nat)

  /** The most preferred match of the rule at `i`; a match of no characters is passed over. */
  function At(rule: Rule, s: string, i: nat): (m: Match)
    requires i <= |s|
    ensures m.Hit? ==> i <= m.keep <= m.end <= |s| && i < m.end
  {
    FirstOf(Ends(rule.group, s, i), rule.rest, s, i)
  }

  function FirstOf(keeps: seq<nat>, rest: Re, s: string, i: nat): (m: Match)
    requires forall j :: 0 <= j < |keeps| ==> i <= keeps[j] <= |s|
    ensures m.Hit? ==> i <= m.keep <= m.end <= |s| && i < m.end
  {
    if keeps == [] then NoMatch
    else
      var es := Ends(rest, s, keeps[0]);
      if es != [] && i < es[0] then Hit(keeps[0], es[0]) else FirstOf(keeps[1..], rest, s, i)
  }

  /** A match found is a match of both parts, and its end is the most preferred one for its group. */
  lemma {:induction false} FirstOfMatches(keeps: seq<nat>, rest: Re, s: string, i: nat)
    requires forall j :: 0 <= j < |keeps| ==> i <= keeps[j] <= |s|
    ensures var m := FirstOf(keeps, rest, s, i);
            m.Hit? ==> m.keep in keeps && Ends(rest, s, m.keep) != [] && m.end == Ends(rest, s, m.keep)[0]
    ensures forall k :: k in keeps && i <= k <= |s| && Ends(rest, s, k) != [] && i < Ends(rest, s, k)[0] ==>
              FirstOf(keeps, rest, s, i).Hit?
  {
    if keeps != [] {
      FirstOfMatches(keeps[1..], rest, s, i);
    }
  }

  lemma HitMatches(rule: Rule, s: string, i: nat)
    requires i <= |s| && At(rule, s, i).Hit?
    ensures var m := At(rule, s, i);
            && Regex.Matches(rule.group, s, i, m.keep)
            && Regex.Matches(rule.rest, s, m.keep, m.end)
            && Ends(rule.rest, s, m.keep) != [] && m.end == Ends(rule.rest, s, m.keep)[0]
  {
    var m := At(rule, s, i);
    FirstOfMatches(Ends(rule.group, s, i), rule.rest, s, i);
    EndsAreMatches(rule.group, s, i, m.keep);
    EndsAreMatches(rule.rest, s, m.keep, m.end);
  }

  /** A rule that consumes something after its group misses no match. */
  lemma MatchIsHit(rule: Rule, s: string, i: nat, keep: nat, end: nat)
    requires i <= keep <= end <= |s| && MinWidth(rule.rest) > 0
    requires Regex.Matches(rule.group, s, i, keep) && Regex.Matches(rule.rest, s, keep, end)
    ensures At(rule, s, i).Hit?
  {
    FirstOfMatches(Ends(rule.group, s, i), rule.rest, s, i);
    EndsAreMatches(rule.group, s, i, keep);
    EndsAreMatches(rule.rest, s, keep, end);
    var first := Ends(rule.rest, s, keep)[0];
    EndsAreMatches(rule.rest, s, keep, first);
    MatchesAreWide(rule.rest, s, keep, first);
  }

  /** A text, the matches found at each of its positions, and what replaces their deleted part. */
  datatype Edit = Edit(text: string, hits: seq<Match>, fill: string) {

    ghost predicate Fits() {
      && fill != "" && |hits| == |text|
      && forall i :: 0 <= i < |hits| && hits[i].Hit? ==>
           i <= hits[i].keep <= hits[i].end <= |text| && i < hits[i].end
    }

    /** Replace from position `i` on: leftmost, non-overlapping. */
    function From(i: nat): string
      requires Fits() && i <= |text|
      decreases |text| - i
    {
      if i == |text| then ""
      else match hits[i]
        case NoMatch => [text[i]] + From(i + 1)
        case Hit(keep, end) => text[i..keep] + fill + From(end)
    }

    /** The text after all replacements. */
    function Result(): string
      requires Fits()
    {
      From(0)
    }

    /** Every match already carries the replacement. */
    ghost predicate Settled()
      requires Fits()
    {
      forall i :: 0 <= i < |text| && hits[i].Hit? ==> text[hits[i].keep..hits[i].end] == fill
    }

    lemma {:induction false} SettledIsFixed(i: nat)
      requires Fits() && i <= |text| && Settled()
      ensures From(i) == text[i..]
      decreases |text| - i
    {
      if i < |text| {
        match hits[i]
        case NoMatch =>
          SettledIsFixed(i + 1);
        case Hit(keep, end) =>
          SettledIsFixed(end);
          assert text[i..] == text[i..keep] + text[keep..end] + text[end..];
      }
    }

    /** The origin of position `p` of `From(i)`; the end of the result comes from the end of the text. */
    ghost function SourceFrom(i: nat, p: nat): Origin
      requires Fits() && i <= |text| && p <= |From(i)|
      decreases |text| - i
    {
      if i == |text| then Gap(i)
      else match hits[i]
        case NoMatch => if p == 0 then Gap(i) else SourceFrom(i + 1, p - 1)
        case Hit(keep, end) =>
          if p < keep - i then Kept(i + p, i)
          else if p < keep - i + |fill| then Filled(p - (keep - i), i)
          else SourceFrom(end, p - (keep - i) - |fill|)
    }

    ghost function Source(p: nat): Origin
      requires Fits() && p <= |Result()|
    {
      SourceFrom(0, p)
    }

    /** What an origin says about the character at `p` of `result`. */
    ghost predicate Explains(result: string, p: nat, a: Origin)
      requires Fits() && p <= |result|
    {
      match a
      case Gap(o) =>
        && o <= |text| && (p == |result| <==> o == |text|)
        && (p < |result| ==> result[p] == text[o] && hits[o].NoMatch?)
      case Kept(o, h) =>
        && h <= o < |text| && p < |result| && result[p] == text[o]
        && hits[h].Hit? && o < hits[h].keep
      case Filled(k, h) =>
        && h < |text| && k < |fill| && p < |result| && result[p] == fill[k]
        && hits[h].Hit?
    }

    /** The scan arrives at `o`: either nothing starts there, or a match begins to be copied. */
    ghost predicate Arrives(o: nat, b: Origin)
      requires Fits()
    {
      && o <= |text|
      && if o == |text| || hits[o].NoMatch? then b == Gap(o)
         else if o < hits[o].keep then b == Kept(o, o)
         else b == Filled(0, o)
    }

    /** How the origins of two neighbouring positions are related. */
    ghost predicate Follows(a: Origin, b: Origin)
      requires Fits()
    {
      match a
      case Gap(o) => Arrives(o + 1, b)
      case Kept(o, h) =>
        && h < |text| && hits[h].Hit?
        && if o + 1 < hits[h].keep then b == Kept(o + 1, h) else b == Filled(0, h)
      case Filled(k, h) =>
        && h < |text| && hits[h].Hit?
        && if k + 1 < |fill| then b == Filled(k + 1, h) else Arrives(hits[h].end, b)
    }

    lemma {:induction false} SourceExplains(i: nat, p: nat)
      requires Fits() && i <= |text| && p <= |From(i)|
      ensures Explains(From(i), p, SourceFrom(i, p))
      decreases |text| - i
    {
      hide From;
      NothingIsLeft();
      if i < |text| {
        match hits[i]
        case NoMatch =>
          GapIsCopied(i);
          if p > 0 { SourceExplains(i + 1, p - 1); }
        case Hit(keep, end) =>
          var done := keep - i + |fill|;
          HitIsReplaced(i);
          if p >= done { SourceExplains(end, p - done); }
      }
    }

    lemma NothingIsLeft()
      requires Fits()
      ensures From(|text|) == ""
    {
    }

    lemma GapIsCopied(i: nat)
      requires Fits() && i < |text| && hits[i].NoMatch?
      ensures |From(i)| == 1 + |From(i + 1)| && From(i)[0] == text[i]
      ensures forall p :: 0 < p < |From(i)| ==> From(i)[p] == From(i + 1)[p - 1]
    {
    }

    /** What a match becomes, position by position. */
    lemma HitIsReplaced(i: nat)
      requires Fits() && i < |text| && hits[i].Hit?
      ensures var Hit(keep, end) := hits[i];
              && |From(i)| == keep - i + |fill| + |From(end)|
              && (forall p :: 0 <= p < keep - i ==> From(i)[p] == text[i + p])
              && (forall p :: keep - i <= p < keep - i + |fill| ==> From(i)[p] == fill[p - (keep - i)])
              && (forall p :: keep - i + |fill| <= p < |From(i)| ==> From(i)[p] == From(end)[p - (keep - i + |fill|)])
    {
    }

    lemma SourceArrives(i: nat)
      requires Fits() && i <= |text|
      ensures Arrives(i, SourceFrom(i, 0))
    {
    }

    lemma {:induction false} SourceFollows(i: nat, p: nat)
      requires Fits() && i <= |text| && p < |From(i)|
      ensures Follows(SourceFrom(i, p), SourceFrom(i, p + 1))
      decreases |text| - i
    {
      hide From, Arrives;
      NothingIsLeft();
      match hits[i]
      case NoMatch =>
        GapIsCopied(i);
        SourceArrives(i + 1);
        if p > 0 { SourceFollows(i + 1, p - 1); }
      case Hit(keep, end) =>
        HitIsReplaced(i);
        SourceArrives(end);
        var done := keep - i + |fill|;
        if p >= done { SourceFollows(end, p - done); }
    }

    /** `p` is a copy of position `o` of the text. */
    ghost predicate Copies(p: nat, o: nat)
      requires Fits() && p <= |Result()|
    {
      var a := Source(p);
      (a.Gap? || a.Kept?) && a.o == o
    }

    /** Position `p` begins the replacement for a match whose group ends at `x`. */
    ghost predicate Cuts(p: nat, x: nat)
      requires Fits() && p <= |Result()|
    {
      var a := Source(p);
      a.Filled? && a.k == 0 && a.h < |text| && hits[a.h].Hit? && hits[a.h].keep == x
    }

    /** The two facts above at one position of the result. */
    lemma Step(p: nat)
      requires Fits() && p <= |Result()|
      ensures Explains(Result(), p, Source(p))
      ensures p < |Result()| ==> Follows(Source(p), Source(p + 1))
    {
      SourceExplains(0, p);
      if p < |Result()| { SourceFollows(0, p); }
    }

    /** After a copied character comes the copy of its neighbour, or a replacement that starts there. */
    lemma CopyThenCopyOrCut(p: nat, o: nat)
      requires Fits() && p < |Result()| && Copies(p, o)
      ensures o < |text| && Result()[p] == text[o]
      ensures Copies(p + 1, o + 1) || (Cuts(p + 1, o + 1) && p + 1 < |Result()| && Result()[p + 1] == fill[0])
    {
      Step(p);
      Step(p + 1);
    }

    /** A copy runs on for as long as no replacement starts. */
    lemma {:induction false} CopyRuns(p: nat, o: nat, n: nat)
      requires Fits() && p <= |Result()| && Copies(p, o) && o + n <= |text|
      requires forall h :: 0 <= h < |hits| && hits[h].Hit? ==> !(o < hits[h].keep <= o + n)
      ensures p + n <= |Result()| && Copies(p + n, o + n)
      ensures Result()[p..p + n] == text[o..o + n]
    {
      if n > 0 {
        CopyRuns(p, o, n - 1);
        Step(p + n - 1);
        CopyThenCopyOrCut(p + n - 1, o + n - 1);
        assert text[o..o + n] == text[o..o + n - 1] + [text[o + n - 1]];
        assert Result()[p..p + n] == Result()[p..p + n - 1] + [Result()[p + n - 1]];
      } else {
        Step(p);
      }
    }

    /** A replacement is written out in full, and then the scan goes on after the match. */
    lemma {:induction false} FillRuns(p: nat, k: nat, h: nat)
      requires Fits() && p <= |Result()| && Source(p) == Filled(k, h)
      ensures h < |text| && hits[h].Hit? && k < |fill|
      ensures p + |fill| - k <= |Result()| && Result()[p..p + |fill| - k] == fill[k..]
      ensures Arrives(hits[h].end, Source(p + |fill| - k))
      decreases |fill| - k
    {
      Step(p);
      if k + 1 < |fill| {
        FillRuns(p + 1, k + 1, h);
        assert Result()[p..p + |fill| - k] == [Result()[p]] + Result()[p + 1..p + |fill| - k];
        assert fill[k..] == [fill[k]] + fill[k + 1..];
      }
    }

    /** The rest of a group is copied, and then comes the replacement. */
    lemma {:induction false} KeptRuns(p: nat, o: nat, h: nat)
      requires Fits() && p <= |Result()| && Source(p) == Kept(o, h)
      ensures h <= o < |text| && hits[h].Hit? && o < hits[h].keep
      ensures p + hits[h].keep - o <= |Result()| && Source(p + hits[h].keep - o) == Filled(0, h)
      ensures !Copies(p + hits[h].keep - o, hits[h].keep)
      decreases |text| - o
    {
      Step(p);
      if o + 1 < hits[h].keep {
        KeptRuns(p + 1, o + 1, h);
      }
    }

    /** Where no match starts at a copied position, every earlier match starts inside one that is over. */
    lemma {:induction false} GapIsFree(i: nat, p: nat, h: nat) returns (g: nat)
      requires Fits() && i <= h < |text| && p <= |From(i)| && hits[h].Hit?
      requires SourceFrom(i, p).Gap? && h < SourceFrom(i, p).o
      ensures g <= h && hits[g].Hit? && h < hits[g].end <= SourceFrom(i, p).o
      decreases |text| - i
    {
      SourceExplains(i, p);
      match hits[i]
      case NoMatch =>
        g := GapIsFree(i + 1, p - 1, h);
      case Hit(keep, end) =>
        var done := keep - i + |fill|;
        SourceIsLater(end, p - done);
        if h < end {
          g := i;
        } else {
          g := GapIsFree(end, p - done, h);
        }
    }

    lemma {:induction false} SourceIsLater(i: nat, p: nat)
      requires Fits() && i <= |text| && p <= |From(i)|
      ensures SourceFrom(i, p).Gap? ==> i <= SourceFrom(i, p).o
      decreases |text| - i
    {
      if i < |text| {
        match hits[i]
        case NoMatch => if p > 0 { SourceIsLater(i + 1, p - 1); }
        case Hit(keep, end) =>
          var done := keep - i + |fill|;
          if p >= done { SourceIsLater(end, p - done); }
      }
    }
  }

  /** Where a character of a result comes from. */
  datatype Origin =
    | Gap(o: nat)            // copied from text[o], where no match starts
    | Kept(o: nat, h: nat)   // copied from text[o] inside the group of the match at h
    | Filled(k: nat, h: nat) // the k-th character of the replacement for the match at h

  /** The matches of a rule at every position of a text. */
  function Edits(rule: Rule, s: string): (e: Edit)
    requires rule.fill != ""
    ensures e.Fits() && e.text == s && e.fill == rule.fill
    ensures forall i :: 0 <= i < |s| ==> e.hits[i] == At(rule, s, i)
  {
    Edit(s, seq(|s|, i requires 0 <= i < |s| => At(rule, s, i)), rule.fill)
  }

  /** `std::regex_replace(s, rule, "$1" fill)`. */
  function Replace(rule: Rule, s: string): string
    requires rule.fill != ""
  {
    Edits(rule, s).Result()
  }

  /** Text whose every match already carries the replacement is left as it is. */
  lemma ReplaceFixes(rule: Rule, s: string)
    requires rule.fill != ""
    requires forall i :: 0 <= i < |s| && At(rule, s, i).Hit? ==>
               s[At(rule, s, i).keep..At(rule, s, i).end] == rule.fill
    ensures Replace(rule, s) == s
  {
    Edits(rule, s).SettledIsFixed(0);
    assert s[0..] == s;
  }

  // ---- Characters -------------------------------------------------------------------------------

  ghost predicate All(p: char -> bool, s: string) {
    forall i :: 0 <= i < |s| ==> p(s[i])
  }

  lemma {:induction false} FromKeeps(p: char -> bool, e: Edit, i: nat)
    requires e.Fits() && i <= |e.text| && All(p, e.text) && All(p, e.fill)
    ensures All(p, e.From(i))
    decreases |e.text| - i
  {
    if i < |e.text| {
      match e.hits[i]
      case NoMatch => FromKeeps(p, e, i + 1);
      case Hit(keep, end) => FromKeeps(p, e, end);
    }
  }

  lemma ReplaceKeeps(p: char -> bool, rule: Rule, s: string)
    requires rule.fill != "" && All(p, s) && All(p, rule.fill)
    ensures All(p, Replace(rule, s))
  {
    FromKeeps(p, Edits(rule, s), 0);
  }
}
