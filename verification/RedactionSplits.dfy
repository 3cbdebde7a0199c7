/**
 Redaction works word by word: no pattern reaches across white space, and neither `\b` nor the end of a text
 tells a word in a text from the word alone.
 */
module RedactionSplits {
  import opened Text
  import opened Regex
  import opened Rewrite
  import opened Redaction
  import opened RedactionForms
  import opened RedactionWords

  // ---- Patterns that do not reach across white space --------------------------------------------

  /** No class of the pattern has white space. */
  ghost predicate SolidRe(r: Re) {
    match r
    case One(k) => SpaceFree(k)
    case Cat(a, b) => SolidRe(a) && SolidRe(b)
    case Alt(a, b) => SolidRe(a) && SolidRe(b)
    case Opt(a) => SolidRe(a)
    case Rep(k, _, _) => SpaceFree(k)
    case _ => true
  }

  predicate HasBoundary(r: Re) {
    match r
    case Cat(a, b) => HasBoundary(a) || HasBoundary(b)
    case Alt(a, b) => HasBoundary(a) || HasBoundary(b)
    case Opt(a) => HasBoundary(a)
    case WordBoundary => true
    case _ => false
  }

  /** What is in front of `t[i..j]` does not matter to the pattern, and what is behind ends every run. */
  predicate CutsOut(r: Re, t: string, i: nat, j: nat) {
    && i <= j <= |t| && (j < |t| ==> IsSpace(t[j]))
    && (HasBoundary(r) && i > 0 ==> IsSpace(t[i - 1]))
  }

  function Shift(es: seq<nat>, i: nat): seq<nat> {
    seq(|es|, k requires 0 <= k < |es| => es[k] + i)
  }

  lemma ShiftJoins(a: seq<nat>, b: seq<nat>, i: nat)
    ensures Shift(a + b, i) == Shift(a, i) + Shift(b, i)
  {
  }

  lemma {:induction false} RunEndMoves(k: CharSet, t: string, i: nat, j: nat, p: nat)
    requires i <= p <= j <= |t| && (j < |t| ==> IsSpace(t[j])) && SpaceFree(k)
    ensures RunEnd(k, t, p) == RunEnd(k, t[i..j], p - i) + i
    decreases j - p
  {
    if p < j {
      assert t[i..j][p - i] == t[p];
      RunEndMoves(k, t, i, j, p + 1);
    }
  }

  lemma {:induction false} DownMoves(lo: nat, hi: nat, i: nat)
    requires lo <= hi
    ensures Down(lo + i, hi + i) == Shift(Down(lo, hi), i)
    decreases hi
  {
    if lo < hi {
      DownMoves(lo, hi - 1, i);
      ShiftJoins([hi], Down(lo, hi - 1), i);
    }
  }

  lemma RepMoves(k: CharSet, lo: nat, hi: Bound, t: string, i: nat, j: nat, p: nat)
    requires i <= p <= j <= |t| && (j < |t| ==> IsSpace(t[j])) && SpaceFree(k)
    ensures Agrees(Rep(k, lo, hi), t, t[i..j], i, p)
  {
    RunEndMoves(k, t, i, j, p);
    var q, run := p - i, RunEnd(k, t[i..j], p - i);
    var top := if hi.AtMost? && q + hi.n < run then q + hi.n else run;
    if top >= q + lo { DownMoves(q + lo, top, i); }
  }

  lemma BoundaryMoves(t: string, i: nat, j: nat, p: nat)
    requires Bounded(t, i, j) && i <= p <= j
    ensures Agrees(WordBoundary, t, t[i..j], i, p)
  {
    NeighboursAlike(t, i, j, p);
  }

  lemma OneMoves(k: CharSet, t: string, i: nat, j: nat, p: nat)
    requires i <= p <= j <= |t| && (j < |t| ==> IsSpace(t[j])) && SpaceFree(k)
    ensures Agrees(One(k), t, t[i..j], i, p)
  {
  }

  /** What `r` finds in `t` from `p` on is what it finds in `part`, which starts at `i`. */
  ghost predicate Agrees(r: Re, t: string, part: string, i: nat, p: nat) {
    i <= p <= |t| && p - i <= |part| && Ends(r, t, p) == Shift(Ends(r, part, p - i), i)
  }

  /** The same matches, in the same order of preference. */
  lemma {:induction false} EndsMove(r: Re, t: string, i: nat, j: nat, p: nat)
    requires SolidRe(r) && i <= j <= |t| && CutsOut(r, t, i, j) && i <= p <= j
    ensures Agrees(r, t, t[i..j], i, p)
    decreases r, 0
  {
    hide SpaceFree, Shift, Ends, Agrees;
    match r
    case Empty => EmptyAgrees(t, t[i..j], i, p);
    case One(k) => OneMoves(k, t, i, j, p);
    case Rep(k, lo, hi) => RepMoves(k, lo, hi, t, i, j, p);
    case WordBoundary => BoundaryMoves(t, i, j, p);
    case Cat(a, b) =>
      EndsMove(a, t, i, j, p);
      StartsAgree(a, t, t[i..j], i, p);
      EndsFromMove(Ends(a, t[i..j], p - i), b, t, i, j, p - i);
      CatAgrees(a, b, t, t[i..j], i, p);
    case Alt(a, b) =>
      EndsMove(a, t, i, j, p);
      EndsMove(b, t, i, j, p);
      AltAgrees(a, b, t, t[i..j], i, p);
    case Opt(a) =>
      EndsMove(a, t, i, j, p);
      OptAgrees(a, t, t[i..j], i, p);
  }

  lemma EmptyAgrees(t: string, part: string, i: nat, p: nat)
    requires i <= p <= |t| && p - i <= |part|
    ensures Agrees(Empty, t, part, i, p)
  {
  }

  lemma StartsAgree(a: Re, t: string, part: string, i: nat, p: nat)
    requires Agrees(a, t, part, i, p)
    ensures Ends(a, t, p) == Shift(Ends(a, part, p - i), i)
    ensures var es := Ends(a, part, p - i); forall k :: 0 <= k < |es| ==> p - i <= es[k] <= |part|
    ensures var es := Shift(Ends(a, part, p - i), i); forall k :: 0 <= k < |es| ==> p <= es[k] <= |t|
  {
  }

  lemma CatAgrees(a: Re, b: Re, t: string, part: string, i: nat, p: nat)
    requires Agrees(a, t, part, i, p)
    requires EndsFrom(Ends(a, t, p), b, t, p) == Shift(EndsFrom(Ends(a, part, p - i), b, part, p - i), i)
    ensures Agrees(Cat(a, b), t, part, i, p)
  {
  }

  lemma AltAgrees(a: Re, b: Re, t: string, part: string, i: nat, p: nat)
    requires Agrees(a, t, part, i, p) && Agrees(b, t, part, i, p)
    ensures Agrees(Alt(a, b), t, part, i, p)
  {
    hide Shift;
    ShiftJoins(Ends(a, part, p - i), Ends(b, part, p - i), i);
  }

  lemma OptAgrees(a: Re, t: string, part: string, i: nat, p: nat)
    requires Agrees(a, t, part, i, p)
    ensures Agrees(Opt(a), t, part, i, p)
  {
    hide Shift;
    ShiftOne(p - i, i);
    ShiftJoins(Ends(a, part, p - i), [p - i], i);
  }

  lemma ShiftOne(p: nat, i: nat)
    ensures Shift([p], i) == [p + i]
  {
  }

  lemma ShiftKeepsRange(es: seq<nat>, i: nat, lo: nat, hi: nat)
    requires forall k :: 0 <= k < |es| ==> lo <= es[k] <= hi
    ensures forall k :: 0 <= k < |Shift(es, i)| ==> lo + i <= Shift(es, i)[k] <= hi + i
  {
  }

  lemma {:induction false} EndsFromMove(starts: seq<nat>, r: Re, t: string, i: nat, j: nat, least: nat)
    requires SolidRe(r) && i <= j <= |t| && CutsOut(r, t, i, j)
    requires forall k :: 0 <= k < |starts| ==> least <= starts[k] <= j - i
    requires forall k :: 0 <= k < |Shift(starts, i)| ==> least + i <= Shift(starts, i)[k] <= |t|
    ensures EndsFrom(Shift(starts, i), r, t, least + i) == Shift(EndsFrom(starts, r, t[i..j], least), i)
    decreases r, 1 + |starts|
  {
    hide Ends, SolidRe, CutsOut, Shift;
    if starts == [] {
      ShiftNone(i);
    } else {
      ShiftFirst(starts, i);
      EndsMove(r, t, i, j, starts[0] + i);
      EndsFromMove(starts[1..], r, t, i, j, least);
      ShiftJoins(Ends(r, t[i..j], starts[0]), EndsFrom(starts[1..], r, t[i..j], least), i);
    }
  }

  lemma ShiftNone(i: nat)
    ensures Shift([], i) == []
  {
  }

  lemma ShiftFirst(es: seq<nat>, i: nat)
    requires es != []
    ensures Shift(es, i) != [] && Shift(es, i)[0] == es[0] + i && Shift(es, i)[1..] == Shift(es[1..], i)
  {
  }

  // ---- Matches and scans ------------------------------------------------------------------------

  function Moved(m: Match, i: nat): Match {
    if m.Hit? then Hit(m.keep + i, m.end + i) else m
  }

  ghost predicate SolidRule(rule: Rule) {
    SolidRe(rule.group) && SolidRe(rule.rest)
  }

  lemma FirstEndMoves(es: seq<nat>, i: nat)
    ensures Shift(es, i) == [] <==> es == []
    ensures es != [] ==> Shift(es, i)[0] == es[0] + i
  {
  }

  lemma {:induction false} FirstOfMoves(keeps: seq<nat>, rest: Re, t: string, i: nat, j: nat, p: nat)
    requires SolidRe(rest) && i <= j <= |t| && CutsOut(rest, t, i, j) && p <= j - i
    requires forall k :: 0 <= k < |keeps| ==> p <= keeps[k] <= j - i
    requires forall k :: 0 <= k < |Shift(keeps, i)| ==> p + i <= Shift(keeps, i)[k] <= |t|
    ensures FirstOf(Shift(keeps, i), rest, t, p + i) == Moved(FirstOf(keeps, rest, t[i..j], p), i)
    decreases |keeps|
  {
    hide Ends, SolidRe, CutsOut, Shift;
    if keeps == [] {
      ShiftNone(i);
    } else {
      ShiftFirst(keeps, i);
      EndsMove(rest, t, i, j, keeps[0] + i);
      FirstEndMoves(Ends(rest, t[i..j], keeps[0]), i);
      FirstOfMoves(keeps[1..], rest, t, i, j, p);
    }
  }

  lemma AtMoves(rule: Rule, t: string, i: nat, j: nat, p: nat)
    requires SolidRule(rule) && i <= p <= j <= |t| && CutsOut(rule.group, t, i, j) && CutsOut(rule.rest, t, i, j)
    ensures At(rule, t, p) == Moved(At(rule, t[i..j], p - i), i)
  {
    hide SolidRe, CutsOut, Shift, FirstOf, Ends;
    EndsMove(rule.group, t, i, j, p);
    ShiftKeepsRange(Ends(rule.group, t[i..j], p - i), i, p - i, j - i);
    FirstOfMoves(Ends(rule.group, t[i..j], p - i), rule.rest, t, i, j, p - i);
  }

  lemma SliceOfTail(t: string, i: nat, a: nat, b: nat)
    requires i + b <= |t| && a <= b
    ensures t[i..][a..b] == t[i + a..i + b]
  {
  }

  lemma FromSteps(e: Edit, p: nat)
    requires e.Fits() && p < |e.text|
    ensures e.hits[p].NoMatch? ==> e.From(p) == [e.text[p]] + e.From(p + 1)
    ensures e.hits[p].Hit? ==> e.From(p) == e.text[p..e.hits[p].keep] + e.fill + e.From(e.hits[p].end)
  {
  }

  /** From `i` on, one scan does what another does from its start. */
  lemma {:induction false} TailFrom(e: Edit, tail: Edit, i: nat, q: nat)
    requires e.Fits() && tail.Fits() && i + |tail.text| == |e.text| && e.text[i..] == tail.text && e.fill == tail.fill
    requires forall k: nat :: k < |tail.text| ==> e.hits[i + k] == Moved(tail.hits[k], i)
    requires q <= |tail.text|
    ensures e.From(i + q) == tail.From(q)
    decreases |tail.text| - q
  {
    hide Edit.From;
    if q < |tail.text| {
      assert e.text[i..][q] == tail.text[q];
      assert e.hits[i + q] == Moved(tail.hits[q], i);
      FromSteps(e, i + q);
      FromSteps(tail, q);
      match tail.hits[q]
      case NoMatch => TailFrom(e, tail, i, q + 1);
      case Hit(keep, end) =>
        TailFrom(e, tail, i, end);
        SliceOfTail(e.text, i, q, keep);
    } else {
      NothingFrom(e);
      NothingFrom(tail);
    }
  }

  lemma NothingFrom(e: Edit)
    requires e.Fits()
    ensures e.From(|e.text|) == ""
  {
  }

  /** Up to `n`, one scan does what another does to its end. */
  lemma {:induction false} FrontFrom(e: Edit, front: Edit, p: nat)
    requires e.Fits() && front.Fits() && |front.text| <= |e.text| && e.text[..|front.text|] == front.text
    requires e.fill == front.fill && forall k: nat :: k < |front.text| ==> e.hits[k] == front.hits[k]
    requires p <= |front.text|
    ensures e.From(p) == front.From(p) + e.From(|front.text|)
    decreases |front.text| - p
  {
    var n := |front.text|;
    if p < n {
      assert e.text[p] == e.text[..n][p] == front.text[p];
      match front.hits[p]
      case NoMatch =>
        FrontFrom(e, front, p + 1);
        FrontChar(e.text[p], front.From(p + 1), e.From(n));
      case Hit(keep, end) =>
        FrontFrom(e, front, end);
        SliceOfFront(e.text, n, p, keep);
        FrontHit(e.text[p..keep], e.fill, front.From(end), e.From(n));
    } else {
      assert "" + e.From(n) == e.From(n);
    }
  }

  lemma SliceOfFront(t: string, n: nat, a: nat, b: nat)
    requires a <= b <= n <= |t|
    ensures t[..n][a..b] == t[a..b]
  {
  }

  lemma FrontChar(c: char, a: string, b: string)
    ensures [c] + (a + b) == [c] + a + b
  {
  }

  lemma FrontHit(a: string, b: string, c: string, d: string)
    ensures a + b + (c + d) == a + b + c + d
  {
  }

  /** A rule that does not reach across white space replaces on both sides of it on its own. */
  lemma ReplaceSplits(rule: Rule, t: string, n: nat)
    requires SolidRule(rule) && rule.fill != "" && n < |t| && IsSpace(t[n])
    ensures Replace(rule, t) == Replace(rule, t[..n]) + [t[n]] + Replace(rule, t[n + 1..])
  {
    hide At, SolidRule, CutsOut;
    var e := Edits(rule, t);
    FrontOfSplit(rule, t, n);
    TailOfSplit(rule, t, n);
    AtInFront(rule, t, n, n);
    NothingAtEnd(rule, t[..n]);
    FirstLeft(e, n);
    Between(Replace(rule, t[..n]), t[n], Replace(rule, t[n + 1..]));
  }

  lemma FirstLeft(e: Edit, n: nat)
    requires e.Fits() && n < |e.text| && e.hits[n].NoMatch?
    ensures e.From(n) == [e.text[n]] + e.From(n + 1)
  {
  }

  lemma Between(a: string, c: char, b: string)
    ensures a + ([c] + b) == a + [c] + b
  {
  }

  lemma FrontOfSplit(rule: Rule, t: string, n: nat)
    requires SolidRule(rule) && rule.fill != "" && n < |t| && IsSpace(t[n])
    ensures Replace(rule, t) == Replace(rule, t[..n]) + Edits(rule, t).From(n)
  {
    hide At, SolidRule, CutsOut;
    forall k: nat | k <= n
      ensures At(rule, t, k) == At(rule, t[..n], k)
    {
      AtInFront(rule, t, n, k);
    }
    FrontFrom(Edits(rule, t), Edits(rule, t[..n]), 0);
  }

  lemma TailOfSplit(rule: Rule, t: string, n: nat)
    requires SolidRule(rule) && rule.fill != "" && n < |t| && IsSpace(t[n])
    ensures Edits(rule, t).From(n + 1) == Replace(rule, t[n + 1..])
  {
    hide At, SolidRule, CutsOut;
    var (rest, m) := (t[n + 1..], n + 1);
    forall k: nat | k < |rest|
      ensures At(rule, t, m + k) == Moved(At(rule, rest, k), m)
    {
      AtBehind(rule, t, n, k);
    }
    TailFrom(Edits(rule, t), Edits(rule, rest), m, 0);
  }

  lemma AtInFront(rule: Rule, t: string, n: nat, k: nat)
    requires SolidRule(rule) && n < |t| && IsSpace(t[n]) && k <= n
    ensures At(rule, t, k) == At(rule, t[..n], k)
  {
    hide At;
    AtMoves(rule, t, 0, n, k);
    assert t[0..n] == t[..n];
  }

  lemma AtBehind(rule: Rule, t: string, n: nat, k: nat)
    requires SolidRule(rule) && n < |t| && IsSpace(t[n]) && k <= |t| - (n + 1)
    ensures At(rule, t, n + 1 + k) == Moved(At(rule, t[n + 1..], k), n + 1)
  {
    hide At;
    AtMoves(rule, t, n + 1, |t|, n + 1 + k);
    assert t[n + 1..|t|] == t[n + 1..];
  }

  lemma NothingAtEnd(rule: Rule, s: string)
    ensures At(rule, s, |s|) == NoMatch
  {
    hide Ends;
  }

  // ---- The six rules ----------------------------------------------------------------------------

  lemma {:induction false} WordIsSolid(lit: string, fold: bool)
    requires Solid(lit)
    ensures SolidRe(Word(lit, fold)) && !HasBoundary(Word(lit, fold))
  {
    if lit != "" { WordIsSolid(lit[1..], fold); }
  }

  lemma {:induction false} WordsAreSolid(words: seq<string>)
    requires words != [] && forall w :: 0 <= w < |words| ==> Solid(words[w])
    ensures SolidRe(AnyOf(words))
  {
    WordPatternIsSolid(words[0]);
    if |words| > 1 { WordsAreSolid(words[1..]); }
  }

  lemma WordPatternIsSolid(word: string)
    requires Solid(word)
    ensures SolidRe(Word(word, true)) && !HasBoundary(Word(word, true))
  {
    WordIsSolid(word, true);
  }

  lemma SchemeIsSolid()
    ensures SolidRe(SCHEME) && !HasBoundary(SCHEME)
  {
    hide Word;
    WordIsSolid("http", true);
    WordIsSolid("://", true);
  }

  lemma HomeIsSolid()
    ensures SolidRule(HOME) && !HasBoundary(HOME.group) && !HasBoundary(HOME.rest)
  {
    hide Word;
    WordIsSolid("/home/", false);
  }

  lemma CredentialsAreSolid()
    ensures SolidRule(CREDENTIALS) && !HasBoundary(CREDENTIALS.group) && !HasBoundary(CREDENTIALS.rest)
  {
    SchemeIsSolid();
  }

  lemma HostIsSolid()
    ensures SolidRule(HOST) && !HasBoundary(HOST.group) && !HasBoundary(HOST.rest)
  {
    hide Word;
    SchemeIsSolid();
    WordIsSolid("[redacted]@", true);
  }

  lemma ProxyIsSolid()
    ensures SolidRule(PROXY)
  {
    hide Word;
    WordIsSolid("proxy", true);
  }

  lemma TokenIsSolid()
    ensures SolidRule(TOKEN)
  {
    hide AnyOf;
    KeywordsAreSolid();
    TokenGroupIsSolid(KEYWORDS);
  }

  lemma TokenGroupIsSolid(words: seq<string>)
    requires words != [] && forall w :: 0 <= w < |words| ==> Solid(words[w])
    ensures SolidRe(Cat(AnyOf(words), One(Among("=:")))) && SolidRe(OneOrMore(TOKEN_CHARS))
  {
    hide AnyOf, SpaceFree;
    WordsAreSolid(words);
    DelimitersAreSolid();
  }

  lemma DelimitersAreSolid()
    ensures SpaceFree(Among("=:")) && SpaceFree(TOKEN_CHARS)
  {
  }

  lemma Ipv4IsSolid()
    ensures SolidRule(IPV4)
  {
  }

  /** Redaction works word by word: white space is kept, and nothing acts across it. */
  lemma RedactSplits(a: string, c: char, b: string)
    requires c in [' ', '\t', '\n', '\U{0B}', '\U{0C}', '\r']
    ensures Redact(a + [c] + b) == Redact(a) + [c] + Redact(b)
  {
    hide Replace, SolidRule;
    SpaceExactly(c);
    HomeIsSolid();
    CredentialsAreSolid();
    HostIsSolid();
    ProxyIsSolid();
    TokenIsSolid();
    Ipv4IsSolid();
    var (a1, b1) := (Replace(HOME, a), Replace(HOME, b));
    var (a2, b2) := (Replace(CREDENTIALS, a1), Replace(CREDENTIALS, b1));
    var (a3, b3) := (Replace(HOST, a2), Replace(HOST, b2));
    var (a4, b4) := (Replace(PROXY, a3), Replace(PROXY, b3));
    var (a5, b5) := (Replace(TOKEN, a4), Replace(TOKEN, b4));
    ReplaceSplitsAround(HOME, a, c, b);
    ReplaceSplitsAround(CREDENTIALS, a1, c, b1);
    ReplaceSplitsAround(HOST, a2, c, b2);
    ReplaceSplitsAround(PROXY, a3, c, b3);
    ReplaceSplitsAround(TOKEN, a4, c, b4);
    ReplaceSplitsAround(IPV4, a5, c, b5);
  }

  lemma ReplaceSplitsAround(rule: Rule, a: string, c: char, b: string)
    requires SolidRule(rule) && rule.fill != "" && IsSpace(c)
    ensures Replace(rule, a + [c] + b) == Replace(rule, a) + [c] + Replace(rule, b)
  {
    hide Replace, SolidRule;
    var t := a + [c] + b;
    ReplaceSplits(rule, t, |a|);
    assert t[..|a|] == a && t[|a| + 1..] == b && t[|a|] == c;
  }
}
