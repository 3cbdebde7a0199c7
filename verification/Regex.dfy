/**
 Backtracking regular expressions, as section 15.10.2 of ECMA-262 (3rd edition) gives them.

 A continuation in the standard that is tried in order of preference becomes here the list of all
 end positions in that order; the match is the first of them.
 */
module Regex {
  import opened Text

  datatype CharSet =
    | Char(c: char)              // the character itself
    | AnyCase(c: char)           // a lower-case letter under std::regex::icase, or a caseless character
    | Digit                      // [0-9]
    | Among(cs: string)          // [cs]
    | AlnumOr(cs: string)        // [A-Za-z0-9cs]
    | Except(cs: string)         // [^cs\s]
  {
    predicate Has(x: char) {
      match this
      case Char(c) => x == c
      case AnyCase(c) => Lower(x) == c
      case Digit => IsDigit(x)
      case Among(cs) => x in cs
      case AlnumOr(cs) => IsLetter(x) || IsDigit(x) || x in cs
      case Except(cs) => !IsSpace(x) && x !in cs
    }
  }

  datatype Bound = AtMost(n: nat) | Unbounded

  datatype Re =
    | Empty
    | One(chars: CharSet)
    | Cat(first: Re, second: Re)
    | Alt(left: Re, right: Re)             // left is tried first
    | Opt(body: Re)                        // greedy: taking the body is tried first
    | Rep(chars: CharSet, lo: nat, hi: Bound) // greedy
    | WordBoundary

  /** The least position at or after `i` whose character is outside the set. */
  function RunEnd(k: CharSet, s: string, i: nat): (e: nat)
    requires i <= |s|
    ensures i <= e <= |s|
    ensures forall j :: i <= j < e ==> k.Has(s[j])
    ensures e < |s| ==> !k.Has(s[e])
    decreases |s| - i
  {
    if i < |s| && k.Has(s[i]) then RunEnd(k, s, i + 1) else i
  }

  predicate WordAt(s: string, i: int) {
    0 <= i < |s| && IsWord(s[i])
  }

  function Down(lo: nat, hi: nat): (r: seq<nat>)
    requires lo <= hi
    ensures |r| > 0 && r[0] == hi
    ensures forall j :: 0 <= j < |r| ==> lo <= r[j] <= hi
    ensures forall e :: lo <= e <= hi ==> e in r
    decreases hi
  {
    if hi == lo then [hi] else [hi] + Down(lo, hi - 1)
  }

  /** The ends of all matches of `r` that start at `i`, most preferred first. */
  function Ends(r: Re, s: string, i: nat): (es: seq<nat>)
    requires i <= |s|
    ensures forall j :: 0 <= j < |es| ==> i <= es[j] <= |s|
    decreases r, 0
  {
    match r
    case Empty => [i]
    case One(k) => if i < |s| && k.Has(s[i]) then [i + 1] else []
    case Cat(a, b) => EndsFrom(Ends(a, s, i), b, s, i)
    case Alt(a, b) => Ends(a, s, i) + Ends(b, s, i)
    case Opt(a) => Ends(a, s, i) + [i]
    case Rep(k, lo, hi) =>
      var run := RunEnd(k, s, i);
      var top := if hi.AtMost? && i + hi.n < run then i + hi.n else run;
      if top < i + lo then [] else Down(i + lo, top)
    case WordBoundary => if WordAt(s, i - 1) != WordAt(s, i) then [i] else []
  }

  function EndsFrom(starts: seq<nat>, r: Re, s: string, least: nat): (es: seq<nat>)
    requires forall j :: 0 <= j < |starts| ==> least <= starts[j] <= |s|
    ensures forall j :: 0 <= j < |es| ==> least <= es[j] <= |s|
    decreases r, 1 + |starts|
  {
    if starts == [] then [] else Ends(r, s, starts[0]) + EndsFrom(starts[1..], r, s, least)
  }

  /** The same matches as a relation: `r` can match exactly `s[i..e]`. */
  ghost predicate Matches(r: Re, s: string, i: nat, e: nat)
    requires i <= e <= |s|
  {
    match r
    case Empty => e == i
    case One(k) => e == i + 1 && k.Has(s[i])
    case Cat(a, b) => exists m :: i <= m <= e && Matches(a, s, i, m) && Matches(b, s, m, e)
    case Alt(a, b) => Matches(a, s, i, e) || Matches(b, s, i, e)
    case Opt(a) => Matches(a, s, i, e) || e == i
    case Rep(k, lo, hi) => i + lo <= e && (hi.AtMost? ==> e <= i + hi.n) && forall j :: i <= j < e ==> k.Has(s[j])
    case WordBoundary => e == i && WordAt(s, i - 1) != WordAt(s, i)
  }

  /** Backtracking finds every match of the relation and nothing else. */
  lemma {:induction false} EndsAreMatches(r: Re, s: string, i: nat, e: nat)
    requires i <= e <= |s|
    ensures e in Ends(r, s, i) <==> Matches(r, s, i, e)
    decreases r, 0
  {
    match r
    case Cat(a, b) =>
      EndsFromAreMatches(Ends(a, s, i), b, s, i, e);
      forall m | i <= m <= e
        ensures m in Ends(a, s, i) <==> Matches(a, s, i, m)
      {
        EndsAreMatches(a, s, i, m);
      }
    case Alt(a, b) =>
      EndsAreMatches(a, s, i, e);
      EndsAreMatches(b, s, i, e);
    case Opt(a) => EndsAreMatches(a, s, i, e);
    case Rep(k, lo, hi) =>
    case _ =>
  }

  lemma {:induction false} EndsFromAreMatches(starts: seq<nat>, r: Re, s: string, least: nat, e: nat)
    requires forall j :: 0 <= j < |starts| ==> least <= starts[j] <= |s|
    requires e <= |s|
    ensures e in EndsFrom(starts, r, s, least) <==> exists m :: m in starts && m <= e && Matches(r, s, m, e)
    decreases r, 1 + |starts|
  {
    if starts != [] {
      EndsFromAreMatches(starts[1..], r, s, least, e);
      if starts[0] <= e {
        EndsAreMatches(r, s, starts[0], e);
      }
    }
  }

  lemma SameAt(s: string, i: nat, e: nat, t: string, p: nat)
    requires i <= e <= |s| && p + e - i <= |t|
    requires s[i..e] == t[p..p + e - i]
    ensures forall j :: i <= j < e ==> s[j] == t[p + j - i]
    ensures forall j :: p <= j < p + e - i ==> t[j] == s[i + j - p]
  {
    assert forall j :: i <= j < e ==> s[j] == s[i..e][j - i] && t[p + j - i] == t[p..p + e - i][j - i];
    assert forall j :: p <= j < p + e - i ==> s[i + j - p] == s[i..e][j - p] && t[j] == t[p..p + e - i][j - p];
  }

  lemma SameParts(s: string, i: nat, m: nat, e: nat, t: string, p: nat)
    requires i <= m <= e <= |s| && p + e - i <= |t|
    requires s[i..e] == t[p..p + e - i]
    ensures s[i..m] == t[p..p + m - i] && s[m..e] == t[p + m - i..p + e - i]
  {
    assert s[i..m] == s[i..e][..m - i] && t[p..p + m - i] == t[p..p + e - i][..m - i];
    assert s[m..e] == s[i..e][m - i..] && t[p + m - i..p + e - i] == t[p..p + e - i][m - i..];
  }

  /** A match depends on its own characters and on which neighbours are word characters. */
  lemma {:induction false} MatchesMoves(r: Re, s: string, i: nat, e: nat, t: string, p: nat)
    requires i <= e <= |s| && p + e - i <= |t|
    requires s[i..e] == t[p..p + e - i]
    requires WordAt(s, i - 1) == WordAt(t, p - 1) && WordAt(s, e) == WordAt(t, p + e - i)
    requires Matches(r, s, i, e)
    ensures Matches(r, t, p, p + e - i)
  {
    match r
    case Cat(a, b) =>
      var m :| i <= m <= e && Matches(a, s, i, m) && Matches(b, s, m, e);
      SameAt(s, i, e, t, p);
      SameParts(s, i, m, e, t, p);
      MatchesMoves(a, s, i, m, t, p);
      MatchesMoves(b, s, m, e, t, p + m - i);
      var n: nat := p + m - i;
      assert Matches(a, t, p, n) && Matches(b, t, n, p + e - i);
    case Alt(a, b) =>
      if Matches(a, s, i, e) { MatchesMoves(a, s, i, e, t, p); } else { MatchesMoves(b, s, i, e, t, p); }
    case Opt(a) =>
      if e != i { MatchesMoves(a, s, i, e, t, p); }
    case Rep(k, lo, hi) =>
      SameAt(s, i, e, t, p);
    case One(k) =>
      SameAt(s, i, e, t, p);
    case _ =>
  }

  /** The fewest characters a match of `r` can have. */
  function MinWidth(r: Re): nat {
    match r
    case Empty => 0
    case One(_) => 1
    case Cat(a, b) => MinWidth(a) + MinWidth(b)
    case Alt(a, b) => if MinWidth(a) <= MinWidth(b) then MinWidth(a) else MinWidth(b)
    case Opt(_) => 0
    case Rep(_, lo, _) => lo
    case WordBoundary => 0
  }

  lemma {:induction false} MatchesAreWide(r: Re, s: string, i: nat, e: nat)
    requires i <= e <= |s| && Matches(r, s, i, e)
    ensures i + MinWidth(r) <= e
  {
    match r
    case Cat(a, b) =>
      var m :| i <= m <= e && Matches(a, s, i, m) && Matches(b, s, m, e);
      MatchesAreWide(a, s, i, m);
      MatchesAreWide(b, s, m, e);
    case Alt(a, b) =>
      if Matches(a, s, i, e) { MatchesAreWide(a, s, i, e); } else { MatchesAreWide(b, s, i, e); }
    case _ =>
  }

  lemma CatParts(r: Re, s: string, i: nat, e: nat) returns (m: nat)
    requires r.Cat? && i <= e <= |s| && Matches(r, s, i, e)
    ensures i <= m <= e && Matches(r.first, s, i, m) && Matches(r.second, s, m, e)
  {
    m :| i <= m <= e && Matches(r.first, s, i, m) && Matches(r.second, s, m, e);
  }

  lemma CatJoins(r: Re, s: string, i: nat, m: nat, e: nat)
    requires r.Cat? && i <= m <= e <= |s|
    requires Matches(r.first, s, i, m) && Matches(r.second, s, m, e)
    ensures Matches(r, s, i, e)
  {
  }

  // ---- Literal text -----------------------------------------------------------------------------

  function Folded(fold: bool, c: char): char {
    if fold then Lower(c) else c
  }

  /** `lit` occurs in `s` at `i`; under `fold`, `lit` is in lower case and `s` may be in either. */
  predicate Spells(lit: string, fold: bool, s: string, i: nat) {
    && i + |lit| <= |s|
    && forall k :: 0 <= k < |lit| ==> Folded(fold, s[i + k]) == lit[k]
  }

  /** A literal is its front followed by its back. */
  lemma SpellsSplits(front: string, back: string, fold: bool, s: string, i: nat)
    ensures Spells(front + back, fold, s, i) <==> Spells(front, fold, s, i) && Spells(back, fold, s, i + |front|)
  {
    var lit := front + back;
    if Spells(lit, fold, s, i) {
      forall k | 0 <= k < |front|
        ensures Folded(fold, s[i + k]) == front[k]
      {
        assert lit[k] == front[k];
      }
      forall k | 0 <= k < |back|
        ensures Folded(fold, s[i + |front| + k]) == back[k]
      {
        assert lit[|front| + k] == back[k] && i + |front| + k == i + (|front| + k);
      }
    }
    if Spells(front, fold, s, i) && Spells(back, fold, s, i + |front|) {
      forall k | 0 <= k < |lit|
        ensures Folded(fold, s[i + k]) == lit[k]
      {
        if k < |front| {
          assert lit[k] == front[k];
        } else {
          assert lit[k] == back[k - |front|] && i + |front| + (k - |front|) == i + k;
        }
      }
    }
  }

  function Word(lit: string, fold: bool): Re {
    if lit == "" then Empty
    else Cat(One(if fold then AnyCase(lit[0]) else Char(lit[0])), Word(lit[1..], fold))
  }

  lemma {:induction false} WordMatches(lit: string, fold: bool, s: string, i: nat, e: nat)
    requires i <= e <= |s|
    ensures Matches(Word(lit, fold), s, i, e) <==> e == i + |lit| && Spells(lit, fold, s, i)
    decreases |lit|
  {
    if lit != "" {
      if i < e {
        WordMatches(lit[1..], fold, s, i + 1, e);
        assert Spells(lit, fold, s, i) ==> Matches(Word(lit, fold).first, s, i, i + 1) by {
          if Spells(lit, fold, s, i) { assert s[i + 0] == s[i]; }
        }
        assert Spells(lit, fold, s, i) ==> Spells(lit[1..], fold, s, i + 1) by {
          if Spells(lit, fold, s, i) {
            forall k | 0 <= k < |lit| - 1
              ensures Folded(fold, s[i + 1 + k]) == lit[1..][k]
            {
              assert s[i + (k + 1)] == s[i + 1 + k] && lit[k + 1] == lit[1..][k];
            }
          }
        }
        if Matches(Word(lit, fold).first, s, i, i + 1) && Spells(lit[1..], fold, s, i + 1) {
          forall k | 0 <= k < |lit|
            ensures Folded(fold, s[i + k]) == lit[k]
          {
            if k > 0 { assert s[i + 1 + (k - 1)] == s[i + k] && lit[1..][k - 1] == lit[k]; }
          }
        }
      }
    }
  }
}
