/** The six replacement passes applied to evidence before it is reported. */
module Redaction {
  import opened Text
  import opened Regex
  import opened Rewrite

  const REDACTED := "[redacted]"
  const REDACTED_AT := "[redacted]@"
  const REDACTED_HOST := "[redacted-host]"
  const REDACTED_IP := "[redacted-ip]"

  function OneOrMore(k: CharSet): Re { Rep(k, 1, Unbounded) }

  /** Alternatives in any case, tried from left to right. */
  function AnyOf(words: seq<string>): Re
    requires words != []
  {
    if |words| == 1 then Word(words[0], true) else Alt(Word(words[0], true), AnyOf(words[1..]))
  }

  // /home/[^/\s]+
  const HOME := Rule(Word("/home/", false), OneOrMore(Except("/")), REDACTED)

  // https?://
  const SCHEME := Cat(Word("http", true), Cat(Opt(One(AnyCase('s'))), Word("://", true)))

  // (https?://)[^/@\s]+@
  const CREDENTIALS := Rule(SCHEME, Cat(OneOrMore(Except("/@")), One(Char('@'))), REDACTED_AT)

  // (https?://)(?:\[redacted\]@)?[^/\s]+
  const HOST := Rule(SCHEME, Cat(Opt(Word("[redacted]@", true)), OneOrMore(Except("/"))), REDACTED_HOST)

  // (proxy[^=\s]*=)[^\s]+
  const PROXY := Rule(Cat(Word("proxy", true), Cat(Rep(Except("="), 0, Unbounded), One(Char('=')))),
                      OneOrMore(Except("")), REDACTED)

  const TOKEN_CHARS := AlnumOr("._~+/-")

  // ((token|password|passwd|secret|apikey|api_key)[=:])[A-Za-z0-9._~+/-]+
  const KEYWORDS := ["token", "password", "passwd", "secret", "apikey", "api_key"]
  const TOKEN := Rule(Cat(AnyOf(KEYWORDS), One(Among("=:"))), OneOrMore(TOKEN_CHARS), REDACTED)

  // \b(?:[0-9]{1,3}\.){3}[0-9]{1,3}\b
  const NUMBER := Rep(Digit, 1, AtMost(3))
  const NUMBER_DOT := Cat(NUMBER, One(Char('.')))
  const QUAD := Cat(WordBoundary, Cat(NUMBER_DOT, Cat(NUMBER_DOT, Cat(NUMBER_DOT, Cat(NUMBER, WordBoundary)))))
  const IPV4 := Rule(Empty, QUAD, REDACTED_IP)

  function Redact(value: string): string {
    var v1 := Replace(HOME, value);
    var v2 := Replace(CREDENTIALS, v1);
    var v3 := Replace(HOST, v2);
    var v4 := Replace(PROXY, v3);
    var v5 := Replace(TOKEN, v4);
    Replace(IPV4, v5)
  }

  // ---- What the rules match, in terms of characters ---------------------------------------------

  const SLASH := Except("/")   // [^/\s], a path component character
  const NAME := Except("/@")   // [^/@\s]

  lemma RunIsPreferred(k: CharSet, s: string, i: nat)
    requires i <= |s|
    ensures i < |s| && k.Has(s[i]) ==>
              Ends(OneOrMore(k), s, i) != [] && Ends(OneOrMore(k), s, i)[0] == RunEnd(k, s, i) > i
    ensures !(i < |s| && k.Has(s[i])) ==> Ends(OneOrMore(k), s, i) == []
  {
  }

  lemma HomeHits(s: string, i: nat)
    requires i <= |s|
    ensures At(HOME, s, i).Hit? <==> Spells("/home/", false, s, i) && i + 6 < |s| && SLASH.Has(s[i + 6])
    ensures At(HOME, s, i).Hit? ==> At(HOME, s, i) == Hit(i + 6, RunEnd(SLASH, s, i + 6))
  {
    hide At, Spells;
    if At(HOME, s, i).Hit? {
      var m := At(HOME, s, i);
      HitMatches(HOME, s, i);
      WordMatches("/home/", false, s, i, m.keep);
      RunIsPreferred(SLASH, s, m.keep);
    }
    if Spells("/home/", false, s, i) && i + 6 < |s| && SLASH.Has(s[i + 6]) {
      WordMatches("/home/", false, s, i, i + 6);
      MatchIsHit(HOME, s, i, i + 6, i + 7);
    }
  }

  /** The length of the URL scheme at `i`, 0 if there is none. */
  function SchemeLength(s: string, i: nat): nat {
    if Spells("http://", true, s, i) then 7 else if Spells("https://", true, s, i) then 8 else 0
  }

  lemma SchemeMatches(s: string, i: nat, e: nat)
    requires i <= e <= |s|
    ensures Regex.Matches(SCHEME, s, i, e) <==> SchemeLength(s, i) > 0 && e == i + SchemeLength(s, i)
  {
    SchemeSpelled(s, i);
    if Regex.Matches(SCHEME, s, i, e) {
      var m := CatParts(SCHEME, s, i, e);
      WordMatches("http", true, s, i, m);
      var n := CatParts(SCHEME.second, s, m, e);
      WordMatches("://", true, s, n, e);
    }
    if SchemeLength(s, i) > 0 && e == i + SchemeLength(s, i) { SchemeIsMatch(s, i, e); }
  }

  /** `http`, maybe an `s`, and `://`. */
  lemma SchemeSpelled(s: string, i: nat)
    ensures Spells("http://", true, s, i) <==> Spells("http", true, s, i) && Spells("://", true, s, i + 4)
    ensures Spells("https://", true, s, i) <==>
              Spells("http", true, s, i) && i + 4 < |s| && Lower(s[i + 4]) == 's' && Spells("://", true, s, i + 5)
  {
    SpellsSplits("http", "://", true, s, i);
    SpellsSplits("http", "s://", true, s, i);
    SpellsSplits("s", "://", true, s, i + 4);
    assert "http" + "://" == "http://" && "http" + "s://" == "https://" && "s" + "://" == "s://";
    assert Spells("s", true, s, i + 4) <==> i + 4 < |s| && Lower(s[i + 4]) == "s"[0];
  }

  lemma SchemeIsMatch(s: string, i: nat, e: nat)
    requires i <= e <= |s| && SchemeLength(s, i) > 0 && e == i + SchemeLength(s, i)
    ensures Regex.Matches(SCHEME, s, i, e)
  {
    SchemeSpelled(s, i);
    var n: nat := e - 3;
    WordMatches("http", true, s, i, i + 4);
    WordMatches("://", true, s, n, e);
    CatJoins(SCHEME.second, s, i + 4, n, e);
    CatJoins(SCHEME, s, i, i + 4, e);
  }

  lemma {:induction false} RunsEndTogether(k: CharSet, s: string, i: nat, j: nat)
    requires i <= j <= |s| && forall x :: i <= x < j ==> k.Has(s[x])
    ensures RunEnd(k, s, i) == RunEnd(k, s, j)
    decreases j - i
  {
    if i < j { RunsEndTogether(k, s, i + 1, j); }
  }

  lemma {:induction false} RunsFromShareTheirEnd(starts: seq<nat>, k: CharSet, s: string, least: nat, end: nat)
    requires forall j :: 0 <= j < |starts| ==> least <= starts[j] <= |s| && RunEnd(k, s, starts[j]) == end
    ensures var es := EndsFrom(starts, OneOrMore(k), s, least); es != [] ==> es[0] == end
  {
    if starts != [] {
      RunIsPreferred(k, s, starts[0]);
      RunsFromShareTheirEnd(starts[1..], k, s, least, end);
    }
  }

  /** Path components end together whether or not a marker made of such characters is skipped first. */
  lemma MarkerThenRun(marker: string, s: string, i: nat)
    requires i <= |s| && forall k :: 0 <= k < |marker| ==> !IsSpace(marker[k]) && marker[k] != '/'
    ensures var es := Ends(Cat(Opt(Word(marker, true)), OneOrMore(SLASH)), s, i);
            es != [] ==> es[0] == RunEnd(SLASH, s, i)
  {
    var starts := Ends(Opt(Word(marker, true)), s, i);
    forall j | 0 <= j < |starts|
      ensures RunEnd(SLASH, s, starts[j]) == RunEnd(SLASH, s, i)
    {
      if starts[j] != i {
        assert starts[j] in Ends(Word(marker, true), s, i);
        EndsAreMatches(Word(marker, true), s, i, starts[j]);
        WordMatches(marker, true, s, i, starts[j]);
        forall x | i <= x < starts[j] ensures SLASH.Has(s[x]) {
          assert Lower(s[i + (x - i)]) == marker[x - i];
        }
        RunsEndTogether(SLASH, s, i, starts[j]);
      }
    }
    RunsFromShareTheirEnd(starts, SLASH, s, i, RunEnd(SLASH, s, i));
  }

  /** `n` characters from `i`, if any, are all that the group can match. */
  ghost predicate GroupIs(group: Re, s: string, i: nat, n: nat)
    requires i <= |s|
  {
    forall e :: i <= e <= |s| ==> (Regex.Matches(group, s, i, e) <==> n > 0 && e == i + n)
  }

  lemma SchemeIs(s: string, i: nat)
    requires i <= |s|
    ensures GroupIs(SCHEME, s, i, SchemeLength(s, i))
  {
    forall e | i <= e <= |s|
      ensures Regex.Matches(SCHEME, s, i, e) <==> SchemeLength(s, i) > 0 && e == i + SchemeLength(s, i)
    {
      SchemeMatches(s, i, e);
    }
  }

  /** The optional part backtracks: with or without it the match ends with the path component. */
  lemma HostHits(s: string, i: nat)
    requires i <= |s|
    ensures At(HOST, s, i) == (
              var n := SchemeLength(s, i);
              if n > 0 && i + n < |s| && SLASH.Has(s[i + n]) then Hit(i + n, RunEnd(SLASH, s, i + n)) else NoMatch)
  {
    hide SchemeLength, CharSet.Has, At, GroupIs, RunEnd;
    SchemeIs(s, i);
    if At(HOST, s, i).Hit? { HostHit(HOST, SchemeLength(s, i), "[redacted]@", s, i); }
    var n := SchemeLength(s, i);
    if n > 0 && i + n < |s| && SLASH.Has(s[i + n]) { HostIsHit(HOST, n, "[redacted]@", s, i); }
  }

  lemma HostHit(rule: Rule, n: nat, marker: string, s: string, i: nat)
    requires i <= |s| && forall k :: 0 <= k < |marker| ==> !IsSpace(marker[k]) && marker[k] != '/'
    requires GroupIs(rule.group, s, i, n) && rule.rest == Cat(Opt(Word(marker, true)), OneOrMore(SLASH))
    requires At(rule, s, i).Hit?
    ensures n > 0 && i + n < |s| && SLASH.Has(s[i + n]) && At(rule, s, i) == Hit(i + n, RunEnd(SLASH, s, i + n))
  {
    var m := At(rule, s, i);
    HitMatches(rule, s, i);
    MarkerThenRun(marker, s, m.keep);
    MatchesAreWide(rule.rest, s, m.keep, m.end);
  }

  lemma HostIsHit(rule: Rule, n: nat, marker: string, s: string, i: nat)
    requires n > 0 && i + n < |s| && SLASH.Has(s[i + n])
    requires GroupIs(rule.group, s, i, n) && rule.rest == Cat(Opt(Word(marker, true)), OneOrMore(SLASH))
    ensures At(rule, s, i).Hit?
  {
    CatJoins(rule.rest, s, i + n, i + n, i + n + 1);
    MatchIsHit(rule, s, i, i + n, i + n + 1);
  }

  /** A match that takes, behind a scheme of `n` characters, everything up to an `@`. */
  ghost predicate IsCredentials(s: string, i: nat, n: nat, m: Match) {
    && m.Hit? && n > 0 && m.keep == i + n < m.end - 1 < |s|
    && s[m.end - 1] == '@' && forall j :: m.keep <= j < m.end - 1 ==> Except("/@").Has(s[j])
  }

  lemma CredentialsHit(s: string, i: nat)
    requires i <= |s| && At(CREDENTIALS, s, i).Hit?
    ensures IsCredentials(s, i, SchemeLength(s, i), At(CREDENTIALS, s, i))
  {
    var m := At(CREDENTIALS, s, i);
    HitMatches(CREDENTIALS, s, i);
    SchemeMatches(s, i, m.keep);
    var n := CatParts(CREDENTIALS.rest, s, m.keep, m.end);
  }

  /** `proxy` at `p`, and from there up to `q` neither `=` nor white space. */
  ghost predicate ProxyOpens(s: string, p: nat, q: nat) {
    && Spells("proxy", true, s, p) && p + 5 <= q <= |s|
    && forall j :: p + 5 <= j < q ==> Except("=").Has(s[j])
  }

  lemma ProxyHit(s: string, i: nat)
    requires i <= |s| && At(PROXY, s, i).Hit?
    ensures var m := At(PROXY, s, i);
            && i < m.keep && ProxyOpens(s, i, m.keep - 1) && s[m.keep - 1] == '='
            && m.end == RunEnd(Except(""), s, m.keep) > m.keep
  {
    var m := At(PROXY, s, i);
    HitMatches(PROXY, s, i);
    ProxyGroup("proxy", s, i, m.keep);
    RunIsPreferred(Except(""), s, m.keep);
  }

  lemma ProxyGroup(lit: string, s: string, i: nat, e: nat)
    requires i <= e <= |s|
    requires Regex.Matches(Cat(Word(lit, true), Cat(Rep(Except("="), 0, Unbounded), One(Char('=')))), s, i, e)
    ensures Spells(lit, true, s, i) && i + |lit| < e && s[e - 1] == '='
    ensures forall j :: i + |lit| <= j < e - 1 ==> Except("=").Has(s[j])
  {
    var r := Cat(Word(lit, true), Cat(Rep(Except("="), 0, Unbounded), One(Char('='))));
    var a := CatParts(r, s, i, e);
    WordMatches(lit, true, s, i, a);
    var b := CatParts(r.second, s, a, e);
  }

  lemma ProxyGroupMatches(lit: string, s: string, i: nat, q: nat)
    requires Spells(lit, true, s, i) && i + |lit| <= q < |s| && s[q] == '='
    requires forall j :: i + |lit| <= j < q ==> Except("=").Has(s[j])
    ensures Regex.Matches(Cat(Word(lit, true), Cat(Rep(Except("="), 0, Unbounded), One(Char('=')))), s, i, q + 1)
  {
    var r := Cat(Word(lit, true), Cat(Rep(Except("="), 0, Unbounded), One(Char('='))));
    WordMatches(lit, true, s, i, i + |lit|);
    CatJoins(r.second, s, i + |lit|, q, q + 1);
    CatJoins(r, s, i, i + |lit|, q + 1);
  }

  lemma ProxyIsHit(s: string, p: nat, q: nat)
    requires ProxyOpens(s, p, q) && q + 1 < |s| && s[q] == '=' && !IsSpace(s[q + 1])
    ensures At(PROXY, s, p).Hit? && At(PROXY, s, p).keep == q + 1
  {
    ProxyGroupMatches("proxy", s, p, q);
    MatchIsHit(PROXY, s, p, q + 1, q + 2);
    ProxyHit(s, p);
  }

  /** One of the words and then `=` or `:` fill `s[i..g]`. */
  ghost predicate WordEnds(words: seq<string>, s: string, i: nat, g: nat) {
    exists w :: 0 <= w < |words| && Spells(words[w], true, s, i) && i + |words[w]| + 1 == g <= |s| && s[g - 1] in "=:"
  }

  lemma {:induction false} AnyOfMatches(words: seq<string>, s: string, i: nat, e: nat)
    requires words != [] && i <= e <= |s|
    ensures Regex.Matches(AnyOf(words), s, i, e) <==>
              exists w :: 0 <= w < |words| && Spells(words[w], true, s, i) && i + |words[w]| == e
  {
    WordMatches(words[0], true, s, i, e);
    if |words| > 1 {
      AnyOfMatches(words[1..], s, i, e);
      assert forall w :: 0 <= w < |words| - 1 ==> words[1..][w] == words[w + 1];
      assert forall w :: 0 < w < |words| ==> words[w] == words[1..][w - 1];
    }
  }

  lemma TokenHit(words: seq<string>, rule: Rule, s: string, i: nat)
    requires words != [] && rule == Rule(Cat(AnyOf(words), One(Among("=:"))), OneOrMore(TOKEN_CHARS), REDACTED)
    requires i <= |s| && At(rule, s, i).Hit?
    ensures var m := At(rule, s, i);
            && WordEnds(words, s, i, m.keep) && m.keep < m.end
            && forall j :: m.keep <= j < m.end ==> TOKEN_CHARS.Has(s[j])
  {
    var m := At(rule, s, i);
    HitMatches(rule, s, i);
    var n := CatParts(rule.group, s, i, m.keep);
    AnyOfMatches(words, s, i, n);
  }

  lemma TokenIsHit(words: seq<string>, rule: Rule, s: string, i: nat, g: nat)
    requires words != [] && rule == Rule(Cat(AnyOf(words), One(Among("=:"))), OneOrMore(TOKEN_CHARS), REDACTED)
    requires WordEnds(words, s, i, g) && g < |s| && TOKEN_CHARS.Has(s[g])
    ensures At(rule, s, i).Hit?
  {
    AnyOfMatches(words, s, i, g - 1);
    CatJoins(rule.group, s, i, g - 1, g);
    MatchIsHit(rule, s, i, g, g + 1);
  }

  lemma NumberDotMatches(s: string, i: nat, e: nat)
    requires i <= e <= |s| && Regex.Matches(NUMBER_DOT, s, i, e)
    ensures i < e - 1 && s[e - 1] == '.' && forall j :: i <= j < e - 1 ==> IsDigit(s[j])
  {
    var m := CatParts(NUMBER_DOT, s, i, e);
  }

  /** A dotted quad starts and ends with a digit, between characters that are no word characters. */
  lemma QuadMatches(s: string, i: nat, e: nat)
    requires i <= e <= |s| && Regex.Matches(QUAD, s, i, e)
    ensures i < e && IsDigit(s[i]) && IsDigit(s[e - 1]) && !WordAt(s, i - 1) && !WordAt(s, e)
    ensures forall j :: i <= j < e ==> IsDigit(s[j]) || s[j] == '.'
  {
    var q1 := QUAD.second;
    var q2 := q1.second;
    var q3 := q2.second;
    var q4 := q3.second;
    var b := CatParts(QUAD, s, i, e);
    var m1 := CatParts(q1, s, b, e);
    NumberDotMatches(s, b, m1);
    var m2 := CatParts(q2, s, m1, e);
    NumberDotMatches(s, m1, m2);
    var m3 := CatParts(q3, s, m2, e);
    NumberDotMatches(s, m2, m3);
    var m4 := CatParts(q4, s, m3, e);
    assert Regex.Matches(NUMBER, s, m3, m4) && Regex.Matches(WordBoundary, s, m4, e);
  }

  lemma QuadHit(s: string, i: nat)
    requires i <= |s| && At(IPV4, s, i).Hit?
    ensures var m := At(IPV4, s, i);
            m.keep == i && Regex.Matches(QUAD, s, i, m.end)
  {
    HitMatches(IPV4, s, i);
  }

  // ---- Exactly what the other three rules match -------------------------------------------------

  /** Behind a scheme, a run without slash and `@` that is not empty and ends at an `@`. */
  lemma CredentialsHits(s: string, i: nat)
    requires i <= |s|
    ensures At(CREDENTIALS, s, i) == (
              var n := SchemeLength(s, i);
              if n > 0 && i + n < |s| && NAME.Has(s[i + n]) && EndsAt(s, RunEnd(NAME, s, i + n))
              then Hit(i + n, RunEnd(NAME, s, i + n) + 1) else NoMatch)
  {
    hide SchemeLength, CharSet.Has;
    var n := SchemeLength(s, i);
    SchemeIs(s, i);
    if At(CREDENTIALS, s, i).Hit? { NameIsTaken(CREDENTIALS, n, s, i); }
    if n > 0 && i + n < |s| && NAME.Has(s[i + n]) && EndsAt(s, RunEnd(NAME, s, i + n)) {
      NameIsHit(CREDENTIALS, n, s, i);
    }
  }

  predicate EndsAt(s: string, e: nat) {
    e < |s| && s[e] == '@'
  }

  lemma NameIsTaken(rule: Rule, n: nat, s: string, i: nat)
    requires i <= |s| && GroupIs(rule.group, s, i, n) && rule.rest == Cat(OneOrMore(NAME), One(Char('@')))
    requires At(rule, s, i).Hit?
    ensures n > 0 && i + n < |s| && NAME.Has(s[i + n]) && EndsAt(s, RunEnd(NAME, s, i + n))
    ensures At(rule, s, i) == Hit(i + n, RunEnd(NAME, s, i + n) + 1)
  {
    var m := At(rule, s, i);
    HitMatches(rule, s, i);
    var e := CatParts(rule.rest, s, m.keep, m.end);
    RunsEndTogether(NAME, s, m.keep, e);
  }

  lemma NameIsHit(rule: Rule, n: nat, s: string, i: nat)
    requires n > 0 && i + n < |s| && NAME.Has(s[i + n]) && EndsAt(s, RunEnd(NAME, s, i + n))
    requires GroupIs(rule.group, s, i, n) && rule.rest == Cat(OneOrMore(NAME), One(Char('@')))
    ensures At(rule, s, i).Hit?
  {
    var e := RunEnd(NAME, s, i + n);
    CatJoins(rule.rest, s, i + n, e, e + 1);
    MatchIsHit(rule, s, i, i + n, e + 1);
  }

  /** A keyword in any case with its delimiter and a token character; the whole run of those is taken. */
  lemma TokenHits(s: string, i: nat)
    requires i <= |s|
    ensures At(TOKEN, s, i).Hit? <==> exists g: nat :: WordEnds(KEYWORDS, s, i, g) && g < |s| && TOKEN_CHARS.Has(s[g])
    ensures var m := At(TOKEN, s, i);
            m.Hit? ==> WordEnds(KEYWORDS, s, i, m.keep) && m.end == RunEnd(TOKEN_CHARS, s, m.keep) > m.keep
  {
    hide At, WordEnds, CharSet.Has, AnyOf, Word;
    if At(TOKEN, s, i).Hit? {
      TokenHit(KEYWORDS, TOKEN, s, i);
      TokenRun(KEYWORDS, TOKEN, s, i);
    }
    if g: nat :| WordEnds(KEYWORDS, s, i, g) && g < |s| && TOKEN_CHARS.Has(s[g]) {
      TokenIsHit(KEYWORDS, TOKEN, s, i, g);
    }
  }

  lemma TokenRun(words: seq<string>, rule: Rule, s: string, i: nat)
    requires words != [] && rule == Rule(Cat(AnyOf(words), One(Among("=:"))), OneOrMore(TOKEN_CHARS), REDACTED)
    requires i <= |s| && At(rule, s, i).Hit?
    ensures At(rule, s, i).end == RunEnd(TOKEN_CHARS, s, At(rule, s, i).keep)
  {
    hide AnyOf, CharSet.Has;
    HitMatches(rule, s, i);
    RunIsPreferred(TOKEN_CHARS, s, At(rule, s, i).keep);
  }

  /** One to three digits. */
  predicate Number(s: string, i: nat, e: nat) {
    i < e <= i + 3 && e <= |s| && forall k :: i <= k < e ==> IsDigit(s[k])
  }

  predicate NumberDot(s: string, i: nat, e: nat) {
    0 < e <= |s| && Number(s, i, e - 1) && s[e - 1] == '.'
  }

  /** Four numbers with dots between them. */
  ghost predicate IsQuad(s: string, i: nat, e: nat) {
    exists a: nat, b: nat, c: nat :: NumberDot(s, i, a) && NumberDot(s, a, b) && NumberDot(s, b, c) && Number(s, c, e)
  }

  lemma NumberExactly(s: string, i: nat, e: nat)
    requires i <= e <= |s|
    ensures Regex.Matches(NUMBER, s, i, e) <==> Number(s, i, e)
  {
  }

  lemma NumberDotExactly(s: string, i: nat, e: nat)
    requires i <= e <= |s|
    ensures Regex.Matches(NUMBER_DOT, s, i, e) <==> NumberDot(s, i, e)
  {
    hide Number;
    if Regex.Matches(NUMBER_DOT, s, i, e) {
      var m := CatParts(NUMBER_DOT, s, i, e);
      NumberExactly(s, i, m);
    }
    if NumberDot(s, i, e) {
      NumberIsNatural(s, i, e - 1);
      NumberExactly(s, i, e - 1);
      CatJoins(NUMBER_DOT, s, i, e - 1, e);
    }
  }

  lemma NumberIsNatural(s: string, i: nat, e: nat)
    requires Number(s, i, e)
    ensures i < e <= |s|
  {
  }

  /** An address match is four numbers of one to three digits, with no word character on either side. */
  lemma QuadExactly(s: string, i: nat, e: nat)
    requires i <= e <= |s|
    ensures Regex.Matches(QUAD, s, i, e) <==> IsQuad(s, i, e) && !WordAt(s, i - 1) && !WordAt(s, e)
  {
    if Regex.Matches(QUAD, s, i, e) {
      QuadMatches(s, i, e);
      MatchIsQuad(s, i, e);
    }
    if IsQuad(s, i, e) && !WordAt(s, i - 1) && !WordAt(s, e) {
      QuadIsMatch(s, i, e);
    }
  }

  lemma MatchIsQuad(s: string, i: nat, e: nat)
    requires i <= e <= |s| && Regex.Matches(QUAD, s, i, e)
    ensures IsQuad(s, i, e)
  {
    hide NumberDot, Number;
    var q1 := QUAD.second;
    var q2 := q1.second;
    var q3 := q2.second;
    var q4 := q3.second;
    var b := CatParts(QUAD, s, i, e);
    assert b == i;
    var m1 := CatParts(q1, s, b, e);
    NumberDotExactly(s, i, m1);
    var m2 := CatParts(q2, s, m1, e);
    NumberDotExactly(s, m1, m2);
    var m3 := CatParts(q3, s, m2, e);
    NumberDotExactly(s, m2, m3);
    var m4 := CatParts(q4, s, m3, e);
    assert m4 == e;
    NumberExactly(s, m3, e);
  }

  lemma QuadIsMatch(s: string, i: nat, e: nat)
    requires i <= e <= |s| && IsQuad(s, i, e) && !WordAt(s, i - 1) && !WordAt(s, e)
    ensures Regex.Matches(QUAD, s, i, e)
  {
    var a: nat, b: nat, c: nat :| NumberDot(s, i, a) && NumberDot(s, a, b) && NumberDot(s, b, c) && Number(s, c, e);
    var q1 := QUAD.second;
    var q2 := q1.second;
    var q3 := q2.second;
    var q4 := q3.second;
    assert WordAt(s, i) && WordAt(s, e - 1);
    assert i <= a <= b <= c <= e;
    NumberExactly(s, c, e);
    NumberDotExactly(s, b, c);
    NumberDotExactly(s, a, b);
    NumberDotExactly(s, i, a);
    assert Regex.Matches(WordBoundary, s, e, e) && Regex.Matches(WordBoundary, s, i, i);
    CatJoins(q4, s, c, e, e);
    CatJoins(q3, s, b, c, e);
    CatJoins(q2, s, a, b, e);
    CatJoins(q1, s, i, a, e);
    CatJoins(QUAD, s, i, i, e);
  }

  // ---- Characters -------------------------------------------------------------------------------

  /** Redaction brings in no characters but those of the four replacements. */
  lemma RedactKeeps(p: char -> bool, s: string)
    requires All(p, s)
    requires All(p, REDACTED_AT) && All(p, REDACTED_HOST) && All(p, REDACTED_IP)
    ensures All(p, Redact(s))
  {
    assert All(p, REDACTED) by {
      forall i | 0 <= i < |REDACTED| ensures p(REDACTED[i]) {
        assert REDACTED[i] == REDACTED_AT[i];
      }
    }
    var v1 := Replace(HOME, s);
    ReplaceKeeps(p, HOME, s);
    var v2 := Replace(CREDENTIALS, v1);
    ReplaceKeeps(p, CREDENTIALS, v1);
    var v3 := Replace(HOST, v2);
    ReplaceKeeps(p, HOST, v2);
    var v4 := Replace(PROXY, v3);
    ReplaceKeeps(p, PROXY, v3);
    var v5 := Replace(TOKEN, v4);
    ReplaceKeeps(p, TOKEN, v4);
    ReplaceKeeps(p, IPV4, v5);
  }
}
