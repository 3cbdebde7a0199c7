/**
 Redacted text, word by word: no literal, value or replacement has white space in it, so every form is a
 matter of single words.
 */
module RedactionWords {
  import opened Text
  import opened Regex
  import opened Redaction
  import opened RedactionForms

  // ---- A part between white space ---------------------------------------------------------------

  predicate Solid(s: string) {
    forall k :: 0 <= k < |s| ==> !IsSpace(s[k])
  }

  /** `t[i..j]` has white space or an end of the text on either side. */
  predicate Bounded(t: string, i: nat, j: nat) {
    && i <= j <= |t| && (i > 0 ==> IsSpace(t[i - 1])) && (j < |t| ==> IsSpace(t[j]))
  }

  lemma SliceOfSlice(s: string, i: nat, j: nat, a: nat, b: nat)
    requires i <= a <= b <= j <= |s|
    ensures s[i..j][a - i..b - i] == s[a..b]
  {
    var u := s[i..j];
    forall k | 0 <= k < b - a
      ensures u[a - i..b - i][k] == s[a..b][k]
    {
      assert u[a - i + k] == s[a + k];
    }
  }

  lemma SpellsIn(lit: string, fold: bool, t: string, i: nat, j: nat, p: nat)
    requires i <= p && p + |lit| <= j <= |t|
    ensures Spells(lit, fold, t[i..j], p - i) <==> Spells(lit, fold, t, p)
  {
    forall k | 0 <= k < |lit|
      ensures Folded(fold, t[i..j][p - i + k]) == lit[k] <==> Folded(fold, t[p + k]) == lit[k]
    {
    }
  }

  lemma SpelledIsSolid(lit: string, fold: bool, t: string, p: nat, x: nat)
    requires Spells(lit, fold, t, p) && Solid(lit) && p <= x < p + |lit|
    ensures !IsSpace(t[x])
  {
    assert Folded(fold, t[p + (x - p)]) == lit[x - p];
  }

  ghost predicate SpaceFree(k: CharSet) {
    forall c :: IsSpace(c) ==> !k.Has(c)
  }

  lemma StopsIn(k: CharSet, t: string, i: nat, j: nat, q: nat)
    requires Bounded(t, i, j) && i <= q <= j && SpaceFree(k)
    ensures Stops(k, t[i..j], q - i) <==> Stops(k, t, q)
  {
  }

  /** What has no white space in it does not reach across some. */
  lemma NotAcross(t: string, q: nat, r: nat, j: nat, fill: string)
    requires q <= j < r <= |t| && IsSpace(t[j]) && Solid(fill)
    ensures t[q..r] != fill
  {
    assert t[q..r][j - q] == t[j];
  }

  lemma DoneIn(k: CharSet, fill: string, t: string, i: nat, j: nat, q: nat)
    requires Bounded(t, i, j) && i <= q <= j && SpaceFree(k) && Solid(fill)
    ensures Done(k, fill, t[i..j], q - i) <==> Done(k, fill, t, q)
  {
    var m := |fill|;
    StopsIn(k, t, i, j, q);
    if q + m <= j {
      StopsIn(k, t, i, j, q + m);
      SliceOfSlice(t, i, j, q, q + m);
    } else if q + m <= |t| {
      NotAcross(t, q, q + m, j, fill);
    }
  }

  // ---- Each form splits at white space ----------------------------------------------------------

  lemma FormOfPart(lit: string, fold: bool, fill: string, t: string, i: nat, j: nat)
    requires Bounded(t, i, j) && Solid(fill) && lit != "" && Form(lit, fold, fill, t)
    ensures Form(lit, fold, fill, t[i..j])
  {
    forall p | 0 <= p < j - i && Spells(lit, fold, t[i..j], p)
      ensures Done(SLASH, fill, t[i..j], p + |lit|)
    {
      SpellsIn(lit, fold, t, i, j, i + p);
      DoneIn(SLASH, fill, t, i, j, i + p + |lit|);
    }
  }

  lemma FormInPart(lit: string, fold: bool, fill: string, t: string, i: nat, j: nat, p: nat)
    requires Bounded(t, i, j) && Solid(fill) && lit != "" && Form(lit, fold, fill, t[i..j])
    requires i <= p && p + |lit| <= j && Spells(lit, fold, t, p)
    ensures Done(SLASH, fill, t, p + |lit|)
  {
    SpellsIn(lit, fold, t, i, j, p);
    DoneIn(SLASH, fill, t, i, j, p + |lit|);
  }

  lemma FormSplits(lit: string, fold: bool, fill: string, t: string, n: nat)
    requires n < |t| && IsSpace(t[n]) && Solid(fill) && Solid(lit) && lit != ""
    ensures Form(lit, fold, fill, t) <==> Form(lit, fold, fill, t[0..n]) && Form(lit, fold, fill, t[n + 1..|t|])
  {
    if Form(lit, fold, fill, t) {
      FormOfPart(lit, fold, fill, t, 0, n);
      FormOfPart(lit, fold, fill, t, n + 1, |t|);
    }
    if Form(lit, fold, fill, t[0..n]) && Form(lit, fold, fill, t[n + 1..|t|]) {
      forall p | 0 <= p < |t| && Spells(lit, fold, t, p)
        ensures Done(SLASH, fill, t, p + |lit|)
      {
        if p <= n < p + |lit| { SpelledIsSolid(lit, fold, t, p, n); }
        if p > n {
          FormInPart(lit, fold, fill, t, n + 1, |t|, p);
        } else {
          FormInPart(lit, fold, fill, t, 0, n, p);
        }
      }
    }
  }

  /** A proxy setting has no white space up to where it is open. */
  lemma OpenIsSolid(t: string, p: nat, q: nat, x: nat)
    requires ProxyOpens(t, p, q) && p <= x < q
    ensures !IsSpace(t[x])
  {
    if x < p + 5 { SpelledIsSolid("proxy", true, t, p, x); }
  }

  lemma ProxyOpensIn(t: string, i: nat, j: nat, p: nat, q: nat)
    requires i <= p <= q <= j <= |t|
    ensures ProxyOpens(t[i..j], p - i, q - i) <==> ProxyOpens(t, p, q)
  {
    if p + 5 <= q {
      SpellsIn("proxy", true, t, i, j, p);
      assert forall k :: p + 5 <= k < q ==> t[i..j][k - i] == t[k];
      assert forall k :: p - i + 5 <= k < q - i ==> t[i..j][k] == t[k + i];
    }
  }

  lemma OpenIn(t: string, i: nat, j: nat, q: nat)
    requires Bounded(t, i, j) && i <= q <= j
    ensures Open(t[i..j], q - i) <==> Open(t, q)
  {
    if Open(t[i..j], q - i) {
      var p: nat :| ProxyOpens(t[i..j], p, q - i);
      ProxyOpensIn(t, i, j, p + i, q);
    }
    if Open(t, q) {
      var p: nat :| ProxyOpens(t, p, q);
      if p < i { OpenIsSolid(t, p, q, i - 1); }
      ProxyOpensIn(t, i, j, p, q);
    }
  }

  /** The proxy form at one `=`. */
  ghost predicate ProxyAt(t: string, q: nat) {
    q < |t| && t[q] == '=' && Open(t, q) ==> Done(Except(""), REDACTED, t, q + 1)
  }

  lemma ProxyAtIn(t: string, i: nat, j: nat, q: nat)
    requires Bounded(t, i, j) && i <= q < j && Solid(REDACTED)
    ensures ProxyAt(t[i..j], q - i) <==> ProxyAt(t, q)
  {
    OpenIn(t, i, j, q);
    DoneIn(Except(""), REDACTED, t, i, j, q + 1);
  }

  ghost predicate Proxies(t: string) {
    forall q: nat :: q < |t| ==> ProxyAt(t, q)
  }

  lemma ProxyFormIs(t: string)
    ensures ProxyForm(t) <==> Proxies(t)
  {
    if ProxyForm(t) {
      forall q: nat | q < |t| ensures ProxyAt(t, q) {}
    }
    if Proxies(t) {
      forall q | 0 <= q < |t| && t[q] == '=' && Open(t, q)
        ensures Done(Except(""), REDACTED, t, q + 1)
      {
        assert ProxyAt(t, q);
      }
    }
  }

  lemma ProxiesOfPart(t: string, i: nat, j: nat)
    requires Bounded(t, i, j) && Proxies(t)
    ensures Proxies(t[i..j])
  {
    forall q: nat | q < j - i
      ensures ProxyAt(t[i..j], q)
    {
      ProxyAtIn(t, i, j, i + q);
    }
  }

  lemma ProxyFormSplits(t: string, n: nat)
    requires n < |t| && IsSpace(t[n])
    ensures ProxyForm(t) <==> ProxyForm(t[0..n]) && ProxyForm(t[n + 1..|t|])
  {
    ProxyFormIs(t);
    ProxyFormIs(t[0..n]);
    ProxyFormIs(t[n + 1..|t|]);
    if Proxies(t) {
      ProxiesOfPart(t, 0, n);
      ProxiesOfPart(t, n + 1, |t|);
    }
    if Proxies(t[0..n]) && Proxies(t[n + 1..|t|]) {
      forall q: nat | q < |t|
        ensures ProxyAt(t, q)
      {
        if q < n { ProxyAtIn(t, 0, n, q); }
        if q > n { ProxyAtIn(t, n + 1, |t|, q); }
      }
    }
  }

  lemma WordEndsIn(words: seq<string>, t: string, i: nat, j: nat, p: nat, g: nat)
    requires i <= p <= g <= j <= |t|
    ensures WordEnds(words, t[i..j], p - i, g - i) <==> WordEnds(words, t, p, g)
  {
    forall w | 0 <= w < |words| && p + |words[w]| + 1 == g
      ensures Spells(words[w], true, t[i..j], p - i) <==> Spells(words[w], true, t, p)
      ensures t[i..j][g - i - 1] == t[g - 1]
    {
      SpellsIn(words[w], true, t, i, j, p);
    }
  }

  lemma WordIsSolid(words: seq<string>, t: string, p: nat, g: nat, x: nat)
    requires WordEnds(words, t, p, g) && p <= x < g
    requires forall w :: 0 <= w < |words| ==> Solid(words[w])
    ensures !IsSpace(t[x])
  {
    var w :| 0 <= w < |words| && Spells(words[w], true, t, p) && p + |words[w]| + 1 == g && t[g - 1] in "=:";
    if x < g - 1 { SpelledIsSolid(words[w], true, t, p, x); }
  }

  /** The token form at one keyword. */
  ghost predicate TokenAt(words: seq<string>, t: string, p: nat, g: nat) {
    WordEnds(words, t, p, g) ==> Stops(TOKEN_CHARS, t, g)
  }

  ghost predicate Tokens(words: seq<string>, t: string) {
    forall p: nat, g: nat :: TokenAt(words, t, p, g)
  }

  lemma TokenAtIn(words: seq<string>, t: string, i: nat, j: nat, p: nat, g: nat)
    requires Bounded(t, i, j) && i <= p <= g <= j
    ensures TokenAt(words, t[i..j], p - i, g - i) <==> TokenAt(words, t, p, g)
  {
    WordEndsIn(words, t, i, j, p, g);
    StopsIn(TOKEN_CHARS, t, i, j, g);
  }

  lemma TokensOfPart(words: seq<string>, t: string, i: nat, j: nat)
    requires Bounded(t, i, j) && Tokens(words, t)
    ensures Tokens(words, t[i..j])
  {
    forall p: nat, g: nat
      ensures TokenAt(words, t[i..j], p, g)
    {
      if p <= g <= j - i { TokenAtIn(words, t, i, j, i + p, i + g); }
    }
  }

  lemma TokensSplit(words: seq<string>, t: string, n: nat)
    requires n < |t| && IsSpace(t[n]) && forall w :: 0 <= w < |words| ==> Solid(words[w])
    ensures Tokens(words, t) <==> Tokens(words, t[0..n]) && Tokens(words, t[n + 1..|t|])
  {
    if Tokens(words, t) {
      TokensOfPart(words, t, 0, n);
      TokensOfPart(words, t, n + 1, |t|);
    }
    if Tokens(words, t[0..n]) && Tokens(words, t[n + 1..|t|]) {
      forall p: nat, g: nat
        ensures TokenAt(words, t, p, g)
      {
        if WordEnds(words, t, p, g) {
          if p <= n < g { WordIsSolid(words, t, p, g, n); }
          if p > n { TokenAtIn(words, t, n + 1, |t|, p, g); } else { TokenAtIn(words, t, 0, n, p, g); }
        }
      }
    }
  }

  lemma KeywordsAreSolid()
    ensures forall w :: 0 <= w < |KEYWORDS| ==> Solid(KEYWORDS[w])
  {
  }

  lemma TokenFormSplits(t: string, n: nat)
    requires n < |t| && IsSpace(t[n])
    ensures TokenForm(t) <==> TokenForm(t[0..n]) && TokenForm(t[n + 1..|t|])
  {
    KeywordsAreSolid();
    TokensSplit(KEYWORDS, t, n);
    TokenFormIs(t);
    TokenFormIs(t[0..n]);
    TokenFormIs(t[n + 1..|t|]);
  }

  lemma TokenFormIs(t: string)
    ensures TokenForm(t) <==> Tokens(KEYWORDS, t)
  {
    forall p: nat, g: nat
      ensures TokenAt(KEYWORDS, t, p, g) <==> (WordEnds(KEYWORDS, t, p, g) ==> Stops(TOKEN_CHARS, t, g))
    {
    }
  }

  /** White space and the end of a text are alike to a word boundary. */
  lemma NeighboursAlike(t: string, i: nat, j: nat, p: nat)
    requires Bounded(t, i, j) && i <= p <= j
    ensures WordAt(t[i..j], p - i - 1) == WordAt(t, p - 1) && WordAt(t[i..j], p - i) == WordAt(t, p)
  {
  }

  lemma LengthsAlike(t: string, i: nat, j: nat)
    requires Bounded(t, i, j)
    ensures i <= j <= |t| && |t[i..j]| == j - i
  {
  }

  lemma MatchesIn(r: Re, t: string, i: nat, j: nat, p: nat, x: nat)
    requires Bounded(t, i, j) && i <= p <= x <= j
    ensures Regex.Matches(r, t[i..j], p - i, x - i) <==> Regex.Matches(r, t, p, x)
  {
    hide Regex.Matches, Bounded, WordAt;
    LengthsAlike(t, i, j);
    SliceOfSlice(t, i, j, p, x);
    NeighboursAlike(t, i, j, p);
    NeighboursAlike(t, i, j, x);
    if Regex.Matches(r, t, p, x) { MatchesMoves(r, t, p, x, t[i..j], p - i); }
    if Regex.Matches(r, t[i..j], p - i, x - i) { MatchesMoves(r, t[i..j], p - i, x - i, t, p); }
  }

  lemma Ipv4FormOfPart(t: string, i: nat, j: nat)
    requires Bounded(t, i, j) && Ipv4Form(t)
    ensures Ipv4Form(t[i..j])
  {
    forall p: nat, x: nat | p <= x <= j - i
      ensures !Regex.Matches(QUAD, t[i..j], p, x)
    {
      MatchesIn(QUAD, t, i, j, i + p, i + x);
    }
  }

  lemma Ipv4FormSplits(t: string, n: nat)
    requires n < |t| && IsSpace(t[n])
    ensures Ipv4Form(t) <==> Ipv4Form(t[0..n]) && Ipv4Form(t[n + 1..|t|])
  {
    if Ipv4Form(t) {
      Ipv4FormOfPart(t, 0, n);
      Ipv4FormOfPart(t, n + 1, |t|);
    }
    forall p: nat, x: nat | p <= x <= |t| && Regex.Matches(QUAD, t, p, x)
      ensures !Ipv4Form(t[0..n]) || !Ipv4Form(t[n + 1..|t|])
    {
      QuadIsOnOneSide(t, n, p, x);
    }
  }

  lemma QuadIsOnOneSide(t: string, n: nat, p: nat, x: nat)
    requires n < |t| && IsSpace(t[n]) && p <= x <= |t| && Regex.Matches(QUAD, t, p, x)
    ensures if x <= n then Regex.Matches(QUAD, t[0..n], p, x)
            else n < p && Regex.Matches(QUAD, t[n + 1..|t|], p - (n + 1), x - (n + 1))
  {
    QuadMatches(t, p, x);
    if x <= n { MatchesIn(QUAD, t, 0, n, p, x); } else { MatchesIn(QUAD, t, n + 1, |t|, p, x); }
  }

  /** Redacted text is redacted on both sides of any white space, and the other way round. */
  lemma RedactedSplits(t: string, n: nat)
    requires n < |t| && IsSpace(t[n])
    ensures Redacted(t) <==> Redacted(t[0..n]) && Redacted(t[n + 1..|t|])
  {
    hide Form, ProxyForm, TokenForm, Ipv4Form;
    FormSplits("/home/", false, REDACTED, t, n);
    FormSplits("http://", true, REDACTED_HOST, t, n);
    FormSplits("https://", true, REDACTED_HOST, t, n);
    ProxyFormSplits(t, n);
    TokenFormSplits(t, n);
    Ipv4FormSplits(t, n);
  }

  // ---- Words ------------------------------------------------------------------------------------

  /** The first position of a separator, or the length. */
  function Break(sep: char -> bool, s: string): (n: nat)
    ensures n <= |s| && (forall k :: 0 <= k < n ==> !sep(s[k])) && (n < |s| ==> sep(s[n]))
  {
    if s == "" || sep(s[0]) then 0 else 1 + Break(sep, s[1..])
  }

  /** The texts between separators. */
  function Split(sep: char -> bool, s: string): seq<string>
    decreases |s|
  {
    var n := Break(sep, s);
    if n == |s| then [s] else [s[..n]] + Split(sep, s[n + 1..])
  }

  /** `s[i..j]` has no separator in it, and one or an end of the text on either side. */
  ghost predicate Run(sep: char -> bool, s: string, i: nat, j: nat) {
    && i <= j <= |s| && (i > 0 ==> sep(s[i - 1])) && (j < |s| ==> sep(s[j]))
    && forall k :: i <= k < j ==> !sep(s[k])
  }

  lemma {:induction false} PieceIsRun(sep: char -> bool, s: string, piece: string) returns (i: nat, j: nat)
    requires piece in Split(sep, s)
    ensures Run(sep, s, i, j) && s[i..j] == piece
    decreases |s|
  {
    hide Run, Break;
    var n := Break(sep, s);
    if piece == s[..n] {
      i, j := 0, n;
      FirstRun(sep, s);
    } else {
      var a, b := PieceIsRun(sep, s[n + 1..], piece);
      i, j := a + (n + 1), b + (n + 1);
      RunMoves(sep, s, n, a, b);
    }
  }

  lemma FirstRun(sep: char -> bool, s: string)
    ensures Run(sep, s, 0, Break(sep, s)) && s[0..Break(sep, s)] == s[..Break(sep, s)]
  {
  }

  lemma {:induction false} RunIsPiece(sep: char -> bool, s: string, i: nat, j: nat)
    requires Run(sep, s, i, j)
    ensures s[i..j] in Split(sep, s)
    decreases |s|
  {
    var n := Break(sep, s);
    if i <= n {
      assert i == 0 && j == n && s[i..j] == s[..n];
      assert s == s[..n] || Split(sep, s)[0] == s[..n];
    } else {
      var a: nat, b: nat := i - (n + 1), j - (n + 1);
      RunMoves(sep, s, n, a, b);
      RunIsPiece(sep, s[n + 1..], a, b);
    }
  }

  lemma RunMoves(sep: char -> bool, s: string, n: nat, a: nat, b: nat)
    requires n < |s| && sep(s[n])
    ensures Run(sep, s[n + 1..], a, b) <==> Run(sep, s, a + (n + 1), b + (n + 1))
    ensures Run(sep, s[n + 1..], a, b) ==>
              a <= b <= |s| - (n + 1) && s[n + 1..][a..b] == s[a + (n + 1)..b + (n + 1)]
  {
    var rest, i, j := s[n + 1..], a + (n + 1), b + (n + 1);
    forall k | a <= k < b && b <= |rest| ensures rest[k] == s[k + n + 1] {}
    if Run(sep, s, i, j) {
      forall k | a <= k < b ensures !sep(rest[k]) { assert !sep(s[k + n + 1]); }
    }
  }

  /** What splitting finds is every run, and nothing else. */
  lemma PiecesAreRuns(sep: char -> bool, s: string, piece: string)
    ensures piece in Split(sep, s) <==> exists i: nat, j: nat :: Run(sep, s, i, j) && s[i..j] == piece
  {
    hide Split;
    if piece in Split(sep, s) {
      var i, j := PieceIsRun(sep, s, piece);
    }
    if i: nat, j: nat :| Run(sep, s, i, j) && s[i..j] == piece {
      RunIsPiece(sep, s, i, j);
    }
  }

  ghost predicate Separates(sep: char -> bool) {
    forall c :: sep(c) ==> IsSpace(c)
  }

  /** Text is redacted exactly if all that is between separators is, whatever white space separates. */
  lemma {:induction false} RedactedPiecewise(sep: char -> bool, s: string)
    requires Separates(sep)
    ensures Redacted(s) <==> forall piece :: piece in Split(sep, s) ==> Redacted(piece)
    decreases |s|
  {
    hide Redacted;
    var n := Break(sep, s);
    if n < |s| {
      RedactedSplits(s, n);
      assert s[0..n] == s[..n] && s[n + 1..|s|] == s[n + 1..];
      RedactedPiecewise(sep, s[n + 1..]);
    }
  }

  /** Text is redacted exactly if every word of it is. */
  lemma RedactedWordByWord(s: string)
    ensures Redacted(s) <==> forall word :: word in Split(IsSpace, s) ==> Redacted(word)
  {
    RedactedPiecewise(IsSpace, s);
  }
}
