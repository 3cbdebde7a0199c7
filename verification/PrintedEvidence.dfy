/**
 Evidence as it is printed: redacted, and then without its carriage returns. Whether it is still in redacted
 form shows in the words that dropping them joins.
 */
module PrintedEvidence {
  import opened Json
  import opened JsonReports
  import opened RedactedWords
  import opened Redaction
  import opened RedactionForms
  import opened RedactionWords
  import opened Regex
  import opened Rewrite
  import opened Text

  // ---- Dropping carriage returns ----------------------------------------------------------------

  predicate OtherSpace(c: char) {
    IsSpace(c) && c != '\r'
  }

  lemma {:induction false} StripAppends(a: string, b: string)
    ensures Strip(a + b) == Strip(a) + Strip(b)
  {
    hide Strip;
    StripFirst(a);
    if a == "" {
      assert a + b == b && "" + Strip(b) == Strip(b);
    } else {
      StripAppends(a[1..], b);
      StripFirst(a + b);
      assert (a + b)[1..] == a[1..] + b;
      Regroup(Left(a[0]), Strip(a[1..]), Strip(b));
    }
  }

  /** What is left of a single character. */
  function Left(c: char): string {
    if c == '\r' then "" else [c]
  }

  lemma StripFirst(s: string)
    ensures Strip(s) == if s == "" then "" else Left(s[0]) + Strip(s[1..])
  {
  }

  lemma Regroup(a: string, b: string, c: string)
    ensures a + (b + c) == a + b + c
  {
  }

  lemma {:induction false} StripLeaves(s: string, c: char)
    ensures c in Strip(s) <==> c in s && c != '\r'
  {
    if s != "" { StripLeaves(s[1..], c); }
  }

  lemma {:induction false} StripKeeps(s: string)
    requires '\r' !in s
    ensures Strip(s) == s
  {
    if s != "" { StripKeeps(s[1..]); }
  }

  function StripAll(texts: seq<string>): seq<string> {
    seq(|texts|, k requires 0 <= k < |texts| => Strip(texts[k]))
  }

  lemma {:induction false} BreakIs(sep: char -> bool, s: string, n: nat)
    requires n <= |s| && (forall k :: 0 <= k < n ==> !sep(s[k])) && (n < |s| ==> sep(s[n]))
    ensures Break(sep, s) == n
  {
  }

  lemma StrippedHasNoSpace(s: string)
    requires forall k :: 0 <= k < |s| ==> !OtherSpace(s[k])
    ensures Solid(Strip(s))
  {
    forall k | 0 <= k < |Strip(s)|
      ensures !IsSpace(Strip(s)[k])
    {
      StripLeaves(s, Strip(s)[k]);
    }
  }

  /** The words of what is left are the stripped texts between other white space. */
  lemma {:induction false} StripSplits(s: string)
    ensures Split(IsSpace, Strip(s)) == StripAll(Split(OtherSpace, s))
    decreases |s|
  {
    hide Strip, StripAll;
    var n := Break(OtherSpace, s);
    StrippedHasNoSpace(s[..n]);
    if n == |s| {
      assert s[..n] == s;
      BreakIs(IsSpace, Strip(s), |Strip(s)|);
      StripsOne(s);
    } else {
      StripSplits(s[n + 1..]);
      StripOfSplit(s, n);
      SplitFirst(IsSpace, Strip(s[..n]), s[n], Strip(s[n + 1..]));
      StripsMore(s[..n], Split(OtherSpace, s[n + 1..]));
    }
  }

  lemma StripsOne(s: string)
    ensures StripAll([s]) == [Strip(s)]
  {
  }

  lemma StripsMore(s: string, texts: seq<string>)
    ensures StripAll([s] + texts) == [Strip(s)] + StripAll(texts)
  {
  }

  lemma StripOfSplit(s: string, n: nat)
    requires n < |s| && s[n] != '\r'
    ensures Strip(s) == Strip(s[..n]) + ([s[n]] + Strip(s[n + 1..]))
  {
    hide Strip;
    StripAppends(s[..n], [s[n]] + s[n + 1..]);
    StripAppends([s[n]], s[n + 1..]);
    assert s == s[..n] + ([s[n]] + s[n + 1..]);
    StripKeeps([s[n]]);
  }

  lemma SplitFirst(sep: char -> bool, word: string, c: char, rest: string)
    requires sep(c) && forall k :: 0 <= k < |word| ==> !sep(word[k])
    ensures Split(sep, word + ([c] + rest)) == [word] + Split(sep, rest)
  {
    hide Break;
    var s := word + ([c] + rest);
    BreakIs(sep, s, |word|);
    assert s[..|word|] == word && s[|word| + 1..] == rest;
  }

  /**
   Printed evidence is redacted exactly if every text that dropping carriage returns makes one word of is
   redacted as that word.
   */
  lemma RedactedExactly(text: string)
    ensures var s := Redact(text);
            Redacted(Strip(s)) <==>
              forall piece :: piece in Split(OtherSpace, s) && '\r' in piece ==> Redacted(Strip(piece))
  {
    RedactIsRedacted(text);
    StrippedExactly(Redact(text));
  }

  lemma StrippedExactly(s: string)
    requires Redacted(s)
    ensures Redacted(Strip(s)) <==>
              forall piece :: piece in Split(OtherSpace, s) && '\r' in piece ==> Redacted(Strip(piece))
  {
    hide Redacted;
    var pieces := Split(OtherSpace, s);
    RedactedPiecewise(OtherSpace, s);
    RedactedPiecewise(IsSpace, Strip(s));
    StripSplits(s);
    assert forall piece :: piece in pieces ==> Strip(piece) in StripAll(pieces) by {
      forall piece | piece in pieces
        ensures Strip(piece) in StripAll(pieces)
      {
        var k :| 0 <= k < |pieces| && pieces[k] == piece;
        assert StripAll(pieces)[k] == Strip(piece);
      }
    }
    forall piece | piece in pieces && '\r' !in piece
      ensures Redacted(Strip(piece))
    {
      StripKeeps(piece);
    }
  }

  /** No carriage return stands alone between two words. */
  ghost predicate JoinsNothing(s: string) {
    forall i, k, j :: 0 <= i < k < j < |s| && s[k] == '\r' && !IsSpace(s[i]) && !IsSpace(s[j]) ==>
      exists m :: i < m < j && OtherSpace(s[m])
  }

  /** Nothing is joined: carriage returns are in front of a word or behind it. */
  lemma {:induction false} StrippedPiece(piece: string)
    requires Redacted(piece) && forall k :: 0 <= k < |piece| ==> !OtherSpace(piece[k])
    requires forall i, k, j :: 0 <= i < k < j < |piece| && piece[k] == '\r' ==> piece[i] == '\r' || piece[j] == '\r'
    ensures Redacted(Strip(piece))
    decreases |piece|
  {
    hide Redacted;
    var n := |piece| - 1;
    if piece == "" {
    } else if piece[0] == '\r' {
      RedactedSplits(piece, 0);
      assert piece[1..|piece|] == piece[1..];
      assert Strip(piece) == Strip(piece[1..]);
      StrippedPiece(piece[1..]);
    } else if piece[n] == '\r' {
      RedactedSplits(piece, n);
      assert piece == piece[0..n] + ['\r'];
      StripAppends(piece[0..n], ['\r']);
      assert Strip(['\r']) == "" && Strip(piece) == Strip(piece[0..n]);
      StrippedPiece(piece[0..n]);
    } else {
      StripKeeps(piece);
    }
  }

  lemma JoinlessPiece(s: string, piece: string)
    requires JoinsNothing(s) && piece in Split(OtherSpace, s)
    ensures forall k :: 0 <= k < |piece| ==> !OtherSpace(piece[k])
    ensures forall i, k, j :: 0 <= i < k < j < |piece| && piece[k] == '\r' ==> piece[i] == '\r' || piece[j] == '\r'
  {
    hide JoinsNothing, Split;
    var a, b := PieceIsRun(OtherSpace, s, piece);
    assert |piece| == b - a && forall k :: 0 <= k < |piece| ==> piece[k] == s[a + k];
    forall k | 0 <= k < |piece|
      ensures !OtherSpace(piece[k])
    {
      assert !OtherSpace(s[a + k]);
    }
    forall i, k, j | 0 <= i < k < j < |piece| && piece[k] == '\r'
      ensures piece[i] == '\r' || piece[j] == '\r'
    {
      NotJoined(s, a + i, a + k, a + j);
      assert !OtherSpace(piece[i]) && !OtherSpace(piece[j]);
    }
  }

  lemma NotJoined(s: string, i: nat, k: nat, j: nat)
    requires JoinsNothing(s) && i < k < j < |s| && s[k] == '\r' && forall m :: i < m < j ==> !OtherSpace(s[m])
    ensures IsSpace(s[i]) || IsSpace(s[j])
  {
  }

  lemma JoinlessIsShownRedacted(s: string)
    requires Redacted(s) && JoinsNothing(s)
    ensures Redacted(Strip(s))
  {
    hide Redacted, JoinsNothing;
    StrippedExactly(s);
    RedactedPiecewise(OtherSpace, s);
    forall piece | piece in Split(OtherSpace, s)
      ensures Redacted(Strip(piece))
    {
      JoinlessPiece(s, piece);
      StrippedPiece(piece);
    }
  }

  // ---- Which carriage returns do no harm --------------------------------------------------------

  /** Every carriage return is at an end or beside other white space, as at the end of a line. */
  predicate ReturnsAside(s: string) {
    forall k :: 0 <= k < |s| && s[k] == '\r' ==>
      k == 0 || k + 1 == |s| || OtherSpace(s[k - 1]) || OtherSpace(s[k + 1])
  }

  lemma AsideJoinsNothing(s: string)
    requires ReturnsAside(s)
    ensures JoinsNothing(s)
  {
    forall i, k, j | 0 <= i < k < j < |s| && s[k] == '\r' && !IsSpace(s[i]) && !IsSpace(s[j])
      ensures exists m :: i < m < j && OtherSpace(s[m])
    {
      var m := if OtherSpace(s[k - 1]) then k - 1 else k + 1;
      assert i < m < j && OtherSpace(s[m]);
    }
  }

  /** What a rule deletes is there and has no white space, and what it puts there is no carriage return. */
  ghost predicate CutsSolid(e: Edit)
    requires e.Fits()
  {
    && '\r' !in e.fill
    && forall h :: 0 <= h < |e.text| && e.hits[h].Hit? ==> CutIsSolid(e.text, e.hits[h])
  }

  predicate CutIsSolid(s: string, m: Match)
    requires m.Hit?
  {
    m.keep < m.end <= |s| && forall j :: m.keep <= j < m.end ==> !IsSpace(s[j])
  }

  /** In front of a copied character there is the copy of its neighbour, or that was deleted. */
  lemma CopyBefore(e: Edit, p: nat, o: nat)
    requires e.Fits() && CutsSolid(e) && 0 < p <= |e.Result()| && e.Copies(p, o)
    ensures 0 < o <= |e.text| && (e.Copies(p - 1, o - 1) || !IsSpace(e.text[o - 1]))
  {
    e.Step(p - 1);
    e.Step(p);
    var a := e.Source(p - 1);
    if a.Filled? { assert CutIsSolid(e.text, e.hits[a.h]); }
  }

  lemma CopyBehind(e: Edit, p: nat, o: nat)
    requires e.Fits() && CutsSolid(e) && p < |e.Result()| && e.Copies(p, o)
    ensures o < |e.text|
    ensures o + 1 == |e.text| ==> p + 1 == |e.Result()|
    ensures o + 1 < |e.text| && IsSpace(e.text[o + 1]) ==> p + 1 < |e.Result()| && e.Result()[p + 1] == e.text[o + 1]
  {
    e.CopyThenCopyOrCut(p, o);
    e.Step(p + 1);
    if !e.Copies(p + 1, o + 1) { assert CutIsSolid(e.text, e.hits[e.Source(p + 1).h]); }
  }

  lemma AsideIsKept(e: Edit)
    requires e.Fits() && CutsSolid(e) && ReturnsAside(e.text)
    ensures ReturnsAside(e.Result())
  {
    var t := e.Result();
    forall p | 0 <= p < |t| && t[p] == '\r'
      ensures p == 0 || p + 1 == |t| || OtherSpace(t[p - 1]) || OtherSpace(t[p + 1])
    {
      ReturnIsAside(e, p);
    }
  }

  lemma ReturnIsAside(e: Edit, p: nat)
    requires e.Fits() && CutsSolid(e) && ReturnsAside(e.text) && p < |e.Result()| && e.Result()[p] == '\r'
    ensures var t := e.Result(); p == 0 || p + 1 == |t| || OtherSpace(t[p - 1]) || OtherSpace(t[p + 1])
  {
    e.Step(p);
    assert !e.Source(p).Filled?;
    var o := e.Source(p).o;
    CopyBehind(e, p, o);
    if p > 0 {
      CopyBefore(e, p, o);
      if e.Copies(p - 1, o - 1) { e.Step(p - 1); }
    }
  }

  lemma CutsAreSolid(rule: Rule, s: string)
    requires rule.fill != "" && '\r' !in rule.fill
    requires forall h: nat :: h < |s| && At(rule, s, h).Hit? ==> CutIsSolid(s, At(rule, s, h))
    ensures CutsSolid(Edits(rule, s))
  {
    hide At, CutIsSolid;
  }

  lemma HomeCutsSolid(s: string)
    ensures CutsSolid(Edits(HOME, s))
  {
    hide At;
    forall h | 0 <= h < |s| && At(HOME, s, h).Hit?
      ensures CutIsSolid(s, At(HOME, s, h))
    {
      HomeHits(s, h);
    }
  }

  lemma CredentialsCutsSolid(s: string)
    ensures CutsSolid(Edits(CREDENTIALS, s))
  {
    hide At, SchemeLength;
    forall h | 0 <= h < |s| && At(CREDENTIALS, s, h).Hit?
      ensures CutIsSolid(s, At(CREDENTIALS, s, h))
    {
      CredentialsHit(s, h);
    }
  }

  lemma RunIsSolid(s: string, i: nat)
    requires i < |s| && SLASH.Has(s[i])
    ensures CutIsSolid(s, Hit(i, RunEnd(SLASH, s, i)))
  {
  }

  lemma HostCutIsSolid(s: string, h: nat)
    requires h < |s| && At(HOST, s, h).Hit?
    ensures CutIsSolid(s, At(HOST, s, h))
  {
    hide *;
    HostHits(s, h);
    RunIsSolid(s, h + SchemeLength(s, h));
  }

  lemma HostCutsSolid(s: string)
    ensures CutsSolid(Edits(HOST, s))
  {
    hide *;
    forall h: nat | h < |s| && At(HOST, s, h).Hit? { HostCutIsSolid(s, h); }
    HostFills();
    CutsAreSolid(HOST, s);
  }

  lemma HostFills()
    ensures HOST.fill != "" && '\r' !in HOST.fill
  {
    hide SCHEME;
  }

  lemma ProxyCutsSolid(s: string)
    ensures CutsSolid(Edits(PROXY, s))
  {
    hide At;
    forall h | 0 <= h < |s| && At(PROXY, s, h).Hit?
      ensures CutIsSolid(s, At(PROXY, s, h))
    {
      ProxyHit(s, h);
    }
  }

  lemma TokenCharsAreSolid(s: string, m: Match)
    requires m.Hit? && m.keep < m.end <= |s| && forall j :: m.keep <= j < m.end ==> TOKEN_CHARS.Has(s[j])
    ensures CutIsSolid(s, m)
  {
  }

  lemma TokenCutIsSolid(s: string, h: nat)
    requires h < |s| && At(TOKEN, s, h).Hit?
    ensures CutIsSolid(s, At(TOKEN, s, h))
  {
    hide At, WordEnds, CutIsSolid, CharSet.Has;
    TokenHit(KEYWORDS, TOKEN, s, h);
    TokenCharsAreSolid(s, At(TOKEN, s, h));
  }

  lemma TokenCutsSolid(s: string)
    ensures CutsSolid(Edits(TOKEN, s))
  {
    hide At, CutIsSolid, CutsSolid, AnyOf, Word;
    forall h: nat | h < |s| && At(TOKEN, s, h).Hit? { TokenCutIsSolid(s, h); }
    CutsAreSolid(TOKEN, s);
  }

  lemma Ipv4CutsSolid(s: string)
    ensures CutsSolid(Edits(IPV4, s))
  {
    forall h | 0 <= h < |s| && At(IPV4, s, h).Hit?
      ensures CutIsSolid(s, At(IPV4, s, h))
    {
      QuadHit(s, h);
      QuadMatches(s, h, At(IPV4, s, h).end);
    }
  }

  /** Redaction does not separate a carriage return from the white space beside it. */
  lemma RedactKeepsAside(text: string)
    requires ReturnsAside(text)
    ensures ReturnsAside(Redact(text))
  {
    hide ReturnsAside, CutsSolid;
    var v1 := Replace(HOME, text);
    var v2 := Replace(CREDENTIALS, v1);
    var v3 := Replace(HOST, v2);
    var v4 := Replace(PROXY, v3);
    var v5 := Replace(TOKEN, v4);
    HomeCutsSolid(text);
    AsideIsKept(Edits(HOME, text));
    CredentialsCutsSolid(v1);
    AsideIsKept(Edits(CREDENTIALS, v1));
    HostCutsSolid(v2);
    AsideIsKept(Edits(HOST, v2));
    ProxyCutsSolid(v3);
    AsideIsKept(Edits(PROXY, v3));
    TokenCutsSolid(v4);
    AsideIsKept(Edits(TOKEN, v4));
    Ipv4CutsSolid(v5);
    AsideIsKept(Edits(IPV4, v5));
  }

  /** So evidence with such carriage returns only, lines that end in CR LF among it, is shown redacted. */
  lemma ReturnsAsideDoNoHarm(text: string)
    requires ReturnsAside(text)
    ensures Redacted(Strip(Redact(text)))
  {
    hide Redacted;
    RedactKeepsAside(text);
    RedactIsRedacted(text);
    AsideJoinsNothing(Redact(text));
    JoinlessIsShownRedacted(Redact(text));
  }

  // ---- Evidence without carriage returns, and with one that does harm ---------------------------

  /** Evidence without carriage returns is printed as it was redacted. */
  lemma WithoutReturns(text: string)
    requires '\r' !in text
    ensures Strip(Redact(text)) == Redact(text) && Redacted(Strip(Redact(text)))
  {
    RedactBringsNoReturn(text);
    RedactIsRedacted(text);
    StripKeeps(Redact(text));
  }

  lemma RedactBringsNoReturn(text: string)
    requires '\r' !in text
    ensures '\r' !in Redact(text)
  {
    hide Redact;
    var p := (c: char) => c != '\r';
    RedactKeeps(p, text);
    NoReturn(p, Redact(text));
  }

  lemma NoReturn(p: char -> bool, text: string)
    requires All(p, text) && !p('\r')
    ensures '\r' !in text
  {
  }

  /** Every home directory whose name has a carriage return in front of it is printed unredacted. */
  lemma CarriageReturnUndoesRedaction(home: string, name: string)
    requires home == "/home/" && name != "" && forall i :: 0 <= i < |name| ==> IsLetter(name[i])
    ensures Strip(Redact(home + (['\r'] + name))) == home + name
    ensures !Redacted(home + name)
  {
    SplitHomeIsRedacted(home, name);
    StripJoins(home, name);
    FixedIsShown(home + (['\r'] + name));
    HomeIsNotRedacted(home, name);
  }

  lemma FixedIsShown(text: string)
    requires Redacted(text)
    ensures Strip(Redact(text)) == Strip(text)
  {
    RedactedIsFixed(text);
  }

  lemma StripJoins(a: string, b: string)
    requires '\r' !in a && '\r' !in b
    ensures Strip(a + (['\r'] + b)) == a + b
  {
    hide Strip;
    StripAppends(a, ['\r'] + b);
    StripFirst(['\r'] + b);
    assert (['\r'] + b)[1..] == b && "" + Strip(b) == Strip(b);
    StripKeeps(a);
    StripKeeps(b);
  }

  lemma SplitHomeIsRedacted(home: string, name: string)
    requires home == "/home/" && forall i :: 0 <= i < |name| ==> IsLetter(name[i])
    ensures Redacted(home + (['\r'] + name))
  {
    var text := home + (['\r'] + name);
    assert forall i :: 0 <= i < |home| ==> IsLetter(home[i]) || home[i] == '/';
    assert forall i :: 0 <= i < |text| ==> IsLetter(text[i]) || text[i] == '/' || text[i] == '\r';
    forall p: nat | Spells(home, false, text, p)
      ensures p == 0
    {
      if p > 0 { SlashesOfHome(home, name, p); }
    }
    NothingToRedact(text);
  }

  lemma HomeIsNotRedacted(home: string, name: string)
    requires home == "/home/" && name != "" && forall i :: 0 <= i < |name| ==> IsLetter(name[i])
    ensures !Redacted(home + name)
  {
    var text := home + name;
    assert Spells(home, false, text, 0);
    assert !Done(SLASH, REDACTED, text, 6) by {
      assert text[6] == name[0];
      if 6 + |REDACTED| <= |text| { assert text[6..6 + |REDACTED|][0] == name[0] != '['; }
    }
  }

  lemma SlashesOfHome(home: string, name: string, p: nat)
    requires home == "/home/" && forall i :: 0 <= i < |name| ==> IsLetter(name[i])
    requires 0 < p
    ensures !Spells(home, false, home + (['\r'] + name), p)
  {
    var text := home + (['\r'] + name);
    if p + |home| <= |text| {
      assert text[p + 5] == (['\r'] + name)[p - 1] != '/';
      assert Folded(false, text[p + 5]) != home[5];
    }
  }
}
