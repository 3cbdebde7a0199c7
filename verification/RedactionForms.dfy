/**
 The normal form of redacted text: one form per kind of sensitive value. Each pass establishes its
 own form and keeps the forms of the passes before it, so the final text has all of them at once, and
 text in normal form is exactly the text that redaction leaves alone.
 */
module RedactionForms {
  import opened Text
  import opened Regex
  import opened Rewrite
  import opened Redaction

  // ---- The forms --------------------------------------------------------------------------------

  /** Nothing of class `k` stands at `q`. */
  predicate Stops(k: CharSet, t: string, q: nat) {
    q >= |t| || !k.Has(t[q])
  }

  /** At `q` there is no value of class `k`, or the value is exactly `fill`. */
  predicate Done(k: CharSet, fill: string, t: string, q: nat) {
    Stops(k, t, q) || (q + |fill| <= |t| && t[q..q + |fill|] == fill && Stops(k, t, q + |fill|))
  }

  /** After every `lit` the path component is missing or is `fill`. */
  ghost predicate Form(lit: string, fold: bool, fill: string, t: string) {
    forall p :: 0 <= p < |t| && Spells(lit, fold, t, p) ==> Done(SLASH, fill, t, p + |lit|)
  }

  ghost predicate HomeForm(t: string) {
    Form("/home/", false, REDACTED, t)
  }

  ghost predicate HostForm(t: string) {
    Form("http://", true, REDACTED_HOST, t) && Form("https://", true, REDACTED_HOST, t)
  }

  /** `t[q]` is inside `proxy[^=\s]*`. */
  ghost predicate Open(t: string, q: nat) {
    exists p: nat :: ProxyOpens(t, p, q)
  }

  ghost predicate ProxyForm(t: string) {
    forall q :: 0 <= q < |t| && t[q] == '=' && Open(t, q) ==> Done(Except(""), REDACTED, t, q + 1)
  }

  ghost predicate TokenForm(t: string) {
    forall p: nat, g: nat :: WordEnds(KEYWORDS, t, p, g) ==> Stops(TOKEN_CHARS, t, g)
  }

  ghost predicate Ipv4Form(t: string) {
    forall p: nat, x: nat :: p <= x <= |t| ==> !Regex.Matches(QUAD, t, p, x)
  }

  ghost predicate Redacted(t: string) {
    HomeForm(t) && HostForm(t) && ProxyForm(t) && TokenForm(t) && Ipv4Form(t)
  }

  // ---- Literals are copied ----------------------------------------------------------------------

  /** `lit` cannot start inside `fill`, and the first character of `fill` is not in `lit`. */
  ghost predicate Foreign(lit: string, fold: bool, fill: string) {
    && |lit| > 1 && |fill| > 1
    && (forall k :: 0 <= k < |lit| ==> lit[k] != Folded(fold, fill[0]))
    && (forall k :: 0 <= k < |fill| && Folded(fold, fill[k]) == lit[0] ==>
          k + 1 < |fill| && Folded(fold, fill[k + 1]) != lit[1])
  }

  /** `Result()[p..p + n]` is a copy of `text[o..o + n]`, position by position. */
  ghost predicate CopiesAll(e: Edit, p: nat, o: nat, n: nat)
    requires e.Fits() && p + n <= |e.Result()|
  {
    forall x: nat, y: nat :: p <= x < p + n && y == o + x - p ==> e.Copies(x, y)
  }

  /** Text without the first character of the replacement, once it is copied, is copied throughout. */
  lemma {:induction false} CopyGoesOn(e: Edit, p: nat, o: nat, n: nat)
    requires e.Fits() && 0 < n && p + n <= |e.Result()| && e.Copies(p, o)
    requires forall j :: p < j < p + n ==> e.Result()[j] != e.fill[0]
    ensures o + n <= |e.text| && e.Result()[p..p + n] == e.text[o..o + n]
    ensures CopiesAll(e, p, o, n)
    decreases n
  {
    e.CopyThenCopyOrCut(p, o);
    if n > 1 {
      CopyGoesOn(e, p + 1, o + 1, n - 1);
      FirstOfSlice(e.Result(), p, n);
      FirstOfSlice(e.text, o, n);
    }
  }

  lemma FirstOfSlice(s: string, i: nat, n: nat)
    requires 0 < n && i + n <= |s|
    ensures s[i..i + n] == [s[i]] + s[i + 1..i + 1 + (n - 1)]
  {
  }

  lemma SpelledIsCopied(e: Edit, lit: string, fold: bool, p: nat) returns (o: nat)
    requires e.Fits() && Foreign(lit, fold, e.fill) && Spells(lit, fold, e.Result(), p)
    ensures o + |lit| <= |e.text| && Spells(lit, fold, e.text, o)
    ensures CopiesAll(e, p, o, |lit|)
  {
    var t := e.Result();
    e.Step(p);
    assert Folded(fold, t[p + 0]) == lit[0] && Folded(fold, t[p + 1]) == lit[1];
    if e.Source(p).Filled? {
      e.Step(p + 1);
      assert false;
    }
    o := e.Source(p).o;
    forall j | p < j < p + |lit|
      ensures t[j] != e.fill[0]
    {
      assert Folded(fold, t[p + (j - p)]) == lit[j - p];
    }
    CopyGoesOn(e, p, o, |lit|);
    forall k | 0 <= k < |lit|
      ensures Folded(fold, e.text[o + k]) == lit[k]
    {
      assert t[p + k] == t[p..p + |lit|][k] == e.text[o..o + |lit|][k] == e.text[o + k];
      assert Folded(fold, t[p + k]) == lit[k];
    }
  }

  // ---- Home directories and hosts ---------------------------------------------------------------

  /** What a rule that establishes the form of its own literal has to be like. */
  ghost predicate Makes(e: Edit, lit: string, fold: bool)
    requires e.Fits()
  {
    && Foreign(lit, fold, e.fill)
    && (forall o :: 0 <= o < |e.text| && Spells(lit, fold, e.text, o) && !Stops(SLASH, e.text, o + |lit|) ==>
          e.hits[o].Hit?)
    && (forall h :: 0 <= h < |e.text| && e.hits[h].Hit? ==> Stops(SLASH, e.text, e.hits[h].end))
    && (forall h :: 0 <= h < |e.text| && e.hits[h].Hit? ==> !Stops(SLASH, e.text, e.hits[h].keep))
    && (forall h, o :: 0 <= h <= o < |e.text| && e.hits[h].Hit? && Spells(lit, fold, e.text, o) ==>
          e.hits[h].keep <= o + |lit|)
  }

  lemma FormIsMade(e: Edit, lit: string, fold: bool)
    requires e.Fits() && Makes(e, lit, fold)
    ensures Form(lit, fold, e.fill, e.Result())
  {
    forall p | 0 <= p < |e.Result()| && Spells(lit, fold, e.Result(), p)
      ensures Done(SLASH, e.fill, e.Result(), p + |lit|)
    {
      var o := SpelledIsCopied(e, lit, fold, p);
      assert e.Copies(p + |lit| - 1, o + |lit| - 1);
      e.CopyThenCopyOrCut(p + |lit| - 1, o + |lit| - 1);
      if e.Copies(p + |lit|, o + |lit|) {
        ValueIsMissing(e, lit, fold, p, o);
      } else {
        assert ReplacesRuns(e, SLASH);
        ValueIsFilled(e, SLASH, p + |lit|);
      }
    }
  }

  lemma ValueIsMissing(e: Edit, lit: string, fold: bool, p: nat, o: nat)
    requires e.Fits() && Makes(e, lit, fold)
    requires Spells(lit, fold, e.text, o) && p + |lit| <= |e.Result()| && CopiesAll(e, p, o, |lit|)
    requires e.Copies(p + |lit|, o + |lit|)
    ensures Stops(SLASH, e.Result(), p + |lit|)
  {
    e.Step(p + |lit|);
    if !Stops(SLASH, e.text, o + |lit|) {
      e.Step(p);
      assert e.Copies(p, o);
      e.KeptRuns(p, o, e.Source(p).h);
    }
  }

  /** A match ends where a run of `k` does, and keeps something if none starts where it starts. */
  ghost predicate ReplacesRuns(e: Edit, k: CharSet)
    requires e.Fits()
  {
    forall h :: 0 <= h < |e.text| && e.hits[h].Hit? ==>
      Stops(k, e.text, e.hits[h].end) && (Stops(k, e.text, h) ==> h < e.hits[h].keep)
  }

  lemma ProxyReplacesRuns(e: Edit)
    requires e.Fits() && MakesProxy(e)
    ensures ReplacesRuns(e, Except(""))
  {
  }

  lemma ValueIsFilled(e: Edit, k: CharSet, q: nat)
    requires e.Fits() && q <= |e.Result()| && e.Source(q).Filled? && e.Source(q).k == 0
    requires ReplacesRuns(e, k)
    ensures Done(k, e.fill, e.Result(), q)
  {
    e.FillRuns(q, 0, e.Source(q).h);
    e.Step(q + |e.fill|);
    assert e.fill[0..] == e.fill;
  }

  /** A seam of a later pass: `keep` follows `=` or `:`, or a digit, or the two slashes of a URL. */
  predicate Seam(s: string, x: nat, slashes: bool) {
    || (0 < x <= |s| && s[x - 1] in "=:")
    || (x < |s| && IsDigit(s[x]))
    || (slashes && 1 < x <= |s| && s[x - 1] == '/' && s[x - 2] == '/')
  }

  /** No seam is inside such a replacement. */
  predicate PlainFill(fill: string) {
    |fill| > 1 && forall k :: 0 <= k < |fill| ==> fill[k] !in "=:/" && !IsDigit(fill[k])
  }

  lemma FillsArePlain()
    ensures PlainFill(REDACTED) && PlainFill(REDACTED_HOST)
  {
  }

  /** What a later rule has to be like to keep the form of a literal. */
  ghost predicate Keeps(e: Edit, lit: string, fold: bool, fill: string, slashes: bool)
    requires e.Fits()
  {
    && Foreign(lit, fold, e.fill) && Form(lit, fold, fill, e.text)
    && lit[|lit| - 1] == '/' && (slashes ==> lit[|lit| - 2] != '/')
    && PlainFill(fill)
    && (forall h :: 0 <= h < |e.text| && e.hits[h].Hit? ==> Seam(e.text, e.hits[h].keep, slashes))
  }

  lemma FormIsKept(e: Edit, lit: string, fold: bool, fill: string, slashes: bool)
    requires e.Fits() && Keeps(e, lit, fold, fill, slashes)
    ensures Form(lit, fold, fill, e.Result())
  {
    forall p | 0 <= p < |e.Result()| && Spells(lit, fold, e.Result(), p)
      ensures Done(SLASH, fill, e.Result(), p + |lit|)
    {
      var o := SpelledIsCopied(e, lit, fold, p);
      assert e.Copies(p + |lit| - 1, o + |lit| - 1);
      e.CopyThenCopyOrCut(p + |lit| - 1, o + |lit| - 1);
      NoCutAfterLiteral(e, lit, fold, fill, slashes, o);
      assert Done(SLASH, fill, e.text, o + |lit|);
      DoneIsCopied(e, SLASH, fill, p + |lit|, o + |lit|, slashes);
    }
  }

  lemma NoCutAfterLiteral(e: Edit, lit: string, fold: bool, fill: string, slashes: bool, o: nat)
    requires e.Fits() && Keeps(e, lit, fold, fill, slashes)
    requires o < |e.text| && Spells(lit, fold, e.text, o)
    ensures forall h :: 0 <= h < |e.text| && e.hits[h].Hit? ==> e.hits[h].keep != o + |lit|
  {
    var s, q := e.text, o + |lit|;
    assert Folded(fold, s[o + (|lit| - 1)]) == lit[|lit| - 1] && Folded(fold, s[o + (|lit| - 2)]) == lit[|lit| - 2];
    assert s[q - 1] == '/';
    assert Done(SLASH, fill, s, q);
    assert q + |fill| <= |s| && s[q..q + |fill|] == fill ==> s[q] == s[q..q + |fill|][0] == fill[0];
  }

  /** A finished value that is not cut off its literal stays finished. */
  lemma DoneIsCopied(e: Edit, k: CharSet, fill: string, p: nat, q: nat, slashes: bool)
    requires e.Fits() && p <= |e.Result()| && e.Copies(p, q) && Done(k, fill, e.text, q)
    requires k.Except? && forall c :: IsDigit(c) ==> k.Has(c)
    requires PlainFill(fill)
    requires forall h :: 0 <= h < |e.text| && e.hits[h].Hit? ==> Seam(e.text, e.hits[h].keep, slashes)
    ensures Done(k, fill, e.Result(), p)
  {
    var s, m := e.text, |fill|;
    e.Step(p);
    if !Stops(k, s, q) {
      assert forall i :: q <= i < q + m ==> s[i] == s[q..q + m][i - q] == fill[i - q];
      forall h | 0 <= h < |s| && e.hits[h].Hit?
        ensures !(q < e.hits[h].keep <= q + m)
      {
        assert Seam(s, e.hits[h].keep, slashes);
      }
      e.CopyRuns(p, q, m);
      e.Step(p + m);
    }
  }

  // ---- Proxy settings ---------------------------------------------------------------------------

  /** Deleted text either cannot end a `proxy[^=\s]*`, or it ends where white space or the end follows. */
  ghost predicate ProxySafe(e: Edit)
    requires e.Fits()
  {
    && Foreign("proxy", true, e.fill)
    && forall h :: 0 <= h < |e.text| && e.hits[h].Hit? ==>
         || (forall j :: e.hits[h].keep <= j < e.hits[h].end ==> Except("=").Has(e.text[j]))
         || (h < e.hits[h].keep && Stops(Except(""), e.text, e.hits[h].end))
  }

  lemma OpenGrows(t: string, q: nat, r: nat)
    requires Open(t, q) && q <= r <= |t| && forall j :: q <= j < r ==> Except("=").Has(t[j])
    ensures Open(t, r)
  {
    var p: nat :| ProxyOpens(t, p, q);
    assert ProxyOpens(t, p, r);
  }

  /** Position `p` comes from inside a proxy setting, or from where no setting can go on. */
  ghost predicate WasOpen(e: Edit, p: nat)
    requires e.Fits() && p <= |e.Result()|
  {
    match e.Source(p)
    case Gap(o) => Open(e.text, o) || Stops(Except(""), e.text, o)
    case Kept(o, _) => Open(e.text, o) || Stops(Except(""), e.text, o)
    case Filled(_, h) => h < |e.text| && e.hits[h].Hit? && Open(e.text, e.hits[h].keep)
  }

  lemma WasOpenAfterProxy(e: Edit, p0: nat)
    requires e.Fits() && ProxySafe(e) && Spells("proxy", true, e.Result(), p0)
    ensures WasOpen(e, p0 + 5)
  {
    var o := SpelledIsCopied(e, "proxy", true, p0);
    assert ProxyOpens(e.text, o, o + 5);
    assert e.Copies(p0 + 4, o + 4);
    e.CopyThenCopyOrCut(p0 + 4, o + 4);
  }

  lemma WasOpenStays(e: Edit, p: nat)
    requires e.Fits() && ProxySafe(e) && p < |e.Result()| && WasOpen(e, p) && Except("=").Has(e.Result()[p])
    ensures WasOpen(e, p + 1)
  {
    e.Step(p);
    match e.Source(p)
    case Filled(k, h) => if k + 1 == |e.fill| { WasOpenAfterFill(e, h); }
    case Gap(o) => OpenGrows(e.text, o, o + 1);
    case Kept(o, h) => OpenGrows(e.text, o, o + 1);
  }

  lemma WasOpenAfterFill(e: Edit, h: nat)
    requires e.Fits() && ProxySafe(e) && h < |e.text| && e.hits[h].Hit? && Open(e.text, e.hits[h].keep)
    ensures Open(e.text, e.hits[h].end) || Stops(Except(""), e.text, e.hits[h].end)
    ensures var x := e.hits[h].end; x < |e.text| && e.hits[x].Hit? && e.hits[x].keep == x ==> Open(e.text, x)
  {
    if forall j :: e.hits[h].keep <= j < e.hits[h].end ==> Except("=").Has(e.text[j]) {
      OpenGrows(e.text, e.hits[h].keep, e.hits[h].end);
    }
  }

  /** What is inside a proxy setting afterwards was so before. */
  lemma {:induction false} OpenWasOpen(e: Edit, p: nat)
    requires e.Fits() && ProxySafe(e) && p <= |e.Result()| && Open(e.Result(), p)
    ensures WasOpen(e, p)
  {
    var p0: nat :| ProxyOpens(e.Result(), p0, p);
    WasOpenAfterProxy(e, p0);
    for q := p0 + 5 to p
      invariant WasOpen(e, q)
    {
      WasOpenStays(e, q);
    }
  }

  /** A rule that cuts at seams in front of token characters, and deletes no `=`, keeps proxy settings. */
  ghost predicate KeepsProxy(e: Edit)
    requires e.Fits()
  {
    && ProxySafe(e) && '=' !in e.fill
    && forall h :: 0 <= h < |e.text| && e.hits[h].Hit? ==>
         Seam(e.text, e.hits[h].keep, false) && !Stops(TOKEN_CHARS, e.text, e.hits[h].keep)
  }

  lemma EqualsIsCopied(e: Edit, q: nat) returns (o: nat)
    requires e.Fits() && ProxySafe(e) && '=' !in e.fill
    requires q < |e.Result()| && e.Result()[q] == '=' && Open(e.Result(), q)
    ensures e.Copies(q, o) && o < |e.text| && e.text[o] == '=' && Open(e.text, o)
  {
    e.Step(q);
    OpenWasOpen(e, q);
    o := e.Source(q).o;
  }

  lemma ProxyFormIsKept(e: Edit)
    requires e.Fits() && ProxyForm(e.text) && KeepsProxy(e)
    ensures ProxyForm(e.Result())
  {
    forall q | 0 <= q < |e.Result()| && e.Result()[q] == '=' && Open(e.Result(), q)
      ensures Done(Except(""), REDACTED, e.Result(), q + 1)
    {
      var o := EqualsIsCopied(e, q);
      e.CopyThenCopyOrCut(q, o);
      NoCutAfterEquals(e, o);
      DoneIsCopied(e, Except(""), REDACTED, q + 1, o + 1, false);
    }
  }

  lemma NoCutAfterEquals(e: Edit, o: nat)
    requires e.Fits() && KeepsProxy(e) && o < |e.text| && Done(Except(""), REDACTED, e.text, o + 1)
    ensures forall h :: 0 <= h < |e.text| && e.hits[h].Hit? ==> e.hits[h].keep != o + 1
  {
    var s := e.text;
    assert o + 11 <= |s| && s[o + 1..o + 11] == REDACTED ==> s[o + 1] == s[o + 1..o + 11][0] == '[';
  }

  /** What the proxy rule is like. */
  ghost predicate MakesProxy(e: Edit)
    requires e.Fits()
  {
    && Foreign("proxy", true, e.fill) && '=' !in e.fill
    && (forall h :: 0 <= h < |e.text| && e.hits[h].Hit? ==>
          && h < e.hits[h].keep && ProxyOpens(e.text, h, e.hits[h].keep - 1) && e.text[e.hits[h].keep - 1] == '='
          && Stops(Except(""), e.text, e.hits[h].end))
    && (forall p: nat, o: nat ::
          ProxyOpens(e.text, p, o) && o < |e.text| && e.text[o] == '=' && !Stops(Except(""), e.text, o + 1) ==>
          e.hits[p].Hit? && e.hits[p].keep == o + 1)
  }

  lemma ProxyFormIsMade(e: Edit)
    requires e.Fits() && MakesProxy(e) && e.fill == REDACTED
    ensures ProxyForm(e.Result())
  {
    forall q | 0 <= q < |e.Result()| && e.Result()[q] == '=' && Open(e.Result(), q)
      ensures Done(Except(""), REDACTED, e.Result(), q + 1)
    {
      var o := EqualsIsCopied(e, q);
      e.CopyThenCopyOrCut(q, o);
      if e.Copies(q + 1, o + 1) {
        e.Step(q + 1);
        if !Stops(Except(""), e.text, o + 1) { ProxyValueIsCut(e, q, o); }
      } else {
        ProxyReplacesRuns(e);
        ValueIsFilled(e, Except(""), q + 1);
      }
    }
  }

  /** A proxy value that is there is not copied. */
  lemma ProxyValueIsCut(e: Edit, q: nat, o: nat)
    requires e.Fits() && MakesProxy(e) && q < |e.Result()| && e.Copies(q, o)
    requires o < |e.text| && e.text[o] == '=' && Open(e.text, o) && !Stops(Except(""), e.text, o + 1)
    ensures !e.Copies(q + 1, o + 1)
  {
    e.Step(q);
    if e.Source(q).Kept? { KeptEqualsIsLast(e, q, o, e.Source(q).h); } else { EqualsIsInMatch(e, q, o); }
  }

  lemma KeptEqualsIsLast(e: Edit, q: nat, o: nat, h: nat)
    requires e.Fits() && MakesProxy(e) && q < |e.Result()| && e.Source(q) == Kept(o, h)
    requires o < |e.text| && e.text[o] == '='
    ensures !e.Copies(q + 1, o + 1)
  {
    e.KeptRuns(q, o, h);
    if o < e.hits[h].keep - 1 { EqualsNotInProxy(e.text, h, e.hits[h].keep - 1, o); }
  }

  lemma EqualsIsInMatch(e: Edit, q: nat, o: nat)
    requires e.Fits() && MakesProxy(e) && q < |e.Result()| && o < |e.text|
    requires e.text[o] == '=' && Open(e.text, o) && !Stops(Except(""), e.text, o + 1)
    ensures e.Source(q) != Gap(o)
  {
    var p: nat :| ProxyOpens(e.text, p, o);
    assert e.hits[p].Hit? && e.hits[p].keep == o + 1;
    if e.Source(q) == Gap(o) {
      var g := e.GapIsFree(0, q, p);
      assert g != p;
      NoStopInProxy(e.text, p, o, e.hits[g].end);
    }
  }

  lemma NoStopInProxy(s: string, p: nat, o: nat, x: nat)
    requires ProxyOpens(s, p, o) && o < |s| && s[o] == '=' && p < x <= o
    ensures !Stops(Except(""), s, x)
  {
    if x < o { EqualsNotInProxy(s, p, o, x); }
  }

  /** Within a proxy setting there is no `=` and no white space. */
  lemma EqualsNotInProxy(s: string, p: nat, q: nat, x: nat)
    requires ProxyOpens(s, p, q) && p <= x < q
    ensures s[x] != '=' && !IsSpace(s[x])
  {
    if x < p + 5 { assert Lower(s[p + (x - p)]) == "proxy"[x - p]; }
  }

  // ---- Tokens -----------------------------------------------------------------------------------

  ghost predicate TokenSafe(e: Edit)
    requires e.Fits()
  {
    && (forall w :: 0 <= w < |KEYWORDS| ==> Foreign(KEYWORDS[w], true, e.fill))
    && e.fill[0] !in "=:" && !TOKEN_CHARS.Has(e.fill[0])
  }

  /** A keyword with its delimiter is copied, delimiter included. */
  lemma KeywordIsCopied(e: Edit, p: nat, g: nat) returns (o: nat)
    requires e.Fits() && TokenSafe(e) && WordEnds(KEYWORDS, e.Result(), p, g)
    ensures p < g - 1 && o + g - p <= |e.text| && WordEnds(KEYWORDS, e.text, o, o + g - p)
    ensures CopiesAll(e, p, o, g - p) && e.text[o + g - p - 1] in "=:"
  {
    var w :| 0 <= w < |KEYWORDS| && Spells(KEYWORDS[w], true, e.Result(), p) && p + |KEYWORDS[w]| + 1 == g;
    o := SpelledIsCopied(e, KEYWORDS[w], true, p);
    assert e.Copies(g - 2, o + g - p - 2);
    e.CopyThenCopyOrCut(g - 2, o + g - p - 2);
    e.CopyThenCopyOrCut(g - 1, o + g - p - 1);
  }

  lemma TokenFormIsKept(e: Edit)
    requires e.Fits() && TokenSafe(e) && TokenForm(e.text)
    ensures TokenForm(e.Result())
  {
    forall p: nat, g: nat | WordEnds(KEYWORDS, e.Result(), p, g)
      ensures Stops(TOKEN_CHARS, e.Result(), g)
    {
      var o := KeywordIsCopied(e, p, g);
      assert e.Copies(g - 1, o + g - p - 1);
      e.CopyThenCopyOrCut(g - 1, o + g - p - 1);
      e.Step(g);
    }
  }

  /** What the token rule is like. */
  ghost predicate MakesToken(e: Edit)
    requires e.Fits()
  {
    && TokenSafe(e) && HitsAreKeywords(e, KEYWORDS) && KeywordsAreHits(e, KEYWORDS)
  }

  ghost predicate HitsAreKeywords(e: Edit, words: seq<string>)
    requires e.Fits()
  {
    forall h :: 0 <= h < |e.text| && e.hits[h].Hit? ==> WordEnds(words, e.text, h, e.hits[h].keep)
  }

  ghost predicate KeywordsAreHits(e: Edit, words: seq<string>)
    requires e.Fits()
  {
    forall o: nat, g: nat :: WordEnds(words, e.text, o, g) && !Stops(TOKEN_CHARS, e.text, g) ==> e.hits[o].Hit?
  }

  lemma TokenFormIsMade(e: Edit)
    requires e.Fits() && MakesToken(e)
    ensures TokenForm(e.Result())
  {
    forall p: nat, g: nat | WordEnds(KEYWORDS, e.Result(), p, g)
      ensures Stops(TOKEN_CHARS, e.Result(), g)
    {
      TokenIsDone(e, p, g);
    }
  }

  lemma TokenIsDone(e: Edit, p: nat, g: nat)
    requires e.Fits() && MakesToken(e) && WordEnds(KEYWORDS, e.Result(), p, g)
    ensures Stops(TOKEN_CHARS, e.Result(), g)
  {
    var o := KeywordIsCopied(e, p, g);
    NextIsDone(e, p, o, g - p);
  }

  lemma NextIsDone(e: Edit, p: nat, o: nat, n: nat)
    requires e.Fits() && MakesToken(e) && 1 < n && p + n <= |e.Result()| && CopiesAll(e, p, o, n)
    requires o + n <= |e.text| && WordEnds(KEYWORDS, e.text, o, o + n) && e.text[o + n - 1] in "=:"
    ensures Stops(TOKEN_CHARS, e.Result(), p + n)
  {
    hide HitsAreKeywords, WordEnds, Foreign, CharSet.Has;
    assert e.Copies(p + n - 1, o + n - 1) && e.Copies(p, o);
    e.CopyThenCopyOrCut(p + n - 1, o + n - 1);
    e.Step(p + n);
    if e.Copies(p + n, o + n) && !Stops(TOKEN_CHARS, e.text, o + n) {
      e.Step(p);
      TokenIsCut(e, p, o, n);
    }
  }

  /** A token that is there is not copied: its keyword is a match, or ends inside the group of one. */
  lemma TokenIsCut(e: Edit, p: nat, o: nat, n: nat)
    requires e.Fits() && MakesToken(e) && p + n <= |e.Result()| && CopiesAll(e, p, o, n) && 0 < n
    requires e.Source(p).Kept? && e.Source(p).o == o && o + n <= |e.text| && e.text[o + n - 1] in "=:"
    ensures !e.Copies(p + n, o + n)
  {
    var h := e.Source(p).h;
    e.KeptRuns(p, o, h);
    if o + n < e.hits[h].keep { DelimiterIsLast(e.text, h, e.hits[h].keep, o + n - 1); }
  }

  lemma DelimiterIsLast(s: string, h: nat, keep: nat, x: nat)
    requires WordEnds(KEYWORDS, s, h, keep) && h <= x < keep - 1
    ensures s[x] !in "=:"
  {
    var w :| 0 <= w < |KEYWORDS| && Spells(KEYWORDS[w], true, s, h) && h + |KEYWORDS[w]| + 1 == keep;
    assert Folded(true, s[h + (x - h)]) == KEYWORDS[w][x - h];
    NoDelimiterInKeyword(w);
  }

  lemma NoDelimiterInKeyword(w: nat)
    requires w < |KEYWORDS|
    ensures forall k :: 0 <= k < |KEYWORDS[w]| ==> KEYWORDS[w][k] !in "=:"
  {
  }

  // ---- Addresses --------------------------------------------------------------------------------

  /** What the address rule is like. */
  ghost predicate MakesIpv4(e: Edit)
    requires e.Fits()
  {
    && !IsDigit(e.fill[0]) && e.fill[0] != '.' && (forall k :: 0 <= k < |e.fill| ==> !IsDigit(e.fill[k]))
    && (forall h :: 0 <= h < |e.text| && e.hits[h].Hit? ==>
          e.hits[h].keep == h && Regex.Matches(QUAD, e.text, h, e.hits[h].end))
    && (forall o: nat, x: nat :: o <= x <= |e.text| && o < |e.text| && Regex.Matches(QUAD, e.text, o, x) ==>
          e.hits[o].Hit?)
  }

  lemma Ipv4FormIsMade(e: Edit)
    requires e.Fits() && MakesIpv4(e)
    ensures Ipv4Form(e.Result())
  {
    forall p: nat, x: nat | p <= x <= |e.Result()|
      ensures !Regex.Matches(QUAD, e.Result(), p, x)
    {
      if Regex.Matches(QUAD, e.Result(), p, x) {
        QuadMatches(e.Result(), p, x);
        e.Step(p);
        var o := e.Source(p).o;
        CopyGoesOn(e, p, o, x - p);
        QuadStartsAlike(e, p, o);
        assert e.Copies(x - 1, o + (x - p) - 1);
        QuadEndsAlike(e, x, o + (x - p));
        MatchesMoves(QUAD, e.Result(), p, x, e.text, o);
      }
    }
  }

  lemma QuadStartsAlike(e: Edit, p: nat, o: nat)
    requires e.Fits() && MakesIpv4(e) && p < |e.Result()| && e.Copies(p, o) && IsDigit(e.Result()[p])
    requires !WordAt(e.Result(), p - 1)
    ensures !WordAt(e.text, o - 1)
  {
    e.Step(p);
    if p == 0 {
      e.SourceArrives(0);
    } else {
      e.Step(p - 1);
      var a := e.Source(p - 1);
      if a.Filled? { QuadMatches(e.text, a.h, e.hits[a.h].end); }
    }
  }

  lemma QuadEndsAlike(e: Edit, x: nat, y: nat)
    requires e.Fits() && MakesIpv4(e) && 0 < x <= |e.Result()| && 0 < y && e.Copies(x - 1, y - 1)
    requires IsDigit(e.Result()[x - 1]) && !WordAt(e.Result(), x)
    ensures !WordAt(e.text, y)
  {
    e.CopyThenCopyOrCut(x - 1, y - 1);
    e.Step(x);
    if e.Cuts(x, y) { QuadMatches(e.text, y, e.hits[y].end); }
  }

  // ---- The six rules ----------------------------------------------------------------------------

  lemma HomeMakes(s: string)
    ensures Makes(Edits(HOME, s), "/home/", false)
  {
    var e := Edits(HOME, s);
    forall i | 0 <= i < |s| { HomeHits(s, i); }
    forall h, o | 0 <= h <= o < |s| && e.hits[h].Hit? && Spells("/home/", false, s, o)
      ensures e.hits[h].keep <= o + 6
    {
    }
  }

  /** What the host rule is like, before its literals are told apart. */
  ghost predicate CutsPathsAfter(e: Edit, length: (string, nat) -> nat)
    requires e.Fits()
  {
    forall i :: 0 <= i < |e.text| ==>
      var n := length(e.text, i);
      && (e.hits[i].Hit? <==> n > 0 && !Stops(SLASH, e.text, i + n))
      && (e.hits[i].Hit? ==> e.hits[i].keep == i + n && Stops(SLASH, e.text, e.hits[i].end))
  }

  ghost predicate TakesRuns(e: Edit)
    requires e.Fits()
  {
    forall i :: 0 <= i < |e.text| && e.hits[i].Hit? ==> e.hits[i].end == RunEnd(SLASH, e.text, e.hits[i].keep)
  }

  lemma HostCuts(s: string)
    ensures CutsPathsAfter(Edits(HOST, s), SchemeLength) && TakesRuns(Edits(HOST, s))
  {
    hide SchemeLength;
    var hits := Edits(HOST, s).hits;
    forall i | 0 <= i < |s|
      ensures HostCut(s, i, SchemeLength(s, i), hits[i])
    {
      HostHits(s, i);
    }
  }

  /** What the host rule finds behind a scheme of `n` characters. */
  ghost predicate HostCut(s: string, i: nat, n: nat, m: Match) {
    m == if n > 0 && i + n < |s| && SLASH.Has(s[i + n]) then Hit(i + n, RunEnd(SLASH, s, i + n)) else NoMatch
  }

  lemma UrlsAreForeign(fill: string)
    requires fill in [REDACTED, REDACTED_HOST, REDACTED_IP]
    ensures Foreign("http://", true, fill) && Foreign("https://", true, fill)
  {
  }

  lemma HostMakes(e: Edit, lit: string)
    requires e.Fits() && CutsPathsAfter(e, SchemeLength)
    requires Foreign(lit, true, e.fill) && lit in ["http://", "https://"]
    ensures Makes(e, lit, true)
  {
    var s := e.text;
    forall o | 0 <= o < |s| && Spells(lit, true, s, o)
      ensures SchemeLength(s, o) == |lit|
    {
      SchemesDiffer(s, o);
    }
  }

  lemma SchemesDiffer(s: string, i: nat)
    ensures !(Spells("http://", true, s, i) && Spells("https://", true, s, i))
  {
    if Spells("https://", true, s, i) {
      assert Folded(true, s[i + 4]) == "https://"[4];
      assert !(Folded(true, s[i + 4]) == "http://"[4]);
    }
  }

  lemma SchemeEndsInSlashes(s: string, i: nat)
    requires SchemeLength(s, i) > 0
    ensures Seam(s, i + SchemeLength(s, i), true)
  {
    if SchemeLength(s, i) == 7 {
      assert Folded(true, s[i + 6]) == "http://"[6] && Folded(true, s[i + 5]) == "http://"[5];
    } else {
      assert Folded(true, s[i + 7]) == "https://"[7] && Folded(true, s[i + 6]) == "https://"[6];
    }
  }

  lemma HostSeams(e: Edit)
    requires e.Fits() && CutsPathsAfter(e, SchemeLength)
    ensures forall i :: 0 <= i < |e.text| && e.hits[i].Hit? ==> Seam(e.text, e.hits[i].keep, true)
  {
    forall i | 0 <= i < |e.text| && e.hits[i].Hit?
      ensures Seam(e.text, e.hits[i].keep, true)
    {
      SchemeEndsInSlashes(e.text, i);
    }
  }

  lemma CredentialsSeam(s: string, i: nat)
    requires i < |s| && At(CREDENTIALS, s, i).Hit?
    ensures Seam(s, At(CREDENTIALS, s, i).keep, true)
  {
    CredentialsHit(s, i);
    SchemeEndsInSlashes(s, i);
  }

  lemma CredentialsSeams(s: string)
    ensures var e := Edits(CREDENTIALS, s);
            forall i :: 0 <= i < |s| && e.hits[i].Hit? ==> Seam(s, e.hits[i].keep, true)
  {
    forall i | 0 <= i < |s| && At(CREDENTIALS, s, i).Hit? { CredentialsSeam(s, i); }
  }

  lemma ProxyHitCuts(s: string, h: nat)
    requires h < |s| && At(PROXY, s, h).Hit?
    ensures var m := At(PROXY, s, h);
      && h < m.keep && ProxyOpens(s, h, m.keep - 1) && s[m.keep - 1] == '='
      && Stops(Except(""), s, m.end) && Seam(s, m.keep, false)
  {
    ProxyHit(s, h);
  }

  lemma ProxyMakes(s: string)
    ensures MakesProxy(Edits(PROXY, s))
    ensures forall h :: 0 <= h < |s| && At(PROXY, s, h).Hit? ==> Seam(s, At(PROXY, s, h).keep, false)
  {
    hide At, Foreign;
    forall h | 0 <= h < |s| && At(PROXY, s, h).Hit? { ProxyHitCuts(s, h); }
    forall p: nat, o: nat | ProxyOpens(s, p, o) && o < |s| && s[o] == '=' && !Stops(Except(""), s, o + 1) {
      ProxyIsHit(s, p, o);
    }
    ProxyIsForeign(REDACTED);
  }

  lemma KeywordIsForeign(w: nat)
    requires w < |KEYWORDS|
    ensures Foreign(KEYWORDS[w], true, REDACTED)
  {
  }

  lemma KeywordIsForeignToAddress(w: nat)
    requires w < |KEYWORDS|
    ensures Foreign(KEYWORDS[w], true, REDACTED_IP)
  {
  }

  lemma KeywordsAreForeign(fill: string)
    requires fill in [REDACTED, REDACTED_IP]
    ensures forall w :: 0 <= w < |KEYWORDS| ==> Foreign(KEYWORDS[w], true, fill)
  {
    forall w | 0 <= w < |KEYWORDS|
      ensures Foreign(KEYWORDS[w], true, fill)
    {
      KeywordIsForeign(w);
      KeywordIsForeignToAddress(w);
    }
  }

  lemma ProxyIsForeign(fill: string)
    requires fill in [REDACTED, REDACTED_IP]
    ensures Foreign("proxy", true, fill)
  {
  }

  lemma TokenHitsAreKeywords(s: string)
    ensures HitsAreKeywords(Edits(TOKEN, s), KEYWORDS)
  {
    forall h | 0 <= h < |s| && At(TOKEN, s, h).Hit? { TokenHit(KEYWORDS, TOKEN, s, h); }
  }

  lemma TokensAreHits(s: string)
    ensures KeywordsAreHits(Edits(TOKEN, s), KEYWORDS)
  {
    forall o: nat, g: nat | WordEnds(KEYWORDS, s, o, g) && !Stops(TOKEN_CHARS, s, g) {
      TokenIsHit(KEYWORDS, TOKEN, s, o, g);
    }
  }

  lemma TokenMakes(s: string)
    ensures MakesToken(Edits(TOKEN, s))
  {
    TokenIsSafe(Edits(TOKEN, s));
    TokenHitsAreKeywords(s);
    TokensAreHits(s);
  }

  lemma TokenIsSafe(e: Edit)
    requires e.Fits() && e.fill == REDACTED
    ensures TokenSafe(e)
  {
    KeywordsAreForeign(e.fill);
  }

  /** A rule that deletes token characters without `=` after a seam. */
  ghost predicate CutsTokenChars(e: Edit)
    requires e.Fits()
  {
    forall h :: 0 <= h < |e.text| && e.hits[h].Hit? ==>
      && Seam(e.text, e.hits[h].keep, false) && !Stops(TOKEN_CHARS, e.text, e.hits[h].keep)
      && forall j :: e.hits[h].keep <= j < e.hits[h].end ==> Except("=").Has(e.text[j])
  }

  lemma TokenCharsArePlain(s: string, i: nat, j: nat)
    requires i <= j <= |s| && forall x :: i <= x < j ==> TOKEN_CHARS.Has(s[x])
    ensures forall x :: i <= x < j ==> Except("=").Has(s[x])
  {
  }

  lemma KeywordSeam(s: string, i: nat, g: nat)
    requires WordEnds(KEYWORDS, s, i, g)
    ensures Seam(s, g, false)
  {
  }

  lemma TokenCuts(s: string)
    ensures CutsTokenChars(Edits(TOKEN, s))
  {
    forall h | 0 <= h < |s| && At(TOKEN, s, h).Hit?
      ensures var m := At(TOKEN, s, h);
              && Seam(s, m.keep, false) && !Stops(TOKEN_CHARS, s, m.keep)
              && forall j :: m.keep <= j < m.end ==> Except("=").Has(s[j])
    {
      TokenHit(KEYWORDS, TOKEN, s, h);
      KeywordSeam(s, h, At(TOKEN, s, h).keep);
      TokenCharsArePlain(s, At(TOKEN, s, h).keep, At(TOKEN, s, h).end);
    }
  }

  lemma Ipv4Cuts(s: string)
    ensures CutsTokenChars(Edits(IPV4, s))
  {
    forall h | 0 <= h < |s| && At(IPV4, s, h).Hit?
      ensures var m := At(IPV4, s, h);
              && Seam(s, m.keep, false) && !Stops(TOKEN_CHARS, s, m.keep)
              && forall j :: m.keep <= j < m.end ==> Except("=").Has(s[j])
    {
      QuadHit(s, h);
      QuadMatches(s, h, At(IPV4, s, h).end);
    }
  }

  lemma Ipv4Makes(s: string)
    ensures MakesIpv4(Edits(IPV4, s))
  {
    forall h | 0 <= h < |s| && At(IPV4, s, h).Hit?
      ensures At(IPV4, s, h).keep == h && Regex.Matches(QUAD, s, h, At(IPV4, s, h).end)
    {
      QuadHit(s, h);
    }
    forall o: nat, x: nat | o <= x <= |s| && o < |s| && Regex.Matches(QUAD, s, o, x)
      ensures At(IPV4, s, o).Hit?
    {
      MatchIsHit(IPV4, s, o, o, x);
    }
  }

  // ---- The pipeline -----------------------------------------------------------------------------

  lemma HomePass(s: string)
    ensures HomeForm(Replace(HOME, s))
  {
    HomeMakes(s);
    FormIsMade(Edits(HOME, s), "/home/", false);
  }

  lemma HomeIsForeign(fill: string)
    requires fill in [REDACTED, REDACTED_AT, REDACTED_HOST, REDACTED_IP]
    ensures Foreign("/home/", false, fill)
  {
  }

  lemma CredentialsPass(s: string)
    requires HomeForm(s)
    ensures HomeForm(Replace(CREDENTIALS, s))
  {
    CredentialsSeams(s);
    HomeIsForeign(REDACTED_AT);
    FillsArePlain();
    FormIsKept(Edits(CREDENTIALS, s), "/home/", false, REDACTED, true);
  }

  lemma HostPass(s: string)
    requires HomeForm(s)
    ensures HomeForm(Replace(HOST, s)) && HostForm(Replace(HOST, s))
  {
    HostCuts(s);
    HostRuleForms(Edits(HOST, s));
  }

  lemma HostRuleForms(e: Edit)
    requires e.Fits() && CutsPathsAfter(e, SchemeLength) && e.fill == REDACTED_HOST && HomeForm(e.text)
    ensures HomeForm(e.Result()) && HostForm(e.Result())
  {
    HostSeams(e);
    HomeIsForeign(e.fill);
    FillsArePlain();
    FormIsKept(e, "/home/", false, REDACTED, true);
    UrlsAreForeign(e.fill);
    HostMakes(e, "http://");
    HostMakes(e, "https://");
    FormIsMade(e, "http://", true);
    FormIsMade(e, "https://", true);
  }

  /** A rule that cuts at seams keeps the home and host forms. */
  lemma PathFormsAreKept(e: Edit)
    requires e.Fits() && e.fill in [REDACTED, REDACTED_IP] && HomeForm(e.text) && HostForm(e.text)
    requires forall h :: 0 <= h < |e.text| && e.hits[h].Hit? ==> Seam(e.text, e.hits[h].keep, false)
    ensures HomeForm(e.Result()) && HostForm(e.Result())
  {
    HomeIsForeign(e.fill);
    UrlsAreForeign(e.fill);
    FillsArePlain();
    FormIsKept(e, "/home/", false, REDACTED, false);
    FormIsKept(e, "http://", true, REDACTED_HOST, false);
    FormIsKept(e, "https://", true, REDACTED_HOST, false);
  }

  lemma ProxyPass(s: string)
    requires HomeForm(s) && HostForm(s)
    ensures var v := Replace(PROXY, s); HomeForm(v) && HostForm(v) && ProxyForm(v)
  {
    ProxyMakes(s);
    PathFormsAreKept(Edits(PROXY, s));
    ProxyFormIsMade(Edits(PROXY, s));
  }

  /** A rule that cuts token characters keeps the first three forms. */
  lemma EarlierFormsAreKept(e: Edit)
    requires e.Fits() && CutsTokenChars(e) && e.fill in [REDACTED, REDACTED_IP]
    requires HomeForm(e.text) && HostForm(e.text) && ProxyForm(e.text)
    ensures HomeForm(e.Result()) && HostForm(e.Result()) && ProxyForm(e.Result())
  {
    PathFormsAreKept(e);
    ProxyIsForeign(e.fill);
    ProxyFormIsKept(e);
  }

  lemma TokenPass(s: string)
    requires HomeForm(s) && HostForm(s) && ProxyForm(s)
    ensures var v := Replace(TOKEN, s); HomeForm(v) && HostForm(v) && ProxyForm(v) && TokenForm(v)
  {
    TokenCuts(s);
    TokenMakes(s);
    EarlierFormsAreKept(Edits(TOKEN, s));
    TokenFormIsMade(Edits(TOKEN, s));
  }

  lemma Ipv4Pass(s: string)
    requires HomeForm(s) && HostForm(s) && ProxyForm(s) && TokenForm(s)
    ensures Redacted(Replace(IPV4, s))
  {
    Ipv4Cuts(s);
    Ipv4Makes(s);
    KeywordsAreForeign(REDACTED_IP);
    EarlierFormsAreKept(Edits(IPV4, s));
    TokenFormIsKept(Edits(IPV4, s));
    Ipv4FormIsMade(Edits(IPV4, s));
  }

  /** Redacted text has every form at once. */
  lemma RedactIsRedacted(s: string)
    ensures Redacted(Redact(s))
  {
    var v1 := Replace(HOME, s);
    var v2 := Replace(CREDENTIALS, v1);
    var v3 := Replace(HOST, v2);
    var v4 := Replace(PROXY, v3);
    HomePass(s);
    CredentialsPass(v1);
    HostPass(v2);
    ProxyPass(v3);
    TokenPass(v4);
    Ipv4Pass(Replace(TOKEN, v4));
  }

  // ---- Text in normal form is left alone --------------------------------------------------------

  lemma HomeMatchIsDone(t: string, i: nat)
    requires HomeForm(t) && i < |t| && At(HOME, t, i).Hit?
    ensures t[At(HOME, t, i).keep..At(HOME, t, i).end] == REDACTED
  {
    HomeHits(t, i);
    DoneIsRun(SLASH, REDACTED, t, i + 6);
  }

  lemma HomeIsFixed(t: string)
    requires HomeForm(t)
    ensures Replace(HOME, t) == t
  {
    forall i | 0 <= i < |t| && At(HOME, t, i).Hit? { HomeMatchIsDone(t, i); }
    ReplaceFixes(HOME, t);
  }

  /** A value that is there and finished is the replacement, and nothing more. */
  lemma DoneIsRun(k: CharSet, fill: string, t: string, q: nat)
    requires q <= |t| && Done(k, fill, t, q) && !Stops(k, t, q)
    requires forall i :: 0 <= i < |fill| ==> k.Has(fill[i])
    ensures RunEnd(k, t, q) == q + |fill| && t[q..q + |fill|] == fill
  {
    assert forall x :: q <= x < q + |fill| ==> t[x] == t[q..q + |fill|][x - q];
    RunsEndTogether(k, t, q, q + |fill|);
  }

  lemma UrlIsDone(t: string, i: nat)
    requires HostForm(t) && i < |t| && SchemeLength(t, i) > 0
    ensures Done(SLASH, REDACTED_HOST, t, i + SchemeLength(t, i))
  {
  }

  /** A match of credentials ends in an `@`, which a finished host has not. */
  lemma NoCredentialsMatch(t: string, i: nat, m: Match, n: nat)
    requires n > 0 ==> Done(SLASH, REDACTED_HOST, t, i + n)
    ensures !IsCredentials(t, i, n, m)
  {
    if m.Hit? && n > 0 && m.keep == i + n < m.end - 1 < |t| {
      if forall j :: m.keep <= j < m.end - 1 ==> Except("/@").Has(t[j]) { NoAtInHost(t, m.keep, m.end - 1); }
    }
  }

  lemma CredentialsAreFixed(t: string)
    requires HostForm(t)
    ensures Replace(CREDENTIALS, t) == t
  {
    forall i | 0 <= i < |t| { NoCredentialsAt(t, i); }
    ReplaceFixes(CREDENTIALS, t);
  }

  lemma NoCredentialsAt(t: string, i: nat)
    requires HostForm(t) && i < |t|
    ensures !At(CREDENTIALS, t, i).Hit?
  {
    if SchemeLength(t, i) > 0 { UrlIsDone(t, i); }
    NoCredentialsMatch(t, i, At(CREDENTIALS, t, i), SchemeLength(t, i));
    if At(CREDENTIALS, t, i).Hit? { CredentialsHit(t, i); }
  }

  lemma NoAtInHost(t: string, q: nat, x: nat)
    requires Done(SLASH, REDACTED_HOST, t, q) && q < x < |t| && forall j :: q <= j < x ==> Except("/@").Has(t[j])
    ensures t[x] != '@'
  {
    NoAtIn(REDACTED_HOST, t, q, x);
  }

  lemma NoAtIn(fill: string, t: string, q: nat, x: nat)
    requires Done(SLASH, fill, t, q) && q < x < |t| && forall j :: q <= j < x ==> Except("/@").Has(t[j])
    requires forall k :: 0 <= k < |fill| ==> Except("/@").Has(fill[k])
    ensures t[x] != '@'
  {
    assert Except("/@").Has(t[q]);
    DoneIsRun(SLASH, fill, t, q);
    var z := q + |fill|;
    assert forall c: char :: Except("/@").Has(c) ==> SLASH.Has(c);
    if x < z { assert t[x] == t[q..z][x - q]; }
  }

  /** A match that takes the whole run after a finished literal takes the replacement. */
  lemma RunMatchIsDone(m: Match, fill: string, t: string, q: nat)
    requires q < |t| && m == Hit(q, RunEnd(SLASH, t, q)) && SLASH.Has(t[q]) && Done(SLASH, fill, t, q)
    requires forall i :: 0 <= i < |fill| ==> SLASH.Has(fill[i])
    ensures t[m.keep..m.end] == fill
  {
    DoneIsRun(SLASH, fill, t, q);
  }

  lemma HostRuleIsFixed(e: Edit)
    requires e.Fits() && CutsPathsAfter(e, SchemeLength) && TakesRuns(e) && e.fill == REDACTED_HOST && HostForm(e.text)
    ensures e.Settled()
  {
    hide HostForm, SchemeLength, Done;
    forall i | 0 <= i < |e.text| && e.hits[i].Hit?
      ensures e.text[e.hits[i].keep..e.hits[i].end] == e.fill
    {
      UrlIsDone(e.text, i);
      RunMatchIsDone(e.hits[i], e.fill, e.text, i + SchemeLength(e.text, i));
    }
  }

  lemma HostIsFixed(t: string)
    requires HostForm(t)
    ensures Replace(HOST, t) == t
  {
    var e := Edits(HOST, t);
    HostCuts(t);
    HostRuleIsFixed(e);
    e.SettledIsFixed(0);
    assert t[0..] == t;
  }

  lemma ProxyMatchIsDone(t: string, i: nat)
    requires ProxyForm(t) && i < |t| && At(PROXY, t, i).Hit?
    ensures t[At(PROXY, t, i).keep..At(PROXY, t, i).end] == REDACTED
  {
    hide At;
    ProxyHit(t, i);
    var q := At(PROXY, t, i).keep;
    assert Open(t, q - 1);
    DoneIsRun(Except(""), REDACTED, t, q);
  }

  lemma ProxyIsFixed(t: string)
    requires ProxyForm(t)
    ensures Replace(PROXY, t) == t
  {
    forall i | 0 <= i < |t| && At(PROXY, t, i).Hit? { ProxyMatchIsDone(t, i); }
    ReplaceFixes(PROXY, t);
  }

  lemma NoTokenMatch(t: string, i: nat)
    requires TokenForm(t) && i < |t|
    ensures !At(TOKEN, t, i).Hit?
  {
    if At(TOKEN, t, i).Hit? { TokenHit(KEYWORDS, TOKEN, t, i); }
  }

  lemma TokenIsFixed(t: string)
    requires TokenForm(t)
    ensures Replace(TOKEN, t) == t
  {
    forall i | 0 <= i < |t| { NoTokenMatch(t, i); }
    ReplaceFixes(TOKEN, t);
  }

  lemma NoIpv4Match(t: string, i: nat)
    requires Ipv4Form(t) && i < |t|
    ensures !At(IPV4, t, i).Hit?
  {
    if At(IPV4, t, i).Hit? { QuadHit(t, i); }
  }

  lemma Ipv4IsFixed(t: string)
    requires Ipv4Form(t)
    ensures Replace(IPV4, t) == t
  {
    forall i | 0 <= i < |t| { NoIpv4Match(t, i); }
    ReplaceFixes(IPV4, t);
  }

  lemma RedactedIsFixed(t: string)
    requires Redacted(t)
    ensures Redact(t) == t
  {
    HomeIsFixed(t);
    CredentialsAreFixed(t);
    HostIsFixed(t);
    ProxyIsFixed(t);
    TokenIsFixed(t);
    Ipv4IsFixed(t);
  }

  /** Redacting once is enough. */
  lemma RedactIsIdempotent(s: string)
    ensures Redact(Redact(s)) == Redact(s)
  {
    RedactIsRedacted(s);
    RedactedIsFixed(Redact(s));
  }

  /** Redaction leaves a text alone exactly when the text has all the forms already. */
  lemma FixedExactlyWhenRedacted(s: string)
    ensures Redact(s) == s <==> Redacted(s)
  {
    if Redact(s) == s { RedactIsRedacted(s); }
    if Redacted(s) { RedactedIsFixed(s); }
  }
}
