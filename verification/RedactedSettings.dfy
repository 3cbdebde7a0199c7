/** What redaction makes of settings and addresses, with the replacements spelled out, and of a whole line. */
module RedactedSettings {
  import opened Text
  import opened Regex
  import opened Rewrite
  import opened Redaction
  import opened RedactionForms
  import opened RedactionWords
  import opened RedactionSplits
  import opened RedactedWords

  // ---- A name and its value ---------------------------------------------------------------------

  /** Letters and underscores, as in the name of a variable. */
  predicate IsVariable(s: string) {
    s != "" && forall k :: 0 <= k < |s| ==> IsLetter(s[k]) || s[k] == '_'
  }

  predicate IsValue(s: string) {
    s != "" && Solid(s)
  }

  /** `t` starts with the name and the delimiter. */
  ghost predicate Sets(t: string, name: string, d: char) {
    |t| > |name| && t[..|name|] == name && t[|name|] == d
  }

  lemma NameChars(t: string, name: string, d: char)
    requires Sets(t, name, d) && IsVariable(name)
    ensures forall x :: 0 <= x < |name| ==> t[x] == name[x] && (IsLetter(t[x]) || t[x] == '_')
  {
    forall x | 0 <= x < |name|
      ensures t[x] == name[x]
    {
      assert t[x] == t[..|name|][x];
    }
  }

  /** A literal with a slash, and without the delimiter, does not start in the name. */
  lemma NoPathInName(lit: string, fold: bool, t: string, name: string, d: char, h: nat)
    requires Sets(t, name, d) && IsVariable(name) && h <= |name| && d == '='
    requires lit != "" && lit[|lit| - 1] == '/' && forall k :: 0 <= k < |lit| ==> lit[k] != '='
    ensures !Spells(lit, fold, t, h)
  {
    NameChars(t, name, d);
    if Spells(lit, fold, t, h) {
      SpelledChar(lit, fold, t, h, h + |lit| - 1);
      if |name| < h + |lit| { SpelledChar(lit, fold, t, h, |name|); }
    }
  }

  /** A rule that finds nothing in the name leaves a setting with the same name and some value. */
  ghost predicate KeepsSetting(rule: Rule, t: string, name: string)
    requires rule.fill != ""
  {
    Sets(Replace(rule, t), name, '=') && IsValue(Replace(rule, t)[|name| + 1..])
  }

  lemma HomeKeepsSetting(t: string, name: string)
    requires Sets(t, name, '=') && IsVariable(name) && IsValue(t[|name| + 1..])
    ensures KeepsSetting(HOME, t, name)
  {
    hide At, Replace, IsVariable, IsValue, KeepsSetting, Word, RunEnd;
    forall h: nat | h <= |name|
      ensures h <= |t| && At(HOME, t, h).NoMatch?
    {
      NoPathInName("/home/", false, t, name, '=', h);
      HomeHits(t, h);
    }
    FillIsSolid(REDACTED);
    NameIsKept(HOME, t, name);
  }

  lemma NoSchemeInName(t: string, name: string, h: nat)
    requires Sets(t, name, '=') && IsVariable(name) && h <= |name|
    ensures SchemeLength(t, h) == 0
  {
    NoPathInName("http://", true, t, name, '=', h);
    NoPathInName("https://", true, t, name, '=', h);
  }

  lemma CredentialsKeepSetting(t: string, name: string)
    requires Sets(t, name, '=') && IsVariable(name) && IsValue(t[|name| + 1..])
    ensures KeepsSetting(CREDENTIALS, t, name)
  {
    hide At, Replace, IsVariable, IsValue, KeepsSetting, SchemeLength, RunEnd;
    forall h: nat | h <= |name|
      ensures h <= |t| && At(CREDENTIALS, t, h).NoMatch?
    {
      NoSchemeInName(t, name, h);
      CredentialsHits(t, h);
    }
    FillIsSolid(REDACTED_AT);
    NameIsKept(CREDENTIALS, t, name);
  }

  lemma HostKeepsSetting(t: string, name: string)
    requires Sets(t, name, '=') && IsVariable(name) && IsValue(t[|name| + 1..])
    ensures KeepsSetting(HOST, t, name)
  {
    hide At, Replace, IsVariable, IsValue, KeepsSetting, SchemeLength, RunEnd, Word;
    forall h: nat | h <= |name|
      ensures h <= |t| && At(HOST, t, h).NoMatch?
    {
      NoSchemeInName(t, name, h);
      HostHits(t, h);
    }
    FillIsSolid(REDACTED_HOST);
    NameIsKept(HOST, t, name);
  }

  lemma FillIsSolid(fill: string)
    requires fill in [REDACTED, REDACTED_AT, REDACTED_HOST]
    ensures Solid(fill)
  {
  }

  lemma NameIsKept(rule: Rule, t: string, name: string)
    requires rule.fill != "" && Solid(rule.fill) && Sets(t, name, '=') && IsValue(t[|name| + 1..])
    requires forall h: nat :: h <= |name| ==> h <= |t| && At(rule, t, h).NoMatch?
    ensures KeepsSetting(rule, t, name)
  {
    hide At, IsValue;
    var e, n := Edits(rule, t), |name| + 1;
    CopiedTo(e, 0, n);
    FromIsValue(e, n);
    assert (t[0..n] + e.From(n))[n..] == e.From(n);
  }

  lemma FromIsValue(e: Edit, i: nat)
    requires e.Fits() && i <= |e.text| && IsValue(e.text[i..]) && Solid(e.fill)
    ensures IsValue(e.From(i))
  {
    ValueIsThere(e.text, i);
    SomethingIsLeft(e, i);
    FromIsSolid(e, i);
  }

  lemma ValueIsThere(t: string, i: nat)
    requires i <= |t| && IsValue(t[i..])
    ensures i < |t| && forall k :: i <= k < |t| ==> !IsSpace(t[k])
  {
    forall k | i <= k < |t|
      ensures !IsSpace(t[k])
    {
      assert t[k] == t[i..][k - i];
    }
  }

  lemma SomethingIsLeft(e: Edit, i: nat)
    requires e.Fits() && i < |e.text|
    ensures e.From(i) != ""
  {
  }

  lemma {:induction false} FromIsSolid(e: Edit, i: nat)
    requires e.Fits() && i <= |e.text| && (forall k :: i <= k < |e.text| ==> !IsSpace(e.text[k])) && Solid(e.fill)
    ensures Solid(e.From(i))
    decreases |e.text| - i
  {
    if i < |e.text| {
      match e.hits[i]
      case NoMatch => FromIsSolid(e, i + 1);
      case Hit(keep, end) => FromIsSolid(e, end);
    }
  }

  // ---- Proxies ----------------------------------------------------------------------------------

  /** `proxy` in any case somewhere in the name. */
  ghost predicate NamesProxy(name: string) {
    exists p: nat :: Spells("proxy", true, name, p)
  }

  lemma ProxyMatchesInName(t: string, name: string, h: nat)
    requires Sets(t, name, '=') && IsVariable(name) && IsValue(t[|name| + 1..])
    requires h <= |name| && At(PROXY, t, h).Hit?
    ensures At(PROXY, t, h) == Hit(|name| + 1, |t|)
  {
    hide At, RunEnd, IsValue;
    NameChars(t, name, '=');
    ProxyHit(t, h);
    var q: nat := At(PROXY, t, h).keep - 1;
    if h + 5 > |name| { SpelledChar("proxy", true, t, h, |name|); }
    assert q == |name|;
    ValueIsThere(t, |name| + 1);
    RunsToEnd(Except(""), t, |name| + 1);
  }

  lemma RunsToEnd(k: CharSet, t: string, i: nat)
    requires i <= |t| && forall x :: i <= x < |t| ==> k.Has(t[x])
    ensures RunEnd(k, t, i) == |t|
  {
    RunsEndTogether(k, t, i, |t|);
  }

  lemma ProxyIsReplaced(t: string, name: string)
    requires Sets(t, name, '=') && IsVariable(name) && NamesProxy(name) && IsValue(t[|name| + 1..])
    ensures Replace(PROXY, t) == name + "=" + "[redacted]"
  {
    hide At, Replace, IsVariable, IsValue;
    var p: nat :| Spells("proxy", true, name, p);
    NameSpells(t, name, p);
    ValueIsThere(t, |name| + 1);
    NoEqualsInName(t, name);
    assert ProxyOpens(t, p, |name|);
    ProxyIsHit(t, p, |name|);
    forall k: nat | k < |name| + 1 && At(PROXY, t, k).Hit?
      ensures At(PROXY, t, k) == Hit(|name| + 1, |t|)
    {
      ProxyMatchesInName(t, name, k);
    }
    ReplaceCutsAt(PROXY, t, p, |name| + 1);
    SettingStarts(t, name, '=');
  }

  lemma NameSpells(t: string, name: string, p: nat)
    requires Sets(t, name, '=') && Spells("proxy", true, name, p)
    ensures Spells("proxy", true, t, p) && p + 5 <= |name|
  {
    assert t == name + t[|name|..];
    PrefixSpells("proxy", true, name, t[|name|..], p);
  }

  lemma NoEqualsInName(t: string, name: string)
    requires Sets(t, name, '=') && IsVariable(name)
    ensures forall x :: 0 <= x < |name| ==> Except("=").Has(t[x])
  {
    NameChars(t, name, '=');
  }

  lemma SettingStarts(t: string, name: string, d: char)
    requires Sets(t, name, d)
    ensures t[..|name| + 1] == name + [d]
  {
    assert t[..|name| + 1] == t[..|name|] + [t[|name|]];
  }

  /** The value of a proxy setting is replaced, whatever it is. */
  lemma ProxySetting(name: string, value: string)
    requires IsVariable(name) && NamesProxy(name) && IsValue(value)
    ensures Redact(name + "=" + value) == name + "=" + "[redacted]"
  {
    hide Replace, IsVariable, IsValue, NamesProxy, Sets;
    var t := name + "=" + value;
    SettingIsSet(name, "=", value);
    var v1 := Replace(HOME, t);
    HomeKeepsSetting(t, name);
    var v2 := Replace(CREDENTIALS, v1);
    CredentialsKeepSetting(v1, name);
    var v3 := Replace(HOST, v2);
    HostKeepsSetting(v2, name);
    ProxyIsReplaced(v3, name);
    MarkedSettingStays(name, "=");
  }

  lemma SettingIsSet(name: string, d: string, value: string)
    requires |d| == 1
    ensures Sets(name + d + value, name, d[0]) && (name + d + value)[|name| + 1..] == value
  {
  }

  lemma MarkedChars(name: string, d: string)
    requires IsVariable(name) && d in ["=", ":"]
    ensures var t := name + d + "[redacted]";
            && (forall x :: 0 <= x < |t| ==> !IsDigit(t[x]))
            && (forall x :: 0 <= x < |t| && t[x] in "=:" ==> x == |name| && x + 1 < |t| && t[x + 1] == '[')
  {
    var t := name + d + "[redacted]";
    forall x | 0 <= x < |t|
      ensures !IsDigit(t[x]) && (t[x] in "=:" ==> x == |name|)
    {
      if x < |name| {
        assert t[x] == name[x];
      } else if x > |name| {
        assert t[x] == "[redacted]"[x - |name| - 1];
      }
    }
  }

  /** The last two passes find nothing in a setting whose value is replaced. */
  lemma MarkedSettingStays(name: string, d: string)
    requires IsVariable(name) && d in ["=", ":"]
    ensures var t := name + d + "[redacted]"; Replace(IPV4, Replace(TOKEN, t)) == t && Replace(TOKEN, t) == t
  {
    hide Replace, IsVariable, At, WordEnds;
    var t := name + d + "[redacted]";
    MarkedChars(name, d);
    forall p: nat, g: nat | WordEnds(KEYWORDS, t, p, g)
      ensures Stops(TOKEN_CHARS, t, g)
    {
      var x := KeywordLast(t, p, g);
    }
    TokenIsFixed(t);
    NoDigitsNoQuad(t);
    Ipv4IsFixed(t);
  }

  // ---- Tokens -----------------------------------------------------------------------------------

  predicate IsTokenText(s: string) {
    s != "" && forall k :: 0 <= k < |s| ==> IsLetter(s[k]) || IsDigit(s[k]) || s[k] in "._~+/-"
  }

  /** The name ends in one of the six words, in any case. */
  ghost predicate NamesSecret(name: string) {
    || EndsIn(name, "token") || EndsIn(name, "password") || EndsIn(name, "passwd")
    || EndsIn(name, "secret") || EndsIn(name, "apikey") || EndsIn(name, "api_key")
  }

  predicate EndsIn(name: string, word: string) {
    |word| <= |name| && Spells(word, true, name, |name| - |word|)
  }

  lemma SecretKeyword(name: string) returns (w: nat)
    requires NamesSecret(name)
    ensures w < |KEYWORDS| && EndsIn(name, KEYWORDS[w])
  {
    w := if EndsIn(name, "token") then 0 else if EndsIn(name, "password") then 1 else if EndsIn(name, "passwd") then 2
         else if EndsIn(name, "secret") then 3 else if EndsIn(name, "apikey") then 4 else 5;
  }

  lemma TokenText(name: string, d: string, value: string)
    requires IsVariable(name) && d in ["=", ":"] && IsTokenText(value)
    ensures var t := name + d + value;
      && Sets(t, name, d[0])
      && (forall x :: 0 <= x < |t| && t[x] in "=:" ==> x == |name|)
      && (forall x :: |name| < x < |t| ==> TOKEN_CHARS.Has(t[x]) && !IsSpace(t[x]))
  {
    var t := name + d + value;
    SettingIsSet(name, d, value);
    forall x | 0 <= x < |t|
      ensures t[x] in "=:" ==> x == |name|
      ensures x > |name| ==> TOKEN_CHARS.Has(t[x]) && !IsSpace(t[x])
    {
      if x < |name| {
        assert t[x] == name[x];
      } else if x > |name| {
        assert t[x] == value[x - |name| - 1];
      }
    }
  }

  /** There is no scheme: the colon of one stands behind a `p` or an `s`, and the delimiter behind a keyword. */
  lemma NoSchemeInToken(name: string, d: string, value: string, h: nat)
    requires IsVariable(name) && NamesSecret(name) && d in ["=", ":"] && IsTokenText(value)
    ensures SchemeLength(name + d + value, h) == 0
  {
    hide NamesSecret, IsVariable, IsTokenText;
    var t := name + d + value;
    TokenText(name, d, value);
    SecretLast(name);
    NameLast(t, name, d[0]);
    if Spells("http://", true, t, h) { ColonOfScheme("http://", t, h, 4); }
    if Spells("https://", true, t, h) { ColonOfScheme("https://", t, h, 5); }
  }

  lemma ColonOfScheme(lit: string, t: string, h: nat, k: nat)
    requires Spells(lit, true, t, h) && 0 < k < |lit|
    ensures h + k < |t| && Lower(t[h + k - 1]) == lit[k - 1] && Lower(t[h + k]) == lit[k]
  {
    SpelledChar(lit, true, t, h, h + k - 1);
    SpelledChar(lit, true, t, h, h + k);
  }

  lemma NameLast(t: string, name: string, d: char)
    requires Sets(t, name, d) && name != ""
    ensures t[|name| - 1] == name[|name| - 1]
  {
    assert t[|name| - 1] == t[..|name|][|name| - 1];
  }

  lemma SecretLast(name: string)
    requires NamesSecret(name)
    ensures name != "" && Lower(name[|name| - 1]) in "ndty"
  {
    var w := SecretKeyword(name);
    LastOfKeyword(w);
    SpelledChar(KEYWORDS[w], true, name, |name| - |KEYWORDS[w]|, |name| - 1);
  }

  lemma NoUrlInToken(name: string, d: string, value: string)
    requires IsVariable(name) && NamesSecret(name) && d in ["=", ":"] && IsTokenText(value)
    ensures var t := name + d + value; Replace(CREDENTIALS, t) == t && Replace(HOST, t) == t
  {
    hide Replace, At, IsVariable, NamesSecret, IsTokenText, SchemeLength, RunEnd;
    var t := name + d + value;
    forall h: nat | h < |t|
      ensures At(CREDENTIALS, t, h).NoMatch? && At(HOST, t, h).NoMatch?
    {
      NoSchemeInToken(name, d, value, h);
      CredentialsHits(t, h);
      HostHits(t, h);
    }
    NothingToReplace(CREDENTIALS, t);
    NothingToReplace(HOST, t);
  }

  /** The proxy pass leaves the setting as it is, or replaces its value already. */
  lemma ProxyPassOnToken(name: string, d: string, value: string)
    requires IsVariable(name) && d in ["=", ":"] && IsTokenText(value)
    ensures Replace(PROXY, name + d + value) in [name + d + value, name + d + "[redacted]"]
  {
    hide Replace, At, IsVariable, IsValue, IsTokenText;
    var t := name + d + value;
    TokenText(name, d, value);
    TokenIsValue(value);
    SettingIsSet(name, d, value);
    if h: nat :| h < |t| && At(PROXY, t, h).Hit? {
      ProxyHit(t, h);
      assert d == "=" && h <= |name|;
      forall k: nat | k < |name| + 1 && At(PROXY, t, k).Hit?
        ensures At(PROXY, t, k) == Hit(|name| + 1, |t|)
      {
        ProxyMatchesInName(t, name, k);
      }
      ReplaceCutsAt(PROXY, t, h, |name| + 1);
      SettingStarts(t, name, '=');
    } else {
      NothingToReplace(PROXY, t);
    }
  }

  lemma TokenIsValue(value: string)
    requires IsTokenText(value)
    ensures IsValue(value)
  {
  }

  lemma TokenIsReplaced(name: string, d: string, value: string)
    requires IsVariable(name) && NamesSecret(name) && d in ["=", ":"] && IsTokenText(value)
    ensures Replace(TOKEN, name + d + value) == name + d + "[redacted]"
  {
    hide Replace, At, IsVariable, NamesSecret, IsTokenText, WordEnds, RunEnd, AnyOf, Word;
    var t, n := name + d + value, |name| + 1;
    TokenText(name, d, value);
    var w := SecretKeyword(name);
    var p: nat := |name| - |KEYWORDS[w]|;
    KeywordEndsName(t, name, d[0], w);
    TokenTextIsThere(name, d, value);
    TokenIsHit(KEYWORDS, TOKEN, t, p, n);
    forall k: nat | k < n && At(TOKEN, t, k).Hit?
      ensures At(TOKEN, t, k) == Hit(n, |t|)
    {
      TokenHits(t, k);
      var x := KeywordLast(t, k, At(TOKEN, t, k).keep);
      RunsToEnd(TOKEN_CHARS, t, n);
    }
    ReplaceCutsAt(TOKEN, t, p, n);
    SettingStarts(t, name, d[0]);
  }

  lemma TokenTextIsThere(name: string, d: string, value: string)
    requires |d| == 1 && IsTokenText(value)
    ensures |name| + 1 < |name + d + value|
  {
  }

  lemma KeywordEndsName(t: string, name: string, d: char, w: nat)
    requires Sets(t, name, d) && d in "=:" && w < |KEYWORDS| && EndsIn(name, KEYWORDS[w]) && |t| > |name|
    ensures |KEYWORDS[w]| > 0 && WordEnds(KEYWORDS, t, |name| - |KEYWORDS[w]|, |name| + 1)
  {
    LastOfKeyword(w);
    assert t == name + t[|name|..];
    PrefixSpells(KEYWORDS[w], true, name, t[|name|..], |name| - |KEYWORDS[w]|);
  }

  /** A token behind one of the six words is replaced, if no home directory is in it. */
  lemma TokenSetting(name: string, d: string, value: string)
    requires IsVariable(name) && NamesSecret(name) && d in ["=", ":"] && IsTokenText(value)
    requires HomeForm(name + d + value)
    ensures Redact(name + d + value) == name + d + "[redacted]"
  {
    hide Replace, IsVariable, NamesSecret, IsTokenText, Form;
    HomeIsFixed(name + d + value);
    NoUrlInToken(name, d, value);
    ProxyPassOnToken(name, d, value);
    TokenIsReplaced(name, d, value);
    MarkedSettingStays(name, d);
  }

  /** A character that ends a token and starts nothing else. */
  predicate EndsToken(c: char) {
    !IsSpace(c) && !IsLetter(c) && !IsDigit(c) && c !in "._~+/-" && c !in "=:"
  }

  lemma EndedText(name: string, d: string, value: string, c: char)
    requires IsVariable(name) && d in ["=", ":"] && IsTokenText(value) && EndsToken(c)
    ensures var (t, n) := (name + d + value + [c], |name| + 1);
      && Sets(t, name, d[0]) && |t| == n + |value| + 1 && t[..n] == name + d && t[n + |value|..] == [c]
      && (forall x :: 0 <= x < |t| && t[x] in "=:" ==> x == |name|)
      && (forall x :: n <= x < n + |value| ==> TOKEN_CHARS.Has(t[x])) && !TOKEN_CHARS.Has(t[n + |value|])
  {
    var t, n := name + d + value + [c], |name| + 1;
    TokenText(name, d, value);
    forall x | 0 <= x < |t| - 1
      ensures t[x] == (name + d + value)[x]
    {
    }
  }

  lemma EndedPasses(name: string, d: string, value: string, c: char)
    requires IsVariable(name) && NamesSecret(name) && !NamesProxy(name) && d in ["=", ":"]
    requires IsTokenText(value) && EndsToken(c)
    ensures var t := name + d + value + [c]; Replace(PROXY, Replace(HOST, Replace(CREDENTIALS, t))) == t
  {
    hide Replace, At, IsVariable, NamesSecret, NamesProxy, IsTokenText, EndsToken, SchemeLength, RunEnd;
    var t := name + d + value + [c];
    EndedText(name, d, value, c);
    SecretLast(name);
    NameLast(t, name, d[0]);
    forall h: nat | h < |t|
      ensures At(CREDENTIALS, t, h).NoMatch? && At(HOST, t, h).NoMatch? && At(PROXY, t, h).NoMatch?
    {
      NoSchemeBehindKeyword(t, |name|, h);
      CredentialsHits(t, h);
      HostHits(t, h);
      if At(PROXY, t, h).Hit? { ProxyInName(t, name, h); }
    }
    NothingToReplace(CREDENTIALS, t);
    NothingToReplace(HOST, t);
    NothingToReplace(PROXY, t);
  }

  lemma NoSchemeBehindKeyword(t: string, n: nat, h: nat)
    requires 0 < n < |t| && Lower(t[n - 1]) in "ndty" && forall x :: 0 <= x < |t| && t[x] in "=:" ==> x == n
    ensures SchemeLength(t, h) == 0
  {
    if Spells("http://", true, t, h) { ColonOfScheme("http://", t, h, 4); }
    if Spells("https://", true, t, h) { ColonOfScheme("https://", t, h, 5); }
  }

  lemma ProxyInName(t: string, name: string, h: nat)
    requires h < |t| && At(PROXY, t, h).Hit? && |t| > |name| && t[..|name|] == name
    requires forall x :: 0 <= x < |t| && t[x] in "=:" ==> x == |name|
    ensures NamesProxy(name)
  {
    hide At, RunEnd;
    ProxyHit(t, h);
    assert t == name + t[|name|..];
    PrefixSpells("proxy", true, name, t[|name|..], h);
  }

  /** Behind the token the text goes on. */
  lemma TokenStops(name: string, d: string, value: string, c: char)
    requires IsVariable(name) && NamesSecret(name) && !NamesProxy(name) && d in ["=", ":"]
    requires IsTokenText(value) && EndsToken(c) && HomeForm(name + d + value + [c])
    ensures Redact(name + d + value + [c]) == name + d + "[redacted]" + [c]
  {
    hide Replace, IsVariable, NamesSecret, NamesProxy, IsTokenText, EndsToken, Form;
    HomeIsFixed(name + d + value + [c]);
    EndedPasses(name, d, value, c);
    EndedIsReplaced(name, d, value, c);
    MarkedEndStays(name, d, c);
  }

  lemma EndedHit(name: string, d: string, value: string, c: char, k: nat)
    requires IsVariable(name) && d in ["=", ":"] && IsTokenText(value) && EndsToken(c)
    requires var t := name + d + value + [c]; k < |t| && At(TOKEN, t, k).Hit?
    ensures k <= |name| && At(TOKEN, name + d + value + [c], k) == Hit(|name| + 1, |name| + 1 + |value|)
  {
    hide At, IsVariable, IsTokenText, EndsToken, WordEnds, RunEnd;
    var t, n := name + d + value + [c], |name| + 1;
    EndedText(name, d, value, c);
    TokenHits(t, k);
    var x := KeywordLast(t, k, At(TOKEN, t, k).keep);
    RunsEndTogether(TOKEN_CHARS, t, n, n + |value|);
    RunStops(TOKEN_CHARS, t, n + |value|);
  }

  lemma RunStops(k: CharSet, t: string, i: nat)
    requires i < |t| && !k.Has(t[i])
    ensures RunEnd(k, t, i) == i
  {
  }

  lemma EndedIsReplaced(name: string, d: string, value: string, c: char)
    requires IsVariable(name) && NamesSecret(name) && d in ["=", ":"] && IsTokenText(value) && EndsToken(c)
    ensures Replace(TOKEN, name + d + value + [c]) == name + d + "[redacted]" + [c]
  {
    hide At, IsVariable, NamesSecret, IsTokenText, EndsToken, WordEnds, RunEnd, AnyOf, Word;
    var t, n := name + d + value + [c], |name| + 1;
    var end, e := n + |value|, Edits(TOKEN, t);
    EndedText(name, d, value, c);
    var w := SecretKeyword(name);
    KeywordEndsName(t, name, d[0], w);
    ValueIsSome(value);
    TokenIsHit(KEYWORDS, TOKEN, t, |name| - |KEYWORDS[w]|, n);
    forall k: nat | k < |t| && At(TOKEN, t, k).Hit?
      ensures k < n && At(TOKEN, t, k) == Hit(n, end)
    {
      EndedHit(name, d, value, c, k);
    }
    CutBefore(e, 0, |name| - |KEYWORDS[w]|, n, end);
    CopiedTo(e, end, |t|);
    assert t[end..|t|] == t[end..];
    assert t[0..n] == t[..n] && [c] + "" == [c];
  }

  lemma ValueIsSome(value: string)
    requires IsTokenText(value)
    ensures |value| > 0
  {
  }

  lemma MarkedEndStays(name: string, d: string, c: char)
    requires IsVariable(name) && d in ["=", ":"] && EndsToken(c)
    ensures var t := name + d + "[redacted]" + [c]; Replace(IPV4, t) == t
  {
    hide Replace;
    var t := name + d + "[redacted]" + [c];
    MarkedChars(name, d);
    forall x | 0 <= x < |t|
      ensures !IsDigit(t[x])
    {
      if x < |t| - 1 { assert t[x] == (name + d + "[redacted]")[x]; }
    }
    NoDigitsNoQuad(t);
    Ipv4IsFixed(t);
  }

  // ---- Addresses --------------------------------------------------------------------------------

  lemma NumberEndsAlike(s: string, i: nat, a: nat, b: nat)
    requires Number(s, i, a) && Number(s, i, b) && (a < |s| ==> !IsDigit(s[a])) && (b < |s| ==> !IsDigit(s[b]))
    ensures a == b
  {
  }

  lemma DotsAlike(s: string, i: nat, a: nat, b: nat)
    requires NumberDot(s, i, a) && NumberDot(s, i, b)
    ensures a == b
  {
  }

  lemma QuadEndsAlike(s: string, i: nat, e: nat, f: nat)
    requires IsQuad(s, i, e) && IsQuad(s, i, f) && !WordAt(s, e) && !WordAt(s, f)
    ensures e == f
  {
    hide NumberDot, Number;
    var a: nat, b: nat, c: nat :| NumberDot(s, i, a) && NumberDot(s, a, b) && NumberDot(s, b, c) && Number(s, c, e);
    var x: nat, y: nat, z: nat :| NumberDot(s, i, x) && NumberDot(s, x, y) && NumberDot(s, y, z) && Number(s, z, f);
    DotsAlike(s, i, a, x);
    DotsAlike(s, a, b, y);
    DotsAlike(s, b, c, z);
    NumberEndsAlike(s, c, e, f);
  }

  lemma AddressIsHit(t: string)
    requires IsQuad(t, 0, |t|)
    ensures At(IPV4, t, 0) == Hit(0, |t|)
  {
    hide At, IsQuad, Regex.Matches;
    QuadExactly(t, 0, |t|);
    AddressMatches(t);
    QuadHit(t, 0);
    QuadExactly(t, 0, At(IPV4, t, 0).end);
    QuadEndsAlike(t, 0, |t|, At(IPV4, t, 0).end);
  }

  lemma AddressMatches(t: string)
    requires IsQuad(t, 0, |t|)
    ensures Regex.Matches(QUAD, t, 0, |t|) && At(IPV4, t, 0).Hit?
  {
    hide At, IsQuad;
    QuadExactly(t, 0, |t|);
    MatchIsHit(IPV4, t, 0, 0, |t|);
  }

  /** An address is replaced. */
  lemma AddressAlone(t: string)
    requires IsQuad(t, 0, |t|)
    ensures Redact(t) == "[redacted-ip]"
  {
    hide Replace, IsQuad, Regex.Matches;
    AddressMatches(t);
    QuadMatches(t, 0, |t|);
    NothingElseInQuad(t);
    AddressIsReplaced(t);
  }

  lemma AddressIsReplaced(t: string)
    requires IsQuad(t, 0, |t|) && t != ""
    ensures Replace(IPV4, t) == "[redacted-ip]"
  {
    hide Replace, At, IsQuad;
    AddressIsHit(t);
    OnlyHit(IPV4, t);
  }

  lemma OnlyHit(rule: Rule, t: string)
    requires rule.fill != "" && t != "" && At(rule, t, 0) == Hit(0, |t|)
    ensures Replace(rule, t) == rule.fill
  {
    hide At;
    FirstHit(rule, t, 0, |t|);
    assert t[..0] + rule.fill + "" == rule.fill;
  }

  lemma NothingElseInQuad(t: string)
    requires forall j :: 0 <= j < |t| ==> IsDigit(t[j]) || t[j] == '.'
    ensures Replace(TOKEN, Replace(PROXY, Replace(HOST, Replace(CREDENTIALS, Replace(HOME, t))))) == t
  {
    hide Replace, At, SchemeLength, WordEnds, RunEnd;
    forall h: nat | h < |t|
      ensures At(HOME, t, h).NoMatch? && At(CREDENTIALS, t, h).NoMatch? && At(HOST, t, h).NoMatch?
      ensures At(PROXY, t, h).NoMatch? && At(TOKEN, t, h).NoMatch?
    {
      NoPathInQuad(t, h);
      NoSettingInQuad(t, h);
    }
    NothingToReplace(HOME, t);
    NothingToReplace(CREDENTIALS, t);
    NothingToReplace(HOST, t);
    NothingToReplace(PROXY, t);
    NothingToReplace(TOKEN, t);
  }

  lemma NoPathInQuad(t: string, h: nat)
    requires h < |t| && forall j :: 0 <= j < |t| ==> IsDigit(t[j]) || t[j] == '.'
    ensures At(HOME, t, h).NoMatch? && At(CREDENTIALS, t, h).NoMatch? && At(HOST, t, h).NoMatch?
  {
    hide At, RunEnd, SchemeLength, Spells;
    NoLiteralInQuad(t, h);
    HomeHits(t, h);
    CredentialsHits(t, h);
    HostHits(t, h);
  }

  lemma NoLiteralInQuad(t: string, h: nat)
    requires h < |t| && forall j :: 0 <= j < |t| ==> IsDigit(t[j]) || t[j] == '.'
    ensures !Spells("/home/", false, t, h) && SchemeLength(t, h) == 0
  {
    if Spells("/home/", false, t, h) { SpelledChar("/home/", false, t, h, h); }
    if Spells("http://", true, t, h) { SpelledChar("http://", true, t, h, h); }
    if Spells("https://", true, t, h) { SpelledChar("https://", true, t, h, h); }
  }

  lemma NoSettingInQuad(t: string, h: nat)
    requires h < |t| && forall j :: 0 <= j < |t| ==> IsDigit(t[j]) || t[j] == '.'
    ensures At(PROXY, t, h).NoMatch? && At(TOKEN, t, h).NoMatch?
  {
    hide At, RunEnd, WordEnds;
    if At(PROXY, t, h).Hit? { ProxyHit(t, h); }
    if At(TOKEN, t, h).Hit? {
      TokenHits(t, h);
      var x := KeywordLast(t, h, At(TOKEN, t, h).keep);
    }
  }

  // ---- A line -----------------------------------------------------------------------------------

  /** The host of a line of package sources is replaced, and everything else of the line stays. */
  lemma SourceLine(scheme: string, host: string, path: string, rest: string)
    requires IsScheme(scheme) && IsComponent(host) && IsPath(path) && PlainPath(path)
    requires forall p: nat :: !Spells("/home/", false, scheme + host + path, p)
    requires Redacted(rest)
    ensures Redact("deb" + " " + (scheme + host + path + " " + rest)) ==
              "deb" + " " + (scheme + "[redacted-host]" + path + " " + rest)
  {
    hide Redact, Redacted, IsScheme, IsComponent, IsPath, PlainPath;
    var url := scheme + host + path;
    RedactSplits("deb", ' ', url + " " + rest);
    RedactSplits(url, ' ', rest);
    DebIsRedacted("deb");
    RedactedIsFixed("deb");
    PlainUrl(scheme, host, path);
    RedactedIsFixed(rest);
  }

  lemma DebIsRedacted(t: string)
    requires t == "deb"
    ensures Redacted(t)
  {
    NothingToRedact(t);
  }
}
