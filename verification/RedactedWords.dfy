/** What redaction makes of a single word of each kind, with the replacements spelled out. */
module RedactedWords {
  import opened Text
  import opened Regex
  import opened Rewrite
  import opened Redaction
  import opened RedactionForms
  import opened RedactionWords
  import opened RedactionSplits

  // ---- Scans in steps ---------------------------------------------------------------------------

  /** What no match starts in is copied. */
  lemma {:induction false} CopiedTo(e: Edit, p: nat, q: nat)
    requires e.Fits() && p <= q <= |e.text| && forall h :: p <= h < q ==> e.hits[h].NoMatch?
    ensures e.From(p) == e.text[p..q] + e.From(q)
    decreases q - p
  {
    if p < q {
      CopiedTo(e, p + 1, q);
      FirstOfSlice(e.text, p, q - p);
      FrontChar(e.text[p], e.text[p + 1..q], e.From(q));
    } else {
      assert e.text[p..q] + e.From(q) == e.From(q);
    }
  }

  /** The rest of a text is replaced like a text of its own, as far as `\b` does not matter. */
  lemma RestIsReplaced(rule: Rule, t: string, i: nat)
    requires SolidRule(rule) && !HasBoundary(rule.group) && !HasBoundary(rule.rest) && rule.fill != "" && i <= |t|
    ensures Edits(rule, t).From(i) == Replace(rule, t[i..])
  {
    hide At, SolidRule;
    var rest := t[i..];
    forall k: nat | k < |rest|
      ensures At(rule, t, i + k) == Moved(At(rule, rest, k), i)
    {
      AtMoves(rule, t, i, |t|, i + k);
      assert t[i..|t|] == rest;
    }
    TailFrom(Edits(rule, t), Edits(rule, rest), i, 0);
  }

  /** A match at the start: its group, the replacement, and the rest. */
  lemma FirstHit(rule: Rule, t: string, keep: nat, end: nat)
    requires rule.fill != "" && t != "" && keep <= end <= |t| && At(rule, t, 0) == Hit(keep, end)
    ensures Replace(rule, t) == t[..keep] + rule.fill + Edits(rule, t).From(end)
  {
    hide At;
    assert t[0..keep] == t[..keep];
  }

  lemma NoFirstHit(rule: Rule, t: string)
    requires rule.fill != "" && t != "" && At(rule, t, 0) == NoMatch
    ensures Replace(rule, t) == [t[0]] + Edits(rule, t).From(1)
  {
    hide At;
  }

  /** Without a match a text stays what it is. */
  lemma NothingToReplace(rule: Rule, t: string)
    requires rule.fill != "" && forall h: nat :: h < |t| ==> At(rule, t, h).NoMatch?
    ensures Replace(rule, t) == t
  {
    hide At;
    ReplaceFixes(rule, t);
  }

  /** Of matches that keep and take the same, the leftmost counts. */
  lemma {:induction false} CutBefore(e: Edit, p: nat, h: nat, n: nat, end: nat)
    requires e.Fits() && p <= h < n <= end <= |e.text| && e.hits[h].Hit?
    requires forall k :: p <= k < n && e.hits[k].Hit? ==> e.hits[k] == Hit(n, end)
    ensures e.From(p) == e.text[p..n] + e.fill + e.From(end)
    decreases h - p
  {
    hide Edit.From;
    FromSteps(e, p);
    if e.hits[p].NoMatch? {
      CutBefore(e, p + 1, h, n, end);
      FirstOfSlice(e.text, p, n - p);
      FrontFour(e.text[p], e.text[p + 1..n], e.fill, e.From(end));
    }
  }

  lemma FrontFour(c: char, a: string, b: string, rest: string)
    ensures [c] + (a + b + rest) == ([c] + a) + b + rest
  {
  }

  /** If whatever matches matches up to the end and keeps `n` characters, that is what is left. */
  lemma ReplaceCutsAt(rule: Rule, t: string, h: nat, n: nat)
    requires rule.fill != "" && h < n <= |t| && At(rule, t, h).Hit?
    requires forall k: nat :: k < n && At(rule, t, k).Hit? ==> At(rule, t, k) == Hit(n, |t|)
    ensures Replace(rule, t) == t[..n] + rule.fill
  {
    hide At;
    CutBefore(Edits(rule, t), 0, h, n, |t|);
    assert t[0..n] == t[..n] && t[..n] + rule.fill + "" == t[..n] + rule.fill;
  }

  /** One character of a literal that is there. */
  lemma SpelledChar(lit: string, fold: bool, t: string, p: nat, x: nat)
    requires Spells(lit, fold, t, p) && p <= x < p + |lit|
    ensures Folded(fold, t[x]) == lit[x - p]
  {
    assert Folded(fold, t[p + (x - p)]) == lit[x - p];
  }

  // ---- Home directories -------------------------------------------------------------------------

  /** A path component. */
  predicate IsComponent(s: string) {
    s != "" && forall k :: 0 <= k < |s| ==> !IsSpace(s[k]) && s[k] != '/'
  }

  /** The rest of a path: nothing, or a slash and more. */
  predicate IsRest(s: string) {
    s == "" || s[0] == '/'
  }

  lemma ComponentRuns(front: string, name: string, rest: string)
    requires IsComponent(name) && IsRest(rest)
    ensures var t := front + name + rest; RunEnd(SLASH, t, |front|) == |front| + |name|
    ensures var t := front + name + rest; |front| < |t| && SLASH.Has(t[|front|])
  {
    var t, n := front + name + rest, |front|;
    assert forall k :: n <= k < n + |name| ==> t[k] == name[k - n];
    RunsEndTogether(SLASH, t, n, n + |name|);
  }

  /** The first pass replaces the name and works on the rest by itself. */
  lemma HomeIsReplaced(home: string, name: string, rest: string)
    requires home == "/home/" && IsComponent(name) && IsRest(rest)
    ensures Replace(HOME, home + name + rest) == home + "[redacted]" + Replace(HOME, rest)
  {
    hide RunEnd, SolidRule, At, Replace, IsComponent;
    var t := home + name + rest;
    ComponentRuns(home, name, rest);
    assert Spells(home, false, t, 0);
    HomeHits(t, 0);
    HomeIsSolid();
    var end := 6 + |name|;
    RestIsReplaced(HOME, t, end);
    assert t[end..] == rest;
    assert t[..6] == home;
    FirstHit(HOME, t, 6, end);
  }

  /** The name of a home directory is replaced, and the path behind it stays if it asks for nothing more. */
  lemma HomeWord(home: string, name: string, rest: string)
    requires home == "/home/" && IsComponent(name) && IsRest(rest)
    requires Redacted(home + "[redacted]" + rest)
    ensures Redact(home + name + rest) == home + "[redacted]" + rest
  {
    hide Replace, Form, ProxyForm, TokenForm, Ipv4Form, IsComponent;
    HomeIsReplaced(home, name, rest);
    SuffixHasForm("/home/", false, REDACTED, home + "[redacted]", rest);
    HomeIsFixed(rest);
    LaterPassesLeave(home + "[redacted]" + rest);
  }

  lemma SuffixHasForm(lit: string, fold: bool, fill: string, front: string, rest: string)
    requires Form(lit, fold, fill, front + rest)
    ensures Form(lit, fold, fill, rest)
  {
    var t, n := front + rest, |front|;
    forall p | 0 <= p < |rest| && Spells(lit, fold, rest, p)
      ensures Done(SLASH, fill, rest, p + |lit|)
    {
      SuffixSpells(lit, fold, front, rest, p);
      assert Done(SLASH, fill, t, n + p + |lit|);
      SuffixDone(SLASH, fill, front, rest, p + |lit|);
    }
  }

  lemma SuffixSpells(lit: string, fold: bool, front: string, rest: string, p: nat)
    ensures Spells(lit, fold, front + rest, |front| + p) <==> Spells(lit, fold, rest, p)
  {
    var t, n := front + rest, |front|;
    forall k | 0 <= k < |lit| && p + k < |rest|
      ensures Folded(fold, t[n + p + k]) == lit[k] <==> Folded(fold, rest[p + k]) == lit[k]
    {
      assert t[n + (p + k)] == rest[p + k];
    }
  }

  lemma SuffixDone(k: CharSet, fill: string, front: string, rest: string, q: nat)
    ensures Done(k, fill, front + rest, |front| + q) <==> Done(k, fill, rest, q)
  {
    var t, n, m := front + rest, |front|, |fill|;
    if q + m <= |rest| { assert t[n + q..n + q + m] == rest[q..q + m]; }
  }

  lemma LaterPassesLeave(t: string)
    requires Redacted(t)
    ensures Replace(IPV4, Replace(TOKEN, Replace(PROXY, Replace(HOST, Replace(CREDENTIALS, t))))) == t
  {
    hide Replace;
    CredentialsAreFixed(t);
    HostIsFixed(t);
    ProxyIsFixed(t);
    TokenIsFixed(t);
    Ipv4IsFixed(t);
  }

  /** A home directory by itself. */
  lemma HomeAlone(home: string, name: string)
    requires home == "/home/" && IsComponent(name)
    ensures Redact(home + name) == home + "[redacted]"
  {
    hide Redacted, Redact, IsComponent;
    assert home + name + "" == home + name && home + "[redacted]" + "" == home + "[redacted]";
    HomeMarkIsRedacted(home + "[redacted]");
    HomeWord(home, name, "");
  }

  lemma HomeMarkIsRedacted(t: string)
    requires t == "/home/[redacted]"
    ensures Redacted(t)
  {
    forall p | 0 <= p < |t| && Spells("/home/", false, t, p)
      ensures Done(SLASH, REDACTED, t, p + 6)
    {
      SpelledChar("/home/", false, t, p, p + 5);
      assert p == 0;
      assert t[6..16] == REDACTED;
    }
    NothingToRedact(t);
  }

  /** Text without `=`, `:` and digits that has the home form has all forms. */
  lemma NothingToRedact(text: string)
    requires '=' !in text && ':' !in text && forall i :: 0 <= i < |text| ==> !IsDigit(text[i])
    requires HomeForm(text)
    ensures Redacted(text)
  {
    NoDigitsNoQuad(text);
    NoColonNoLiteral("http://", text, 4);
    NoColonNoLiteral("https://", text, 5);
  }

  lemma NoDigitsNoQuad(text: string)
    requires forall i :: 0 <= i < |text| ==> !IsDigit(text[i])
    ensures Ipv4Form(text)
  {
    forall p: nat, x: nat | p <= x <= |text|
      ensures !Regex.Matches(QUAD, text, p, x)
    {
      if Regex.Matches(QUAD, text, p, x) { QuadMatches(text, p, x); }
    }
  }

  lemma NoColonNoLiteral(lit: string, text: string, k: nat)
    requires k < |lit| && lit[k] == ':' && ':' !in text
    ensures forall p: nat :: !Spells(lit, true, text, p)
  {
    forall p: nat
      ensures !Spells(lit, true, text, p)
    {
      if p + |lit| <= |text| { assert Folded(true, text[p + k]) != lit[k]; }
    }
  }

  // ---- Hosts and credentials --------------------------------------------------------------------

  /** `http://` or `https://` in any case. */
  predicate IsScheme(scheme: string) {
    || (|scheme| == 7 && Spells("http://", true, scheme, 0))
    || (|scheme| == 8 && Spells("https://", true, scheme, 0))
  }

  lemma PrefixSpells(lit: string, fold: bool, front: string, rest: string, p: nat)
    requires p + |lit| <= |front|
    ensures Spells(lit, fold, front + rest, p) <==> Spells(lit, fold, front, p)
  {
    forall k | 0 <= k < |lit|
      ensures Folded(fold, (front + rest)[p + k]) == lit[k] <==> Folded(fold, front[p + k]) == lit[k]
    {
      assert (front + rest)[p + k] == front[p + k];
    }
  }

  lemma SchemeInFront(scheme: string, rest: string)
    requires IsScheme(scheme)
    ensures SchemeLength(scheme + rest, 0) == |scheme|
  {
    PrefixSpells("http://", true, scheme, rest, 0);
    if |scheme| == 8 {
      PrefixSpells("https://", true, scheme, rest, 0);
      SchemesDiffer(scheme + rest, 0);
    }
  }

  lemma HostInFront(scheme: string, host: string, rest: string)
    requires IsScheme(scheme) && IsComponent(host) && IsRest(rest)
    ensures At(HOST, scheme + host + rest, 0) == Hit(|scheme|, |scheme| + |host|)
  {
    hide *;
    ComponentRuns(scheme, host, rest);
    SchemeInFront(scheme, host + rest);
    assert scheme + (host + rest) == scheme + host + rest;
    SchemeIsThere(scheme);
    HostHits(scheme + host + rest, 0);
  }

  lemma HostIsReplaced(scheme: string, host: string, rest: string)
    requires IsScheme(scheme) && IsComponent(host) && IsRest(rest)
    ensures Replace(HOST, scheme + host + rest) == scheme + "[redacted-host]" + Replace(HOST, rest)
  {
    hide SolidRule, At, Replace, IsComponent, IsScheme, IsRest, HasBoundary, Word;
    var t, n, end := scheme + host + rest, |scheme|, |scheme| + |host|;
    HostInFront(scheme, host, rest);
    SchemeIsThere(scheme);
    HostIsSolid();
    RestIsReplaced(HOST, t, end);
    PartsOf(scheme, host, rest);
    FirstHit(HOST, t, n, end);
  }

  lemma PartsOf(a: string, b: string, c: string)
    ensures (a + b + c)[..|a|] == a && (a + b + c)[|a| + |b|..] == c && (a + b + c)[..|a| + |b|] == a + b
  {
  }

  lemma SchemeIsThere(scheme: string)
    requires IsScheme(scheme)
    ensures |scheme| > 0
  {
  }

  /** A rest that does not start another authority. */
  predicate IsPath(s: string) {
    IsRest(s) && (|s| > 1 ==> s[1] != '/')
  }

  /** Where the slashes are: the scheme's two, none in the host, and one in front of the path. */
  ghost predicate OneAuthority(t: string, n: nat, m: nat) {
    && 2 < n < m <= |t|
    && (forall x :: 0 <= x < n - 2 ==> t[x] != '/')
    && (forall x :: n <= x < m ==> t[x] != '/')
    && (m < |t| ==> t[m] == '/' && (m + 1 < |t| ==> t[m + 1] != '/'))
  }

  /** A literal that ends in two slashes and has no others. */
  predicate EndsInSlashes(lit: string) {
    && |lit| > 2 && lit[|lit| - 1] == '/' && lit[|lit| - 2] == '/'
    && forall k :: 0 <= k < |lit| - 2 ==> lit[k] != '/'
  }

  /** Behind its start, such a literal is only where the scheme's slashes are. */
  lemma NoOtherAuthority(lit: string, t: string, n: nat, m: nat, h: nat)
    requires OneAuthority(t, n, m) && EndsInSlashes(lit) && h < m && Spells(lit, true, t, h)
    ensures h + |lit| == n
  {
    var x: nat := h + |lit| - 2;
    SpelledChar(lit, true, t, h, x);
    SpelledChar(lit, true, t, h, x + 1);
    assert t[x] == '/' && t[x + 1] == '/';
    if x > m { SpelledChar(lit, true, t, h, m); }
  }

  lemma SecondOfHttps(scheme: string)
    requires IsScheme(scheme)
    ensures |scheme| == 8 ==> Lower(scheme[1]) == 't'
  {
    if |scheme| == 8 { SpelledChar("https://", true, scheme, 0, 1); }
  }

  lemma OnlySchemeInFront(scheme: string, host: string, rest: string, h: nat)
    requires IsScheme(scheme) && IsComponent(host) && IsPath(rest) && 0 < h < |scheme| + |host|
    ensures SchemeLength(scheme + host + rest, h) == 0
  {
    var t := scheme + host + rest;
    AuthorityOf(scheme, host, rest);
    if Spells("http://", true, t, h) {
      NoOtherAuthority("http://", t, |scheme|, |scheme| + |host|, h);
      SpelledChar("http://", true, t, h, h);
      SecondOfHttps(scheme);
    }
    if Spells("https://", true, t, h) {
      NoOtherAuthority("https://", t, |scheme|, |scheme| + |host|, h);
    }
  }

  lemma AuthorityOf(scheme: string, host: string, rest: string)
    requires IsScheme(scheme) && IsComponent(host) && IsPath(rest)
    ensures OneAuthority(scheme + host + rest, |scheme|, |scheme| + |host|)
  {
    var t, n := scheme + host + rest, |scheme|;
    var lit := if n == 7 then "http://" else "https://";
    forall x | 0 <= x < n - 2
      ensures t[x] != '/'
    {
      SpelledChar(lit, true, scheme, 0, x);
      assert t[x] == scheme[x];
    }
    forall x | n <= x < n + |host|
      ensures t[x] != '/'
    {
      assert t[x] == host[x - n];
    }
  }

  lemma NoCredentialsBehind(scheme: string, host: string, rest: string, h: nat)
    requires IsScheme(scheme) && IsComponent(host) && IsPath(rest) && 0 < h < |scheme| + |host|
    ensures At(CREDENTIALS, scheme + host + rest, h) == NoMatch
  {
    hide At, SchemeLength, IsScheme, RunEnd, IsPath, IsComponent;
    OnlySchemeInFront(scheme, host, rest, h);
    CredentialsHits(scheme + host + rest, h);
  }

  lemma RestOfCredentials(scheme: string, host: string, rest: string, p: nat)
    requires IsScheme(scheme) && IsComponent(host) && IsPath(rest) && 0 < p <= |scheme| + |host|
    ensures var t := scheme + host + rest;
            Edits(CREDENTIALS, t).From(p) == t[p..|scheme| + |host|] + Replace(CREDENTIALS, rest)
  {
    hide SolidRule, At, Replace, IsScheme, IsPath, IsComponent, HasBoundary, Word;
    var t, m := scheme + host + rest, |scheme| + |host|;
    var e := Edits(CREDENTIALS, t);
    forall h: nat | p <= h < m
      ensures e.hits[h].NoMatch?
    {
      NoCredentialsBehind(scheme, host, rest, h);
    }
    CopiedTo(e, p, m);
    CredentialsAreSolid();
    RestIsReplaced(CREDENTIALS, t, m);
    PartsOf(scheme, host, rest);
  }

  /** Credentials, if there are any, become a marker inside what the next pass takes for the host. */
  lemma CredentialsInHost(scheme: string, host: string, rest: string) returns (left: string)
    requires IsScheme(scheme) && IsComponent(host) && IsPath(rest)
    ensures IsComponent(left)
    ensures Replace(CREDENTIALS, scheme + host + rest) == scheme + left + Replace(CREDENTIALS, rest)
  {
    hide At, Replace, IsScheme, IsPath, IsComponent, Word;
    var t, n, m := scheme + host + rest, |scheme|, |scheme| + |host|;
    SchemeIsThere(scheme);
    PartsOf(scheme, host, rest);
    if At(CREDENTIALS, t, 0).NoMatch? {
      left := host;
      RestOfCredentials(scheme, host, rest, 1);
      NoFirstHit(CREDENTIALS, t);
      assert [t[0]] + t[1..m] == t[..m];
      FrontChar(t[0], t[1..m], Replace(CREDENTIALS, rest));
    } else {
      var end := At(CREDENTIALS, t, 0).end;
      CredentialsEndInHost(scheme, host, rest);
      left := REDACTED_AT + t[end..m];
      LeftIsComponent(t, n, end, m);
      RestOfCredentials(scheme, host, rest, end);
      FirstHit(CREDENTIALS, t, n, end);
      FourParts(scheme, REDACTED_AT, t[end..m], Replace(CREDENTIALS, rest));
    }
  }

  lemma FourParts(a: string, b: string, c: string, d: string)
    ensures a + b + (c + d) == a + (b + c) + d
  {
  }

  lemma LeftIsComponent(t: string, n: nat, end: nat, m: nat)
    requires n <= end <= m <= |t| && forall x :: n <= x < m ==> SLASH.Has(t[x])
    ensures IsComponent(REDACTED_AT + t[end..m])
  {
  }

  lemma CredentialsEndInHost(scheme: string, host: string, rest: string)
    requires IsScheme(scheme) && IsComponent(host) && IsPath(rest)
    requires var t := scheme + host + rest; 0 < |t| && At(CREDENTIALS, t, 0).Hit?
    ensures var (t, n) := (scheme + host + rest, |scheme|);
            At(CREDENTIALS, t, 0).keep == n && n < At(CREDENTIALS, t, 0).end <= n + |host|
    ensures var (t, n) := (scheme + host + rest, |scheme|); forall x :: n <= x < n + |host| ==> SLASH.Has(t[x])
  {
    hide At, SchemeLength, IsScheme;
    var t, n := scheme + host + rest, |scheme|;
    SchemeInFront(scheme, host + rest);
    assert scheme + (host + rest) == t;
    CredentialsHits(t, 0);
    assert forall x :: n <= x < n + |host| ==> t[x] == host[x - n];
    assert n + |host| < |t| ==> t[n + |host|] == rest[0];
  }

  /** The host of a URL is replaced, with any credentials, and the path stays if it asks for nothing more. */
  lemma HostWord(scheme: string, host: string, path: string)
    requires IsScheme(scheme) && IsComponent(host) && IsPath(path)
    requires HomeForm(scheme + host + path) && Redacted(scheme + "[redacted-host]" + path)
    ensures Redact(scheme + host + path) == scheme + "[redacted-host]" + path
  {
    hide Replace, Form, ProxyForm, TokenForm, Ipv4Form, IsComponent, IsScheme;
    var done := scheme + "[redacted-host]" + path;
    HomeIsFixed(scheme + host + path);
    var left := CredentialsInHost(scheme, host, path);
    SuffixHasForm("http://", true, REDACTED_HOST, scheme + "[redacted-host]", path);
    SuffixHasForm("https://", true, REDACTED_HOST, scheme + "[redacted-host]", path);
    CredentialsAreFixed(path);
    HostIsReplaced(scheme, left, path);
    HostIsFixed(path);
    ProxyIsFixed(done);
    TokenIsFixed(done);
    Ipv4IsFixed(done);
  }

  /** A path of letters and a few other characters. */
  predicate PlainPath(s: string) {
    forall k :: 0 <= k < |s| ==> IsLetter(s[k]) || s[k] in "/._-[]@"
  }

  lemma PlainUrlIsRedacted(scheme: string, path: string)
    requires IsScheme(scheme) && IsRest(path) && PlainPath(path)
    requires forall p: nat :: !Spells("/home/", false, path, p)
    ensures Redacted(scheme + "[redacted-host]" + path)
  {
    hide HomeForm, HostForm, ProxyForm, TokenForm, Ipv4Form;
    PlainUrlChars(scheme, path);
    var t := scheme + REDACTED_HOST + path;
    PlainUrlHome(scheme, path);
    PlainUrlHost(scheme, path);
    PlainUrlTokens(scheme, path);
    NoDigitsNoQuad(t);
    NoEqualsNoProxy(t);
  }

  /** The scheme has the only colon. */
  lemma PlainUrlChars(scheme: string, path: string)
    requires IsScheme(scheme) && PlainPath(path)
    ensures var t := scheme + REDACTED_HOST + path;
            forall x :: 0 <= x < |t| ==> !IsDigit(t[x]) && t[x] != '=' && (t[x] == ':' ==> x == |scheme| - 3)
  {
    var t, n := scheme + REDACTED_HOST + path, |scheme|;
    var lit := if n == 7 then "http://" else "https://";
    forall x | 0 <= x < |t|
      ensures !IsDigit(t[x]) && t[x] != '=' && (t[x] == ':' ==> x == n - 3)
    {
      if x < n {
        SpelledChar(lit, true, scheme, 0, x);
      } else if x < n + |REDACTED_HOST| {
        assert t[x] == REDACTED_HOST[x - n];
      } else {
        assert t[x] == path[x - n - |REDACTED_HOST|];
      }
    }
  }

  lemma NoEqualsNoProxy(t: string)
    requires forall x :: 0 <= x < |t| ==> t[x] != '='
    ensures ProxyForm(t)
  {
  }

  lemma PlainUrlHome(scheme: string, path: string)
    requires IsScheme(scheme) && IsRest(path) && forall p: nat :: !Spells("/home/", false, path, p)
    ensures HomeForm(scheme + "[redacted-host]" + path)
  {
    var t, n := scheme + REDACTED_HOST + path, |scheme|;
    var m := n + |REDACTED_HOST|;
    forall p | 0 <= p < |t|
      ensures !Spells("/home/", false, t, p)
    {
      if p >= m {
        SuffixSpells("/home/", false, scheme + REDACTED_HOST, path, p - m);
      } else if Spells("/home/", false, t, p) {
        SpelledChar("/home/", false, t, p, p);
        SpelledChar("/home/", false, t, p, p + 1);
        SlashInFront(scheme, path, p);
      }
    }
  }

  /** In front of the path, a slash is followed by a slash or by the replaced host. */
  lemma SlashInFront(scheme: string, path: string, p: nat)
    requires IsScheme(scheme) && p < |scheme| + |REDACTED_HOST|
    ensures var t := scheme + REDACTED_HOST + path; t[p] == '/' ==> p + 1 < |t| && t[p + 1] in "/["
  {
    var t, n := scheme + REDACTED_HOST + path, |scheme|;
    var lit := if n == 7 then "http://" else "https://";
    if p < n {
      SpelledChar(lit, true, scheme, 0, p);
      if p + 1 < n { SpelledChar(lit, true, scheme, 0, p + 1); }
    } else {
      assert t[p] == REDACTED_HOST[p - n];
    }
  }

  lemma PlainUrlHost(scheme: string, path: string)
    requires IsScheme(scheme) && IsRest(path) && PlainPath(path)
    ensures HostForm(scheme + "[redacted-host]" + path)
  {
    PlainUrlForm("http://", scheme, path);
    PlainUrlForm("https://", scheme, path);
  }

  lemma PlainUrlForm(lit: string, scheme: string, path: string)
    requires IsScheme(scheme) && IsRest(path) && PlainPath(path) && lit in ["http://", "https://"]
    ensures Form(lit, true, REDACTED_HOST, scheme + REDACTED_HOST + path)
  {
    var t, n := scheme + REDACTED_HOST + path, |scheme|;
    PlainUrlChars(scheme, path);
    forall p | 0 <= p < |t| && Spells(lit, true, t, p)
      ensures Done(SLASH, REDACTED_HOST, t, p + |lit|)
    {
      SpelledChar(lit, true, t, p, p + |lit| - 3);
      assert p + |lit| == n;
      assert t[n..n + |REDACTED_HOST|] == REDACTED_HOST;
    }
  }

  /** No keyword ends like a scheme. */
  lemma PlainUrlTokens(scheme: string, path: string)
    requires IsScheme(scheme) && PlainPath(path)
    ensures TokenForm(scheme + "[redacted-host]" + path)
  {
    var t, n := scheme + REDACTED_HOST + path, |scheme|;
    PlainUrlChars(scheme, path);
    forall p: nat, g: nat
      ensures !WordEnds(KEYWORDS, t, p, g)
    {
      if WordEnds(KEYWORDS, t, p, g) {
        var x := KeywordLast(t, p, g);
        assert x == n - 4;
        SpelledChar(if n == 7 then "http://" else "https://", true, scheme, 0, x);
      }
    }
  }

  /** The last character of a keyword stands in front of its delimiter. */
  lemma KeywordLast(t: string, p: nat, g: nat) returns (x: nat)
    requires WordEnds(KEYWORDS, t, p, g)
    ensures x + 2 == g <= |t| && p <= x && Lower(t[x]) in "ndty" && t[g - 1] in "=:"
  {
    var w :| 0 <= w < |KEYWORDS| && Spells(KEYWORDS[w], true, t, p) && p + |KEYWORDS[w]| + 1 == g <= |t|
             && t[g - 1] in "=:";
    x := g - 2;
    SpelledChar(KEYWORDS[w], true, t, p, x);
    LastOfKeyword(w);
  }

  lemma LastOfKeyword(w: nat)
    requires w < |KEYWORDS|
    ensures |KEYWORDS[w]| > 0 && KEYWORDS[w][|KEYWORDS[w]| - 1] in "ndty"
  {
  }

  /** A URL with a plain path, as in a line of package sources. */
  lemma PlainUrl(scheme: string, host: string, path: string)
    requires IsScheme(scheme) && IsComponent(host) && IsPath(path) && PlainPath(path)
    requires forall p: nat :: !Spells("/home/", false, scheme + host + path, p)
    ensures Redact(scheme + host + path) == scheme + "[redacted-host]" + path
  {
    hide Redact, Redacted, IsScheme, IsComponent, IsPath, IsRest, PlainPath, Done;
    forall p: nat
      ensures !Spells("/home/", false, path, p)
    {
      SuffixSpells("/home/", false, scheme + host, path, p);
    }
    PathIsRest(path);
    PlainUrlIsRedacted(scheme, path);
    HostWord(scheme, host, path);
  }

  lemma PathIsRest(path: string)
    requires IsPath(path)
    ensures IsRest(path)
  {
  }

  // ---- Credentials that only their own pass sees ------------------------------------------------

  /** The host pass takes `http:` for the host here, and leaves what follows to the credentials pass. */
  lemma CredentialsBehind(front: string, user: string, host: string)
    requires front == "http://http://" && IsComponent(user) && IsComponent(host) && '@' !in user
    requires Redacted("http://[redacted-host]//[redacted]@" + host)
    ensures Redact(front + user + "@" + host) == "http://[redacted-host]//[redacted]@" + host
  {
    hide Replace, IsComponent, IsScheme, Form, ProxyForm, TokenForm, Ipv4Form;
    NoHomeBehind(front, user, host);
    CredentialsAreMarked(front, user, host);
    var done := "http://[redacted-host]//[redacted]@" + host;
    HostOfNested(front, host);
    ProxyIsFixed(done);
    TokenIsFixed(done);
    Ipv4IsFixed(done);
  }

  lemma HostOfNested(front: string, host: string)
    requires front == "http://http://" && HostForm("http://[redacted-host]//[redacted]@" + host)
    ensures Replace(HOST, front + "[redacted]@" + host) == "http://[redacted-host]//[redacted]@" + host
  {
    hide Replace, IsComponent, IsScheme, Form;
    var rest := "//[redacted]@" + host;
    NestedParts(front, host);
    SuffixHasForm("http://", true, REDACTED_HOST, "http://" + "[redacted-host]", rest);
    SuffixHasForm("https://", true, REDACTED_HOST, "http://" + "[redacted-host]", rest);
    HttpIsScheme();
    RestOfNested(host);
    HostIsReplaced("http://", "http:", rest);
    HostIsFixed(rest);
  }

  lemma RestOfNested(host: string)
    ensures IsRest("//[redacted]@" + host)
  {
  }

  lemma NestedParts(front: string, host: string)
    requires front == "http://http://"
    ensures front + "[redacted]@" + host == "http://" + "http:" + ("//[redacted]@" + host)
    ensures "http://[redacted-host]//[redacted]@" + host == "http://" + "[redacted-host]" + ("//[redacted]@" + host)
  {
    assert front + "[redacted]@" == "http://" + "http:" + "//[redacted]@";
    assert "http://[redacted-host]//[redacted]@" == "http://" + "[redacted-host]" + "//[redacted]@";
    ThreeAndOne("http://", "http:", "//[redacted]@", host);
    ThreeAndOne("http://", "[redacted-host]", "//[redacted]@", host);
  }

  lemma ThreeAndOne(a: string, b: string, c: string, d: string)
    ensures a + b + c + d == a + b + (c + d)
  {
  }

  lemma HttpIsScheme()
    ensures IsScheme("http://") && IsComponent("http:")
  {
  }

  lemma BehindChars(front: string, user: string, host: string)
    requires front == "http://http://" && IsComponent(user) && IsComponent(host) && '@' !in user
    ensures var t := front + user + "@" + host;
      && (forall x :: 0 <= x < 14 ==> t[x] == front[x])
      && (forall x :: 14 <= x < |t| ==> t[x] != '/')
      && (forall x :: 14 <= x < 14 + |user| ==> NAME.Has(t[x])) && t[14 + |user|] == '@'
      && t[..14] == front && t[14 + |user| + 1..] == host
  {
    var t := front + user + "@" + host;
    forall x | 14 <= x < |t|
      ensures t[x] == if x < 14 + |user| then user[x - 14] else if x == 14 + |user| then '@' else host[x - 15 - |user|]
    {
    }
  }

  lemma NoHomeBehind(front: string, user: string, host: string)
    requires front == "http://http://" && IsComponent(user) && IsComponent(host) && '@' !in user
    ensures Replace(HOME, front + user + "@" + host) == front + user + "@" + host
  {
    hide At, IsComponent;
    var t := front + user + "@" + host;
    BehindChars(front, user, host);
    forall h: nat | h < |t|
      ensures At(HOME, t, h).NoMatch?
    {
      HomeHits(t, h);
      if Spells("/home/", false, t, h) {
        SpelledChar("/home/", false, t, h, h + 5);
        SpelledChar("/home/", false, t, h, h);
      }
    }
    NothingToReplace(HOME, t);
  }

  lemma SchemesBehind(front: string, user: string, host: string, h: nat)
    requires front == "http://http://" && IsComponent(user) && IsComponent(host) && '@' !in user
    ensures var t := front + user + "@" + host; SchemeLength(t, h) == if h == 0 || h == 7 then 7 else 0
  {
    hide IsComponent;
    var t := front + user + "@" + host;
    BehindChars(front, user, host);
    if Spells("http://", true, t, h) {
      SpelledChar("http://", true, t, h, h);
      SpelledChar("http://", true, t, h, h + 6);
    }
    if Spells("https://", true, t, h) {
      SpelledChar("https://", true, t, h, h);
      SpelledChar("https://", true, t, h, h + 4);
      SpelledChar("https://", true, t, h, h + 7);
    }
  }

  lemma UserIsFound(front: string, user: string, host: string)
    requires front == "http://http://" && IsComponent(user) && IsComponent(host) && '@' !in user
    ensures At(CREDENTIALS, front + user + "@" + host, 7) == Hit(14, 15 + |user|)
  {
    hide At, SchemeLength, RunEnd;
    var t := front + user + "@" + host;
    BehindChars(front, user, host);
    SchemesBehind(front, user, host, 7);
    RunsEndTogether(NAME, t, 14, 14 + |user|);
    UserEnds(t, 14 + |user|);
    assert NAME.Has(t[14]) && EndsAt(t, 14 + |user|);
    CredentialsHits(t, 7);
  }

  lemma NoOtherUser(front: string, user: string, host: string, h: nat)
    requires front == "http://http://" && IsComponent(user) && IsComponent(host) && '@' !in user
    requires h <= 14 + |user| + |host| && h != 7
    ensures At(CREDENTIALS, front + user + "@" + host, h) == NoMatch
  {
    hide At, SchemeLength, RunEnd, IsComponent;
    var t := front + user + "@" + host;
    BehindChars(front, user, host);
    SchemesBehind(front, user, host, h);
    FirstHostEnds(front, t);
    CredentialsHits(t, h);
  }

  lemma CredentialsAreMarked(front: string, user: string, host: string)
    requires front == "http://http://" && IsComponent(user) && IsComponent(host) && '@' !in user
    ensures Replace(CREDENTIALS, front + user + "@" + host) == front + "[redacted]@" + host
  {
    hide At, IsComponent, Word;
    var t, end := front + user + "@" + host, 15 + |user|;
    var e := Edits(CREDENTIALS, t);
    UserIsFound(front, user, host);
    forall h: nat | h < |t| && h != 7
      ensures e.hits[h].NoMatch?
    {
      NoOtherUser(front, user, host, h);
    }
    CopiedTo(e, 0, 7);
    CopiedTo(e, end, |t|);
    MarkedParts(front, user, host, t[0..7], t[7..14], t[end..|t|]);
  }

  lemma MarkedParts(front: string, user: string, host: string, a: string, b: string, c: string)
    requires var t := front + user + "@" + host;
             |front| == 14 && a == t[0..7] && b == t[7..14] && c == t[15 + |user|..|t|]
    ensures a + (b + "[redacted]@" + (c + "")) == front + "[redacted]@" + host
  {
    assert a + b == front && c + "" == host;
  }

  lemma UserEnds(t: string, x: nat)
    requires x < |t| && t[x] == '@'
    ensures RunEnd(NAME, t, x) == x
  {
  }

  lemma FirstHostEnds(front: string, t: string)
    requires front == "http://http://" && |t| > 14 && forall x :: 0 <= x < 14 ==> t[x] == front[x]
    ensures RunEnd(NAME, t, 7) == 12 && t[12] == '/'
  {
    assert forall x :: 7 <= x < 12 ==> NAME.Has(front[x]);
    RunsEndTogether(NAME, t, 7, 12);
  }

  /** So the last two passes over URLs are both needed. */
  lemma NestedCredentials()
    ensures Redact("http://http://user:pw@host") == "http://[redacted-host]//[redacted]@host"
  {
    hide Redact, Redacted;
    HttpIsScheme();
    NestedIsComponent();
    PlainUrlIsRedacted("http://", "//[redacted]@host");
    assert "//[redacted]@" + "host" == "//[redacted]@host";
    NestedParts("http://http://", "host");
    CredentialsBehind("http://http://", "user:pw", "host");
    assert "http://http://" + "user:pw" + "@" + "host" == "http://http://user:pw@host";
    assert "http://[redacted-host]//[redacted]@" + "host" == "http://[redacted-host]//[redacted]@host";
  }

  lemma NestedIsComponent()
    ensures IsComponent("user:pw") && IsComponent("host") && '@' !in "user:pw"
    ensures IsRest("//[redacted]@host") && PlainPath("//[redacted]@host")
    ensures forall p: nat :: !Spells("/home/", false, "//[redacted]@host", p)
  {
    var path := "//[redacted]@host";
    forall p: nat
      ensures !Spells("/home/", false, path, p)
    {
      if Spells("/home/", false, path, p) { SpelledChar("/home/", false, path, p, p + 5); }
    }
  }
}
