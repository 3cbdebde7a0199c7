/**
 JSON texts: how the reporter writes them, and a reader for them after sections 2 to 7 of RFC 8259.
 The reader takes non-negative integers only, which are all the numbers that are written.
 */
module Json {
  import opened Text
  import opened Wrappers

  datatype Value =
    | Str(s: string)
    | Raw(s: string)     // a string that is written without escaping; never read
    | Num(n: nat)
    | Bool(b: bool)
    | Arr(items: seq<Value>)
    | Obj(members: seq<(string, Value)>)

  // ---- Writing ----------------------------------------------------------------------------------

  function EscChar(c: char): string {
    if c == '\\' then "\\\\"
    else if c == '"' then "\\\""
    else if c == '\n' then "\\n"
    else if c == '\r' then ""
    else [c]
  }

  function Esc(text: string): string {
    if text == "" then "" else EscChar(text[0]) + Esc(text[1..])
  }

  lemma {:induction false} EscGrows(text: string, c: char)
    ensures Esc(text + [c]) == Esc(text) + EscChar(c)
  {
    var all := text + [c];
    if text == "" {
      assert all[1..] == "";
    } else {
      assert all[1..] == text[1..] + [c];
      EscGrows(text[1..], c);
    }
  }

  function Quote(s: string): string {
    "\"" + s + "\""
  }

  function Key(name: string): string {
    "\"" + name + "\":"
  }

  function DigitChar(d: nat): char
    requires d < 10
  {
    '0' + d as char
  }

  function Decimal(n: nat): string {
    if n < 10 then [DigitChar(n)] else Decimal(n / 10) + [DigitChar(n % 10)]
  }

  function Render(v: Value): string
    decreases v, 0
  {
    match v
    case Str(s) => Quote(Esc(s))
    case Raw(s) => Quote(s)
    case Num(n) => Decimal(n)
    case Bool(b) => if b then "true" else "false"
    case Arr(items) => "[" + RenderItems(items) + "]"
    case Obj(members) => "{" + RenderMembers(members) + "}"
  }

  function RenderItems(items: seq<Value>): string
    decreases items, 1
  {
    if items == [] then ""
    else if |items| == 1 then Render(items[0])
    else RenderItems(items[..|items| - 1]) + "," + Render(items[|items| - 1])
  }

  function RenderMember(m: (string, Value)): string
    decreases m, 2
  {
    Key(m.0) + Render(m.1)
  }

  function RenderMembers(members: seq<(string, Value)>): string
    decreases members, 3
  {
    if members == [] then ""
    else if |members| == 1 then RenderMember(members[0])
    else RenderMembers(members[..|members| - 1]) + "," + RenderMember(members[|members| - 1])
  }

  // ---- Reading ----------------------------------------------------------------------------------

  datatype Parsed<T> = Ok(value: T, rest: string) | Fail

  predicate IsWs(c: char) {
    c == ' ' || c == '\t' || c == '\n' || c == '\r'
  }

  function SkipWs(s: string): (r: string)
    ensures |r| <= |s|
    ensures r != "" ==> !IsWs(r[0])
  {
    if s != "" && IsWs(s[0]) then SkipWs(s[1..]) else s
  }

  function HexDigit(c: char): int {
    if '0' <= c <= '9' then c as int - '0' as int
    else if 'a' <= c <= 'f' then c as int - 'a' as int + 10
    else if 'A' <= c <= 'F' then c as int - 'A' as int + 10
    else -1
  }

  /** The escape after a backslash; a code unit of a surrogate pair is refused. */
  function ParseEscape(s: string): (r: Parsed<char>)
    ensures r.Ok? ==> |r.rest| < |s|
  {
    if s == "" then Fail
    else match s[0]
      case '"' => Ok('"', s[1..])
      case '\\' => Ok('\\', s[1..])
      case '/' => Ok('/', s[1..])
      case 'b' => Ok('\U{0008}', s[1..])
      case 'f' => Ok('\U{000C}', s[1..])
      case 'n' => Ok('\n', s[1..])
      case 'r' => Ok('\r', s[1..])
      case 't' => Ok('\t', s[1..])
      case 'u' =>
        if |s| < 5 || exists k :: 1 <= k < 5 && HexDigit(s[k]) < 0 then Fail
        else
          var unit := ((HexDigit(s[1]) * 16 + HexDigit(s[2])) * 16 + HexDigit(s[3])) * 16 + HexDigit(s[4]);
          if 0xD800 <= unit < 0xE000 || unit > 0xFFFF || unit < 0 then Fail else Ok(unit as char, s[5..])
      case _ => Fail
  }

  predicate IsControl(c: char) {
    c < ' '
  }

  /** The characters of a string, from behind its opening quotation mark to behind its closing one. */
  function ParseChars(s: string): (r: Parsed<string>)
    ensures r.Ok? ==> |r.rest| < |s|
    decreases |s|
  {
    if s == "" then Fail
    else if s[0] == '"' then Ok("", s[1..])
    else if s[0] == '\\' then
      match ParseEscape(s[1..])
      case Fail => Fail
      case Ok(c, rest) =>
        (match ParseChars(rest) case Fail => Fail case Ok(cs, rest') => Ok([c] + cs, rest'))
    else if IsControl(s[0]) then Fail
    else match ParseChars(s[1..]) case Fail => Fail case Ok(cs, rest) => Ok([s[0]] + cs, rest)
  }

  /** The remaining digits of a number. */
  function ParseDigits(s: string, n: nat): (r: Parsed<nat>)
    ensures r.Ok? && |r.rest| <= |s|
    decreases |s|
  {
    if s != "" && IsDigit(s[0]) then ParseDigits(s[1..], 10 * n + (s[0] as int - '0' as int)) else Ok(n, s)
  }

  function ParseNumber(s: string): (r: Parsed<nat>)
    requires s != "" && IsDigit(s[0])
    ensures r.Ok? && |r.rest| < |s|
  {
    if s[0] == '0' then Ok(0, s[1..]) else ParseDigits(s[1..], s[0] as int - '0' as int)
  }

  function ParseValue(s: string): (r: Parsed<Value>)
    ensures r.Ok? ==> |r.rest| < |s|
    decreases |s|, 0
  {
    var t := SkipWs(s);
    if t == "" then Fail
    else if t[0] == '"' then
      (match ParseChars(t[1..]) case Fail => Fail case Ok(cs, rest) => Ok(Str(cs), rest))
    else if t[0] == '[' then
      var u := SkipWs(t[1..]);
      if u != "" && u[0] == ']' then Ok(Arr([]), u[1..])
      else (match ParseItems(u) case Fail => Fail case Ok(vs, rest) => Ok(Arr(vs), rest))
    else if t[0] == '{' then
      var u := SkipWs(t[1..]);
      if u != "" && u[0] == '}' then Ok(Obj([]), u[1..])
      else (match ParseMembers(u) case Fail => Fail case Ok(ms, rest) => Ok(Obj(ms), rest))
    else if IsDigit(t[0]) then
      (match ParseNumber(t) case Ok(n, rest) => Ok(Num(n), rest))
    else if "true" <= t then Ok(Bool(true), t[4..])
    else if "false" <= t then Ok(Bool(false), t[5..])
    else Fail
  }

  /** At least one value, up to and including the closing bracket. */
  function ParseItems(s: string): (r: Parsed<seq<Value>>)
    ensures r.Ok? ==> |r.rest| < |s|
    decreases |s|, 1
  {
    match ParseValue(s)
    case Fail => Fail
    case Ok(v, rest) =>
      var t := SkipWs(rest);
      if t == "" then Fail
      else if t[0] == ']' then Ok([v], t[1..])
      else if t[0] != ',' then Fail
      else match ParseItems(t[1..]) case Fail => Fail case Ok(vs, rest') => Ok([v] + vs, rest')
  }

  /** A name, a colon and a value. */
  function ParseMember(s: string): (r: Parsed<(string, Value)>)
    ensures r.Ok? ==> |r.rest| < |s|
    decreases |s|, 1
  {
    var t := SkipWs(s);
    if t == "" || t[0] != '"' then Fail
    else match ParseChars(t[1..])
      case Fail => Fail
      case Ok(key, rest) =>
        var u := SkipWs(rest);
        if u == "" || u[0] != ':' then Fail
        else match ParseValue(u[1..]) case Fail => Fail case Ok(v, rest') => Ok((key, v), rest')
  }

  /** At least one member, up to and including the closing brace. */
  function ParseMembers(s: string): (r: Parsed<seq<(string, Value)>>)
    ensures r.Ok? ==> |r.rest| < |s|
    decreases |s|, 2
  {
    match ParseMember(s)
    case Fail => Fail
    case Ok(m, rest) =>
      var t := SkipWs(rest);
      if t == "" then Fail
      else if t[0] == '}' then Ok([m], t[1..])
      else if t[0] != ',' then Fail
      else match ParseMembers(t[1..]) case Fail => Fail case Ok(ms, rest') => Ok([m] + ms, rest')
  }

  /** A whole document: one value and white space. */
  function ParseDocument(s: string): Option<Value> {
    match ParseValue(s)
    case Fail => None
    case Ok(v, rest) => if SkipWs(rest) == "" then Some(v) else None
  }

  // ---- Reading what was written -----------------------------------------------------------------

  /** The text without its carriage returns, which escaping drops. */
  function Strip(text: string): string {
    if text == "" then "" else (if text[0] == '\r' then "" else [text[0]]) + Strip(text[1..])
  }

  /** No control character but line feed and carriage return: those are what escaping takes care of. */
  predicate Escapable(text: string) {
    forall i :: 0 <= i < |text| && IsControl(text[i]) ==> text[i] == '\n' || text[i] == '\r'
  }

  /** Text that needs no escaping at all. */
  predicate Plain(text: string) {
    forall i :: 0 <= i < |text| ==> !IsControl(text[i]) && text[i] != '"' && text[i] != '\\'
  }

  /**
   Escaped strings delimit themselves: behind the opening quotation mark, a reader of `Esc(text)` stops at
   exactly the closing one and has read the text without carriage returns. It refuses the string exactly if
   the text has another control character.
   */
  lemma {:induction false} EscReadsBack(text: string, rest: string)
    ensures ParseChars(Esc(text) + "\"" + rest) == if Escapable(text) then Ok(Strip(text), rest) else Fail
    decreases |text|
  {
    hide Escapable, EscChar;
    var tail := "\"" + rest;
    assert Esc(text) + "\"" + rest == Esc(text) + tail;
    if text == "" {
      NothingIsEscapable();
      assert Esc(text) + tail == tail && tail[1..] == rest;
    } else {
      var c, more := text[0], text[1..];
      EscReadsBack(more, rest);
      assert Esc(more) + "\"" + rest == Esc(more) + tail;
      assert Esc(text) + tail == EscChar(c) + (Esc(more) + tail);
      EscapableSplits(text);
      EscCharReadsBack(c, Esc(more) + tail);
      assert "" + Strip(more) == Strip(more);
    }
  }

  lemma NothingIsEscapable()
    ensures Escapable("")
  {
  }

  lemma EscapableSplits(text: string)
    requires text != ""
    ensures Escapable(text) <==> (IsControl(text[0]) ==> text[0] == '\n' || text[0] == '\r') && Escapable(text[1..])
  {
    if Escapable(text[1..]) {
      assert forall i :: 0 < i < |text| ==> text[i] == text[1..][i - 1];
    }
  }

  lemma EscCharReadsBack(c: char, after: string)
    ensures ParseChars(EscChar(c) + after) ==
              if c == '\r' then ParseChars(after)
              else if IsControl(c) && c != '\n' then Fail
              else match ParseChars(after) case Fail => Fail case Ok(cs, rest) => Ok([c] + cs, rest)
  {
    var s := EscChar(c) + after;
    if c == '\r' {
      assert s == after;
    } else if c == '\\' || c == '"' || c == '\n' {
      assert s[1..][1..] == after;
    } else {
      assert s[1..] == after;
    }
  }

  lemma {:induction false} PlainReadsBack(text: string, rest: string)
    requires Plain(text)
    ensures ParseChars(text + "\"" + rest) == Ok(text, rest)
  {
    var s := text + "\"" + rest;
    if text == "" {
      assert s[1..] == rest;
    } else {
      PlainReadsBack(text[1..], rest);
      assert s[1..] == text[1..] + "\"" + rest;
      assert [text[0]] + text[1..] == text;
    }
  }

  // ---- Numbers ----------------------------------------------------------------------------------

  /** Nothing that follows could be taken for another digit. */
  predicate Stands(rest: string) {
    rest == "" || !IsDigit(rest[0])
  }

  lemma {:induction false} DecimalDigits(n: nat)
    ensures Decimal(n) != "" && IsDigit(Decimal(n)[0]) && (Decimal(n)[0] == '0' <==> n == 0)
  {
    if n >= 10 { DecimalDigits(n / 10); }
  }

  function Power10(k: nat): nat {
    if k == 0 then 1 else 10 * Power10(k - 1)
  }

  lemma OneDigitMore(acc: nat, p: nat, n: nat)
    ensures 10 * (acc * p + n / 10) + n % 10 == acc * (10 * p) + n
  {
    assert acc * (10 * p) == 10 * (acc * p);
  }

  lemma {:induction false} DigitsReadBack(n: nat, rest: string, acc: nat)
    ensures ParseDigits(Decimal(n) + rest, acc) == ParseDigits(rest, acc * Power10(|Decimal(n)|) + n)
  {
    if n < 10 {
      assert (Decimal(n) + rest)[1..] == rest;
      assert Power10(1) == 10 * Power10(0) == 10;
    } else {
      var last := [DigitChar(n % 10)];
      assert Decimal(n) + rest == Decimal(n / 10) + (last + rest);
      DigitsReadBack(n / 10, last + rest, acc);
      assert (last + rest)[1..] == rest;
      var p := Power10(|Decimal(n / 10)|);
      assert |Decimal(n)| == |Decimal(n / 10)| + 1;
      assert Power10(|Decimal(n)|) == 10 * p;
      OneDigitMore(acc, p, n);
    }
  }

  lemma NumberReadsBack(n: nat, rest: string)
    requires Stands(rest)
    ensures var s := Decimal(n) + rest; s != "" && IsDigit(s[0]) && ParseNumber(s) == Ok(n, rest)
  {
    DecimalDigits(n);
    var s := Decimal(n) + rest;
    if n == 0 {
      assert s[1..] == rest;
    } else {
      DigitsReadBack(n, rest, 0);
      assert 10 * 0 + (s[0] as int - '0' as int) == s[0] as int - '0' as int;
    }
  }

  // ---- Whole values -----------------------------------------------------------------------------

  /** What a reader sees of a value: strings without carriage returns. */
  function Seen(v: Value): Value
    decreases v, 0
  {
    match v
    case Str(s) => Str(Strip(s))
    case Raw(s) => Str(s)
    case Arr(items) => Arr(SeenItems(items))
    case Obj(members) => Obj(SeenMembers(members))
    case _ => v
  }

  function SeenItems(items: seq<Value>): seq<Value>
    decreases items, 1
  {
    if items == [] then [] else [Seen(items[0])] + SeenItems(items[1..])
  }

  function SeenMember(m: (string, Value)): (string, Value)
    decreases m, 2
  {
    (m.0, Seen(m.1))
  }

  function SeenMembers(members: seq<(string, Value)>): seq<(string, Value)>
    decreases members, 3
  {
    if members == [] then [] else [SeenMember(members[0])] + SeenMembers(members[1..])
  }

  /** No escaped string has a control character that escaping leaves in. */
  predicate Clean(v: Value)
    decreases v, 0
  {
    match v
    case Str(s) => Escapable(s)
    case Arr(items) => CleanItems(items)
    case Obj(members) => CleanMembers(members)
    case _ => true
  }

  predicate CleanItems(items: seq<Value>)
    decreases items, 1
  {
    items == [] || (Clean(items[0]) && CleanItems(items[1..]))
  }

  predicate CleanMember(m: (string, Value))
    decreases m, 2
  {
    Clean(m.1)
  }

  predicate CleanMembers(members: seq<(string, Value)>)
    decreases members, 3
  {
    members == [] || (CleanMember(members[0]) && CleanMembers(members[1..]))
  }

  /** What is written without escaping needs none. */
  predicate WellMade(v: Value)
    decreases v, 0
  {
    match v
    case Raw(s) => Plain(s)
    case Arr(items) => WellMadeItems(items)
    case Obj(members) => WellMadeMembers(members)
    case _ => true
  }

  predicate WellMadeItems(items: seq<Value>)
    decreases items, 1
  {
    items == [] || (WellMade(items[0]) && WellMadeItems(items[1..]))
  }

  predicate WellMadeMember(m: (string, Value))
    decreases m, 2
  {
    Plain(m.0) && WellMade(m.1)
  }

  predicate WellMadeMembers(members: seq<(string, Value)>)
    decreases members, 3
  {
    members == [] || (WellMadeMember(members[0]) && WellMadeMembers(members[1..]))
  }

  lemma {:induction false} ItemsFromTheLeft(items: seq<Value>)
    requires |items| > 1
    ensures RenderItems(items) == Render(items[0]) + "," + RenderItems(items[1..])
  {
    var n := |items| - 1;
    if n > 1 {
      ItemsFromTheLeft(items[..n]);
      assert items[..n][1..] == items[1..][..n - 1];
      calc {
        RenderItems(items);
        (Render(items[0]) + "," + RenderItems(items[1..][..n - 1])) + "," + Render(items[n]);
        Render(items[0]) + "," + (RenderItems(items[1..][..n - 1]) + "," + Render(items[n]));
      }
    }
  }

  lemma {:induction false} MembersFromTheLeft(ms: seq<(string, Value)>)
    requires |ms| > 1
    ensures RenderMembers(ms) == RenderMember(ms[0]) + "," + RenderMembers(ms[1..])
  {
    var n := |ms| - 1;
    if n > 1 {
      MembersFromTheLeft(ms[..n]);
      assert ms[..n][1..] == ms[1..][..n - 1];
      calc {
        RenderMembers(ms);
        (RenderMember(ms[0]) + "," + RenderMembers(ms[1..][..n - 1])) + "," + RenderMember(ms[n]);
        RenderMember(ms[0]) + "," + (RenderMembers(ms[1..][..n - 1]) + "," + RenderMember(ms[n]));
      }
    }
  }

  function After<T>(ok: bool, value: T, rest: string): Parsed<T> {
    if ok then Ok(value, rest) else Fail
  }

  /**
   What is written is read back: for every value and every text behind it, the reader stops where the
   value ends and has seen the value, exactly if no string keeps a control character; else it refuses.
   */
  lemma {:induction false} ReadsBack(v: Value, rest: string)
    requires WellMade(v) && (v.Num? ==> Stands(rest))
    ensures ParseValue(Render(v) + rest) == After(Clean(v), Seen(v), rest)
    decreases v, 0
  {
    match v
    case Arr(items) =>
      if items == [] { EmptyReadsBack(v, rest); } else {
        ItemsReadBack(items, rest);
        ArrayReadsBack(items, rest);
      }
    case Obj(members) =>
      if members == [] { EmptyReadsBack(v, rest); } else {
        MembersReadBack(members, rest);
        ObjectReadsBack(members, rest);
      }
    case Num(n) => NumberReadsBack(n, rest);
    case Str(t) => StringReadsBack(t, rest);
    case Raw(t) => RawReadsBack(t, rest);
    case Bool(b) => BoolReadsBack(b, rest);
  }

  lemma StringReadsBack(t: string, rest: string)
    ensures ParseValue(Render(Str(t)) + rest) == After(Escapable(t), Str(Strip(t)), rest)
  {
    var s := Render(Str(t)) + rest;
    EscReadsBack(t, rest);
    assert s[1..] == Esc(t) + "\"" + rest;
  }

  lemma RawReadsBack(t: string, rest: string)
    requires Plain(t)
    ensures ParseValue(Render(Raw(t)) + rest) == Ok(Str(t), rest)
  {
    var s := Render(Raw(t)) + rest;
    PlainReadsBack(t, rest);
    assert s[1..] == t + "\"" + rest;
  }

  lemma BoolReadsBack(b: bool, rest: string)
    ensures ParseValue(Render(Bool(b)) + rest) == Ok(Bool(b), rest)
  {
    var s := Render(Bool(b)) + rest;
    assert b ==> "true" <= s && s[4..] == rest;
    assert !b ==> "false" <= s && s[5..] == rest;
  }

  lemma EmptyReadsBack(v: Value, rest: string)
    requires v == Arr([]) || v == Obj([])
    ensures ParseValue(Render(v) + rest) == Ok(v, rest)
  {
    var s := Render(v) + rest;
    var close := if v.Arr? then "]" else "}";
    assert s[1..] == close + rest && s[1..][1..] == rest;
  }

  lemma ArrayReadsBack(items: seq<Value>, rest: string)
    requires items != []
    requires ParseItems(RenderItems(items) + "]" + rest) == After(CleanItems(items), SeenItems(items), rest)
    ensures ParseValue(Render(Arr(items)) + rest) == After(CleanItems(items), Arr(SeenItems(items)), rest)
  {
    var s := Render(Arr(items)) + rest;
    var body := RenderItems(items) + "]" + rest;
    assert s[1..] == body;
    ItemsStart(items);
    assert body[0] == RenderItems(items)[0];
  }

  lemma ObjectReadsBack(members: seq<(string, Value)>, rest: string)
    requires members != []
    requires ParseMembers(RenderMembers(members) + "}" + rest) ==
               After(CleanMembers(members), SeenMembers(members), rest)
    ensures ParseValue(Render(Obj(members)) + rest) == After(CleanMembers(members), Obj(SeenMembers(members)), rest)
  {
    var s := Render(Obj(members)) + rest;
    var body := RenderMembers(members) + "}" + rest;
    assert s[1..] == body;
    MembersStart(members);
    assert body[0] == RenderMembers(members)[0];
  }

  /** A written value starts with neither white space nor a closing bracket. */
  lemma {:induction false} ItemsStart(items: seq<Value>)
    requires items != []
    ensures RenderItems(items) != "" && !IsWs(RenderItems(items)[0]) && RenderItems(items)[0] != ']'
  {
    if |items| > 1 {
      ItemsStart(items[..|items| - 1]);
    } else if items[0].Num? {
      DecimalDigits(items[0].n);
    }
  }

  lemma {:induction false} MembersStart(ms: seq<(string, Value)>)
    requires ms != []
    ensures RenderMembers(ms) != "" && RenderMembers(ms)[0] == '"'
  {
    if |ms| > 1 { MembersStart(ms[..|ms| - 1]); }
  }

  lemma {:induction false} ItemsReadBack(items: seq<Value>, rest: string)
    requires items != [] && WellMadeItems(items)
    ensures ParseItems(RenderItems(items) + "]" + rest) == After(CleanItems(items), SeenItems(items), rest)
    decreases items, 1
  {
    var v := items[0];
    ItemsSplit(items, rest);
    if |items| == 1 {
      ReadsBack(v, "]" + rest);
      ItemThenClose(Render(v) + ("]" + rest), Clean(v), Seen(v), rest);
      OneItem(items);
    } else {
      var tail := RenderItems(items[1..]) + "]" + rest;
      ReadsBack(v, "," + tail);
      ItemsReadBack(items[1..], rest);
      ItemThenMore(Render(v) + ("," + tail), Clean(v), Seen(v), tail);
    }
  }

  lemma OneItem(items: seq<Value>)
    requires |items| == 1
    ensures SeenItems(items) == [Seen(items[0])] && CleanItems(items) == Clean(items[0])
  {
    assert items[1..] == [];
    assert SeenItems(items) == [Seen(items[0])] + SeenItems([]);
    assert CleanItems(items) == (Clean(items[0]) && CleanItems([]));
  }

  lemma ItemsSplit(items: seq<Value>, rest: string)
    requires items != []
    ensures RenderItems(items) + "]" + rest ==
              Render(items[0]) + (if |items| == 1 then "]" + rest else "," + (RenderItems(items[1..]) + "]" + rest))
  {
    if |items| == 1 {
      Regroup(Render(items[0]), "", "", "]", rest);
    } else {
      ItemsFromTheLeft(items);
      Regroup(Render(items[0]), ",", RenderItems(items[1..]), "]", rest);
    }
  }

  lemma Regroup(first: string, comma: string, others: string, close: string, rest: string)
    ensures first + comma + others + close + rest == first + (comma + (others + close + rest))
    ensures first + close + rest == first + (close + rest)
  {
  }

  lemma ItemThenClose(s: string, ok: bool, v: Value, rest: string)
    requires ParseValue(s) == After(ok, v, "]" + rest)
    ensures ParseItems(s) == After(ok, [v], rest)
  {
    assert ("]" + rest)[1..] == rest;
  }

  lemma ItemThenMore(s: string, ok: bool, v: Value, tail: string)
    requires ParseValue(s) == After(ok, v, "," + tail)
    ensures ParseItems(s) ==
              if !ok then Fail
              else match ParseItems(tail) case Fail => Fail case Ok(vs, rest) => Ok([v] + vs, rest)
  {
    assert ("," + tail)[1..] == tail;
  }

  lemma {:induction false} MemberReadsBack(m: (string, Value), rest: string)
    requires WellMadeMember(m) && (m.1.Num? ==> Stands(rest))
    ensures ParseMember(RenderMember(m) + rest) == After(CleanMember(m), SeenMember(m), rest)
    decreases m, 2
  {
    var s := RenderMember(m) + rest;
    var value := ":" + (Render(m.1) + rest);
    assert s[1..] == m.0 + "\"" + value && value[1..] == Render(m.1) + rest;
    PlainReadsBack(m.0, value);
    ReadsBack(m.1, rest);
  }

  lemma {:induction false} MembersReadBack(ms: seq<(string, Value)>, rest: string)
    requires ms != [] && WellMadeMembers(ms)
    ensures ParseMembers(RenderMembers(ms) + "}" + rest) == After(CleanMembers(ms), SeenMembers(ms), rest)
    decreases ms, 3
  {
    var m := ms[0];
    MembersSplit(ms, rest);
    if |ms| == 1 {
      MemberReadsBack(m, "}" + rest);
      MemberThenClose(RenderMember(m) + ("}" + rest), CleanMember(m), SeenMember(m), rest);
      OneMember(ms);
    } else {
      var tail := RenderMembers(ms[1..]) + "}" + rest;
      MemberReadsBack(m, "," + tail);
      MembersReadBack(ms[1..], rest);
      MemberThenMore(RenderMember(m) + ("," + tail), CleanMember(m), SeenMember(m), tail);
    }
  }

  lemma OneMember(ms: seq<(string, Value)>)
    requires |ms| == 1
    ensures SeenMembers(ms) == [SeenMember(ms[0])] && CleanMembers(ms) == CleanMember(ms[0])
  {
    assert ms[1..] == [];
    assert SeenMembers(ms) == [SeenMember(ms[0])] + SeenMembers([]);
    assert CleanMembers(ms) == (CleanMember(ms[0]) && CleanMembers([]));
  }

  lemma MembersSplit(ms: seq<(string, Value)>, rest: string)
    requires ms != []
    ensures RenderMembers(ms) + "}" + rest ==
              RenderMember(ms[0]) + (if |ms| == 1 then "}" + rest else "," + (RenderMembers(ms[1..]) + "}" + rest))
  {
    if |ms| == 1 {
      Regroup(RenderMember(ms[0]), "", "", "}", rest);
    } else {
      MembersFromTheLeft(ms);
      Regroup(RenderMember(ms[0]), ",", RenderMembers(ms[1..]), "}", rest);
    }
  }

  lemma MemberThenClose(s: string, ok: bool, m: (string, Value), rest: string)
    requires ParseMember(s) == After(ok, m, "}" + rest)
    ensures ParseMembers(s) == After(ok, [m], rest)
  {
    assert ("}" + rest)[1..] == rest;
  }

  lemma MemberThenMore(s: string, ok: bool, m: (string, Value), tail: string)
    requires ParseMember(s) == After(ok, m, "," + tail)
    ensures ParseMembers(s) ==
              if !ok then Fail
              else match ParseMembers(tail) case Fail => Fail case Ok(ms, rest) => Ok([m] + ms, rest)
  {
    assert ("," + tail)[1..] == tail;
  }

  // ---- Documents --------------------------------------------------------------------------------

  /** An object laid out as the reporter does it: a line break behind the first brace and one at the end. */
  function Document(members: seq<(string, Value)>): string {
    "{\n" + RenderMembers(members) + "}\n"
  }

  /** Documents are read back in full, exactly if they are clean. */
  lemma DocumentReadsBack(ms: seq<(string, Value)>)
    requires ms != [] && WellMade(Obj(ms))
    ensures ParseDocument(Document(ms)) == if Clean(Obj(ms)) then Some(Seen(Obj(ms))) else None
  {
    var s := Document(ms);
    var body := RenderMembers(ms) + "}" + "\n";
    assert s == "{" + ("\n" + body) && s[1..] == "\n" + body && ("\n" + body)[1..] == body;
    MembersStart(ms);
    assert SkipWs(s[1..]) == SkipWs(body) == body;
    MembersReadBack(ms, "\n");
    assert "\n"[1..] == "";
  }
}
