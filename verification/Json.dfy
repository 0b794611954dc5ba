/** JSON text (RFC 8259 sections 4, 6, 7) as Go's `encoding/json` writes and reads it, over Unicode text. */
module Json {
  import opened Lists
  import opened Wire

  datatype Parsed<+T> = Parsed(value: T, rest: string)

  // ---------- strings ----------

  predicate NeedsUnicodeEscape(c: char) {
    c < ' ' || c == '<' || c == '>' || c == '&' || c == '\U{2028}' || c == '\U{2029}'
  }

  function HexDigit(n: nat): char
    requires n < 16
  {
    if n < 10 then '0' + n as char else 'a' + (n - 10) as char
  }

  function HexValue(c: char): Option<nat> {
    if '0' <= c <= '9' then Some((c - '0') as nat)
    else if 'a' <= c <= 'f' then Some((c - 'a') as nat + 10)
    else if 'A' <= c <= 'F' then Some((c - 'A') as nat + 10)
    else None
  }

  function Escape(c: char): (e: string)
    ensures e != []
  {
    if c == '"' || c == '\\' then ['\\', c]
    else if c == '\U{8}' then "\\b"
    else if c == '\U{C}' then "\\f"
    else if c == '\n' then "\\n"
    else if c == '\r' then "\\r"
    else if c == '\t' then "\\t"
    else if NeedsUnicodeEscape(c) then
      var n := c as nat;
      ['\\', 'u', HexDigit(n / 4096), HexDigit(n / 256 % 16), HexDigit(n / 16 % 16), HexDigit(n % 16)]
    else [c]
  }

  function EscapeAll(s: string): string {
    if s == [] then [] else Escape(s[0]) + EscapeAll(s[1..])
  }

  function Quote(s: string): string {
    ['"'] + EscapeAll(s) + ['"']
  }

  /** The code unit of `\uXXXX`, given the text after the `u`. */
  function Hex4(s: string): (r: Option<nat>)
    ensures r.Some? ==> r.value < 0x1_0000 && |s| >= 4
  {
    if |s| < 4 then None
    else
      var a, b, c, d := HexValue(s[0]), HexValue(s[1]), HexValue(s[2]), HexValue(s[3]);
      if a.Some? && b.Some? && c.Some? && d.Some? && a.value < 16 && b.value < 16 && c.value < 16 && d.value < 16
      then Some(a.value * 4096 + b.value * 256 + c.value * 16 + d.value)
      else None
  }

  function ReadUnicodeEscape(s: string): (r: Option<Parsed<char>>)
    ensures r.Some? ==> |r.value.rest| < |s|
  {
    match Hex4(s)
    case None => None
    case Some(u) =>
      if u < 0xD800 || 0xE000 <= u then Some(Parsed(u as char, s[4..]))
      else if u < 0xDC00 && "\\u" <= s[4..] then
        match Hex4(s[6..])
        case Some(v) =>
          if 0xDC00 <= v < 0xE000
          then Some(Parsed((0x1_0000 + (u - 0xD800) * 0x400 + (v - 0xDC00)) as char, s[10..]))
          else Some(Parsed('\U{FFFD}', s[4..]))
        case None => Some(Parsed('\U{FFFD}', s[4..]))
      else Some(Parsed('\U{FFFD}', s[4..]))
  }

  /** One character of a string literal, escaped or not; not applicable at the closing quote. */
  function ReadChar(s: string): (r: Option<Parsed<char>>)
    ensures r.Some? ==> |r.value.rest| < |s|
  {
    if s == [] || s[0] < ' ' then None
    else if s[0] != '\\' then Some(Parsed(s[0], s[1..]))
    else if |s| < 2 then None
    else
      match s[1]
      case '"' => Some(Parsed('"', s[2..]))
      case '\\' => Some(Parsed('\\', s[2..]))
      case '/' => Some(Parsed('/', s[2..]))
      case 'b' => Some(Parsed('\U{8}', s[2..]))
      case 'f' => Some(Parsed('\U{C}', s[2..]))
      case 'n' => Some(Parsed('\n', s[2..]))
      case 'r' => Some(Parsed('\r', s[2..]))
      case 't' => Some(Parsed('\t', s[2..]))
      case 'u' => ReadUnicodeEscape(s[2..])
      case _ => None
  }

  /** The rest of a string literal after its opening quote. */
  function ReadString(s: string): (r: Option<Parsed<string>>)
    ensures r.Some? ==> |r.value.rest| < |s|
    decreases |s|
  {
    if s == [] then None
    else if s[0] == '"' then Some(Parsed([], s[1..]))
    else
      match ReadChar(s)
      case None => None
      case Some(Parsed(c, t)) =>
        match ReadString(t)
        case None => None
        case Some(Parsed(v, rest)) => Some(Parsed([c] + v, rest))
  }

  lemma ReadCharEscape(c: char, rest: string)
    ensures ReadChar(Escape(c) + rest) == Some(Parsed(c, rest))
    ensures Escape(c)[0] != '"'
  {
    var e := Escape(c);
    assert (e + rest)[|e|..] == rest;
    if |e| == 6 {
      var n := c as nat;
      assert n < 0xD800;
      var s := (e + rest)[2..];
      assert s[..4] == e[2..];
      assert s[0] == e[2] && s[1] == e[3] && s[2] == e[4] && s[3] == e[5];
      HexDigits(n);
      assert s[4..] == rest;
    }
  }

  lemma HexDigits(n: nat)
    requires n < 0x1_0000
    ensures n == n / 4096 * 4096 + n / 256 % 16 * 256 + n / 16 % 16 * 16 + n % 16
    ensures forall k: nat {:trigger HexDigit(k)} :: k < 16 ==> HexValue(HexDigit(k)) == Some(k)
  {
  }

  lemma {:induction false} ReadQuoted(s: string, rest: string)
    ensures ReadString(EscapeAll(s) + ['"'] + rest) == Some(Parsed(s, rest))
    decreases |s|
  {
    if s == [] {
      ReadEmptyQuoted(rest);
    } else {
      ReadQuoted(s[1..], rest);
      ReadQuotedStep(s, rest, EscapeAll(s[1..]) + ['"'] + rest);
    }
  }

  lemma ReadEmptyQuoted(rest: string)
    ensures ReadString(EscapeAll([]) + ['"'] + rest) == Some(Parsed([], rest))
  {
    assert EscapeAll([]) + ['"'] + rest == ['"'] + rest;
  }

  lemma ReadQuotedStep(s: string, rest: string, t: string)
    requires s != [] && t == EscapeAll(s[1..]) + ['"'] + rest && ReadString(t) == Some(Parsed(s[1..], rest))
    ensures ReadString(EscapeAll(s) + ['"'] + rest) == Some(Parsed(s, rest))
  {
    var e := Escape(s[0]);
    ReadCharEscape(s[0], t);
    Regroup(e, EscapeAll(s[1..]), ['"'], rest);
    ReadStringStep(e + t, s[0], t, s[1..], rest);
    assert s == [s[0]] + s[1..];
  }

  lemma Regroup(a: string, b: string, c: string, d: string)
    ensures a + b + c + d == a + (b + c + d)
  {
  }

  lemma ReadStringStep(s: string, c: char, t: string, v: string, rest: string)
    requires s != [] && s[0] != '"' && ReadChar(s) == Some(Parsed(c, t)) && ReadString(t) == Some(Parsed(v, rest))
    ensures ReadString(s) == Some(Parsed([c] + v, rest))
  {
  }

  // ---------- numbers ----------

  predicate IsDigit(c: char) {
    '0' <= c <= '9'
  }

  function DigitCount(s: string): (n: nat)
    ensures n <= |s| && forall k :: 0 <= k < n ==> IsDigit(s[k])
    ensures n < |s| ==> !IsDigit(s[n])
  {
    if s == [] || !IsDigit(s[0]) then 0 else 1 + DigitCount(s[1..])
  }

  /** Length of an optional fraction or exponent at the head of `s`: 0 when absent, None when it has no digit. */
  function FractionLength(s: string): (n: Option<nat>)
    ensures n.Some? ==> n.value <= |s|
  {
    if s == [] || s[0] != '.' then Some(0)
    else
      var d := DigitCount(s[1..]);
      if d == 0 then None else Some(1 + d)
  }

  function ExponentLength(s: string): (n: Option<nat>)
    ensures n.Some? ==> n.value <= |s|
  {
    if s == [] || (s[0] != 'e' && s[0] != 'E') then Some(0)
    else
      var sign := if |s| > 1 && (s[1] == '+' || s[1] == '-') then 2 else 1;
      var d := DigitCount(s[sign..]);
      if d == 0 then None else Some(sign + d)
  }

  /** Length of the number at the head of `s`. */
  function NumberLength(s: string): (n: Option<nat>)
    ensures n.Some? ==> 0 < n.value <= |s|
  {
    var a := if s != [] && s[0] == '-' then 1 else 0;
    var d := DigitCount(s[a..]);
    if d == 0 then None
    else
      var b := a + (if s[a] == '0' then 1 else d);
      match FractionLength(s[b..])
      case None => None
      case Some(f) =>
        match ExponentLength(s[b + f..])
        case None => None
        case Some(e) => Some(b + f + e)
  }

  function NatText(n: nat): (s: string)
    ensures s != []
  {
    if n < 10 then ['0' + n as char] else NatText(n / 10) + ['0' + (n % 10) as char]
  }

  function IntText(n: int): (s: string)
    ensures s != []
  {
    if n < 0 then ['-'] + NatText(-n) else NatText(n)
  }

  predicate AllDigits(s: string) {
    forall k :: 0 <= k < |s| ==> IsDigit(s[k])
  }

  function NatOf(s: string): nat
    requires AllDigits(s)
  {
    if s == [] then 0
    else
      var c := s[|s| - 1];
      assert IsDigit(c);
      NatOf(s[..|s| - 1]) * 10 + (c - '0') as nat
  }

  /** The integer a number literal denotes, when it has neither fraction nor exponent. */
  function IntOf(s: string): Option<int> {
    if s != [] && s[0] == '-' then
      if |s| > 1 && AllDigits(s[1..]) then Some(-(NatOf(s[1..]) as int)) else None
    else if s != [] && AllDigits(s) then Some(NatOf(s)) else None
  }

  lemma {:induction false} NatTextDigits(n: nat)
    ensures AllDigits(NatText(n)) && NatOf(NatText(n)) == n
    ensures NatText(n)[0] == '0' ==> n == 0
  {
    if n >= 10 {
      NatTextDigits(n / 10);
      var t := NatText(n / 10);
      assert NatText(n)[..|t|] == t;
    } else {
      assert NatText(n)[..0] == [];
    }
  }

  lemma IntTextDenotes(n: int)
    ensures IntOf(IntText(n)) == Some(n)
  {
    if n < 0 {
      NatTextDigits(-n);
      assert IntText(n)[1..] == NatText(-n);
    } else {
      NatTextDigits(n);
    }
  }

  // ---------- values ----------

  predicate IsSpace(c: char) {
    c == ' ' || c == '\t' || c == '\n' || c == '\r'
  }

  function SkipSpace(s: string): (t: string)
    ensures |t| <= |s|
  {
    if s == [] || !IsSpace(s[0]) then s else SkipSpace(s[1..])
  }

  type Members = seq<(string, string)>

  /** What `s` loses to reach `rest`. */
  function Consumed(s: string, rest: string): string {
    if |rest| <= |s| then s[..|s| - |rest|] else []
  }

  function ReadLiteral(word: string, s: string): (r: Option<Parsed<string>>)
    requires word != []
    ensures r.Some? ==> |r.value.rest| < |s|
  {
    if word <= s then Some(Parsed(word, s[|word|..])) else None
  }

  function ReadNumber(s: string): (r: Option<Parsed<string>>)
    ensures r.Some? ==> |r.value.rest| < |s|
  {
    match NumberLength(s)
    case None => None
    case Some(n) => Some(Parsed(s[..n], s[n..]))
  }

  /** The text of the value at the head of `s`: the scan that delimits a raw message. */
  function ReadValue(s: string): (r: Option<Parsed<string>>)
    ensures r.Some? ==> |r.value.rest| < |s|
    decreases |s|, 1
  {
    if s == [] then None
    else if s[0] == '"' then
      match ReadString(s[1..])
      case None => None
      case Some(p) => Some(Parsed(Consumed(s, p.rest), p.rest))
    else if s[0] == '{' then
      match ReadMembers(s[1..])
      case None => None
      case Some(p) => Some(Parsed(Consumed(s, p.rest), p.rest))
    else if s[0] == '[' then
      match ReadElements(s[1..])
      case None => None
      case Some(rest) => Some(Parsed(Consumed(s, rest), rest))
    else if s[0] == 't' then ReadLiteral("true", s)
    else if s[0] == 'f' then ReadLiteral("false", s)
    else if s[0] == 'n' then ReadLiteral("null", s)
    else ReadNumber(s)
  }

  /** The members of an object after its opening brace, each with the raw text of its value. */
  function ReadMembers(s: string): (r: Option<Parsed<Members>>)
    ensures r.Some? ==> |r.value.rest| < |s|
    decreases |s|, 3
  {
    var t := SkipSpace(s);
    if t != [] && t[0] == '}' then Some(Parsed([], t[1..])) else ReadMemberList(t)
  }

  function ReadMemberList(s: string): (r: Option<Parsed<Members>>)
    ensures r.Some? ==> |r.value.rest| < |s|
    decreases |s|, 2
  {
    if s == [] || s[0] != '"' then None
    else
      match ReadString(s[1..])
      case None => None
      case Some(Parsed(key, t)) =>
        var u := SkipSpace(t);
        if u == [] || u[0] != ':' then None
        else
          match ReadValue(SkipSpace(u[1..]))
          case None => None
          case Some(Parsed(raw, v)) =>
            var w := SkipSpace(v);
            if w != [] && w[0] == '}' then Some(Parsed([(key, raw)], w[1..]))
            else if w == [] || w[0] != ',' then None
            else
              match ReadMemberList(SkipSpace(w[1..]))
              case None => None
              case Some(Parsed(ms, rest)) => Some(Parsed([(key, raw)] + ms, rest))
  }

  /** Skips the elements of an array after its opening bracket. */
  function ReadElements(s: string): (r: Option<string>)
    ensures r.Some? ==> |r.value| < |s|
    decreases |s|, 3
  {
    var t := SkipSpace(s);
    if t != [] && t[0] == ']' then Some(t[1..]) else ReadElementList(t)
  }

  function ReadElementList(s: string): (r: Option<string>)
    ensures r.Some? ==> |r.value| < |s|
    decreases |s|, 2
  {
    match ReadValue(s)
    case None => None
    case Some(p) =>
      var w := SkipSpace(p.rest);
      if w != [] && w[0] == ']' then Some(w[1..])
      else if w == [] || w[0] != ',' then None
      else ReadElementList(SkipSpace(w[1..]))
  }

  // ---------- whole texts ----------

  datatype Document = Malformed | NullDocument | ObjectDocument(members: Members) | OtherDocument

  /** A text that is one JSON value, surrounded by nothing but white space. */
  function ReadDocument(text: string): Document {
    var t := SkipSpace(text);
    match ReadValue(t)
    case None => Malformed
    case Some(Parsed(raw, rest)) =>
      if SkipSpace(rest) != [] then Malformed
      else if raw == "null" then NullDocument
      else if t[0] == '{' then
        match ReadMembers(t[1..])
        case None => Malformed
        case Some(p) => ObjectDocument(p.value)
      else OtherDocument
  }

  /** Members whose names and raw values are written back as one compact object. */
  function RenderList(ms: Members): string
    requires ms != []
  {
    Quote(ms[0].0) + [':'] + ms[0].1 + (if |ms| == 1 then ['}'] else [','] + RenderList(ms[1..]))
  }

  function Render(ms: Members): string {
    if ms == [] then "{}" else ['{'] + RenderList(ms)
  }

  ghost predicate EndsValue(rest: string) {
    rest == [] || rest[0] == ',' || rest[0] == '}'
  }

  /** A raw value that the scan finds again in front of anything that may follow a member. */
  ghost predicate Delimited(raw: string) {
    && raw != [] && !IsSpace(raw[0])
    && forall rest :: EndsValue(rest) ==> ReadValue(raw + rest) == Some(Parsed(raw, rest))
  }

  ghost predicate AllDelimited(ms: Members) {
    forall m :: m in ms ==> Delimited(m.1)
  }

  lemma QuoteDelimited(s: string)
    ensures Delimited(Quote(s))
  {
    forall rest ensures ReadValue(Quote(s) + rest) == Some(Parsed(Quote(s), rest)) {
      QuotedHead(s, rest);
      SliceOfAppend(Quote(s), rest, 0);
    }
  }

  lemma {:induction false} DigitCountOf(s: string, rest: string)
    requires AllDigits(s) && (rest == [] || !IsDigit(rest[0]))
    ensures DigitCount(s + rest) == |s|
    decreases |s|
  {
    if s == [] {
      assert s + rest == rest;
    } else {
      assert (s + rest)[1..] == s[1..] + rest;
      DigitCountOf(s[1..], rest);
    }
  }

  /** A number whose digits run up to a delimiter is scanned whole. */
  lemma NumberScanned(s: string, a: nat, d: nat, rest: string)
    requires a == (if s != [] && s[0] == '-' then 1 else 0)
    requires a + d <= |s| && 0 < d && DigitCount(s[a..]) == d
    requires s[a] == '0' ==> d == 1
    requires s[a + d..] == rest && EndsValue(rest)
    ensures NumberLength(s) == Some(a + d)
  {
    assert rest[0..] == rest;
  }

  lemma NumberValue(s: string, n: nat)
    requires NumberLength(s) == Some(n) && (s[0] == '-' || IsDigit(s[0]))
    ensures ReadValue(s) == Some(Parsed(s[..n], s[n..]))
  {
    var c := s[0];
    assert c != '"' && c != '{' && c != '[' && c != 't' && c != 'f' && c != 'n';
    assert ReadValue(s) == ReadNumber(s);
  }

  lemma IntScanned(n: int, rest: string)
    requires EndsValue(rest)
    ensures ReadValue(IntText(n) + rest) == Some(Parsed(IntText(n), rest))
  {
    var t, s := IntText(n), IntText(n) + rest;
    var a, m := if n < 0 then 1 else 0, if n < 0 then -n else n;
    NatTextDigits(m);
    assert t[a..] == NatText(m);
    SliceOfAppend(t, rest, a);
    DigitCountOf(NatText(m), rest);
    assert s[a] == NatText(m)[0] && IsDigit(NatText(m)[0]);
    NumberScanned(s, a, |NatText(m)|, rest);
    NumberValue(s, |t|);
  }

  lemma IntDelimited(n: int)
    ensures Delimited(IntText(n))
  {
    var m := if n < 0 then -n else n;
    NatTextDigits(m);
    assert IsDigit(NatText(m)[0]);
    forall rest | EndsValue(rest) ensures ReadValue(IntText(n) + rest) == Some(Parsed(IntText(n), rest)) {
      IntScanned(n, rest);
    }
  }

  lemma SliceOfAppend(a: string, b: string, k: nat)
    requires k <= |a|
    ensures (a + b)[k..] == a[k..] + b && (a + b)[..k] == a[..k]
    ensures (a + b)[|a|..] == b && (a + b)[..|a|] == a
  {
  }

  lemma LiteralDelimited(raw: string)
    requires raw == "null" || raw == "true" || raw == "false"
    ensures Delimited(raw)
  {
    forall rest ensures ReadValue(raw + rest) == Some(Parsed(raw, rest)) {
      var s := raw + rest;
      assert s[|raw|..] == rest && raw <= s && s[0] == raw[0];
      assert ReadLiteral(raw, s) == Some(Parsed(raw, rest));
    }
  }

  /** One member at the head of a list, given where its parts end. */
  lemma ReadMemberAt(s: string, key: string, colon: string, raw: string, tail: string)
    requires s != [] && s[0] == '"' && ReadString(s[1..]) == Some(Parsed(key, colon))
    requires |colon| > 1 && colon[0] == ':' && !IsSpace(colon[1]) && ReadValue(colon[1..]) == Some(Parsed(raw, tail))
    requires tail != [] && EndsValue(tail)
    ensures tail[0] == '}' ==> ReadMemberList(s) == Some(Parsed([(key, raw)], tail[1..]))
    ensures tail[0] == ',' && |tail| > 1 && tail[1] == '"' && ReadMemberList(tail[1..]).Some? ==>
      var p := ReadMemberList(tail[1..]).value; ReadMemberList(s) == Some(Parsed([(key, raw)] + p.value, p.rest))
  {
    assert SkipSpace(colon) == colon && SkipSpace(colon[1..]) == colon[1..] && SkipSpace(tail) == tail;
  }

  lemma ReadMember(key: string, raw: string, tail: string, s: string)
    requires raw != [] && !IsSpace(raw[0]) && ReadValue(raw + tail) == Some(Parsed(raw, tail))
    requires tail != [] && EndsValue(tail)
    requires s == Quote(key) + ([':'] + (raw + tail))
    ensures tail[0] == '}' ==> ReadMemberList(s) == Some(Parsed([(key, raw)], tail[1..]))
    ensures tail[0] == ',' && |tail| > 1 && tail[1] == '"' && ReadMemberList(tail[1..]).Some? ==>
      var p := ReadMemberList(tail[1..]).value; ReadMemberList(s) == Some(Parsed([(key, raw)] + p.value, p.rest))
  {
    var value := raw + tail;
    var colon := [':'] + value;
    QuotedHead(key, colon);
    assert colon[1..] == value && value[0] == raw[0];
    ReadMemberAt(s, key, colon, raw, tail);
  }

  lemma QuotedHead(key: string, rest: string)
    ensures var s := Quote(key) + rest; s[0] == '"' && ReadString(s[1..]) == Some(Parsed(key, rest))
  {
    var s, body := Quote(key) + rest, EscapeAll(key) + ['"'] + rest;
    ReadQuoted(key, rest);
    assert s == ['"'] + body;
    assert s[1..] == body;
  }

  lemma RenderListShape(ms: Members, rest: string) returns (tail: string)
    requires ms != []
    ensures RenderList(ms) + rest == Quote(ms[0].0) + ([':'] + (ms[0].1 + tail))
    ensures |ms| == 1 ==> tail == ['}'] + rest
    ensures |ms| > 1 ==> tail == [','] + (RenderList(ms[1..]) + rest)
  {
    var end := if |ms| == 1 then ['}'] else [','] + RenderList(ms[1..]);
    tail := end + rest;
    FourParts(Quote(ms[0].0), [':'], ms[0].1, end, rest);
    if |ms| > 1 {
      AppendAssociates([','], RenderList(ms[1..]), rest);
    }
  }

  lemma FourParts(a: string, b: string, c: string, d: string, e: string)
    ensures a + b + c + d + e == a + (b + (c + (d + e)))
  {
  }

  lemma Scanned(raw: string, rest: string)
    requires Delimited(raw) && EndsValue(rest)
    ensures raw != [] && !IsSpace(raw[0]) && ReadValue(raw + rest) == Some(Parsed(raw, rest))
  {
  }

  lemma {:induction false} ReadRenderedList(ms: Members, rest: string)
    requires ms != [] && AllDelimited(ms)
    ensures ReadMemberList(RenderList(ms) + rest) == Some(Parsed(ms, rest))
    decreases |ms|
  {
    var key, raw := ms[0].0, ms[0].1;
    var tail := RenderListShape(ms, rest);
    assert ms[0] in ms;
    Scanned(raw, tail);
    ReadMember(key, raw, tail, RenderList(ms) + rest);
    if |ms| == 1 {
      assert tail[1..] == rest && ms == [(key, raw)];
    } else {
      var more := ms[1..];
      ReadRenderedList(more, rest);
      assert RenderList(more)[0] == '"';
      assert tail[1..] == RenderList(more) + rest;
      assert ms == [(key, raw)] + more;
    }
  }

  /** An object of delimited values is read back member by member, and is itself delimited: nesting is exact
      whatever quotes, braces or escapes the inner text holds. */
  lemma RenderReads(ms: Members, rest: string)
    requires AllDelimited(ms)
    ensures ReadMembers((Render(ms) + rest)[1..]) == Some(Parsed(ms, rest))
    ensures ReadValue(Render(ms) + rest) == Some(Parsed(Render(ms), rest))
  {
    var text := Render(ms);
    var s := text + rest;
    RenderMembersRead(ms, rest, s[1..]);
    SliceOfAppend(text, rest, 0);
    ReadObject(s, Parsed(ms, rest));
  }

  lemma ReadObject(s: string, p: Parsed<Members>)
    requires s != [] && s[0] == '{' && ReadMembers(s[1..]) == Some(p)
    ensures |p.rest| < |s| && ReadValue(s) == Some(Parsed(s[..|s| - |p.rest|], p.rest))
  {
  }

  lemma RenderMembersRead(ms: Members, rest: string, body: string)
    requires AllDelimited(ms)
    requires body == (Render(ms) + rest)[1..]
    ensures ReadMembers(body) == Some(Parsed(ms, rest))
  {
    if ms == [] {
      assert body == ['}'] + rest && body[1..] == rest;
    } else {
      ReadRenderedList(ms, rest);
      AppendAssociates(['{'], RenderList(ms), rest);
      assert body == RenderList(ms) + rest;
      assert RenderList(ms)[0] == '"';
      assert SkipSpace(body) == body;
    }
  }

  lemma RenderDelimited(ms: Members)
    requires AllDelimited(ms)
    ensures Delimited(Render(ms))
    ensures ReadDocument(Render(ms)) == ObjectDocument(ms)
  {
    forall rest ensures ReadValue(Render(ms) + rest) == Some(Parsed(Render(ms), rest)) {
      RenderReads(ms, rest);
    }
    RenderReads(ms, []);
    assert Render(ms) + [] == Render(ms);
  }
}
