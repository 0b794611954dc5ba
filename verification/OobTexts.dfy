/** The texts of the out-of-band messages, written out: what each payload is on the wire, and what the decoder makes of
    texts that another program may write. */
module OobTexts {
  import opened Json
  import opened Lists
  import opened Oob
  import opened Wire

  // ---------- JSON text, character by character ----------

  /** RFC 8259 section 7, with the additional escapes of Go's encoder. */
  lemma EscapesByHand()
    ensures Escape('"') == "\\\"" && Escape('\\') == "\\\\" && Escape('/') == "/" && Escape('a') == "a"
    ensures Escape('\n') == "\\n" && Escape('\r') == "\\r" && Escape('\t') == "\\t"
    ensures Escape('\U{8}') == "\\b" && Escape('\U{C}') == "\\f"
    ensures Escape('\U{0}') == "\\u0000" && Escape('\U{1F}') == "\\u001f"
    ensures Escape('<') == "\\u003c" && Escape('>') == "\\u003e" && Escape('&') == "\\u0026"
    ensures Escape('\U{2028}') == "\\u2028" && Escape('\U{2029}') == "\\u2029"
  {
  }

  lemma HexByHand()
    ensures Hex4("003C") == Some(0x3C) && Hex4("003c") == Some(0x3C) && Hex4("d83d") == Some(0xD83D)
    ensures Hex4("DE00") == Some(0xDE00) && Hex4("00g0") == None && Hex4("123") == None
  {
  }

  /** Escapes that Go's encoder does not write but its decoder reads, a surrogate pair among them. */
  lemma ReadsByHand(rest: string)
    ensures ReadChar("\\/" + rest) == Some(Parsed('/', rest))
    ensures ReadChar("\\u003C" + rest) == Some(Parsed('<', rest))
    ensures ReadChar("\\x" + rest) == None && ReadChar("\n" + rest) == None
  {
    HexByHand();
    FirstFour("003C", rest);
    assert ("\\u003C" + rest)[2..] == "003C" + rest;
    assert ("\\/" + rest)[2..] == rest && ("003C" + rest)[4..] == rest;
  }

  lemma SurrogatePair(s: string, rest: string)
    requires |s| >= 10 && Hex4(s) == Some(0xD83D) && "\\u" <= s[4..] && Hex4(s[6..]) == Some(0xDE00) && s[10..] == rest
    ensures ReadUnicodeEscape(s) == Some(Parsed('\U{1F600}', rest))
  {
  }

  lemma PairText(rest: string)
    ensures var s := "d83d\\uDE00" + rest;
      Hex4(s) == Some(0xD83D) && "\\u" <= s[4..] && Hex4(s[6..]) == Some(0xDE00) && s[10..] == rest
  {
    HexByHand();
    FirstFour("d83d", "\\uDE00" + rest);
    FirstFour("DE00", rest);
    var s := "d83d\\uDE00" + rest;
    assert s == "d83d" + ("\\uDE00" + rest) && s[4..] == "\\uDE00" + rest && s[6..] == "DE00" + rest;
  }

  lemma ReadsSurrogates(rest: string)
    ensures ReadChar("\\ud83d\\uDE00" + rest) == Some(Parsed('\U{1F600}', rest))
  {
    PairText(rest);
    SurrogatePair("d83d\\uDE00" + rest, rest);
    assert ("\\ud83d\\uDE00" + rest)[2..] == "d83d\\uDE00" + rest;
  }

  lemma FirstFour(s: string, rest: string)
    requires |s| == 4
    ensures Hex4(s + rest) == Hex4(s)
  {
  }

  lemma NumbersByHand()
    ensures IntText(0) == "0" && IntText(7) == "7" && IntText(-120) == "-120"
  {
    assert NatText(1) == "1" && NatText(12) == "12" && NatText(120) == "120";
  }

  predicate Plain(s: string) {
    forall k :: 0 <= k < |s| ==> 'a' <= s[k] <= 'z' || s[k] == '_'
  }

  lemma {:induction false} PlainQuote(s: string)
    requires Plain(s)
    ensures EscapeAll(s) == s && Quote(s) == "\"" + s + "\""
  {
    if s != [] {
      PlainQuote(s[1..]);
      assert Escape(s[0]) == [s[0]];
      assert s == [s[0]] + s[1..];
    }
  }

  // ---------- encoding ----------

  lemma LastField(name: string, raw: string)
    requires Plain(name)
    ensures RenderList([(name, raw)]) == "\"" + name + "\":" + raw + "}"
  {
    PlainQuote(name);
    assert "\"" + name + "\"" + ":" == "\"" + name + "\":";
  }

  lemma FieldBefore(name: string, raw: string, ms: Members)
    requires Plain(name) && ms != []
    ensures RenderList([(name, raw)] + ms) == "\"" + name + "\":" + raw + ("," + RenderList(ms))
  {
    PlainQuote(name);
    assert "\"" + name + "\"" + ":" == "\"" + name + "\":";
    assert ([(name, raw)] + ms)[1..] == ms;
  }

  lemma OneField(name: string, raw: string)
    requires Plain(name)
    ensures Render([(name, raw)]) == "{\"" + name + "\":" + raw + "}"
  {
    LastField(name, raw);
    assert "{" + ("\"" + name + "\":" + raw + "}") == "{\"" + name + "\":" + raw + "}";
  }

  lemma TwoFields(a: string, x: string, b: string, y: string)
    requires Plain(a) && Plain(b)
    ensures Render([(a, x), (b, y)]) == "{\"" + a + "\":" + x + ("," + ("\"" + b + "\":" + y + "}"))
  {
    LastField(b, y);
    FieldBefore(a, x, [(b, y)]);
    assert [(a, x)] + [(b, y)] == [(a, x), (b, y)];
    var rest := "," + ("\"" + b + "\":" + y + "}");
    assert "{" + ("\"" + a + "\":" + x + rest) == "{\"" + a + "\":" + x + rest;
  }

  lemma Pieces(open: string, a: string, colon: string, q: string, tag: string, comma: string, b: string, inner: string,
               close: string)
    ensures open + a + colon + (q + tag + q) + (comma + (q + b + colon + inner + close)) ==
      (open + a + (colon + q)) + tag + ((q + comma + q) + b + colon) + inner + close
  {
  }

  lemma EnvelopeOf(a: string, tag: string, b: string, inner: string)
    requires Plain(a) && Plain(tag) && Plain(b)
    ensures Render([(a, Quote(tag)), (b, inner)]) ==
      ("{\"" + a + "\":\"") + tag + ("\",\"" + b + "\":") + inner + "}"
  {
    TwoFields(a, Quote(tag), b, inner);
    PlainQuote(tag);
    Pieces("{\"", a, "\":", "\"", tag, ",", b, inner, "}");
  }

  lemma EnvelopeText(tag: string, inner: string)
    requires Plain(tag)
    ensures Render([(TYPE, Quote(tag)), (DATA, inner)]) == "{\"type\":\"" + tag + "\",\"data\":" + inner + "}"
  {
    EnvelopeOf(TYPE, tag, DATA, inner);
    assert "{\"" + TYPE + "\":\"" == "{\"type\":\"";
    assert "\",\"" + DATA + "\":" == "\",\"data\":";
  }

  lemma EncodeWith(p: Payload, tag: string, inner: string)
    requires Tag(p) == tag && Render(Fields(p)) == inner && Plain(tag)
    ensures Encode(p) == "{\"type\":\"" + tag + "\",\"data\":" + inner + "}"
  {
    EnvelopeText(tag, inner);
  }

  lemma Joined(a: string, tag: string, b: string, c: string, name: string, d: string, x: string, e: string)
    ensures a + tag + b + (c + name + d + x + e) + e == (a + tag + b + c + name + d) + x + (e + e)
  {
  }

  lemma OneFieldEnvelope(tag: string, name: string, raw: string)
    requires Plain(tag) && Plain(name)
    ensures Render([(TYPE, Quote(tag)), (DATA, Render([(name, raw)]))]) ==
      ("{\"type\":\"" + tag + "\",\"data\":" + "{\"" + name + "\":") + raw + ("}" + "}")
  {
    OneField(name, raw);
    EnvelopeText(tag, "{\"" + name + "\":" + raw + "}");
    Joined("{\"type\":\"", tag, "\",\"data\":", "{\"", name, "\":", raw, "}");
  }

  lemma OneFieldText(p: Payload, tag: string, name: string, raw: string)
    requires Tag(p) == tag && Fields(p) == [(name, raw)] && Plain(tag) && Plain(name)
    ensures Encode(p) == ("{\"type\":\"" + tag + "\",\"data\":" + "{\"" + name + "\":") + raw + ("}" + "}")
  {
    OneFieldEnvelope(tag, name, raw);
  }

  lemma StartOKHead()
    ensures "{\"type\":\"" + START_OK + "\",\"data\":" + "{\"" + PID + "\":" ==
      "{\"type\":\"start_ok\",\"data\":{\"pid\":"
  {
  }

  lemma StartErrHead()
    ensures "{\"type\":\"" + START_ERR + "\",\"data\":" + "{\"" + ERROR + "\":" ==
      "{\"type\":\"start_err\",\"data\":{\"error\":"
  {
  }

  lemma StderrHead()
    ensures "{\"type\":\"" + PROCESS_STDERR + "\",\"data\":" + "{\"" + LINE + "\":" ==
      "{\"type\":\"process_stderr\",\"data\":{\"line\":"
  {
  }
  lemma ShutdownWhole()
    ensures "{\"type\":\"" + SHUTDOWN + "\",\"data\":" + "{}" + "}" == "{\"type\":\"shutdown\",\"data\":{}}"
  {
  }

  lemma EndsTwice()
    ensures "}" + "}" == "}}"
  {
  }

  lemma StartOKText(p: Payload)
    requires p.StartOK?
    ensures Encode(p) == "{\"type\":\"start_ok\",\"data\":{\"pid\":" + IntText(p.pid) + "}}"
    ensures Decode("{\"type\":\"start_ok\",\"data\":{\"pid\":" + IntText(p.pid) + "}}") == Some(p)
  {
    OneFieldText(p, START_OK, PID, IntText(p.pid));
    StartOKHead();
    EndsTwice();
    RoundTrip(p);
  }

  lemma StartErrText(p: Payload)
    requires p.StartErr?
    ensures Encode(p) == "{\"type\":\"start_err\",\"data\":{\"error\":" + Quote(p.error) + "}}"
    ensures Decode("{\"type\":\"start_err\",\"data\":{\"error\":" + Quote(p.error) + "}}") == Some(p)
  {
    OneFieldText(p, START_ERR, ERROR, Quote(p.error));
    StartErrHead();
    EndsTwice();
    RoundTrip(p);
  }

  lemma StderrText(p: Payload)
    requires p.ProcessStderr?
    ensures Encode(p) == "{\"type\":\"process_stderr\",\"data\":{\"line\":" + Quote(p.line) + "}}"
    ensures Decode("{\"type\":\"process_stderr\",\"data\":{\"line\":" + Quote(p.line) + "}}") == Some(p)
  {
    OneFieldText(p, PROCESS_STDERR, LINE, Quote(p.line));
    StderrHead();
    EndsTwice();
    RoundTrip(p);
  }

  lemma ShutdownText(p: Payload)
    requires p == Shutdown
    ensures Encode(p) == "{\"type\":\"shutdown\",\"data\":{}}"
    ensures Decode("{\"type\":\"shutdown\",\"data\":{}}") == Some(p)
  {
    EncodeWith(p, SHUTDOWN, "{}");
    ShutdownWhole();
    RoundTrip(p);
  }

  lemma Flat(p: string, qa: string, x: string, cm: string, qb: string, y: string, qc: string, z: string, e: string)
    ensures p + (qa + x + (cm + (qb + y + (cm + (qc + z + e))))) == (p + qa) + x + (cm + qb) + y + (cm + qc) + z + e
  {
  }

  lemma ThreeFields(a: string, x: string, b: string, y: string, c: string, z: string)
    requires Plain(a) && Plain(b) && Plain(c)
    ensures Render([(a, x), (b, y), (c, z)]) ==
      ("{" + ("\"" + a + "\":")) + x + ("," + ("\"" + b + "\":")) + y + ("," + ("\"" + c + "\":")) + z + "}"
  {
    LastField(c, z);
    FieldBefore(b, y, [(c, z)]);
    FieldBefore(a, x, [(b, y), (c, z)]);
    assert [(b, y)] + [(c, z)] == [(b, y), (c, z)];
    assert [(a, x)] + [(b, y), (c, z)] == [(a, x), (b, y), (c, z)];
    Flat("{", "\"" + a + "\":", x, ",", "\"" + b + "\":", y, "\"" + c + "\":", z, "}");
  }

  lemma Nested(head: string, k1: string, x: string, k2: string, y: string, k3: string, z: string, e: string)
    ensures head + (k1 + x + k2 + y + k3 + z + e) + e == (head + k1) + x + k2 + y + k3 + z + (e + e)
  {
  }

  lemma ExitedHeads()
    ensures "{\"type\":\"" + SERVER_EXITED + "\",\"data\":" + ("{" + ("\"" + EXIT_CODE + "\":")) ==
      "{\"type\":\"server_exited\",\"data\":{\"exit_code\":"
    ensures "," + ("\"" + KILLED + "\":") == ",\"killed\":" && "," + ("\"" + ERROR + "\":") == ",\"error\":"
  {
  }

  lemma ThreeFieldsText(p: Payload, tag: string, a: string, x: string, b: string, y: string, c: string, z: string)
    requires Tag(p) == tag && Fields(p) == [(a, x), (b, y), (c, z)] && Plain(tag) && Plain(a) && Plain(b) && Plain(c)
    ensures Encode(p) ==
      ("{\"type\":\"" + tag + "\",\"data\":" + ("{" + ("\"" + a + "\":"))) + x +
      ("," + ("\"" + b + "\":")) + y + ("," + ("\"" + c + "\":")) + z + ("}" + "}")
  {
    ThreeFields(a, x, b, y, c, z);
    EncodeWith(p, tag, Render([(a, x), (b, y), (c, z)]));
    Nested("{\"type\":\"" + tag + "\",\"data\":", "{" + ("\"" + a + "\":"), x, "," + ("\"" + b + "\":"), y,
           "," + ("\"" + c + "\":"), z, "}");
  }

  lemma ExitedText(p: Payload)
    requires p.ServerExited?
    ensures Encode(p) ==
      "{\"type\":\"server_exited\",\"data\":{\"exit_code\":" +
      (if p.exitCode.None? then "null" else IntText(p.exitCode.value)) +
      ",\"killed\":" + (if p.killed then "true" else "false") + ",\"error\":" + Quote(p.exitError) + "}}"
    ensures Decode("{\"type\":\"server_exited\",\"data\":{\"exit_code\":" +
      (if p.exitCode.None? then "null" else IntText(p.exitCode.value)) +
      ",\"killed\":" + (if p.killed then "true" else "false") + ",\"error\":" + Quote(p.exitError) + "}}") == Some(p)
  {
    ThreeFieldsText(p, SERVER_EXITED, EXIT_CODE, if p.exitCode.None? then "null" else IntText(p.exitCode.value),
                    KILLED, if p.killed then "true" else "false", ERROR, Quote(p.exitError));
    ExitedHeads();
    EndsTwice();
    RoundTrip(p);
  }

  // ---------- decoding what another program may write ----------

  lemma DecodesEnvelope(tag: string, data: Members)
    requires AllDelimited(data)
    ensures Decode(Render([(TYPE, Quote(tag)), (DATA, Render(data))])) == DecodePayload(tag, data)
  {
    RenderDelimited(data);
    DecodeEnvelope(tag, Render(data));
    DecodeParts(Render([(TYPE, Quote(tag)), (DATA, Render(data))]), [(TYPE, Quote(tag)), (DATA, Render(data))], tag,
                Render(data), data);
  }

  lemma PidSetting(n: int)
    ensures IntSetting(IntText(n)) == if -0x8000_0000_0000_0000 <= n < 0x8000_0000_0000_0000 then Set(n) else Mismatch
  {
    IntTextDenotes(n);
    var m: nat := if n < 0 then -n else n;
    NatTextDigits(m);
    assert IsDigit(NatText(m)[0]);
    assert IntText(n)[0] != 'n';
    assert IntText(n) != "null";
  }

  lemma PidOf(n: int, data: Members)
    requires data == [(PID, IntText(n))]
    ensures DecodePayload(START_OK, data) ==
      if -0x8000_0000_0000_0000 <= n < 0x8000_0000_0000_0000 then Some(StartOK(n)) else None
  {
    PidSetting(n);
    assert Matches(PID, PID) && data[1..] == [];
    if -0x8000_0000_0000_0000 <= n < 0x8000_0000_0000_0000 {
      var pid: Int64 := n;
      FieldFirst<Int64>(data, PID, IntSetting, 0, pid);
    } else {
      assert Field<Int64>(data, PID, IntSetting, 0) == None;
    }
  }

  lemma PidText(n: int)
    ensures Render([(TYPE, Quote(START_OK)), (DATA, Render([(PID, IntText(n))]))]) ==
      "{\"type\":\"start_ok\",\"data\":{\"pid\":" + IntText(n) + "}}"
  {
    OneFieldEnvelope(START_OK, PID, IntText(n));
    StartOKHead();
    EndsTwice();
  }

  /** Any integer in place of the process id: it is read exactly, and refused when it does not fit in 64 bits. */
  lemma DecodesAnyInteger(n: int, text: string)
    requires text == "{\"type\":\"start_ok\",\"data\":{\"pid\":" + IntText(n) + "}}"
    ensures Decode(text) == if -0x8000_0000_0000_0000 <= n < 0x8000_0000_0000_0000 then Some(StartOK(n)) else None
  {
    PidText(n);
    PidDecoded(n, text);
  }

  lemma PidDecoded(n: int, text: string)
    requires text == Render([(TYPE, Quote(START_OK)), (DATA, Render([(PID, IntText(n))]))])
    ensures Decode(text) == if -0x8000_0000_0000_0000 <= n < 0x8000_0000_0000_0000 then Some(StartOK(n)) else None
  {
    IntDelimited(n);
    DecodesEnvelope(START_OK, [(PID, IntText(n))]);
    PidOf(n, [(PID, IntText(n))]);
  }

  /** A type that is none of the five is an error, whatever the data. */
  lemma RefusesUnknownType(tag: string, data: Members)
    requires AllDelimited(data)
    requires tag != "start_ok" && tag != "start_err" && tag != "shutdown"
    requires tag != "server_exited" && tag != "process_stderr"
    ensures Decode(Render([("type", Quote(tag)), ("data", Render(data))])) == None
  {
    DecodesEnvelope(tag, data);
  }

  /** The order of the members does not matter, and members of other names are ignored whatever they hold. */
  lemma DecodesOtherOrder(tag: string, data: Members, other: string, raw: string)
    requires AllDelimited(data) && Delimited(raw) && !Matches(other, TYPE) && !Matches(other, DATA)
    ensures Decode(Render([(DATA, Render(data)), (other, raw), (TYPE, Quote(tag))])) == DecodePayload(tag, data)
  {
    var ms := [(DATA, Render(data)), (other, raw), (TYPE, Quote(tag))];
    RenderDelimited(data);
    QuoteDelimited(tag);
    RenderDelimited(ms);
    StringSettingOfQuote(tag);
    NamesDiffer();
    FieldFirst(ms, DATA, RawSetting, "", Render(data));
    FieldSkip(ms, TYPE, StringSetting, "");
    FieldSkip(ms[1..], TYPE, StringSetting, "");
    FieldFirst(ms[1..][1..], TYPE, StringSetting, "", tag);
    DecodeParts(Render(ms), ms, tag, Render(data), data);
  }

  lemma NoMembers()
    ensures MembersOf("null") == Some([]) && MembersOf("") == None
  {
    LiteralDelimited("null");
    assert "null" + [] == "null";
    assert ReadValue("null" + []) == Some(Parsed("null", []));
  }

  /** Null data is an object without members. */
  lemma DecodesNullData(tag: string)
    ensures Decode(Render([(TYPE, Quote(tag)), (DATA, "null")])) == DecodePayload(tag, [])
  {
    LiteralDelimited("null");
    NoMembers();
    DecodeEnvelope(tag, "null");
    DecodeParts(Render([(TYPE, Quote(tag)), (DATA, "null")]), [(TYPE, Quote(tag)), (DATA, "null")], tag, "null", []);
  }

  /** Without data there is no payload. */
  lemma RefusesNoData(tag: string)
    ensures Decode(Render([(TYPE, Quote(tag))])) == None
  {
    var ms := [(TYPE, Quote(tag))];
    QuoteDelimited(tag);
    RenderDelimited(ms);
    NamesDiffer();
    FieldAbsent(ms, DATA, RawSetting, "");
    NoRawData(Render(ms), ms);
  }

  lemma NoRawData(text: string, ms: Members)
    requires MembersOf(text) == Some(ms) && Field(ms, DATA, RawSetting, "") == Some("")
    ensures Decode(text) == None
  {
    NoMembers();
  }

  lemma {:induction false} SpaceSkipped(space: string, text: string)
    requires forall k :: 0 <= k < |space| ==> space[k] in " \n\t\r"
    ensures SkipSpace(space + text) == SkipSpace(text)
    decreases |space|
  {
    if space == [] {
      assert space + text == text;
    } else {
      SpaceSkipped(space[1..], text);
      assert (space + text)[1..] == space[1..] + text;
    }
  }

  lemma SameDocument(a: string, b: string)
    requires SkipSpace(a) == SkipSpace(b)
    ensures ReadDocument(a) == ReadDocument(b)
  {
  }

  /** White space before the message does not matter. */
  lemma DecodesAfterSpace(space: string, text: string)
    requires forall k :: 0 <= k < |space| ==> space[k] in " \n\t\r"
    ensures Decode(space + text) == Decode(text)
  {
    SpaceSkipped(space, text);
    SameDocument(space + text, text);
  }

  /** Names match in any case. */
  lemma NamesByHand()
    ensures Matches("type", TYPE) && Matches("TYPE", TYPE) && Matches("Data", DATA) && !Matches("typ", TYPE)
    ensures Matches("exit_code", EXIT_CODE) && Matches("\U{212A}illed", KILLED) && !Matches("exitcode", EXIT_CODE)
    ensures Matches("pid", PID) && Matches("error", ERROR) && Matches("line", LINE)
  {
  }
}
