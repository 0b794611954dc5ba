/** The out-of-band messages: a tagged envelope around a payload, each a JSON object of its own. */
module Oob {
  import opened Json
  import opened Lists
  import opened Wire

  // Go's int
  type Int64 = x: int | -0x8000_0000_0000_0000 <= x < 0x8000_0000_0000_0000

  datatype Payload =
    | StartOK(pid: Int64)
    | StartErr(error: string)
    | Shutdown
    | ServerExited(exitCode: Option<Int64>, killed: bool, exitError: string)
    | ProcessStderr(line: string)

  const TYPE := "type"
  const DATA := "data"
  const START_OK := "start_ok"
  const START_ERR := "start_err"
  const SHUTDOWN := "shutdown"
  const SERVER_EXITED := "server_exited"
  const PROCESS_STDERR := "process_stderr"
  const PID := "pid"
  const ERROR := "error"
  const EXIT_CODE := "exit_code"
  const KILLED := "killed"
  const LINE := "line"

  // ---------- encoding ----------

  function Tag(p: Payload): string {
    match p
    case StartOK(_) => START_OK
    case StartErr(_) => START_ERR
    case Shutdown => SHUTDOWN
    case ServerExited(_, _, _) => SERVER_EXITED
    case ProcessStderr(_) => PROCESS_STDERR
  }

  function Fields(p: Payload): Members {
    match p
    case StartOK(pid) => [(PID, IntText(pid))]
    case StartErr(e) => [(ERROR, Quote(e))]
    case Shutdown => []
    case ServerExited(code, killed, e) =>
      [(EXIT_CODE, if code.None? then "null" else IntText(code.value)),
       (KILLED, if killed then "true" else "false"),
       (ERROR, Quote(e))]
    case ProcessStderr(line) => [(LINE, Quote(line))]
  }

  function Encode(p: Payload): string {
    Render([(TYPE, Quote(Tag(p))), (DATA, Render(Fields(p)))])
  }

  // ---------- decoding ----------

  /** Member names match up to case folding. */
  function Fold(c: char): char {
    if 'A' <= c <= 'Z' then (c as int + 32) as char
    else if c == '\U{17F}' then 's'
    else if c == '\U{212A}' then 'k'
    else c
  }

  predicate Matches(key: string, name: string) {
    |key| == |name| && forall k :: 0 <= k < |key| ==> Fold(key[k]) == Fold(name[k])
  }

  /** The value a member sets: `null` leaves the field alone, and a value of another type is an error. */
  datatype Setting<+T> = Unchanged | Set(value: T) | Mismatch

  function StringSetting(raw: string): Setting<string> {
    if raw == "null" then Unchanged
    else if raw == [] || raw[0] != '"' then Mismatch
    else
      match ReadString(raw[1..])
      case Some(p) => Set(p.value)
      case None => Mismatch
  }

  function IntSetting(raw: string): Setting<Int64> {
    if raw == "null" then Unchanged
    else
      match IntOf(raw)
      case Some(n) => if -0x8000_0000_0000_0000 <= n < 0x8000_0000_0000_0000 then Set(n) else Mismatch
      case None => Mismatch
  }

  /** A pointer field is cleared by `null`. */
  function IntPointerSetting(raw: string): Setting<Option<Int64>> {
    if raw == "null" then Set(None)
    else
      match IntSetting(raw)
      case Set(n) => Set(Some(n))
      case Unchanged => Unchanged
      case Mismatch => Mismatch
  }

  function BoolSetting(raw: string): Setting<bool> {
    if raw == "null" then Unchanged
    else if raw == "true" then Set(true)
    else if raw == "false" then Set(false)
    else Mismatch
  }

  function RawSetting(raw: string): Setting<string> {
    Set(raw)
  }

  /** A field after all members: later ones win, any mismatch fails the whole decoding, others are ignored. */
  function Field<T>(ms: Members, name: string, read: string -> Setting<T>, current: T): Option<T> {
    if ms == [] then Some(current)
    else if !Matches(ms[0].0, name) then Field(ms[1..], name, read, current)
    else
      match read(ms[0].1)
      case Unchanged => Field(ms[1..], name, read, current)
      case Set(v) => Field(ms[1..], name, read, v)
      case Mismatch => None
  }

  /** `null` decodes to an object without members. */
  function MembersOf(text: string): Option<Members> {
    match ReadDocument(text)
    case NullDocument => Some([])
    case ObjectDocument(ms) => Some(ms)
    case Malformed => None
    case OtherDocument => None
  }

  function DecodePayload(tag: string, data: Members): Option<Payload> {
    if tag == START_OK then
      match Field(data, PID, IntSetting, 0) case Some(pid) => Some(StartOK(pid)) case None => None
    else if tag == START_ERR then
      match Field(data, ERROR, StringSetting, "") case Some(e) => Some(StartErr(e)) case None => None
    else if tag == SHUTDOWN then Some(Shutdown)
    else if tag == SERVER_EXITED then
      match (Field(data, EXIT_CODE, IntPointerSetting, None), Field(data, KILLED, BoolSetting, false),
             Field(data, ERROR, StringSetting, ""))
      case (Some(c), Some(k), Some(e)) => Some(ServerExited(c, k, e))
      case _ => None
    else if tag == PROCESS_STDERR then
      match Field(data, LINE, StringSetting, "") case Some(l) => Some(ProcessStderr(l)) case None => None
    else None
  }

  /** The payload of a text message; None for every decoding error and for an unknown type. */
  function Decode(text: string): Option<Payload> {
    match MembersOf(text)
    case None => None
    case Some(ms) =>
      match (Field(ms, TYPE, StringSetting, ""), Field(ms, DATA, RawSetting, ""))
      case (Some(tag), Some(raw)) =>
        (match MembersOf(raw)
         case None => None
         case Some(data) => DecodePayload(tag, data))
      case _ => None
  }

  // ---------- round trip ----------

  lemma FieldsDelimited(p: Payload)
    ensures AllDelimited(Fields(p))
  {
    LiteralDelimited("null");
    LiteralDelimited("true");
    LiteralDelimited("false");
    match p
    case StartOK(pid) => IntDelimited(pid);
    case StartErr(e) => QuoteDelimited(e);
    case Shutdown =>
    case ServerExited(code, killed, e) =>
      QuoteDelimited(e);
      if code.Some? {
        IntDelimited(code.value);
      }
    case ProcessStderr(line) => QuoteDelimited(line);
  }

  lemma StringSettingOfQuote(s: string)
    ensures StringSetting(Quote(s)) == Set(s)
  {
    QuotedHead(s, []);
    assert Quote(s) + [] == Quote(s);
  }

  lemma IntSettingOfText(n: Int64)
    ensures IntSetting(IntText(n)) == Set(n)
    ensures IntPointerSetting(IntText(n)) == Set(Some(n))
  {
    var raw, m: nat := IntText(n), if n < 0 then -(n as int) else n;
    IntTextDenotes(n);
    NatTextDigits(m);
    assert IsDigit(NatText(m)[0]);
    assert raw[0] != 'n';
    assert raw != "null";
  }

  /** Reading a field of an object that has it first, and nowhere else. */
  lemma FieldFirst<T>(ms: Members, name: string, read: string -> Setting<T>, current: T, v: T)
    requires ms != [] && ms[0].0 == name && read(ms[0].1) == Set(v)
    requires forall k :: 1 <= k < |ms| ==> !Matches(ms[k].0, name)
    ensures Field(ms, name, read, current) == Some(v)
  {
    FieldAbsent(ms[1..], name, read, v);
  }

  lemma {:induction false} FieldAbsent<T>(ms: Members, name: string, read: string -> Setting<T>, current: T)
    requires forall k :: 0 <= k < |ms| ==> !Matches(ms[k].0, name)
    ensures Field(ms, name, read, current) == Some(current)
    decreases |ms|
  {
    if ms != [] {
      FieldAbsent(ms[1..], name, read, current);
    }
  }

  lemma FieldSkip<T>(ms: Members, name: string, read: string -> Setting<T>, current: T)
    requires ms != [] && !Matches(ms[0].0, name)
    ensures Field(ms, name, read, current) == Field(ms[1..], name, read, current)
  {
  }

  lemma NamesDiffer()
    ensures !Matches(TYPE, DATA) && !Matches(DATA, TYPE)
    ensures !Matches(EXIT_CODE, KILLED) && !Matches(EXIT_CODE, ERROR)
    ensures !Matches(KILLED, EXIT_CODE) && !Matches(KILLED, ERROR)
    ensures !Matches(ERROR, EXIT_CODE) && !Matches(ERROR, KILLED)
  {
    assert TYPE[0] == 't' && DATA[0] == 'd';
  }

  lemma DecodeExited(code: Option<Int64>, killed: bool, e: string)
    ensures var ms := Fields(ServerExited(code, killed, e));
      && Field(ms, EXIT_CODE, IntPointerSetting, None) == Some(code)
      && Field(ms, KILLED, BoolSetting, false) == Some(killed)
      && Field(ms, ERROR, StringSetting, "") == Some(e)
  {
    var ms := Fields(ServerExited(code, killed, e));
    NamesDiffer();
    StringSettingOfQuote(e);
    if code.Some? {
      IntSettingOfText(code.value);
    }
    FieldFirst(ms, EXIT_CODE, IntPointerSetting, None, code);
    FieldSkip(ms, KILLED, BoolSetting, false);
    FieldFirst(ms[1..], KILLED, BoolSetting, false, killed);
    FieldSkip(ms, ERROR, StringSetting, "");
    FieldSkip(ms[1..], ERROR, StringSetting, "");
    FieldFirst(ms[1..][1..], ERROR, StringSetting, "", e);
  }

  lemma DecodeFields(p: Payload)
    ensures DecodePayload(Tag(p), Fields(p)) == Some(p)
  {
    match p
    case StartOK(pid) =>
      IntSettingOfText(pid);
      FieldFirst(Fields(p), PID, IntSetting, 0, pid);
    case StartErr(e) =>
      StringSettingOfQuote(e);
      FieldFirst(Fields(p), ERROR, StringSetting, "", e);
      assert START_ERR[6] == 'e';
    case Shutdown =>
      assert SHUTDOWN[1] == 'h';
    case ServerExited(code, killed, e) =>
      DecodeExited(code, killed, e);
    case ProcessStderr(line) =>
      StringSettingOfQuote(line);
      FieldFirst(Fields(p), LINE, StringSetting, "", line);
  }

  lemma DecodeEnvelope(tag: string, inner: string)
    requires Delimited(inner)
    ensures var ms := [(TYPE, Quote(tag)), (DATA, inner)];
      && MembersOf(Render(ms)) == Some(ms)
      && Field(ms, TYPE, StringSetting, "") == Some(tag)
      && Field(ms, DATA, RawSetting, "") == Some(inner)
  {
    var ms := [(TYPE, Quote(tag)), (DATA, inner)];
    QuoteDelimited(tag);
    RenderDelimited(ms);
    StringSettingOfQuote(tag);
    NamesDiffer();
    FieldFirst(ms, TYPE, StringSetting, "", tag);
    FieldSkip(ms, DATA, RawSetting, "");
    FieldFirst(ms[1..], DATA, RawSetting, "", inner);
  }

  lemma DecodeParts(text: string, ms: Members, tag: string, raw: string, data: Members)
    requires MembersOf(text) == Some(ms) && MembersOf(raw) == Some(data)
    requires Field(ms, TYPE, StringSetting, "") == Some(tag) && Field(ms, DATA, RawSetting, "") == Some(raw)
    ensures Decode(text) == DecodePayload(tag, data)
  {
  }

  /** Decoding an encoded message gives the payload back, for every payload. */
  lemma RoundTrip(p: Payload)
    ensures Decode(Encode(p)) == Some(p)
  {
    var tag, fields := Tag(p), Fields(p);
    var inner := Render(fields);
    FieldsDelimited(p);
    RenderDelimited(fields);
    DecodeEnvelope(tag, inner);
    DecodeFields(p);
    DecodeParts(Encode(p), [(TYPE, Quote(tag)), (DATA, inner)], tag, inner, fields);
  }

  /** Different payloads never share an encoding. */
  lemma EncodingsDiffer(p: Payload, q: Payload)
    requires Encode(p) == Encode(q)
    ensures p == q
  {
    RoundTrip(p);
    RoundTrip(q);
  }
}
