/** The atomic steps of the three server goroutines that move data between the WebSocket and the process.
    An input that does not apply to the current position leaves the worker unchanged. */
module ServerWorkers {
  import opened Accumulators
  import opened JsonRpc
  import opened Lines
  import opened Lists
  import opened Oob
  import opened Wire

  type Decoder = string -> Option<Payload>

  // What a read from a pipe or file reports besides its data
  datatype ReadError = NoError | EndOfFile | ClosedPipe | OtherError

  // ---------- receiverStdin: WebSocket to process stdin ----------

  // An instruction of None means: the socket is already closed, do not close it
  type Instruction = Option<CloseError>

  datatype ReceiverPc =
    | RReading
    | RWriting(msg: seq<byte>, accepted: nat)
    | RPosting(result: Instruction)
    | RPosted(result: Instruction)
    | RClosed(result: Instruction)

  /** written: bytes that entered the stdin pipe; fed: messages handed to the request accumulator;
      warnings: messages of an unknown kind that were ignored. */
  datatype Receiver = Receiver(pc: ReceiverPc, written: seq<byte>, fed: seq<seq<byte>>, warnings: nat)

  const NewReceiver := Receiver(RReading, [], [], 0)

  datatype ReceiverInput =
    | RGot(frame: Frame) | RReadFailed
    | RAccepted(n: nat) | RWriteDone | RWriteFailed
    | RPost | RCloseStdin

  predicate RCan(r: Receiver, i: ReceiverInput) {
    match r.pc
    case RReading => i.RGot? || i.RReadFailed?
    case RWriting(msg, k) =>
      (i.RAccepted? && k + i.n <= |msg|) || (i.RWriteDone? && k == |msg|) || i.RWriteFailed?
    case RPosting(_) => i.RPost?
    case RPosted(_) => i.RCloseStdin?
    case RClosed(_) => false
  }

  function RFinish(r: Receiver, result: Instruction): Receiver {
    r.(pc := RPosting(result))
  }

  function RHandle(decode: Decoder, r: Receiver, frame: Frame): Receiver {
    match frame
    case Close(_) => RFinish(r, None)
    case Binary(msg) => r.(pc := RWriting(msg, 0))
    case Odd => RFinish(r, Some(CloseError(STATUS_UNSUPPORTED_DATA, BadMessageType)))
    case Text(text) =>
      match decode(text)
      case None => RFinish(r, Some(CloseError(STATUS_UNSUPPORTED_DATA, BadOoBMessage)))
      case Some(p) =>
        if p.Shutdown? then RFinish(r, Some(CloseError(STATUS_NORMAL_CLOSURE, ShutdownAcknowledged)))
        else r.(warnings := r.warnings + 1)
  }

  function RStep(decode: Decoder, r: Receiver, i: ReceiverInput): Receiver {
    if !RCan(r, i) then r
    else
      match i
      case RGot(frame) => RHandle(decode, r, frame)
      case RReadFailed => RFinish(r, Some(CloseError(STATUS_INTERNAL_ERROR, WebSocketReadFailed)))
      case RAccepted(n) =>
        var k := r.pc.accepted;
        r.(pc := RWriting(r.pc.msg, k + n), written := r.written + r.pc.msg[k..k + n])
      case RWriteDone => r.(pc := RReading, fed := r.fed + [r.pc.msg])
      case RWriteFailed => RFinish(r, Some(CloseError(STATUS_INTERNAL_ERROR, StdinWriteFailed)))
      case RPost => r.(pc := RPosted(r.pc.result))
      case RCloseStdin => r.(pc := RClosed(r.pc.result))
  }

  // ---------- senderStdout: process stdout to WebSocket ----------

  datatype OutPc =
    | OReading
    | OSending(chunk: seq<byte>, err: ReadError)
    | OPosting(result: Instruction)
    | OPosted(result: Instruction)
    | OClosed(result: Instruction)

  /** read: everything read from stdout; fed: chunks sent and handed to the response accumulator;
      dropped: the chunk whose failed send lost it. */
  datatype StdoutSender = StdoutSender(pc: OutPc, read: seq<byte>, fed: seq<seq<byte>>, dropped: seq<byte>)

  const NewStdoutSender := StdoutSender(OReading, [], [], [])

  datatype OutInput = ORead(data: seq<byte>, err: ReadError) | OWrote(o: SendOutcome) | OPost | OClosePipe

  predicate OCan(s: StdoutSender, i: OutInput) {
    match s.pc
    case OReading => i.ORead? && |i.data| <= BINARY_FRAME_MAX_SIZE
    case OSending(_, _) => i.OWrote?
    case OPosting(_) => i.OPost?
    case OPosted(_) => i.OClosePipe?
    case OClosed(_) => false
  }

  function OFinish(s: StdoutSender, result: Instruction): StdoutSender {
    s.(pc := OPosting(result))
  }

  /** The closing instruction for a read that failed. */
  function ReadEnd(err: ReadError): Instruction
    requires err != NoError
  {
    match err
    case EndOfFile => Some(CloseError(STATUS_NORMAL_CLOSURE, StdoutEOF))
    case ClosedPipe => Some(CloseError(STATUS_NORMAL_CLOSURE, StdoutPipeClosed))
    case OtherError => Some(CloseError(STATUS_INTERNAL_ERROR, StdoutReadFailed))
  }

  /** The test of the error variable at the end of the loop body. */
  function OAfter(s: StdoutSender, err: ReadError): StdoutSender {
    if err == NoError then s.(pc := OReading) else OFinish(s, ReadEnd(err))
  }

  /** The accumulator's error for a chunk: it overwrites the read error of the same iteration. */
  function Rejection(parse: ResponseParser, fed: seq<seq<byte>>, chunk: seq<byte>): ReadError {
    if ObserveResponse(LineOf(PendingAfterAll([], fed), chunk), parse).Failed? then OtherError else NoError
  }

  function SendFailure(status: int): Instruction {
    if status == -1 then Some(CloseError(STATUS_INTERNAL_ERROR, WebSocketWriteFailed)) else None
  }

  function OStep(parse: ResponseParser, s: StdoutSender, i: OutInput): StdoutSender {
    if !OCan(s, i) then s
    else
      match i
      case ORead(data, err) =>
        if data == [] then OAfter(s, err) else s.(pc := OSending(data, err), read := s.read + data)
      case OWrote(Sent) =>
        OAfter(s.(fed := s.fed + [s.pc.chunk]), Rejection(parse, s.fed, s.pc.chunk))
      case OWrote(Lost(status)) => OFinish(s.(dropped := s.pc.chunk), SendFailure(status))
      case OWrote(Doubtful(status)) => OFinish(s, SendFailure(status))
      case OPost => s.(pc := OPosted(s.pc.result))
      case OClosePipe => s.(pc := OClosed(s.pc.result))
  }

  // ---------- senderStderr: process stderr to WebSocket, line by line ----------

  datatype ErrPc = EReading | ESending(line: seq<byte>, last: bool) | EPosting | EPosted | EClosed

  /** split, buffered: what was read, up to where it has been split and from there on;
      attempts: lines whose sending was tried; delivered: those not lost. */
  datatype StderrSender = StderrSender(pc: ErrPc, split: seq<byte>, buffered: seq<byte>, attempts: seq<seq<byte>>,
                                       delivered: seq<seq<byte>>)
  {
    function Read(): seq<byte> {
      split + buffered
    }
  }

  const NewStderrSender := StderrSender(EReading, [], [], [], [])

  datatype ErrInput = EFill(data: seq<byte>) | ELine | EReadFailed | ESent(o: SendOutcome) | EPost | EClosePipe

  predicate ECan(e: StderrSender, i: ErrInput) {
    match e.pc
    case EReading =>
      if NEWLINE in e.buffered then i.ELine? else i.EFill? || i.EReadFailed?
    case ESending(_, _) => i.ESent?
    case EPosting => i.EPost?
    case EPosted => i.EClosePipe?
    case EClosed => false
  }

  /** Takes the line at the head of the buffer; an empty one is not sent. */
  function ETake(e: StderrSender): StderrSender
    requires NEWLINE in e.buffered
  {
    var k := IndexOf(e.buffered, NEWLINE);
    var rest := e.(split := e.split + e.buffered[..k + 1], buffered := e.buffered[k + 1..]);
    if k == 0 then rest else rest.(pc := ESending(e.buffered[..k], false))
  }

  /** Takes what is left when reading has failed. */
  function EEnd(e: StderrSender): StderrSender {
    var all := e.(split := e.Read(), buffered := []);
    if e.buffered == [] then all.(pc := EPosting) else all.(pc := ESending(e.buffered, true))
  }

  function EStep(e: StderrSender, i: ErrInput): StderrSender {
    if !ECan(e, i) then e
    else
      match i
      case EFill(data) => e.(buffered := e.buffered + data)
      case ELine => ETake(e)
      case EReadFailed => EEnd(e)
      case ESent(o) =>
        e.(pc := if e.pc.last then EPosting else EReading,
           attempts := e.attempts + [e.pc.line],
           delivered := if o.Lost? then e.delivered else e.delivered + [e.pc.line])
      case EPost => e.(pc := EPosted)
      case EClosePipe => e.(pc := EClosed)
  }

  /** Newline-terminated lines without their terminators, empty ones left out. */
  function Shown(lines: seq<seq<byte>>): seq<seq<byte>> {
    if lines == [] then []
    else
      var l := lines[|lines| - 1];
      Shown(lines[..|lines| - 1]) + (if |l| <= 1 then [] else [l[..|l| - 1]])
  }

  function TerminatedLines(s: seq<byte>): seq<seq<byte>> {
    Shown(Complete(s, NEWLINE))
  }

  /** What a reader of the whole text sees: its non-empty lines, terminated or not. */
  function NonEmptyLines(s: seq<byte>): seq<seq<byte>> {
    TerminatedLines(s) + (if Rest(s, NEWLINE) == [] then [] else [Rest(s, NEWLINE)])
  }

  /** The lines tried so far, with the one being sent. */
  function Tried(e: StderrSender): seq<seq<byte>> {
    e.attempts + (if e.pc.ESending? then [e.pc.line] else [])
  }

  predicate Draining(e: StderrSender) {
    e.pc.EReading? || (e.pc.ESending? && !e.pc.last)
  }

  /** In every state the lines tried are the non-empty lines of the text split so far, however it was cut by
      the reads; once reading has ended they are all the non-empty lines of what was read. */
  ghost predicate EInv(e: StderrSender) {
    && Subsequence(e.delivered, e.attempts)
    && (Draining(e) ==> Rest(e.split, NEWLINE) == [] && Tried(e) == TerminatedLines(e.split))
    && (!Draining(e) ==> e.buffered == [] && Tried(e) == NonEmptyLines(e.split))
  }

  lemma ShownSnoc(ls: seq<seq<byte>>, line: seq<byte>)
    ensures Shown(ls + [line + [NEWLINE]]) == Shown(ls) + (if line == [] then [] else [line])
  {
    var l := line + [NEWLINE];
    assert (ls + [l])[..|ls|] == ls;
    assert l[..|l| - 1] == line;
  }

  lemma OneMoreLine(split: seq<byte>, line: seq<byte>)
    requires Rest(split, NEWLINE) == [] && NEWLINE !in line
    ensures Rest(split + (line + [NEWLINE]), NEWLINE) == []
    ensures TerminatedLines(split + (line + [NEWLINE])) == TerminatedLines(split) + (if line == [] then [] else [line])
  {
    var l := line + [NEWLINE];
    SplitConcat(split, l, NEWLINE);
    assert [] + l == l + [] == l;
    assert l[..|l| - 1] == line;
    SplitFirst(l, NEWLINE, l, []);
    ShownSnoc(Complete(split, NEWLINE), line);
  }

  lemma UnterminatedLine(split: seq<byte>, line: seq<byte>)
    requires Rest(split, NEWLINE) == [] && NEWLINE !in line
    ensures NonEmptyLines(split + line) == TerminatedLines(split) + (if line == [] then [] else [line])
  {
    SplitConcat(split, line, NEWLINE);
    assert [] + line == line;
    RestHasNoNewline(line, NEWLINE);
    assert Complete(split + line, NEWLINE) == Complete(split, NEWLINE);
  }

  lemma {:induction false} ShownConcat(a: seq<seq<byte>>, b: seq<seq<byte>>)
    ensures Shown(a + b) == Shown(a) + Shown(b)
    decreases |b|
  {
    if b == [] {
      assert a + b == a;
    } else {
      var front := b[..|b| - 1];
      ShownConcat(a, front);
      assert (a + b)[..|a + b| - 1] == a + front;
    }
  }

  lemma ShownOne(line: seq<byte>)
    ensures Shown([line + [NEWLINE]]) == if line == [] then [] else [line]
  {
    ShownSnoc([], line);
    assert [] + [line + [NEWLINE]] == [line + [NEWLINE]];
  }

  lemma LineThenRest(a: seq<byte>, b: seq<byte>)
    requires NEWLINE !in a
    ensures NonEmptyLines((a + [NEWLINE]) + b) == (if a == [] then [] else [a]) + NonEmptyLines(b)
  {
    var line := a + [NEWLINE];
    assert line[..|line| - 1] == a;
    SplitFirst(line + b, NEWLINE, line, b);
    ShownConcat([line], Complete(b, NEWLINE));
    ShownOne(a);
    AppendAssociates(Shown([line]), TerminatedLines(b), if Rest(b, NEWLINE) == [] then [] else [Rest(b, NEWLINE)]);
  }

  /** The non-empty lines of a text, from its first newline on: what is before it is a line unless it is empty. */
  lemma LinesByHand(a: seq<byte>, b: seq<byte>)
    requires 10 !in a
    ensures NonEmptyLines(a) == if a == [] then [] else [a]
    ensures NonEmptyLines(a + [10] + b) == (if a == [] then [] else [a]) + NonEmptyLines(b)
  {
    RestHasNoNewline(a, NEWLINE);
    LineThenRest(a, b);
  }

  lemma DeliveredSnoc(a: seq<seq<byte>>, b: seq<seq<byte>>, line: seq<byte>)
    requires Subsequence(a, b)
    ensures Subsequence(a + [line], b + [line]) && Subsequence(a, b + [line])
  {
    SubsequencePrefix([line], [line]);
    SubsequenceConcat(a, b, [line], [line]);
    SubsequenceConcat(a, b, [], [line]);
    assert a + [] == a;
  }

  lemma TakingKeepsInv(e: StderrSender)
    requires EInv(e) && ECan(e, ELine)
    ensures EInv(EStep(e, ELine))
  {
    var k := IndexOf(e.buffered, NEWLINE);
    var line := e.buffered[..k];
    assert e.buffered[..k + 1] == line + [NEWLINE];
    OneMoreLine(e.split, line);
  }

  lemma EndingKeepsInv(e: StderrSender)
    requires EInv(e) && ECan(e, EReadFailed)
    ensures EInv(EStep(e, EReadFailed))
  {
    UnterminatedLine(e.split, e.buffered);
  }

  lemma SendingKeepsInv(e: StderrSender, o: SendOutcome)
    requires EInv(e) && ECan(e, ESent(o))
    ensures EInv(EStep(e, ESent(o)))
  {
    DeliveredSnoc(e.delivered, e.attempts, e.pc.line);
  }

  lemma ErrStepKeepsInv(e: StderrSender, i: ErrInput)
    requires EInv(e)
    ensures EInv(EStep(e, i))
  {
    if ECan(e, i) {
      match i
      case ELine => TakingKeepsInv(e);
      case EReadFailed => EndingKeepsInv(e);
      case ESent(o) => SendingKeepsInv(e, o);
      case _ =>
    }
  }
}
