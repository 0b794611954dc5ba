/** The atomic steps of the two client goroutines. */
module ClientWorkers {
  import opened Oob
  import opened ServerWorkers
  import opened Wire

  // ---------- receiverStdin: local stdin to WebSocket ----------

  datatype InPc =
    | IReading
    | ISending(chunk: seq<byte>, err: ReadError)
    | IShuttingDown
    | IWaiting
    | IPosting(code: int)
    | IPosted(code: int)

  /** read: everything read from the local stdin; eof: whether its end was reached. */
  datatype StdinSender = StdinSender(pc: InPc, read: seq<byte>, eof: bool)

  const NewStdinSender := StdinSender(IReading, [], false)

  datatype InInput =
    | IRead(data: seq<byte>, err: ReadError) | ISent(o: SendOutcome) | IShutdownSent(o: SendOutcome)
    | ICancelled | IPost

  predicate ICan(s: StdinSender, i: InInput) {
    match s.pc
    case IReading => i.IRead? && |i.data| <= BINARY_FRAME_MAX_SIZE
    case ISending(_, _) => i.ISent?
    case IShuttingDown => i.IShutdownSent?
    case IWaiting => i.ICancelled?
    case IPosting(_) => i.IPost?
    case IPosted(_) => false
  }

  function IAfter(s: StdinSender, err: ReadError): StdinSender {
    match err
    case NoError => s.(pc := IReading)
    case EndOfFile => s.(pc := IShuttingDown, eof := true)
    case _ => s.(pc := IPosting(1))
  }

  function IStep(s: StdinSender, i: InInput): StdinSender {
    if !ICan(s, i) then s
    else
      match i
      case IRead(data, err) =>
        if data == [] then IAfter(s, err) else s.(pc := ISending(data, err), read := s.read + data)
      case ISent(o) => if o.Sent? then IAfter(s, s.pc.err) else s.(pc := IPosting(1))
      case IShutdownSent(o) => s.(pc := if o.Sent? then IWaiting else IPosting(1))
      case ICancelled => s.(pc := IPosting(1))
      case IPost => s.(pc := IPosted(s.pc.code))
  }

  // ---------- senderStdout: WebSocket to local stdout ----------

  datatype WriterPc =
    | WReading
    | WWriting(msg: seq<byte>, accepted: nat)
    | WPosting(code: int)
    | WPosted(code: int)

  /** out: bytes on the local stdout; exitCode: set by the last server_exited; lines: remote stderr shown;
      alarms: messages that did not parse, broke the protocol or had an unexpected type or kind. */
  datatype StdoutWriter = StdoutWriter(pc: WriterPc, out: seq<byte>, exitCode: int, lines: seq<string>, alarms: nat)

  const NewStdoutWriter := StdoutWriter(WReading, [], 0, [], 0)

  datatype WriterInput = WGot(frame: Frame) | WReadFailed | WAccepted(n: nat) | WWriteDone | WWriteFailed | WPost

  predicate WCan(w: StdoutWriter, i: WriterInput) {
    match w.pc
    case WReading => i.WGot? || i.WReadFailed?
    case WWriting(msg, k) =>
      (i.WAccepted? && k + i.n <= |msg|) || (i.WWriteDone? && k == |msg|) || i.WWriteFailed?
    case WPosting(_) => i.WPost?
    case WPosted(_) => false
  }

  function WHandle(decode: Decoder, w: StdoutWriter, frame: Frame): StdoutWriter {
    match frame
    case Close(ce) => w.(pc := WPosting(if ce.code == STATUS_NORMAL_CLOSURE then w.exitCode else 1))
    case Binary(msg) => w.(pc := WWriting(msg, 0))
    case Odd => w.(alarms := w.alarms + 1)
    case Text(text) =>
      match decode(text)
      case Some(ProcessStderr(line)) => w.(lines := w.lines + [line])
      case Some(ServerExited(code, _, _)) => w.(exitCode := if code.Some? then code.value else 1)
      case _ => w.(alarms := w.alarms + 1)
  }

  function WStep(decode: Decoder, w: StdoutWriter, i: WriterInput): StdoutWriter {
    if !WCan(w, i) then w
    else
      match i
      case WGot(frame) => WHandle(decode, w, frame)
      case WReadFailed => w.(pc := WPosting(1))
      case WAccepted(n) =>
        var k := w.pc.accepted;
        w.(pc := WWriting(w.pc.msg, k + n), out := w.out + w.pc.msg[k..k + n])
      case WWriteDone => w.(pc := WReading)
      case WWriteFailed => w.(pc := WPosting(1))
      case WPost => w.(pc := WPosted(w.pc.code))
  }
}
