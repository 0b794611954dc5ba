/** The two `proxy` functions: handshake, select, joins, exit report and deferred close, as machines whose
    inputs are what the environment and the workers' channels give them. */
module Supervisors {
  import opened Oob
  import opened ServerWorkers
  import opened Wire

  // ---------- server ----------

  datatype WaitResult =
    | WaitOk
    | WaitExited(code: Int64, text: string)
    | WaitKilled(text: string)
    | WaitFailed(text: string)

  datatype SupPc =
    | Starting | SendingStartErr(error: string) | SendingStartOk(pid: Int64)
    | Selecting
    | CancellingReceiver | JoiningReceiver
    | Waiting
    | CancellingStdout | JoiningStdout
    | CancellingStderr | JoiningStderr
    | SendingExit
    | Unwinding | Closing | Stopping | Returned

  datatype First = Undecided | ReceiverFirst | SenderFirst

  // Results received from each worker's channel
  datatype Taken = Taken(rx: nat, out: nat, err: nat)

  // Contexts already cancelled by the supervisor
  datatype Contexts = Contexts(rx: bool, out: bool, err: bool, process: bool)

  /** desired: the close instruction; fault: it was dereferenced while nil; waited: what Wait returned;
      exits: attempts to send server_exited. */
  datatype Supervisor = Supervisor(
    pc: SupPc, first: First, desired: Instruction, fault: bool, launched: bool, waited: Option<WaitResult>, exits: nat,
    taken: Taken, cancelled: Contexts)

  const NewSupervisor :=
    Supervisor(Starting, Undecided, None, false, false, None, 0, Taken(0, 0, 0), Contexts(false, false, false, false))

  // The workers run and no result has been received
  const LaunchedSupervisor := NewSupervisor.(pc := Selecting, launched := true)

  datatype SupInput =
    | SStartFailed(error: string) | SStarted(pid: Int64)
    | SSent(o: SendOutcome)
    | STakeReceiver(result: Instruction) | STakeStdout(result: Instruction) | STakeStderr
    | SWaited(w: WaitResult)
    | STick

  predicate SCan(s: Supervisor, i: SupInput) {
    match s.pc
    case Starting => i.SStartFailed? || i.SStarted?
    case SendingStartErr(_) => i.SSent?
    case SendingStartOk(_) => i.SSent?
    case Selecting => i.STakeReceiver? || i.STakeStdout?
    case JoiningReceiver => i.STakeReceiver?
    case Waiting => i.SWaited?
    case JoiningStdout => i.STakeStdout?
    case JoiningStderr => i.STakeStderr?
    case SendingExit => i.SSent?
    case Closing => if s.desired.Some? then i.SSent? else i.STick?
    case Returned => false
    case _ => i.STick?
  }

  function ExitPayload(w: WaitResult): Payload {
    match w
    case WaitOk => ServerExited(Some(0), false, "")
    case WaitExited(code, text) => ServerExited(Some(code), false, text)
    case WaitKilled(text) => ServerExited(None, true, text)
    case WaitFailed(text) => ServerExited(None, false, text)
  }

  /** The close instruction after the exit report: a normal close is withdrawn when Wait failed. */
  function Adapted(desired: Instruction, w: WaitResult): Instruction {
    if w != WaitOk && desired.Some? && desired.value.code == STATUS_NORMAL_CLOSURE
    then Some(CloseError(STATUS_INTERNAL_ERROR, ProcessNotGraceful))
    else desired
  }

  function AbortWith(s: Supervisor, reason: Reason): Supervisor {
    s.(pc := Unwinding, desired := Some(CloseError(STATUS_INTERNAL_ERROR, reason)))
  }

  function STake(s: Supervisor, i: SupInput): Supervisor {
    match i
    case STakeReceiver(result) =>
      var t := s.(taken := s.taken.(rx := s.taken.rx + 1));
      if s.pc.JoiningReceiver? then t.(pc := CancellingStderr)
      else
        var u := t.(first := ReceiverFirst, desired := result);
        // logging the instruction dereferences it
        if result.None? then u.(fault := true, pc := Unwinding) else u.(pc := Waiting)
    case STakeStdout(result) =>
      var t := s.(taken := s.taken.(out := s.taken.out + 1));
      if s.pc.JoiningStdout? then t.(pc := CancellingStderr)
      else t.(first := SenderFirst, desired := result, pc := CancellingReceiver)
    case STakeStderr =>
      s.(taken := s.taken.(err := s.taken.err + 1), pc := if s.first.ReceiverFirst? then SendingExit else Waiting)
    case _ => s
  }

  function SSend(s: Supervisor, o: SendOutcome): Supervisor {
    match s.pc
    case SendingStartErr(_) => AbortWith(s, ProcessFailedToStart)
    case SendingStartOk(_) =>
      if o.Sent? then s.(pc := Selecting, launched := true) else AbortWith(s, StartMessageFailed)
    case SendingExit =>
      s.(pc := Unwinding, exits := s.exits + 1,
         desired := if s.waited.Some? then Adapted(s.desired, s.waited.value) else s.desired)
    case _ => s.(pc := Stopping)
  }

  function STickStep(s: Supervisor): Supervisor {
    match s.pc
    case CancellingReceiver => s.(pc := JoiningReceiver, cancelled := s.cancelled.(rx := true))
    case CancellingStdout => s.(pc := JoiningStdout, cancelled := s.cancelled.(out := true))
    case CancellingStderr => s.(pc := JoiningStderr, cancelled := s.cancelled.(err := true))
    case Unwinding => s.(pc := Closing, cancelled := Contexts(true, true, true, s.cancelled.process))
    case Closing => s.(pc := Stopping)
    case _ => s.(pc := Returned, cancelled := s.cancelled.(process := true))
  }

  function SStep(s: Supervisor, i: SupInput): Supervisor {
    if !SCan(s, i) then s
    else
      match i
      case SStartFailed(e) => s.(pc := SendingStartErr(e))
      case SStarted(pid) => s.(pc := SendingStartOk(pid))
      case SSent(o) => SSend(s, o)
      case STakeReceiver(_) => STake(s, i)
      case STakeStdout(_) => STake(s, i)
      case STakeStderr => STake(s, i)
      case SWaited(w) =>
        s.(waited := Some(w), pc := if s.first.ReceiverFirst? then CancellingStdout else SendingExit)
      case STick => STickStep(s)
  }

  /** The message the supervisor is about to send, when it is not closing. */
  function SMessage(s: Supervisor): Payload {
    match s.pc
    case SendingStartErr(e) => StartErr(e)
    case SendingStartOk(pid) => StartOK(pid)
    case _ => if s.waited.Some? then ExitPayload(s.waited.value) else Shutdown
  }

  function SFrame(encode: Payload -> string, s: Supervisor): Frame {
    if s.pc.Closing? && s.desired.Some? then Close(s.desired.value) else Text(encode(SMessage(s)))
  }

  // ---------- client ----------

  datatype ClientResult = HandshakeFailed | ExitWith(code: int)

  datatype CliPc =
    | Handshaking
    | CliSelecting
    | CancellingWriter | JoiningWriter
    | CancellingSender | JoiningSender
    | CliReturned(result: ClientResult)

  datatype Heard = HeardNobody | HeardSender | HeardWriter

  /** first: the worker whose result was received first. */
  datatype ClientSupervisor = ClientSupervisor(pc: CliPc, first: Heard, exitCode: int, launched: bool,
                                               inCancelled: bool, outCancelled: bool)

  const NewClientSupervisor := ClientSupervisor(Handshaking, HeardNobody, 0, false, false, false)

  datatype CliInput =
    | CGot(frame: Frame) | CReadFailed
    | CTakeSender(code: int) | CTakeWriter(code: int)
    | CTick | CTimeout

  predicate CCan(c: ClientSupervisor, i: CliInput) {
    match c.pc
    case Handshaking => i.CGot? || i.CReadFailed?
    case CliSelecting => i.CTakeSender? || i.CTakeWriter?
    case JoiningWriter => i.CTakeWriter?
    case JoiningSender => i.CTakeSender? || i.CTimeout?
    case CliReturned(_) => false
    case _ => i.CTick?
  }

  /** Only start_ok lets the client go on. */
  function CHandshake(decode: Decoder, c: ClientSupervisor, frame: Frame): ClientSupervisor {
    if frame.Text? && decode(frame.text).Some? && decode(frame.text).value.StartOK?
    then c.(pc := CliSelecting, launched := true)
    else c.(pc := CliReturned(HandshakeFailed))
  }

  function CStep(decode: Decoder, c: ClientSupervisor, i: CliInput): ClientSupervisor {
    if !CCan(c, i) then c
    else
      match i
      case CGot(frame) => CHandshake(decode, c, frame)
      case CReadFailed => c.(pc := CliReturned(HandshakeFailed))
      case CTakeSender(code) =>
        if c.pc.JoiningSender? then c.(pc := CliReturned(ExitWith(c.exitCode)))
        else c.(pc := CancellingWriter, first := HeardSender, exitCode := code)
      case CTakeWriter(code) =>
        if c.pc.JoiningWriter? then c.(pc := CliReturned(ExitWith(c.exitCode)))
        else c.(pc := CancellingSender, first := HeardWriter, exitCode := code)
      case CTimeout => c.(pc := CliReturned(ExitWith(c.exitCode)))
      case CTick =>
        if c.pc.CancellingWriter? then c.(pc := JoiningWriter, outCancelled := true)
        else c.(pc := JoiningSender, inCancelled := true)
  }
}
