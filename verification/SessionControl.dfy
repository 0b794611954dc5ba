/** Control invariants: which results have been posted and received, when Wait has returned, and how the close
    instruction follows from the workers' results. */
module SessionControl {
  import opened ClientWorkers
  import opened JsonRpc
  import opened ServerWorkers
  import opened Session
  import opened Supervisors
  import opened Wire

  /** Progress of the server supervisor through the branch its first received result chose. */
  function Stage(s: Supervisor): nat {
    match s.pc
    case Starting => 0
    case SendingStartErr(_) => 0
    case SendingStartOk(_) => 0
    case Selecting => 0
    case CancellingReceiver => 1
    case JoiningReceiver => 2
    case Waiting => if s.first.ReceiverFirst? then 1 else 5
    case CancellingStdout => 2
    case JoiningStdout => 3
    case CancellingStderr => if s.first.ReceiverFirst? then 4 else 3
    case JoiningStderr => if s.first.ReceiverFirst? then 5 else 4
    case SendingExit => 6
    case _ => 7
  }

  function Count(b: bool): nat {
    if b then 1 else 0
  }

  ghost predicate NothingTaken(s: Supervisor) {
    s.waited.None? && s.exits == s.taken.rx == s.taken.out == s.taken.err == 0
  }

  /** The process or its start message failed, or has not been tried yet. */
  ghost predicate StartupInv(s: Supervisor) {
    && !s.fault && s.first.Undecided? && NothingTaken(s)
    && (s.pc.Starting? || s.pc.SendingStartErr? || s.pc.SendingStartOk? || Stage(s) == 7)
    && (if Stage(s) == 7 then s.desired.Some? && s.desired.value.code == STATUS_INTERNAL_ERROR else s.desired.None?)
  }

  ghost predicate FaultInv(s: Supervisor) {
    && Stage(s) == 7 && s.first.ReceiverFirst? && s.desired.None? && s.waited.None?
    && s.taken.rx == 1 && s.exits == s.taken.out == s.taken.err == 0
  }

  ghost predicate ReceiverFirstInv(s: Supervisor) {
    var g := Stage(s);
    && 0 < g && !s.pc.CancellingReceiver? && !s.pc.JoiningReceiver?
    && s.taken.rx == 1 && s.taken.out == Count(g >= 4) && s.taken.err == Count(g >= 6) && s.exits == Count(g >= 7)
    && (s.waited.Some? <==> g >= 2) && s.desired.Some?
    && (g >= 3 ==> s.cancelled.out) && (g >= 5 ==> s.cancelled.err)
  }

  ghost predicate SenderFirstInv(s: Supervisor) {
    var g := Stage(s);
    && 0 < g && !s.pc.CancellingStdout? && !s.pc.JoiningStdout?
    && s.taken.out == 1 && s.taken.rx == Count(g >= 3) && s.taken.err == Count(g >= 5) && s.exits == Count(g >= 7)
    && (s.waited.Some? <==> g >= 6)
    && (g >= 2 ==> s.cancelled.rx) && (g >= 4 ==> s.cancelled.err)
  }

  /** What the supervisor has done, as a function of where it is. */
  ghost predicate SupInv(s: Supervisor) {
    && (!s.launched ==> StartupInv(s))
    && (s.launched && s.fault ==> FaultInv(s))
    && (s.launched && !s.fault && s.first.Undecided? ==> s.pc.Selecting? && s.desired.None? && NothingTaken(s))
    && (s.launched && !s.fault && s.first.ReceiverFirst? ==> ReceiverFirstInv(s))
    && (s.launched && !s.fault && s.first.SenderFirst? ==> SenderFirstInv(s))
    && (Stage(s) == 7 && s.desired.Some? && s.desired.value.code == STATUS_NORMAL_CLOSURE ==> s.waited == Some(WaitOk))
    && (Stage(s) == 7 && !s.pc.Unwinding? ==> s.cancelled.rx && s.cancelled.out && s.cancelled.err)
    && (s.pc.Returned? ==> s.cancelled.process)
  }

  lemma SupStepKeepsInv(s: Supervisor, i: SupInput)
    requires SupInv(s)
    ensures SupInv(SStep(s, i))
  {
    if SCan(s, i) {
      match i
      case SSent(o) => SupSendKeepsInv(s, o);
      case STick => SupTickKeepsInv(s);
      case STakeReceiver(_) => SupTakeKeepsInv(s, i);
      case STakeStdout(_) => SupTakeKeepsInv(s, i);
      case STakeStderr => SupTakeKeepsInv(s, i);
      case _ =>
    }
  }

  lemma SupSendKeepsInv(s: Supervisor, o: SendOutcome)
    requires SupInv(s) && SCan(s, SSent(o))
    ensures SupInv(SSend(s, o))
  {
  }

  lemma SupTickKeepsInv(s: Supervisor)
    requires SupInv(s) && SCan(s, STick)
    ensures SupInv(STickStep(s))
  {
  }

  /** Only receiving counts a result as taken. */
  lemma SupStepTakes(s: Supervisor, i: SupInput)
    requires SCan(s, i)
    ensures SStep(s, i).taken.rx == s.taken.rx + Count(i.STakeReceiver?)
    ensures SStep(s, i).taken.out == s.taken.out + Count(i.STakeStdout?)
    ensures SStep(s, i).taken.err == s.taken.err + Count(i.STakeStderr?)
    ensures s.launched ==> SStep(s, i).launched
    ensures !s.pc.Returned?
  {
  }

  lemma SupTakeKeepsInv(s: Supervisor, i: SupInput)
    requires SupInv(s) && SCan(s, i) && (i.STakeReceiver? || i.STakeStdout? || i.STakeStderr?)
    ensures SupInv(STake(s, i))
  {
  }

  // ---------- results on the server's channels ----------

  ghost predicate RDone(r: Receiver) {
    r.pc.RPosted? || r.pc.RClosed?
  }

  ghost predicate ODone(o: StdoutSender) {
    o.pc.OPosted? || o.pc.OClosed?
  }

  ghost predicate EDone(e: StderrSender) {
    e.pc.EPosted? || e.pc.EClosed?
  }

  /** Every result posted is either still in its channel or was received, once. */
  ghost predicate JoinInv(v: Server) {
    && |v.rx.chan| + v.sup.taken.rx == Count(RDone(v.rx.w))
    && |v.out.chan| + v.sup.taken.out == Count(ODone(v.out.w))
    && v.err.posts + v.sup.taken.err == Count(EDone(v.err.w))
    && (v.rx.chan != [] ==> v.rx.chan[0] == v.rx.w.pc.result)
    && (v.out.chan != [] ==> v.out.chan[0] == v.out.w.pc.result)
    && (!v.sup.launched ==> v.rx.w == NewReceiver && v.out.w == NewStdoutSender && v.err.w == NewStderrSender)
  }

  /** A result as the close instruction shows it: adapted once Wait's verdict has been reported. */
  function Displayed(s: Supervisor, result: Instruction): Instruction {
    if Stage(s) < 7 || s.waited.None? then result else Adapted(result, s.waited.value)
  }

  /** The close instruction is the first result received. */
  ghost predicate InstructionInv(v: Server) {
    && (v.sup.fault ==> RDone(v.rx.w) && v.rx.w.pc.result.None?)
    && (v.sup.first.ReceiverFirst? && !v.sup.fault ==>
          RDone(v.rx.w) && v.sup.desired == Displayed(v.sup, v.rx.w.pc.result))
    && (v.sup.first.SenderFirst? ==> ODone(v.out.w) && v.sup.desired == Displayed(v.sup, v.out.w.pc.result))
  }

  ghost predicate ServerInv(v: Server) {
    SupInv(v.sup) && JoinInv(v) && InstructionInv(v)
  }

  lemma SupEventKeepsInv(v: Server, i: SupInput)
    requires ServerInv(v) && SCan(v.sup, i)
    requires i.STakeReceiver? ==> v.rx.chan != [] && i.result == v.rx.chan[0]
    requires i.STakeStdout? ==> v.out.chan != [] && i.result == v.out.chan[0]
    requires i.STakeStderr? ==> v.err.posts > 0
    ensures ServerInv(SupServer(v, i))
  {
    SupStepKeepsInv(v.sup, i);
    SupStepTakes(v.sup, i);
  }

  /** Posting is what makes a worker done, and its result never changes afterwards. */
  lemma RStepDone(decode: Decoder, r: Receiver, i: ReceiverInput)
    requires RCan(r, i)
    ensures RDone(RStep(decode, r, i)) <==> RDone(r) || i.RPost?
    ensures RDone(r) || i.RPost? ==> RStep(decode, r, i).pc.result == r.pc.result
  {
  }

  lemma OStepDone(parse: ResponseParser, o: StdoutSender, i: OutInput)
    requires OCan(o, i)
    ensures ODone(OStep(parse, o, i)) <==> ODone(o) || i.OPost?
    ensures ODone(o) || i.OPost? ==> OStep(parse, o, i).pc.result == o.pc.result
  {
  }

  lemma EStepDone(e: StderrSender, i: ErrInput)
    requires ECan(e, i)
    ensures EDone(EStep(e, i)) <==> EDone(e) || i.EPost?
  {
  }

  lemma RxEventKeepsInv(decode: Decoder, v: Server, i: ReceiverInput)
    requires ServerInv(v) && v.sup.launched && RCan(v.rx.w, i) && (i.RPost? ==> |v.rx.chan| < 1)
    ensures ServerInv(v.(rx := RxEnd(decode, v.rx, i)))
  {
    RStepDone(decode, v.rx.w, i);
  }

  lemma OutEventKeepsInv(parse: ResponseParser, v: Server, i: OutInput)
    requires ServerInv(v) && v.sup.launched && OCan(v.out.w, i) && (i.OPost? ==> |v.out.chan| < 1)
    ensures ServerInv(v.(out := OutEnd(parse, v.out, i)))
  {
    OStepDone(parse, v.out.w, i);
  }

  lemma ErrEventKeepsInv(v: Server, i: ErrInput)
    requires ServerInv(v) && v.sup.launched && ECan(v.err.w, i)
    ensures ServerInv(v.(err := ErrEnd(v.err, i)))
  {
    EStepDone(v.err.w, i);
  }

  lemma ServerStepKeepsInv(cfg: Config, s: State, ev: Event)
    requires ServerInv(s.server) && Enabled(s, ev)
    ensures ServerInv(Step(cfg, s, ev).server)
  {
    match ev
    case SupEv(i) => SupEventKeepsInv(s.server, i);
    case RxEv(i) => RxEventKeepsInv(cfg.decode, s.server, i);
    case OutEv(i) => OutEventKeepsInv(cfg.parse, s.server, i);
    case ErrEv(i) => ErrEventKeepsInv(s.server, i);
    case _ =>
  }

  // ---------- results on the client's channels ----------

  ghost predicate IDone(i: StdinSender) {
    i.pc.IPosted?
  }

  ghost predicate WDone(w: StdoutWriter) {
    w.pc.WPosted?
  }

  /** The client's channels, and the exit code it will return. */
  ghost predicate ClientInv(c: Client) {
    && |c.stdin.chan| <= Count(IDone(c.stdin.w)) && |c.writer.chan| <= Count(WDone(c.writer.w))
    && (c.stdin.chan != [] ==> c.stdin.chan[0] == c.stdin.w.pc.code)
    && (c.writer.chan != [] ==> c.writer.chan[0] == c.writer.w.pc.code)
    && (c.stdin.w.pc.IPosting? || c.stdin.w.pc.IPosted? ==> c.stdin.w.pc.code == 1)
    && (!c.sup.launched ==> c.stdin.w == NewStdinSender && c.writer.w == NewStdoutWriter)
    && (c.sup.launched <==> !c.sup.pc.Handshaking? && c.sup.pc != CliReturned(HandshakeFailed))
    && (c.sup.first.HeardNobody? <==>
          (c.sup.pc.Handshaking? || c.sup.pc.CliSelecting? || c.sup.pc == CliReturned(HandshakeFailed)))
    && (c.sup.first.HeardSender? ==>
          c.sup.exitCode == 1 && IDone(c.stdin.w) && !c.sup.pc.CancellingSender? && !c.sup.pc.JoiningSender?)
    && (c.sup.first.HeardWriter? ==>
          WDone(c.writer.w) && c.sup.exitCode == c.writer.w.pc.code
          && !c.sup.pc.CancellingWriter? && !c.sup.pc.JoiningWriter?)
    && (c.sup.pc.JoiningWriter? ==> c.sup.outCancelled) && (c.sup.pc.JoiningSender? ==> c.sup.inCancelled)
    && (c.sup.pc.CliReturned? && c.sup.pc.result.ExitWith? ==> c.sup.pc.result.code == c.sup.exitCode)
  }

  lemma CliEventKeepsInv(decode: Decoder, c: Client, i: CliInput)
    requires ClientInv(c) && CCan(c.sup, i)
    requires i.CTakeSender? ==> c.stdin.chan != [] && i.code == c.stdin.chan[0]
    requires i.CTakeWriter? ==> c.writer.chan != [] && i.code == c.writer.chan[0]
    ensures ClientInv(CliClient(decode, c, i))
  {
  }

  lemma InEventKeepsInv(c: Client, i: InInput)
    requires ClientInv(c) && c.sup.launched && ICan(c.stdin.w, i) && (i.IPost? ==> |c.stdin.chan| < 1)
    ensures ClientInv(c.(stdin := InEnd(c.stdin, i)))
  {
  }

  lemma WriterEventKeepsInv(decode: Decoder, c: Client, i: WriterInput)
    requires ClientInv(c) && c.sup.launched && WCan(c.writer.w, i) && (i.WPost? ==> |c.writer.chan| < 1)
    ensures ClientInv(c.(writer := WriteEnd(decode, c.writer, i)))
  {
  }

  lemma ClientStepKeepsInv(cfg: Config, s: State, ev: Event)
    requires ClientInv(s.client) && Enabled(s, ev)
    ensures ClientInv(Step(cfg, s, ev).client)
  {
    match ev
    case CliEv(i) => CliEventKeepsInv(cfg.decode, s.client, i);
    case InEv(i) => InEventKeepsInv(s.client, i);
    case WriterEv(i) => WriterEventKeepsInv(cfg.decode, s.client, i);
    case _ =>
  }
}
