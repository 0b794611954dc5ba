/** One tunnel: the client, its two workers, the socket, the server, its three workers and the process.
    Every event is one atomic action of one goroutine or of the environment. */
module Session {
  import opened ClientWorkers
  import opened JsonRpc
  import opened Oob
  import opened ServerWorkers
  import opened Supervisors
  import opened Wire

  /** The message codec, the parser of JSON-RPC responses, and the text of a stderr line's bytes in a message. */
  datatype Config = Config(encode: Payload -> string, decode: Decoder, parse: ResponseParser,
                           text: seq<byte> -> string)
  {
    ghost predicate Faithful() {
      forall p :: decode(encode(p)) == Some(p)
    }
  }

  datatype ExitStatus = ExitCode(code: Int64) | Signaled

  /** What the child process has written so far, and how it ended. */
  datatype Process = Process(running: bool, stdout: seq<byte>, stderr: seq<byte>, exit: Option<ExitStatus>)

  /** A worker with its channel, which holds the results posted and not yet received, and its pipe. */
  datatype ReceiverEnd = ReceiverEnd(w: Receiver, chan: seq<Instruction>)
  datatype StdoutEnd = StdoutEnd(w: StdoutSender, chan: seq<Instruction>, pipeClosed: bool)
  datatype StderrEnd = StderrEnd(w: StderrSender, posts: nat, pipeClosed: bool)
  datatype StdinEnd = StdinEnd(w: StdinSender, chan: seq<int>)
  datatype WriterEnd = WriterEnd(w: StdoutWriter, chan: seq<int>)

  datatype Server = Server(sup: Supervisor, rx: ReceiverEnd, out: StdoutEnd, err: StderrEnd)

  datatype Client = Client(sup: ClientSupervisor, stdin: StdinEnd, writer: WriterEnd)

  /** Every frame ever put on the wire in one direction, and how many of them were read. */
  datatype Link = Link(frames: seq<Frame>, seen: nat)
  {
    function Send(f: Frame, o: SendOutcome): Link {
      this.(frames := Put(frames, f, o))
    }

    function Read(): Link {
      this.(seen := seen + 1)
    }

    ghost predicate Offers(f: Frame) {
      seen < |frames| && f == frames[seen]
    }
  }

  datatype State = State(server: Server, client: Client, process: Process, c2s: Link, s2c: Link,
                         serverInterrupted: bool, clientInterrupted: bool)

  const NewServer := Server(NewSupervisor, ReceiverEnd(NewReceiver, []), StdoutEnd(NewStdoutSender, [], false),
                            StderrEnd(NewStderrSender, 0, false))

  const NewClient := Client(NewClientSupervisor, StdinEnd(NewStdinSender, []), WriterEnd(NewStdoutWriter, []))

  const Initial :=
    State(NewServer, NewClient, Process(false, [], [], None), Link([], 0), Link([], 0), false, false)

  datatype Event =
    | SupEv(s: SupInput) | RxEv(r: ReceiverInput) | OutEv(o: OutInput) | ErrEv(e: ErrInput)
    | StdoutHelper | StderrHelper          // the goroutines that close a pipe when its context is done
    | CliEv(c: CliInput) | InEv(i: InInput) | WriterEv(w: WriterInput)
    | ClientLibraryClose(code: int)        // the client's WebSocket library closes or echoes a close
    | ProcessStdout(data: seq<byte>) | ProcessStderrBytes(data: seq<byte>) | ProcessExit(status: ExitStatus)
    | ServerInterrupt | ClientInterrupt

  // ---------- server ----------

  ghost predicate OutContextDone(s: State) {
    s.server.sup.cancelled.out || s.server.sup.cancelled.process || s.serverInterrupted
  }

  ghost predicate ErrContextDone(s: State) {
    s.server.sup.cancelled.err || s.server.sup.cancelled.process || s.serverInterrupted
  }

  /** `Wait` returns after the process ended; it returns nil only for exit code 0 and once the copying
      goroutines have handed everything the process wrote to the readers of its pipes. */
  ghost predicate WaitAllowed(s: State, w: WaitResult) {
    && s.process.exit.Some?
    && match w
       case WaitOk => s.process.exit.value == ExitCode(0) && s.server.out.w.read == s.process.stdout
                      && s.server.err.w.Read() == s.process.stderr
       case WaitExited(code, _) => code != 0 && s.process.exit.value == ExitCode(code)
       case WaitKilled(_) => s.process.exit.value == Signaled
       case WaitFailed(_) => true
  }

  ghost predicate SupEnabled(s: State, i: SupInput) {
    && SCan(s.server.sup, i)
    && match i
       case SSent(o) => CanPut(s.s2c.frames, o)
       case STakeReceiver(v) => s.server.rx.chan != [] && v == s.server.rx.chan[0]
       case STakeStdout(v) => s.server.out.chan != [] && v == s.server.out.chan[0]
       case STakeStderr => s.server.err.posts > 0
       case SWaited(w) => WaitAllowed(s, w)
       case _ => true
  }

  function Drop<T>(chan: seq<T>): seq<T> {
    if chan == [] then [] else chan[1..]
  }

  function SupServer(v: Server, i: SupInput): Server {
    var v1 := v.(sup := SStep(v.sup, i));
    match i
    case STakeReceiver(_) => v1.(rx := v.rx.(chan := Drop(v.rx.chan)))
    case STakeStdout(_) => v1.(out := v.out.(chan := Drop(v.out.chan)))
    case STakeStderr => v1.(err := v.err.(posts := if v.err.posts > 0 then v.err.posts - 1 else 0))
    case _ => v1
  }

  function SupLink(cfg: Config, link: Link, sup: Supervisor, i: SupInput): Link {
    if i.SSent? then link.Send(SFrame(cfg.encode, sup), i.o) else link
  }

  function SupApply(cfg: Config, s: State, i: SupInput): State {
    s.(server := SupServer(s.server, i),
       s2c := SupLink(cfg, s.s2c, s.server.sup, i),
       process := if i.SStarted? then s.process.(running := true) else s.process)
  }

  ghost predicate RxEnabled(s: State, i: ReceiverInput) {
    && s.server.sup.launched
    && RCan(s.server.rx.w, i)
    && (i.RGot? ==> s.c2s.Offers(i.frame))
    && (i.RPost? ==> |s.server.rx.chan| < 1)
  }

  function RxEnd(decode: Decoder, e: ReceiverEnd, i: ReceiverInput): ReceiverEnd {
    ReceiverEnd(RStep(decode, e.w, i),
                if i.RPost? && e.w.pc.RPosting? then e.chan + [e.w.pc.result] else e.chan)
  }

  /** Reading a close frame makes the WebSocket library echo it, unless a close was already sent. */
  function Echo(link: Link, frame: Frame): Link {
    if frame.Close? && (link.frames == [] || !link.frames[|link.frames| - 1].Close?)
    then link.(frames := link.frames + [Close(CloseError(frame.close.code, LibraryClose))])
    else link
  }

  function RxApply(cfg: Config, s: State, i: ReceiverInput): State {
    s.(server := s.server.(rx := RxEnd(cfg.decode, s.server.rx, i)),
       c2s := if i.RGot? then s.c2s.Read() else s.c2s,
       s2c := if i.RGot? then Echo(s.s2c, i.frame) else s.s2c)
  }

  /** A read from a closed pipe fails; otherwise it returns bytes the process wrote and was not yet asked for. */
  ghost predicate OutEnabled(s: State, i: OutInput) {
    && s.server.sup.launched
    && OCan(s.server.out.w, i)
    && match i
       case ORead(data, err) =>
         if s.server.out.pipeClosed then data == [] && err == ClosedPipe
         else err != ClosedPipe && s.server.out.w.read + data <= s.process.stdout
       case OWrote(o) => CanPut(s.s2c.frames, o)
       case OPost => |s.server.out.chan| < 1
       case OClosePipe => true
  }

  function OutEnd(parse: ResponseParser, e: StdoutEnd, i: OutInput): StdoutEnd {
    StdoutEnd(OStep(parse, e.w, i),
              if i.OPost? && e.w.pc.OPosting? then e.chan + [e.w.pc.result] else e.chan,
              e.pipeClosed || i.OClosePipe?)
  }

  function OutLink(link: Link, w: StdoutSender, i: OutInput): Link {
    if i.OWrote? && w.pc.OSending? then link.Send(Binary(w.pc.chunk), i.o) else link
  }

  function OutApply(cfg: Config, s: State, i: OutInput): State {
    s.(server := s.server.(out := OutEnd(cfg.parse, s.server.out, i)), s2c := OutLink(s.s2c, s.server.out.w, i))
  }

  ghost predicate ErrEnabled(s: State, i: ErrInput) {
    && s.server.sup.launched
    && ECan(s.server.err.w, i)
    && match i
       case EFill(data) => !s.server.err.pipeClosed && s.server.err.w.Read() + data <= s.process.stderr
       case ESent(o) => CanPut(s.s2c.frames, o)
       case EPost => s.server.err.posts < 1
       case _ => true
  }

  function ErrEnd(e: StderrEnd, i: ErrInput): StderrEnd {
    StderrEnd(EStep(e.w, i), if i.EPost? then e.posts + 1 else e.posts, e.pipeClosed || i.EClosePipe?)
  }

  function ErrLink(cfg: Config, link: Link, w: StderrSender, i: ErrInput): Link {
    if i.ESent? && w.pc.ESending? then link.Send(Text(cfg.encode(ProcessStderr(cfg.text(w.pc.line)))), i.o) else link
  }

  function ErrApply(cfg: Config, s: State, i: ErrInput): State {
    s.(server := s.server.(err := ErrEnd(s.server.err, i)), s2c := ErrLink(cfg, s.s2c, s.server.err.w, i))
  }

  // ---------- client ----------

  ghost predicate CliEnabled(s: State, i: CliInput) {
    && CCan(s.client.sup, i)
    && match i
       case CGot(f) => s.s2c.Offers(f)
       case CTakeSender(code) => s.client.stdin.chan != [] && code == s.client.stdin.chan[0]
       case CTakeWriter(code) => s.client.writer.chan != [] && code == s.client.writer.chan[0]
       case _ => true
  }

  function CliClient(decode: Decoder, c: Client, i: CliInput): Client {
    var c1 := c.(sup := CStep(decode, c.sup, i));
    match i
    case CTakeSender(_) => c1.(stdin := c.stdin.(chan := Drop(c.stdin.chan)))
    case CTakeWriter(_) => c1.(writer := c.writer.(chan := Drop(c.writer.chan)))
    case _ => c1
  }

  function CliApply(cfg: Config, s: State, i: CliInput): State {
    s.(client := CliClient(cfg.decode, s.client, i), s2c := if i.CGot? then s.s2c.Read() else s.s2c)
  }

  ghost predicate InEnabled(s: State, i: InInput) {
    && s.client.sup.launched
    && ICan(s.client.stdin.w, i)
    && match i
       case ISent(o) => CanPut(s.c2s.frames, o)
       case IShutdownSent(o) => CanPut(s.c2s.frames, o)
       case ICancelled => s.client.sup.inCancelled || s.clientInterrupted
       case IPost => |s.client.stdin.chan| < 1
       case IRead(_, _) => true
  }

  function InEnd(e: StdinEnd, i: InInput): StdinEnd {
    StdinEnd(IStep(e.w, i), if i.IPost? && e.w.pc.IPosting? then e.chan + [e.w.pc.code] else e.chan)
  }

  function InLink(cfg: Config, link: Link, w: StdinSender, i: InInput): Link {
    match i
    case ISent(o) => if w.pc.ISending? then link.Send(Binary(w.pc.chunk), o) else link
    case IShutdownSent(o) => link.Send(Text(cfg.encode(Shutdown)), o)
    case _ => link
  }

  function InApply(cfg: Config, s: State, i: InInput): State {
    s.(client := s.client.(stdin := InEnd(s.client.stdin, i)), c2s := InLink(cfg, s.c2s, s.client.stdin.w, i))
  }

  ghost predicate WriterEnabled(s: State, i: WriterInput) {
    && s.client.sup.launched
    && WCan(s.client.writer.w, i)
    && (i.WGot? ==> s.s2c.Offers(i.frame))
    && (i.WPost? ==> |s.client.writer.chan| < 1)
  }

  function WriteEnd(decode: Decoder, e: WriterEnd, i: WriterInput): WriterEnd {
    WriterEnd(WStep(decode, e.w, i), if i.WPost? && e.w.pc.WPosting? then e.chan + [e.w.pc.code] else e.chan)
  }

  function WriterApply(cfg: Config, s: State, i: WriterInput): State {
    s.(client := s.client.(writer := WriteEnd(cfg.decode, s.client.writer, i)),
       s2c := if i.WGot? then s.s2c.Read() else s.s2c)
  }

  /** The client code never closes in an orderly way; its library closes on its own with an error code, or
      echoes the close it has read from the server. */
  ghost predicate LibraryCloseAllowed(s: State, code: int) {
    && !Closed(s.c2s.frames)
    && (code != STATUS_NORMAL_CLOSURE
        || (0 < s.s2c.seen <= |s.s2c.frames| && s.s2c.frames[s.s2c.seen - 1].Close?))
  }

  // ---------- runs ----------

  ghost predicate Enabled(s: State, ev: Event) {
    match ev
    case SupEv(i) => SupEnabled(s, i)
    case RxEv(i) => RxEnabled(s, i)
    case OutEv(i) => OutEnabled(s, i)
    case ErrEv(i) => ErrEnabled(s, i)
    case StdoutHelper => s.server.sup.launched && OutContextDone(s)
    case StderrHelper => s.server.sup.launched && ErrContextDone(s)
    case CliEv(i) => CliEnabled(s, i)
    case InEv(i) => InEnabled(s, i)
    case WriterEv(i) => WriterEnabled(s, i)
    case ClientLibraryClose(code) => LibraryCloseAllowed(s, code)
    case ProcessStdout(_) => s.process.running
    case ProcessStderrBytes(_) => s.process.running
    case ProcessExit(_) => s.process.running
    case ServerInterrupt => true
    case ClientInterrupt => true
  }

  function Step(cfg: Config, s: State, ev: Event): State {
    match ev
    case SupEv(i) => SupApply(cfg, s, i)
    case RxEv(i) => RxApply(cfg, s, i)
    case OutEv(i) => OutApply(cfg, s, i)
    case ErrEv(i) => ErrApply(cfg, s, i)
    case StdoutHelper => s.(server := s.server.(out := s.server.out.(pipeClosed := true)))
    case StderrHelper => s.(server := s.server.(err := s.server.err.(pipeClosed := true)))
    case CliEv(i) => CliApply(cfg, s, i)
    case InEv(i) => InApply(cfg, s, i)
    case WriterEv(i) => WriterApply(cfg, s, i)
    case ClientLibraryClose(code) => s.(c2s := s.c2s.Send(Close(CloseError(code, LibraryClose)), Sent))
    case ProcessStdout(data) => s.(process := s.process.(stdout := s.process.stdout + data))
    case ProcessStderrBytes(data) => s.(process := s.process.(stderr := s.process.stderr + data))
    case ProcessExit(status) => s.(process := s.process.(running := false, exit := Some(status)))
    case ServerInterrupt => s.(serverInterrupted := true)
    case ClientInterrupt => s.(clientInterrupted := true)
  }

  /** Events that happen one after the other from state `s`, and the states they lead through. */
  ghost predicate RunFrom(cfg: Config, s: State, evs: seq<Event>, states: seq<State>) {
    && |states| == |evs| + 1 && states[0] == s
    && forall k :: 0 <= k < |evs| ==> Enabled(states[k], evs[k]) && states[k + 1] == Step(cfg, states[k], evs[k])
  }

  ghost predicate Run(cfg: Config, evs: seq<Event>, states: seq<State>) {
    RunFrom(cfg, Initial, evs, states)
  }

  /** The states that some run ends in. */
  ghost predicate Reachable(cfg: Config, s: State) {
    exists evs, states :: Run(cfg, evs, states) && states[|evs|] == s
  }

  lemma InitialReachable(cfg: Config)
    ensures Reachable(cfg, Initial)
  {
    assert Run(cfg, [], [Initial]);
  }

  lemma StepReachable(cfg: Config, s: State, ev: Event)
    requires Reachable(cfg, s) && Enabled(s, ev)
    ensures Reachable(cfg, Step(cfg, s, ev))
  {
    var evs, states :| Run(cfg, evs, states) && states[|evs|] == s;
    var more, longer := evs + [ev], states + [Step(cfg, s, ev)];
    forall k | 0 <= k < |more|
      ensures Enabled(longer[k], more[k]) && longer[k + 1] == Step(cfg, longer[k], more[k])
    {
      if k < |evs| {
        assert more[k] == evs[k] && longer[k] == states[k] && longer[k + 1] == states[k + 1];
      }
    }
    assert Run(cfg, more, longer) && longer[|more|] == Step(cfg, s, ev);
  }

  lemma {:induction false} RunReachable(cfg: Config, s: State, evs: seq<Event>, states: seq<State>, k: nat)
    requires Reachable(cfg, s) && RunFrom(cfg, s, evs, states) && k <= |evs|
    ensures Reachable(cfg, states[k])
  {
    if k > 0 {
      RunReachable(cfg, s, evs, states, k - 1);
      StepReachable(cfg, states[k - 1], evs[k - 1]);
    }
  }
}
