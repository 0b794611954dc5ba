/** A clean shutdown as the client sees it: what a close with "shutdown message acknowledged" implies. */
module SessionShutdown {
  import opened JsonRpc
  import opened Oob
  import opened ServerWorkers
  import opened Session
  import opened SessionControl
  import opened SessionExit
  import opened SessionLanguage
  import opened SessionStdin
  import SessionStdout
  import opened SessionTheorems
  import opened Supervisors
  import opened Wire

  ghost predicate NotAck(r: Instruction) {
    r.Some? ==> r.value.reason != ShutdownAcknowledged
  }

  /** Only the receiver acknowledges a shutdown, and only with 1000. */
  ghost predicate ReasonInv(v: Server) {
    && (v.out.w.pc.OPosting? || v.out.w.pc.OPosted? || v.out.w.pc.OClosed? ==> NotAck(v.out.w.pc.result))
    && (v.rx.w.pc.RPosting? || v.rx.w.pc.RPosted? || v.rx.w.pc.RClosed? ==>
          NotAck(v.rx.w.pc.result) || Acknowledged(v.rx.w.pc.result))
    && (!v.sup.launched ==> NotAck(v.sup.desired))
  }

  lemma ReasonStep(cfg: Config, s: State, ev: Event)
    requires ReasonInv(s.server) && SupInv(s.server.sup) && Enabled(s, ev)
    ensures ReasonInv(Step(cfg, s, ev).server)
  {
    match ev
    case SupEv(i) => SupServerReason(s.server, i);
    case RxEv(i) => RxReason(cfg.decode, s.server.rx.w, i);
    case OutEv(i) => OutReason(cfg.parse, s.server.out.w, i);
    case _ =>
  }

  lemma SupServerReason(v: Server, i: SupInput)
    requires ReasonInv(v) && SupInv(v.sup) && SCan(v.sup, i)
    ensures ReasonInv(SupServer(v, i))
  {
    SupReason(v.sup, i);
  }

  lemma SupReason(s: Supervisor, i: SupInput)
    requires SupInv(s) && (!s.launched ==> NotAck(s.desired)) && SCan(s, i)
    ensures !SStep(s, i).launched ==> NotAck(SStep(s, i).desired)
  {
  }

  lemma RxReason(decode: Decoder, r: Receiver, i: ReceiverInput)
    requires RCan(r, i)
    requires r.pc.RPosting? || r.pc.RPosted? || r.pc.RClosed? ==> NotAck(r.pc.result) || Acknowledged(r.pc.result)
    ensures var t := RStep(decode, r, i);
      t.pc.RPosting? || t.pc.RPosted? || t.pc.RClosed? ==> NotAck(t.pc.result) || Acknowledged(t.pc.result)
  {
  }

  lemma OutReason(parse: ResponseParser, w: StdoutSender, i: OutInput)
    requires OCan(w, i)
    requires w.pc.OPosting? || w.pc.OPosted? || w.pc.OClosed? ==> NotAck(w.pc.result)
    ensures var t := OStep(parse, w, i); t.pc.OPosting? || t.pc.OPosted? || t.pc.OClosed? ==> NotAck(t.pc.result)
  {
  }

  /** A close that acknowledges a shutdown is the receiver's instruction, unchanged. */
  ghost predicate AckInv(fs: seq<Frame>, rx: Receiver) {
    Closed(fs) && fs[|fs| - 1].close.reason == ShutdownAcknowledged ==>
      RDone(rx) && rx.pc.result == Some(fs[|fs| - 1].close)
  }

  lemma SupLinkKeepsAck(cfg: Config, link: Link, v: Server, i: SupInput)
    requires AckInv(link.frames, v.rx.w) && ServerInv(v) && ReasonInv(v) && SCan(v.sup, i)
    ensures AckInv(SupLink(cfg, link, v.sup, i).frames, v.rx.w)
  {
    if i.SSent? && v.sup.pc.Closing? {
      ClosesWith(v);
    }
  }

  lemma ClosesWith(v: Server)
    requires ServerInv(v) && ReasonInv(v) && v.sup.pc.Closing? && v.sup.desired.Some?
    ensures NotAck(v.sup.desired) || (RDone(v.rx.w) && v.rx.w.pc.result == v.sup.desired)
  {
  }

  lemma AckStep(cfg: Config, s: State, ev: Event)
    requires AckInv(s.s2c.frames, s.server.rx.w) && ServerInv(s.server) && ReasonInv(s.server) && Enabled(s, ev)
    ensures var t := Step(cfg, s, ev); AckInv(t.s2c.frames, t.server.rx.w)
  {
    match ev
    case SupEv(i) => SupLinkKeepsAck(cfg, s.s2c, s.server, i);
    case RxEv(i) => RStepDone(cfg.decode, s.server.rx.w, i);
    case OutEv(_) =>
    case ErrEv(_) =>
    case _ =>
  }

  /** Wait's nil verdict is about exit code 0. */
  lemma ExitStep(cfg: Config, s: State, ev: Event)
    requires Inv(cfg, s) && Enabled(s, ev)
    requires s.server.sup.waited == Some(WaitOk) ==> s.process.exit == Some(ExitCode(0))
    ensures var t := Step(cfg, s, ev); t.server.sup.waited == Some(WaitOk) ==> t.process.exit == Some(ExitCode(0))
  {
    if ev.SupEv? {
      SessionStdout.SupWaits(s.server.sup, ev.s);
    }
  }

  ghost predicate ShutdownInv(s: State) {
    && ReasonInv(s.server) && AckInv(s.s2c.frames, s.server.rx.w)
    && (s.server.sup.waited == Some(WaitOk) ==> s.process.exit == Some(ExitCode(0)))
  }

  lemma ShutdownStart()
    ensures ShutdownInv(Initial)
  {
  }

  lemma ShutdownStep(cfg: Config, s: State, ev: Event, t: State)
    requires Inv(cfg, s) && ShutdownInv(s) && Enabled(s, ev) && t == Step(cfg, s, ev)
    ensures ShutdownInv(t)
  {
    ReasonStep(cfg, s, ev);
    AckStep(cfg, s, ev);
    ExitStep(cfg, s, ev);
  }

  lemma NextShutdown(cfg: Config, evs: seq<Event>, states: seq<State>, k: nat)
    requires cfg.Faithful() && Run(cfg, evs, states) && k < |evs| && ShutdownInv(states[k])
    ensures ShutdownInv(states[k + 1])
  {
    RunInv(cfg, evs, states, k);
    ShutdownStep(cfg, states[k], evs[k], states[k + 1]);
  }

  lemma {:induction false} RunShutdown(cfg: Config, evs: seq<Event>, states: seq<State>, k: nat)
    requires cfg.Faithful() && Run(cfg, evs, states) && k <= |evs|
    ensures ShutdownInv(states[k])
  {
    if k == 0 {
      ShutdownStart();
    } else {
      RunShutdown(cfg, evs, states, k - 1);
      NextShutdown(cfg, evs, states, k - 1);
    }
  }

  /** In every reachable state a nil Wait is about exit code 0, and a close on the wire that acknowledges the shutdown
      is what the receiver posted. */
  lemma ReachableShutdown(cfg: Config, s: State)
    requires cfg.Faithful() && Reachable(cfg, s)
    ensures ShutdownInv(s)
  {
    var evs, states :| Run(cfg, evs, states) && states[|evs|] == s;
    RunShutdown(cfg, evs, states, |evs|);
  }

  ghost predicate ShutdownComplete(s: State) {
    && s.server.rx.w.written == s.client.stdin.w.read && s.client.stdin.w.eof
    && s.server.sup.waited == Some(WaitOk) && s.process.exit == Some(ExitCode(0))
    && |s.process.stdout| - |Bytes(s.s2c.frames)| <= BINARY_FRAME_MAX_SIZE
  }

  /** Once the server has put a close that acknowledges the shutdown on the wire: the process was given everything
      the client read up to the end of its input, it was waited for and succeeded, and all it wrote is on the
      wire, one chunk at most excepted. */
  lemma AcknowledgedShutdownIsComplete(cfg: Config, s: State)
    requires cfg.Faithful() && Reachable(cfg, s)
    ensures Closed(s.s2c.frames) && s.s2c.frames[|s.s2c.frames| - 1].close.reason == ShutdownAcknowledged ==>
      ShutdownComplete(s)
  {
    ReachableShutdown(cfg, s);
    ReachableInv(cfg, s);
    StdinEndToEnd(cfg, s);
    StdoutEndToEnd(cfg, s);
  }

  // ---------- the real codec ----------

  function TunnelConfig(parse: ResponseParser, text: seq<byte> -> string): Config {
    Config(Encode, Decode, parse, text)
  }

  /** The out-of-band codec satisfies the one assumption of the session theorems. */
  lemma CodecIsFaithful(parse: ResponseParser, text: seq<byte> -> string)
    ensures TunnelConfig(parse, text).Faithful()
  {
    forall p ensures TunnelConfig(parse, text).decode(TunnelConfig(parse, text).encode(p)) == Some(p) {
      RoundTrip(p);
    }
  }
}
