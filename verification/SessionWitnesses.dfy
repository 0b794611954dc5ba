/** Runs that show what the code does not guarantee: the nil dereference is reachable, and an orderly shutdown can
    lose output. */
module SessionWitnesses {
  import opened ClientWorkers
  import opened Oob
  import opened ServerWorkers
  import opened Session
  import opened SessionLoss
  import opened Supervisors
  import opened Wire

  const CHILD: Int64 := 1

  /** The process has been started and the client told so. */
  ghost function Launched(cfg: Config): State {
    Initial.(server := NewServer.(sup := LaunchedSupervisor), process := Process(true, [], [], None),
             s2c := Link([Text(cfg.encode(StartOK(CHILD)))], 0))
  }

  lemma ReachLaunched(cfg: Config)
    ensures Reachable(cfg, Launched(cfg))
  {
    InitialReachable(cfg);
    StepReachable(cfg, Initial, SupEv(SStarted(CHILD)));
    var s := Step(cfg, Initial, SupEv(SStarted(CHILD)));
    StepReachable(cfg, s, SupEv(SSent(Sent)));
  }

  const TOO_BIG := CloseError(1009, LibraryClose)

  /** The receiver has read the close frame of the client's library, which the server's library echoed. */
  ghost function PeerGone(cfg: Config): State {
    Launched(cfg).(
      server := NewServer.(sup := LaunchedSupervisor, rx := ReceiverEnd(NewReceiver.(pc := RPosting(None)), [])),
      c2s := Link([Close(TOO_BIG)], 1),
      s2c := Link([Text(cfg.encode(StartOK(CHILD))), Close(TOO_BIG)], 0))
  }

  lemma ReachPeerGone(cfg: Config)
    ensures Reachable(cfg, PeerGone(cfg))
  {
    ReachLaunched(cfg);
    var s := Launched(cfg);
    StepReachable(cfg, s, ClientLibraryClose(1009));
    var t := s.(c2s := Link([Close(TOO_BIG)], 0));
    assert Step(cfg, s, ClientLibraryClose(1009)) == t;
    ReadClose(cfg, t);
  }

  lemma ReadClose(cfg: Config, s: State)
    requires Reachable(cfg, s) && s == Launched(cfg).(c2s := Link([Close(TOO_BIG)], 0))
    ensures Reachable(cfg, PeerGone(cfg))
  {
    StepReachable(cfg, s, RxEv(RGot(Close(TOO_BIG))));
    var t := Step(cfg, s, RxEv(RGot(Close(TOO_BIG))));
    assert t.s2c.frames == [Text(cfg.encode(StartOK(CHILD))), Close(TOO_BIG)];
    assert t == PeerGone(cfg);
  }

  /** The fault is reachable: the client's library closes the socket without a shutdown message, for instance on a
      message over its read limit, and the server dereferences nil. */
  lemma FaultReachable(cfg: Config) returns (s: State)
    ensures Reachable(cfg, s) && s.server.sup.fault
  {
    ReachPeerGone(cfg);
    var t := PeerGone(cfg);
    StepReachable(cfg, t, RxEv(RPost));
    s := Step(cfg, t, RxEv(RPost));
    assert s.server.rx.chan == [None];
    StepReachable(cfg, s, SupEv(STakeReceiver(None)));
    s := Step(cfg, s, SupEv(STakeReceiver(None)));
  }

  // ---------- output lost in an acknowledged shutdown ----------

  const ACK := Some(CloseError(STATUS_NORMAL_CLOSURE, ShutdownAcknowledged))
  const LOST := Some(CloseError(STATUS_INTERNAL_ERROR, WebSocketWriteFailed))
  const OUTPUT: seq<byte> := [NEWLINE]

  /** The client has passed the handshake. */
  ghost function Greeted(cfg: Config): State {
    Launched(cfg).(client := NewClient.(sup := NewClientSupervisor.(pc := CliSelecting, launched := true)),
                   s2c := Link([Text(cfg.encode(StartOK(CHILD)))], 1))
  }

  lemma ReachGreeted(cfg: Config)
    requires cfg.Faithful()
    ensures Reachable(cfg, Greeted(cfg))
  {
    ReachLaunched(cfg);
    var s, ok := Launched(cfg), Text(cfg.encode(StartOK(CHILD)));
    assert cfg.decode(ok.text) == Some(StartOK(CHILD));
    StepReachable(cfg, s, CliEv(CGot(ok)));
    assert Step(cfg, s, CliEv(CGot(ok))) == Greeted(cfg);
  }

  /** The client has passed the handshake, reached the end of its input and announced the shutdown. */
  ghost function Announced(cfg: Config): State {
    Greeted(cfg).(
      client := Greeted(cfg).client.(stdin := StdinEnd(NewStdinSender.(pc := IWaiting, eof := true), [])),
      c2s := Link([Text(cfg.encode(Shutdown))], 0))
  }

  lemma ReachAnnounced(cfg: Config)
    requires cfg.Faithful()
    ensures Reachable(cfg, Announced(cfg))
  {
    ReachGreeted(cfg);
    var t := Greeted(cfg);
    StepReachable(cfg, t, InEv(IRead([], EndOfFile)));
    var u := Step(cfg, t, InEv(IRead([], EndOfFile)));
    StepReachable(cfg, u, InEv(IShutdownSent(Sent)));
    assert Step(cfg, u, InEv(IShutdownSent(Sent))) == Announced(cfg);
  }

  /** The stdout worker has read the process's output and is about to send it. */
  ghost function Sending(cfg: Config): State {
    Announced(cfg).(
      server := NewServer.(sup := LaunchedSupervisor, out := StdoutEnd(
        NewStdoutSender.(pc := OSending(OUTPUT, NoError), read := OUTPUT), [], false)),
      process := Process(true, OUTPUT, [], None))
  }

  lemma ReachSending(cfg: Config)
    requires cfg.Faithful()
    ensures Reachable(cfg, Sending(cfg))
  {
    ReachAnnounced(cfg);
    var s := Announced(cfg);
    StepReachable(cfg, s, ProcessStdout(OUTPUT));
    var t := s.(process := Process(true, OUTPUT, [], None));
    assert [] + OUTPUT == OUTPUT;
    assert Step(cfg, s, ProcessStdout(OUTPUT)) == t;
    StepReachable(cfg, t, OutEv(ORead(OUTPUT, NoError)));
  }

  /** The receiver is about to acknowledge the shutdown. */
  ghost function Acknowledging(cfg: Config): State {
    Sending(cfg).(
      server := Sending(cfg).server.(rx := ReceiverEnd(NewReceiver.(pc := RPosting(ACK)), [])),
      c2s := Link([Text(cfg.encode(Shutdown))], 1))
  }

  lemma ReachAcknowledging(cfg: Config)
    requires cfg.Faithful()
    ensures Reachable(cfg, Acknowledging(cfg))
  {
    ReachSending(cfg);
    var s, bye := Sending(cfg), Text(cfg.encode(Shutdown));
    assert cfg.decode(bye.text) == Some(Shutdown);
    StepReachable(cfg, s, RxEv(RGot(bye)));
    assert Step(cfg, s, RxEv(RGot(bye))) == Acknowledging(cfg);
  }

  /** Its result is in its channel. */
  ghost function Posted(cfg: Config): State {
    Acknowledging(cfg).(
      server := Acknowledging(cfg).server.(rx := ReceiverEnd(NewReceiver.(pc := RPosted(ACK)), [ACK])))
  }

  lemma ReachPosted(cfg: Config)
    requires cfg.Faithful()
    ensures Reachable(cfg, Posted(cfg))
  {
    ReachAcknowledging(cfg);
    var t := Acknowledging(cfg);
    StepReachable(cfg, t, RxEv(RPost));
    assert Step(cfg, t, RxEv(RPost)) == Posted(cfg);
  }

  /** The receiver has acknowledged the shutdown and the supervisor waits for the process. */
  ghost function Awaiting(cfg: Config): State {
    Acknowledging(cfg).(
      server := Acknowledging(cfg).server.(
        sup := LaunchedSupervisor.(pc := Waiting, first := ReceiverFirst, desired := ACK, taken := Taken(1, 0, 0)),
        rx := ReceiverEnd(NewReceiver.(pc := RPosted(ACK)), [])))
  }

  lemma ReachAwaiting(cfg: Config)
    requires cfg.Faithful()
    ensures Reachable(cfg, Awaiting(cfg))
  {
    ReachPosted(cfg);
    var u := Posted(cfg);
    StepReachable(cfg, u, SupEv(STakeReceiver(ACK)));
    assert Step(cfg, u, SupEv(STakeReceiver(ACK))) == Awaiting(cfg);
  }

  /** The process has exited with code 0, Wait has returned nil and the stdout worker is cancelled. */
  ghost function StdoutCancelled(cfg: Config): State {
    Awaiting(cfg).(
      server := Awaiting(cfg).server.(
        sup := LaunchedSupervisor.(pc := JoiningStdout, first := ReceiverFirst, desired := ACK, taken := Taken(1, 0, 0),
                          waited := Some(WaitOk), cancelled := Contexts(false, true, false, false))),
      process := Process(false, OUTPUT, [], Some(ExitCode(0))))
  }

  lemma ReachStdoutCancelled(cfg: Config)
    requires cfg.Faithful()
    ensures Reachable(cfg, StdoutCancelled(cfg))
  {
    ReachAwaiting(cfg);
    var s := Awaiting(cfg);
    StepReachable(cfg, s, ProcessExit(ExitCode(0)));
    var t := Step(cfg, s, ProcessExit(ExitCode(0)));
    StepReachable(cfg, t, SupEv(SWaited(WaitOk)));
    var u := Step(cfg, t, SupEv(SWaited(WaitOk)));
    StepReachable(cfg, u, SupEv(STick));
    assert Step(cfg, u, SupEv(STick)) == StdoutCancelled(cfg);
  }

  /** Cancelling the stdout worker after Wait returned does not let it send what it holds: in an orderly shutdown,
      acknowledged and about to be closed with 1000, the output of a process that succeeded can be lost: it is not on
      the wire, and however the run goes on it never will be. */
  lemma OutputLossReachable(cfg: Config) returns (s: State)
    requires cfg.Faithful()
    ensures Reachable(cfg, s) && s.server.sup.waited == Some(WaitOk) && s.server.sup.desired == ACK
    ensures s.server.out.w.pc == OPosted(LOST) && s.server.out.w.dropped == OUTPUT == s.process.stdout
    ensures forall evs, states: seq<State> :: RunFrom(cfg, s, evs, states) ==> Bytes(states[|evs|].s2c.frames) == []
  {
    ReachStdoutCancelled(cfg);
    var t := StdoutCancelled(cfg);
    StepReachable(cfg, t, OutEv(OWrote(Lost(-1))));
    var u := Step(cfg, t, OutEv(OWrote(Lost(-1))));
    StepReachable(cfg, u, OutEv(OPost));
    s := Step(cfg, u, OutEv(OPost));
    assert s.s2c.frames[..0] == [];
    forall evs, states: seq<State> | RunFrom(cfg, s, evs, states) ensures Bytes(states[|evs|].s2c.frames) == [] {
      OutputFrozen(cfg, s, evs, states, |evs|);
    }
  }
}
