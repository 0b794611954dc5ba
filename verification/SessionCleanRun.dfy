/** A whole orderly session: the client ends its input, the server acknowledges, the process succeeds, every worker is
    joined, the socket is closed with 1000, and the client returns 0. What the other results promise of such sessions
    is therefore about runs that exist. */
module SessionCleanRun {
  import opened ClientWorkers
  import opened Oob
  import opened ServerWorkers
  import opened Session
  import opened SessionWitnesses
  import opened Supervisors
  import opened Wire

  const PIPE_CLOSED := Some(CloseError(1000, StdoutPipeClosed))
  const RX_DONE := ReceiverEnd(NewReceiver.(pc := RPosted(ACK)), [])
  const OUT_NEW := StdoutEnd(NewStdoutSender, [], false)
  const OUT_DONE := StdoutEnd(NewStdoutSender.(pc := OPosted(PIPE_CLOSED)), [], true)
  const ERR_NEW := StderrEnd(NewStderrSender, 0, false)
  const ERR_DONE := StderrEnd(NewStderrSender.(pc := EPosted), 0, true)

  const ACK_FIRST := LaunchedSupervisor.(first := ReceiverFirst, desired := ACK)

  function Ok(cfg: Config): Frame {
    Text(cfg.encode(StartOK(CHILD)))
  }

  function Bye(cfg: Config): Frame {
    Text(cfg.encode(Shutdown))
  }

  function Exited(cfg: Config): Frame {
    Text(cfg.encode(ServerExited(Some(0), false, "")))
  }

  /** The server's side of the session after it has read the shutdown message. */
  ghost function Serving(cfg: Config, v: Server, running: bool, frames: seq<Frame>): State {
    Announced(cfg).(
      server := v, process := Process(running, [], [], if running then None else Some(ExitCode(0))),
      c2s := Link([Bye(cfg)], 1), s2c := Link(frames, 1))
  }

  ghost function Shut(cfg: Config): State {
    var sup := LaunchedSupervisor;
    Serving(cfg, Server(sup, ReceiverEnd(NewReceiver.(pc := RPosting(ACK)), []), OUT_NEW, ERR_NEW), true, [Ok(cfg)])
  }

  lemma ReachShut(cfg: Config)
    requires cfg.Faithful()
    ensures Reachable(cfg, Shut(cfg))
  {
    ReachAnnounced(cfg);
    var s := Announced(cfg);
    assert cfg.decode(Bye(cfg).text) == Some(Shutdown);
    StepReachable(cfg, s, RxEv(RGot(Bye(cfg))));
    assert Step(cfg, s, RxEv(RGot(Bye(cfg)))) == Shut(cfg);
  }

  ghost function Told(cfg: Config): State {
    Serving(cfg, Server(LaunchedSupervisor, RX_DONE.(chan := [ACK]), OUT_NEW, ERR_NEW), true, [Ok(cfg)])
  }

  ghost function Chosen(cfg: Config): State {
    var sup := ACK_FIRST.(pc := Waiting, taken := Taken(1, 0, 0));
    Serving(cfg, Server(sup, RX_DONE, OUT_NEW, ERR_NEW), true, [Ok(cfg)])
  }

  lemma ReachChosen(cfg: Config)
    requires cfg.Faithful()
    ensures Reachable(cfg, Chosen(cfg))
  {
    ReachShut(cfg);
    StepReachable(cfg, Shut(cfg), RxEv(RPost));
    assert Step(cfg, Shut(cfg), RxEv(RPost)) == Told(cfg);
    StepReachable(cfg, Told(cfg), SupEv(STakeReceiver(ACK)));
    assert Step(cfg, Told(cfg), SupEv(STakeReceiver(ACK))) == Chosen(cfg);
  }

  ghost function JoiningOut(cfg: Config, out: StdoutEnd): State {
    var sup := ACK_FIRST.(pc := JoiningStdout, taken := Taken(1, 0, 0), waited := Some(WaitOk),
                          cancelled := Contexts(false, true, false, false));
    Serving(cfg, Server(sup, RX_DONE, out, ERR_NEW), false, [Ok(cfg)])
  }

  lemma ReachJoiningOut(cfg: Config)
    requires cfg.Faithful()
    ensures Reachable(cfg, JoiningOut(cfg, OUT_NEW))
  {
    ReachChosen(cfg);
    var s := Chosen(cfg);
    StepReachable(cfg, s, ProcessExit(ExitCode(0)));
    var t := Step(cfg, s, ProcessExit(ExitCode(0)));
    StepReachable(cfg, t, SupEv(SWaited(WaitOk)));
    var u := Step(cfg, t, SupEv(SWaited(WaitOk)));
    StepReachable(cfg, u, SupEv(STick));
    assert Step(cfg, u, SupEv(STick)) == JoiningOut(cfg, OUT_NEW);
  }

  lemma ReachOutPosted(cfg: Config)
    requires cfg.Faithful()
    ensures Reachable(cfg, JoiningOut(cfg, OUT_DONE.(chan := [PIPE_CLOSED])))
  {
    ReachJoiningOut(cfg);
    var s := JoiningOut(cfg, OUT_NEW);
    StepReachable(cfg, s, StdoutHelper);
    var t := Step(cfg, s, StdoutHelper);
    StepReachable(cfg, t, OutEv(ORead([], ClosedPipe)));
    var u := Step(cfg, t, OutEv(ORead([], ClosedPipe)));
    StepReachable(cfg, u, OutEv(OPost));
    assert Step(cfg, u, OutEv(OPost)) == JoiningOut(cfg, OUT_DONE.(chan := [PIPE_CLOSED]));
  }

  ghost function JoiningErr(cfg: Config, err: StderrEnd): State {
    var sup := ACK_FIRST.(pc := JoiningStderr, taken := Taken(1, 1, 0), waited := Some(WaitOk),
                          cancelled := Contexts(false, true, true, false));
    Serving(cfg, Server(sup, RX_DONE, OUT_DONE, err), false, [Ok(cfg)])
  }

  lemma ReachJoiningErr(cfg: Config)
    requires cfg.Faithful()
    ensures Reachable(cfg, JoiningErr(cfg, ERR_NEW))
  {
    ReachOutPosted(cfg);
    var s := JoiningOut(cfg, OUT_DONE.(chan := [PIPE_CLOSED]));
    StepReachable(cfg, s, SupEv(STakeStdout(PIPE_CLOSED)));
    var t := Step(cfg, s, SupEv(STakeStdout(PIPE_CLOSED)));
    StepReachable(cfg, t, SupEv(STick));
    assert Step(cfg, t, SupEv(STick)) == JoiningErr(cfg, ERR_NEW);
  }

  lemma ReachErrPosted(cfg: Config)
    requires cfg.Faithful()
    ensures Reachable(cfg, JoiningErr(cfg, ERR_DONE.(posts := 1)))
  {
    ReachJoiningErr(cfg);
    var s := JoiningErr(cfg, ERR_NEW);
    StepReachable(cfg, s, StderrHelper);
    var t := Step(cfg, s, StderrHelper);
    StepReachable(cfg, t, ErrEv(EReadFailed));
    var u := Step(cfg, t, ErrEv(EReadFailed));
    StepReachable(cfg, u, ErrEv(EPost));
    assert Step(cfg, u, ErrEv(EPost)) == JoiningErr(cfg, ERR_DONE.(posts := 1));
  }

  ghost function ExitReported(cfg: Config): State {
    var sup := ACK_FIRST.(pc := Unwinding, taken := Taken(1, 1, 1), waited := Some(WaitOk), exits := 1,
                          cancelled := Contexts(false, true, true, false));
    Serving(cfg, Server(sup, RX_DONE, OUT_DONE, ERR_DONE), false, [Ok(cfg), Exited(cfg)])
  }

  lemma ReachExitReported(cfg: Config)
    requires cfg.Faithful()
    ensures Reachable(cfg, ExitReported(cfg))
  {
    ReachErrPosted(cfg);
    var s := JoiningErr(cfg, ERR_DONE.(posts := 1));
    StepReachable(cfg, s, SupEv(STakeStderr));
    var t := Step(cfg, s, SupEv(STakeStderr));
    StepReachable(cfg, t, SupEv(SSent(Sent)));
    var u := Step(cfg, t, SupEv(SSent(Sent)));
    assert u.s2c.frames == [Ok(cfg), Exited(cfg)];
    assert u == ExitReported(cfg);
  }

  ghost function Closing1000(cfg: Config): State {
    var sup := ACK_FIRST.(pc := Stopping, taken := Taken(1, 1, 1), waited := Some(WaitOk), exits := 1,
                          cancelled := Contexts(true, true, true, false));
    Serving(cfg, Server(sup, RX_DONE, OUT_DONE, ERR_DONE), false, [Ok(cfg), Exited(cfg), Close(ACK.value)])
  }

  /** The close that acknowledges the shutdown does get on the wire, with 1000. */
  lemma AcknowledgingCloseReachable(cfg: Config)
    requires cfg.Faithful()
    ensures var s := Closing1000(cfg);
      && Reachable(cfg, s) && Closed(s.s2c.frames)
      && s.s2c.frames[|s.s2c.frames| - 1] == Close(CloseError(1000, ShutdownAcknowledged))
  {
    ReachExitReported(cfg);
    var s := ExitReported(cfg);
    StepReachable(cfg, s, SupEv(STick));
    var t := Step(cfg, s, SupEv(STick));
    StepReachable(cfg, t, SupEv(SSent(Sent)));
    var u := Step(cfg, t, SupEv(SSent(Sent)));
    assert u.s2c.frames == [Ok(cfg), Exited(cfg), Close(ACK.value)];
    assert u == Closing1000(cfg);
  }

  ghost function Ended(cfg: Config, sup: ClientSupervisor, writer: WriterEnd): State {
    Closing1000(cfg).(
      client := Announced(cfg).client.(sup := sup, writer := writer),
      s2c := Link([Ok(cfg), Exited(cfg), Close(ACK.value)], 3))
  }

  const SELECTING := NewClientSupervisor.(pc := CliSelecting, launched := true)
  const WRITER_DONE := WriterEnd(NewStdoutWriter.(pc := WPosted(0)), [])

  lemma ReachEnded(cfg: Config)
    requires cfg.Faithful()
    ensures Reachable(cfg, Ended(cfg, SELECTING, WRITER_DONE.(chan := [0])))
  {
    AcknowledgingCloseReachable(cfg);
    var s := Closing1000(cfg);
    assert cfg.decode(Exited(cfg).text) == Some(ServerExited(Some(0), false, ""));
    StepReachable(cfg, s, WriterEv(WGot(Exited(cfg))));
    var t := Step(cfg, s, WriterEv(WGot(Exited(cfg))));
    StepReachable(cfg, t, WriterEv(WGot(Close(ACK.value))));
    var u := Step(cfg, t, WriterEv(WGot(Close(ACK.value))));
    StepReachable(cfg, u, WriterEv(WPost));
    assert Step(cfg, u, WriterEv(WPost)) == Ended(cfg, SELECTING, WRITER_DONE.(chan := [0]));
  }

  const HEARD := SELECTING.(pc := JoiningSender, first := HeardWriter, inCancelled := true)

  lemma ReachHeard(cfg: Config)
    requires cfg.Faithful()
    ensures Reachable(cfg, Ended(cfg, HEARD, WRITER_DONE))
  {
    ReachEnded(cfg);
    var t := Ended(cfg, SELECTING, WRITER_DONE.(chan := [0]));
    StepReachable(cfg, t, CliEv(CTakeWriter(0)));
    var u := Step(cfg, t, CliEv(CTakeWriter(0)));
    StepReachable(cfg, u, CliEv(CTick));
    assert Step(cfg, u, CliEv(CTick)) == Ended(cfg, HEARD, WRITER_DONE);
  }

  /** An orderly session does end with 0 on the client. */
  lemma SuccessReachable(cfg: Config) returns (s: State)
    requires cfg.Faithful()
    ensures Reachable(cfg, s) && s.client.sup.pc == CliReturned(ExitWith(0))
  {
    ReachHeard(cfg);
    var v := Ended(cfg, HEARD, WRITER_DONE);
    StepReachable(cfg, v, CliEv(CTimeout));
    s := Step(cfg, v, CliEv(CTimeout));
  }
}
