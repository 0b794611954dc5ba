/** What holds in every state of every run of the tunnel. */
module SessionTheorems {
  import opened Accumulators
  import opened ClientWorkers
  import opened JsonRpc
  import opened Lines
  import opened Lists
  import opened ServerLoops
  import opened ServerWorkers
  import opened Session
  import opened SessionControl
  import opened SessionExit
  import opened SessionLanguage
  import opened SessionReceiver
  import opened SessionStdin
  import opened SessionStdout
  import opened Supervisors
  import opened Wire

  ghost predicate Inv(cfg: Config, s: State) {
    && ServerInv(s.server) && ClientInv(s.client) && ProcessInv(s)
    && StdinInv(cfg, s) && StdoutInv(s)
    && LangInv(cfg, s.s2c.frames, s.server.sup)
    && WireInv(cfg, s.c2s.frames, s.s2c.frames, s.server.sup.waited)
    && VerdictInv(cfg, s.s2c, s.server.sup.waited, s.client)
    && StderrInv(cfg, s.s2c, s.server.err.w, s.client)
    && SeenInv(s.c2s, s.server.rx.w)
    && HandshakeInv(cfg.decode, s.s2c, s.client)
    && FramesFit(s.s2c.frames)
  }

  lemma InitialInv(cfg: Config)
    ensures Inv(cfg, Initial)
  {
    assert Complete<byte>([], NEWLINE) == [] && Rest<byte>([], NEWLINE) == [];
  }

  lemma StepKeepsInv(cfg: Config, s: State, ev: Event)
    requires cfg.Faithful() && Inv(cfg, s) && Enabled(s, ev)
    ensures Inv(cfg, Step(cfg, s, ev))
  {
    ServerStepKeepsInv(cfg, s, ev);
    ClientStepKeepsInv(cfg, s, ev);
    ProcessStepKeepsInv(cfg, s, ev);
    StdinStepKeepsInv(cfg, s, ev);
    StdoutStepKeepsInv(cfg, s, ev);
    LangStepKeepsInv(cfg, s, ev);
    WireStepKeepsInv(cfg, s, ev);
    VerdictStepKeepsInv(cfg, s, ev);
    StderrStepKeepsInv(cfg, s, ev);
    SeenStepKeepsInv(cfg, s, ev);
    HandshakeStepKeepsInv(cfg, s, ev);
    FitStepKeepsInv(cfg, s, ev);
  }

  lemma {:induction false} RunInv(cfg: Config, evs: seq<Event>, states: seq<State>, k: nat)
    requires cfg.Faithful() && Run(cfg, evs, states) && k <= |evs|
    ensures Inv(cfg, states[k])
  {
    if k == 0 {
      InitialInv(cfg);
    } else {
      RunInv(cfg, evs, states, k - 1);
      StepKeepsInv(cfg, states[k - 1], evs[k - 1]);
    }
  }

  /** All invariants hold in every reachable state. */
  lemma ReachableInv(cfg: Config, s: State)
    requires cfg.Faithful() && Reachable(cfg, s)
    ensures Inv(cfg, s)
  {
    var evs, states :| Run(cfg, evs, states) && states[|evs|] == s;
    RunInv(cfg, evs, states, |evs|);
  }

  // ---------- data ----------

  /** End-to-end stdin. */
  lemma StdinEndToEnd(cfg: Config, s: State)
    requires cfg.Faithful() && Reachable(cfg, s)
    ensures s.server.rx.w.written <= s.client.stdin.w.read
    ensures RDone(s.server.rx.w) && Acknowledged(s.server.rx.w.pc.result) ==>
      s.server.rx.w.written == s.client.stdin.w.read && s.client.stdin.w.eof
  {
    ReachableInv(cfg, s);
    StdinTheorem(cfg, s);
  }

  /** End-to-end stdout, with exactly what can be missing: once the worker has ended, what it read is what is on the
      wire followed by the one chunk a failed send lost; after a clean Wait nothing else is missing. */
  lemma StdoutEndToEnd(cfg: Config, s: State)
    requires cfg.Faithful() && Reachable(cfg, s)
    ensures s.client.writer.w.out <= s.server.out.w.read <= s.process.stdout
    ensures Bytes(s.s2c.frames) <= s.server.out.w.read
    ensures |s.server.out.w.read| - |Bytes(s.s2c.frames)| <= BINARY_FRAME_MAX_SIZE
    ensures ODone(s.server.out.w) ==> OutEndInv(s.s2c.frames, s.server.out.w, s.server.out.w.pc.result)
    ensures s.server.sup.waited == Some(WaitOk) ==>
      |s.process.stdout| - |Bytes(s.s2c.frames)| <= BINARY_FRAME_MAX_SIZE
    ensures s.server.sup.waited == Some(WaitOk) && ODone(s.server.out.w) ==>
      && Bytes(s.s2c.frames) + s.server.out.w.dropped == s.process.stdout
      && (Bytes(s.s2c.frames) == s.process.stdout <==> s.server.out.w.dropped == [])
      && (!SendFailed(s.server.out.w.pc.result) ==> Bytes(s.s2c.frames) == s.process.stdout)
  {
    ReachableInv(cfg, s);
    StdoutTheorem(s);
  }

  /** End-to-end stderr: the lines the client shows are, in order, some of the non-empty lines of what the worker
      read from the process, itself a prefix of what the process wrote. */
  lemma StderrEndToEnd(cfg: Config, s: State)
    requires cfg.Faithful() && Reachable(cfg, s)
    ensures s.server.err.w.Read() <= s.process.stderr
    ensures Subsequence(s.client.writer.w.lines, Map(cfg.text, NonEmptyLines(s.server.err.w.Read())))
  {
    ReachableInv(cfg, s);
    var e, shown := s.server.err.w, s.client.writer.w.lines;
    StderrLinesPrefix(cfg.decode, s.s2c.frames, if s.client.sup.launched then s.s2c.seen else 0);
    SubsequencePrefix(shown, Map(cfg.text, e.delivered));
    DeliveredAreLines(e);
    SubsequenceMap(cfg.text, e.delivered, NonEmptyLines(e.Read()));
    SubsequenceTransitive(shown, Map(cfg.text, e.delivered), Map(cfg.text, NonEmptyLines(e.Read())));
  }

  lemma DeliveredAreLines(e: StderrSender)
    requires EInv(e)
    ensures Subsequence(e.delivered, NonEmptyLines(e.Read()))
  {
    TriedPrefix(e);
    SubsequencePrefix(e.attempts, NonEmptyLines(e.Read()));
    SubsequenceTransitive(e.delivered, e.attempts, NonEmptyLines(e.Read()));
  }

  lemma TriedPrefix(e: StderrSender)
    requires EInv(e)
    ensures e.attempts <= NonEmptyLines(e.Read())
  {
    if Draining(e) {
      SplitConcat(e.split, e.buffered, NEWLINE);
      ShownConcat(Complete(e.split, NEWLINE), Complete([] + e.buffered, NEWLINE));
    } else {
      assert e.split + e.buffered == e.split;
    }
  }

  /** The request log: it is fed exactly the messages written whole; the lines it reports are, in order, some of the
      lines the process was given; and what the loop observes is the verdict on each of those lines. */
  lemma LogFaithfulness(cfg: Config, s: State, parse: RequestParser)
    requires cfg.Faithful() && Reachable(cfg, s)
    ensures LogInv(s.c2s, s.server.rx.w)
    ensures Subsequence(Reported([], s.server.rx.w.fed), Complete(s.server.rx.w.written, NEWLINE))
    ensures Decided(ObservedRequests([], s.server.rx.w.fed, parse)) == Verdicts(Reported([], s.server.rx.w.fed), parse)
  {
    ReachableInv(cfg, s);
    LogIsPrefix(s.c2s, s.server.rx.w);
    LogIsFaithful(s.server.rx.w);
    ObservedAreReported(s.server.rx.w.fed, parse);
  }

  lemma LogIsPrefix(link: Link, r: Receiver)
    requires LogInv(link, r)
    ensures Flatten(r.fed) <= r.written
  {
  }

  lemma LogIsFaithful(r: Receiver)
    requires Flatten(r.fed) <= r.written
    ensures Subsequence(Reported([], r.fed), Complete(r.written, NEWLINE))
  {
    var fed := Flatten(r.fed);
    var lines, given := Handled([], r.fed), Complete(r.written, NEWLINE);
    ReportedAreLines([], r.fed);
    HandledIsEverything([], r.fed);
    assert [] + fed == fed;
    LinesOfPrefix(fed, r.written, NEWLINE);
    assert lines <= given;
    SubsequencePrefix(lines, given);
    SubsequenceTransitive(Reported([], r.fed), lines, given);
  }

  // ---------- protocol ----------

  /** The frames the server writes: start_err is followed by a close only; after start_ok come output, stderr
      lines and at most one exit report, which only a close may follow; nothing follows a close. */
  lemma ServerFrameLanguage(cfg: Config, s: State)
    requires cfg.Faithful() && Reachable(cfg, s)
    ensures var fs := s.s2c.frames;
      && LangOf(cfg.decode, fs) != Bad
      && (forall k :: 0 <= k < |fs| && fs[k].Close? ==> k == |fs| - 1)
      && (fs != [] && IsStartOK(cfg.decode, fs[0]) ==>
            && (forall k :: 0 < k < |fs| ==> Streamed(cfg.decode, fs[k]))
            && (forall j, k :: 0 < j < k < |fs| && IsExitReport(cfg.decode, fs[j]) ==> fs[k].Close?))
      && (fs != [] && !IsStartOK(cfg.decode, fs[0]) ==> fs[0].Close? || |fs| == 1 || (|fs| == 2 && fs[1].Close?))
  {
    ReachableInv(cfg, s);
    var fs := s.s2c.frames;
    forall k | 0 <= k < |fs| && fs[k].Close? ensures k == |fs| - 1 {
      LangPrefix(cfg.decode, fs, k);
    }
    if fs != [] && IsStartOK(cfg.decode, fs[0]) {
      forall k | 0 < k < |fs| ensures Streamed(cfg.decode, fs[k]) {
        AfterStartOK(cfg.decode, fs, k);
      }
      forall j, k | 0 < j < k < |fs| && IsExitReport(cfg.decode, fs[j]) ensures fs[k].Close? {
        AfterExitReport(cfg.decode, fs, j, k);
      }
    } else if fs != [] {
      OnlyCloseAfter(cfg.decode, fs);
    }
  }

  ghost predicate IsExitReport(decode: Decoder, f: Frame) {
    f.Text? && decode(f.text).Some? && decode(f.text).value.ServerExited?
  }

  lemma AfterExitReport(decode: Decoder, fs: seq<Frame>, j: nat, k: nat)
    requires LangOf(decode, fs) != Bad && 0 < j < k < |fs|
    requires IsStartOK(decode, fs[0]) && IsExitReport(decode, fs[j])
    ensures fs[k].Close?
  {
    LangPrefix(decode, fs, j);
    AfterStartOK(decode, fs, j);
    assert fs[..j + 1] == fs[..j] + [fs[j]];
    LangSnoc(decode, fs[..j], fs[j]);
    LangPrefix(decode, fs, j + 1);
  }

  lemma OnlyCloseAfter(decode: Decoder, fs: seq<Frame>)
    requires LangOf(decode, fs) != Bad && fs != [] && !IsStartOK(decode, fs[0])
    ensures fs[0].Close? || |fs| == 1 || (|fs| == 2 && fs[1].Close?)
  {
    LangPrefix(decode, fs, 0);
    assert fs[..0] == [];
    if |fs| > 1 {
      assert fs[..1] == [] + [fs[0]];
      LangSnoc(decode, [], fs[0]);
      LangPrefix(decode, fs, 1);
    }
  }

  ghost predicate Compatible(cfg: Config, s: State) {
    && ClientTraffic(cfg, s.c2s.frames)
    && s.server.rx.w.warnings == 0 && s.client.writer.w.alarms == 0
    && (RDone(s.server.rx.w) && s.server.rx.w.pc.result.Some? ==>
          var reason := s.server.rx.w.pc.result.value.reason; reason != BadOoBMessage && reason != BadMessageType)
    && (s.client.sup.pc == CliReturned(HandshakeFailed) ==>
          s.s2c.seen == 0 ||
          (s.s2c.seen == 1 <= |s.s2c.frames| && (s.s2c.frames[0].Close? || IsStartErr(cfg.decode, s.s2c.frames[0]))))
  }

  /** In both directions no binary message is longer than the 64 KiB read limit of its receiver. */
  lemma WithinReadLimit(cfg: Config, s: State, k: nat)
    requires cfg.Faithful() && Reachable(cfg, s)
    ensures k < |s.s2c.frames| && s.s2c.frames[k].Binary? ==> |s.s2c.frames[k].data| <= 65536
    ensures k < |s.c2s.frames| && s.c2s.frames[k].Binary? ==> |s.c2s.frames[k].data| <= 65536
  {
    ReachableInv(cfg, s);
  }

  lemma InvCompatible(cfg: Config, s: State)
    requires StdinInv(cfg, s) && VerdictInv(cfg, s.s2c, s.server.sup.waited, s.client)
    requires HandshakeInv(cfg.decode, s.s2c, s.client)
    ensures Compatible(cfg, s)
  {
  }

  /** Neither end ever meets a message it does not expect from the other. */
  lemma PeerCompatibility(cfg: Config, s: State)
    requires cfg.Faithful() && Reachable(cfg, s)
    ensures Compatible(cfg, s)
  {
    ReachableInv(cfg, s);
    InvCompatible(cfg, s);
  }

  /** Exit soundness across both machines: 1000 is on the wire only if Wait returned nil; the code the client returns
      after a handshake is 0 exactly when it heard its stdout worker first and that worker had read a normal close, and
      1 otherwise; so 0 means that the remote process was waited for and succeeded. */
  lemma ExitSoundness(cfg: Config, s: State)
    requires cfg.Faithful() && Reachable(cfg, s)
    ensures NormallyClosed(s.s2c.frames) ==> s.server.sup.waited == Some(WaitOk)
    ensures s.client.sup.pc.CliReturned? && s.client.sup.pc.result.ExitWith? ==>
      var code := s.client.sup.pc.result.code;
      && code == (if s.client.sup.first.HeardWriter? && ReadNormalClose(s.s2c) then 0 else 1)
      && (code == 0 ==> s.server.sup.waited == Some(WaitOk))
  {
    ReachableInv(cfg, s);
  }

  // ---------- joins and the fault ----------

  ghost predicate Finished(s: Supervisor) {
    s.pc.Unwinding? || s.pc.Closing? || s.pc.Stopping? || s.pc.Returned?
  }

  ghost predicate JoinedOnce(v: Server) {
    && (v.rx.w.pc.RPosting? ==> v.rx.chan == [])
    && (v.out.w.pc.OPosting? ==> v.out.chan == [])
    && (v.err.w.pc.EPosting? ==> v.err.posts == 0)
    && (Finished(v.sup) && v.sup.launched && !v.sup.fault ==>
          && v.sup.taken == Taken(1, 1, 1) && v.rx.chan == [] && v.out.chan == [] && v.err.posts == 0
          && RDone(v.rx.w) && ODone(v.out.w) && EDone(v.err.w)
          && v.sup.waited.Some? && v.sup.exits == 1)
    && (Finished(v.sup) && !v.sup.launched ==> v.sup.taken == Taken(0, 0, 0) && v.sup.exits == 0)
  }

  lemma ServerInvJoins(v: Server)
    requires ServerInv(v)
    ensures JoinedOnce(v)
  {
  }

  /** Exactly-once joins: no post ever finds its channel full, and once the supervisor leaves without a fault after
      starting the workers it has received one result from each, Wait has returned and the exit was reported
      once. */
  lemma JoinExactlyOnce(cfg: Config, s: State)
    requires cfg.Faithful() && Reachable(cfg, s)
    ensures JoinedOnce(s.server)
  {
    ReachableInv(cfg, s);
    ServerInvJoins(s.server);
  }

  /** The only nil dereference, in terms of the wire: the server function faults exactly in the sessions in which the
      receiver finished first and the last client frame it read is a close. It then unwinds without an instruction to
      close and without reporting the exit. */
  lemma FaultExactly(cfg: Config, s: State)
    requires cfg.Faithful() && Reachable(cfg, s)
    ensures s.server.sup.fault <==> s.server.sup.first.ReceiverFirst? && LastReadClose(s.c2s)
    ensures s.server.sup.fault ==>
      && Finished(s.server.sup) && s.server.sup.desired.None?
      && s.server.sup.exits == 0 && s.server.sup.waited.None?
  {
    ReachableInv(cfg, s);
    FaultMeansNil(s.server);
  }

  /** The receiver finished first: the supervisor faulted exactly if its result is nil. */
  lemma FaultMeansNil(v: Server)
    requires ServerInv(v)
    ensures v.sup.fault ==> v.sup.first.ReceiverFirst? && RDone(v.rx.w) && v.rx.w.pc.result.None?
    ensures v.sup.first.ReceiverFirst? && !v.sup.fault ==> RDone(v.rx.w) && v.rx.w.pc.result.Some?
  {
  }

  /** The worker whose result came first, as the server function sees it. */
  ghost predicate FirstResult(v: Server, result: Instruction) {
    if v.sup.first.ReceiverFirst? then RDone(v.rx.w) && v.rx.w.pc.result == result
    else v.sup.first.SenderFirst? && ODone(v.out.w) && v.out.w.pc.result == result
  }

  /** What the close instruction is: the first result received, in every state up to the exit report, and after it
      unless it was a normal close and Wait had failed; then it is 1011. */
  lemma InstructionExactly(cfg: Config, s: State, result: Instruction)
    requires cfg.Faithful() && Reachable(cfg, s) && !s.server.sup.fault && FirstResult(s.server, result)
    ensures s.server.sup.desired ==
      if Finished(s.server.sup) && s.server.sup.waited != Some(WaitOk) && result.Some? && result.value.code == 1000
      then Some(CloseError(1011, ProcessNotGraceful)) else result
  {
    ReachableInv(cfg, s);
    InstructionFollows(s.server, result);
  }

  lemma InstructionFollows(v: Server, result: Instruction)
    requires ServerInv(v) && !v.sup.fault && FirstResult(v, result)
    ensures v.sup.desired ==
      if Finished(v.sup) && v.sup.waited != Some(WaitOk) && result.Some? && result.value.code == 1000
      then Some(CloseError(1011, ProcessNotGraceful)) else result
  {
  }

  ghost predicate NilFromReceiver(s: State, ev: Event) {
    s.server.sup.pc.Selecting? && ev == SupEv(STakeReceiver(None))
  }

  /** The step that faults. */
  lemma FaultStep(cfg: Config, s: State, ev: Event)
    requires ServerInv(s.server) && Enabled(s, ev)
    ensures Step(cfg, s, ev).server.sup.fault <==> s.server.sup.fault || NilFromReceiver(s, ev)
  {
    if ev.SupEv? {
      FaultSupStep(s.server.sup, ev.s);
    }
  }

  lemma FaultSupStep(s: Supervisor, i: SupInput)
    requires SupInv(s) && SCan(s, i)
    ensures SStep(s, i).fault <==> s.fault || (s.pc.Selecting? && i == STakeReceiver(None))
  {
  }

  ghost predicate Cleaned(s: State) {
    s.server.sup.pc.Returned? ==>
      && s.server.sup.cancelled == Contexts(true, true, true, true)
      && (s.server.sup.launched ==> Enabled(s, StdoutHelper) && Enabled(s, StderrHelper))
  }

  lemma ReturnedCleans(s: State)
    requires ServerInv(s.server)
    ensures Cleaned(s)
  {
  }

  /** On every path, faulting or not, a returned server function has cancelled all four contexts, so that both
      pipe-closing helpers can run. */
  lemma ReturnCleans(cfg: Config, s: State)
    requires cfg.Faithful() && Reachable(cfg, s)
    ensures Cleaned(s)
  {
    ReachableInv(cfg, s);
    ReturnedCleans(s);
  }
}
