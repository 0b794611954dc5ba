/** Process stdout to client stdout: what was read from the process, what is on the wire, what was written. */
module SessionStdout {
  import opened ClientWorkers
  import opened JsonRpc
  import Lines
  import opened Lists
  import Oob
  import opened ServerWorkers
  import opened Session
  import opened SessionControl
  import opened SessionStdin
  import opened Supervisors
  import opened Wire

  // ---------- the sending side ----------

  /** What the worker read is on the wire, up to the chunk being sent or the one whose failed send lost it. */
  ghost predicate OutFlowInv(fs: seq<Frame>, w: StdoutSender) {
    match w.pc
    case OReading => Bytes(fs) == w.read == Flatten(w.fed) && w.dropped == []
    case OSending(chunk, _) =>
      && Bytes(fs) + chunk == Flatten(w.fed) + chunk == w.read && w.dropped == []
      && 0 < |chunk| <= BINARY_FRAME_MAX_SIZE
    case OPosting(result) => OutEndInv(fs, w, result)
    case OPosted(result) => OutEndInv(fs, w, result)
    case OClosed(result) => OutEndInv(fs, w, result)
  }

  /** Whether the worker ended because of a failed send. */
  ghost predicate SendFailed(result: Instruction) {
    result.None? || result.value.reason == WebSocketWriteFailed
  }

  ghost predicate OutEndInv(fs: seq<Frame>, w: StdoutSender, result: Instruction) {
    && Bytes(fs) + w.dropped == w.read
    && |w.dropped| <= BINARY_FRAME_MAX_SIZE
    && (w.dropped != [] ==> SendFailed(result))
  }

  lemma OutFlowStep(parse: ResponseParser, link: Link, w: StdoutSender, i: OutInput)
    requires OutFlowInv(link.frames, w) && OCan(w, i)
    ensures OutFlowInv(OutLink(link, w, i).frames, OStep(parse, w, i))
  {
    match i
    case OWrote(o) => WroteKeepsFlow(parse, link, w, o);
    case ORead(data, err) => ReadKeepsFlow(parse, link.frames, w, data, err);
    case _ =>
  }

  lemma ReadKeepsFlow(parse: ResponseParser, fs: seq<Frame>, w: StdoutSender, data: seq<byte>, err: ReadError)
    requires OutFlowInv(fs, w) && OCan(w, ORead(data, err))
    ensures OutFlowInv(fs, OStep(parse, w, ORead(data, err)))
  {
    assert Bytes(fs) + [] == Bytes(fs);
  }

  lemma WroteKeepsFlow(parse: ResponseParser, link: Link, w: StdoutSender, o: SendOutcome)
    requires OutFlowInv(link.frames, w) && OCan(w, OWrote(o))
    ensures OutFlowInv(OutLink(link, w, OWrote(o)).frames, OStep(parse, w, OWrote(o)))
  {
    if !o.Lost? {
      BytesSnoc(link.frames, Binary(w.pc.chunk));
      FlattenSnoc(w.fed, w.pc.chunk);
      assert w.read + [] == w.read;
    }
  }

  // ---------- the receiving side ----------

  ghost predicate WriterFlowInv(link: Link, c: Client) {
    && link.seen <= |link.frames|
    && (c.sup.pc.Handshaking? ==> link.seen == 0)
    && (!c.sup.launched ==> c.writer.w == NewStdoutWriter)
    && (c.sup.launched ==>
          var got := Bytes(link.frames[..link.seen]);
          match c.writer.w.pc
          case WReading => c.writer.w.out == got
          case WWriting(msg, k) => k <= |msg| && c.writer.w.out + msg[k..] == got
          case _ => c.writer.w.out <= got)
  }

  lemma WriterFlowStep(decode: Decoder, link: Link, c: Client, i: WriterInput)
    requires WriterFlowInv(link, c) && c.sup.launched && WCan(c.writer.w, i) && (i.WGot? ==> link.Offers(i.frame))
    requires !c.sup.pc.Handshaking?
    ensures WriterFlowInv(if i.WGot? then link.Read() else link, c.(writer := WriteEnd(decode, c.writer, i)))
  {
    var w := c.writer.w;
    match i
    case WGot(f) =>
      BytesTake(link.frames, link.seen);
    case WAccepted(n) =>
      var msg, k := w.pc.msg, w.pc.accepted;
      assert msg[k..] == msg[k..k + n] + msg[k + n..];
      AppendAssociates(w.out, msg[k..k + n], msg[k + n..]);
    case WWriteDone =>
      assert w.out + w.pc.msg[w.pc.accepted..] == w.out;
    case _ =>
  }

  lemma HandshakeFlowStep(decode: Decoder, link: Link, c: Client, i: CliInput)
    requires WriterFlowInv(link, c) && ClientInv(c) && CCan(c.sup, i) && (i.CGot? ==> link.Offers(i.frame))
    ensures WriterFlowInv(if i.CGot? then link.Read() else link, CliClient(decode, c, i))
  {
    if i.CGot? {
      BytesTake(link.frames, 0);
      assert link.frames[..0] == [];
    }
  }

  lemma GrowthKeepsWriter(link: Link, c: Client, f: Frame)
    requires WriterFlowInv(link, c)
    ensures WriterFlowInv(link.(frames := link.frames + [f]), c)
  {
    if link.seen <= |link.frames| {
      assert (link.frames + [f])[..link.seen] == link.frames[..link.seen];
    }
  }

  // ---------- sizes ----------

  /** No binary message exceeds what the peer is ready to read. */
  ghost predicate FramesFit(fs: seq<Frame>) {
    forall k :: 0 <= k < |fs| && fs[k].Binary? ==> |fs[k].data| <= BINARY_FRAME_MAX_SIZE
  }

  lemma FitStepKeepsInv(cfg: Config, s: State, ev: Event)
    requires FramesFit(s.s2c.frames) && OutFlowInv(s.s2c.frames, s.server.out.w) && Enabled(s, ev)
    ensures FramesFit(Step(cfg, s, ev).s2c.frames)
  {
  }

  // ---------- the whole direction ----------

  /** Nothing was read that the process did not write; after a clean Wait everything was read. */
  ghost predicate ProcessInv(s: State) {
    && s.server.out.w.read <= s.process.stdout
    && s.server.err.w.Read() <= s.process.stderr
    && (s.process.exit.Some? ==> !s.process.running)
    && (s.server.sup.pc.Starting? ==> s.process.exit.None? && !s.process.running)
    && (s.server.sup.waited.Some? ==> s.process.exit.Some?)
    && (s.server.sup.waited == Some(WaitOk) ==>
          s.server.out.w.read == s.process.stdout && s.server.err.w.Read() == s.process.stderr)
  }

  ghost predicate StdoutInv(s: State) {
    && OutFlowInv(s.s2c.frames, s.server.out.w)
    && WriterFlowInv(s.s2c, s.client)
  }

  /** A frame that carries no bytes of the process may be appended at any time. */
  lemma QuietFrame(s: State, f: Frame)
    requires StdoutInv(s) && !f.Binary?
    ensures StdoutInv(s.(s2c := s.s2c.(frames := s.s2c.frames + [f])))
  {
    BytesSnoc(s.s2c.frames, f);
    GrowthKeepsWriter(s.s2c, s.client, f);
  }

  lemma OutEventKeepsStdout(cfg: Config, s: State, i: OutInput)
    requires StdoutInv(s) && OutEnabled(s, i)
    ensures StdoutInv(OutApply(cfg, s, i))
  {
    OutFlowStep(cfg.parse, s.s2c, s.server.out.w, i);
    if i.OWrote? {
      GrowthKeepsWriter(s.s2c, s.client, Binary(s.server.out.w.pc.chunk));
    }
  }

  lemma QuietEventKeepsStdout(cfg: Config, s: State, ev: Event)
    requires StdoutInv(s) && Enabled(s, ev) && (ev.SupEv? || ev.RxEv? || ev.ErrEv?)
    ensures StdoutInv(Step(cfg, s, ev))
  {
    match ev
    case SupEv(i) => QuietFrame(s, SFrame(cfg.encode, s.server.sup));
    case RxEv(i) =>
      if i.RGot? && i.frame.Close? {
        QuietFrame(s, Close(CloseError(i.frame.close.code, LibraryClose)));
      }
    case ErrEv(i) =>
      if i.ESent? {
        QuietFrame(s, Text(cfg.encode(Oob.ProcessStderr(cfg.text(s.server.err.w.pc.line)))));
      }
  }

  lemma ClientEventKeepsStdout(cfg: Config, s: State, ev: Event)
    requires StdoutInv(s) && ClientInv(s.client) && Enabled(s, ev) && (ev.CliEv? || ev.WriterEv? || ev.InEv?)
    ensures StdoutInv(Step(cfg, s, ev))
  {
    match ev
    case CliEv(i) => HandshakeFlowStep(cfg.decode, s.s2c, s.client, i);
    case WriterEv(i) => WriterFlowStep(cfg.decode, s.s2c, s.client, i);
    case InEv(_) =>
  }

  lemma StdoutStepKeepsInv(cfg: Config, s: State, ev: Event)
    requires StdoutInv(s) && ClientInv(s.client) && Enabled(s, ev)
    ensures StdoutInv(Step(cfg, s, ev))
  {
    match ev
    case SupEv(i) => QuietEventKeepsStdout(cfg, s, ev);
    case RxEv(i) => QuietEventKeepsStdout(cfg, s, ev);
    case OutEv(i) => OutEventKeepsStdout(cfg, s, i);
    case ErrEv(i) => QuietEventKeepsStdout(cfg, s, ev);
    case CliEv(_) => ClientEventKeepsStdout(cfg, s, ev);
    case WriterEv(_) => ClientEventKeepsStdout(cfg, s, ev);
    case InEv(_) => ClientEventKeepsStdout(cfg, s, ev);
    case _ =>
  }

  lemma SupEventKeepsProcess(cfg: Config, s: State, i: SupInput)
    requires ProcessInv(s) && ServerInv(s.server) && SupEnabled(s, i)
    ensures ProcessInv(SupApply(cfg, s, i))
  {
    SupWaits(s.server.sup, i);
  }

  lemma SupWaits(s: Supervisor, i: SupInput)
    requires SupInv(s) && SCan(s, i)
    ensures SStep(s, i).waited == if i.SWaited? then Some(i.w) else s.waited
    ensures i.SWaited? ==> s.waited.None?
    ensures !SStep(s, i).pc.Starting?
    ensures i.SStarted? ==> s.pc.Starting?
  {
  }

  lemma OutEventKeepsProcess(cfg: Config, s: State, i: OutInput)
    requires ProcessInv(s) && OutEnabled(s, i)
    ensures ProcessInv(OutApply(cfg, s, i))
  {
    OutReads(cfg.parse, s.server.out.w, i);
  }

  lemma OutReads(parse: ResponseParser, w: StdoutSender, i: OutInput)
    requires OCan(w, i)
    ensures OStep(parse, w, i).read == if i.ORead? then w.read + i.data else w.read
  {
    if i.ORead? && i.data == [] {
      assert w.read + i.data == w.read;
    }
  }

  lemma ErrEventKeepsProcess(cfg: Config, s: State, i: ErrInput)
    requires ProcessInv(s) && ErrEnabled(s, i)
    ensures ProcessInv(ErrApply(cfg, s, i))
  {
    ErrReads(s.server.err.w, i);
  }

  lemma ProcessStepKeepsInv(cfg: Config, s: State, ev: Event)
    requires ProcessInv(s) && ServerInv(s.server) && Enabled(s, ev)
    ensures ProcessInv(Step(cfg, s, ev))
  {
    match ev
    case SupEv(i) => SupEventKeepsProcess(cfg, s, i);
    case OutEv(i) => OutEventKeepsProcess(cfg, s, i);
    case ErrEv(i) => ErrEventKeepsProcess(cfg, s, i);
    case _ =>
  }

  lemma ErrReads(e: StderrSender, i: ErrInput)
    requires ECan(e, i)
    ensures EStep(e, i).Read() == if i.EFill? then e.Read() + i.data else e.Read()
  {
    if i.ELine? {
      var k := Lines.IndexOf(e.buffered, NEWLINE);
      assert e.buffered == e.buffered[..k + 1] + e.buffered[k + 1..];
      AppendAssociates(e.split, e.buffered[..k + 1], e.buffered[k + 1..]);
    } else if i.EFill? {
      AppendAssociates(e.split, e.buffered, i.data);
    } else if i.EReadFailed? {
      assert e.Read() + [] == e.Read();
    }
  }

  /** In every state the client has written a prefix of what the worker read, itself a prefix of what the process
      wrote; what was read but is not on the wire is one chunk at most. After Wait returned nil, everything the
      process wrote is on the wire except one chunk at most. */
  lemma StdoutTheorem(s: State)
    requires StdoutInv(s) && ProcessInv(s)
    ensures s.client.writer.w.out <= s.server.out.w.read <= s.process.stdout
    ensures Bytes(s.s2c.frames) <= s.server.out.w.read
    ensures |s.server.out.w.read| - |Bytes(s.s2c.frames)| <= BINARY_FRAME_MAX_SIZE
    ensures ODone(s.server.out.w) ==> OutEndInv(s.s2c.frames, s.server.out.w, s.server.out.w.pc.result)
    ensures s.server.sup.waited == Some(WaitOk) ==>
      |s.process.stdout| - |Bytes(s.s2c.frames)| <= BINARY_FRAME_MAX_SIZE
  {
    BytesPrefix(s.s2c.frames, s.s2c.seen);
  }
}
