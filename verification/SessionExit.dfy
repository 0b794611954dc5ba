/** What the client concludes: exit codes, protocol alarms and the remote stderr it shows. */
module SessionExit {
  import opened ClientWorkers
  import opened Lists
  import opened Oob
  import opened ServerWorkers
  import opened Session
  import opened SessionControl
  import opened SessionLanguage
  import opened SessionReceiver
  import opened SessionStdin
  import SessionStdout
  import opened Supervisors
  import opened Wire

  // ---------- close codes and exit reports on the wire ----------

  ghost predicate NormallyClosed(fs: seq<Frame>) {
    Closed(fs) && fs[|fs| - 1].close.code == STATUS_NORMAL_CLOSURE
  }

  /** A frame reports the end of the process only as Wait found it. */
  ghost predicate ReportOf(cfg: Config, waited: Option<WaitResult>, f: Frame) {
    f.Text? && cfg.decode(f.text).Some? && cfg.decode(f.text).value.ServerExited? ==>
      waited.Some? && cfg.decode(f.text).value == ExitPayload(waited.value)
  }

  ghost predicate WireInv(cfg: Config, c2s: seq<Frame>, s2c: seq<Frame>, waited: Option<WaitResult>) {
    && (NormallyClosed(s2c) ==> waited == Some(WaitOk))
    && (NormallyClosed(c2s) ==> Closed(s2c))
    && forall k :: 0 <= k < |s2c| ==> ReportOf(cfg, waited, s2c[k])
  }

  lemma AppendKeepsWire(cfg: Config, c2s: seq<Frame>, s2c: seq<Frame>, waited: Option<WaitResult>, f: Frame)
    requires WireInv(cfg, c2s, s2c, waited) && !Closed(s2c) && ReportOf(cfg, waited, f)
    requires f.Close? && f.close.code == STATUS_NORMAL_CLOSURE ==> waited == Some(WaitOk)
    ensures WireInv(cfg, c2s, s2c + [f], waited)
  {
    var fs := s2c + [f];
    assert forall k :: 0 <= k < |s2c| ==> fs[k] == s2c[k];
  }

  /** Wait returns once, so its verdict never changes once a report may refer to it. */
  lemma WaitKeepsWire(cfg: Config, c2s: seq<Frame>, s2c: seq<Frame>, w: WaitResult)
    requires WireInv(cfg, c2s, s2c, None)
    ensures WireInv(cfg, c2s, s2c, Some(w))
  {
  }

  lemma SupSendKeepsWire(cfg: Config, c2s: seq<Frame>, link: Link, s: Supervisor, o: SendOutcome)
    requires cfg.Faithful() && WireInv(cfg, c2s, link.frames, s.waited) && SupInv(s) && SCan(s, SSent(o))
    requires CanPut(link.frames, o)
    ensures WireInv(cfg, c2s, link.Send(SFrame(cfg.encode, s), o).frames, s.waited)
  {
    assert cfg.decode(cfg.encode(SMessage(s))) == Some(SMessage(s));
    if !o.Lost? {
      AppendKeepsWire(cfg, c2s, link.frames, s.waited, SFrame(cfg.encode, s));
    }
  }

  lemma SupEventKeepsWire(cfg: Config, c2s: seq<Frame>, link: Link, s: Supervisor, i: SupInput)
    requires cfg.Faithful() && WireInv(cfg, c2s, link.frames, s.waited) && SupInv(s) && SCan(s, i)
    requires i.SSent? ==> CanPut(link.frames, i.o)
    ensures WireInv(cfg, c2s, SupLink(cfg, link, s, i).frames, SStep(s, i).waited)
  {
    SessionStdout.SupWaits(s, i);
    if i.SSent? {
      SupSendKeepsWire(cfg, c2s, link, s, i.o);
    } else if i.SWaited? {
      WaitKeepsWire(cfg, c2s, link.frames, i.w);
    }
  }

  lemma OutEventKeepsWire(cfg: Config, c2s: seq<Frame>, link: Link, waited: Option<WaitResult>, w: StdoutSender,
                          i: OutInput)
    requires WireInv(cfg, c2s, link.frames, waited) && (i.OWrote? ==> CanPut(link.frames, i.o))
    ensures WireInv(cfg, c2s, OutLink(link, w, i).frames, waited)
  {
    if i.OWrote? && w.pc.OSending? && !i.o.Lost? {
      AppendKeepsWire(cfg, c2s, link.frames, waited, Binary(w.pc.chunk));
    }
  }

  lemma ErrEventKeepsWire(cfg: Config, c2s: seq<Frame>, link: Link, waited: Option<WaitResult>, w: StderrSender,
                          i: ErrInput)
    requires cfg.Faithful() && WireInv(cfg, c2s, link.frames, waited) && (i.ESent? ==> CanPut(link.frames, i.o))
    ensures WireInv(cfg, c2s, ErrLink(cfg, link, w, i).frames, waited)
  {
    if i.ESent? && w.pc.ESending? && !i.o.Lost? {
      var p := ProcessStderr(cfg.text(w.pc.line));
      assert cfg.decode(cfg.encode(p)) == Some(p);
      AppendKeepsWire(cfg, c2s, link.frames, waited, Text(cfg.encode(p)));
    }
  }

  lemma EchoKeepsWire(cfg: Config, c2s: Link, s2c: Link, waited: Option<WaitResult>, f: Frame)
    requires WireInv(cfg, c2s.frames, s2c.frames, waited) && ClientTraffic(cfg, c2s.frames) && c2s.Offers(f)
    ensures WireInv(cfg, c2s.frames, Echo(s2c, f).frames, waited)
  {
    if f.Close? && !Closed(s2c.frames) {
      AppendKeepsWire(cfg, c2s.frames, s2c.frames, waited, Close(CloseError(f.close.code, LibraryClose)));
    }
  }

  lemma ClientSendKeepsWire(cfg: Config, link: Link, s2c: seq<Frame>, waited: Option<WaitResult>, w: StdinSender,
                            i: InInput)
    requires WireInv(cfg, link.frames, s2c, waited)
    requires i.ISent? || i.IShutdownSent? ==> CanPut(link.frames, i.o)
    ensures WireInv(cfg, InLink(cfg, link, w, i).frames, s2c, waited)
  {
  }

  lemma WireStepKeepsInv(cfg: Config, s: State, ev: Event)
    requires cfg.Faithful() && Enabled(s, ev) && ServerInv(s.server) && ClientTraffic(cfg, s.c2s.frames)
    requires LangInv(cfg, s.s2c.frames, s.server.sup) && s.s2c.seen <= |s.s2c.frames|
    requires WireInv(cfg, s.c2s.frames, s.s2c.frames, s.server.sup.waited)
    ensures var t := Step(cfg, s, ev); WireInv(cfg, t.c2s.frames, t.s2c.frames, t.server.sup.waited)
  {
    match ev
    case SupEv(i) => SupEventKeepsWire(cfg, s.c2s.frames, s.s2c, s.server.sup, i);
    case OutEv(i) => OutEventKeepsWire(cfg, s.c2s.frames, s.s2c, s.server.sup.waited, s.server.out.w, i);
    case ErrEv(i) => ErrEventKeepsWire(cfg, s.c2s.frames, s.s2c, s.server.sup.waited, s.server.err.w, i);
    case RxEv(i) =>
      if i.RGot? {
        EchoKeepsWire(cfg, s.c2s, s.s2c, s.server.sup.waited, i.frame);
      }
    case InEv(i) => ClientSendKeepsWire(cfg, s.c2s, s.s2c.frames, s.server.sup.waited, s.client.stdin.w, i);
    case ClientLibraryClose(code) => LibraryCloseKeepsWire(cfg, s, code);
    case _ =>
  }

  /** The client's library sends 1000 only to echo a close, which is the last frame of the server. */
  lemma LibraryCloseKeepsWire(cfg: Config, s: State, code: int)
    requires LibraryCloseAllowed(s, code) && LangInv(cfg, s.s2c.frames, s.server.sup)
    requires WireInv(cfg, s.c2s.frames, s.s2c.frames, s.server.sup.waited)
    ensures WireInv(cfg, s.c2s.frames + [Close(CloseError(code, LibraryClose))], s.s2c.frames, s.server.sup.waited)
  {
    if code == STATUS_NORMAL_CLOSURE {
      LangPrefix(cfg.decode, s.s2c.frames, s.s2c.seen - 1);
    }
  }

  // ---------- the client's exit code and alarms ----------

  /** The last frame read is a normal close. */
  ghost predicate ReadNormalClose(link: Link) {
    LastReadClose(link) && link.frames[link.seen - 1].close.code == 1000
  }

  /** The client has seen start_ok first, raised no alarm, and holds a nonzero code only for a failed Wait; its writer
      goes on until it reads a close, and ends with 0 exactly on a normal one. */
  ghost predicate VerdictInv(cfg: Config, link: Link, waited: Option<WaitResult>, c: Client) {
    && link.seen <= |link.frames|
    && (c.sup.pc.Handshaking? ==> link.seen == 0)
    && (!c.sup.launched ==> c.writer.w == NewStdoutWriter)
    && (c.sup.launched ==> 0 < link.seen && IsStartOK(cfg.decode, link.frames[0]))
    && c.writer.w.alarms == 0
    && (c.writer.w.exitCode != 0 ==> waited.Some? && waited.value != WaitOk)
    && (c.sup.launched && (c.writer.w.pc.WReading? || c.writer.w.pc.WWriting?) ==> !LastReadClose(link))
    && (c.writer.w.pc.WPosting? || c.writer.w.pc.WPosted? ==>
          && c.writer.w.pc.code == (if ReadNormalClose(link) then 0 else 1)
          && (c.writer.w.pc.code == 0 ==> waited == Some(WaitOk)))
  }

  lemma GotKeepsVerdict(cfg: Config, c2s: seq<Frame>, link: Link, s: Supervisor, c: Client, f: Frame)
    requires VerdictInv(cfg, link, s.waited, c) && WireInv(cfg, c2s, link.frames, s.waited)
    requires LangInv(cfg, link.frames, s) && c.sup.launched && !c.sup.pc.Handshaking?
    requires c.writer.w.pc.WReading? && link.Offers(f)
    ensures VerdictInv(cfg, link.Read(), s.waited, c.(writer := WriteEnd(cfg.decode, c.writer, WGot(f))))
  {
    AfterStartOK(cfg.decode, link.frames, link.seen);
    LangPrefix(cfg.decode, link.frames, link.seen);
    assert ReportOf(cfg, s.waited, link.frames[link.seen]);
  }

  lemma WriterEventKeepsVerdict(cfg: Config, c2s: seq<Frame>, link: Link, s: Supervisor, c: Client, i: WriterInput)
    requires VerdictInv(cfg, link, s.waited, c) && WireInv(cfg, c2s, link.frames, s.waited)
    requires LangInv(cfg, link.frames, s) && c.sup.launched && ClientInv(c)
    requires WCan(c.writer.w, i) && (i.WGot? ==> link.Offers(i.frame))
    ensures VerdictInv(cfg, if i.WGot? then link.Read() else link, s.waited,
                       c.(writer := WriteEnd(cfg.decode, c.writer, i)))
  {
    if i.WGot? {
      GotKeepsVerdict(cfg, c2s, link, s, c, i.frame);
    }
  }

  lemma CliEventKeepsVerdict(cfg: Config, link: Link, waited: Option<WaitResult>, c: Client, i: CliInput)
    requires VerdictInv(cfg, link, waited, c) && ClientInv(c) && CCan(c.sup, i) && (i.CGot? ==> link.Offers(i.frame))
    ensures VerdictInv(cfg, if i.CGot? then link.Read() else link, waited, CliClient(cfg.decode, c, i))
  {
  }

  lemma VerdictFrame(cfg: Config, link: Link, link': Link, waited: Option<WaitResult>, waited': Option<WaitResult>,
                     c: Client, c': Client)
    requires VerdictInv(cfg, link, waited, c)
    requires link'.seen == link.seen && link.frames <= link'.frames
    requires waited' == waited || waited.None?
    requires c'.sup == c.sup && c'.writer == c.writer
    ensures VerdictInv(cfg, link', waited', c')
  {
  }

  lemma OtherEventKeepsVerdict(cfg: Config, s: State, ev: Event)
    requires Enabled(s, ev) && ServerInv(s.server) && !ev.WriterEv? && !ev.CliEv?
    requires VerdictInv(cfg, s.s2c, s.server.sup.waited, s.client)
    ensures var t := Step(cfg, s, ev); VerdictInv(cfg, t.s2c, t.server.sup.waited, t.client)
  {
    var t := Step(cfg, s, ev);
    OtherStepsGrow(cfg, s, ev);
    VerdictFrame(cfg, s.s2c, t.s2c, s.server.sup.waited, t.server.sup.waited, s.client, t.client);
  }

  lemma WriterApplyKeepsVerdict(cfg: Config, s: State, i: WriterInput)
    requires WriterEnabled(s, i) && ClientInv(s.client)
    requires LangInv(cfg, s.s2c.frames, s.server.sup)
    requires WireInv(cfg, s.c2s.frames, s.s2c.frames, s.server.sup.waited)
    requires VerdictInv(cfg, s.s2c, s.server.sup.waited, s.client)
    ensures var t := WriterApply(cfg, s, i); VerdictInv(cfg, t.s2c, t.server.sup.waited, t.client)
  {
    WriterEventKeepsVerdict(cfg, s.c2s.frames, s.s2c, s.server.sup, s.client, i);
  }

  lemma CliApplyKeepsVerdict(cfg: Config, s: State, i: CliInput)
    requires CliEnabled(s, i) && ClientInv(s.client)
    requires VerdictInv(cfg, s.s2c, s.server.sup.waited, s.client)
    ensures var t := CliApply(cfg, s, i); VerdictInv(cfg, t.s2c, t.server.sup.waited, t.client)
  {
    CliEventKeepsVerdict(cfg, s.s2c, s.server.sup.waited, s.client, i);
  }

  lemma VerdictStepKeepsInv(cfg: Config, s: State, ev: Event)
    requires cfg.Faithful() && Enabled(s, ev) && ServerInv(s.server) && ClientInv(s.client)
    requires LangInv(cfg, s.s2c.frames, s.server.sup)
    requires WireInv(cfg, s.c2s.frames, s.s2c.frames, s.server.sup.waited)
    requires VerdictInv(cfg, s.s2c, s.server.sup.waited, s.client)
    ensures var t := Step(cfg, s, ev); VerdictInv(cfg, t.s2c, t.server.sup.waited, t.client)
  {
    if ev.WriterEv? {
      WriterApplyKeepsVerdict(cfg, s, ev.w);
    } else if ev.CliEv? {
      CliApplyKeepsVerdict(cfg, s, ev.c);
    } else {
      OtherEventKeepsVerdict(cfg, s, ev);
    }
  }

  lemma OtherStepsGrow(cfg: Config, s: State, ev: Event)
    requires Enabled(s, ev) && ServerInv(s.server) && !ev.WriterEv? && !ev.CliEv?
    ensures var t := Step(cfg, s, ev);
      && t.s2c.seen == s.s2c.seen && s.s2c.frames <= t.s2c.frames
      && (t.server.sup.waited == s.server.sup.waited || s.server.sup.waited.None?)
      && t.client.sup == s.client.sup && t.client.writer == s.client.writer
  {
    if ev.SupEv? {
      SessionStdout.SupWaits(s.server.sup, ev.s);
    }
  }

  // ---------- a refused handshake ----------

  ghost predicate IsStartErr(decode: Decoder, f: Frame) {
    f.Text? && decode(f.text).Some? && decode(f.text).value.StartErr?
  }

  /** The client gives up the handshake only without having read anything, or on start_err or a close. */
  ghost predicate HandshakeInv(decode: Decoder, link: Link, c: Client) {
    && link.seen <= |link.frames|
    && (c.sup.pc.Handshaking? ==> link.seen == 0)
    && (c.sup.pc == CliReturned(HandshakeFailed) ==>
          link.seen == 0 || (link.seen == 1 && (link.frames[0].Close? || IsStartErr(decode, link.frames[0]))))
  }

  lemma FirstFrame(decode: Decoder, fs: seq<Frame>)
    requires LangOf(decode, fs) != Bad && fs != []
    ensures fs[0].Close? || IsStartErr(decode, fs[0]) || IsStartOK(decode, fs[0])
  {
    LangPrefix(decode, fs, 0);
    assert fs[..0] == [];
  }

  lemma CliEventKeepsHandshake(cfg: Config, link: Link, s: Supervisor, c: Client, i: CliInput)
    requires HandshakeInv(cfg.decode, link, c) && LangInv(cfg, link.frames, s) && ClientInv(c)
    requires CCan(c.sup, i) && (i.CGot? ==> link.Offers(i.frame))
    ensures HandshakeInv(cfg.decode, if i.CGot? then link.Read() else link, CliClient(cfg.decode, c, i))
  {
    if i.CGot? {
      FirstFrame(cfg.decode, link.frames);
    }
  }

  lemma GrowthKeepsHandshake(decode: Decoder, link: Link, link': Link, c: Client, c': Client)
    requires HandshakeInv(decode, link, c)
    requires link'.seen == link.seen && link.frames <= link'.frames && c'.sup == c.sup
    ensures HandshakeInv(decode, link', c')
  {
  }

  lemma WriterEventKeepsHandshake(decode: Decoder, link: Link, c: Client, i: WriterInput)
    requires HandshakeInv(decode, link, c) && ClientInv(c) && c.sup.launched && (i.WGot? ==> link.Offers(i.frame))
    ensures HandshakeInv(decode, if i.WGot? then link.Read() else link, c.(writer := WriteEnd(decode, c.writer, i)))
  {
  }

  lemma HandshakeStepKeepsInv(cfg: Config, s: State, ev: Event)
    requires Enabled(s, ev) && ServerInv(s.server) && ClientInv(s.client)
    requires LangInv(cfg, s.s2c.frames, s.server.sup) && HandshakeInv(cfg.decode, s.s2c, s.client)
    ensures var t := Step(cfg, s, ev); HandshakeInv(cfg.decode, t.s2c, t.client)
  {
    if ev.WriterEv? {
      WriterEventKeepsHandshake(cfg.decode, s.s2c, s.client, ev.w);
    } else if ev.CliEv? {
      CliEventKeepsHandshake(cfg, s.s2c, s.server.sup, s.client, ev.c);
    } else {
      OtherStepsGrow(cfg, s, ev);
      var t := Step(cfg, s, ev);
      GrowthKeepsHandshake(cfg.decode, s.s2c, t.s2c, s.client, t.client);
    }
  }

  // ---------- remote stderr ----------

  /** The stderr lines carried by a channel. */
  function StderrLines(decode: Decoder, fs: seq<Frame>): seq<string> {
    if fs == [] then []
    else
      var f := fs[|fs| - 1];
      StderrLines(decode, fs[..|fs| - 1]) +
      (if f.Text? && decode(f.text).Some? && decode(f.text).value.ProcessStderr?
       then [decode(f.text).value.line] else [])
  }

  lemma StderrLinesSnoc(decode: Decoder, fs: seq<Frame>, f: Frame)
    ensures StderrLines(decode, fs + [f]) == StderrLines(decode, fs) +
      (if f.Text? && decode(f.text).Some? && decode(f.text).value.ProcessStderr?
       then [decode(f.text).value.line] else [])
  {
    assert (fs + [f])[..|fs|] == fs;
  }

  lemma {:induction false} StderrLinesPrefix(decode: Decoder, fs: seq<Frame>, k: nat)
    requires k <= |fs|
    ensures StderrLines(decode, fs[..k]) <= StderrLines(decode, fs)
    decreases |fs| - k
  {
    if k == |fs| {
      assert fs[..k] == fs;
    } else {
      assert fs[..k + 1] == fs[..k] + [fs[k]];
      StderrLinesSnoc(decode, fs[..k], fs[k]);
      StderrLinesPrefix(decode, fs, k + 1);
    }
  }

  ghost predicate StderrInv(cfg: Config, link: Link, e: StderrSender, c: Client) {
    && EInv(e)
    && StderrLines(cfg.decode, link.frames) == Map(cfg.text, e.delivered)
    && link.seen <= |link.frames|
    && (c.sup.pc.Handshaking? ==> link.seen == 0)
    && (!c.sup.launched ==> c.writer.w == NewStdoutWriter)
    && (c.sup.launched ==> c.writer.w.lines == StderrLines(cfg.decode, link.frames[..link.seen]))
  }

  /** Frames that are not stderr lines. */
  ghost predicate Unshown(decode: Decoder, f: Frame) {
    !(f.Text? && decode(f.text).Some? && decode(f.text).value.ProcessStderr?)
  }

  lemma UnshownFrame(cfg: Config, link: Link, e: StderrSender, c: Client, f: Frame)
    requires StderrInv(cfg, link, e, c) && Unshown(cfg.decode, f)
    ensures StderrInv(cfg, link.(frames := link.frames + [f]), e, c)
  {
    StderrLinesSnoc(cfg.decode, link.frames, f);
    assert (link.frames + [f])[..link.seen] == link.frames[..link.seen];
  }

  lemma SupFrameUnshown(cfg: Config, s: Supervisor, o: SendOutcome)
    requires cfg.Faithful() && SupInv(s) && SCan(s, SSent(o))
    ensures Unshown(cfg.decode, SFrame(cfg.encode, s))
  {
    assert cfg.decode(cfg.encode(SMessage(s))) == Some(SMessage(s));
  }

  lemma ErrEventKeepsStderr(cfg: Config, link: Link, e: StderrSender, c: Client, i: ErrInput)
    requires cfg.Faithful() && StderrInv(cfg, link, e, c) && ECan(e, i)
    ensures StderrInv(cfg, ErrLink(cfg, link, e, i), EStep(e, i), c)
  {
    ErrStepKeepsInv(e, i);
    if i.ESent? && !i.o.Lost? {
      var p := ProcessStderr(cfg.text(e.pc.line));
      assert cfg.decode(cfg.encode(p)) == Some(p);
      StderrLinesSnoc(cfg.decode, link.frames, Text(cfg.encode(p)));
      assert (link.frames + [Text(cfg.encode(p))])[..link.seen] == link.frames[..link.seen];
    }
  }

  lemma WriterEventKeepsStderr(cfg: Config, link: Link, e: StderrSender, c: Client, i: WriterInput)
    requires StderrInv(cfg, link, e, c) && c.sup.launched && WCan(c.writer.w, i) && !c.sup.pc.Handshaking?
    requires i.WGot? ==> link.Offers(i.frame)
    ensures StderrInv(cfg, if i.WGot? then link.Read() else link, e, c.(writer := WriteEnd(cfg.decode, c.writer, i)))
  {
    if i.WGot? {
      assert link.frames[..link.seen + 1] == link.frames[..link.seen] + [link.frames[link.seen]];
      StderrLinesSnoc(cfg.decode, link.frames[..link.seen], link.frames[link.seen]);
    }
  }

  lemma CliEventKeepsStderr(cfg: Config, link: Link, e: StderrSender, c: Client, i: CliInput)
    requires StderrInv(cfg, link, e, c) && ClientInv(c) && CCan(c.sup, i) && (i.CGot? ==> link.Offers(i.frame))
    ensures StderrInv(cfg, if i.CGot? then link.Read() else link, e, CliClient(cfg.decode, c, i))
  {
    if i.CGot? {
      assert link.frames[..1] == [] + [link.frames[0]];
      StderrLinesSnoc(cfg.decode, [], link.frames[0]);
    }
  }

  lemma SupLinkKeepsStderr(cfg: Config, link: Link, e: StderrSender, c: Client, s: Supervisor, i: SupInput)
    requires cfg.Faithful() && StderrInv(cfg, link, e, c) && SupInv(s) && SCan(s, i)
    ensures StderrInv(cfg, SupLink(cfg, link, s, i), e, c)
  {
    if i.SSent? {
      SupFrameUnshown(cfg, s, i.o);
      UnshownFrame(cfg, link, e, c, SFrame(cfg.encode, s));
    }
  }

  lemma OutLinkKeepsStderr(cfg: Config, link: Link, e: StderrSender, c: Client, w: StdoutSender, i: OutInput)
    requires StderrInv(cfg, link, e, c)
    ensures StderrInv(cfg, OutLink(link, w, i), e, c)
  {
    if i.OWrote? && w.pc.OSending? {
      UnshownFrame(cfg, link, e, c, Binary(w.pc.chunk));
    }
  }

  lemma EchoKeepsStderr(cfg: Config, link: Link, e: StderrSender, c: Client, f: Frame)
    requires StderrInv(cfg, link, e, c)
    ensures StderrInv(cfg, Echo(link, f), e, c)
  {
    if f.Close? {
      UnshownFrame(cfg, link, e, c, Close(CloseError(f.close.code, LibraryClose)));
    }
  }

  lemma StderrStepKeepsInv(cfg: Config, s: State, ev: Event)
    requires cfg.Faithful() && Enabled(s, ev) && ServerInv(s.server) && ClientInv(s.client)
    requires StderrInv(cfg, s.s2c, s.server.err.w, s.client)
    ensures var t := Step(cfg, s, ev); StderrInv(cfg, t.s2c, t.server.err.w, t.client)
  {
    match ev
    case SupEv(i) => SupLinkKeepsStderr(cfg, s.s2c, s.server.err.w, s.client, s.server.sup, i);
    case OutEv(i) => OutLinkKeepsStderr(cfg, s.s2c, s.server.err.w, s.client, s.server.out.w, i);
    case RxEv(i) => EchoKeepsStderr(cfg, s.s2c, s.server.err.w, s.client, if i.RGot? then i.frame else Odd);
    case ErrEv(i) => ErrEventKeepsStderr(cfg, s.s2c, s.server.err.w, s.client, i);
    case WriterEv(i) => WriterEventKeepsStderr(cfg, s.s2c, s.server.err.w, s.client, i);
    case CliEv(i) => CliEventKeepsStderr(cfg, s.s2c, s.server.err.w, s.client, i);
    case _ =>
  }
}
