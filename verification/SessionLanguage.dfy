/** The language of the frames the server writes, under every interleaving of the supervisor, its workers and
    the WebSocket library:
      ( nothing | start_err | start_ok (binary | process_stderr)* [server_exited] ) [close] */
module SessionLanguage {
  import opened Oob
  import opened ServerWorkers
  import opened Session
  import opened SessionControl
  import opened Supervisors
  import opened Wire

  datatype Lang = Fresh | StartFailed | Streaming | ExitSent | Shut | Bad

  function LangStep(decode: Decoder, l: Lang, f: Frame): Lang {
    if f.Close? then (if l.Shut? || l.Bad? then Bad else Shut)
    else
      match l
      case Fresh =>
        if f.Text? && decode(f.text).Some? && decode(f.text).value.StartErr? then StartFailed
        else if f.Text? && decode(f.text).Some? && decode(f.text).value.StartOK? then Streaming
        else Bad
      case Streaming =>
        if f.Binary? then Streaming
        else if f.Text? && decode(f.text).Some? && decode(f.text).value.ProcessStderr? then Streaming
        else if f.Text? && decode(f.text).Some? && decode(f.text).value.ServerExited? then ExitSent
        else Bad
      case _ => Bad
  }

  function LangOf(decode: Decoder, fs: seq<Frame>): Lang {
    if fs == [] then Fresh else LangStep(decode, LangOf(decode, fs[..|fs| - 1]), fs[|fs| - 1])
  }

  lemma LangSnoc(decode: Decoder, fs: seq<Frame>, f: Frame)
    ensures LangOf(decode, fs + [f]) == LangStep(decode, LangOf(decode, fs), f)
  {
    assert (fs + [f])[..|fs|] == fs;
  }

  /** A word of the language has all its prefixes in the language, and a close only at its end. */
  lemma {:induction false} LangPrefix(decode: Decoder, fs: seq<Frame>, k: nat)
    requires LangOf(decode, fs) != Bad && k < |fs|
    ensures LangOf(decode, fs[..k]) != Bad
    ensures LangStep(decode, LangOf(decode, fs[..k]), fs[k]) != Bad
    ensures fs[k].Close? ==> k == |fs| - 1
    decreases |fs|
  {
    var front := fs[..|fs| - 1];
    if k < |front| {
      LangPrefix(decode, front, k);
      assert front[..k] == fs[..k] && front[k] == fs[k];
      CloseEndsWord(decode, front);
    }
  }

  lemma CloseEndsWord(decode: Decoder, fs: seq<Frame>)
    requires fs != []
    ensures fs[|fs| - 1].Close? ==> LangOf(decode, fs).Shut? || LangOf(decode, fs).Bad?
  {
    assert LangOf(decode, fs) == LangStep(decode, LangOf(decode, fs[..|fs| - 1]), fs[|fs| - 1]);
  }

  /** After start_ok only output, stderr lines, the exit report and the close may come. */
  ghost predicate Streamed(decode: Decoder, f: Frame) {
    f.Binary? || f.Close? ||
    (f.Text? && decode(f.text).Some? && (decode(f.text).value.ProcessStderr? || decode(f.text).value.ServerExited?))
  }

  ghost predicate IsStartOK(decode: Decoder, f: Frame) {
    f.Text? && decode(f.text).Some? && decode(f.text).value.StartOK?
  }

  predicate Started(l: Lang) {
    l.Streaming? || l.ExitSent? || l.Shut?
  }

  lemma StartedStep(decode: Decoder, l: Lang, f: Frame)
    requires Started(l) && LangStep(decode, l, f) != Bad
    ensures Streamed(decode, f) && Started(LangStep(decode, l, f))
  {
  }

  lemma LangAt(decode: Decoder, fs: seq<Frame>, k: nat)
    requires k < |fs|
    ensures LangOf(decode, fs[..k + 1]) == LangStep(decode, LangOf(decode, fs[..k]), fs[k])
  {
    assert fs[..k + 1] == fs[..k] + [fs[k]];
    LangSnoc(decode, fs[..k], fs[k]);
  }

  lemma {:induction false} AfterStartOK(decode: Decoder, fs: seq<Frame>, k: nat)
    requires LangOf(decode, fs) != Bad && 0 < k < |fs| && IsStartOK(decode, fs[0])
    ensures Streamed(decode, fs[k])
    ensures Started(LangOf(decode, fs[..k]))
    decreases k
  {
    LangPrefix(decode, fs, k);
    LangAt(decode, fs, k - 1);
    if k == 1 {
      assert fs[..0] == [];
    } else {
      AfterStartOK(decode, fs, k - 1);
      StartedStep(decode, LangOf(decode, fs[..k - 1]), fs[k - 1]);
    }
    StartedStep(decode, LangOf(decode, fs[..k]), fs[k]);
  }

  /** Where in the language the server is, by where its supervisor is. */
  ghost predicate LangAllowed(s: Supervisor, l: Lang) {
    if s.pc.Starting? || s.pc.SendingStartErr? || s.pc.SendingStartOk? then l.Fresh?
    else if !s.launched then l.Fresh? || l.StartFailed? || l.Streaming?
    else if Stage(s) < 7 || s.fault then l.Streaming?
    else l.Streaming? || l.ExitSent?
  }

  ghost predicate LangInv(cfg: Config, fs: seq<Frame>, s: Supervisor) {
    var l := LangOf(cfg.decode, fs);
    && l != Bad
    && (l.Shut? <==> Closed(fs))
    && (!Closed(fs) ==> LangAllowed(s, l))
  }

  lemma CloseFrameKeepsLang(cfg: Config, fs: seq<Frame>, s: Supervisor, ce: CloseError)
    requires LangInv(cfg, fs, s) && !Closed(fs)
    ensures LangInv(cfg, fs + [Close(ce)], s)
  {
    LangSnoc(cfg.decode, fs, Close(ce));
  }

  lemma SupEventKeepsLang(cfg: Config, link: Link, s: Supervisor, i: SupInput)
    requires cfg.Faithful() && LangInv(cfg, link.frames, s) && SupInv(s) && SCan(s, i)
    requires i.SSent? ==> CanPut(link.frames, i.o)
    ensures LangInv(cfg, SupLink(cfg, link, s, i).frames, SStep(s, i))
  {
    if i.SSent? {
      SupSendKeepsLang(cfg, link, s, i.o);
    }
  }

  lemma SupSendKeepsLang(cfg: Config, link: Link, s: Supervisor, o: SendOutcome)
    requires cfg.Faithful() && LangInv(cfg, link.frames, s) && SupInv(s) && SCan(s, SSent(o))
    requires CanPut(link.frames, o)
    ensures LangInv(cfg, link.Send(SFrame(cfg.encode, s), o).frames, SSend(s, o))
  {
    var f := SFrame(cfg.encode, s);
    if o.Lost? {
      if !Closed(link.frames) {
        LostFrameAllowed(s, LangOf(cfg.decode, link.frames), o);
      }
    } else {
      LangSnoc(cfg.decode, link.frames, f);
      SentFrameAllowed(cfg, s, LangOf(cfg.decode, link.frames), o);
      assert Closed(link.frames + [f]) <==> f.Close?;
    }
  }

  lemma LostFrameAllowed(s: Supervisor, l: Lang, o: SendOutcome)
    requires SupInv(s) && SCan(s, SSent(o)) && LangAllowed(s, l) && o.Lost?
    ensures LangAllowed(SSend(s, o), l)
  {
  }

  lemma SentFrameAllowed(cfg: Config, s: Supervisor, l: Lang, o: SendOutcome)
    requires cfg.Faithful() && SupInv(s) && SCan(s, SSent(o)) && LangAllowed(s, l) && !o.Lost?
    ensures var f := SFrame(cfg.encode, s);
      var m := LangStep(cfg.decode, l, f);
      m != Bad && (m.Shut? <==> f.Close?) && (!f.Close? ==> LangAllowed(SSend(s, o), m))
  {
    assert cfg.decode(cfg.encode(SMessage(s))) == Some(SMessage(s));
  }

  /** A worker that can still send runs before the exit report: its result has not been received yet. */
  lemma SendersStream(cfg: Config, fs: seq<Frame>, v: Server)
    requires LangInv(cfg, fs, v.sup) && ServerInv(v) && v.sup.launched && !Closed(fs)
    requires v.out.w.pc.OSending? || v.err.w.pc.ESending?
    ensures LangOf(cfg.decode, fs).Streaming? && (Stage(v.sup) < 7 || v.sup.fault)
  {
  }

  lemma OutEventKeepsLang(cfg: Config, link: Link, v: Server, i: OutInput)
    requires LangInv(cfg, link.frames, v.sup) && ServerInv(v) && v.sup.launched && OCan(v.out.w, i)
    requires i.OWrote? ==> CanPut(link.frames, i.o)
    ensures LangInv(cfg, OutLink(link, v.out.w, i).frames, v.sup)
  {
    if i.OWrote? && !i.o.Lost? {
      SendersStream(cfg, link.frames, v);
      LangSnoc(cfg.decode, link.frames, Binary(v.out.w.pc.chunk));
    }
  }

  lemma ErrEventKeepsLang(cfg: Config, link: Link, v: Server, i: ErrInput)
    requires cfg.Faithful() && LangInv(cfg, link.frames, v.sup) && ServerInv(v) && v.sup.launched && ECan(v.err.w, i)
    requires i.ESent? ==> CanPut(link.frames, i.o)
    ensures LangInv(cfg, ErrLink(cfg, link, v.err.w, i).frames, v.sup)
  {
    if i.ESent? && !i.o.Lost? {
      var p := ProcessStderr(cfg.text(v.err.w.pc.line));
      SendersStream(cfg, link.frames, v);
      assert cfg.decode(cfg.encode(p)) == Some(p);
      LangSnoc(cfg.decode, link.frames, Text(cfg.encode(p)));
    }
  }

  lemma LangStepKeepsInv(cfg: Config, s: State, ev: Event)
    requires cfg.Faithful() && LangInv(cfg, s.s2c.frames, s.server.sup) && ServerInv(s.server) && Enabled(s, ev)
    ensures var t := Step(cfg, s, ev); LangInv(cfg, t.s2c.frames, t.server.sup)
  {
    match ev
    case SupEv(i) => SupEventKeepsLang(cfg, s.s2c, s.server.sup, i);
    case OutEv(i) => OutEventKeepsLang(cfg, s.s2c, s.server, i);
    case ErrEv(i) => ErrEventKeepsLang(cfg, s.s2c, s.server, i);
    case RxEv(i) =>
      if i.RGot? && i.frame.Close? && !Closed(s.s2c.frames) {
        CloseFrameKeepsLang(cfg, s.s2c.frames, s.server.sup, CloseError(i.frame.close.code, LibraryClose));
      }
    case _ =>
  }
}
