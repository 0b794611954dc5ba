/** Client stdin to process stdin: what was read, what is on the wire, what entered the process's pipe. */
module SessionStdin {
  import opened ClientWorkers
  import opened Lists
  import opened Oob
  import opened ServerWorkers
  import opened Session
  import opened Wire

  // ---------- payload of a growing channel ----------

  lemma BytesSnoc(fs: seq<Frame>, f: Frame)
    ensures Bytes(fs + [f]) == Bytes(fs) + (if f.Binary? then f.data else [])
  {
    assert (fs + [f])[..|fs|] == fs;
  }

  lemma BytesTake(fs: seq<Frame>, k: nat)
    requires k < |fs|
    ensures Bytes(fs[..k + 1]) == Bytes(fs[..k]) + (if fs[k].Binary? then fs[k].data else [])
  {
    assert fs[..k + 1] == fs[..k] + [fs[k]];
    BytesSnoc(fs[..k], fs[k]);
  }

  /** What was received so far is a prefix of what was sent. */
  lemma {:induction false} BytesPrefix(fs: seq<Frame>, k: nat)
    requires k <= |fs|
    ensures Bytes(fs[..k]) <= Bytes(fs)
    decreases |fs| - k
  {
    if k == |fs| {
      assert fs[..k] == fs;
    } else {
      BytesTake(fs, k);
      BytesPrefix(fs, k + 1);
    }
  }

  /** Only close frames after position `k`: the payload is complete there. */
  lemma {:induction false} BytesComplete(fs: seq<Frame>, k: nat)
    requires k <= |fs| && forall j :: k <= j < |fs| ==> fs[j].Close?
    ensures Bytes(fs[..k]) == Bytes(fs)
    decreases |fs| - k
  {
    if k == |fs| {
      assert fs[..k] == fs;
    } else {
      BytesTake(fs, k);
      BytesComplete(fs, k + 1);
    }
  }

  // ---------- the sending side ----------

  /** The client's frames are binary messages of bounded size, then at most one shutdown message, then at most
      one close frame. */
  ghost predicate ClientTraffic(cfg: Config, fs: seq<Frame>) {
    forall k :: 0 <= k < |fs| ==>
      && !fs[k].Odd?
      && (fs[k].Binary? ==> |fs[k].data| <= BINARY_FRAME_MAX_SIZE)
      && (fs[k].Text? ==> fs[k].text == cfg.encode(Shutdown) && forall j :: k < j < |fs| ==> fs[j].Close?)
      && (fs[k].Close? ==> k == |fs| - 1)
  }

  ghost predicate ShutdownSent(fs: seq<Frame>) {
    exists k :: 0 <= k < |fs| && fs[k].Text?
  }

  ghost predicate SenderInv(cfg: Config, fs: seq<Frame>, i: StdinSender) {
    && ClientTraffic(cfg, fs)
    && (ShutdownSent(fs) ==> i.eof && Bytes(fs) == i.read && (i.pc.IWaiting? || i.pc.IPosting? || i.pc.IPosted?))
    && match i.pc
       case IReading => Bytes(fs) == i.read && !i.eof
       case ISending(chunk, _) =>
         Bytes(fs) + chunk == i.read && |chunk| <= BINARY_FRAME_MAX_SIZE && !i.eof
       case IShuttingDown => Bytes(fs) == i.read && i.eof
       case IWaiting => Bytes(fs) == i.read && i.eof
       case IPosting(_) => Bytes(fs) <= i.read
       case IPosted(_) => Bytes(fs) <= i.read
  }

  lemma AppendTraffic(cfg: Config, fs: seq<Frame>, f: Frame)
    requires ClientTraffic(cfg, fs) && !Closed(fs)
    requires f.Close? || (!ShutdownSent(fs) && !f.Odd?)
    requires f.Binary? ==> |f.data| <= BINARY_FRAME_MAX_SIZE
    requires f.Text? ==> f.text == cfg.encode(Shutdown)
    ensures ClientTraffic(cfg, fs + [f])
    ensures ShutdownSent(fs + [f]) <==> ShutdownSent(fs) || f.Text?
  {
    var gs := fs + [f];
    assert forall k :: 0 <= k < |fs| ==> gs[k] == fs[k] && !fs[k].Close?;
    assert gs[|fs|] == f;
    if ShutdownSent(fs) {
      var k :| 0 <= k < |fs| && fs[k].Text?;
      assert gs[k].Text?;
    }
  }

  lemma SenderKeepsInv(cfg: Config, link: Link, w: StdinSender, i: InInput)
    requires SenderInv(cfg, link.frames, w) && ICan(w, i)
    requires i.ISent? || i.IShutdownSent? ==> CanPut(link.frames, i.o)
    ensures SenderInv(cfg, InLink(cfg, link, w, i).frames, IStep(w, i))
  {
    var fs := link.frames;
    match i
    case ISent(o) =>
      if !o.Lost? {
        AppendTraffic(cfg, fs, Binary(w.pc.chunk));
        BytesSnoc(fs, Binary(w.pc.chunk));
      }
    case IShutdownSent(o) =>
      if !o.Lost? {
        AppendTraffic(cfg, fs, Text(cfg.encode(Shutdown)));
        BytesSnoc(fs, Text(cfg.encode(Shutdown)));
      }
    case _ =>
  }

  lemma LibraryCloseKeepsSender(cfg: Config, fs: seq<Frame>, i: StdinSender, code: int)
    requires SenderInv(cfg, fs, i) && !Closed(fs)
    ensures SenderInv(cfg, fs + [Close(CloseError(code, LibraryClose))], i)
  {
    var f := Close(CloseError(code, LibraryClose));
    AppendTraffic(cfg, fs, f);
    BytesSnoc(fs, f);
  }

  // ---------- the receiving side ----------

  ghost predicate Acknowledged(r: Instruction) {
    r.Some? && r.value.code == STATUS_NORMAL_CLOSURE
  }

  ghost predicate ResultInv(link: Link, r: Receiver, result: Instruction)
    requires link.seen <= |link.frames|
  {
    var got := Bytes(link.frames[..link.seen]);
    && r.written <= got
    && (result.None? ==> 0 < link.seen && link.frames[link.seen - 1].Close?)
    && (Acknowledged(result) ==>
          && r.written == got && 0 < link.seen && link.frames[link.seen - 1].Text?
          && result.value.reason == ShutdownAcknowledged)
    && (result.Some? ==> result.value.reason != BadOoBMessage && result.value.reason != BadMessageType)
  }

  /** The messages handed to the accumulator are those written whole, and what the process was given is what
      was received up to the message being written. */
  ghost predicate ReceiverInv(link: Link, r: Receiver) {
    && link.seen <= |link.frames|
    && r.warnings == 0
    && Flatten(r.fed) <= r.written
    && var got := Bytes(link.frames[..link.seen]);
       match r.pc
       case RReading => got == r.written == Flatten(r.fed)
       case RWriting(msg, k) =>
         k <= |msg| && r.written == Flatten(r.fed) + msg[..k] && got == Flatten(r.fed) + msg
       case RPosting(result) => ResultInv(link, r, result)
       case RPosted(result) => ResultInv(link, r, result)
       case RClosed(result) => ResultInv(link, r, result)
  }

  lemma GotKeepsInv(cfg: Config, link: Link, r: Receiver, f: Frame)
    requires cfg.Faithful() && ClientTraffic(cfg, link.frames) && ReceiverInv(link, r)
    requires r.pc.RReading? && link.Offers(f)
    ensures ReceiverInv(link.Read(), RHandle(cfg.decode, r, f))
  {
    BytesTake(link.frames, link.seen);
    if f.Text? {
      assert cfg.decode(cfg.encode(Shutdown)) == Some(Shutdown);
    }
  }

  lemma AcceptedKeepsInv(decode: Decoder, link: Link, r: Receiver, n: nat)
    requires ReceiverInv(link, r) && RCan(r, RAccepted(n))
    ensures ReceiverInv(link, RStep(decode, r, RAccepted(n)))
  {
    var msg, k := r.pc.msg, r.pc.accepted;
    assert msg[..k + n] == msg[..k] + msg[k..k + n];
    AppendAssociates(Flatten(r.fed), msg[..k], msg[k..k + n]);
  }

  lemma ReceiverKeepsInv(cfg: Config, link: Link, r: Receiver, i: ReceiverInput)
    requires cfg.Faithful() && ClientTraffic(cfg, link.frames)
    requires ReceiverInv(link, r) && RCan(r, i) && (i.RGot? ==> link.Offers(i.frame))
    ensures ReceiverInv(if i.RGot? then link.Read() else link, RStep(cfg.decode, r, i))
  {
    match i
    case RGot(f) => GotKeepsInv(cfg, link, r, f);
    case RAccepted(n) => AcceptedKeepsInv(cfg.decode, link, r, n);
    case RWriteDone =>
      assert r.pc.msg[..|r.pc.msg|] == r.pc.msg;
      FlattenSnoc(r.fed, r.pc.msg);
    case RWriteFailed =>
      assert r.pc.msg == r.pc.msg[..r.pc.accepted] + r.pc.msg[r.pc.accepted..];
      AppendAssociates(Flatten(r.fed), r.pc.msg[..r.pc.accepted], r.pc.msg[r.pc.accepted..]);
    case _ =>
  }

  lemma GrowthKeepsReceiver(link: Link, r: Receiver, f: Frame)
    requires ReceiverInv(link, r)
    ensures ReceiverInv(link.(frames := link.frames + [f]), r)
  {
    assert (link.frames + [f])[..link.seen] == link.frames[..link.seen];
  }

  // ---------- the whole direction ----------

  ghost predicate StdinInv(cfg: Config, s: State) {
    SenderInv(cfg, s.c2s.frames, s.client.stdin.w) && ReceiverInv(s.c2s, s.server.rx.w)
  }

  lemma StdinStepKeepsInv(cfg: Config, s: State, ev: Event)
    requires cfg.Faithful() && StdinInv(cfg, s) && Enabled(s, ev)
    ensures StdinInv(cfg, Step(cfg, s, ev))
  {
    match ev
    case RxEv(i) => ReceiverKeepsInv(cfg, s.c2s, s.server.rx.w, i);
    case InEv(i) =>
      SenderKeepsInv(cfg, s.c2s, s.client.stdin.w, i);
      var link := InLink(cfg, s.c2s, s.client.stdin.w, i);
      if link != s.c2s {
        GrowthKeepsReceiver(s.c2s, s.server.rx.w, link.frames[|s.c2s.frames|]);
      }
    case ClientLibraryClose(code) =>
      LibraryCloseKeepsSender(cfg, s.c2s.frames, s.client.stdin.w, code);
      GrowthKeepsReceiver(s.c2s, s.server.rx.w, Close(CloseError(code, LibraryClose)));
    case SupEv(_) =>
    case _ =>
  }

  /** Whatever the process was given is a prefix of what the client read; and when the server has acknowledged
      the shutdown it is all of it, and the client had reached the end of its input. */
  lemma StdinTheorem(cfg: Config, s: State)
    requires StdinInv(cfg, s)
    ensures s.server.rx.w.written <= s.client.stdin.w.read
    ensures (s.server.rx.w.pc.RPosting? || s.server.rx.w.pc.RPosted? || s.server.rx.w.pc.RClosed?)
            && Acknowledged(s.server.rx.w.pc.result) ==>
              s.server.rx.w.written == s.client.stdin.w.read && s.client.stdin.w.eof
  {
    var link, r := s.c2s, s.server.rx.w;
    BytesPrefix(link.frames, link.seen);
    assert Bytes(link.frames) <= s.client.stdin.w.read;
    if (r.pc.RPosting? || r.pc.RPosted? || r.pc.RClosed?) && Acknowledged(r.pc.result) {
      BytesComplete(link.frames, link.seen);
    }
  }
}
