/** What the server's receiver has seen, logged and concluded: its result is nil exactly when it has read a close
    frame, and the request log is fed exactly the messages written whole. */
module SessionReceiver {
  import opened ClientWorkers
  import opened Lists
  import opened ServerWorkers
  import opened Session
  import opened Wire

  // ---------- the close frame ----------

  ghost predicate LastReadClose(link: Link) {
    0 < link.seen <= |link.frames| && link.frames[link.seen - 1].Close?
  }

  ghost predicate CloseReadInv(link: Link, r: Receiver) {
    match r.pc
    case RReading => !LastReadClose(link)
    case RWriting(_, _) => !LastReadClose(link)
    case RPosting(result) => result.None? <==> LastReadClose(link)
    case RPosted(result) => result.None? <==> LastReadClose(link)
    case RClosed(result) => result.None? <==> LastReadClose(link)
  }

  lemma ReceiverKeepsClose(decode: Decoder, link: Link, r: Receiver, i: ReceiverInput)
    requires CloseReadInv(link, r) && RCan(r, i) && (i.RGot? ==> link.Offers(i.frame))
    ensures CloseReadInv(if i.RGot? then link.Read() else link, RStep(decode, r, i))
  {
  }

  // ---------- the log ----------

  /** The payloads of the binary messages of a channel. */
  function Payloads(fs: seq<Frame>): seq<seq<byte>> {
    if fs == [] then []
    else
      var f := fs[|fs| - 1];
      Payloads(fs[..|fs| - 1]) + (if f.Binary? then [f.data] else [])
  }

  lemma PayloadsTake(fs: seq<Frame>, k: nat)
    requires k < |fs|
    ensures Payloads(fs[..k + 1]) == Payloads(fs[..k]) + (if fs[k].Binary? then [fs[k].data] else [])
  {
    assert fs[..k + 1][..k] == fs[..k];
  }

  /** After the end: everything received was written whole and logged, unless the write of the last message
      failed; then that message alone is not logged, and some prefix of it was written. */
  ghost predicate LogEnd(got: seq<seq<byte>>, r: Receiver, result: Instruction) {
    if result.Some? && result.value.reason == StdinWriteFailed then
      got != [] && r.fed == got[..|got| - 1] && Flatten(r.fed) <= r.written <= Flatten(got)
    else r.fed == got && r.written == Flatten(got)
  }

  /** The log is fed exactly the messages written whole, in every state. */
  ghost predicate LogInv(link: Link, r: Receiver) {
    && link.seen <= |link.frames|
    && var got := Payloads(link.frames[..link.seen]);
       match r.pc
       case RReading => r.fed == got && r.written == Flatten(got)
       case RWriting(msg, k) => k <= |msg| && got == r.fed + [msg] && r.written == Flatten(r.fed) + msg[..k]
       case RPosting(result) => LogEnd(got, r, result)
       case RPosted(result) => LogEnd(got, r, result)
       case RClosed(result) => LogEnd(got, r, result)
  }

  lemma GotKeepsLog(decode: Decoder, link: Link, r: Receiver, f: Frame)
    requires LogInv(link, r) && r.pc.RReading? && link.Offers(f)
    ensures LogInv(link.Read(), RHandle(decode, r, f))
  {
    PayloadsTake(link.frames, link.seen);
    assert r.fed + [] == r.fed;
  }

  lemma AcceptedKeepsLog(decode: Decoder, link: Link, r: Receiver, n: nat)
    requires LogInv(link, r) && RCan(r, RAccepted(n))
    ensures LogInv(link, RStep(decode, r, RAccepted(n)))
  {
    var msg, k := r.pc.msg, r.pc.accepted;
    assert msg[..k + n] == msg[..k] + msg[k..k + n];
    AppendAssociates(Flatten(r.fed), msg[..k], msg[k..k + n]);
  }

  lemma WrittenKeepsLog(decode: Decoder, link: Link, r: Receiver, i: ReceiverInput)
    requires LogInv(link, r) && RCan(r, i) && (i.RWriteDone? || i.RWriteFailed?)
    ensures LogInv(link, RStep(decode, r, i))
  {
    var msg, k := r.pc.msg, r.pc.accepted;
    FlattenSnoc(r.fed, msg);
    assert (r.fed + [msg])[..|r.fed|] == r.fed;
    assert msg == msg[..k] + msg[k..];
    AppendAssociates(Flatten(r.fed), msg[..k], msg[k..]);
    assert k == |msg| ==> msg[..k] == msg;
  }

  lemma ReceiverKeepsLog(decode: Decoder, link: Link, r: Receiver, i: ReceiverInput)
    requires LogInv(link, r) && RCan(r, i) && (i.RGot? ==> link.Offers(i.frame))
    ensures LogInv(if i.RGot? then link.Read() else link, RStep(decode, r, i))
  {
    match i
    case RGot(f) => GotKeepsLog(decode, link, r, f);
    case RAccepted(n) => AcceptedKeepsLog(decode, link, r, n);
    case RWriteDone => WrittenKeepsLog(decode, link, r, i);
    case RWriteFailed => WrittenKeepsLog(decode, link, r, i);
    case _ =>
  }

  // ---------- every step ----------

  ghost predicate SeenInv(link: Link, r: Receiver) {
    CloseReadInv(link, r) && LogInv(link, r)
  }

  lemma GrowthKeepsSeen(link: Link, r: Receiver, f: Frame)
    requires SeenInv(link, r)
    ensures SeenInv(link.(frames := link.frames + [f]), r)
  {
    assert (link.frames + [f])[..link.seen] == link.frames[..link.seen];
  }

  lemma InEventKeepsSeen(cfg: Config, s: State, i: InInput)
    requires SeenInv(s.c2s, s.server.rx.w)
    ensures SeenInv(InLink(cfg, s.c2s, s.client.stdin.w, i), s.server.rx.w)
  {
    var link := InLink(cfg, s.c2s, s.client.stdin.w, i);
    if link != s.c2s {
      GrowthKeepsSeen(s.c2s, s.server.rx.w, link.frames[|s.c2s.frames|]);
    }
  }

  lemma SeenStepKeepsInv(cfg: Config, s: State, ev: Event)
    requires SeenInv(s.c2s, s.server.rx.w) && Enabled(s, ev)
    ensures var t := Step(cfg, s, ev); SeenInv(t.c2s, t.server.rx.w)
  {
    match ev
    case RxEv(i) =>
      ReceiverKeepsClose(cfg.decode, s.c2s, s.server.rx.w, i);
      ReceiverKeepsLog(cfg.decode, s.c2s, s.server.rx.w, i);
    case InEv(i) => InEventKeepsSeen(cfg, s, i);
    case ClientLibraryClose(code) => GrowthKeepsSeen(s.c2s, s.server.rx.w, Close(CloseError(code, LibraryClose)));
    case _ =>
  }
}
