/** The loops of the two client goroutines, against scripts of what their reads and writes return. */
module ClientLoops {
  import opened ClientWorkers
  import opened Lists
  import opened Oob
  import opened ServerLoops
  import opened ServerWorkers
  import opened Session
  import opened SessionStdin
  import opened Wire

  // ---------- receiverStdin ----------

  /** One iteration as atomic steps on the worker and on the wire. */
  function ITurn(cfg: Config, link: Link, s: StdinSender, read: PipeRead, o: SendOutcome, last: SendOutcome)
    : (Link, StdinSender)
  {
    var s1 := IStep(s, IRead(read.data, read.err));
    var l2, s2 := InLink(cfg, link, s1, ISent(o)), IStep(s1, ISent(o));
    if s2.pc.IShuttingDown? then (InLink(cfg, l2, s2, IShutdownSent(last)), IStep(s2, IShutdownSent(last)))
    else (l2, s2)
  }

  function IRun(cfg: Config, link: Link, s: StdinSender, script: seq<PipeRead>, sends: seq<SendOutcome>,
                last: SendOutcome): (Link, StdinSender)
    requires |script| == |sends|
    decreases |script|
  {
    if script == [] || !s.pc.IReading? then (link, s)
    else
      var (l, t) := ITurn(cfg, link, s, script[0], sends[0], last);
      IRun(cfg, l, t, script[1..], sends[1..], last)
  }

  lemma IRunStep(cfg: Config, link: Link, s: StdinSender, script: seq<PipeRead>, sends: seq<SendOutcome>,
                 last: SendOutcome, i: nat)
    requires |script| == |sends| && i < |script| && s.pc.IReading?
    ensures var (l, t) := ITurn(cfg, link, s, script[i], sends[i], last);
      IRun(cfg, link, s, script[i..], sends[i..], last) == IRun(cfg, l, t, script[i + 1..], sends[i + 1..], last)
  {
    assert script[i..][1..] == script[i + 1..] && sends[i..][1..] == sends[i + 1..];
  }

  /** What one iteration does to the wire and to the worker. */
  lemma ITurnIs(cfg: Config, link: Link, s: StdinSender, read: PipeRead, o: SendOutcome, last: SendOutcome)
    requires s.pc.IReading? && |read.data| <= BINARY_FRAME_MAX_SIZE
    ensures var (l, t) := ITurn(cfg, link, s, read, o, last);
      var sent := if read.data == [] then link else link.Send(Binary(read.data), o);
      var failed := read.data != [] && !o.Sent?;
      && t.read == s.read + read.data
      && t.eof == (s.eof || (!failed && read.err.EndOfFile?))
      && l == (if !failed && read.err.EndOfFile? then sent.Send(Text(cfg.encode(Shutdown)), last) else sent)
      && t.pc == (if failed then IPosting(1)
                  else match read.err
                       case NoError => IReading
                       case EndOfFile => if last.Sent? then IWaiting else IPosting(1)
                       case _ => IPosting(1))
  {
    assert read.data == [] ==> s.read + read.data == s.read;
  }

  lemma TurnKeepsInv(cfg: Config, link: Link, s: StdinSender, read: PipeRead, o: SendOutcome, last: SendOutcome)
    requires SenderInv(cfg, link.frames, s) && s.pc.IReading? && |read.data| <= BINARY_FRAME_MAX_SIZE
    requires !Closed(link.frames)
    ensures var (l, t) := ITurn(cfg, link, s, read, o, last); SenderInv(cfg, l.frames, t) && !Closed(l.frames)
  {
    var s1 := IStep(s, IRead(read.data, read.err));
    SenderKeepsInv(cfg, link, s, IRead(read.data, read.err));
    SendTurn(cfg, link, s1, o);
    var l2, s2 := InLink(cfg, link, s1, ISent(o)), IStep(s1, ISent(o));
    if s2.pc.IShuttingDown? {
      SenderKeepsInv(cfg, l2, s2, IShutdownSent(last));
    }
  }

  lemma SendTurn(cfg: Config, link: Link, s: StdinSender, o: SendOutcome)
    requires SenderInv(cfg, link.frames, s) && !Closed(link.frames)
    ensures var l, t := InLink(cfg, link, s, ISent(o)), IStep(s, ISent(o));
      SenderInv(cfg, l.frames, t) && !Closed(l.frames)
  {
    if s.pc.ISending? {
      SenderKeepsInv(cfg, link, s, ISent(o));
    }
  }

  /** Everything sent is everything read unless a send failed, and the worker waits for the end of the session only
      after the shutdown message has followed all of it. */
  lemma {:induction false} SendsWhatItReads(cfg: Config, link: Link, s: StdinSender, script: seq<PipeRead>,
                                            sends: seq<SendOutcome>, last: SendOutcome)
    requires LegalReads(script, sends) && s.pc.IReading? && SenderInv(cfg, link.frames, s) && !Closed(link.frames)
    ensures var (l, t) := IRun(cfg, link, s, script, sends, last);
      && SenderInv(cfg, l.frames, t)
      && (t.pc.IReading? || t.pc.IWaiting? || t.pc.IPosting?)
      && (t.pc.IReading? || t.pc.IWaiting? ==> Bytes(l.frames) == t.read)
      && (t.pc.IWaiting? ==> t.eof && l.frames != [] && l.frames[|l.frames| - 1] == Text(cfg.encode(Shutdown)))
    decreases |script|
  {
    if script != [] {
      var (l, t) := ITurn(cfg, link, s, script[0], sends[0], last);
      ITurnIs(cfg, link, s, script[0], sends[0], last);
      TurnKeepsInv(cfg, link, s, script[0], sends[0], last);
      if t.pc.IReading? {
        SendsWhatItReads(cfg, l, t, script[1..], sends[1..], last);
      }
    }
  }

  /** A chunk was read whose send did not succeed. */
  predicate SendFails(read: PipeRead, o: SendOutcome) {
    read.data != [] && !o.Sent?
  }

  /** The first read that stops the loop, by a failed send or by its own error, or the end of the script. */
  function InputStop(script: seq<PipeRead>, sends: seq<SendOutcome>): (k: nat)
    requires |script| == |sends|
    ensures k <= |script|
    decreases |script|
  {
    if script == [] || SendFails(script[0], sends[0]) || script[0].err != NoError then 0
    else 1 + InputStop(script[1..], sends[1..])
  }

  /** What one read puts on the wire: its chunk, and the shutdown message at the end of the input. */
  function InputFrames(cfg: Config, read: PipeRead, o: SendOutcome, last: SendOutcome): seq<Frame> {
    (if read.data == [] || o.Lost? then [] else [Binary(read.data)]) +
    (if SendFails(read, o) || !read.err.EndOfFile? || last.Lost? then [] else [Text(cfg.encode(Shutdown))])
  }

  function InputWire(cfg: Config, script: seq<PipeRead>, sends: seq<SendOutcome>, last: SendOutcome, n: nat): seq<Frame>
    requires n <= |script| == |sends|
    decreases n
  {
    if n == 0 then []
    else InputFrames(cfg, script[0], sends[0], last) + InputWire(cfg, script[1..], sends[1..], last, n - 1)
  }

  /** The loop waits for the end of the session only when its input ended and the shutdown message was sent; stopped in
      any other way it posts 1. */
  predicate Waits(read: PipeRead, o: SendOutcome, last: SendOutcome) {
    !SendFails(read, o) && read.err.EndOfFile? && last.Sent?
  }

  lemma InputTurn(cfg: Config, link: Link, s: StdinSender, read: PipeRead, o: SendOutcome, last: SendOutcome)
    requires s.pc.IReading? && |read.data| <= BINARY_FRAME_MAX_SIZE
    ensures var (l, t) := ITurn(cfg, link, s, read, o, last);
      && l.frames == link.frames + InputFrames(cfg, read, o, last)
      && t.pc == (if !SendFails(read, o) && read.err == NoError then IReading
                  else if Waits(read, o, last) then IWaiting else IPosting(1))
  {
    ITurnIs(cfg, link, s, read, o, last);
    assert link.frames + [] == link.frames;
  }

  /** How the worker's steps end: at the first read that stops them. */
  lemma {:induction false} InputEnding(cfg: Config, link: Link, s: StdinSender, script: seq<PipeRead>,
                                       sends: seq<SendOutcome>, last: SendOutcome)
    requires LegalReads(script, sends) && s.pc.IReading?
    ensures var (l, t) := IRun(cfg, link, s, script, sends, last);
      var k := InputStop(script, sends);
      && t.pc == (if k == |script| then IReading
                  else if Waits(script[k], sends[k], last) then IWaiting else IPosting(1))
      && l.frames == link.frames + InputWire(cfg, script, sends, last, if k < |script| then k + 1 else k)
    decreases |script|
  {
    if script == [] {
      assert link.frames + [] == link.frames;
    } else {
      var (l, t) := ITurn(cfg, link, s, script[0], sends[0], last);
      var frames := InputFrames(cfg, script[0], sends[0], last);
      InputTurn(cfg, link, s, script[0], sends[0], last);
      if t.pc.IReading? {
        var rest, more, k := script[1..], sends[1..], InputStop(script[1..], sends[1..]);
        InputEnding(cfg, l, t, rest, more, last);
        AppendAssociates(link.frames, frames, InputWire(cfg, rest, more, last, if k < |rest| then k + 1 else k));
      } else {
        assert InputWire(cfg, script, sends, last, 1) == frames + [] == frames;
      }
    }
  }

  /** The loop of receiverStdin up to the point where it posts or waits for the end of the session. */
  method ReceiverStdin(cfg: Config, script: seq<PipeRead>, sends: seq<SendOutcome>, last: SendOutcome)
    returns (posted: Option<int>, wire: seq<Frame>)
    requires LegalReads(script, sends)
    ensures var (l, s) := IRun(cfg, Link([], 0), NewStdinSender, script, sends, last);
      wire == l.frames && posted == (if s.pc.IPosting? then Some(s.pc.code) else None)
    ensures var k := InputStop(script, sends);
      && posted == (if k == |script| || Waits(script[k], sends[k], last) then None else Some(1))
      && wire == InputWire(cfg, script, sends, last, if k < |script| then k + 1 else k)
  {
    posted, wire := None, [];
    ghost var s := NewStdinSender;
    var i, waiting := 0, false;
    while i < |script| && posted.None? && !waiting
      invariant i <= |script|
      invariant if posted.Some? then posted.value == 1 && s.pc == IPosting(1)
                else if waiting then s.pc.IWaiting? else s.pc.IReading?
      invariant IRun(cfg, Link([], 0), NewStdinSender, script[0..], sends[0..], last)
             == IRun(cfg, Link(wire, 0), s, script[i..], sends[i..], last)
    {
      var buf, err := script[i].data, script[i].err;
      IRunStep(cfg, Link(wire, 0), s, script, sends, last, i);
      ITurnIs(cfg, Link(wire, 0), s, script[i], sends[i], last);
      s := ITurn(cfg, Link(wire, 0), s, script[i], sends[i], last).1;
      if |buf| > 0 {
        wire := Put(wire, Binary(buf), sends[i]);
        if !sends[i].Sent? {
          posted := Some(1);
        }
      }
      if posted.None? && err != NoError {
        if err == EndOfFile {
          wire := Put(wire, Text(cfg.encode(Shutdown)), last);
          if last.Sent? {
            waiting := true;
          } else {
            posted := Some(1);
          }
        } else {
          posted := Some(1);
        }
      }
      i := i + 1;
    }
    assert script[0..] == script && sends[0..] == sends;
    InputEnding(cfg, Link([], 0), NewStdinSender, script, sends, last);
  }

  // ---------- senderStdout ----------

  function WTurn(decode: Decoder, w: StdoutWriter, read: SocketRead, write: PipeWrite): StdoutWriter {
    var w1 := WStep(decode, w, if read.Got? then WGot(read.frame) else WReadFailed);
    var w2 := WStep(decode, w1, WAccepted(write.n));
    WStep(decode, w2, if write.ok then WWriteDone else WWriteFailed)
  }

  function WRun(decode: Decoder, w: StdoutWriter, script: seq<SocketRead>, writes: seq<PipeWrite>): StdoutWriter
    requires |script| == |writes|
    decreases |script|
  {
    if script == [] then WStep(decode, w, WPost)
    else WRun(decode, WTurn(decode, w, script[0], writes[0]), script[1..], writes[1..])
  }

  function WIteration(decode: Decoder, w: StdoutWriter, read: SocketRead, write: PipeWrite): StdoutWriter {
    match read
    case Failed => w.(pc := WPosting(1))
    case Got(frame) =>
      if !frame.Binary? then WHandle(decode, w, frame)
      else if write.n <= |frame.data| then
        w.(out := w.out + frame.data[..write.n], pc := if write.ok then WReading else WPosting(1))
      else w
  }

  lemma WTurnIsIteration(decode: Decoder, w: StdoutWriter, read: SocketRead, write: PipeWrite)
    requires w.pc.WReading? && LegalWrite(read, write)
    ensures WTurn(decode, w, read, write) == WIteration(decode, w, read, write)
    ensures var t := WIteration(decode, w, read, write); t.pc.WReading? || t.pc.WPosting?
  {
    if read.Got? && read.frame.Binary? {
      assert read.frame.data[0..write.n] == read.frame.data[..write.n];
    }
  }

  lemma WRunStep(decode: Decoder, w: StdoutWriter, script: seq<SocketRead>, writes: seq<PipeWrite>, i: nat)
    requires |script| == |writes| && i < |script| && w.pc.WReading? && LegalWrite(script[i], writes[i])
    ensures WRun(decode, w, script[i..], writes[i..]) ==
      WRun(decode, WIteration(decode, w, script[i], writes[i]), script[i + 1..], writes[i + 1..])
  {
    WTurnIsIteration(decode, w, script[i], writes[i]);
    assert script[i..][1..] == script[i + 1..] && writes[i..][1..] == writes[i + 1..];
  }

  lemma {:induction false} WRunIdle(decode: Decoder, w: StdoutWriter, script: seq<SocketRead>, writes: seq<PipeWrite>)
    requires w.pc.WPosting? && |script| == |writes|
    ensures WRun(decode, w, script, writes) == w.(pc := WPosted(w.pc.code))
    decreases |script|
  {
    if script != [] {
      WRunIdle(decode, w, script[1..], writes[1..]);
    }
  }

  /** The reads after which the loop stops. */
  predicate WriterStops(read: SocketRead, w: PipeWrite) {
    match read
    case Failed => true
    case Got(Close(_)) => true
    case Got(Binary(_)) => !w.ok
    case _ => false
  }

  /** The first read that stops the loop, or the end of the script. */
  function WriterStop(script: seq<SocketRead>, writes: seq<PipeWrite>): (k: nat)
    requires |script| == |writes|
    ensures k <= |script|
    decreases |script|
  {
    if script == [] || WriterStops(script[0], writes[0]) then 0 else 1 + WriterStop(script[1..], writes[1..])
  }

  /** The exit code a report leaves: its own, or 1 when it has none. */
  function CodeAfter(decode: Decoder, code: int, read: SocketRead): int {
    match read
    case Got(Text(text)) =>
      (match decode(text)
       case Some(ServerExited(c, _, _)) => if c.Some? then c.value else 1
       case _ => code)
    case _ => code
  }

  /** The exit code of the last exit report among the first `n` reads, or `code` when there is none. */
  function ReportedCode(decode: Decoder, code: int, script: seq<SocketRead>, n: nat): int
    requires n <= |script|
    decreases n
  {
    if n == 0 then code else ReportedCode(decode, CodeAfter(decode, code, script[0]), script[1..], n - 1)
  }

  function ReceivedLine(decode: Decoder, read: SocketRead): seq<string> {
    match read
    case Got(Text(text)) => (match decode(text) case Some(ProcessStderr(line)) => [line] case _ => [])
    case _ => []
  }

  /** The stderr lines among the first `n` reads. */
  function ReceivedLines(decode: Decoder, script: seq<SocketRead>, n: nat): seq<string>
    requires n <= |script|
    decreases n
  {
    if n == 0 then [] else ReceivedLine(decode, script[0]) + ReceivedLines(decode, script[1..], n - 1)
  }

  /** The code posted at the read that stops the loop: the exit code on a normal close, 1 otherwise. */
  function PostedCode(read: SocketRead, exitCode: int): int {
    if read.Got? && read.frame.Close? && read.frame.close.code == 1000 then exitCode else 1
  }

  lemma WTurnDoes(decode: Decoder, w: StdoutWriter, read: SocketRead, write: PipeWrite)
    requires w.pc.WReading? && LegalWrite(read, write)
    ensures var t := WIteration(decode, w, read, write);
      && t.out == w.out + PipedBytes(read, write)
      && t.lines == w.lines + ReceivedLine(decode, read)
      && t.exitCode == CodeAfter(decode, w.exitCode, read)
      && t.pc == (if WriterStops(read, write) then WPosting(PostedCode(read, w.exitCode)) else WReading)
      && (WriterStops(read, write) ==> t.exitCode == w.exitCode && t.lines == w.lines)
  {
    assert w.out + [] == w.out && w.lines + [] == w.lines;
  }

  /** How the worker's steps end: on a close with 1000 it posts the exit code reported last, on any other end 1. */
  lemma {:induction false} WriterEnding(decode: Decoder, w: StdoutWriter, script: seq<SocketRead>,
                                        writes: seq<PipeWrite>)
    requires LegalWrites(script, writes) && w.pc.WReading?
    ensures var t, k := WRun(decode, w, script, writes), WriterStop(script, writes);
      && t.exitCode == ReportedCode(decode, w.exitCode, script, k)
      && t.pc == (if k == |script| then WReading else WPosted(PostedCode(script[k], t.exitCode)))
    decreases |script|
  {
    if script != [] {
      var t := WIteration(decode, w, script[0], writes[0]);
      WTurnIsIteration(decode, w, script[0], writes[0]);
      WTurnDoes(decode, w, script[0], writes[0]);
      if t.pc.WReading? {
        WriterEnding(decode, t, script[1..], writes[1..]);
      } else {
        WRunIdle(decode, t, script[1..], writes[1..]);
      }
    }
  }

  /** What the worker's steps have shown and written: every line before the read that stopped them, and every byte
      whose write consumed it. */
  lemma {:induction false} WriterOutput(decode: Decoder, w: StdoutWriter, script: seq<SocketRead>,
                                        writes: seq<PipeWrite>)
    requires LegalWrites(script, writes) && w.pc.WReading?
    ensures var t, k := WRun(decode, w, script, writes), WriterStop(script, writes);
      && t.lines == w.lines + ReceivedLines(decode, script, k)
      && t.out == w.out + WrittenBytes(script, writes, if k < |script| then k + 1 else k)
    decreases |script|
  {
    if script == [] {
      assert w.out + [] == w.out && w.lines + [] == w.lines;
    } else {
      var t := WIteration(decode, w, script[0], writes[0]);
      var line, bytes := ReceivedLine(decode, script[0]), PipedBytes(script[0], writes[0]);
      WTurnIsIteration(decode, w, script[0], writes[0]);
      WTurnDoes(decode, w, script[0], writes[0]);
      if t.pc.WReading? {
        var rest, more, k := script[1..], writes[1..], WriterStop(script[1..], writes[1..]);
        WriterOutput(decode, t, rest, more);
        AppendAssociates(w.lines, line, ReceivedLines(decode, rest, k));
        AppendAssociates(w.out, bytes, WrittenBytes(rest, more, if k < |rest| then k + 1 else k));
      } else {
        WRunIdle(decode, t, script[1..], writes[1..]);
        assert w.lines + [] == w.lines;
        assert WrittenBytes(script, writes, 1) == bytes + [] == bytes;
      }
    }
  }

  lemma WriterEnds(decode: Decoder, script: seq<SocketRead>, writes: seq<PipeWrite>)
    requires LegalWrites(script, writes)
    ensures var t, k := WRun(decode, NewStdoutWriter, script, writes), WriterStop(script, writes);
      && t.pc == (if k == |script| then WReading
                  else WPosted(PostedCode(script[k], ReportedCode(decode, 0, script, k))))
      && t.out == WrittenBytes(script, writes, if k < |script| then k + 1 else k)
      && t.lines == ReceivedLines(decode, script, k)
  {
    WriterEnding(decode, NewStdoutWriter, script, writes);
    WriterOutput(decode, NewStdoutWriter, script, writes);
    var k := WriterStop(script, writes);
    var out, lines := WrittenBytes(script, writes, if k < |script| then k + 1 else k), ReceivedLines(decode, script, k);
    assert [] + out == out && [] + lines == lines;
  }

  /** The loop of senderStdout: the exit code kept across iterations is the one it posts on a normal close. */
  method SenderStdout(decode: Decoder, script: seq<SocketRead>, writes: seq<PipeWrite>)
    returns (posted: Option<int>, stdout: seq<byte>, stderr: seq<string>, exitCode: int)
    requires LegalWrites(script, writes)
    ensures var w := WRun(decode, NewStdoutWriter, script, writes);
      && stdout == w.out && stderr == w.lines && exitCode == w.exitCode
      && posted == (if w.pc.WPosted? then Some(w.pc.code) else None)
    ensures var k := WriterStop(script, writes);
      && posted == (if k == |script| then None else Some(PostedCode(script[k], ReportedCode(decode, 0, script, k))))
      && stdout == WrittenBytes(script, writes, if k < |script| then k + 1 else k)
      && stderr == ReceivedLines(decode, script, k)
  {
    posted, stdout, stderr, exitCode := None, [], [], 0;
    ghost var w := NewStdoutWriter;
    var i := 0;
    while i < |script| && posted.None?
      invariant i <= |script|
      invariant stdout == w.out && stderr == w.lines && exitCode == w.exitCode
      invariant if posted.None? then w.pc.WReading? else w.pc == WPosting(posted.value)
      invariant WRun(decode, NewStdoutWriter, script[0..], writes[0..]) == WRun(decode, w, script[i..], writes[i..])
    {
      WRunStep(decode, w, script, writes, i);
      WTurnIsIteration(decode, w, script[i], writes[i]);
      w := WIteration(decode, w, script[i], writes[i]);
      match script[i] {
        case Failed =>
          posted := Some(1);
        case Got(Close(ce)) =>
          posted := Some(if ce.code == STATUS_NORMAL_CLOSURE then exitCode else 1);
        case Got(Binary(msg)) =>
          stdout := stdout + msg[..writes[i].n];
          if !writes[i].ok {
            posted := Some(1);
          }
        case Got(Text(text)) =>
          match decode(text) {
            case Some(ProcessStderr(line)) => stderr := stderr + [line];
            case Some(ServerExited(code, _, _)) => exitCode := if code.Some? then code.value else 1;
            case _ =>
          }
        case Got(Odd) =>
      }
      i := i + 1;
    }
    assert script[0..] == script && writes[0..] == writes;
    if posted.Some? {
      WRunIdle(decode, w, script[i..], writes[i..]);
    }
    WriterEnds(decode, script, writes);
  }
}
