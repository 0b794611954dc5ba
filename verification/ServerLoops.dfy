/** The loops of the server goroutines, each run against a script of what its reads and writes return. Each is a
    sequence of the worker's atomic steps, and equals a loop that only copies. */
module ServerLoops {
  import opened Accumulators
  import opened JsonRpc
  import opened Lines
  import opened Lists
  import opened Oob
  import opened ServerWorkers
  import opened Wire

  // ---------- receiverStdin ----------

  datatype SocketRead = Got(frame: Frame) | Failed

  // A pipe write consumes `n` bytes; it succeeds only if it consumed them all
  datatype PipeWrite = PipeWrite(n: nat, ok: bool)

  predicate LegalWrite(read: SocketRead, w: PipeWrite) {
    read.Got? && read.frame.Binary? ==> w.n <= |read.frame.data| && (w.ok ==> w.n == |read.frame.data|)
  }

  predicate LegalWrites(script: seq<SocketRead>, writes: seq<PipeWrite>) {
    |script| == |writes| && forall k :: 0 <= k < |script| ==> LegalWrite(script[k], writes[k])
  }

  /** One iteration as atomic steps; those that do not apply change nothing. */
  function RTurn(decode: Decoder, r: Receiver, read: SocketRead, w: PipeWrite): Receiver {
    var r1 := RStep(decode, r, if read.Got? then RGot(read.frame) else RReadFailed);
    var r2 := RStep(decode, r1, RAccepted(w.n));
    RStep(decode, r2, if w.ok then RWriteDone else RWriteFailed)
  }

  /** The same iteration in one piece. */
  function RIteration(decode: Decoder, r: Receiver, read: SocketRead, w: PipeWrite): Receiver {
    match read
    case Failed => RFinish(r, Some(CloseError(STATUS_INTERNAL_ERROR, WebSocketReadFailed)))
    case Got(frame) =>
      if !frame.Binary? then RHandle(decode, r, frame)
      else if w.ok then r.(written := r.written + frame.data, fed := r.fed + [frame.data])
      else if w.n <= |frame.data| then
        RFinish(r.(written := r.written + frame.data[..w.n]), Some(CloseError(STATUS_INTERNAL_ERROR, StdinWriteFailed)))
      else r
  }

  lemma RTurnIsIteration(decode: Decoder, r: Receiver, read: SocketRead, w: PipeWrite)
    requires r.pc.RReading? && LegalWrite(read, w)
    ensures RTurn(decode, r, read, w) == RIteration(decode, r, read, w)
    ensures var t := RIteration(decode, r, read, w); t.pc.RReading? || t.pc.RPosting?
  {
    if read.Got? && read.frame.Binary? {
      assert read.frame.data[0..w.n] == read.frame.data[..w.n];
      if w.ok {
        assert read.frame.data[0..w.n] == read.frame.data;
      }
    }
  }

  function RRun(decode: Decoder, r: Receiver, script: seq<SocketRead>, writes: seq<PipeWrite>): Receiver
    requires |script| == |writes|
    decreases |script|
  {
    if script == [] then RStep(decode, RStep(decode, r, RPost), RCloseStdin)
    else RRun(decode, RTurn(decode, r, script[0], writes[0]), script[1..], writes[1..])
  }

  lemma RRunStep(decode: Decoder, r: Receiver, script: seq<SocketRead>, writes: seq<PipeWrite>, i: nat)
    requires |script| == |writes| && i < |script| && r.pc.RReading? && LegalWrite(script[i], writes[i])
    ensures RRun(decode, r, script[i..], writes[i..]) ==
      RRun(decode, RIteration(decode, r, script[i], writes[i]), script[i + 1..], writes[i + 1..])
  {
    RTurnIsIteration(decode, r, script[i], writes[i]);
    assert script[i..][1..] == script[i + 1..] && writes[i..][1..] == writes[i + 1..];
  }

  lemma {:induction false} RRunIdle(decode: Decoder, r: Receiver, script: seq<SocketRead>, writes: seq<PipeWrite>)
    requires r.pc.RPosting? && |script| == |writes|
    ensures RRun(decode, r, script, writes) == r.(pc := RClosed(r.pc.result))
    decreases |script|
  {
    if script != [] {
      RRunIdle(decode, r, script[1..], writes[1..]);
    }
  }

  /** What the request accumulator reports for a sequence of messages. */
  function ObservedRequests(pending: seq<byte>, fed: seq<seq<byte>>, parse: RequestParser): seq<Observation<Request>>
    decreases |fed|
  {
    if fed == [] then []
    else
      var front := fed[..|fed| - 1];
      ObservedRequests(pending, front, parse) +
      [ObserveRequest(LineOf(PendingAfterAll(pending, front), fed[|fed| - 1]), parse)]
  }

  lemma ObservedSnoc(pending: seq<byte>, fed: seq<seq<byte>>, msg: seq<byte>, parse: RequestParser)
    ensures ObservedRequests(pending, fed + [msg], parse) ==
      ObservedRequests(pending, fed, parse) + [ObserveRequest(LineOf(PendingAfterAll(pending, fed), msg), parse)]
  {
    assert (fed + [msg])[..|fed|] == fed;
  }

  lemma {:induction false} PendingSnoc(pending: seq<byte>, fed: seq<seq<byte>>, msg: seq<byte>)
    ensures PendingAfterAll(pending, fed + [msg]) == PendingAfter(PendingAfterAll(pending, fed), msg)
    decreases |fed|
  {
    if fed == [] {
      assert fed + [msg] == [msg];
    } else {
      PendingSnoc(PendingAfter(pending, fed[0]), fed[1..], msg);
      assert (fed + [msg])[1..] == fed[1..] + [msg];
    }
  }

  /** The observations that are about a line. */
  function Decided(observed: seq<Observation<Request>>): seq<Observation<Request>> {
    if observed == [] then []
    else
      var last := observed[|observed| - 1];
      Decided(observed[..|observed| - 1]) + (if last.Incomplete? then [] else [last])
  }

  function Verdicts(lines: seq<seq<byte>>, parse: RequestParser): (r: seq<Observation<Request>>)
    ensures |r| == |lines| && forall i :: 0 <= i < |lines| ==> r[i] == ObserveRequest(Some(lines[i]), parse)
  {
    seq(|lines|, i requires 0 <= i < |lines| => ObserveRequest(Some(lines[i]), parse))
  }

  lemma DecidedSnoc(observed: seq<Observation<Request>>, o: Observation<Request>)
    ensures Decided(observed + [o]) == Decided(observed) + (if o.Incomplete? then [] else [o])
  {
    assert (observed + [o])[..|observed|] == observed;
  }

  lemma ReportedSnoc(fed: seq<seq<byte>>, msg: seq<byte>)
    ensures Reported([], fed + [msg]) == Reported([], fed) + Head(CallLines(PendingAfterAll([], fed), msg))
  {
    var pending := PendingAfterAll([], fed);
    ReportedConcat([], fed, [msg]);
    ReportedCons(pending, msg, []);
    assert [msg] + [] == [msg];
    assert Head(CallLines(pending, msg)) + [] == Head(CallLines(pending, msg));
  }

  lemma VerdictsOneMore(lines: seq<seq<byte>>, ls: seq<seq<byte>>, parse: RequestParser)
    ensures Verdicts(lines + Head(ls), parse) ==
      Verdicts(lines, parse) + (if ls == [] then [] else [ObserveRequest(Some(ls[0]), parse)])
  {
  }

  /** What the loop observes is its verdict on each reported line, in order. */
  lemma {:induction false} ObservedAreReported(fed: seq<seq<byte>>, parse: RequestParser)
    ensures Decided(ObservedRequests([], fed, parse)) == Verdicts(Reported([], fed), parse)
    decreases |fed|
  {
    if fed != [] {
      var front, msg := fed[..|fed| - 1], fed[|fed| - 1];
      ObservedAreReported(front, parse);
      assert fed == front + [msg];
      ObservedSnoc([], front, msg, parse);
      ReportedSnoc(front, msg);
      var pending := PendingAfterAll([], front);
      VerdictsOneMore(Reported([], front), CallLines(pending, msg), parse);
      DecidedSnoc(ObservedRequests([], front, parse), ObserveRequest(LineOf(pending, msg), parse));
    }
  }

  /** The reads after which the loop stops. */
  predicate ReceiverStops(decode: Decoder, read: SocketRead, w: PipeWrite) {
    match read
    case Failed => true
    case Got(Close(_)) => true
    case Got(Odd) => true
    case Got(Binary(_)) => !w.ok
    case Got(Text(text)) => decode(text).None? || decode(text).value.Shutdown?
  }

  /** What it posts then: 1000 for the shutdown message, 1003 for a message it cannot use, nil for a socket that is
      closed already, 1011 for a failure. */
  predicate ReceiverPosts(decode: Decoder, read: SocketRead, result: Instruction) {
    match read
    case Failed => result == Some(CloseError(1011, WebSocketReadFailed))
    case Got(Close(_)) => result == None
    case Got(Odd) => result == Some(CloseError(1003, BadMessageType))
    case Got(Binary(_)) => result == Some(CloseError(1011, StdinWriteFailed))
    case Got(Text(text)) =>
      result == Some(if decode(text).None? then CloseError(1003, BadOoBMessage)
                     else CloseError(1000, ShutdownAcknowledged))
  }

  /** The first read that stops the loop, or the end of the script. */
  function ReceiverStop(decode: Decoder, script: seq<SocketRead>, writes: seq<PipeWrite>): (k: nat)
    requires |script| == |writes|
    ensures k <= |script|
    decreases |script|
  {
    if script == [] || ReceiverStops(decode, script[0], writes[0]) then 0
    else 1 + ReceiverStop(decode, script[1..], writes[1..])
  }

  /** The bytes of a message that a write put into its pipe. */
  function PipedBytes(read: SocketRead, w: PipeWrite): seq<byte>
    requires LegalWrite(read, w)
  {
    if read.Got? && read.frame.Binary? then read.frame.data[..w.n] else []
  }

  function WrittenBytes(script: seq<SocketRead>, writes: seq<PipeWrite>, n: nat): seq<byte>
    requires LegalWrites(script, writes) && n <= |script|
    decreases n
  {
    if n == 0 then [] else PipedBytes(script[0], writes[0]) + WrittenBytes(script[1..], writes[1..], n - 1)
  }

  /** How the worker's steps end: at the first read that stops them. */
  lemma {:induction false} ReceiverEnding(decode: Decoder, r: Receiver, script: seq<SocketRead>, writes: seq<PipeWrite>)
    requires LegalWrites(script, writes) && r.pc.RReading?
    ensures var t, k := RRun(decode, r, script, writes), ReceiverStop(decode, script, writes);
      if k == |script| then t.pc.RReading? && t.written == r.written + WrittenBytes(script, writes, k)
      else
        && t.pc.RClosed? && ReceiverPosts(decode, script[k], t.pc.result)
        && t.written == r.written + WrittenBytes(script, writes, k + 1)
    decreases |script|
  {
    if script == [] {
      assert r.written + [] == r.written;
    } else {
      var t := RIteration(decode, r, script[0], writes[0]);
      var bytes := PipedBytes(script[0], writes[0]);
      RTurnIsIteration(decode, r, script[0], writes[0]);
      TurnWrites(decode, r, script[0], writes[0]);
      if t.pc.RReading? {
        ReceiverEnding(decode, t, script[1..], writes[1..]);
        var k := ReceiverStop(decode, script[1..], writes[1..]);
        AppendAssociates(r.written, bytes,
                         WrittenBytes(script[1..], writes[1..], if k < |script| - 1 then k + 1 else k));
      } else {
        RRunIdle(decode, t, script[1..], writes[1..]);
        assert WrittenBytes(script, writes, 1) == bytes + [] == bytes;
      }
    }
  }

  lemma TurnWrites(decode: Decoder, r: Receiver, read: SocketRead, w: PipeWrite)
    requires r.pc.RReading? && LegalWrite(read, w)
    ensures var t := RIteration(decode, r, read, w);
      && t.written == r.written + PipedBytes(read, w)
      && (if ReceiverStops(decode, read, w) then t.pc.RPosting? && ReceiverPosts(decode, read, t.pc.result)
          else t.pc.RReading?)
  {
    assert r.written + [] == r.written;
    if read.Got? && read.frame.Binary? && w.ok {
      assert read.frame.data[..w.n] == read.frame.data;
    }
  }

  /** The loop of receiverStdin. What it writes and posts does not depend on the request parser: it stops at the first
      read that stops it, and has written what it read. */
  method ReceiverStdin(decode: Decoder, parse: RequestParser, script: seq<SocketRead>, writes: seq<PipeWrite>)
    returns (posted: Option<Instruction>, stdin: seq<byte>, observed: seq<Observation<Request>>)
    requires LegalWrites(script, writes)
    ensures var r := RRun(decode, NewReceiver, script, writes);
      && stdin == r.written
      && posted == (if r.pc.RClosed? then Some(r.pc.result) else None)
      && observed == ObservedRequests([], r.fed, parse)
    ensures var k := ReceiverStop(decode, script, writes);
      && (posted.None? <==> k == |script|)
      && (posted.Some? ==> ReceiverPosts(decode, script[k], posted.value))
      && stdin == WrittenBytes(script, writes, if posted.Some? then k + 1 else k)
  {
    var accumulator := new Accumulator();
    posted, stdin, observed := None, [], [];
    ghost var r := NewReceiver;
    var i := 0;
    while i < |script| && posted.None?
      invariant i <= |script|
      invariant accumulator.Valid() && fresh(accumulator.commandBuffer) && fresh(accumulator.commandBuffer.buf)
      invariant accumulator.Pending() == PendingAfterAll([], r.fed)
      invariant stdin == r.written && observed == ObservedRequests([], r.fed, parse)
      invariant if posted.None? then r.pc.RReading? else r.pc == RPosting(posted.value)
      invariant RRun(decode, NewReceiver, script[0..], writes[0..]) == RRun(decode, r, script[i..], writes[i..])
    {
      ghost var before := r;
      RRunStep(decode, r, script, writes, i);
      r := RIteration(decode, r, script[i], writes[i]);
      match script[i] {
        case Failed =>
          posted := Some(Some(CloseError(STATUS_INTERNAL_ERROR, WebSocketReadFailed)));
        case Got(Close(_)) =>
          posted := Some(None);
        case Got(Binary(msg)) =>
          stdin := stdin + msg[..writes[i].n];
          if !writes[i].ok {
            posted := Some(Some(CloseError(STATUS_INTERNAL_ERROR, StdinWriteFailed)));
          } else {
            assert msg[..writes[i].n] == msg;
            ObservedSnoc([], before.fed, msg, parse);
            PendingSnoc([], before.fed, msg);
            var request := accumulator.AccumulateRequest(msg, parse);
            observed := observed + [request];
          }
        case Got(Text(text)) =>
          var oobMsg := decode(text);
          if oobMsg.None? {
            posted := Some(Some(CloseError(STATUS_UNSUPPORTED_DATA, BadOoBMessage)));
          } else if oobMsg.value.Shutdown? {
            posted := Some(Some(CloseError(STATUS_NORMAL_CLOSURE, ShutdownAcknowledged)));
          }
        case Got(Odd) =>
          posted := Some(Some(CloseError(STATUS_UNSUPPORTED_DATA, BadMessageType)));
      }
      i := i + 1;
    }
    assert script[0..] == script && writes[0..] == writes;
    if posted.Some? {
      RRunIdle(decode, r, script[i..], writes[i..]);
    }
    ReceiverEnding(decode, NewReceiver, script, writes);
  }

  /** A loop that only copies messages to the pipe. */
  function PlainReceive(decode: Decoder, script: seq<SocketRead>, writes: seq<PipeWrite>)
    : (seq<byte>, Option<Instruction>)
    requires LegalWrites(script, writes)
    decreases |script|
  {
    if script == [] then ([], None)
    else
      match script[0]
      case Failed => ([], Some(Some(CloseError(STATUS_INTERNAL_ERROR, WebSocketReadFailed))))
      case Got(Close(_)) => ([], Some(None))
      case Got(Odd) => ([], Some(Some(CloseError(STATUS_UNSUPPORTED_DATA, BadMessageType))))
      case Got(Text(text)) =>
        var p := decode(text);
        if p.None? then ([], Some(Some(CloseError(STATUS_UNSUPPORTED_DATA, BadOoBMessage))))
        else if p.value.Shutdown? then ([], Some(Some(CloseError(STATUS_NORMAL_CLOSURE, ShutdownAcknowledged))))
        else PlainReceive(decode, script[1..], writes[1..])
      case Got(Binary(msg)) =>
        if !writes[0].ok then (msg[..writes[0].n], Some(Some(CloseError(STATUS_INTERNAL_ERROR, StdinWriteFailed))))
        else
          var rest := PlainReceive(decode, script[1..], writes[1..]);
          (msg + rest.0, rest.1)
  }

  /** receiverStdin forwards like the plain copy loop, whatever the accumulator does. */
  lemma {:induction false} ReceiverIsPlainCopy(decode: Decoder, r: Receiver, script: seq<SocketRead>,
                                               writes: seq<PipeWrite>)
    requires LegalWrites(script, writes) && r.pc.RReading?
    ensures var t, p := RRun(decode, r, script, writes), PlainReceive(decode, script, writes);
      && t.written == r.written + p.0
      && (if p.1.None? then t.pc.RReading? else t.pc == RClosed(p.1.value))
    decreases |script|
  {
    if script != [] {
      var t := RIteration(decode, r, script[0], writes[0]);
      RTurnIsIteration(decode, r, script[0], writes[0]);
      if t.pc.RReading? {
        ReceiverIsPlainCopy(decode, t, script[1..], writes[1..]);
        if script[0].frame.Binary? {
          AppendAssociates(r.written, script[0].frame.data, PlainReceive(decode, script[1..], writes[1..]).0);
        }
      } else {
        RRunIdle(decode, t, script[1..], writes[1..]);
      }
    }
  }

  // ---------- senderStdout ----------

  datatype PipeRead = PipeRead(data: seq<byte>, err: ReadError)

  predicate LegalReads(script: seq<PipeRead>, sends: seq<SendOutcome>) {
    |script| == |sends| && forall k :: 0 <= k < |script| ==> |script[k].data| <= BINARY_FRAME_MAX_SIZE
  }

  function OTurn(parse: ResponseParser, s: StdoutSender, read: PipeRead, o: SendOutcome): StdoutSender {
    OStep(parse, OStep(parse, s, ORead(read.data, read.err)), OWrote(o))
  }

  /** The same iteration in one piece. */
  function OIteration(parse: ResponseParser, s: StdoutSender, read: PipeRead, o: SendOutcome): StdoutSender {
    if read.data == [] then OAfter(s, read.err)
    else
      var t := s.(read := s.read + read.data);
      match o
      case Sent => OAfter(t.(fed := t.fed + [read.data]), Rejection(parse, s.fed, read.data))
      case Lost(status) => OFinish(t.(dropped := read.data), SendFailure(status))
      case Doubtful(status) => OFinish(t, SendFailure(status))
  }

  lemma OTurnIsIteration(parse: ResponseParser, s: StdoutSender, read: PipeRead, o: SendOutcome)
    requires s.pc.OReading? && |read.data| <= BINARY_FRAME_MAX_SIZE
    ensures OTurn(parse, s, read, o) == OIteration(parse, s, read, o)
    ensures var t := OIteration(parse, s, read, o); t.pc.OReading? || t.pc.OPosting?
  {
  }

  function ORun(parse: ResponseParser, s: StdoutSender, script: seq<PipeRead>, sends: seq<SendOutcome>): StdoutSender
    requires |script| == |sends|
    decreases |script|
  {
    if script == [] then OStep(parse, OStep(parse, s, OPost), OClosePipe)
    else ORun(parse, OTurn(parse, s, script[0], sends[0]), script[1..], sends[1..])
  }

  lemma {:induction false} ORunIdle(parse: ResponseParser, s: StdoutSender, script: seq<PipeRead>,
                                    sends: seq<SendOutcome>)
    requires s.pc.OPosting? && |script| == |sends|
    ensures ORun(parse, s, script, sends) == s.(pc := OClosed(s.pc.result))
    decreases |script|
  {
    if script != [] {
      ORunIdle(parse, s, script[1..], sends[1..]);
    }
  }

  lemma WireGrows(wire: seq<Frame>, chunk: seq<byte>, o: SendOutcome)
    ensures Bytes(Put(wire, Binary(chunk), o)) + (if o.Lost? then chunk else []) == Bytes(wire) + chunk
  {
    assert (wire + [Binary(chunk)])[..|wire|] == wire;
  }

  /** The worker's steps, with the frames they put on the wire. */
  function ORunOn(parse: ResponseParser, wire: seq<Frame>, s: StdoutSender, script: seq<PipeRead>,
                  sends: seq<SendOutcome>): (seq<Frame>, StdoutSender)
    requires |script| == |sends|
    decreases |script|
  {
    if script == [] then (wire, OStep(parse, OStep(parse, s, OPost), OClosePipe))
    else
      var s1 := OStep(parse, s, ORead(script[0].data, script[0].err));
      ORunOn(parse, if s1.pc.OSending? then Put(wire, Binary(s1.pc.chunk), sends[0]) else wire,
             OStep(parse, s1, OWrote(sends[0])), script[1..], sends[1..])
  }

  lemma {:induction false} ORunOnRuns(parse: ResponseParser, wire: seq<Frame>, s: StdoutSender, script: seq<PipeRead>,
                                      sends: seq<SendOutcome>)
    requires |script| == |sends|
    ensures ORunOn(parse, wire, s, script, sends).1 == ORun(parse, s, script, sends)
    decreases |script|
  {
    if script != [] {
      var s1 := OStep(parse, s, ORead(script[0].data, script[0].err));
      ORunOnRuns(parse, if s1.pc.OSending? then Put(wire, Binary(s1.pc.chunk), sends[0]) else wire,
                 OStep(parse, s1, OWrote(sends[0])), script[1..], sends[1..]);
    }
  }

  function WireAfter(wire: seq<Frame>, read: PipeRead, o: SendOutcome): seq<Frame> {
    if read.data == [] then wire else Put(wire, Binary(read.data), o)
  }

  lemma ORunOnFirst(parse: ResponseParser, wire: seq<Frame>, s: StdoutSender, script: seq<PipeRead>,
                    sends: seq<SendOutcome>)
    requires LegalReads(script, sends) && script != [] && s.pc.OReading?
    ensures ORunOn(parse, wire, s, script, sends) ==
      ORunOn(parse, WireAfter(wire, script[0], sends[0]), OIteration(parse, s, script[0], sends[0]),
             script[1..], sends[1..])
  {
    OTurnIsIteration(parse, s, script[0], sends[0]);
  }

  lemma ORunOnStep(parse: ResponseParser, wire: seq<Frame>, s: StdoutSender, script: seq<PipeRead>,
                   sends: seq<SendOutcome>, i: nat)
    requires LegalReads(script, sends) && i < |script| && s.pc.OReading?
    ensures ORunOn(parse, wire, s, script[i..], sends[i..]) ==
      ORunOn(parse, WireAfter(wire, script[i], sends[i]), OIteration(parse, s, script[i], sends[i]),
             script[i + 1..], sends[i + 1..])
  {
    ORunOnFirst(parse, wire, s, script[i..], sends[i..]);
    assert script[i..][1..] == script[i + 1..] && sends[i..][1..] == sends[i + 1..];
  }

  lemma {:induction false} ORunOnIdle(parse: ResponseParser, wire: seq<Frame>, s: StdoutSender, script: seq<PipeRead>,
                                      sends: seq<SendOutcome>)
    requires s.pc.OPosting? && |script| == |sends|
    ensures ORunOn(parse, wire, s, script, sends) == (wire, s.(pc := OClosed(s.pc.result)))
    decreases |script|
  {
    if script != [] {
      ORunOnIdle(parse, wire, s, script[1..], sends[1..]);
    }
  }

  /** What is on the wire and what a failed send lost are all that was read. */
  lemma {:induction false} WireConserves(parse: ResponseParser, wire: seq<Frame>, s: StdoutSender,
                                         script: seq<PipeRead>, sends: seq<SendOutcome>)
    requires LegalReads(script, sends) && s.pc.OReading? && s.dropped == [] && Bytes(wire) == s.read
    ensures var (w, t) := ORunOn(parse, wire, s, script, sends); Bytes(w) + t.dropped == t.read
    decreases |script|
  {
    if script == [] {
      assert Bytes(wire) + [] == Bytes(wire);
    } else {
      var t, w := OIteration(parse, s, script[0], sends[0]), WireAfter(wire, script[0], sends[0]);
      ORunOnFirst(parse, wire, s, script, sends);
      TurnConserves(parse, wire, s, script[0], sends[0]);
      if t.pc.OReading? {
        WireConserves(parse, w, t, script[1..], sends[1..]);
      } else {
        ORunOnIdle(parse, w, t, script[1..], sends[1..]);
      }
    }
  }

  lemma TurnConserves(parse: ResponseParser, wire: seq<Frame>, s: StdoutSender, read: PipeRead, o: SendOutcome)
    requires s.pc.OReading? && s.dropped == [] && Bytes(wire) == s.read
    ensures var t := OIteration(parse, s, read, o);
      && Bytes(WireAfter(wire, read, o)) + t.dropped == t.read
      && (t.pc.OReading? ==> t.dropped == [] && Bytes(WireAfter(wire, read, o)) == t.read)
      && (t.pc.OReading? || t.pc.OPosting?)
  {
    if read.data == [] {
      assert s.read + [] == s.read;
    } else {
      WireGrows(wire, read.data, o);
      assert s.read + read.data + [] == s.read + read.data;
    }
  }

  /** A JSON-RPC response with a result or an error and not both. */
  predicate IsResponse(parse: ResponseParser, line: seq<byte>) {
    parse(line).Some? &&
    var r := parse(line).value; r.jsonrpc == "2.0" && (r.result != [] <==> r.error.None?)
  }

  /** After the chunks in `sent`, this one completes a line, and the first it completes is not a response. */
  predicate CompletesOther(parse: ResponseParser, sent: seq<seq<byte>>, chunk: seq<byte>) {
    var line := LineOf(PendingAfterAll([], sent), chunk);
    line.Some? && !IsResponse(parse, line.value)
  }

  /** The reads after which the loop stops. */
  predicate SenderStops(parse: ResponseParser, sent: seq<seq<byte>>, read: PipeRead, o: SendOutcome) {
    if read.data == [] then read.err != NoError else !o.Sent? || CompletesOther(parse, sent, read.data)
  }

  /** What it posts then: 1000 at the end of the output or when its pipe was closed, nil when the socket is closed
      already, 1011 for a failure, and also after a chunk that completes anything but a response. */
  predicate SenderPosts(read: PipeRead, o: SendOutcome, result: Instruction) {
    if read.data == [] then
      match read.err
      case EndOfFile => result == Some(CloseError(1000, StdoutEOF))
      case ClosedPipe => result == Some(CloseError(1000, StdoutPipeClosed))
      case _ => result == Some(CloseError(1011, StdoutReadFailed))
    else if o.Sent? then result == Some(CloseError(1011, StdoutReadFailed))
    else result == if o.status == -1 then Some(CloseError(1011, WebSocketWriteFailed)) else None
  }

  function SentChunk(read: PipeRead, o: SendOutcome): seq<seq<byte>> {
    if read.data != [] && o.Sent? then [read.data] else []
  }

  /** The first read that stops the loop, or the end of the script. */
  function SenderStop(parse: ResponseParser, sent: seq<seq<byte>>, script: seq<PipeRead>, sends: seq<SendOutcome>)
    : (k: nat)
    requires |script| == |sends|
    ensures k <= |script|
    decreases |script|
  {
    if script == [] || SenderStops(parse, sent, script[0], sends[0]) then 0
    else 1 + SenderStop(parse, sent + SentChunk(script[0], sends[0]), script[1..], sends[1..])
  }

  /** The chunks sent with the first `n` reads. */
  function SentChunks(script: seq<PipeRead>, sends: seq<SendOutcome>, n: nat): seq<seq<byte>>
    requires n <= |script| == |sends|
    decreases n
  {
    if n == 0 then [] else SentChunk(script[0], sends[0]) + SentChunks(script[1..], sends[1..], n - 1)
  }

  /** How the worker's steps end: at the first read that stops them. */
  lemma {:induction false} SenderEnding(parse: ResponseParser, s: StdoutSender, script: seq<PipeRead>,
                                        sends: seq<SendOutcome>)
    requires LegalReads(script, sends) && s.pc.OReading?
    ensures var t, k := ORun(parse, s, script, sends), SenderStop(parse, s.fed, script, sends);
      if k == |script| then t.pc.OReading? && t.fed == s.fed + SentChunks(script, sends, k)
      else
        && t.pc.OClosed? && SenderPosts(script[k], sends[k], t.pc.result)
        && t.fed == s.fed + SentChunks(script, sends, k + 1)
    decreases |script|
  {
    if script == [] {
      assert s.fed + [] == s.fed;
    } else {
      var t := OIteration(parse, s, script[0], sends[0]);
      OTurnIsIteration(parse, s, script[0], sends[0]);
      TurnSends(parse, s, script[0], sends[0]);
      if t.pc.OReading? {
        SenderEnding(parse, t, script[1..], sends[1..]);
        var k := SenderStop(parse, t.fed, script[1..], sends[1..]);
        AppendAssociates(s.fed, SentChunk(script[0], sends[0]),
                         SentChunks(script[1..], sends[1..], if k < |script| - 1 then k + 1 else k));
      } else {
        ORunIdle(parse, t, script[1..], sends[1..]);
        var c := SentChunk(script[0], sends[0]);
        assert SentChunks(script, sends, 1) == c + [] == c;
      }
    }
  }

  lemma TurnSends(parse: ResponseParser, s: StdoutSender, read: PipeRead, o: SendOutcome)
    requires s.pc.OReading?
    ensures var t := OIteration(parse, s, read, o);
      && t.fed == s.fed + SentChunk(read, o)
      && (if SenderStops(parse, s.fed, read, o) then t.pc.OPosting? && SenderPosts(read, o, t.pc.result)
          else t.pc.OReading?)
  {
    assert s.fed + [] == s.fed;
  }

  /** While reads and sends succeed and every chunk that completes a line completes a response first, every chunk is
      sent and nothing is posted. */
  lemma ResponsesAreForwarded(parse: ResponseParser, script: seq<PipeRead>, sends: seq<SendOutcome>)
    requires LegalReads(script, sends)
    requires forall k :: 0 <= k < |script| ==> sends[k].Sent? && (script[k].data == [] ==> script[k].err == NoError)
    requires forall k :: 0 <= k < |script| && script[k].data != [] ==>
      var line := LineOf(PendingAfterAll([], SentChunks(script, sends, k)), script[k].data);
      line.Some? ==> IsResponse(parse, line.value)
    ensures var t := ORun(parse, NewStdoutSender, script, sends);
      t.pc.OReading? && t.fed == SentChunks(script, sends, |script|)
  {
    forall k | 0 <= k < |script|
      ensures !SenderStops(parse, [] + SentChunks(script, sends, k), script[k], sends[k])
    {
      assert [] + SentChunks(script, sends, k) == SentChunks(script, sends, k);
    }
    NothingStops(parse, [], script, sends);
    SenderEnding(parse, NewStdoutSender, script, sends);
  }

  lemma {:induction false} NothingStops(parse: ResponseParser, sent: seq<seq<byte>>, script: seq<PipeRead>,
                                        sends: seq<SendOutcome>)
    requires |script| == |sends|
    requires forall k :: 0 <= k < |script| ==>
      !SenderStops(parse, sent + SentChunks(script, sends, k), script[k], sends[k])
    ensures SenderStop(parse, sent, script, sends) == |script|
    decreases |script|
  {
    if script != [] {
      var rest, more, chunk := script[1..], sends[1..], SentChunk(script[0], sends[0]);
      assert sent + SentChunks(script, sends, 0) == sent;
      assert !SenderStops(parse, sent + SentChunks(script, sends, 0), script[0], sends[0]);
      forall k | 0 <= k < |rest|
        ensures !SenderStops(parse, sent + chunk + SentChunks(rest, more, k), rest[k], more[k])
      {
        AppendAssociates(sent, chunk, SentChunks(rest, more, k));
        assert !SenderStops(parse, sent + SentChunks(script, sends, k + 1), script[k + 1], sends[k + 1]);
      }
      NothingStops(parse, sent + chunk, rest, more);
    }
  }

  /** The loop of senderStdout, with its one error variable for the read and for the accumulator: it stops at the
      first read that stops it, and has sent every chunk whose send succeeded. */
  method SenderStdout(parse: ResponseParser, script: seq<PipeRead>, sends: seq<SendOutcome>)
    returns (posted: Option<Instruction>, wire: seq<Frame>, sent: seq<seq<byte>>)
    requires LegalReads(script, sends)
    ensures var (w, s) := ORunOn(parse, [], NewStdoutSender, script, sends);
      wire == w && sent == s.fed && posted == (if s.pc.OClosed? then Some(s.pc.result) else None)
    ensures var k := SenderStop(parse, [], script, sends);
      && (posted.None? <==> k == |script|)
      && (posted.Some? ==> SenderPosts(script[k], sends[k], posted.value))
      && sent == SentChunks(script, sends, if posted.Some? then k + 1 else k)
  {
    var accumulator := new Accumulator();
    posted, wire, sent := None, [], [];
    ghost var s := NewStdoutSender;
    var i := 0;
    while i < |script| && posted.None?
      invariant i <= |script|
      invariant accumulator.Valid() && fresh(accumulator.commandBuffer) && fresh(accumulator.commandBuffer.buf)
      invariant accumulator.Pending() == PendingAfterAll([], sent)
      invariant sent == s.fed
      invariant if posted.None? then s.pc.OReading? else s.pc == OPosting(posted.value)
      invariant ORunOn(parse, [], NewStdoutSender, script[0..], sends[0..])
             == ORunOn(parse, wire, s, script[i..], sends[i..])
    {
      ORunOnStep(parse, wire, s, script, sends, i);
      s := OIteration(parse, s, script[i], sends[i]);
      var buf, err := script[i].data, script[i].err;
      if |buf| > 0 {
        wire := Put(wire, Binary(buf), sends[i]);
        match sends[i] {
          case Lost(status) => posted := Some(SendFailure(status));
          case Doubtful(status) => posted := Some(SendFailure(status));
          case Sent =>
            PendingSnoc([], sent, buf);
            var response := accumulator.AccumulateResponse(buf, parse);
            err := if response.Failed? then OtherError else NoError;
            sent := sent + [buf];
        }
      }
      if posted.None? && err != NoError {
        match err {
          case EndOfFile => posted := Some(Some(CloseError(STATUS_NORMAL_CLOSURE, StdoutEOF)));
          case ClosedPipe => posted := Some(Some(CloseError(STATUS_NORMAL_CLOSURE, StdoutPipeClosed)));
          case OtherError => posted := Some(Some(CloseError(STATUS_INTERNAL_ERROR, StdoutReadFailed)));
        }
      }
      i := i + 1;
    }
    assert script[0..] == script && sends[0..] == sends;
    if posted.Some? {
      ORunOnIdle(parse, wire, s, script[i..], sends[i..]);
    }
    ORunOnRuns(parse, [], NewStdoutSender, script, sends);
    SenderEnding(parse, NewStdoutSender, script, sends);
  }

  /** senderStdout without its accumulator, a loop that only copies chunks to the socket: the chunks sent, and what it
      would post. */
  function PlainSend(script: seq<PipeRead>, sends: seq<SendOutcome>): (seq<seq<byte>>, Option<Instruction>)
    requires |script| == |sends|
    decreases |script|
  {
    if script == [] then ([], None)
    else
      var chunk, err := script[0].data, script[0].err;
      if chunk != [] && !sends[0].Sent? then ([], Some(SendFailure(sends[0].status)))
      else if err != NoError then (if chunk == [] then [] else [chunk], Some(ReadEnd(err)))
      else
        var rest := PlainSend(script[1..], sends[1..]);
        (if chunk == [] then rest.0 else [chunk] + rest.0, rest.1)
  }

  /** The worker sent and posted what the plain loop did. */
  ghost predicate Same(t: StdoutSender, fed: seq<seq<byte>>, p: (seq<seq<byte>>, Option<Instruction>)) {
    t.fed == fed + p.0 && (if p.1.None? then t.pc.OReading? else t.pc == OClosed(p.1.value))
  }

  lemma SameOneMore(t: StdoutSender, fed: seq<seq<byte>>, chunk: seq<byte>, p: (seq<seq<byte>>, Option<Instruction>))
    ensures Same(t, fed + [chunk], p) <==> Same(t, fed, ([chunk] + p.0, p.1))
  {
    AppendAssociates(fed, [chunk], p.0);
  }

  // ---------- what the shared error variable does ----------

  /** The reads as the loop acts on them: with a chunk that was sent, it sees the accumulator's error in place of the
      error of the read. */
  function Overwritten(parse: ResponseParser, fed: seq<seq<byte>>, script: seq<PipeRead>, sends: seq<SendOutcome>)
    : (r: seq<PipeRead>)
    requires |script| == |sends|
    ensures |r| == |script|
    decreases |script|
  {
    if script == [] then []
    else
      var chunk := script[0].data;
      if chunk == [] || !sends[0].Sent? then [script[0]] + Overwritten(parse, fed, script[1..], sends[1..])
      else
        [PipeRead(chunk, Rejection(parse, fed, chunk))] + Overwritten(parse, fed + [chunk], script[1..], sends[1..])
  }

  lemma PlainSendStep(read: PipeRead, script: seq<PipeRead>, sends: seq<SendOutcome>)
    requires |sends| == |script| + 1
    ensures PlainSend([read] + script, sends) ==
      var rest := PlainSend(script, sends[1..]);
      if read.data != [] && !sends[0].Sent? then ([], Some(SendFailure(sends[0].status)))
      else if read.err != NoError then (if read.data == [] then [] else [read.data], Some(ReadEnd(read.err)))
      else (if read.data == [] then rest.0 else [read.data] + rest.0, rest.1)
  {
    assert ([read] + script)[1..] == script;
  }

  /** On every script senderStdout is the plain copy loop over the overwritten reads. */
  lemma {:induction false} SenderCopiesOverwritten(parse: ResponseParser, s: StdoutSender, script: seq<PipeRead>,
                                                   sends: seq<SendOutcome>)
    requires LegalReads(script, sends) && s.pc.OReading?
    ensures Same(ORun(parse, s, script, sends), s.fed, PlainSend(Overwritten(parse, s.fed, script, sends), sends))
    decreases |script|
  {
    if script == [] {
      assert s.fed + [] == s.fed;
    } else {
      var read, o := script[0], sends[0];
      var t := OIteration(parse, s, read, o);
      OTurnIsIteration(parse, s, read, o);
      var seen := Overwritten(parse, s.fed, script, sends)[0];
      var rest := Overwritten(parse, t.fed, script[1..], sends[1..]);
      assert Overwritten(parse, s.fed, script, sends) == [seen] + rest;
      PlainSendStep(seen, rest, sends);
      if t.pc.OReading? {
        SenderCopiesOverwritten(parse, t, script[1..], sends[1..]);
        if read.data != [] {
          SameOneMore(ORun(parse, t, script[1..], sends[1..]), s.fed, read.data, PlainSend(rest, sends[1..]));
        }
      } else {
        ORunIdle(parse, t, script[1..], sends[1..]);
        assert s.fed + [] == s.fed;
      }
    }
  }

  /** Apart from empty reads, the next read fails with `err`. */
  predicate FailsNext(script: seq<PipeRead>, err: ReadError)
    decreases |script|
  {
    script != [] && script[0].data == [] &&
    (if script[0].err == NoError then FailsNext(script[1..], err) else script[0].err == err)
  }

  /** When the overwriting does no harm: each chunk sent completes no rejected line exactly if its read reported no
      error; or, at the first chunk where the two errors differ, the one that is acted on wrongly is the one the next
      read reports, so that both loops stop with it and with no further chunk. */
  predicate Harmless(parse: ResponseParser, fed: seq<seq<byte>>, script: seq<PipeRead>, sends: seq<SendOutcome>)
    requires |script| == |sends|
    decreases |script|
  {
    if script == [] then true
    else
      var chunk, err := script[0].data, script[0].err;
      if chunk == [] then err != NoError || Harmless(parse, fed, script[1..], sends[1..])
      else if !sends[0].Sent? then true
      else
        var verdict := Rejection(parse, fed, chunk);
        if verdict == err then err != NoError || Harmless(parse, fed + [chunk], script[1..], sends[1..])
        else if err == NoError then FailsNext(script[1..], verdict)
        else verdict == NoError && FailsNext(script[1..], err)
  }

  lemma {:induction false} PlainFailsNext(script: seq<PipeRead>, sends: seq<SendOutcome>, err: ReadError)
    requires |script| == |sends| && err != NoError
    ensures PlainSend(script, sends) == ([], Some(ReadEnd(err))) <==> FailsNext(script, err)
    decreases |script|
  {
    if script != [] && script[0].data == [] && script[0].err == NoError {
      PlainFailsNext(script[1..], sends[1..], err);
    }
  }

  /** senderStdout sends and posts what the plain copy loop does if and only if the overwriting is harmless. */
  lemma {:induction false} SenderIsPlainCopyExactly(parse: ResponseParser, s: StdoutSender, script: seq<PipeRead>,
                                                    sends: seq<SendOutcome>)
    requires LegalReads(script, sends) && s.pc.OReading?
    ensures Same(ORun(parse, s, script, sends), s.fed, PlainSend(script, sends)) <==>
      Harmless(parse, s.fed, script, sends)
    decreases |script|
  {
    if script == [] {
      assert s.fed + [] == s.fed;
    } else {
      var read, o := script[0], sends[0];
      var t := OIteration(parse, s, read, o);
      OTurnIsIteration(parse, s, read, o);
      if !t.pc.OReading? {
        ORunIdle(parse, t, script[1..], sends[1..]);
        assert s.fed + [] == s.fed;
      }
      if read.data == [] && read.err == NoError {
        SenderIsPlainCopyExactly(parse, t, script[1..], sends[1..]);
      }
      if read.data != [] && o.Sent? {
        SentChunkExactly(parse, s, script, sends);
      }
    }
  }

  lemma SentChunkExactly(parse: ResponseParser, s: StdoutSender, script: seq<PipeRead>, sends: seq<SendOutcome>)
    requires LegalReads(script, sends) && s.pc.OReading? && script != [] && script[0].data != [] && sends[0].Sent?
    ensures Same(ORun(parse, s, script, sends), s.fed, PlainSend(script, sends)) <==>
      Harmless(parse, s.fed, script, sends)
    decreases |script|, 0
  {
    var chunk, err := script[0].data, script[0].err;
    var t := OIteration(parse, s, script[0], sends[0]);
    var rest, p := script[1..], PlainSend(script[1..], sends[1..]);
    var u := ORun(parse, t, rest, sends[1..]);
    OTurnIsIteration(parse, s, script[0], sends[0]);
    if t.pc.OReading? {
      if err == NoError {
        SenderIsPlainCopyExactly(parse, t, rest, sends[1..]);
        SameOneMore(u, s.fed, chunk, p);
      } else {
        SenderCopiesOverwritten(parse, t, rest, sends[1..]);
        StopsAtOnce(parse, t, rest, sends[1..], err);
      }
    } else {
      ORunIdle(parse, t, rest, sends[1..]);
      if err == NoError {
        PlainFailsNext(rest, sends[1..], OtherError);
        SameOneMore(u, s.fed, chunk, p);
        SameAsStopped(u, s.fed + [chunk], p, OtherError);
      }
    }
  }

  lemma SameAsStopped(u: StdoutSender, fed: seq<seq<byte>>, p: (seq<seq<byte>>, Option<Instruction>), err: ReadError)
    requires err != NoError && u.fed == fed && u.pc == OClosed(ReadEnd(err))
    ensures Same(u, fed, p) <==> p == ([], Some(ReadEnd(err)))
  {
    assert fed + [] == fed;
    assert Same(u, fed, p) ==> |p.0| == 0;
  }

  /** From here on the worker sends nothing more and posts `err` exactly if the next read fails with it. */
  lemma {:induction false} StopsAtOnce(parse: ResponseParser, t: StdoutSender, script: seq<PipeRead>,
                                       sends: seq<SendOutcome>, err: ReadError)
    requires LegalReads(script, sends) && t.pc.OReading? && err != NoError
    ensures var u := ORun(parse, t, script, sends);
      u.fed == t.fed && u.pc == OClosed(ReadEnd(err)) <==> FailsNext(script, err)
    decreases |script|
  {
    if script != [] {
      var read := script[0];
      var u := OIteration(parse, t, read, sends[0]);
      OTurnIsIteration(parse, t, read, sends[0]);
      if !u.pc.OReading? {
        ORunIdle(parse, u, script[1..], sends[1..]);
      } else if read.data == [] {
        StopsAtOnce(parse, u, script[1..], sends[1..], err);
      } else {
        SenderCopiesOverwritten(parse, u, script[1..], sends[1..]);
        assert |u.fed| == |t.fed| + 1;
      }
    }
  }

  // ---------- over the pipe of the process ----------

  /** The pipe of the process never returns data and an error from one read. */
  predicate PipeLike(script: seq<PipeRead>) {
    forall k :: 0 <= k < |script| && script[k].data != [] ==> script[k].err == NoError
  }

  /** How many chunks, after those in `fed`, go by before one completes a line that is not a valid response. */
  function AcceptedCount(parse: ResponseParser, fed: seq<seq<byte>>, chunks: seq<seq<byte>>): (n: nat)
    ensures n <= |chunks|
    decreases |chunks|
  {
    if chunks == [] || Rejection(parse, fed, chunks[0]) != NoError then 0
    else 1 + AcceptedCount(parse, fed + [chunks[0]], chunks[1..])
  }

  /** The worker ended as the plain loop `p` did, or after the first chunk that was not accepted. */
  ghost predicate Follows(t: StdoutSender, fed: seq<seq<byte>>, p: (seq<seq<byte>>, Option<Instruction>), n: nat)
    requires n <= |p.0|
  {
    if n == |p.0| then Same(t, fed, p) else Same(t, fed, (p.0[..n + 1], Some(ReadEnd(OtherError))))
  }

  lemma FollowsOneMore(t: StdoutSender, fed: seq<seq<byte>>, chunk: seq<byte>,
                       p: (seq<seq<byte>>, Option<Instruction>), n: nat)
    requires n <= |p.0| && Follows(t, fed + [chunk], p, n)
    ensures Follows(t, fed, ([chunk] + p.0, p.1), n + 1)
  {
    if n == |p.0| {
      SameOneMore(t, fed, chunk, p);
    } else {
      assert ([chunk] + p.0)[..n + 2] == [chunk] + p.0[..n + 1];
      SameOneMore(t, fed, chunk, (p.0[..n + 1], Some(ReadEnd(OtherError))));
    }
  }

  lemma AcceptedOneMore(parse: ResponseParser, fed: seq<seq<byte>>, chunk: seq<byte>, chunks: seq<seq<byte>>)
    ensures AcceptedCount(parse, fed, [chunk] + chunks) ==
      if Rejection(parse, fed, chunk) != NoError then 0 else 1 + AcceptedCount(parse, fed + [chunk], chunks)
  {
    assert ([chunk] + chunks)[1..] == chunks;
  }

  /** Over a pipe, senderStdout sends what the plain copy loop sends, up to and including the first chunk that is not
      accepted; it then stops with an internal-error instruction. */
  lemma {:induction false} SenderIsPlainCopyUntilRejected(parse: ResponseParser, s: StdoutSender, script: seq<PipeRead>,
                                                          sends: seq<SendOutcome>)
    requires LegalReads(script, sends) && s.pc.OReading?
    ensures var p := PlainSend(script, sends);
      PipeLike(script) ==> Follows(ORun(parse, s, script, sends), s.fed, p, AcceptedCount(parse, s.fed, p.0))
    decreases |script|
  {
    if script == [] {
      assert s.fed + [] == s.fed;
    } else if PipeLike(script) {
      var read, o := script[0], sends[0];
      var t := OIteration(parse, s, read, o);
      OTurnIsIteration(parse, s, read, o);
      assert s.fed + [] == s.fed;
      assert PipeLike(script[1..]);
      if t.pc.OReading? {
        SenderIsPlainCopyUntilRejected(parse, t, script[1..], sends[1..]);
      } else {
        ORunIdle(parse, t, script[1..], sends[1..]);
      }
      if read.data != [] && o.Sent? {
        SentChunkFollows(parse, s, script, sends);
      }
    }
  }

  lemma SentChunkFollows(parse: ResponseParser, s: StdoutSender, script: seq<PipeRead>, sends: seq<SendOutcome>)
    requires LegalReads(script, sends) && s.pc.OReading? && script != [] && script[0].data != [] && sends[0].Sent?
    requires script[0].err == NoError
    requires var t, p := OIteration(parse, s, script[0], sends[0]), PlainSend(script[1..], sends[1..]);
      var u := ORun(parse, t, script[1..], sends[1..]);
      if t.pc.OReading? then Follows(u, t.fed, p, AcceptedCount(parse, t.fed, p.0))
      else u == t.(pc := OClosed(t.pc.result))
    ensures var p := PlainSend(script, sends);
      Follows(ORun(parse, s, script, sends), s.fed, p, AcceptedCount(parse, s.fed, p.0))
  {
    var chunk, p := script[0].data, PlainSend(script[1..], sends[1..]);
    var t := OIteration(parse, s, script[0], sends[0]);
    var u := ORun(parse, t, script[1..], sends[1..]);
    OTurnIsIteration(parse, s, script[0], sends[0]);
    AcceptedOneMore(parse, s.fed, chunk, p.0);
    if t.pc.OReading? {
      FollowsOneMore(u, s.fed, chunk, p, AcceptedCount(parse, t.fed, p.0));
    } else {
      assert ([chunk] + p.0)[..1] == [chunk];
    }
  }

  /** The forwarding of a conversation stops at the first chunk that completes a notification or a request from
      the process: the chunk is sent, nothing after it is, and the socket is to be closed with an internal error. */
  lemma NotificationEndsForwarding(parse: ResponseParser, s: StdoutSender, script: seq<PipeRead>,
                                   sends: seq<SendOutcome>, line: seq<byte>)
    requires LegalReads(script, sends) && s.pc.OReading? && script != [] && script[0].data != [] && sends[0].Sent?
    requires LineOf(PendingAfterAll([], s.fed), script[0].data) == Some(line)
    requires parse(line).Some? ==> parse(line).value.result == [] && parse(line).value.error.None?
    ensures var t := ORun(parse, s, script, sends);
      && t.fed == s.fed + [script[0].data]
      && t.pc == OClosed(Some(CloseError(STATUS_INTERNAL_ERROR, StdoutReadFailed)))
  {
    NotificationIsNoResponse(line, parse);
    OTurnIsIteration(parse, s, script[0], sends[0]);
    ORunIdle(parse, OIteration(parse, s, script[0], sends[0]), script[1..], sends[1..]);
  }

  // ---------- senderStderr ----------

  /** The lines whose sending did not lose them. */
  function Delivered(lines: seq<seq<byte>>, sends: nat -> SendOutcome): seq<seq<byte>> {
    if lines == [] then []
    else
      var n := |lines| - 1;
      Delivered(lines[..n], sends) + (if sends(n).Lost? then [] else [lines[n]])
  }

  lemma DeliveredOneMore(lines: seq<seq<byte>>, line: seq<byte>, sends: nat -> SendOutcome)
    ensures Delivered(lines + [line], sends) ==
      Delivered(lines, sends) + (if sends(|lines|).Lost? then [] else [line])
  {
    assert (lines + [line])[..|lines|] == lines;
  }

  /** The worker after a sequence of its atomic steps. */
  function ERun(steps: seq<ErrInput>): StderrSender {
    if steps == [] then NewStderrSender else EStep(ERun(steps[..|steps| - 1]), steps[|steps| - 1])
  }

  lemma ERunSnoc(steps: seq<ErrInput>, i: ErrInput)
    ensures ERun(steps + [i]) == EStep(ERun(steps), i)
  {
    assert (steps + [i])[..|steps|] == steps;
  }

  lemma {:induction false} ERunInv(steps: seq<ErrInput>)
    ensures EInv(ERun(steps))
    decreases |steps|
  {
    if steps == [] {
      assert Complete<byte>([], NEWLINE) == [] && Rest<byte>([], NEWLINE) == [];
    } else {
      ERunInv(steps[..|steps| - 1]);
      ErrStepKeepsInv(ERun(steps[..|steps| - 1]), steps[|steps| - 1]);
    }
  }

  lemma Filled(e: StderrSender, script: seq<seq<byte>>, j: nat)
    requires j < |script| && e.pc.EReading? && NEWLINE !in e.buffered && e.Read() == Flatten(script[..j])
    ensures var f := EStep(e, EFill(script[j]));
      f == e.(buffered := e.buffered + script[j]) && f.Read() == Flatten(script[..j + 1])
  {
    AppendAssociates(e.split, e.buffered, script[j]);
    assert script[..j + 1] == script[..j] + [script[j]];
    FlattenSnoc(script[..j], script[j]);
  }

  /** Taking the line at the head of the buffer, or all of it when it holds no newline. */
  lemma LineTaken(e: StderrSender)
    requires e.pc.EReading?
    ensures var k := IndexOf(e.buffered, NEWLINE);
      var line := if k < 0 then e.buffered else e.buffered[..k];
      var f := EStep(e, if k < 0 then EReadFailed else ELine);
      && f.Read() == e.Read() && f.attempts == e.attempts && f.delivered == e.delivered
      && f.buffered == (if k < 0 then [] else e.buffered[k + 1..])
      && f.pc == if line != [] then ESending(line, k < 0) else if k < 0 then EPosting else EReading
  {
    var k := IndexOf(e.buffered, NEWLINE);
    if k >= 0 {
      assert e.buffered == e.buffered[..k + 1] + e.buffered[k + 1..];
      AppendAssociates(e.split, e.buffered[..k + 1], e.buffered[k + 1..]);
    } else {
      assert e.Read() + [] == e.Read();
    }
  }

  /** `ReadString`: reads until the buffer holds a newline or a read fails, and takes the line off the buffer. */
  method ReadString(script: seq<seq<byte>>, i: nat, buffered: seq<byte>, ghost steps: seq<ErrInput>)
    returns (line: seq<byte>, failed: bool, j: nat, rest: seq<byte>, ghost steps': seq<ErrInput>)
    requires i <= |script| && var e := ERun(steps);
      e.pc.EReading? && e.buffered == buffered && e.Read() == Flatten(script[..i])
    ensures i <= j <= |script| && (failed ==> j == |script| && rest == [])
    ensures j == i && !failed ==> |rest| < |buffered|
    ensures var e, f := ERun(steps), ERun(steps');
      && f.Read() == Flatten(script[..j]) && f.attempts == e.attempts && f.delivered == e.delivered
      && f.buffered == rest
      && f.pc == if line != [] then ESending(line, failed) else if failed then EPosting else EReading
  {
    j, rest, steps' := i, buffered, steps;
    while NEWLINE !in rest && j < |script|
      invariant i <= j <= |script| && (j == i ==> rest == buffered)
      invariant var e, f := ERun(steps), ERun(steps');
        && f.pc.EReading? && f.attempts == e.attempts && f.delivered == e.delivered
        && f.buffered == rest && f.Read() == Flatten(script[..j])
    {
      Filled(ERun(steps'), script, j);
      ERunSnoc(steps', EFill(script[j]));
      steps' := steps' + [EFill(script[j])];
      rest := rest + script[j];
      j := j + 1;
    }
    var k := IndexOf(rest, NEWLINE);
    failed := k < 0;
    LineTaken(ERun(steps'));
    ghost var taking := if failed then EReadFailed else ELine;
    ERunSnoc(steps', taking);
    steps' := steps' + [taking];
    line := if failed then rest else rest[..k];
    rest := if failed then [] else rest[k + 1..];
  }

  /** The loop of senderStderr over successive pipe reads, until a read fails: it tries exactly the non-empty lines
      of everything read, however the reads cut it, whatever becomes of each send. */
  method SenderStderr(script: seq<seq<byte>>, sends: nat -> SendOutcome)
    returns (attempts: seq<seq<byte>>, delivered: seq<seq<byte>>, ghost steps: seq<ErrInput>)
    ensures attempts == NonEmptyLines(Flatten(script))
    ensures delivered == Delivered(attempts, sends)
    ensures Subsequence(delivered, attempts)
    ensures var e := ERun(steps); e.pc.EClosed? && e.attempts == attempts && e.delivered == delivered
  {
    attempts, delivered, steps := [], [], [];
    var buffered, failed, i := [], false, 0;
    while !failed
      invariant i <= |script| && (failed ==> i == |script|)
      invariant var e := ERun(steps);
        && e.attempts == attempts && e.delivered == delivered && e.buffered == buffered
        && e.Read() == Flatten(script[..i]) && e.pc == if failed then EPosting else EReading
      invariant delivered == Delivered(attempts, sends)
      decreases !failed, |script| - i, |buffered|
    {
      var line;
      line, failed, i, buffered, steps := ReadString(script, i, buffered, steps);
      if |line| > 0 {
        var o := sends(|attempts|);
        DeliveredOneMore(attempts, line, sends);
        LineSent(steps, o);
        steps := steps + [ESent(o)];
        attempts := attempts + [line];
        if !o.Lost? {
          delivered := delivered + [line];
        }
      }
    }
    assert script[..i] == script;
    LinesDone(steps);
    steps := steps + [EPost] + [EClosePipe];
  }

  /** Once reading has ended, the lines tried are the non-empty lines of everything read. */
  lemma LinesDone(steps: seq<ErrInput>)
    requires ERun(steps).pc.EPosting?
    ensures var e := ERun(steps); e.attempts == NonEmptyLines(e.Read()) && Subsequence(e.delivered, e.attempts)
    ensures ERun(steps + [EPost] + [EClosePipe]) == ERun(steps).(pc := EClosed)
  {
    ERunInv(steps);
    var e := ERun(steps);
    assert e.split + [] == e.split;
    ERunSnoc(steps, EPost);
    ERunSnoc(steps + [EPost], EClosePipe);
  }

  lemma LineSent(steps: seq<ErrInput>, o: SendOutcome)
    requires ERun(steps).pc.ESending?
    ensures var e, f := ERun(steps), ERun(steps + [ESent(o)]);
      && f.pc == (if e.pc.last then EPosting else EReading) && f.buffered == e.buffered && f.Read() == e.Read()
      && f.attempts == e.attempts + [e.pc.line]
      && f.delivered == (if o.Lost? then e.delivered else e.delivered + [e.pc.line])
  {
    ERunSnoc(steps, ESent(o));
  }
}
