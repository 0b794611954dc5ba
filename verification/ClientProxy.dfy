/** The client's `proxy` function as straight-line code over the answers of its environment. Its actions are steps of
    the client's supervisor machine. */
module ClientProxy {
  import opened Oob
  import opened ServerLoops
  import opened ServerWorkers
  import opened Supervisors
  import opened Wire

  /** What the socket and the workers answer; `late`: the stdin worker does not post before the timer fires. */
  datatype Environment = Environment(first: SocketRead, senderFirst: bool, senderCode: int, writerCode: int, late: bool)

  function CRun(decode: Decoder, trace: seq<CliInput>): ClientSupervisor {
    if trace == [] then NewClientSupervisor
    else CStep(decode, CRun(decode, trace[..|trace| - 1]), trace[|trace| - 1])
  }

  predicate CAccepts(decode: Decoder, trace: seq<CliInput>) {
    trace == [] ||
    (CAccepts(decode, trace[..|trace| - 1]) && CCan(CRun(decode, trace[..|trace| - 1]), trace[|trace| - 1]))
  }

  lemma CAct(decode: Decoder, trace: seq<CliInput>, i: CliInput)
    requires CAccepts(decode, trace) && CCan(CRun(decode, trace), i)
    ensures CAccepts(decode, trace + [i]) && CRun(decode, trace + [i]) == CStep(decode, CRun(decode, trace), i)
  {
    assert (trace + [i])[..|trace|] == trace;
  }

  /** The steps after a successful handshake. */
  function Joins(env: Environment): seq<CliInput> {
    if env.senderFirst then [CTakeSender(env.senderCode), CTick, CTakeWriter(env.writerCode)]
    else [CTakeWriter(env.writerCode), CTick, if env.late then CTimeout else CTakeSender(env.senderCode)]
  }

  function Acts(decode: Decoder, env: Environment): seq<CliInput> {
    [if env.first.Got? then CGot(env.first.frame) else CReadFailed] +
    (if Starts(decode, env.first) then Joins(env) else [])
  }

  predicate Starts(decode: Decoder, first: SocketRead) {
    match first
    case Got(Text(text)) => decode(text).Some? && decode(text).value.StartOK?
    case _ => false
  }

  lemma ActsRun(decode: Decoder, env: Environment)
    ensures CAccepts(decode, Acts(decode, env))
    ensures CRun(decode, Acts(decode, env)).pc == CliReturned(
      if !Starts(decode, env.first) then HandshakeFailed
      else ExitWith(if env.senderFirst then env.senderCode else env.writerCode))
    ensures Starts(decode, env.first) ==>
      var c := CRun(decode, Acts(decode, env)); if env.senderFirst then c.outCancelled else c.inCancelled
  {
    var acts := Acts(decode, env);
    CAct(decode, [], acts[0]);
    assert [] + [acts[0]] == [acts[0]];
    if Starts(decode, env.first) {
      CAct(decode, [acts[0]], acts[1]);
      assert [acts[0]] + [acts[1]] == [acts[0], acts[1]];
      CAct(decode, [acts[0], acts[1]], acts[2]);
      assert [acts[0], acts[1]] + [acts[2]] == [acts[0], acts[1], acts[2]];
      CAct(decode, [acts[0], acts[1], acts[2]], acts[3]);
      assert [acts[0], acts[1], acts[2]] + [acts[3]] == acts;
    } else {
      assert [acts[0]] == acts;
    }
  }

  /** The whole function: only start_ok as the first message lets it go on; its result is then the code of the worker
      it heard first, whether or not the other one posts before the timer fires. */
  method Proxy(decode: Decoder, env: Environment) returns (result: ClientResult)
    ensures result.HandshakeFailed? <==>
      !(env.first.Got? && env.first.frame.Text? && decode(env.first.frame.text).Some?
        && decode(env.first.frame.text).value.StartOK?)
    ensures result.ExitWith? ==> result.code == if env.senderFirst then env.senderCode else env.writerCode
    ensures CAccepts(decode, Acts(decode, env)) && CRun(decode, Acts(decode, env)).pc == CliReturned(result)
  {
    ActsRun(decode, env);
    if env.first.Failed? || !env.first.frame.Text? {
      return HandshakeFailed;
    }
    var oobMsg := decode(env.first.frame.text);
    if oobMsg.None? || !oobMsg.value.StartOK? {
      return HandshakeFailed;
    }
    var exitErr;
    if env.senderFirst {
      exitErr := env.senderCode;
    } else {
      exitErr := env.writerCode;
    }
    result := ExitWith(exitErr);
  }
}
