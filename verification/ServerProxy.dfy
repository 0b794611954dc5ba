/** The server's `proxy` function as straight-line code over the answers of its environment, with the close
    instruction overwritten along the way and the deferred calls run at the end. Its actions are exactly steps of
    the supervisor machine. */
module ServerProxy {
  import opened Oob
  import opened ServerWorkers
  import opened Supervisors
  import opened Wire

  datatype StartResult = Started(pid: Int64) | StartFails(error: string)

  /** What the process, the socket and the workers answer, in the order they are asked. */
  datatype Environment = Environment(
    start: StartResult, startSend: SendOutcome,
    receiverFirst: bool, rxResult: Instruction, outResult: Instruction,
    waited: WaitResult, exitSend: SendOutcome, closeSend: SendOutcome)
  {
    predicate Launches() {
      start.Started? && startSend.Sent?
    }

    predicate Panics() {
      Launches() && receiverFirst && rxResult.None?
    }
  }

  // ---------- traces of the supervisor machine ----------

  function SRun(trace: seq<SupInput>): Supervisor {
    if trace == [] then NewSupervisor else SStep(SRun(trace[..|trace| - 1]), trace[|trace| - 1])
  }

  predicate SAccepts(trace: seq<SupInput>) {
    trace == [] || (SAccepts(trace[..|trace| - 1]) && SCan(SRun(trace[..|trace| - 1]), trace[|trace| - 1]))
  }

  /** The frames the machine puts on the wire along a trace. */
  function SWire(encode: Payload -> string, trace: seq<SupInput>): seq<Frame> {
    if trace == [] then []
    else
      var front, i := trace[..|trace| - 1], trace[|trace| - 1];
      if i.SSent? then Put(SWire(encode, front), SFrame(encode, SRun(front)), i.o) else SWire(encode, front)
  }

  /** The code has done what `trace` says and holds this state. */
  ghost predicate At(encode: Payload -> string, trace: seq<SupInput>, s: Supervisor, wire: seq<Frame>) {
    SAccepts(trace) && SRun(trace) == s && SWire(encode, trace) == wire
  }

  lemma Act(encode: Payload -> string, trace: seq<SupInput>, s: Supervisor, wire: seq<Frame>, i: SupInput)
    requires At(encode, trace, s, wire) && SCan(s, i)
    ensures At(encode, trace + [i], SStep(s, i), if i.SSent? then Put(wire, SFrame(encode, s), i.o) else wire)
  {
    assert (trace + [i])[..|trace|] == trace;
  }

  // ---------- what the code does, as a trace ----------

  function StartActs(env: Environment): seq<SupInput> {
    [if env.start.Started? then SStarted(env.start.pid) else SStartFailed(env.start.error), SSent(env.startSend)]
  }

  /** The first two steps of the machine. */
  lemma StartReaches(encode: Payload -> string, env: Environment)
    ensures var s := SRun(StartActs(env));
      s == if !env.start.Started? then AbortWith(NewSupervisor, ProcessFailedToStart)
           else if !env.startSend.Sent? then AbortWith(NewSupervisor, StartMessageFailed)
           else LaunchedSupervisor
    ensures var hello := if env.start.Started? then StartOK(env.start.pid) else StartErr(env.start.error);
      At(encode, StartActs(env), SRun(StartActs(env)), Put([], Text(encode(hello)), env.startSend))
  {
    var first := StartActs(env)[0];
    var s1 := SStep(NewSupervisor, first);
    Act(encode, [], NewSupervisor, [], first);
    Act(encode, [] + [first], s1, [], SSent(env.startSend));
    assert [] + [first] + [SSent(env.startSend)] == StartActs(env);
  }

  /** Several steps that send nothing. */
  lemma {:induction false} ActAll(encode: Payload -> string, trace: seq<SupInput>, s: Supervisor, wire: seq<Frame>,
                                  more: seq<SupInput>)
    requires At(encode, trace, s, wire) && Quiet(s, more)
    ensures At(encode, trace + more, SFold(s, more), wire)
    decreases |more|
  {
    if more == [] {
      assert trace + more == trace;
    } else {
      Act(encode, trace, s, wire, more[0]);
      ActAll(encode, trace + [more[0]], SStep(s, more[0]), wire, more[1..]);
      assert trace + [more[0]] + more[1..] == trace + more;
    }
  }

  function SFold(s: Supervisor, more: seq<SupInput>): Supervisor
    decreases |more|
  {
    if more == [] then s else SFold(SStep(s, more[0]), more[1..])
  }

  predicate Quiet(s: Supervisor, more: seq<SupInput>)
    decreases |more|
  {
    more == [] || (SCan(s, more[0]) && !more[0].SSent? && Quiet(SStep(s, more[0]), more[1..]))
  }

  /** The joins of each branch, up to the exit report. */
  function Joins(env: Environment): seq<SupInput> {
    if env.receiverFirst then
      [STakeReceiver(env.rxResult), SWaited(env.waited), STick, STakeStdout(env.outResult), STick, STakeStderr]
    else
      [STakeStdout(env.outResult), STick, STakeReceiver(env.rxResult), STick, STakeStderr, SWaited(env.waited)]
  }

  ghost predicate ReachesExit(env: Environment, t: Supervisor) {
    && t.pc.SendingExit? && t.waited == Some(env.waited) && !t.fault && t.launched
    && t.taken == Taken(1, 1, 1) && t.exits == 0
    && t.desired == (if env.receiverFirst then env.rxResult else env.outResult)
  }

  lemma FoldOne(s: Supervisor, i: SupInput, more: seq<SupInput>)
    ensures SFold(s, [i] + more) == SFold(SStep(s, i), more)
    ensures SCan(s, i) && !i.SSent? && Quiet(SStep(s, i), more) ==> Quiet(s, [i] + more)
  {
    assert ([i] + more)[1..] == more;
  }

  /** The joins from either branch, three at a time. */
  lemma FoldThree(s: Supervisor, a: SupInput, b: SupInput, c: SupInput, more: seq<SupInput>)
    requires var s1 := SStep(s, a); var s2 := SStep(s1, b);
      SCan(s, a) && SCan(s1, b) && SCan(s2, c) && Quiet(SStep(s2, c), more) && !a.SSent? && !b.SSent? && !c.SSent?
    ensures SFold(s, [a, b, c] + more) == SFold(SStep(SStep(SStep(s, a), b), c), more) && Quiet(s, [a, b, c] + more)
  {
    var s1 := SStep(s, a);
    FoldOne(SStep(s1, b), c, more);
    FoldOne(s1, b, [c] + more);
    FoldOne(s, a, [b] + ([c] + more));
    assert [a] + ([b] + ([c] + more)) == [a, b, c] + more;
  }

  lemma JoinsReachExit(env: Environment)
    requires env.Launches() && !env.Panics()
    ensures Quiet(LaunchedSupervisor, Joins(env)) && ReachesExit(env, SFold(LaunchedSupervisor, Joins(env)))
  {
    var js := Joins(env);
    var mid := SStep(SStep(SStep(LaunchedSupervisor, js[0]), js[1]), js[2]);
    FoldThree(mid, js[3], js[4], js[5], []);
    FoldThree(LaunchedSupervisor, js[0], js[1], js[2], [js[3], js[4], js[5]] + []);
    assert [js[0], js[1], js[2]] + ([js[3], js[4], js[5]] + []) == js;
  }

  /** Everything between the start and the deferred calls. */
  function BodyActs(env: Environment): seq<SupInput> {
    if !env.Launches() then []
    else if env.Panics() then [STakeReceiver(None)]
    else Joins(env) + [SSent(env.exitSend)]
  }

  function DeferredActs(env: Environment, desired: Instruction): seq<SupInput> {
    [STick, if desired.Some? then SSent(env.closeSend) else STick, STick]
  }

  /** The instruction the function ends with. */
  function Outcome(env: Environment): Instruction {
    if !env.start.Started? then Some(CloseError(STATUS_INTERNAL_ERROR, ProcessFailedToStart))
    else if !env.startSend.Sent? then Some(CloseError(STATUS_INTERNAL_ERROR, StartMessageFailed))
    else if env.Panics() then None
    else Adapted(if env.receiverFirst then env.rxResult else env.outResult, env.waited)
  }

  function Acts(env: Environment): seq<SupInput> {
    StartActs(env) + BodyActs(env) + DeferredActs(env, Outcome(env))
  }

  /** The machine after the body: it is unwinding, and unless it faulted it has joined every worker and reported the
      exit once. */
  lemma BodyReaches(encode: Payload -> string, env: Environment, wire: seq<Frame>)
    requires env.Launches() && At(encode, StartActs(env), LaunchedSupervisor, wire)
    ensures var s := SRun(StartActs(env) + BodyActs(env));
      && s.pc.Unwinding? && s.desired == Outcome(env) && s.fault == env.Panics()
      && (!s.fault ==> s.taken == Taken(1, 1, 1) && s.exits == 1)
      && At(encode, StartActs(env) + BodyActs(env), s,
            if s.fault then wire else Put(wire, Text(encode(ExitPayload(env.waited))), env.exitSend))
  {
    var trace := StartActs(env);
    if env.Panics() {
      Act(encode, trace, LaunchedSupervisor, wire, STakeReceiver(None));
    } else {
      JoinsReachExit(env);
      ActAll(encode, trace, LaunchedSupervisor, wire, Joins(env));
      Act(encode, trace + Joins(env), SFold(LaunchedSupervisor, Joins(env)), wire, SSent(env.exitSend));
      assert trace + Joins(env) + [SSent(env.exitSend)] == trace + BodyActs(env);
    }
  }

  lemma DeferredReaches(encode: Payload -> string, env: Environment, trace: seq<SupInput>, s: Supervisor,
                        wire: seq<Frame>)
    requires At(encode, trace, s, wire) && s.pc.Unwinding?
    ensures At(encode, trace + DeferredActs(env, s.desired),
               s.(pc := Returned, cancelled := Contexts(true, true, true, true)),
               if s.desired.Some? then Put(wire, Close(s.desired.value), env.closeSend) else wire)
  {
    var close := DeferredActs(env, s.desired)[1];
    var s1 := SStep(s, STick);
    var s2 := SStep(s1, close);
    Act(encode, trace, s, wire, STick);
    Act(encode, trace + [STick], s1, wire, close);
    var wire' := if s.desired.Some? then Put(wire, Close(s.desired.value), env.closeSend) else wire;
    Act(encode, trace + [STick] + [close], s2, wire', STick);
    assert trace + [STick] + [close] + [STick] == trace + DeferredActs(env, s.desired);
  }

  // ---------- the code ----------

  /** handleProcessWaitError: reports the failure and adapts the instruction it was given. The report carries the exit
      code of a process that exited and of no other, says killed of a signalled one and of no other, and has Wait's
      text; a normal close never survives, and nothing else is touched. */
  method HandleProcessWaitError(encode: Payload -> string, err: WaitResult, desired: Instruction, wire: seq<Frame>,
                                send: SendOutcome)
    returns (msg: Payload, wire': seq<Frame>, desired': Instruction)
    requires err != WaitOk
    ensures msg.ServerExited? && msg.exitError == err.text
    ensures (msg.exitCode.Some? <==> err.WaitExited?) && (err.WaitExited? ==> msg.exitCode.value == err.code)
    ensures msg.killed <==> err.WaitKilled?
    ensures wire' == if send.Lost? then wire else wire + [Text(encode(msg))]
    ensures desired'.Some? ==> desired'.value.code != STATUS_NORMAL_CLOSURE
    ensures desired' != desired <==> desired.Some? && desired.value.code == STATUS_NORMAL_CLOSURE
    ensures desired' != desired ==> desired' == Some(CloseError(STATUS_INTERNAL_ERROR, ProcessNotGraceful))
  {
    var exitCode: Option<Int64>, killed, text := None, false, "";
    match err {
      case WaitExited(code, t) => exitCode, text := Some(code), t;
      case WaitKilled(t) => killed, text := true, t;
      case WaitFailed(t) => text := t;
    }
    msg := ServerExited(exitCode, killed, text);
    wire' := Put(wire, Text(encode(msg)), send);
    desired' := desired;
    if desired.None? {
      return;
    }
    if desired.value.code == STATUS_NORMAL_CLOSURE {
      desired' := Some(CloseError(STATUS_INTERNAL_ERROR, ProcessNotGraceful));
    }
  }

  /** Starting the process and telling the client. */
  method StartProcess(encode: Payload -> string, env: Environment)
    returns (launched: bool, desiredClose: Instruction, wire: seq<Frame>)
    ensures launched == env.Launches() && desiredClose == (if launched then None else Outcome(env))
    ensures var s := SRun(StartActs(env));
      && At(encode, StartActs(env), s, wire) && s.desired == desiredClose && s.launched == launched && !s.fault
      && s.pc == if launched then Selecting else Unwinding
  {
    StartReaches(encode, env);
    launched, desiredClose, wire := false, None, [];
    match env.start {
      case StartFails(e) =>
        wire := Put(wire, Text(encode(StartErr(e))), env.startSend);
        desiredClose := Some(CloseError(STATUS_INTERNAL_ERROR, ProcessFailedToStart));
      case Started(pid) =>
        wire := Put(wire, Text(encode(StartOK(pid))), env.startSend);
        if !env.startSend.Sent? {
          desiredClose := Some(CloseError(STATUS_INTERNAL_ERROR, StartMessageFailed));
        } else {
          launched := true;
        }
    }
  }

  /** The whole function: body, then deferred calls. What it does is a trace of the supervisor machine. It panics
      exactly when the receiver finished first with nil; otherwise, once started, it has joined every worker and
      reported the exit once. It closes as its first result says, unless Wait withdrew a normal close. */
  method Proxy(encode: Payload -> string, env: Environment)
    returns (desiredClose: Instruction, wire: seq<Frame>, panicked: bool)
    ensures panicked <==> env.start.Started? && env.startSend.Sent? && env.receiverFirst && env.rxResult.None?
    ensures env.start.StartFails? ==> desiredClose == Some(CloseError(1011, ProcessFailedToStart))
    ensures env.start.Started? && !env.startSend.Sent? ==> desiredClose == Some(CloseError(1011, StartMessageFailed))
    ensures panicked ==> desiredClose == None
    ensures env.start.Started? && env.startSend.Sent? && !panicked ==>
      var first := if env.receiverFirst then env.rxResult else env.outResult;
      && (env.waited == WaitOk || first.None? || first.value.code != 1000 ==> desiredClose == first)
      && (env.waited != WaitOk && first.Some? && first.value.code == 1000 ==>
            desiredClose == Some(CloseError(1011, ProcessNotGraceful)))
    ensures var hello := if env.start.Started? then StartOK(env.start.pid) else StartErr(env.start.error);
      var greeted := Put([], Text(encode(hello)), env.startSend);
      var reported :=
        if !env.start.Started? || !env.startSend.Sent? || panicked then greeted
        else if env.waited == WaitOk then Put(greeted, Text(encode(ServerExited(Some(0), false, ""))), env.exitSend)
        else Put(greeted, Text(encode(ExitPayload(env.waited))), env.exitSend);
      wire == if desiredClose.None? then reported else Put(reported, Close(desiredClose.value), env.closeSend)
    ensures var s := SRun(Acts(env));
      && At(encode, Acts(env), s, wire)
      && s.pc.Returned? && s.cancelled == Contexts(true, true, true, true)
      && s.desired == desiredClose && s.fault == panicked
      && (env.Launches() && !panicked ==> s.taken == Taken(1, 1, 1) && s.exits == 1)
  {
    var launched;
    launched, desiredClose, wire := StartProcess(encode, env);
    panicked := false;
    StartReaches(encode, env);
    if launched {
      BodyReaches(encode, env, wire);
      if env.receiverFirst && env.rxResult.None? {
        desiredClose := env.rxResult;
        panicked := true;
      } else {
        desiredClose := if env.receiverFirst then env.rxResult else env.outResult;
        if env.waited != WaitOk {
          var msg;
          msg, wire, desiredClose := HandleProcessWaitError(encode, env.waited, desiredClose, wire, env.exitSend);
          assert msg == ExitPayload(env.waited);
        } else {
          wire := Put(wire, Text(encode(ServerExited(Some(0), false, ""))), env.exitSend);
        }
      }
    }
    ghost var trace := StartActs(env) + BodyActs(env);
    assert !launched ==> trace == StartActs(env);
    DeferredReaches(encode, env, trace, SRun(trace), wire);
    // deferred: close the socket if so instructed
    if desiredClose.Some? {
      wire := Put(wire, Close(desiredClose.value), env.closeSend);
    }
  }
}
