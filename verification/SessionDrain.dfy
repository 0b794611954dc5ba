/** The drain after Wait has returned in the receiver-first branch: it always can go on, and it ends. */
module SessionDrain {
  import opened ClientWorkers
  import opened JsonRpc
  import opened ServerWorkers
  import opened Session
  import opened SessionControl
  import opened SessionStdout
  import opened SessionTheorems
  import opened Supervisors
  import opened Wire
  import Lines

  /** Between Wait's return and the exit report. */
  ghost predicate InDrain(s: State) {
    s.server.sup.first.ReceiverFirst? && !s.server.sup.fault && 2 <= Stage(s.server.sup) <= 5
  }

  /** The steps of the goroutines that take part, assuming that a read which neither fails nor returns data does
      not happen; the environment decides when they happen and how sends and reads end. */
  ghost predicate DrainEvent(s: State, ev: Event) {
    match ev
    case SupEv(_) => true
    case OutEv(i) => i != ORead([], NoError)
    case ErrEv(i) => i != EFill([])
    case StdoutHelper => !s.server.out.pipeClosed
    case StderrHelper => !s.server.err.pipeClosed
    case _ => false
  }

  function OutRank(pc: OutPc): nat {
    match pc
    case OReading => 3
    case OSending(_, _) => 4
    case OPosting(_) => 2
    case OPosted(_) => 1
    case OClosed(_) => 0
  }

  function ErrRank(pc: ErrPc): nat {
    match pc
    case EReading => 3
    case ESending(_, _) => 4
    case EPosting => 2
    case EPosted => 1
    case EClosed => 0
  }

  /** Bytes not yet read, position of the worker, and whether its pipe is still open. */
  function OutMeasure(p: Process, e: StdoutEnd): int {
    3 * (|p.stdout| - |e.w.read|) + OutRank(e.w.pc) + Count(!e.pipeClosed)
  }

  function ErrMeasure(p: Process, e: StderrEnd): int {
    4 * (|p.stderr| - |e.w.Read()|) + 3 * |e.w.buffered| + ErrRank(e.w.pc) + Count(!e.pipeClosed)
  }

  function DrainMeasure(s: State): int {
    8 - Stage(s.server.sup) + OutMeasure(s.process, s.server.out) + ErrMeasure(s.process, s.server.err)
  }

  lemma OutMeasureStep(parse: ResponseParser, p: Process, e: StdoutEnd, i: OutInput)
    requires OCan(e.w, i) && e.w.read <= p.stdout && (i.ORead? ==> e.w.read + i.data <= p.stdout)
    ensures OutMeasure(p, OutEnd(parse, e, i)) <= OutMeasure(p, e)
    ensures i != ORead([], NoError) ==> OutMeasure(p, OutEnd(parse, e, i)) < OutMeasure(p, e)
  {
    OutReads(parse, e.w, i);
  }

  lemma ErrMeasureStep(p: Process, e: StderrEnd, i: ErrInput)
    requires ECan(e.w, i) && e.w.Read() <= p.stderr && (i.EFill? ==> e.w.Read() + i.data <= p.stderr)
    ensures ErrMeasure(p, ErrEnd(e, i)) <= ErrMeasure(p, e)
    ensures i != EFill([]) ==> ErrMeasure(p, ErrEnd(e, i)) < ErrMeasure(p, e)
  {
    ErrReads(e.w, i);
  }

  /** No enabled event lets the measure grow, and every step of the drain makes it smaller. */
  lemma DrainDecreases(cfg: Config, s: State, ev: Event)
    requires ServerInv(s.server) && ProcessInv(s) && InDrain(s) && Enabled(s, ev)
    ensures DrainMeasure(Step(cfg, s, ev)) <= DrainMeasure(s)
    ensures DrainEvent(s, ev) ==> DrainMeasure(Step(cfg, s, ev)) < DrainMeasure(s)
  {
    match ev
    case SupEv(i) => StageAdvances(s.server.sup, i);
    case OutEv(i) =>
      if i.ORead? {
        assert i.data == [] ==> s.server.out.w.read + i.data == s.server.out.w.read;
      }
      OutMeasureStep(cfg.parse, s.process, s.server.out, i);
    case ErrEv(i) => ErrMeasureStep(s.process, s.server.err, i);
    case _ =>
  }

  lemma StageAdvances(s: Supervisor, i: SupInput)
    requires SupInv(s) && SCan(s, i) && s.launched && !s.fault && s.first.ReceiverFirst? && Stage(s) < 7
    ensures Stage(SStep(s, i)) == Stage(s) + 1
  {
  }

  lemma MeasureIsNatural(s: State)
    requires ProcessInv(s)
    ensures DrainMeasure(s) > 0
  {
  }

  /** The step the drain can always take. */
  function NextDrainEvent(s: State): Event {
    var v := s.server;
    match v.sup.pc
    case JoiningStdout =>
      if v.out.chan != [] then SupEv(STakeStdout(v.out.chan[0]))
      else
        (match v.out.w.pc
         case OReading => if v.out.pipeClosed then OutEv(ORead([], ClosedPipe)) else StdoutHelper
         case OSending(_, _) => OutEv(OWrote(Lost(-1)))
         case OPosting(_) => OutEv(OPost)
         case OPosted(_) => OutEv(OClosePipe)
         case OClosed(_) => SupEv(STick))
    case JoiningStderr =>
      if v.err.posts > 0 then SupEv(STakeStderr)
      else
        (match v.err.w.pc
         case EReading => 
           if NEWLINE in v.err.w.buffered then ErrEv(ELine)
           else if v.err.pipeClosed then ErrEv(EReadFailed)
           else StderrHelper
         case ESending(_, _) => ErrEv(ESent(Lost(-1)))
         case EPosting => ErrEv(EPost)
         case EPosted => ErrEv(EClosePipe)
         case EClosed => SupEv(STick))
    case _ => SupEv(STick)
  }

  /** Steps that cannot be withheld: a read fails because its pipe is closed, a send returns because its context is
      done, and neither Wait nor a message of the supervisor is waited for. */
  ghost predicate Guaranteed(s: State, ev: Event) {
    match ev
    case SupEv(i) => !i.SWaited? && !i.SSent?
    case OutEv(i) => (i.ORead? ==> s.server.out.pipeClosed) && (i.OWrote? ==> OutContextDone(s))
    case ErrEv(i) => (i.EReadFailed? ==> s.server.err.pipeClosed) && (i.ESent? ==> ErrContextDone(s)) && !i.EFill?
    case StdoutHelper => OutContextDone(s)
    case StderrHelper => ErrContextDone(s)
    case _ => false
  }

  /** No deadlock: as long as the drain lasts one of its steps is enabled and cannot be withheld, whatever the process
      and the socket do. */
  lemma DrainProgress(cfg: Config, s: State)
    requires ServerInv(s.server) && ProcessInv(s) && InDrain(s)
    ensures Enabled(s, NextDrainEvent(s)) && DrainEvent(s, NextDrainEvent(s)) && Guaranteed(s, NextDrainEvent(s))
  {
    assert s.server.out.w.read + [] == s.server.out.w.read;
  }

  /** The drain ends only in the exit report. */
  lemma DrainLeadsToReport(cfg: Config, s: State, ev: Event)
    requires ServerInv(s.server) && InDrain(s) && Enabled(s, ev)
    ensures InDrain(Step(cfg, s, ev)) || Step(cfg, s, ev).server.sup.pc.SendingExit?
  {
    if ev.SupEv? {
      StageAdvances(s.server.sup, ev.s);
      StageSix(SStep(s.server.sup, ev.s));
      SupStepKeepsInv(s.server.sup, ev.s);
    }
  }

  lemma StageSix(s: Supervisor)
    ensures Stage(s) == 6 <==> s.pc.SendingExit?
  {
  }

  // ---------- all drains ----------

  /** Any consecutive events, the drain lasting at least until the last of them. */
  ghost predicate DrainRun(cfg: Config, s: State, evs: seq<Event>, states: seq<State>) {
    RunFrom(cfg, s, evs, states) && forall k :: 0 <= k < |evs| ==> InDrain(states[k])
  }

  /** The steps of the drain among the first `k` events. */
  ghost function DrainSteps(evs: seq<Event>, states: seq<State>, k: nat): nat
    requires k <= |evs| < |states|
  {
    if k == 0 then 0
    else DrainSteps(evs, states, k - 1) + (if DrainEvent(states[k - 1], evs[k - 1]) then 1 else 0)
  }

  /** However the other goroutines, the client and the environment interleave, the drain takes fewer steps than the
      measure of the state it starts in. */
  lemma DrainTerminates(cfg: Config, s: State, evs: seq<Event>, states: seq<State>)
    requires cfg.Faithful() && Reachable(cfg, s) && DrainRun(cfg, s, evs, states)
    ensures DrainSteps(evs, states, |evs|) < DrainMeasure(s)
  {
    ReachableInv(cfg, s);
    DrainAdvances(cfg, s, evs, states, |evs|);
    MeasureIsNatural(states[|evs|]);
  }

  lemma {:induction false} DrainAdvances(cfg: Config, s: State, evs: seq<Event>, states: seq<State>, k: nat)
    requires cfg.Faithful() && Inv(cfg, s) && DrainRun(cfg, s, evs, states) && k <= |evs|
    ensures Inv(cfg, states[k])
    ensures DrainSteps(evs, states, k) + DrainMeasure(states[k]) <= DrainMeasure(s)
  {
    if k > 0 {
      DrainAdvances(cfg, s, evs, states, k - 1);
      DrainStep(cfg, states[k - 1], evs[k - 1], states[k]);
    }
  }

  lemma DrainStep(cfg: Config, s: State, ev: Event, t: State)
    requires cfg.Faithful() && Inv(cfg, s) && InDrain(s) && Enabled(s, ev) && t == Step(cfg, s, ev)
    ensures Inv(cfg, t) && (if DrainEvent(s, ev) then 1 else 0) + DrainMeasure(t) <= DrainMeasure(s)
  {
    StepKeepsInv(cfg, s, ev);
    DrainDecreases(cfg, s, ev);
  }
}
