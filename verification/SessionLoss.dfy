/** Which runs lose output of the process, in terms of their events, and that what is lost stays lost. */
module SessionLoss {
  import opened Oob
  import opened ServerWorkers
  import opened Session
  import opened SessionControl
  import opened SessionStdin
  import opened SessionStdout
  import opened SessionTheorems
  import opened Supervisors
  import opened Wire

  /** A send of the stdout worker fails and its chunk does not go out. */
  predicate LosesChunk(ev: Event) {
    ev.OutEv? && ev.o.OWrote? && ev.o.o.Lost?
  }

  lemma DropStep(cfg: Config, s: State, ev: Event, t: State)
    requires StdoutInv(s) && Enabled(s, ev) && t == Step(cfg, s, ev)
    ensures t.server.out.w.dropped != [] <==> s.server.out.w.dropped != [] || LosesChunk(ev)
  {
  }

  lemma {:induction false} RunDrops(cfg: Config, evs: seq<Event>, states: seq<State>, k: nat)
    requires cfg.Faithful() && Run(cfg, evs, states) && k <= |evs|
    ensures states[k].server.out.w.dropped != [] <==> exists j :: 0 <= j < k && LosesChunk(evs[j])
  {
    if k > 0 {
      RunDrops(cfg, evs, states, k - 1);
      RunInv(cfg, evs, states, k - 1);
      DropStep(cfg, states[k - 1], evs[k - 1], states[k]);
    }
  }

  /** Once Wait has returned nil and the stdout worker has ended, everything the process wrote is on the wire if and
      only if no send of the worker lost a chunk during the run. */
  lemma OutputCompleteExactly(cfg: Config, evs: seq<Event>, states: seq<State>)
    requires cfg.Faithful() && Run(cfg, evs, states)
    ensures var s := states[|evs|];
      s.server.sup.waited == Some(WaitOk) && ODone(s.server.out.w) ==>
        (Bytes(s.s2c.frames) == s.process.stdout <==> forall j :: 0 <= j < |evs| ==> !LosesChunk(evs[j]))
  {
    RunDrops(cfg, evs, states, |evs|);
    RunInv(cfg, evs, states, |evs|);
    StdoutTheorem(states[|evs|]);
  }

  lemma QuietSend(link: Link, f: Frame, o: SendOutcome)
    requires !f.Binary?
    ensures Bytes(link.Send(f, o).frames) == Bytes(link.frames)
  {
    BytesSnoc(link.frames, f);
  }

  lemma FrozenStep(cfg: Config, s: State, ev: Event, t: State)
    requires ODone(s.server.out.w) && Enabled(s, ev) && t == Step(cfg, s, ev)
    ensures ODone(t.server.out.w) && Bytes(t.s2c.frames) == Bytes(s.s2c.frames)
  {
    match ev
    case SupEv(i) =>
      if i.SSent? {
        QuietSend(s.s2c, SFrame(cfg.encode, s.server.sup), i.o);
      }
    case ErrEv(i) =>
      if i.ESent? {
        QuietSend(s.s2c, Text(cfg.encode(ProcessStderr(cfg.text(s.server.err.w.pc.line)))), i.o);
      }
    case RxEv(i) =>
      if i.RGot? && i.frame.Close? {
        QuietSend(s.s2c, Close(CloseError(i.frame.close.code, LibraryClose)), Sent);
      }
    case _ =>
  }

  /** However a run goes on after the stdout worker has ended, no more output reaches the wire. */
  lemma {:induction false} OutputFrozen(cfg: Config, s: State, evs: seq<Event>, states: seq<State>, k: nat)
    requires ODone(s.server.out.w) && RunFrom(cfg, s, evs, states) && k <= |evs|
    ensures ODone(states[k].server.out.w) && Bytes(states[k].s2c.frames) == Bytes(s.s2c.frames)
  {
    if k > 0 {
      OutputFrozen(cfg, s, evs, states, k - 1);
      FrozenStep(cfg, states[k - 1], evs[k - 1], states[k]);
    }
  }
}
