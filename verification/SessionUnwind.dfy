/** The end of the server function: once it unwinds, by a return or by the panic of the nil dereference, its deferred
    calls bring it to the end in a fixed number of its own steps. */
module SessionUnwind {
  import opened Session
  import opened SessionTheorems
  import opened Supervisors
  import opened Wire

  /** Deferred actions still to run. */
  function UnwindRank(s: Supervisor): nat {
    match s.pc
    case Unwinding => 3
    case Closing => 2
    case Stopping => 1
    case _ => 0
  }

  function NextUnwindEvent(s: Supervisor): Event {
    if s.pc.Closing? && s.desired.Some? then SupEv(SSent(Lost(-1))) else SupEv(STick)
  }

  /** The supervisor waits for nobody: its next deferred action is enabled, and a close that is attempted may end in
      any way the socket allows. */
  lemma UnwindProgress(s: State)
    requires Finished(s.server.sup) && !s.server.sup.pc.Returned?
    ensures Enabled(s, NextUnwindEvent(s.server.sup))
    ensures forall o :: s.server.sup.pc.Closing? && s.server.sup.desired.Some? && CanPut(s.s2c.frames, o) ==>
      Enabled(s, SupEv(SSent(o)))
  {
  }

  lemma UnwindStep(cfg: Config, s: State, ev: Event, t: State)
    requires Finished(s.server.sup) && Enabled(s, ev) && t == Step(cfg, s, ev)
    ensures Finished(t.server.sup) && (t.server.sup.fault <==> s.server.sup.fault)
    ensures t.server.sup.desired == s.server.sup.desired
    ensures UnwindRank(t.server.sup) + (if ev.SupEv? then 1 else 0) == UnwindRank(s.server.sup)
  {
  }

  /** How many of the first `k` events are the supervisor's. */
  function SupervisorSteps(evs: seq<Event>, k: nat): nat
    requires k <= |evs|
  {
    if k == 0 then 0 else SupervisorSteps(evs, k - 1) + (if evs[k - 1].SupEv? then 1 else 0)
  }

  lemma {:induction false} UnwindAdvances(cfg: Config, s: State, evs: seq<Event>, states: seq<State>, k: nat)
    requires RunFrom(cfg, s, evs, states) && Finished(s.server.sup) && k <= |evs|
    ensures var t := states[k].server.sup;
      && Finished(t) && (t.fault <==> s.server.sup.fault) && t.desired == s.server.sup.desired
      && UnwindRank(t) + SupervisorSteps(evs, k) == UnwindRank(s.server.sup)
  {
    if k > 0 {
      UnwindAdvances(cfg, s, evs, states, k - 1);
      UnwindStep(cfg, states[k - 1], evs[k - 1], states[k]);
    }
  }

  /** However the run goes on from a reachable state in which the supervisor unwinds, faulted or not: it has returned
      exactly when it has taken as many steps as it had deferred actions left, and then every context is cancelled and
      the instruction and the fault are what they were. */
  lemma UnwindReturns(cfg: Config, s: State, evs: seq<Event>, states: seq<State>)
    requires cfg.Faithful() && Reachable(cfg, s) && Finished(s.server.sup) && RunFrom(cfg, s, evs, states)
    ensures var t := states[|evs|];
      && SupervisorSteps(evs, |evs|) <= UnwindRank(s.server.sup)
      && (t.server.sup.pc.Returned? <==> SupervisorSteps(evs, |evs|) == UnwindRank(s.server.sup))
      && (t.server.sup.pc.Returned? ==> Cleaned(t))
      && (t.server.sup.fault <==> s.server.sup.fault) && t.server.sup.desired == s.server.sup.desired
  {
    UnwindAdvances(cfg, s, evs, states, |evs|);
    RunReachable(cfg, s, evs, states, |evs|);
    ReturnCleans(cfg, states[|evs|]);
  }
}
