/** Connection admission: an atomic counter shared by arbitrarily many interleaved handlers. */
module Admission {
  import opened Wire

  datatype HandlerPc =
    | Entered          // counted as in flight, has its connection id
    | Checking         // the counter has been incremented
    | Accepting | Proxying | ClosingSocket
    | Releasing        // about to run the deferred decrement
    | Finishing        // about to run the deferred in-flight release
    | Gone

  /** total: what the increment returned, from the increment to the decrement. */
  datatype Handler = Handler(pc: HandlerPc, total: Option<int>)

  /** The handlers between their increment and their decrement. */
  ghost function Span(hs: map<int, Handler>): set<int> {
    set h | h in hs && hs[h].total.Some?
  }

  /** Those whose increment stayed within the limit. */
  ghost function Granted(hs: map<int, Handler>, limit: int): set<int> {
    set h | h in hs && hs[h].total.Some? && hs[h].total.value <= limit
  }

  ghost function InFlight(hs: map<int, Handler>): set<int> {
    set h | h in hs && !hs[h].pc.Gone?
  }

  function One(b: bool): nat {
    if b then 1 else 0
  }

  lemma ChangedAt(a: set<int>, b: set<int>, id: int)
    requires a - {id} == b - {id}
    ensures |b| == |a| - One(id in a) + One(id in b)
  {
    assert id in a ==> a == (a - {id}) + {id};
    assert id in b ==> b == (b - {id}) + {id};
    assert id !in a ==> a == a - {id};
    assert id !in b ==> b == b - {id};
  }

  /** What one handler's change of state does to the sizes of the three sets. */
  lemma Updated(hs: map<int, Handler>, id: int, h: Handler, limit: int)
    ensures var gs := hs[id := h];
      && |Span(gs)| == |Span(hs)| - One(id in hs && hs[id].total.Some?) + One(h.total.Some?)
      && |InFlight(gs)| == |InFlight(hs)| - One(id in hs && !hs[id].pc.Gone?) + One(!h.pc.Gone?)
      && |Granted(gs, limit)| == |Granted(hs, limit)|
           - One(id in hs && hs[id].total.Some? && hs[id].total.value <= limit)
           + One(h.total.Some? && h.total.value <= limit)
    ensures |Granted(hs, limit)| <= |Span(hs)|
  {
    var gs := hs[id := h];
    assert forall k :: k in hs && k != id ==> gs[k] == hs[k];
    assert Span(hs) - {id} == Span(gs) - {id};
    assert InFlight(hs) - {id} == InFlight(gs) - {id};
    assert Granted(hs, limit) - {id} == Granted(gs, limit) - {id};
    ChangedAt(Span(hs), Span(gs), id);
    ChangedAt(InFlight(hs), InFlight(gs), id);
    ChangedAt(Granted(hs, limit), Granted(gs, limit), id);
    SubsetSize(Granted(hs, limit), Span(hs));
  }

  /** One atomic action of some handler. */
  datatype Action =
    | ArriveAction
    | IncrementAction(h: int) | CheckAction(h: int) | SkipAction(h: int)
    | AcceptAction(h: int, ok: bool)
    | ProxyEndsAction(h: int) | CloseAction(h: int) | DecrementAction(h: int) | DoneAction(h: int)
  {
    predicate Of(id: int) {
      !ArriveAction? && h == id
    }
  }

  predicate PastCheck(pc: HandlerPc) {
    pc.Accepting? || pc.Proxying? || pc.ClosingSocket?
  }

  /** The server's counters; every method is one atomic action of one handler, so any sequence of calls is an
      interleaving of handlers and what Valid says holds throughout it. */
  class Connections {
    const maxConnections: int
    var connIDs: int
    var nbConn: int
    var inflight: int
    var handlers: map<int, Handler>

    ghost predicate Valid()
      reads this
    {
      && (forall h :: h in handlers <==> 1 <= h <= connIDs)
      && connIDs >= 0
      && nbConn == |Span(handlers)|
      && inflight == |InFlight(handlers)|
      && (maxConnections > 0 ==> |Granted(handlers, maxConnections)| <= maxConnections)
      && forall h :: h in handlers ==> ValidHandler(handlers[h])
    }

    ghost predicate ValidHandler(h: Handler) {
      && (maxConnections <= 0 ==> h.total.None?)
      && (h.pc.Checking? ==> h.total.Some?)
      && (PastCheck(h.pc) && maxConnections > 0 ==> h.total.Some? && h.total.value <= maxConnections)
      && (h.pc.Releasing? && maxConnections > 0 ==> h.total.Some?)
      && (h.pc.Entered? || h.pc.Finishing? || h.pc.Gone? ==> h.total.None?)
    }

    constructor (maxConnections: int)
      ensures Valid() && this.maxConnections == maxConnections && handlers == map[]
    {
      this.maxConnections := maxConnections;
      connIDs, nbConn, inflight, handlers := 0, 0, 0, map[];
    }

    /** The limit: at most maxConnections requests are past the check at once. */
    lemma AtMostLimitPastCheck(past: set<int>)
      requires Valid() && maxConnections > 0
      requires forall h :: h in past ==> h in handlers && PastCheck(handlers[h].pc)
      ensures |past| <= maxConnections
    {
      forall h | h in past ensures h in Granted(handlers, maxConnections) {
        assert ValidHandler(handlers[h]);
      }
      SubsetSize(past, Granted(handlers, maxConnections));
    }

    method Arrive() returns (id: int)
      requires Valid()
      modifies this
      ensures Valid() && id !in old(handlers) && id == connIDs == old(connIDs) + 1
      ensures handlers == old(handlers)[id := Handler(Entered, None)]
      ensures inflight == old(inflight) + 1 && nbConn == old(nbConn)
    {
      inflight := inflight + 1;
      connIDs := connIDs + 1;
      id := connIDs;
      Updated(handlers, id, Handler(Entered, None), maxConnections);
      handlers := handlers[id := Handler(Entered, None)];
    }

    /** The increment returns how many handlers are in the span, this one included. */
    method Increment(id: int) returns (total: int)
      requires Valid() && maxConnections > 0 && id in handlers && handlers[id].pc.Entered?
      modifies this
      ensures Valid() && handlers == old(handlers)[id := Handler(Checking, Some(total))]
      ensures total == nbConn == old(nbConn) + 1 == |Span(handlers)|
      ensures connIDs == old(connIDs) && inflight == old(inflight)
    {
      nbConn := nbConn + 1;
      total := nbConn;
      Updated(handlers, id, Handler(Checking, Some(total)), maxConnections);
      handlers := handlers[id := Handler(Checking, Some(total))];
    }

    /** A request is refused exactly when the increment went over the limit. */
    method Check(id: int) returns (refused: bool)
      requires Valid() && id in handlers && handlers[id].pc.Checking?
      modifies this`handlers
      ensures Valid() && (refused <==> old(handlers)[id].total.value > maxConnections)
      ensures handlers == old(handlers)[id := old(handlers)[id].(pc := if refused then Releasing else Accepting)]
    {
      refused := handlers[id].total.value > maxConnections;
      Move(id, if refused then Releasing else Accepting);
    }

    /** Without a limit there is nothing to check. */
    method SkipCheck(id: int)
      requires Valid() && maxConnections <= 0 && id in handlers && handlers[id].pc.Entered?
      modifies this`handlers
      ensures Valid() && handlers == old(handlers)[id := Handler(Accepting, None)]
    {
      Move(id, Accepting);
    }

    method Accept(id: int, ok: bool)
      requires Valid() && id in handlers && handlers[id].pc.Accepting?
      modifies this`handlers
      ensures Valid()
      ensures handlers == old(handlers)[id := old(handlers)[id].(pc := if ok then Proxying else Releasing)]
    {
      Move(id, if ok then Proxying else Releasing);
    }

    /** The proxy function returns or panics: the deferred calls run in either case. */
    method ProxyEnds(id: int)
      requires Valid() && id in handlers && handlers[id].pc.Proxying?
      modifies this`handlers
      ensures Valid() && handlers == old(handlers)[id := old(handlers)[id].(pc := ClosingSocket)]
    {
      Move(id, ClosingSocket);
    }

    method CloseNow(id: int)
      requires Valid() && id in handlers && handlers[id].pc.ClosingSocket?
      modifies this`handlers
      ensures Valid() && handlers == old(handlers)[id := old(handlers)[id].(pc := Releasing)]
    {
      Move(id, Releasing);
    }

    /** The deferred decrement, run once by every handler that incremented, and by no other. */
    method Decrement(id: int)
      requires Valid() && id in handlers && handlers[id].pc.Releasing?
      modifies this
      ensures Valid() && handlers == old(handlers)[id := Handler(Finishing, None)]
      ensures nbConn == old(nbConn) - (if maxConnections > 0 then 1 else 0)
      ensures connIDs == old(connIDs) && inflight == old(inflight)
    {
      if maxConnections > 0 {
        nbConn := nbConn - 1;
      }
      Updated(handlers, id, Handler(Finishing, None), maxConnections);
      handlers := handlers[id := Handler(Finishing, None)];
    }

    method Done(id: int)
      requires Valid() && id in handlers && handlers[id].pc.Finishing?
      modifies this
      ensures Valid() && handlers == old(handlers)[id := Handler(Gone, None)]
      ensures inflight == old(inflight) - 1 && nbConn == old(nbConn) && connIDs == old(connIDs)
    {
      inflight := inflight - 1;
      Updated(handlers, id, Handler(Gone, None), maxConnections);
      handlers := handlers[id := Handler(Gone, None)];
    }

    /** Any action, if its handler has come to it; it changes the state of no other handler. */
    method Perform(a: Action)
      requires Valid()
      modifies this
      ensures Valid()
      ensures forall id :: id in old(handlers) && !a.Of(id) ==> id in handlers && handlers[id] == old(handlers)[id]
    {
      if a.ArriveAction? {
        var _ := Arrive();
      } else if a.h in handlers {
        match (a, handlers[a.h].pc) {
          case (IncrementAction(h), Entered) =>
            if maxConnections > 0 {
              var _ := Increment(h);
            }
          case (CheckAction(h), Checking) =>
            var _ := Check(h);
          case (SkipAction(h), Entered) =>
            if maxConnections <= 0 {
              SkipCheck(h);
            }
          case (AcceptAction(h, ok), Accepting) => Accept(h, ok);
          case (ProxyEndsAction(h), Proxying) => ProxyEnds(h);
          case (CloseAction(h), ClosingSocket) => CloseNow(h);
          case (DecrementAction(h), Releasing) => Decrement(h);
          case (DoneAction(h), Finishing) => Done(h);
          case _ =>
        }
      }
    }

    /** Any number of actions of the other handlers, arrivals included, between two actions of `id`. */
    method Others(id: int, script: seq<Action>)
      requires Valid() && id in handlers
      modifies this
      ensures Valid() && id in handlers && handlers[id] == old(handlers)[id]
    {
      for i := 0 to |script|
        invariant Valid() && id in handlers && handlers[id] == old(handlers)[id]
      {
        if !script[i].Of(id) {
          Perform(script[i]);
        }
      }
    }

    /** A step that touches no counter. */
    method Move(id: int, pc: HandlerPc)
      requires Valid() && id in handlers && !handlers[id].pc.Gone? && !pc.Gone?
      requires ValidHandler(handlers[id].(pc := pc))
      modifies this`handlers
      ensures Valid() && handlers == old(handlers)[id := old(handlers)[id].(pc := pc)]
    {
      Updated(handlers, id, handlers[id].(pc := pc), maxConnections);
      handlers := handlers[id := handlers[id].(pc := pc)];
    }
  }

  lemma SubsetSize(a: set<int>, b: set<int>)
    requires a <= b
    ensures |a| <= |b|
  {
    assert b == a + (b - a);
  }
}
