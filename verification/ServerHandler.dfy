/** `handleConnection`: one request from its arrival to the last deferred call, while any number of other requests are
    handled at the same time. */
module ServerHandler {
  import opened Admission
  import opened Oob
  import opened ServerProxy
  import opened Wire

  /** Whether the request was refused, whether the socket was handed to the proxy function, and whether that
      panicked. */
  datatype Handled = Handled(refused: bool, proxied: bool, panicked: bool)

  /** Between any two actions of this request the others act as `others` says. On every path, whether refused, not
      upgraded, proxied to the end or panicking, the deferred calls run once each: the request ends in no count. */
  method HandleConnection(conns: Connections, accepted: bool, encode: Payload -> string, env: Environment,
                          others: nat -> seq<Action>)
    returns (id: int, total: int, r: Handled)
    requires conns.Valid()
    modifies conns
    ensures conns.Valid() && id in conns.handlers && conns.handlers[id] == Handler(Gone, None)
    ensures id !in Span(conns.handlers) && id !in InFlight(conns.handlers)
    ensures r.refused <==> conns.maxConnections > 0 && total > conns.maxConnections
    ensures r.proxied <==> !r.refused && accepted
    ensures r.panicked <==> r.proxied && env.Panics()
  {
    total, r := 0, Handled(false, false, false);
    id := conns.Arrive();
    conns.Others(id, others(0));
    if conns.maxConnections > 0 {
      total := conns.Increment(id);
      conns.Others(id, others(1));
      var refused := conns.Check(id);
      r := r.(refused := refused);
    } else {
      conns.SkipCheck(id);
    }
    conns.Others(id, others(2));
    if !r.refused {
      conns.Accept(id, accepted);
      conns.Others(id, others(3));
      if accepted {
        var _, _, panicked := Proxy(encode, env);
        r := r.(proxied := true, panicked := panicked);
        conns.Others(id, others(4));
        conns.ProxyEnds(id);
        conns.Others(id, others(5));
        conns.CloseNow(id);
        conns.Others(id, others(6));
      }
    }
    conns.Decrement(id);
    conns.Others(id, others(7));
    conns.Done(id);
  }
}
