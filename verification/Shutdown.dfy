/** How an end shuts down: `Close` of either end (pkg/tunnel/connector.go:375-411,
    pkg/tunnel/listener.go:368-400), and the end of its message loop. */
module Shutdown {
  import opened Messages
  import Pump
  import C = Connector
  import L = Listener

  // ---------------------------------------------------------------------------
  // The connector.

  /** `Close`, its Disconnect sent. */
  function ConnectorClosed(c: C.State): C.State {
    C.Next(C.Next(C.Next(c, C.Signal), C.Farewell(true)), C.Clear)
  }

  /** From every reachable state: `Close` says goodbye to the broker and drops every
      stream; a goroutine waiting for an ack can then give up and forget its channel, a
      pump between two reads can stop, and a loop between two messages can end. */
  lemma ConnectorShutsDown(c: C.State, id: StreamId)
    requires C.Inv(c)
    ensures var d := ConnectorClosed(c);
            && C.Sent(C.Next(c, C.Signal), C.Farewell(true)) == [Disconnect("connector shutting down")]
            && d.closed && !C.At(d, id).registered && C.At(d, id).phase == C.At(c, id).phase
            && (C.At(c, id).phase.Waiting? ==> GivesUp(d, id))
            && (C.At(c, id).out.stage.Reading? ==>
                  C.At(C.Next(d, C.PumpStep(id, Pump.Stop)), id).out.stage.Stopped?)
            && (c.loop.Idle? ==> C.Next(d, C.EndLoop).loop.Ended?)
  {
    var c1 := C.Next(c, C.Signal);
    var c2 := C.Next(c1, C.Farewell(true));
    assert C.At(c1, id) == C.At(c, id) && c1.closed && c2 == c1;
    var d := ConnectorClosed(c);
    assert C.At(d, id) == C.At(c, id).(registered := false);
    if C.At(c, id).phase.Waiting? {
      WaiterGivesUp(d, id);
    }
  }

  /** Cancelled, removed and forgotten. */
  predicate GivesUp(d: C.State, id: StreamId) {
    var e := C.Next(C.Next(C.Next(d, C.Handle(id, C.Cancel)), C.Handle(id, C.Unregister)), C.Handle(id, C.Forget));
    C.At(e, id).phase.Finished? && !C.At(e, id).pending && !C.At(e, id).registered
  }

  lemma WaiterGivesUp(d: C.State, id: StreamId)
    requires d.closed && C.At(d, id).phase.Waiting?
    ensures GivesUp(d, id)
  {
    var e1 := C.Next(d, C.Handle(id, C.Cancel));
    assert C.At(e1, id) == C.At(d, id).(phase := C.Aborting(true));
    var e2 := C.Next(e1, C.Handle(id, C.Unregister));
    assert C.At(e2, id) == C.At(d, id).(phase := C.Forgetting, registered := false);
  }

  /** A loop that has ended takes nothing more. */
  lemma ConnectorIdles(c: C.State, step: C.Step, id: StreamId)
    requires c.loop.Ended?
    ensures C.Next(c, step).loop.Ended? && C.At(C.Next(c, step), id).accepted == C.At(c, id).accepted
  {
    if !C.Touches(c, step, id) {
      C.Untouched(c, step, id);
    } else if C.Enabled(c, step) {
      C.Touched(c, step, id);
    }
  }

  lemma {:induction false} ConnectorStaysEnded(c: C.State, steps: seq<C.Step>, id: StreamId)
    requires c.loop.Ended?
    ensures C.Exec(c, steps).loop.Ended? && C.At(C.Exec(c, steps), id).accepted == C.At(c, id).accepted
    decreases |steps|
  {
    if steps != [] {
      ConnectorIdles(c, steps[0], id);
      ConnectorStaysEnded(C.Next(c, steps[0]), steps[1..], id);
    }
  }

  /** A Disconnect is the last message the connector takes. */
  lemma ConnectorDisconnects(c: C.State, reason: string, steps: seq<C.Step>, id: StreamId)
    requires C.Enabled(c, C.Recv(Disconnect(reason)))
    ensures var d := C.Exec(C.Next(c, C.Recv(Disconnect(reason))), steps);
            d.loop.Ended? && C.At(d, id).accepted == C.At(c, id).accepted
  {
    ConnectorStaysEnded(C.Next(c, C.Recv(Disconnect(reason))), steps, id);
  }

  // ---------------------------------------------------------------------------
  // The listener.

  function ListenerClosed(l: L.State): L.State {
    L.Next(L.Next(L.Next(l, L.Signal), L.Farewell(true)), L.Clear)
  }

  lemma ListenerShutsDown(l: L.State, id: StreamId)
    ensures var m := ListenerClosed(l);
            && L.Sent(L.Next(l, L.Signal), L.Farewell(true)) == [Disconnect("listener shutting down")]
            && m.closed && L.At(m, id).entry.None? && L.At(m, id).handler == L.At(l, id).handler
            && (L.At(l, id).out.stage.Reading? ==>
                  L.At(L.Next(m, L.PumpStep(id, Pump.Stop)), id).out.stage.Stopped?)
            && (l.loop.Idle? ==> L.Next(m, L.EndLoop).loop.Ended?)
  {
    var l1 := L.Next(l, L.Signal);
    var l2 := L.Next(l1, L.Farewell(true));
    assert L.At(l1, id) == L.At(l, id) && l1.closed && l2 == l1;
    assert L.At(ListenerClosed(l), id) == L.Unregister(L.At(l, id));
  }

  lemma ListenerIdles(l: L.State, step: L.Step, id: StreamId)
    requires l.loop.Ended?
    ensures L.Next(l, step).loop.Ended? && L.At(L.Next(l, step), id).accepted == L.At(l, id).accepted
  {
    if !L.Touches(l, step, id) {
      L.Untouched(l, step, id);
    } else if L.Enabled(l, step) && step.Handle? {
      assert L.At(L.Next(l, step), id) == L.HandlerNext(L.At(l, id), step.action);
    }
  }

  lemma {:induction false} ListenerStaysEnded(l: L.State, steps: seq<L.Step>, id: StreamId)
    requires l.loop.Ended?
    ensures L.Exec(l, steps).loop.Ended? && L.At(L.Exec(l, steps), id).accepted == L.At(l, id).accepted
    decreases |steps|
  {
    if steps != [] {
      ListenerIdles(l, steps[0], id);
      ListenerStaysEnded(L.Next(l, steps[0]), steps[1..], id);
    }
  }

  /** A Disconnect is the last message the listener takes. */
  lemma ListenerDisconnects(l: L.State, reason: string, steps: seq<L.Step>, id: StreamId)
    requires L.Enabled(l, L.Recv(Disconnect(reason)))
    ensures var m := L.Exec(L.Next(l, L.Recv(Disconnect(reason))), steps);
            m.loop.Ended? && L.At(m, id).accepted == L.At(l, id).accepted
  {
    ListenerStaysEnded(L.Next(l, L.Recv(Disconnect(reason))), steps, id);
  }
}
