/** No goroutine of a stream gets stuck: from every reachable state of either end there
    is a way for it to finish, after which the end has forgotten the stream. */
module Ending {
  import opened Messages
  import Pump
  import C = Connector
  import L = Listener

  // ---------------------------------------------------------------------------
  // The pump.

  /** How far a pump is from its end. */
  function PumpRank(stage: Pump.Stage): nat {
    match stage
    case Unstarted => 5
    case Reading => 4
    case Sending(_, _) => 3
    case Announcing => 2
    case SendFailed => 1
    case Removing => 1
    case Stopped => 0
  }

  /** What brings it nearer, if everything fails that can. */
  function PumpWay(stage: Pump.Stage): Pump.Action {
    match stage
    case Sending(_, _) => Pump.Send(false)
    case Announcing => Pump.Announce(false)
    case SendFailed => Pump.Abandon
    case Removing => Pump.Remove
    case _ => Pump.Read([], true)
  }

  lemma PumpAdvances(o: Pump.Outflow, closed: bool)
    requires !o.stage.Unstarted? && !o.stage.Stopped?
    ensures Pump.Enabled(o, PumpWay(o.stage), closed)
    ensures PumpRank(Pump.Next(o, PumpWay(o.stage), closed).stage) < PumpRank(o.stage)
    ensures !Pump.Next(o, PumpWay(o.stage), closed).stage.Unstarted?
    ensures Pump.Next(o, PumpWay(o.stage), closed).stage.Stopped? <==> Pump.Unregisters(PumpWay(o.stage))
  {
  }

  // ---------------------------------------------------------------------------
  // The connector.

  function PhaseRank(x: C.Stream): nat {
    match x.phase
    case Unused => 20
    case Allocated => 16
    case PendingSet => 15
    case Registered => 14
    case Waiting => 13
    case Pumping => PumpRank(x.out.stage)
    case Aborting(_) => 2
    case Forgetting => 1
    case Finished => 0
  }

  function PhaseWay(phase: C.Phase): C.Action {
    match phase
    case PendingSet => C.Register
    case Registered => C.Open(false)
    case Waiting => C.Timeout
    case Aborting(_) => C.Unregister
    case Forgetting => C.Forget
    case _ => C.SetPending
  }

  function ConnectorWay(x: C.Stream, id: StreamId): C.Step {
    if x.phase.Pumping? then C.PumpStep(id, PumpWay(x.out.stage)) else C.Handle(id, PhaseWay(x.phase))
  }

  /** The goroutine and the pump are done and neither map has the id. */
  predicate ConnectorDone(x: C.Stream) {
    (x.phase.Finished? || (x.phase.Pumping? && x.out.stage.Stopped?)) && !x.pending && !x.registered
  }

  /** Neither is yet. */
  predicate ConnectorBusy(x: C.Stream) {
    !x.phase.Unused? && !x.phase.Finished? && !x.out.stage.Stopped?
  }

  lemma PhaseAdvances(x: C.Stream, f: C.Loop, closed: bool)
    requires C.Sound(x, f) && ConnectorBusy(x) && !x.phase.Pumping?
    ensures C.HandlerEnabled(x, PhaseWay(x.phase), closed)
    ensures var y := C.HandlerNext(x, PhaseWay(x.phase), closed);
            PhaseRank(y) < PhaseRank(x) && (ConnectorBusy(y) || ConnectorDone(y))
  {
  }

  lemma ConnectorPumpAdvances(x: C.Stream, f: C.Loop, closed: bool)
    requires C.Sound(x, f) && ConnectorBusy(x) && x.phase.Pumping?
    ensures Pump.Enabled(x.out, PumpWay(x.out.stage), closed)
    ensures var y := C.PumpNext(x, PumpWay(x.out.stage), closed);
            PhaseRank(y) < PhaseRank(x) && (ConnectorBusy(y) || ConnectorDone(y))
  {
    PumpAdvances(x.out, closed);
  }

  lemma ConnectorAdvances(c: C.State, id: StreamId)
    requires C.Inv(c) && ConnectorBusy(C.At(c, id))
    ensures var d := C.Next(c, ConnectorWay(C.At(c, id), id));
            && PhaseRank(C.At(d, id)) < PhaseRank(C.At(c, id))
            && (ConnectorBusy(C.At(d, id)) || ConnectorDone(C.At(d, id)))
  {
    var x := C.At(c, id);
    assert C.Sound(x, C.Focus(c.loop, id));
    if x.phase.Pumping? {
      ConnectorPumpAdvances(x, C.Focus(c.loop, id), c.closed);
    } else {
      PhaseAdvances(x, C.Focus(c.loop, id), c.closed);
    }
  }

  /** From every reachable state, a stream the connector is busy with can be brought to
      its end, without help of the peer. */
  lemma {:induction false} ConnectorCanFinish(c: C.State, id: StreamId) returns (steps: seq<C.Step>)
    requires C.Inv(c) && ConnectorBusy(C.At(c, id))
    ensures ConnectorDone(C.At(C.Exec(c, steps), id))
    decreases PhaseRank(C.At(c, id))
  {
    var step := ConnectorWay(C.At(c, id), id);
    var d := C.Next(c, step);
    ConnectorAdvances(c, id);
    C.ExecInv(c, [step]);
    assert C.Exec(c, [step]) == C.Exec(d, []);
    if ConnectorDone(C.At(d, id)) {
      steps := [step];
    } else {
      var rest := ConnectorCanFinish(d, id);
      steps := [step] + rest;
      assert steps[1..] == rest;
    }
  }

  // ---------------------------------------------------------------------------
  // The listener.

  function HandlerRank(x: L.Stream): nat {
    match x.handler
    case NoHandler => 20
    case Dialing => 16
    case Dialed => 15
    case Refusing => 2
    case Refused => 1
    case Draining(rest) => if rest == [] then 13 else 3
    case DrainFailed => 1
    case Acked(_) => PumpRank(x.out.stage)
    case Finished => 0
  }

  function HandlerWay(h: L.Handler): L.Action {
    match h
    case Dialed => L.HandOver
    case Refusing => L.Refuse
    case Refused => L.RefuseAck(false)
    case Draining(rest) => if rest == [] then L.Ack(false) else L.Drain(0, true)
    case DrainFailed => L.DrainClose
    case _ => L.Dial(false)
  }

  function ListenerWay(x: L.Stream, id: StreamId): L.Step {
    if x.handler.Acked? then L.PumpStep(id, PumpWay(x.out.stage)) else L.Handle(id, HandlerWay(x.handler))
  }

  predicate ListenerDone(x: L.Stream) {
    (x.handler.Finished? || (x.handler.Acked? && x.out.stage.Stopped?)) && x.entry.None?
  }

  predicate ListenerBusy(x: L.Stream) {
    !x.handler.NoHandler? && !x.handler.Finished? && !x.out.stage.Stopped?
  }

  lemma HandlerAdvances(x: L.Stream, loop: L.Loop, id: StreamId)
    requires L.Coherent(x, loop, id) && ListenerBusy(x) && !x.handler.Acked?
    ensures L.HandlerEnabled(x, HandlerWay(x.handler))
    ensures var y := L.HandlerNext(x, HandlerWay(x.handler));
            HandlerRank(y) < HandlerRank(x) && (ListenerBusy(y) || ListenerDone(y))
  {
  }

  lemma ListenerPumpAdvances(x: L.Stream, closed: bool)
    requires x.handler.Acked? && !x.out.stage.Unstarted? && !x.out.stage.Stopped?
    ensures Pump.Enabled(x.out, PumpWay(x.out.stage), closed)
    ensures var y := L.PumpNext(x, PumpWay(x.out.stage), closed);
            HandlerRank(y) < HandlerRank(x) && (ListenerBusy(y) || ListenerDone(y))
  {
    PumpAdvances(x.out, closed);
  }

  lemma ListenerAdvances(l: L.State, id: StreamId)
    requires L.Inv(l) && ListenerBusy(L.At(l, id))
    ensures var m := L.Next(l, ListenerWay(L.At(l, id), id));
            && HandlerRank(L.At(m, id)) < HandlerRank(L.At(l, id))
            && (ListenerBusy(L.At(m, id)) || ListenerDone(L.At(m, id)))
  {
    var x := L.At(l, id);
    assert L.Sound(x, l.loop, id);
    if x.handler.Acked? {
      ListenerPumpAdvances(x, l.closed);
      assert L.At(L.Next(l, ListenerWay(x, id)), id) == L.PumpNext(x, PumpWay(x.out.stage), l.closed);
    } else {
      HandlerAdvances(x, l.loop, id);
      assert L.At(L.Next(l, ListenerWay(x, id)), id) == L.HandlerNext(x, HandlerWay(x.handler));
    }
  }

  /** The same for a stream the listener is busy with. */
  lemma {:induction false} ListenerCanFinish(l: L.State, id: StreamId) returns (steps: seq<L.Step>)
    requires L.Inv(l) && ListenerBusy(L.At(l, id))
    ensures ListenerDone(L.At(L.Exec(l, steps), id))
    decreases HandlerRank(L.At(l, id))
  {
    var step := ListenerWay(L.At(l, id), id);
    var m := L.Next(l, step);
    ListenerAdvances(l, id);
    L.ExecInv(l, [step]);
    assert L.Exec(l, [step]) == L.Exec(m, []);
    if ListenerDone(L.At(m, id)) {
      steps := [step];
    } else {
      var rest := ListenerCanFinish(m, id);
      steps := [step] + rest;
      assert steps[1..] == rest;
    }
  }

  /** In every run of either end, whatever the peer does, every stream that has begun and
      whose pump has not been stopped by `Close` can still end, or has ended, with the id
      in no map. */
  lemma NoStreamGetsStuck(cs: seq<C.Step>, ls: seq<L.Step>, id: StreamId)
    ensures ConnectorBusy(C.At(C.Exec(C.INIT, cs), id)) ==>
              exists steps :: ConnectorDone(C.At(C.Exec(C.Exec(C.INIT, cs), steps), id))
    ensures ListenerBusy(L.At(L.Exec(L.INIT, ls), id)) ==>
              exists steps :: ListenerDone(L.At(L.Exec(L.Exec(L.INIT, ls), steps), id))
  {
    C.InitInv();
    C.ExecInv(C.INIT, cs);
    L.InitInv();
    L.ExecInv(L.INIT, ls);
    if ConnectorBusy(C.At(C.Exec(C.INIT, cs), id)) {
      var steps := ConnectorCanFinish(C.Exec(C.INIT, cs), id);
    }
    if ListenerBusy(L.At(L.Exec(L.INIT, ls), id)) {
      var steps := ListenerCanFinish(L.Exec(L.INIT, ls), id);
    }
  }
}
