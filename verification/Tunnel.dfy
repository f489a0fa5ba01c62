/** The whole tunnel: a connector and a listener joined by two FIFO channels, which
    is what the broker's relay makes of their sessions. The broker may add its own
    heartbeats and disconnects and consumes the heartbeats of the clients. */
module Tunnel {
  import opened Messages
  import Pump
  import C = Connector
  import L = Listener

  datatype State = State(c: C.State, l: L.State, toListener: seq<Envelope>, toConnector: seq<Envelope>)

  const INIT := State(C.INIT, L.INIT, [], [])

  datatype Step =
    | ByConnector(cstep: C.Step)
    | ByListener(lstep: L.Step)
    | ListenerReceives
    | ConnectorReceives
    | BrokerToListener(env: Envelope)
    | BrokerToConnector(env: Envelope)

  predicate Enabled(s: State, step: Step) {
    match step
    case ByConnector(cs) => !cs.Recv?
    case ByListener(ls) => !ls.Recv?
    case ListenerReceives => s.toListener != [] && L.Enabled(s.l, L.Recv(s.toListener[0]))
    case ConnectorReceives => s.toConnector != [] && C.Enabled(s.c, C.Recv(s.toConnector[0]))
    case BrokerToListener(env) => env.Heartbeat? || env.Disconnect?
    case BrokerToConnector(env) => env.Heartbeat? || env.Disconnect?
  }

  function Next(s: State, step: Step): State {
    if !Enabled(s, step) then s
    else match step
      case ByConnector(cs) =>
        s.(c := C.Next(s.c, cs), toListener := s.toListener + NonHeartbeats(C.Sent(s.c, cs)))
      case ByListener(ls) =>
        s.(l := L.Next(s.l, ls), toConnector := s.toConnector + NonHeartbeats(L.Sent(s.l, ls)))
      case ListenerReceives =>
        var r := L.Recv(s.toListener[0]);
        s.(l := L.Next(s.l, r), toListener := s.toListener[1..],
           toConnector := s.toConnector + NonHeartbeats(L.Sent(s.l, r)))
      case ConnectorReceives =>
        var r := C.Recv(s.toConnector[0]);
        s.(c := C.Next(s.c, r), toConnector := s.toConnector[1..],
           toListener := s.toListener + NonHeartbeats(C.Sent(s.c, r)))
      case BrokerToListener(env) => s.(toListener := s.toListener + [env])
      case BrokerToConnector(env) => s.(toConnector := s.toConnector + [env])
  }

  function Exec(s: State, steps: seq<Step>): State
    decreases |steps|
  {
    if steps == [] then s else Exec(Next(s, steps[0]), steps[1..])
  }

  // ---------------------------------------------------------------------------
  // What concerns one stream, and what is always true of it.

  datatype View = View(
    c: C.Stream, cf: C.Loop,          // the connector's part
    l: L.Stream, lf: L.Loop,          // the listener's part
    there: seq<Envelope>,             // under way to the listener
    back: seq<Envelope>)              // under way to the connector

  function Of(s: State, id: StreamId): View {
    View(C.At(s.c, id), C.Focus(s.c.loop, id), L.At(s.l, id), L.Focus(s.l.loop, id),
         About(s.toListener, id), About(s.toConnector, id))
  }

  /** Nobody has heard of the stream but the connector. */
  ghost predicate Unheard(v: View) {
    v.there == [] && v.back == [] && v.l == L.FRESH && v.lf.Idle? && v.c.accepted == [] && v.cf.Idle? && v.c.ackCh == []
  }

  /** The connector holds, or is about to take, a positive ack. */
  predicate AckSeen(c: C.Stream, cf: C.Loop) {
    (cf.Delivering? && cf.success) || true in c.ackCh || c.phase.Pumping?
  }

  /** A positive ack is on its way to the connector. */
  predicate IsAck(m: Envelope) {
    m.OpenStreamAck? && m.success
  }

  /** OpenStream travels alone and reaches a listener that does not know the id. */
  ghost predicate OpensOnce(v: View, id: StreamId) {
    && (C.Early(v.c.phase) || v.c.phase.Registered? ==> Unheard(v))
    && (v.l.handler.NoHandler? ==>
          && (v.there == [] || v.there == [OpenStream(id)])
          && v.back == [] && v.l == L.FRESH && v.lf.Idle? && v.c.accepted == [] && v.cf.Idle?)
    && (!v.l.handler.NoHandler? ==> forall m :: m in v.there ==> !m.OpenStream?)
  }

  /** Data and CloseStream follow only the ack. */
  ghost predicate AckFirst(v: View, id: StreamId) {
    && (AckSeen(v.c, v.cf) ==> v.l.handler == L.Acked(true))
    && (forall m :: m in v.back && IsAck(m) ==> v.l.handler == L.Acked(true))
    && (!v.c.phase.Pumping? ==> v.there == [] || v.there == [OpenStream(id)])
  }

  /** Connector to listener: what was accepted, then what is under way, is what was
      sent, as long as the listener has the stream registered. */
  ghost predicate FlowsThere(v: View) {
    && Flat(v.l.accepted) <= v.c.out.sent
    && (v.l.entry.Some? ==> Flat(v.l.accepted) + Flat(Payloads(v.there)) == v.c.out.sent)
  }

  /** Listener to connector, likewise. */
  ghost predicate FlowsBack(v: View) {
    && Flat(v.c.accepted) <= v.l.out.sent
    && (v.c.registered ==> Flat(v.c.accepted) + Flat(Payloads(v.back)) == v.l.out.sent)
  }

  /** An end that was announced is heard of: the other end has dropped the stream, or the
      announcement is under way. */
  ghost predicate Told(v: View, id: StreamId) {
    && (v.c.out.announced ==> v.l.entry.None? || CloseStream(id) in v.there)
    && (v.l.out.announced ==> !v.c.registered || CloseStream(id) in v.back)
  }

  ghost predicate Linked(v: View, id: StreamId) {
    OpensOnce(v, id) && AckFirst(v, id) && FlowsThere(v) && FlowsBack(v) && Told(v, id)
  }

  ghost predicate Inv(s: State) {
    C.Inv(s.c) && L.Inv(s.l) && forall id: StreamId :: Linked(Of(s, id), id) && L.Calm(L.At(s.l, id), s.l.loop, id)
  }

  // ---------------------------------------------------------------------------
  // The connector moves.

  function AfterHandle(v: View, a: C.Action, closed: bool, id: StreamId): View
    requires C.HandlerEnabled(v.c, a, closed)
  {
    v.(c := C.HandlerNext(v.c, a, closed), there := v.there + if a == C.Open(true) then [OpenStream(id)] else [])
  }

  lemma HandleOrdered(v: View, a: C.Action, closed: bool, id: StreamId)
    requires OpensOnce(v, id) && AckFirst(v, id) && C.Sound(v.c, v.cf) && C.HandlerEnabled(v.c, a, closed)
    ensures OpensOnce(AfterHandle(v, a, closed, id), id) && AckFirst(AfterHandle(v, a, closed, id), id)
  {
    var w := AfterHandle(v, a, closed, id);
    assert w.there == if a == C.Open(true) then [OpenStream(id)] else v.there;
  }

  lemma HandleFlows(v: View, a: C.Action, closed: bool, id: StreamId)
    requires OpensOnce(v, id) && C.Sound(v.c, v.cf) && C.HandlerEnabled(v.c, a, closed)
    requires FlowsThere(v) && FlowsBack(v)
    ensures FlowsThere(AfterHandle(v, a, closed, id)) && FlowsBack(AfterHandle(v, a, closed, id))
  {
    var w := AfterHandle(v, a, closed, id);
    assert w.c.out.sent == v.c.out.sent;
    PayloadsAppend(v.there, [OpenStream(id)]);
    assert Payloads([OpenStream(id)]) == [];
    assert v.there + [] == v.there;
    assert Payloads(w.there) == Payloads(v.there);
  }

  function AfterPump(v: View, a: Pump.Action, closed: bool, id: StreamId): View
    requires Pump.Enabled(v.c.out, a, closed)
  {
    v.(c := C.PumpNext(v.c, a, closed), there := v.there + Pump.Emits(v.c.out, a, closed, id))
  }

  lemma PumpLinked(v: View, a: Pump.Action, closed: bool, id: StreamId)
    requires Linked(v, id) && C.Sound(v.c, v.cf) && Pump.Enabled(v.c.out, a, closed)
    ensures Linked(AfterPump(v, a, closed, id), id)
  {
    var w := AfterPump(v, a, closed, id);
    PumpFlows(Flat(v.l.accepted), v.there, v.c.out, a, closed, id);
    assert w.c.accepted == v.c.accepted && w.c.phase == v.c.phase && w.c.ackCh == v.c.ackCh;
    assert OpensOnce(w, id);
    assert AckFirst(w, id);
    if v.l.entry.Some? {
      assert Flat(v.l.accepted) + Flat(Payloads(w.there)) == w.c.out.sent;
    }
  }

  /** A pump adds to its channel what it adds to its sent bytes. */
  lemma PumpFlows(before: Bytes, channel: seq<Envelope>, o: Pump.Outflow, a: Pump.Action, closed: bool, id: StreamId)
    requires Pump.Enabled(o, a, closed)
    ensures before + Flat(Payloads(channel)) == o.sent ==>
              before + Flat(Payloads(channel + Pump.Emits(o, a, closed, id))) == Pump.Next(o, a, closed).sent
    ensures o.sent <= Pump.Next(o, a, closed).sent
  {
    var emitted := Pump.Emits(o, a, closed, id);
    PayloadsAppend(channel, emitted);
    if a == Pump.Send(true) {
      FlatSnoc(Payloads(channel), o.stage.chunk);
      assert Payloads(emitted) == [o.stage.chunk];
    } else {
      assert Payloads(channel) + [] == Payloads(channel);
    }
  }

  /** The loop puts the ack it took into the channel. */
  lemma DeliverLinked(v: View, id: StreamId)
    requires Linked(v, id) && v.cf.Delivering?
    ensures Linked(v.(c := v.c.(ackCh := v.c.ackCh + [v.cf.success], delivered := v.c.delivered + 1), cf := C.Idle), id)
  {
  }

  /** Writing to or dropping the local connection concerns the connector alone. */
  lemma LocalLinked(v: View, c: C.Stream, cf: C.Loop, id: StreamId)
    requires Linked(v, id)
    requires c == v.c.(registered := c.registered, written := c.written, broken := c.broken)
    requires c.registered ==> v.c.registered
    requires cf == v.cf || (cf.Idle? && !v.cf.Delivering?) || (cf.WriteFailed? && v.cf.Writing?)
    ensures Linked(v.(c := c, cf := cf), id)
  {
  }

  // ---------------------------------------------------------------------------
  // The listener moves.

  function AfterListener(v: View, a: L.Action, id: StreamId): View
    requires L.HandlerEnabled(v.l, a)
  {
    v.(l := L.HandlerNext(v.l, a), back := v.back + L.AckOf(a, id))
  }

  /** `handleOpenStream` keeps what was accepted and sent, and registers nothing. */
  lemma ListenerKeeps(l: L.Stream, a: L.Action, f: L.Loop, id: StreamId)
    requires L.Coherent(l, f, id) && L.HandlerEnabled(l, a)
    ensures var m := L.HandlerNext(l, a);
            && m.out.sent == l.out.sent && m.accepted == l.accepted
            && (m.entry.Some? ==> l.entry.Some?) && !m.handler.NoHandler?
            && (l.handler.Acked? ==> m.handler == l.handler)
            && (L.IsPositive(a) ==> m.handler == L.Acked(true))
  {
  }

  lemma ListenerOrdered(v: View, a: L.Action, id: StreamId)
    requires OpensOnce(v, id) && AckFirst(v, id) && L.Coherent(v.l, v.lf, id) && L.HandlerEnabled(v.l, a)
    ensures OpensOnce(AfterListener(v, a, id), id) && AckFirst(AfterListener(v, a, id), id)
  {
    var w := AfterListener(v, a, id);
    ListenerKeeps(v.l, a, v.lf, id);
    assert forall m :: m in w.back && IsAck(m) ==> m in v.back || L.IsPositive(a);
    assert !v.l.handler.NoHandler?;
  }

  lemma ListenerHandles(v: View, a: L.Action, id: StreamId)
    requires Linked(v, id) && L.Coherent(v.l, v.lf, id) && L.HandlerEnabled(v.l, a)
    ensures Linked(AfterListener(v, a, id), id)
  {
    ListenerOrdered(v, a, id);
    ListenerKeeps(v.l, a, v.lf, id);
    PayloadsAppend(v.back, L.AckOf(a, id));
    assert Payloads(L.AckOf(a, id)) == [];
    assert Payloads(v.back) + [] == Payloads(v.back);
  }

  lemma ListenerPumps(v: View, a: Pump.Action, closed: bool, id: StreamId)
    requires Linked(v, id) && L.Coherent(v.l, v.lf, id) && Pump.Enabled(v.l.out, a, closed)
    ensures Linked(v.(l := L.PumpNext(v.l, a, closed), back := v.back + Pump.Emits(v.l.out, a, closed, id)), id)
  {
    var w := v.(l := L.PumpNext(v.l, a, closed), back := v.back + Pump.Emits(v.l.out, a, closed, id));
    PumpFlows(Flat(v.c.accepted), v.back, v.l.out, a, closed, id);
    assert w.l.accepted == v.l.accepted && w.l.handler == v.l.handler && w.l.out == Pump.Next(v.l.out, a, closed);
    assert w.l.entry.Some? ==> v.l.entry.Some?;
    if v.c.registered {
      assert Flat(v.c.accepted) + Flat(Payloads(w.back)) == w.l.out.sent;
    }
  }

  /** Writing to or dropping the service's connection concerns the listener alone. */
  lemma ServiceLinked(v: View, l: L.Stream, lf: L.Loop, id: StreamId)
    requires Linked(v, id) && !v.l.handler.NoHandler?
    requires l.handler == v.l.handler && l.out == v.l.out && l.accepted == v.l.accepted
    requires l.entry.Some? ==> v.l.entry.Some?
    ensures Linked(v.(l := l, lf := lf), id)
  {
  }

  // ---------------------------------------------------------------------------
  // A message arrives.

  lemma ListenerOpens(v: View, id: StreamId)
    requires Linked(v, id) && C.Sound(v.c, v.cf) && v.there != [] && v.there[0] == OpenStream(id)
    ensures v.l == L.FRESH
    ensures Linked(v.(l := L.OPENED, there := v.there[1..]), id)
  {
    assert v.there[0] in v.there;
    assert v.there[1..] == [];
  }

  lemma ListenerAccepts(v: View, p: Bytes, lf: L.Loop, id: StreamId)
    requires Linked(v, id) && v.there != [] && v.there[0] == Data(id, p)
    ensures v.l.handler.Acked?
    ensures v.l.entry.Some? ==> Linked(v.(l := L.Accept(v.l, p), lf := lf, there := v.there[1..]), id)
    ensures v.l.entry.None? ==> Linked(v.(there := v.there[1..]), id)
  {
    assert v.there[0] in v.there;
    assert v.c.phase.Pumping?;
    FlatSnoc(v.l.accepted, p);
    var rest := v.there[1..];
    assert Flat(Payloads(v.there)) == p + Flat(Payloads(rest)) by {
      assert Payloads(v.there) == [p] + Payloads(rest);
    }
    assert forall m :: m in rest ==> m in v.there;
    assert Flat(v.l.accepted) + (p + Flat(Payloads(rest))) == (Flat(v.l.accepted) + p) + Flat(Payloads(rest));
  }

  lemma ListenerCloses(v: View, id: StreamId)
    requires Linked(v, id) && v.there != [] && !v.there[0].OpenStream? && !v.there[0].Data?
    ensures Linked(v.(l := L.Unregister(v.l), there := v.there[1..]), id)
    ensures !v.there[0].CloseStream? ==> Linked(v.(there := v.there[1..]), id)
  {
    assert v.there[0] in v.there;
    assert v.c.phase.Pumping?;
    var rest := v.there[1..];
    assert Payloads(v.there) == Payloads(rest);
    assert forall m :: m in rest ==> m in v.there;
  }

  lemma ConnectorTakesAck(v: View, id: StreamId)
    requires Linked(v, id) && v.cf.Idle? && v.back != [] && v.back[0].OpenStreamAck?
    ensures v.c.pending ==>
              Linked(v.(c := v.c.(pending := false, answer := Some(v.back[0].success)),
                        cf := C.Delivering(id, v.back[0].success), back := v.back[1..]), id)
    ensures Linked(v.(back := v.back[1..]), id)
  {
    assert v.back[0] in v.back;
    assert Payloads(v.back) == Payloads(v.back[1..]);
    assert forall m :: m in v.back[1..] ==> m in v.back;
  }

  lemma ConnectorAccepts(v: View, p: Bytes, id: StreamId)
    requires Linked(v, id) && v.cf.Idle? && v.back != [] && v.back[0] == Data(id, p)
    ensures v.c.registered ==>
              Linked(v.(c := v.c.(accepted := v.c.accepted + [p]), cf := C.Writing(id, p), back := v.back[1..]), id)
    ensures !v.c.registered ==> Linked(v.(back := v.back[1..]), id)
  {
    assert v.back[0] in v.back;
    FlatSnoc(v.c.accepted, p);
    var rest := v.back[1..];
    assert Flat(Payloads(v.back)) == p + Flat(Payloads(rest)) by {
      assert Payloads(v.back) == [p] + Payloads(rest);
    }
    assert forall m :: m in rest ==> m in v.back;
    assert Flat(v.c.accepted) + (p + Flat(Payloads(rest))) == (Flat(v.c.accepted) + p) + Flat(Payloads(rest));
  }

  lemma ConnectorCloses(v: View, id: StreamId)
    requires Linked(v, id) && v.back != [] && !v.back[0].Data?
    ensures Linked(v.(c := v.c.(registered := false), back := v.back[1..]), id)
    ensures !v.back[0].CloseStream? ==> Linked(v.(back := v.back[1..]), id)
  {
    assert v.back[0] in v.back;
    assert Payloads(v.back) == Payloads(v.back[1..]);
    assert forall m :: m in v.back[1..] ==> m in v.back;
  }

  // ---------------------------------------------------------------------------
  // Every step of the tunnel.

  /** What a connector step other than a receive puts on its way about stream `id`. */
  lemma ConnectorSends(c: C.State, cs: C.Step, id: StreamId)
    ensures About(NonHeartbeats(C.Sent(c, cs)), id) ==
              if !C.Enabled(c, cs) then []
              else if cs == C.Handle(id, C.Open(true)) then [OpenStream(id)]
              else if cs.PumpStep? && cs.id == id then Pump.Emits(C.At(c, id).out, cs.pump, c.closed, id)
              else []
  {
  }

  lemma ListenerSends(l: L.State, ls: L.Step, id: StreamId)
    ensures About(NonHeartbeats(L.Sent(l, ls)), id) ==
              if !L.Enabled(l, ls) then []
              else if ls.Handle? && ls.id == id then L.AckOf(ls.action, id)
              else if ls.PumpStep? && ls.id == id then Pump.Emits(L.At(l, id).out, ls.pump, l.closed, id)
              else []
  {
    if L.Enabled(l, ls) && ls.Handle? {
      var ack := L.AckOf(ls.action, ls.id);
      if ack != [] {
        assert ack == [ack[0]] && ack[0].OpenStreamAck? && ack[0].streamId == ls.id;
        AboutOne(ack[0], id);
      }
      assert NonHeartbeats(ack) == ack;
      assert L.Sent(l, ls) == ack;
    }
  }

  /** What is under way to the listener after a connector step. */
  lemma ConnectorStepThere(s: State, cs: C.Step, id: StreamId)
    requires !cs.Recv?
    ensures var t := Next(s, ByConnector(cs));
            Of(t, id) == Of(s, id).(
              c := C.At(C.Next(s.c, cs), id), cf := C.Focus(C.Next(s.c, cs).loop, id),
              there := Of(s, id).there + About(NonHeartbeats(C.Sent(s.c, cs)), id))
  {
    AboutAppend(s.toListener, NonHeartbeats(C.Sent(s.c, cs)), id);
  }

  lemma ConnectorStepView(s: State, cs: C.Step, id: StreamId)
    requires !cs.Recv?
    ensures var v, w := Of(s, id), Of(Next(s, ByConnector(cs)), id);
            if !C.Enabled(s.c, cs) || !C.Touches(s.c, cs, id) then w == v
            else if cs.Handle? then w == AfterHandle(v, cs.action, s.c.closed, id)
            else if cs.PumpStep? then w == AfterPump(v, cs.pump, s.c.closed, id)
            else w == v.(c := C.At(C.Next(s.c, cs), id), cf := C.Focus(C.Next(s.c, cs).loop, id))
  {
    var v := Of(s, id);
    ConnectorStepThere(s, cs, id);
    ConnectorSends(s.c, cs, id);
    assert v.there + [] == v.there;
    if !C.Touches(s.c, cs, id) {
      C.Untouched(s.c, cs, id);
    }
  }

  lemma ConnectorStepLinked(s: State, cs: C.Step, id: StreamId)
    requires Linked(Of(s, id), id) && C.Inv(s.c) && !cs.Recv?
    ensures Linked(Of(Next(s, ByConnector(cs)), id), id)
  {
    var v := Of(s, id);
    assert C.Sound(v.c, v.cf);
    ConnectorStepView(s, cs, id);
    if C.Touches(s.c, cs, id) && C.Enabled(s.c, cs) {
      if cs.Handle? {
        HandleLinked(v, cs.action, s.c.closed, id);
      } else if cs.PumpStep? {
        PumpLinked(v, cs.pump, s.c.closed, id);
      } else {
        ConnectorLoopLinked(s, cs, id);
      }
    }
  }

  lemma HandleLinked(v: View, a: C.Action, closed: bool, id: StreamId)
    requires Linked(v, id) && C.Sound(v.c, v.cf) && C.HandlerEnabled(v.c, a, closed)
    ensures Linked(AfterHandle(v, a, closed, id), id)
  {
    HandleOrdered(v, a, closed, id);
    HandleFlows(v, a, closed, id);
    HandleTold(v, a, closed, id);
  }

  lemma HandleTold(v: View, a: C.Action, closed: bool, id: StreamId)
    requires OpensOnce(v, id) && Told(v, id) && C.Sound(v.c, v.cf) && C.HandlerEnabled(v.c, a, closed)
    ensures Told(AfterHandle(v, a, closed, id), id)
  {
  }

  lemma ConnectorLoopLinked(s: State, cs: C.Step, id: StreamId)
    requires Linked(Of(s, id), id) && C.Inv(s.c) && C.Touches(s.c, cs, id) && C.Enabled(s.c, cs)
    requires cs.Accept? || cs.Deliver? || cs.Write? || cs.CloseFailed? || cs.Clear?
    ensures Linked(Of(s, id).(c := C.At(C.Next(s.c, cs), id), cf := C.Focus(C.Next(s.c, cs).loop, id)), id)
  {
    var v, c, cf := Of(s, id), C.At(C.Next(s.c, cs), id), C.Focus(C.Next(s.c, cs).loop, id);
    if cs.Deliver? {
      DeliverLinked(v, id);
    } else if cs.Accept? {
      assert v.c.phase.Unused?;
    } else {
      LocalLinked(v, c, cf, id);
    }
  }

  lemma ListenerStepLinked(s: State, ls: L.Step, id: StreamId)
    requires Linked(Of(s, id), id) && L.Inv(s.l) && !ls.Recv?
    ensures Linked(Of(Next(s, ByListener(ls)), id), id)
  {
    var v, t := Of(s, id), Next(s, ByListener(ls));
    CoherentFocus(s.l, id);
    AboutAppend(s.toConnector, NonHeartbeats(L.Sent(s.l, ls)), id);
    ListenerSends(s.l, ls, id);
    assert v.back + [] == v.back;
    if !L.Touches(s.l, ls, id) {
      L.Untouched(s.l, ls, id);
      assert Of(t, id) == v;
    } else if !L.Enabled(s.l, ls) {
      assert Of(t, id) == v;
    } else if ls.Handle? {
      ListenerHandles(v, ls.action, id);
    } else if ls.PumpStep? {
      ListenerPumps(v, ls.pump, s.l.closed, id);
    } else {
      ListenerLoopLinked(s, ls, id);
    }
  }

  lemma CoherentFocus(l: L.State, id: StreamId)
    requires L.Inv(l)
    ensures L.Coherent(L.At(l, id), L.Focus(l.loop, id), id)
  {
    L.SoundFocus(L.At(l, id), l.loop, id);
    assert L.Sound(L.At(l, id), l.loop, id);
  }

  lemma ListenerLoopLinked(s: State, ls: L.Step, id: StreamId)
    requires Linked(Of(s, id), id) && L.Touches(s.l, ls, id) && L.Enabled(s.l, ls)
    requires L.Coherent(L.At(s.l, id), L.Focus(s.l.loop, id), id)
    requires ls.Write? || ls.CloseFailed? || ls.Clear?
    ensures Linked(Of(s, id).(l := L.At(L.Next(s.l, ls), id), lf := L.Focus(L.Next(s.l, ls).loop, id)), id)
  {
    var v, l, lf := Of(s, id), L.At(L.Next(s.l, ls), id), L.Focus(L.Next(s.l, ls).loop, id);
    if v.l.handler.NoHandler? {
      assert l == v.l && lf == v.lf;
    } else {
      ServiceLinked(v, l, lf, id);
    }
  }

  /** Taking the first message off a channel takes it off the view it concerns. */
  lemma AboutTail(channel: seq<Envelope>, id: StreamId)
    requires channel != []
    ensures Concerns(channel[0], id) ==> About(channel, id) == [channel[0]] + About(channel[1..], id)
    ensures Concerns(channel[0], id) ==> About(channel[1..], id) == About(channel, id)[1..]
    ensures !Concerns(channel[0], id) ==> About(channel[1..], id) == About(channel, id)
  {
  }

  /** What is left of a stream's view when the listener takes message `m` for it. */
  function AfterReceipt(v: View, m: Envelope, id: StreamId): View
    requires v.there != []
  {
    var w := v.(there := v.there[1..]);
    match m
    case OpenStream(_) => w.(l := L.OPENED)
    case Data(_, p) =>
      if v.l.entry.None? then w
      else w.(l := L.Accept(v.l, p), lf := if v.l.entry.value.hasConn then L.Writing(id, p) else v.lf)
    case CloseStream(_) => w.(l := L.Unregister(v.l))
    case _ => w
  }

  lemma ListenerReceiptView(s: State, id: StreamId)
    requires Enabled(s, ListenerReceives)
    ensures Concerns(s.toListener[0], id) ==>
              Of(s, id).there != [] && s.toListener[0] == Of(s, id).there[0] &&
              Of(Next(s, ListenerReceives), id) == AfterReceipt(Of(s, id), s.toListener[0], id)
    ensures !Concerns(s.toListener[0], id) ==> Of(Next(s, ListenerReceives), id) == Of(s, id)
  {
    var m := s.toListener[0];
    AboutAppend(s.toConnector, NonHeartbeats(L.Sent(s.l, L.Recv(m))), id);
    ListenerSends(s.l, L.Recv(m), id);
    assert Of(s, id).back + [] == Of(s, id).back;
    AboutTail(s.toListener, id);
    if !Concerns(m, id) {
      L.Untouched(s.l, L.Recv(m), id);
    }
  }

  lemma AfterReceiptLinked(v: View, id: StreamId)
    requires Linked(v, id) && C.Sound(v.c, v.cf) && v.there != [] && Concerns(v.there[0], id)
    ensures Linked(AfterReceipt(v, v.there[0], id), id)
  {
    var m := v.there[0];
    if m.OpenStream? {
      ListenerOpens(v, id);
    } else if m.Data? {
      ListenerAccepts(v, m.payload, AfterReceipt(v, m, id).lf, id);
    } else {
      ListenerCloses(v, id);
    }
  }

  lemma ListenerReceiptLinked(s: State, id: StreamId)
    requires Linked(Of(s, id), id) && C.Inv(s.c) && Enabled(s, ListenerReceives)
    ensures Linked(Of(Next(s, ListenerReceives), id), id)
  {
    ListenerReceiptView(s, id);
    if Concerns(s.toListener[0], id) {
      assert C.Sound(Of(s, id).c, Of(s, id).cf);
      AfterReceiptLinked(Of(s, id), id);
    }
  }

  /** The same for the connector. */
  function AfterReturn(v: View, m: Envelope, id: StreamId): View
    requires v.back != []
  {
    var w := v.(back := v.back[1..]);
    match m
    case OpenStreamAck(_, success, _) =>
      if v.c.pending then w.(c := v.c.(pending := false, answer := Some(success)), cf := C.Delivering(id, success))
      else w
    case Data(_, p) =>
      if v.c.registered then w.(c := v.c.(accepted := v.c.accepted + [p]), cf := C.Writing(id, p)) else w
    case CloseStream(_) => w.(c := v.c.(registered := false))
    case _ => w
  }

  lemma ConnectorReceiptView(s: State, id: StreamId)
    requires Enabled(s, ConnectorReceives)
    ensures Concerns(s.toConnector[0], id) ==>
              Of(s, id).back != [] && s.toConnector[0] == Of(s, id).back[0] && Of(s, id).cf.Idle? &&
              Of(Next(s, ConnectorReceives), id) == AfterReturn(Of(s, id), s.toConnector[0], id)
    ensures !Concerns(s.toConnector[0], id) ==> Of(Next(s, ConnectorReceives), id) == Of(s, id)
  {
    var m := s.toConnector[0];
    AboutAppend(s.toListener, NonHeartbeats(C.Sent(s.c, C.Recv(m))), id);
    ConnectorSends(s.c, C.Recv(m), id);
    assert Of(s, id).there + [] == Of(s, id).there;
    AboutTail(s.toConnector, id);
    if !Concerns(m, id) {
      C.Untouched(s.c, C.Recv(m), id);
    }
  }

  lemma AfterReturnLinked(v: View, id: StreamId)
    requires Linked(v, id) && v.cf.Idle? && v.back != [] && Concerns(v.back[0], id)
    ensures Linked(AfterReturn(v, v.back[0], id), id)
  {
    var m := v.back[0];
    if m.OpenStreamAck? {
      ConnectorTakesAck(v, id);
    } else if m.Data? {
      ConnectorAccepts(v, m.payload, id);
    } else {
      ConnectorCloses(v, id);
    }
  }

  lemma ConnectorReceiptLinked(s: State, id: StreamId)
    requires Linked(Of(s, id), id) && Enabled(s, ConnectorReceives)
    ensures Linked(Of(Next(s, ConnectorReceives), id), id)
  {
    ConnectorReceiptView(s, id);
    if Concerns(s.toConnector[0], id) {
      AfterReturnLinked(Of(s, id), id);
    }
  }

  lemma BrokerView(s: State, step: Step, id: StreamId)
    requires (step.BrokerToListener? || step.BrokerToConnector?) && Enabled(s, step)
    ensures Of(Next(s, step), id) == Of(s, id)
  {
    AboutAppend(s.toListener, [step.env], id);
    AboutAppend(s.toConnector, [step.env], id);
    AboutOne(step.env, id);
  }

  lemma BrokerLinked(s: State, step: Step, id: StreamId)
    requires Linked(Of(s, id), id) && (step.BrokerToListener? || step.BrokerToConnector?)
    ensures Linked(Of(Next(s, step), id), id)
  {
    if Enabled(s, step) {
      BrokerView(s, step, id);
    }
  }

  lemma StepLinked(s: State, step: Step, id: StreamId)
    requires Linked(Of(s, id), id) && C.Inv(s.c) && L.Inv(s.l)
    ensures Linked(Of(Next(s, step), id), id)
  {
    if Enabled(s, step) {
      match step
      case ByConnector(cs) => ConnectorStepLinked(s, cs, id);
      case ByListener(ls) => ListenerStepLinked(s, ls, id);
      case ListenerReceives => ListenerReceiptLinked(s, id);
      case ConnectorReceives => ConnectorReceiptLinked(s, id);
      case _ => BrokerLinked(s, step, id);
    }
  }

  /** The messages reaching the listener respect the ack. */
  lemma HeadIsPatient(s: State, id: StreamId)
    requires Linked(Of(s, id), id) && s.toListener != []
    ensures L.Patient(s.l, L.Recv(s.toListener[0]), id)
  {
    var v, m := Of(s, id), s.toListener[0];
    AboutTail(s.toListener, id);
    if m.Data? && m.streamId == id {
      ListenerAccepts(v, m.payload, L.Idle, id);
    }
  }

  lemma StepCalm(s: State, step: Step, id: StreamId)
    requires Linked(Of(s, id), id) && L.Inv(s.l) && L.Calm(L.At(s.l, id), s.l.loop, id)
    ensures L.Calm(L.At(Next(s, step).l, id), Next(s, step).l.loop, id)
  {
    assert L.Sound(L.At(s.l, id), s.l.loop, id);
    if Enabled(s, step) && step.ByListener? {
      L.StepCalm(s.l, step.lstep, id);
    } else if Enabled(s, step) && step.ListenerReceives? {
      HeadIsPatient(s, id);
      L.StepCalm(s.l, L.Recv(s.toListener[0]), id);
    }
  }

  lemma StepEnds(s: State, step: Step)
    requires C.Inv(s.c) && L.Inv(s.l)
    ensures C.Inv(Next(s, step).c) && L.Inv(Next(s, step).l)
  {
    if Enabled(s, step) {
      var cs := if step.ByConnector? then [step.cstep]
                else if step.ConnectorReceives? then [C.Recv(s.toConnector[0])]
                else [];
      var ls := if step.ByListener? then [step.lstep]
                else if step.ListenerReceives? then [L.Recv(s.toListener[0])]
                else [];
      C.ExecInv(s.c, cs);
      L.ExecInv(s.l, ls);
      if cs != [] { assert C.Exec(s.c, cs) == C.Exec(C.Next(s.c, cs[0]), []); }
      if ls != [] { assert L.Exec(s.l, ls) == L.Exec(L.Next(s.l, ls[0]), []); }
    }
  }

  lemma StepInv(s: State, step: Step)
    requires Inv(s)
    ensures Inv(Next(s, step))
  {
    StepEnds(s, step);
    forall id: StreamId
      ensures Linked(Of(Next(s, step), id), id) && L.Calm(L.At(Next(s, step).l, id), Next(s, step).l.loop, id)
    {
      StepLinked(s, step, id);
      StepCalm(s, step, id);
    }
  }

  lemma {:induction false} ExecInv(s: State, steps: seq<Step>)
    requires Inv(s)
    ensures Inv(Exec(s, steps))
    decreases |steps|
  {
    if steps != [] {
      StepInv(s, steps[0]);
      ExecInv(Next(s, steps[0]), steps[1..]);
    }
  }

  lemma InitInv()
    ensures Inv(INIT)
  {
  }

  // ---------------------------------------------------------------------------
  // The theorems.

  /** In every run and for every stream, the bytes written to the listener's local
      service are a prefix of those the connector read from its local connection,
      and the other way round. */
  lemma BytesArriveInOrder(steps: seq<Step>, id: StreamId)
    ensures var s := Exec(INIT, steps);
            && L.At(s.l, id).written <= C.At(s.c, id).out.read
            && C.At(s.c, id).written <= L.At(s.l, id).out.read
  {
    InitInv();
    ExecInv(INIT, steps);
    var s := Exec(INIT, steps);
    assert Linked(Of(s, id), id) && L.Calm(L.At(s.l, id), s.l.loop, id);
    assert L.Sound(L.At(s.l, id), s.l.loop, id);
    assert C.Sound(C.At(s.c, id), C.Focus(s.c.loop, id));
    PrefixThere(C.At(s.c, id), L.At(s.l, id), s.l.loop, id);
    PrefixBack(C.At(s.c, id), C.Focus(s.c.loop, id), L.At(s.l, id));
  }

  lemma PrefixThere(c: C.Stream, l: L.Stream, loop: L.Loop, id: StreamId)
    requires L.InOrder(l, loop, id) && !l.overtaken && Flat(l.accepted) <= c.out.sent && Pump.Faithful(c.out)
    ensures l.written <= c.out.read
  {
    assert l.written <= Flat(l.accepted);
  }

  lemma PrefixBack(c: C.Stream, cf: C.Loop, l: L.Stream)
    requires C.InOrder(c, cf) && Flat(c.accepted) <= l.out.sent && Pump.Faithful(l.out)
    ensures c.written <= l.out.read
  {
    assert c.written <= Flat(c.accepted);
  }

  /** In every run, Data for a stream is under way only after the listener has sent its
      positive ack; so the buffer is empty at the hand-over, nothing is ever left
      to drain, and no write overtakes another. */
  lemma AckPrecedesData(steps: seq<Step>, id: StreamId)
    ensures var s := Exec(INIT, steps);
            var x := L.At(s.l, id);
            && (forall m :: m in s.toListener && m.Data? && m.streamId == id ==> x.handler == L.Acked(true))
            && (x.handler.Dialed? && x.entry.Some? ==> x.entry.value.buf == [])
            && (x.handler.Draining? ==> x.handler.rest == [])
            && !x.overtaken
  {
    InitInv();
    ExecInv(INIT, steps);
    var s := Exec(INIT, steps);
    assert Linked(Of(s, id), id) && L.Calm(L.At(s.l, id), s.l.loop, id);
    forall m | m in s.toListener && m.Data? && m.streamId == id ensures L.At(s.l, id).handler == L.Acked(true) {
      InAbout(s.toListener, m, id);
      DataAfterAck(Of(s, id), m, id);
    }
  }

  lemma DataAfterAck(v: View, m: Envelope, id: StreamId)
    requires OpensOnce(v, id) && AckFirst(v, id) && m in v.there && m.Data?
    ensures v.l.handler == L.Acked(true)
  {
  }

  lemma {:induction false} InAbout(channel: seq<Envelope>, m: Envelope, id: StreamId)
    requires m in channel && Concerns(m, id)
    ensures m in About(channel, id)
  {
    if channel[0] != m {
      InAbout(channel[1..], m, id);
    }
  }

  /** Once a stream that both ends still have registered is quiet, everything read at
      one end has been written at the other: no byte was lost on the way. */
  lemma QuietStreamIsComplete(steps: seq<Step>, id: StreamId)
    ensures var s := Exec(INIT, steps);
            var v := Of(s, id);
            && (v.l.entry.Some? && v.there == [] && v.lf.Idle? && v.c.out.stage.Reading? ==>
                  v.l.written == v.c.out.read)
            && (v.c.registered && v.back == [] && v.cf.Idle? && v.l.out.stage.Reading? ==>
                  v.c.written == v.l.out.read)
  {
    InitInv();
    ExecInv(INIT, steps);
    var s := Exec(INIT, steps);
    var v := Of(s, id);
    assert Linked(v, id) && L.Calm(L.At(s.l, id), s.l.loop, id);
    assert L.Sound(L.At(s.l, id), s.l.loop, id);
    L.SoundFocus(L.At(s.l, id), s.l.loop, id);
    assert C.Sound(v.c, v.cf);
  }

  /** The end of a stream is heard of: when an end has announced it and nothing of the
      stream is under way there any more, the other end has dropped the stream. */
  lemma EndIsHeard(steps: seq<Step>, id: StreamId)
    ensures var s := Exec(INIT, steps);
            var v := Of(s, id);
            && (v.c.out.announced && v.there == [] ==> v.l.entry.None?)
            && (v.l.out.announced && v.back == [] ==> !v.c.registered)
  {
    InitInv();
    ExecInv(INIT, steps);
    assert Linked(Of(Exec(INIT, steps), id), id);
  }

  /** The listener is never asked to open an id that is still live, so the condition
      it is modelled under never holds a message back. */
  lemma OpensAreFresh(steps: seq<Step>)
    ensures var s := Exec(INIT, steps);
            s.toListener != [] && s.l.loop.Idle? ==> Enabled(s, ListenerReceives)
  {
    InitInv();
    ExecInv(INIT, steps);
    var s := Exec(INIT, steps);
    if s.toListener != [] && s.toListener[0].OpenStream? {
      var id := s.toListener[0].streamId;
      assert Linked(Of(s, id), id) && C.Sound(C.At(s.c, id), C.Focus(s.c.loop, id));
      AboutTail(s.toListener, id);
      ListenerOpens(Of(s, id), id);
    }
  }
}
