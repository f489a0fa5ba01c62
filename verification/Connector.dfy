/** The connector end of a tunnel (pkg/tunnel/connector.go) as a step system: one
    step per critical section, channel or socket operation or session send, taken by
    the message loop, the `handleLocalConnection` goroutines and the pumps in any
    order. */
module Connector {
  import opened Messages
  import Pump

  /** Where the `handleLocalConnection` goroutine of a stream stands. */
  datatype Phase =
    | Unused
    | Allocated                       // nextStreamID.Add(1) done
    | PendingSet                      // pendingStreams[id] = ackCh done
    | Registered                      // streams[id] = localConn done
    | Waiting                         // OpenStream sent, in the select
    | Pumping                         // positive ack taken, pump started
    | Aborting(forget: bool)          // removeStream is next, then perhaps removePending
    | Forgetting                      // removePending is next
    | Finished

  /** All that belongs to one stream id: membership in `pendingStreams` and in
      `streams`, the one-slot ack channel, the goroutine and the pump. The rest are
      histories: whether OpenStream was sent, the ack of the peer that the loop took for
      the stream, acks put into the channel, chunks taken off the session for the
      registered stream, bytes written to the local connection, and whether such a write
      failed. */
  datatype Stream = Stream(
    pending: bool,
    registered: bool,
    ackCh: seq<bool>,
    phase: Phase,
    out: Pump.Outflow,
    asked: bool,
    answer: Option<bool>,
    delivered: nat,
    accepted: seq<Bytes>,
    written: Bytes,
    broken: bool)

  const FRESH := Stream(false, false, [], Unused, Pump.IDLE, false, None, 0, [], [], false)

  /** The `handleMessages` goroutine: between messages, about to put an ack into a
      channel it took from the map, about to write a chunk, or about to close. */
  datatype Loop =
    | Idle
    | Delivering(id: StreamId, success: bool)
    | Writing(id: StreamId, payload: Bytes)
    | WriteFailed(id: StreamId)
    | Ended

  datatype State = State(next: nat, streams: map<StreamId, Stream>, loop: Loop, closed: bool)

  const INIT := State(0, map[], Idle, false)

  const ACK_CAPACITY := 1

  function At(c: State, id: StreamId): Stream {
    if id in c.streams then c.streams[id] else FRESH
  }

  function Put(c: State, id: StreamId, x: Stream): State {
    c.(streams := c.streams[id := x])
  }

  /** What `handleLocalConnection` can do next. */
  datatype Action =
    | SetPending
    | Register
    | Open(ok: bool)
    | TakeAck
    | Timeout
    | Cancel                                  // closeCh observed in the select
    | Unregister                              // removeStream
    | Forget                                  // removePending

  datatype Step =
    | Accept                                  // a local connection gets the next id
    | Handle(id: StreamId, action: Action)
    | PumpStep(id: StreamId, pump: Pump.Action)
    | Recv(env: Envelope)
    | Deliver                                 // the loop's ch <- success
    | Write(n: nat, fail: bool)               // the loop's conn.Write
    | CloseFailed                             // the loop's closeStream after a failed write
    | EndLoop
    | Signal                                  // Close: close(closeCh)
    | Farewell(ok: bool)                      // Close: the Disconnect message
    | Clear                                   // Close: empty the map

  predicate HandlerEnabled(x: Stream, a: Action, closed: bool) {
    match a
    case SetPending => x.phase.Allocated?
    case Register => x.phase.PendingSet?
    case Open(_) => x.phase.Registered?
    case TakeAck => x.phase.Waiting? && x.ackCh != []
    case Timeout => x.phase.Waiting?
    case Cancel => x.phase.Waiting? && closed
    case Unregister => x.phase.Aborting?
    case Forget => x.phase.Forgetting?
  }

  /** A session allocates fewer than 2^32 ids, so that `uint32` does not wrap. */
  predicate Enabled(c: State, step: Step) {
    match step
    case Accept => c.next + 1 < 0x1_0000_0000
    case Handle(id, a) => HandlerEnabled(At(c, id), a, c.closed)
    case PumpStep(id, a) => Pump.Enabled(At(c, id).out, a, c.closed)
    case Recv(_) => c.loop.Idle?
    case Deliver => c.loop.Delivering? && |At(c, c.loop.id).ackCh| < ACK_CAPACITY
    case Write(n, fail) => c.loop.Writing? && n <= |c.loop.payload| && (!fail ==> n == |c.loop.payload|)
    case CloseFailed => c.loop.WriteFailed?
    case EndLoop => c.loop.Idle?
    case Signal => true
    case Farewell(_) => c.closed
    case Clear => c.closed
  }

  /** `handleLocalConnection`. */
  function HandlerNext(x: Stream, a: Action, closed: bool): Stream
    requires HandlerEnabled(x, a, closed)
  {
    match a
    case SetPending => x.(phase := PendingSet, pending := true)
    case Register => x.(phase := Registered, registered := true)
    case Open(ok) => x.(phase := if ok then Waiting else Aborting(true), asked := ok)
    case TakeAck =>
      var y := x.(ackCh := x.ackCh[1..]);
      if x.ackCh[0] then y.(phase := Pumping, out := Pump.STARTED)
      else y.(phase := Aborting(false))
    case Timeout => x.(phase := Aborting(true))
    case Cancel => x.(phase := Aborting(true))
    case Unregister => x.(registered := false, phase := if x.phase.forget then Forgetting else Finished)
    case Forget => x.(pending := false, phase := Finished)
  }

  /** `pumpLocalToRemote`. */
  function PumpNext(x: Stream, a: Pump.Action, closed: bool): Stream
    requires Pump.Enabled(x.out, a, closed)
  {
    var y := x.(out := Pump.Next(x.out, a, closed));
    if Pump.Unregisters(a) then y.(registered := false) else y
  }

  /** `handleMessages`, one received envelope. */
  function Receive(c: State, env: Envelope): State {
    match env
    case OpenStreamAck(id, success, _) =>
      var x := At(c, id);
      if x.pending then Put(c, id, x.(pending := false, answer := Some(success))).(loop := Delivering(id, success))
      else c
    case Data(id, payload) =>
      var x := At(c, id);
      if x.registered then Put(c, id, x.(accepted := x.accepted + [payload])).(loop := Writing(id, payload)) else c
    case CloseStream(id) => Put(c, id, At(c, id).(registered := false))
    case Disconnect(_) => c.(loop := Ended)
    case _ => c
  }

  /** The loop writes `n` bytes of chunk `p`, all of them unless the write fails. */
  function LoopWrite(x: Stream, p: Bytes, n: nat, fail: bool): Stream
    requires n <= |p|
  {
    x.(written := x.written + p[..n], broken := x.broken || fail)
  }

  /** One step; a step that is not enabled leaves the state alone. */
  function Next(c: State, step: Step): State {
    if !Enabled(c, step) then c
    else match step
      case Accept => Put(c, c.next + 1, At(c, c.next + 1).(phase := Allocated)).(next := c.next + 1)
      case Handle(id, a) => Put(c, id, HandlerNext(At(c, id), a, c.closed))
      case PumpStep(id, a) => Put(c, id, PumpNext(At(c, id), a, c.closed))
      case Recv(env) => Receive(c, env)
      case Deliver =>
        var Delivering(id, success) := c.loop;
        var x := At(c, id);
        Put(c, id, x.(ackCh := x.ackCh + [success], delivered := x.delivered + 1)).(loop := Idle)
      case Write(n, fail) =>
        var Writing(id, p) := c.loop;
        Put(c, id, LoopWrite(At(c, id), p, n, fail)).(loop := if fail then WriteFailed(id) else Idle)
      case CloseFailed => Put(c, c.loop.id, At(c, c.loop.id).(registered := false)).(loop := Idle)
      case EndLoop => c.(loop := Ended)
      case Signal => c.(closed := true)
      case Farewell(_) => c
      case Clear => c.(streams := map id | id in c.streams :: c.streams[id].(registered := false))
  }

  /** The envelopes a step puts on the session. */
  function Sent(c: State, step: Step): seq<Envelope> {
    if !Enabled(c, step) then []
    else match step
      case Handle(id, Open(true)) => [OpenStream(id)]
      case PumpStep(id, a) => Pump.Emits(At(c, id).out, a, c.closed, id)
      case Recv(Heartbeat) => [Heartbeat]
      case Farewell(true) => [Disconnect("connector shutting down")]
      case _ => []
  }

  function Exec(c: State, steps: seq<Step>): State
    decreases |steps|
  {
    if steps == [] then c else Exec(Next(c, steps[0]), steps[1..])
  }

  // ---------------------------------------------------------------------------
  // What holds against an arbitrary peer.

  /** The part of the loop's state that matters to one stream. */
  function Focus(loop: Loop, id: StreamId): Loop {
    if (loop.Delivering? || loop.Writing? || loop.WriteFailed?) && loop.id == id then loop else Idle
  }

  function Held(loop: Loop): Bytes {
    if loop.Writing? then loop.payload else []
  }

  /** Before the goroutine has registered its connection nothing has happened. */
  predicate Early(phase: Phase) {
    phase.Unused? || phase.Allocated? || phase.PendingSet?
  }

  /** The goroutine has not yet finished waiting for its ack. */
  predicate StillWaiting(phase: Phase) {
    phase.PendingSet? || phase.Registered? || phase.Waiting? || phase == Aborting(true) || phase.Forgetting?
  }

  /** The goroutine has taken an ack out of its channel. */
  predicate Taken(x: Stream) {
    x.delivered == 1 && x.ackCh == []
  }

  /** `pendingStreams` hands each channel out at most once. */
  ghost predicate AckOnce(x: Stream, f: Loop) {
    && |x.ackCh| <= x.delivered <= 1
    && (x.pending ==> x.delivered == 0 && !f.Delivering? && StillWaiting(x.phase))
    && (f.Delivering? ==> x.delivered == 0)
    && (x.phase.Unused? || x.phase.Allocated? ==> !x.pending && x.delivered == 0 && !f.Delivering?)
    && (x.phase.Pumping? || x.phase == Aborting(false) ==> Taken(x))
  }

  /** The ack the goroutine acts on is the one the peer sent: it pumps after a positive
      one and gives up after a negative one. */
  ghost predicate Heeds(x: Stream, f: Loop) {
    && (x.pending ==> x.answer.None?)
    && (x.phase.Unused? || x.phase.Allocated? ==> x.answer.None?)
    && (f.Delivering? ==> x.answer == Some(f.success))
    && (x.ackCh != [] ==> x.answer == Some(x.ackCh[0]))
    && (x.delivered == 1 ==> x.answer.Some?)
    && (StillWaiting(x.phase) ==> !Taken(x))
    && (Taken(x) ==> (x.phase.Pumping? <==> x.answer == Some(true)))
    && (Taken(x) ==> (x.phase == Aborting(false) || x.phase.Finished? <==> x.answer == Some(false)))
  }

  /** The local connection receives the accepted chunks in order. */
  ghost predicate InOrder(x: Stream, f: Loop) {
    && (Early(x.phase) ==> !x.registered && x.accepted == [] && !x.broken && !f.Writing? && !f.WriteFailed?)
    && (f.WriteFailed? ==> x.broken)
    && (x.broken ==> x.written <= Flat(x.accepted) && !f.Writing? && (!x.registered || f.WriteFailed?))
    && (!x.broken ==> x.written + Held(f) == Flat(x.accepted))
  }

  ghost predicate Sound(x: Stream, f: Loop) {
    && (x.phase.Unused? ==> x == FRESH)
    && AckOnce(x, f)
    && Heeds(x, f)
    && InOrder(x, f)
    && Pump.Faithful(x.out)
    && (!x.out.stage.Unstarted? <==> x.phase.Pumping?)
    && (x.phase.Forgetting? || x.phase.Finished? ==> !x.registered)
    && (Early(x.phase) || x.phase.Registered? ==> !x.asked)
    && (x.phase.Waiting? || x.phase.Pumping? || x.phase == Aborting(false) ==> x.asked)
  }

  ghost predicate Inv(c: State) {
    forall id: StreamId ::
      Sound(At(c, id), Focus(c.loop, id)) && (At(c, id).phase.Unused? <==> id == 0 || c.next < id)
  }

  /** Whether a step can change what belongs to a stream. */
  predicate Touches(c: State, step: Step, id: StreamId) {
    match step
    case Accept => c.next + 1 == id
    case Handle(i, _) => i == id
    case PumpStep(i, _) => i == id
    case Recv(env) => Concerns(env, id)
    case Deliver => c.loop.Delivering? && c.loop.id == id
    case Write(_, _) => c.loop.Writing? && c.loop.id == id
    case CloseFailed => c.loop.WriteFailed? && c.loop.id == id
    case EndLoop => false
    case Signal => false
    case Farewell(_) => false
    case Clear => true
  }

  lemma Untouched(c: State, step: Step, id: StreamId)
    requires !Touches(c, step, id)
    ensures At(Next(c, step), id) == At(c, id)
    ensures Focus(Next(c, step).loop, id) == Focus(c.loop, id)
  {
  }

  lemma HandlerSound(x: Stream, a: Action, closed: bool, f: Loop)
    requires Sound(x, f) && HandlerEnabled(x, a, closed)
    ensures Sound(HandlerNext(x, a, closed), f)
  {
    HandlerAcks(x, a, closed, f);
    HandlerInOrder(x, a, closed, f);
  }

  lemma HandlerAcks(x: Stream, a: Action, closed: bool, f: Loop)
    requires AckOnce(x, f) && Heeds(x, f) && HandlerEnabled(x, a, closed)
    ensures AckOnce(HandlerNext(x, a, closed), f) && Heeds(HandlerNext(x, a, closed), f)
  {
  }

  lemma HandlerInOrder(x: Stream, a: Action, closed: bool, f: Loop)
    requires InOrder(x, f) && HandlerEnabled(x, a, closed)
    ensures InOrder(HandlerNext(x, a, closed), f)
  {
  }

  lemma PumpSound(x: Stream, a: Pump.Action, closed: bool, f: Loop)
    requires Sound(x, f) && Pump.Enabled(x.out, a, closed)
    ensures Sound(PumpNext(x, a, closed), f)
  {
    Pump.NextFaithful(x.out, a, closed);
  }

  lemma ReceiveDataSound(c: State, env: Envelope, id: StreamId)
    requires Sound(At(c, id), Idle) && c.loop.Idle? && env.Data? && env.streamId == id && At(c, id).registered
    ensures Sound(At(Receive(c, env), id), Focus(Receive(c, env).loop, id))
  {
    FlatSnoc(At(c, id).accepted, env.payload);
  }

  lemma ReceiveSound(c: State, env: Envelope, id: StreamId)
    requires Sound(At(c, id), Idle) && c.loop.Idle? && Concerns(env, id)
    ensures Sound(At(Receive(c, env), id), Focus(Receive(c, env).loop, id))
  {
    if env.Data? && At(c, id).registered {
      ReceiveDataSound(c, env, id);
    }
  }

  lemma LoopWriteSound(x: Stream, p: Bytes, n: nat, fail: bool, id: StreamId)
    requires Sound(x, Writing(id, p)) && n <= |p| && (!fail ==> n == |p|)
    ensures Sound(LoopWrite(x, p, n, fail), if fail then WriteFailed(id) else Idle)
  {
    assert x.written + p == (x.written + p[..n]) + p[n..];
  }

  lemma LoopSound(c: State, step: Step, id: StreamId)
    requires step.Deliver? || step.CloseFailed? || step.Clear? || step.Accept?
    requires Sound(At(c, id), Focus(c.loop, id)) && Touches(c, step, id) && Enabled(c, step)
    requires step.Accept? ==> At(c, id) == FRESH
    ensures Sound(At(Next(c, step), id), Focus(Next(c, step).loop, id))
  {
  }

  /** What an enabled step does to the stream it touches. */
  lemma Touched(c: State, step: Step, id: StreamId)
    requires Touches(c, step, id) && Enabled(c, step)
    ensures var d := Next(c, step);
            && (step.Handle? ==> At(d, id) == HandlerNext(At(c, id), step.action, c.closed) && d.loop == c.loop)
            && (step.PumpStep? ==> At(d, id) == PumpNext(At(c, id), step.pump, c.closed) && d.loop == c.loop)
            && (step.Write? ==>
                  && At(d, id) == LoopWrite(At(c, id), c.loop.payload, step.n, step.fail)
                  && d.loop == if step.fail then WriteFailed(id) else Idle)
            && (step.Recv? ==> d == Receive(c, step.env))
            && (step.Accept? ==> At(d, id) == At(c, id).(phase := Allocated) && d.next == c.next + 1)
            && (step.Deliver? ==>
                  var x := At(c, id);
                  At(d, id) == x.(ackCh := x.ackCh + [c.loop.success], delivered := x.delivered + 1))
            && (step.CloseFailed? || step.Clear? ==> At(d, id) == At(c, id).(registered := false))
            && (!step.Accept? ==> d.next == c.next)
  {
  }

  /** Every step keeps every stream sound. */
  lemma StepSound(c: State, step: Step, id: StreamId)
    requires Sound(At(c, id), Focus(c.loop, id)) && (At(c, id).phase.Unused? <==> id == 0 || c.next < id)
    ensures Sound(At(Next(c, step), id), Focus(Next(c, step).loop, id))
  {
    if !Touches(c, step, id) {
      Untouched(c, step, id);
    } else if Enabled(c, step) {
      TouchedSound(c, step, id);
    }
  }

  lemma TouchedSound(c: State, step: Step, id: StreamId)
    requires Sound(At(c, id), Focus(c.loop, id)) && (At(c, id).phase.Unused? <==> id == 0 || c.next < id)
    requires Touches(c, step, id) && Enabled(c, step)
    ensures Sound(At(Next(c, step), id), Focus(Next(c, step).loop, id))
  {
    var x := At(c, id);
    Touched(c, step, id);
    match step
    case Handle(_, a) => HandlerSound(x, a, c.closed, Focus(c.loop, id));
    case PumpStep(_, a) => PumpSound(x, a, c.closed, Focus(c.loop, id));
    case Recv(env) => ReceiveSound(c, env, id);
    case Write(n, fail) => LoopWriteSound(x, c.loop.payload, n, fail, id);
    case _ => LoopSound(c, step, id);
  }

  /** Ids are handed out once: those beyond the counter are untouched. */
  lemma StepFreshIds(c: State, step: Step, id: StreamId)
    requires At(c, id).phase.Unused? <==> id == 0 || c.next < id
    requires At(c, id).phase.Unused? ==> At(c, id) == FRESH
    ensures At(Next(c, step), id).phase.Unused? <==> id == 0 || Next(c, step).next < id
  {
    if !Touches(c, step, id) {
      Untouched(c, step, id);
    } else if Enabled(c, step) {
      Touched(c, step, id);
    }
  }

  lemma {:induction false} ExecInv(c: State, steps: seq<Step>)
    requires Inv(c)
    ensures Inv(Exec(c, steps))
    decreases |steps|
  {
    if steps != [] {
      var d := Next(c, steps[0]);
      forall id: StreamId
        ensures Sound(At(d, id), Focus(d.loop, id)) && (At(d, id).phase.Unused? <==> id == 0 || d.next < id)
      {
        StepSound(c, steps[0], id);
        StepFreshIds(c, steps[0], id);
      }
      ExecInv(d, steps[1..]);
    }
  }

  lemma InitInv()
    ensures Inv(INIT)
  {
  }

  /** Whatever acks the peer sends, duplicated or unknown, an ack channel receives at
      most one value in its life, the loop never blocks on one, and an id in
      `pendingStreams` belongs to a goroutine that has not finished waiting. */
  lemma AckChannelsNeverBlock(steps: seq<Step>, id: StreamId)
    ensures var c := Exec(INIT, steps);
            && At(c, id).delivered <= 1
            && (c.loop.Delivering? ==> Enabled(c, Deliver))
            && (At(c, id).pending ==> StillWaiting(At(c, id).phase))
  {
    InitInv();
    ExecInv(INIT, steps);
    var c := Exec(INIT, steps);
    assert Sound(At(c, id), Focus(c.loop, id));
    if c.loop.Delivering? {
      assert Sound(At(c, c.loop.id), Focus(c.loop, c.loop.id));
    }
  }

  /** Whatever the peer sends, a goroutine waits only for an OpenStream that was sent;
      one that has taken an ack pumps if and only if the ack the peer sent was positive,
      and gives up if and only if it was negative. */
  lemma AcksAreHeeded(steps: seq<Step>, id: StreamId)
    ensures var x := At(Exec(INIT, steps), id);
            && (x.phase.Waiting? ==> x.asked)
            && (x.phase.Pumping? ==> x.asked && Taken(x))
            && (Taken(x) ==> (x.phase.Pumping? <==> x.answer == Some(true)))
            && (Taken(x) ==> (x.phase == Aborting(false) || x.phase.Finished? <==> x.answer == Some(false)))
  {
    InitInv();
    ExecInv(INIT, steps);
    var c := Exec(INIT, steps);
    assert Sound(At(c, id), Focus(c.loop, id));
  }

  /** Whatever the peer sends, a local connection receives a prefix of the chunks
      accepted for it, in order. */
  lemma LocalSideIsInOrder(steps: seq<Step>, id: StreamId)
    ensures var x := At(Exec(INIT, steps), id);
            x.written <= Flat(x.accepted)
  {
    InitInv();
    ExecInv(INIT, steps);
    var c := Exec(INIT, steps);
    assert Sound(At(c, id), Focus(c.loop, id));
  }
}
