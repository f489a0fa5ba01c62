/** The listener end of a tunnel (pkg/tunnel/listener.go) as a step system: one step
    per critical section, socket operation or session send, taken by the message
    loop, by the `handleOpenStream` goroutines and by the pumps in any order. */
module Listener {
  import opened Messages
  import Pump

  /** `streamState`: whether `conn` is set, and the chunks buffered before it was.
      (`ready` is written together with `conn` and never read.) */
  datatype Entry = Entry(hasConn: bool, buf: seq<Bytes>)

  /** Where the `handleOpenStream` goroutine of a stream stands. */
  datatype Handler =
    | NoHandler
    | Dialing
    | Dialed
    | Refusing                        // dial failed, the map entry is to be deleted
    | Refused                         // the negative ack is to be sent
    | Draining(rest: seq<Bytes>)      // conn published, buffered chunks being written
    | DrainFailed                     // closeStream is next
    | Acked(sent: bool)               // positive ack attempted, and whether it went out; pump started
    | Finished                        // returned without starting a pump

  /** All that belongs to one stream id. The last five fields are histories:
      chunks taken off the session for the registered stream, bytes written to the
      local service, chunks written in full, chunks given up, and two marks. */
  datatype Stream = Stream(
    entry: Option<Entry>,
    handler: Handler,
    out: Pump.Outflow,
    accepted: seq<Bytes>,
    written: Bytes,
    done: multiset<Bytes>,
    lost: multiset<Bytes>,
    broken: bool,                     // a write to the local service failed
    overtaken: bool)                  // a write began while earlier chunks were owed

  const FRESH := Stream(None, NoHandler, Pump.IDLE, [], [], multiset{}, multiset{}, false, false)

  /** What `handleMessages` registers before it starts `handleOpenStream`. */
  const OPENED := FRESH.(entry := Some(Entry(false, [])), handler := Dialing)

  /** The `handleMessages` goroutine: between messages, about to write a chunk to a
      connection it looked up under the lock, or about to close that stream. */
  datatype Loop = Idle | Writing(id: StreamId, payload: Bytes) | WriteFailed(id: StreamId) | Ended

  datatype State = State(streams: map<StreamId, Stream>, loop: Loop, closed: bool)

  const INIT := State(map[], Idle, false)

  function At(l: State, id: StreamId): Stream {
    if id in l.streams then l.streams[id] else FRESH
  }

  function Put(l: State, id: StreamId, x: Stream): State {
    l.(streams := l.streams[id := x])
  }

  /** What `handleOpenStream` can do next. */
  datatype Action =
    | Dial(ok: bool)
    | Refuse                                  // delete the entry after a failed dial
    | RefuseAck(ok: bool)
    | HandOver                                // the critical section after a good dial
    | Drain(n: nat, fail: bool)
    | DrainClose                              // closeStream after a failed drain
    | Ack(ok: bool)

  datatype Step =
    | Recv(env: Envelope)
    | Write(n: nat, fail: bool)               // the loop's conn.Write
    | CloseFailed                             // the loop's closeStream after a failed write
    | EndLoop
    | Handle(id: StreamId, action: Action)
    | PumpStep(id: StreamId, pump: Pump.Action)
    | Signal                                  // Close: close(closeCh)
    | Farewell(ok: bool)                      // Close: the Disconnect message
    | Clear                                   // Close: empty the map

  /** An id is live while it is registered or one of its goroutines runs. */
  predicate Live(x: Stream) {
    x.entry.Some? || !(x.handler.NoHandler? || x.handler.Acked? || x.handler.Finished?)
    || !(x.out.stage.Unstarted? || x.out.stage.Stopped?)
  }

  /** Whether `handleOpenStream` still has chunks to write for the stream. */
  predicate Owing(x: Stream) {
    x.handler.Draining? && x.handler.rest != []
  }

  predicate HandlerEnabled(x: Stream, a: Action) {
    match a
    case Dial(_) => x.handler.Dialing?
    case Refuse => x.handler.Refusing?
    case RefuseAck(_) => x.handler.Refused?
    case HandOver => x.handler.Dialed?
    case Drain(n, fail) =>
      Owing(x) && n <= |x.handler.rest[0]| && (!fail ==> n == |x.handler.rest[0]|)
    case DrainClose => x.handler.DrainFailed?
    case Ack(_) => x.handler == Draining([])
  }

  /** The one thing asked of the peer: it does not open an id that is still live. */
  predicate Enabled(l: State, step: Step) {
    match step
    case Recv(env) => l.loop.Idle? && (env.OpenStream? ==> !Live(At(l, env.streamId)))
    case Write(n, fail) => l.loop.Writing? && n <= |l.loop.payload| && (!fail ==> n == |l.loop.payload|)
    case CloseFailed => l.loop.WriteFailed?
    case EndLoop => l.loop.Idle?
    case Handle(id, a) => HandlerEnabled(At(l, id), a)
    case PumpStep(id, a) => Pump.Enabled(At(l, id).out, a, l.closed)
    case Signal => true
    case Farewell(_) => l.closed
    case Clear => l.closed
  }

  /** `closeStream` and `removeStream` as far as the map goes: the entry is deleted,
      and with it whatever was still buffered. */
  function Unregister(x: Stream): Stream {
    if x.entry.Some? then x.(entry := None, lost := x.lost + multiset(x.entry.value.buf)) else x
  }

  /** `handleData` for a registered stream: the chunk is buffered, or left to the
      loop to write when a connection is there. */
  function Accept(x: Stream, payload: Bytes): Stream
    requires x.entry.Some?
  {
    var e := x.entry.value;
    x.(accepted := x.accepted + [payload],
       entry := Some(if e.hasConn then e else e.(buf := e.buf + [payload])))
  }

  /** `handleMessages`, one received envelope. */
  function Receive(l: State, env: Envelope): State {
    match env
    case OpenStream(id) =>
      Put(l, id, OPENED)
    case Data(id, payload) =>
      var x := At(l, id);
      if x.entry.None? then l
      else Put(l, id, Accept(x, payload)).(loop := if x.entry.value.hasConn then Writing(id, payload) else l.loop)
    case CloseStream(id) => Put(l, id, Unregister(At(l, id)))
    case Disconnect(_) => l.(loop := Ended)
    case _ => l
  }

  /** The loop writes `n` bytes of chunk `p`, all of them unless the write fails. */
  function LoopWrite(x: Stream, p: Bytes, n: nat, fail: bool): Stream
    requires n <= |p|
  {
    var y := x.(written := x.written + p[..n], overtaken := x.overtaken || x.broken || Owing(x));
    if fail then y.(broken := true, lost := y.lost + multiset{p}) else y.(done := y.done + multiset{p})
  }

  /** The critical section of `handleOpenStream`: publish the connection and take
      the buffer, unless the stream was closed during the dial. */
  function TakeOver(x: Stream): Stream {
    if x.entry.None? then x.(handler := Finished)
    else x.(entry := Some(Entry(true, [])), handler := Draining(x.entry.value.buf))
  }

  /** `handleOpenStream` writes `n` bytes of the first buffered chunk. */
  function DrainWrite(x: Stream, n: nat, fail: bool): Stream
    requires Owing(x) && n <= |x.handler.rest[0]|
  {
    var c, rest := x.handler.rest[0], x.handler.rest;
    var y := x.(written := x.written + c[..n], overtaken := x.overtaken || x.broken);
    if fail then y.(handler := DrainFailed, broken := true, lost := y.lost + multiset(rest))
    else y.(handler := Draining(rest[1..]), done := y.done + multiset{c})
  }

  /** `handleOpenStream`. */
  function HandlerNext(x: Stream, a: Action): Stream
    requires HandlerEnabled(x, a)
  {
    match a
    case Dial(ok) => x.(handler := if ok then Dialed else Refusing)
    case Refuse => Unregister(x).(handler := Refused)
    case RefuseAck(_) => x.(handler := Finished)
    case HandOver => TakeOver(x)
    case Drain(n, fail) => DrainWrite(x, n, fail)
    case DrainClose => Unregister(x).(handler := Finished)
    case Ack(ok) => x.(handler := Acked(ok), out := Pump.STARTED)
  }

  /** `pumpLocalToRemote`. */
  function PumpNext(x: Stream, a: Pump.Action, closed: bool): Stream
    requires Pump.Enabled(x.out, a, closed)
  {
    var y := x.(out := Pump.Next(x.out, a, closed));
    if Pump.Unregisters(a) then Unregister(y) else y
  }

  /** One step; a step that is not enabled leaves the state alone. */
  function Next(l: State, step: Step): State {
    if !Enabled(l, step) then l
    else match step
      case Recv(env) => Receive(l, env)
      case Write(n, fail) =>
        var Writing(id, p) := l.loop;
        Put(l, id, LoopWrite(At(l, id), p, n, fail)).(loop := if fail then WriteFailed(id) else Idle)
      case CloseFailed => Put(l, l.loop.id, Unregister(At(l, l.loop.id))).(loop := Idle)
      case EndLoop => l.(loop := Ended)
      case Handle(id, a) => Put(l, id, HandlerNext(At(l, id), a))
      case PumpStep(id, a) => Put(l, id, PumpNext(At(l, id), a, l.closed))
      case Signal => l.(closed := true)
      case Farewell(_) => l
      case Clear => l.(streams := map id | id in l.streams :: Unregister(l.streams[id]))
  }

  /** The ack `handleOpenStream` puts on the session. */
  function AckOf(a: Action, id: StreamId): seq<Envelope> {
    match a
    case RefuseAck(true) => [OpenStreamAck(id, false, "failed to connect to local port")]
    case Ack(true) => [OpenStreamAck(id, true, "stream opened")]
    case _ => []
  }

  /** Whether the action sends the positive ack. */
  predicate IsPositive(a: Action) {
    a == Ack(true)
  }

  /** The envelopes a step puts on the session. */
  function Sent(l: State, step: Step): seq<Envelope> {
    if !Enabled(l, step) then []
    else match step
      case Recv(Heartbeat) => [Heartbeat]
      case Handle(id, a) => AckOf(a, id)
      case PumpStep(id, a) => Pump.Emits(At(l, id).out, a, l.closed, id)
      case Farewell(true) => [Disconnect("listener shutting down")]
      case _ => []
  }

  function Exec(l: State, steps: seq<Step>): State
    decreases |steps|
  {
    if steps == [] then l else Exec(Next(l, steps[0]), steps[1..])
  }

  // ---------------------------------------------------------------------------
  // The hand-over, against an arbitrary peer.

  function Held(loop: Loop, id: StreamId): seq<Bytes> {
    if loop.Writing? && loop.id == id then [loop.payload] else []
  }

  function Undrained(x: Stream): seq<Bytes> {
    if x.handler.Draining? then x.handler.rest else []
  }

  function Buffered(x: Stream): seq<Bytes> {
    if x.entry.Some? then x.entry.value.buf else []
  }

  /** How the map entry and the goroutine of one stream fit together. */
  ghost predicate Coherent(x: Stream, loop: Loop, id: StreamId) {
    && (x.handler.NoHandler? ==> x == FRESH)
    && (x.entry.Some? && !x.entry.value.hasConn ==>
          && (x.handler.Dialing? || x.handler.Dialed? || x.handler.Refusing?)
          && x.written == [] && Held(loop, id) == [] && !x.broken)
    && (x.entry.Some? && x.entry.value.hasConn ==>
          && x.entry.value.buf == []
          && (x.handler.Draining? || x.handler.DrainFailed? || x.handler.Acked?))
    && (x.handler.Dialing? || x.handler.Dialed? || x.handler.Refusing? || x.handler.Refused? ==>
          Held(loop, id) == [] && x.written == [] && !x.broken)
    && (x.handler.DrainFailed? ==> x.broken)
    && (loop.WriteFailed? && loop.id == id ==> x.broken)
    && (x.broken && x.entry.Some? ==> x.handler.DrainFailed? || loop == WriteFailed(id))
    && Pump.Faithful(x.out)
    && (!x.out.stage.Unstarted? <==> x.handler.Acked?)
  }

  function Total(done: multiset<Bytes>, buf: multiset<Bytes>, rest: multiset<Bytes>,
                 held: multiset<Bytes>, lost: multiset<Bytes>): multiset<Bytes>
  {
    done + buf + rest + held + lost
  }

  /** Every accepted chunk is written, buffered, in somebody's hands, or lost to a
      failed write or to the removal of the stream. */
  ghost predicate Conserved(x: Stream, loop: Loop, id: StreamId) {
    && multiset(x.accepted) ==
         Total(x.done, multiset(Buffered(x)), multiset(Undrained(x)), multiset(Held(loop, id)), x.lost)
    && (x.entry.Some? && !x.broken ==> x.lost == multiset{})
  }

  /** Unless some write overtook an owed chunk, the bytes written and the chunks
      under way spell the accepted chunks in order. */
  ghost predicate InOrder(x: Stream, loop: Loop, id: StreamId) {
    var written := x.written + Flat(Undrained(x)) + Flat(Held(loop, id));
    x.overtaken
    || (if x.broken then x.written <= Flat(x.accepted)
        else if x.entry.Some? then written + Flat(Buffered(x)) == Flat(x.accepted)
        else written <= Flat(x.accepted))
  }

  ghost predicate Sound(x: Stream, loop: Loop, id: StreamId) {
    Coherent(x, loop, id) && Conserved(x, loop, id) && InOrder(x, loop, id)
  }

  ghost predicate Inv(l: State) {
    forall id: StreamId :: Sound(At(l, id), l.loop, id)
  }

  /** Deleting the entry of a stream turns its buffered chunks into lost ones. */
  lemma UnregisterSound(x: Stream, loop: Loop, id: StreamId)
    requires Sound(x, loop, id)
    ensures Sound(Unregister(x), loop, id)
  {
    UnregisterConserved(x, loop, id);
    UnregisterInOrder(x, loop, id);
  }

  lemma UnregisterConserved(x: Stream, loop: Loop, id: StreamId)
    requires Conserved(x, loop, id)
    ensures Conserved(Unregister(x), loop, id)
  {
    assert Undrained(Unregister(x)) == Undrained(x) && Buffered(Unregister(x)) == [];
  }

  lemma UnregisterInOrder(x: Stream, loop: Loop, id: StreamId)
    requires InOrder(x, loop, id)
    ensures InOrder(Unregister(x), loop, id)
  {
    var written := x.written + Flat(Undrained(x)) + Flat(Held(loop, id));
    if x.entry.Some? {
      assert written <= written + Flat(Buffered(x));
    }
  }

  lemma AcceptSound(x: Stream, p: Bytes, id: StreamId)
    requires Sound(x, Idle, id) && x.entry.Some?
    ensures Sound(Accept(x, p), if x.entry.value.hasConn then Writing(id, p) else Idle, id)
  {
    AcceptConserved(x, p, id);
    AcceptInOrder(x, p, id);
  }

  lemma AcceptConserved(x: Stream, p: Bytes, id: StreamId)
    requires Conserved(x, Idle, id) && x.entry.Some?
    ensures Conserved(Accept(x, p), if x.entry.value.hasConn then Writing(id, p) else Idle, id)
  {
  }

  lemma AcceptInOrder(x: Stream, p: Bytes, id: StreamId)
    requires Coherent(x, Idle, id) && InOrder(x, Idle, id) && x.entry.Some?
    ensures InOrder(Accept(x, p), if x.entry.value.hasConn then Writing(id, p) else Idle, id)
  {
    var y := Accept(x, p);
    FlatSnoc(x.accepted, p);
    assert Flat([p]) == p;
    if x.entry.value.hasConn {
      assert Flat(Held(Writing(id, p), id)) == p;
    } else {
      FlatSnoc(x.entry.value.buf, p);
      if !x.overtaken {
        assert Flat(x.accepted) == Flat(x.entry.value.buf);
        assert Flat(y.accepted) == Flat(x.entry.value.buf) + p;
      }
    }
  }

  lemma LoopWriteSound(x: Stream, p: Bytes, n: nat, fail: bool, id: StreamId)
    requires Sound(x, Writing(id, p), id) && n <= |p| && (!fail ==> n == |p|)
    ensures Sound(LoopWrite(x, p, n, fail), if fail then WriteFailed(id) else Idle, id)
  {
    LoopWriteConserved(x, p, n, fail, id);
    LoopWriteInOrder(x, p, n, fail, id);
  }

  lemma LoopWriteConserved(x: Stream, p: Bytes, n: nat, fail: bool, id: StreamId)
    requires Conserved(x, Writing(id, p), id) && n <= |p|
    ensures Conserved(LoopWrite(x, p, n, fail), if fail then WriteFailed(id) else Idle, id)
  {
    var y := LoopWrite(x, p, n, fail);
    var loop := if fail then WriteFailed(id) else Idle;
    Settle(x.done, multiset(Buffered(x)), multiset(Undrained(x)), multiset{p}, x.lost);
    assert Undrained(y) == Undrained(x) && Buffered(y) == Buffered(x) && y.accepted == x.accepted;
    assert Held(Writing(id, p), id) == [p] && Held(loop, id) == [];
    assert multiset([p]) == multiset{p};
    if fail {
      assert y.done == x.done && y.lost == x.lost + multiset{p} && y.broken;
    } else {
      assert y.done == x.done + multiset{p} && y.lost == x.lost;
    }
  }

  lemma Settle(done: multiset<Bytes>, buf: multiset<Bytes>, rest: multiset<Bytes>, c: multiset<Bytes>,
               lost: multiset<Bytes>)
    ensures Total(done, buf, rest, c, lost) == Total(done + c, buf, rest, multiset{}, lost)
    ensures Total(done, buf, rest, c, lost) == Total(done, buf, rest, multiset{}, lost + c)
  {
  }

  lemma LoopWriteInOrder(x: Stream, p: Bytes, n: nat, fail: bool, id: StreamId)
    requires Coherent(x, Writing(id, p), id) && InOrder(x, Writing(id, p), id)
    requires n <= |p| && (!fail ==> n == |p|)
    ensures InOrder(LoopWrite(x, p, n, fail), if fail then WriteFailed(id) else Idle, id)
  {
    assert Flat([p]) == p;
    if !LoopWrite(x, p, n, fail).overtaken {
      assert x.written + p == (x.written + p[..n]) + p[n..];
    }
  }

  lemma TakeOverSound(x: Stream, loop: Loop, id: StreamId)
    requires Sound(x, loop, id) && x.handler.Dialed?
    ensures Sound(TakeOver(x), loop, id)
  {
    TakeOverCoherent(x, loop, id);
    TakeOverConserved(x, loop, id);
    TakeOverInOrder(x, loop, id);
  }

  lemma TakeOverCoherent(x: Stream, loop: Loop, id: StreamId)
    requires Coherent(x, loop, id) && x.handler.Dialed?
    ensures Coherent(TakeOver(x), loop, id)
  {
  }

  lemma TakeOverConserved(x: Stream, loop: Loop, id: StreamId)
    requires Conserved(x, loop, id) && x.handler.Dialed?
    ensures Conserved(TakeOver(x), loop, id)
  {
    assert Undrained(TakeOver(x)) == Buffered(x) && Buffered(TakeOver(x)) == [] && Undrained(x) == [];
  }

  lemma TakeOverInOrder(x: Stream, loop: Loop, id: StreamId)
    requires Coherent(x, loop, id) && InOrder(x, loop, id) && x.handler.Dialed?
    ensures InOrder(TakeOver(x), loop, id)
  {
    assert Held(loop, id) == [] && x.written == [];
  }

  lemma DrainSound(x: Stream, n: nat, fail: bool, loop: Loop, id: StreamId)
    requires Sound(x, loop, id) && Owing(x)
    requires n <= |x.handler.rest[0]| && (!fail ==> n == |x.handler.rest[0]|)
    ensures Sound(DrainWrite(x, n, fail), loop, id)
  {
    DrainConserved(x, n, fail, loop, id);
    DrainInOrder(x, n, fail, loop, id);
  }

  lemma SplitHead(s: seq<Bytes>)
    requires s != []
    ensures multiset(s) == multiset{s[0]} + multiset(s[1..])
  {
    assert s == [s[0]] + s[1..];
  }

  lemma DrainConserved(x: Stream, n: nat, fail: bool, loop: Loop, id: StreamId)
    requires Conserved(x, loop, id) && Owing(x)
    requires n <= |x.handler.rest[0]|
    ensures Conserved(DrainWrite(x, n, fail), loop, id)
  {
    var y, rest := DrainWrite(x, n, fail), x.handler.rest;
    var buf, held := multiset(Buffered(x)), multiset(Held(loop, id));
    SplitHead(rest);
    Regroup(x.done, buf, multiset{rest[0]}, multiset(rest[1..]), held, x.lost);
    assert y.accepted == x.accepted && Buffered(y) == Buffered(x);
    if fail {
      assert Undrained(y) == [] && y.done == x.done && y.lost == x.lost + multiset(rest);
    } else {
      assert Undrained(y) == rest[1..] && y.done == x.done + multiset{rest[0]} && y.lost == x.lost;
    }
  }

  lemma Regroup(done: multiset<Bytes>, buf: multiset<Bytes>, c: multiset<Bytes>, rest: multiset<Bytes>,
                held: multiset<Bytes>, lost: multiset<Bytes>)
    ensures Total(done, buf, c + rest, held, lost) == Total(done + c, buf, rest, held, lost)
    ensures Total(done, buf, c + rest, held, lost) == Total(done, buf, multiset{}, held, lost + (c + rest))
  {
  }

  /** Moving the first `n` owed bytes to the written ones. */
  lemma Shift(w: Bytes, c: Bytes, n: nat, later: Bytes, all: Bytes)
    requires n <= |c| && w + (c + later) <= all
    ensures (w + c[..n]) <= all
    ensures n == |c| ==> w + c[..n] + later == w + (c + later)
  {
    assert w + (c + later) == (w + c[..n]) + (c[n..] + later);
  }

  lemma DrainInOrder(x: Stream, n: nat, fail: bool, loop: Loop, id: StreamId)
    requires InOrder(x, loop, id) && Owing(x)
    requires n <= |x.handler.rest[0]| && (!fail ==> n == |x.handler.rest[0]|)
    ensures InOrder(DrainWrite(x, n, fail), loop, id)
  {
    if !DrainWrite(x, n, fail).overtaken {
      var c, later := x.handler.rest[0], Flat(x.handler.rest[1..]);
      Shift(x.written, c, n, later, Flat(x.accepted));
    }
  }

  lemma ReceiveDataSound(l: State, env: Envelope, id: StreamId)
    requires Sound(At(l, id), Idle, id) && l.loop.Idle? && env.Data? && env.streamId == id && At(l, id).entry.Some?
    ensures Sound(At(Receive(l, env), id), Receive(l, env).loop, id)
  {
    AcceptSound(At(l, id), env.payload, id);
    assert At(Receive(l, env), id) == Accept(At(l, id), env.payload);
  }

  lemma ReceiveCloseSound(l: State, env: Envelope, id: StreamId)
    requires Sound(At(l, id), Idle, id) && l.loop.Idle? && env == CloseStream(id)
    ensures Sound(At(Receive(l, env), id), Receive(l, env).loop, id)
  {
    UnregisterSound(At(l, id), l.loop, id);
    assert At(Receive(l, env), id) == Unregister(At(l, id));
  }

  lemma ReceiveOpenSound(l: State, env: Envelope, id: StreamId)
    requires l.loop.Idle? && env == OpenStream(id)
    ensures Sound(At(Receive(l, env), id), Receive(l, env).loop, id)
  {
    assert At(Receive(l, env), id) == OPENED;
  }

  lemma ReceiveSound(l: State, env: Envelope, id: StreamId)
    requires Sound(At(l, id), l.loop, id) && Enabled(l, Recv(env)) && Concerns(env, id)
    ensures Sound(At(Receive(l, env), id), Receive(l, env).loop, id)
  {
    if env.Data? && At(l, id).entry.Some? {
      ReceiveDataSound(l, env, id);
    } else if env.CloseStream? {
      ReceiveCloseSound(l, env, id);
    } else if env.OpenStream? {
      ReceiveOpenSound(l, env, id);
    }
  }

  /** A step leaves the streams it does not name as they were, and the loop's
      hands empty of their chunks or unchanged. */
  predicate Touches(l: State, step: Step, id: StreamId) {
    match step
    case Recv(env) => Concerns(env, id)
    case Write(_, _) => l.loop.Writing? && l.loop.id == id
    case CloseFailed => l.loop.WriteFailed? && l.loop.id == id
    case EndLoop => false
    case Signal => false
    case Farewell(_) => false
    case Clear => true
    case Handle(i, _) => i == id
    case PumpStep(i, _) => i == id
  }

  /** The part of the loop's state that matters to one stream. */
  function Focus(loop: Loop, id: StreamId): Loop {
    if (loop.Writing? || loop.WriteFailed?) && loop.id == id then loop else Idle
  }

  lemma SoundFocus(x: Stream, loop: Loop, id: StreamId)
    ensures Sound(x, loop, id) <==> Sound(x, Focus(loop, id), id)
  {
    assert Held(loop, id) == Held(Focus(loop, id), id);
  }

  lemma Untouched(l: State, step: Step, id: StreamId)
    requires !Touches(l, step, id)
    ensures At(Next(l, step), id) == At(l, id)
    ensures Focus(Next(l, step).loop, id) == Focus(l.loop, id)
  {
  }

  /** Every step keeps every stream sound. */
  lemma StepSound(l: State, step: Step, id: StreamId)
    requires Sound(At(l, id), l.loop, id)
    ensures Sound(At(Next(l, step), id), Next(l, step).loop, id)
  {
    if !Touches(l, step, id) {
      Untouched(l, step, id);
      SoundFocus(At(l, id), l.loop, id);
      SoundFocus(At(Next(l, step), id), Next(l, step).loop, id);
    } else if Enabled(l, step) {
      if step.Recv? {
        ReceiveSound(l, step.env, id);
      } else if step.Write? || step.CloseFailed? {
        LoopStepSound(l, step, id);
      } else {
        GoroutineSound(l, step, id);
      }
    }
  }

  lemma LoopStepSound(l: State, step: Step, id: StreamId)
    requires Sound(At(l, id), l.loop, id) && Enabled(l, step) && Touches(l, step, id)
    requires step.Write? || step.CloseFailed?
    ensures Sound(At(Next(l, step), id), Next(l, step).loop, id)
  {
    if step.Write? {
      LoopWriteSound(At(l, id), l.loop.payload, step.n, step.fail, id);
    } else {
      UnregisterSound(At(l, id), l.loop, id);
      SoundAfterClose(Unregister(At(l, id)), id);
    }
  }

  lemma GoroutineSound(l: State, step: Step, id: StreamId)
    requires Sound(At(l, id), l.loop, id) && Enabled(l, step) && Touches(l, step, id)
    requires step.Handle? || step.PumpStep? || step.Clear?
    ensures Sound(At(Next(l, step), id), Next(l, step).loop, id)
  {
    match step
    case Handle(_, a) => HandlerSound(At(l, id), a, l.loop, id);
    case PumpStep(_, a) => PumpSound(At(l, id), a, l.closed, l.loop, id);
    case Clear => UnregisterSound(At(l, id), l.loop, id);
  }

  lemma SoundAfterClose(x: Stream, id: StreamId)
    requires Sound(x, WriteFailed(id), id) && x.entry.None?
    ensures Sound(x, Idle, id)
  {
  }

  lemma HandlerSound(x: Stream, a: Action, loop: Loop, id: StreamId)
    requires Sound(x, loop, id) && HandlerEnabled(x, a)
    ensures Sound(HandlerNext(x, a), loop, id)
  {
    match a
    case Dial(ok) => MoveOn(x, if ok then Dialed else Refusing, loop, id);
    case Refuse => UnregisterSound(x, loop, id); MoveOn(Unregister(x), Refused, loop, id);
    case RefuseAck(_) => MoveOn(x, Finished, loop, id);
    case HandOver => TakeOverSound(x, loop, id);
    case Drain(n, fail) => DrainSound(x, n, fail, loop, id);
    case DrainClose => UnregisterSound(x, loop, id); MoveOn(Unregister(x), Finished, loop, id);
    case Ack(ok) => AckSound(x, ok, loop, id);
  }

  lemma AckSound(x: Stream, ok: bool, loop: Loop, id: StreamId)
    requires Sound(x, loop, id) && x.handler == Draining([])
    ensures Sound(x.(handler := Acked(ok), out := Pump.STARTED), loop, id)
  {
  }

  /** The moves of `handleOpenStream` that carry no chunk. */
  lemma MoveOn(x: Stream, handler: Handler, loop: Loop, id: StreamId)
    requires Sound(x, loop, id)
    requires
      || (x.handler.Dialing? && (handler.Dialed? || handler.Refusing?))
      || (x.entry.None? && x.handler.Refusing? && handler.Refused?)
      || (x.entry.None? && x.handler.DrainFailed? && handler.Finished?)
      || (x.handler.Refused? && handler.Finished?)
    ensures Sound(x.(handler := handler), loop, id)
  {
  }

  /** A pump step that does not end the pump touches nothing but the pump. */
  lemma OutflowSound(x: Stream, out: Pump.Outflow, loop: Loop, id: StreamId)
    requires Sound(x, loop, id) && Pump.Faithful(out) && (out.stage.Unstarted? <==> x.out.stage.Unstarted?)
    requires x.out.stage.Unstarted? ==> out == x.out
    ensures Sound(x.(out := out), loop, id)
  {
    var y := x.(out := out);
    assert Buffered(y) == Buffered(x) && Undrained(y) == Undrained(x);
    assert Coherent(y, loop, id) && Conserved(y, loop, id) && InOrder(y, loop, id);
  }

  lemma PumpSound(x: Stream, a: Pump.Action, closed: bool, loop: Loop, id: StreamId)
    requires Sound(x, loop, id) && Pump.Enabled(x.out, a, closed)
    ensures Sound(PumpNext(x, a, closed), loop, id)
  {
    var out := Pump.Next(x.out, a, closed);
    Pump.NextFaithful(x.out, a, closed);
    OutflowSound(x, out, loop, id);
    if Pump.Unregisters(a) {
      UnregisterSound(x.(out := out), loop, id);
    }
  }

  lemma {:induction false} ExecInv(l: State, steps: seq<Step>)
    requires Inv(l)
    ensures Inv(Exec(l, steps))
    decreases |steps|
  {
    if steps != [] {
      forall id: StreamId ensures Sound(At(Next(l, steps[0]), id), Next(l, steps[0]).loop, id) {
        StepSound(l, steps[0], id);
      }
      ExecInv(Next(l, steps[0]), steps[1..]);
    }
  }

  /** Against any peer that does not reopen a live id, and under any schedule, no
      chunk is lost or duplicated by the hand-over: what was accepted is what was
      written, plus what is buffered, being drained or about to be written, plus what
      a failed write or the removal of the stream gave up; and a registered stream
      whose writes succeed has given up nothing. */
  lemma HandOverConserves(steps: seq<Step>, id: StreamId)
    ensures var l := Exec(INIT, steps);
            var x := At(l, id);
            && multiset(x.accepted) ==
                 x.done + multiset(Buffered(x)) + multiset(Undrained(x)) + multiset(Held(l.loop, id)) + x.lost
            && (x.entry.Some? && !x.broken ==> x.lost == multiset{})
  {
    InitInv();
    ExecInv(INIT, steps);
    assert Sound(At(Exec(INIT, steps), id), Exec(INIT, steps).loop, id);
  }

  /** The local service sees a prefix of the accepted bytes unless a write overtook
      chunks that were owed to it. */
  lemma OrderUnlessOvertaken(steps: seq<Step>, id: StreamId)
    ensures var x := At(Exec(INIT, steps), id);
            x.overtaken || x.written <= Flat(x.accepted)
  {
    InitInv();
    ExecInv(INIT, steps);
    assert Sound(At(Exec(INIT, steps), id), Exec(INIT, steps).loop, id);
  }

  lemma InitInv()
    ensures Inv(INIT)
  {
  }

  // ---------------------------------------------------------------------------
  // The hand-over, against a peer that waits for the ack.

  /** The peer keeps the chunks of a stream back until its ack was attempted. */
  predicate Patient(l: State, step: Step, id: StreamId) {
    step.Recv? && step.env.Data? && step.env.streamId == id ==> At(l, id).handler.Acked?
  }

  /** No chunk is ever owed by `handleOpenStream`, so none can be overtaken. */
  ghost predicate Calm(x: Stream, loop: Loop, id: StreamId) {
    && !x.overtaken && Undrained(x) == [] && !x.handler.DrainFailed?
    && (!x.handler.Acked? ==> x.accepted == [] && Buffered(x) == [] && Focus(loop, id).Idle?)
    && (x.broken ==> !Focus(loop, id).Writing? && (x.entry.None? || Focus(loop, id).WriteFailed?))
  }

  lemma ReceiveCalm(l: State, env: Envelope, id: StreamId)
    requires Coherent(At(l, id), l.loop, id) && Calm(At(l, id), l.loop, id)
    requires Patient(l, Recv(env), id) && Concerns(env, id)
    ensures Calm(At(Next(l, Recv(env)), id), Next(l, Recv(env)).loop, id)
  {
  }

  lemma HandlerCalm(x: Stream, a: Action, loop: Loop, id: StreamId)
    requires Coherent(x, loop, id) && Calm(x, loop, id) && HandlerEnabled(x, a)
    ensures Calm(HandlerNext(x, a), loop, id)
  {
  }

  lemma PumpCalm(x: Stream, a: Pump.Action, closed: bool, loop: Loop, id: StreamId)
    requires Calm(x, loop, id) && Pump.Enabled(x.out, a, closed)
    ensures Calm(PumpNext(x, a, closed), loop, id)
  {
  }

  lemma StepCalm(l: State, step: Step, id: StreamId)
    requires Coherent(At(l, id), l.loop, id) && Calm(At(l, id), l.loop, id) && Patient(l, step, id)
    ensures Calm(At(Next(l, step), id), Next(l, step).loop, id)
  {
    if !Touches(l, step, id) {
      Untouched(l, step, id);
    } else if step.Recv? {
      ReceiveCalm(l, step.env, id);
    } else if step.Handle? && Enabled(l, step) {
      HandlerCalm(At(l, id), step.action, l.loop, id);
    } else if step.PumpStep? && Enabled(l, step) {
      PumpCalm(At(l, id), step.pump, l.closed, l.loop, id);
    }
  }

  /** Every Data message of stream `id` in the run comes after the ack. */
  ghost predicate PatientRun(l: State, steps: seq<Step>, id: StreamId)
    decreases |steps|
  {
    steps == [] || (Patient(l, steps[0], id) && PatientRun(Next(l, steps[0]), steps[1..], id))
  }

  lemma {:induction false} ExecCalm(l: State, steps: seq<Step>, id: StreamId)
    requires Inv(l) && Calm(At(l, id), l.loop, id) && PatientRun(l, steps, id)
    ensures Calm(At(Exec(l, steps), id), Exec(l, steps).loop, id)
    decreases |steps|
  {
    if steps != [] {
      assert Sound(At(l, id), l.loop, id);
      StepCalm(l, steps[0], id);
      ExecInv(l, [steps[0]]);
      assert Exec(l, [steps[0]]) == Exec(Next(l, steps[0]), []);
      ExecCalm(Next(l, steps[0]), steps[1..], id);
    }
  }

  /** A peer that waits for the ack is never reordered. */
  lemma PatientPeerIsInOrder(steps: seq<Step>, id: StreamId)
    requires PatientRun(INIT, steps, id)
    ensures var x := At(Exec(INIT, steps), id);
            !x.overtaken && x.written <= Flat(x.accepted)
  {
    InitInv();
    ExecCalm(INIT, steps, id);
    OrderUnlessOvertaken(steps, id);
  }
}
