/** Whether the bytes of a stream reach the local service in order, when the listener
    drains its buffer outside the lock (pkg/tunnel/listener.go:246-254) and the peer may
    send whatever it likes. */
module Overtaking {
  import opened Messages
  import opened Listener
  import Pump

  /** A run without any failure after which the stream has accepted `first` then
      `second`, and the local service has received `second` then `first`. */
  ghost predicate ReordersChunks(steps: seq<Step>, id: StreamId, first: Bytes, second: Bytes) {
    var x := At(Exec(INIT, steps), id);
    x.accepted == [first, second] && x.written == second + first && !x.broken
  }

  /** The hand-over drains outside the lock, so whatever a peer sends straight after
      OpenStream and then next, on any id, the second chunk can be written first. */
  lemma EagerPeerIsReordered(id: StreamId, first: Bytes, second: Bytes)
    ensures exists steps :: ReordersChunks(steps, id, first, second)
  {
    var l := HandedOver(id, first);
    var late := [Recv(Data(id, second)), Write(|second|, false), Handle(id, Drain(|first|, false))];
    OvertakingWrite(l, id, first, second, late);
    ExecAppend(INIT, EarlySteps(id, first), late);
    assert ReordersChunks(EarlySteps(id, first) + late, id, first, second);
  }

  function EarlySteps(id: StreamId, first: Bytes): seq<Step> {
    [Recv(OpenStream(id)), Recv(Data(id, first)), Handle(id, Dial(true)), Handle(id, HandOver)]
  }

  /** A chunk that arrived during the dial is about to be drained. */
  lemma HandedOver(id: StreamId, first: Bytes) returns (l: State)
    ensures l == Exec(INIT, EarlySteps(id, first)) && l.loop.Idle?
    ensures At(l, id).entry == Some(Entry(true, [])) && At(l, id).handler == Draining([first])
    ensures At(l, id).written == [] && At(l, id).accepted == [first] && !At(l, id).broken
  {
    var run := EarlySteps(id, first);
    var l1 := Next(INIT, run[0]);
    var l2 := Next(l1, run[1]);
    assert [] + [first] == [first];
    var l3 := Next(l2, run[2]);
    l := Next(l3, run[3]);
    assert run[0..] == run;
    ExecFrom(INIT, run, 0);
    ExecFrom(l1, run, 1);
    ExecFrom(l2, run, 2);
    ExecFrom(l3, run, 3);
  }

  lemma OvertakingWrite(l: State, id: StreamId, first: Bytes, second: Bytes, run: seq<Step>)
    requires l.loop.Idle? && At(l, id).entry == Some(Entry(true, [])) && At(l, id).handler == Draining([first])
    requires At(l, id).written == [] && At(l, id).accepted == [first] && !At(l, id).broken
    requires run == [Recv(Data(id, second)), Write(|second|, false), Handle(id, Drain(|first|, false))]
    ensures var x := At(Exec(l, run), id);
            x.accepted == [first, second] && x.written == second + first && !x.broken
  {
    var m := DirectWrite(l, id, second);
    LastDrain(m, id, first);
    ExecThree(l, run);
    assert [first] + [second] == [first, second];
    assert [] + second == second;
  }

  lemma LastDrain(l: State, id: StreamId, p: Bytes)
    requires At(l, id).handler == Draining([p])
    ensures var x, y := At(l, id), At(Next(l, Handle(id, Drain(|p|, false))), id);
            y.accepted == x.accepted && y.written == x.written + p && y.broken == x.broken
  {
    assert p[..|p|] == p;
  }

  lemma ExecThree(l: State, run: seq<Step>)
    requires |run| == 3
    ensures Exec(l, run) == Next(Next(Next(l, run[0]), run[1]), run[2])
  {
    assert run[0..] == run;
    ExecFrom(l, run, 0);
    ExecFrom(Next(l, run[0]), run, 1);
    ExecFrom(Next(Next(l, run[0]), run[1]), run, 2);
  }

  /** A chunk arriving for a stream with a published connection is written at once,
      whatever is still to be drained. */
  lemma DirectWrite(l: State, id: StreamId, p: Bytes) returns (m: State)
    requires l.loop.Idle? && At(l, id).entry.Some? && At(l, id).entry.value.hasConn
    ensures m == Next(Next(l, Recv(Data(id, p))), Write(|p|, false)) && m.loop.Idle?
    ensures At(m, id).entry == At(l, id).entry && At(m, id).handler == At(l, id).handler
    ensures At(m, id).accepted == At(l, id).accepted + [p] && At(m, id).written == At(l, id).written + p
    ensures At(m, id).broken == At(l, id).broken
  {
    var l1 := Next(l, Recv(Data(id, p)));
    assert l1.loop == Writing(id, p) && At(l1, id) == Accept(At(l, id), p);
    assert p[..|p|] == p;
    m := Next(l1, Write(|p|, false));
  }

  /** The peer does not open the id again. */
  ghost predicate NoReopen(steps: seq<Step>, id: StreamId) {
    forall i :: 0 <= i < |steps| ==> steps[i] != Recv(OpenStream(id))
  }

  /** The service has received a prefix of the accepted bytes. */
  ghost predicate Ordered(l: State, id: StreamId) {
    At(l, id).written <= Flat(At(l, id).accepted)
  }

  /** The stream was handed over with no byte left to drain: whatever the drain still
      does, the loop alone writes, and it writes the accepted bytes in order. */
  ghost predicate Drained(x: Stream, f: Loop) {
    && (x.handler.Draining? || x.handler.DrainFailed? || x.handler.Acked? || x.handler.Finished?)
    && Flat(Undrained(x)) == []
    && (f.Writing? ==> x.written + f.payload == Flat(x.accepted))
    && (f.Idle? && x.entry.Some? ==> x.written == Flat(x.accepted))
    && x.written <= Flat(x.accepted)
  }

  lemma DrainedWrite(x: Stream, p: Bytes, n: nat, fail: bool, id: StreamId)
    requires Drained(x, Writing(id, p)) && n <= |p| && (!fail ==> n == |p|)
    ensures Drained(LoopWrite(x, p, n, fail), if fail then WriteFailed(id) else Idle)
  {
    assert x.written + p == (x.written + p[..n]) + p[n..];
  }

  lemma DrainedDrain(x: Stream, n: nat, fail: bool, f: Loop)
    requires Drained(x, f) && Owing(x) && n <= |x.handler.rest[0]|
    ensures Drained(DrainWrite(x, n, fail), f)
  {
    var c, rest := x.handler.rest[0], x.handler.rest;
    assert Flat(rest) == c + Flat(rest[1..]);
    assert |c| == 0 && Flat(rest[1..]) == [];
    assert x.written + c[..n] == x.written;
  }

  lemma DrainedData(l: State, p: Bytes, id: StreamId)
    requires Coherent(At(l, id), l.loop, id) && Drained(At(l, id), Idle) && l.loop.Idle?
    ensures var m := Receive(l, Data(id, p)); Drained(At(m, id), Focus(m.loop, id))
  {
    FlatSnoc(At(l, id).accepted, p);
  }

  lemma DrainedUnregister(x: Stream, f: Loop)
    requires Drained(x, f)
    ensures Drained(Unregister(x), f) && Drained(Unregister(x), Idle)
  {
    assert Undrained(Unregister(x)) == Undrained(x);
  }

  lemma DrainedHandler(x: Stream, a: Action, f: Loop)
    requires Drained(x, f) && HandlerEnabled(x, a)
    ensures Drained(HandlerNext(x, a), f)
  {
    if a.Drain? {
      DrainedDrain(x, a.n, a.fail, f);
    } else if a.DrainClose? {
      DrainedUnregister(x, f);
    }
  }

  lemma DrainedPump(x: Stream, a: Pump.Action, closed: bool, f: Loop)
    requires Drained(x, f) && Pump.Enabled(x.out, a, closed)
    ensures Drained(PumpNext(x, a, closed), f)
  {
    var y := x.(out := Pump.Next(x.out, a, closed));
    assert Undrained(y) == Undrained(x);
    DrainedUnregister(y, f);
  }

  lemma DrainedReceive(l: State, env: Envelope, id: StreamId)
    requires Coherent(At(l, id), l.loop, id) && Drained(At(l, id), Idle) && l.loop.Idle?
    requires Concerns(env, id) && env != OpenStream(id)
    ensures var m := Receive(l, env); Drained(At(m, id), Focus(m.loop, id))
  {
    if env.Data? {
      DrainedData(l, env.payload, id);
    } else {
      DrainedUnregister(At(l, id), Idle);
    }
  }

  lemma DrainedLoop(l: State, step: Step, id: StreamId)
    requires Drained(At(l, id), Focus(l.loop, id)) && Enabled(l, step) && Touches(l, step, id)
    requires step.Write? || step.CloseFailed? || step.Clear?
    ensures Drained(At(Next(l, step), id), Focus(Next(l, step).loop, id))
  {
    if step.Write? {
      DrainedWrite(At(l, id), l.loop.payload, step.n, step.fail, id);
    } else {
      DrainedUnregister(At(l, id), Focus(l.loop, id));
    }
  }

  lemma StepDrained(l: State, step: Step, id: StreamId)
    requires Coherent(At(l, id), l.loop, id) && Drained(At(l, id), Focus(l.loop, id)) && step != Recv(OpenStream(id))
    ensures Drained(At(Next(l, step), id), Focus(Next(l, step).loop, id))
  {
    if !Touches(l, step, id) {
      Untouched(l, step, id);
    } else if Enabled(l, step) {
      match step
      case Recv(env) => DrainedReceive(l, env, id);
      case Handle(_, a) => DrainedHandler(At(l, id), a, Focus(l.loop, id));
      case PumpStep(_, a) => DrainedPump(At(l, id), a, l.closed, Focus(l.loop, id));
      case _ => DrainedLoop(l, step, id);
    }
  }

  lemma {:induction false} ExecDrained(l: State, steps: seq<Step>, id: StreamId)
    requires Inv(l) && Drained(At(l, id), Focus(l.loop, id)) && NoReopen(steps, id)
    ensures Ordered(Exec(l, steps), id)
    decreases |steps|
  {
    if steps != [] {
      assert Sound(At(l, id), l.loop, id);
      StepDrained(l, steps[0], id);
      ExecInv(l, [steps[0]]);
      assert Exec(l, [steps[0]]) == Exec(Next(l, steps[0]), []);
      ExecDrained(Next(l, steps[0]), steps[1..], id);
    }
  }

  /** `handleOpenStream` is still to drain or draining. */
  predicate BeforeAck(x: Stream) {
    x.handler.Dialing? || x.handler.Dialed? || x.handler.Draining?
  }

  /** The loop has ended, so the drain is the only one left to write. */
  ghost predicate DrainsAlone(l: State, id: StreamId) {
    l.loop.Ended? && !At(l, id).overtaken && (BeforeAck(At(l, id)) ==> !At(l, id).broken)
  }

  lemma HandlerDrainsAlone(x: Stream, a: Action)
    requires HandlerEnabled(x, a) && !x.overtaken && (BeforeAck(x) ==> !x.broken)
    ensures var y := HandlerNext(x, a); !y.overtaken && (BeforeAck(y) ==> !y.broken)
  {
  }

  lemma StepDrainsAlone(l: State, step: Step, id: StreamId)
    requires DrainsAlone(l, id)
    ensures DrainsAlone(Next(l, step), id)
  {
    if !Touches(l, step, id) {
      Untouched(l, step, id);
    } else if Enabled(l, step) {
      if step.Handle? {
        HandlerDrainsAlone(At(l, id), step.action);
      } else {
        var x, y := At(l, id), At(Next(l, step), id);
        assert y.overtaken == x.overtaken && y.broken == x.broken && y.handler == x.handler;
      }
    }
  }

  lemma {:induction false} ExecDrainsAlone(l: State, steps: seq<Step>, id: StreamId)
    requires DrainsAlone(l, id)
    ensures DrainsAlone(Exec(l, steps), id)
    decreases |steps|
  {
    if steps != [] {
      StepDrainsAlone(l, steps[0], id);
      ExecDrainsAlone(Next(l, steps[0]), steps[1..], id);
    }
  }

  /** The connection is published and nothing has gone wrong yet. */
  ghost predicate Published(l: State, id: StreamId) {
    Inv(l) && At(l, id).entry.Some? && At(l, id).handler.Draining? && !At(l, id).overtaken && !At(l, id).broken
  }

  /** Once the connection is published, whether the stream stays in order depends on
      the buffer that was taken and on nothing else: no behaviour of the peer and no
      schedule reorders it, if and only if no byte is left to drain or the message loop
      has ended. */
  lemma OrderHangsOnTheBuffer(l: State, id: StreamId)
    requires Published(l, id)
    ensures Flat(At(l, id).handler.rest) == [] || l.loop.Ended? <==>
            forall steps :: NoReopen(steps, id) ==> Ordered(Exec(l, steps), id)
  {
    assert Sound(At(l, id), l.loop, id);
    if Flat(At(l, id).handler.rest) == [] {
      NothingOwed(l, id);
      forall steps | NoReopen(steps, id) ensures Ordered(Exec(l, steps), id) {
        ExecDrained(l, steps, id);
      }
    } else if l.loop.Ended? {
      forall steps | NoReopen(steps, id) ensures Ordered(Exec(l, steps), id) {
        ExecDrainsAlone(l, steps, id);
        ExecInv(l, steps);
        assert Sound(At(Exec(l, steps), id), Exec(l, steps).loop, id);
      }
    } else {
      var steps := Overtake(l, id);
    }
  }

  lemma NothingOwed(l: State, id: StreamId)
    requires Published(l, id) && Flat(At(l, id).handler.rest) == []
    ensures Drained(At(l, id), Focus(l.loop, id))
  {
    var x := At(l, id);
    assert Sound(x, l.loop, id);
    assert Flat(Held(l.loop, id)) == if Focus(l.loop, id).Writing? then l.loop.payload else [] by {
      if Focus(l.loop, id).Writing? {
        assert Flat([l.loop.payload]) == l.loop.payload;
      }
    }
  }

  /** The message loop finishes what it has in hand without failing. */
  lemma LoopFinishes(l: State, id: StreamId) returns (steps: seq<Step>, p: Bytes)
    requires Published(l, id) && !l.loop.Ended?
    ensures NoReopen(steps, id)
    ensures var m := Exec(l, steps);
            && m.loop.Idle? && At(m, id).entry == At(l, id).entry && At(m, id).handler == At(l, id).handler
            && At(m, id).accepted == At(l, id).accepted && At(m, id).written == At(l, id).written + p
            && Flat(At(l, id).accepted) == At(l, id).written + Flat(At(l, id).handler.rest) + p
  {
    var x := At(l, id);
    assert Sound(x, l.loop, id);
    if l.loop.Idle? {
      steps, p := [], [];
    } else {
      var step := if l.loop.Writing? then Write(|l.loop.payload|, false) else CloseFailed;
      steps := [step];
      assert Exec(l, steps) == Next(l, step);
      p := [];
      if l.loop.Writing? && l.loop.id == id {
        p := l.loop.payload;
        assert p[..|p|] == p && Flat([p]) == p;
      }
    }
  }

  /** A byte that arrives now is written ahead of the owed ones. */
  lemma Overtake(l: State, id: StreamId) returns (steps: seq<Step>)
    requires Published(l, id) && Flat(At(l, id).handler.rest) != [] && !l.loop.Ended?
    ensures NoReopen(steps, id) && !Ordered(Exec(l, steps), id)
  {
    var x := At(l, id);
    assert Sound(x, l.loop, id);
    var early, p := LoopFinishes(l, id);
    var m := Exec(l, early);
    var due := (Flat(x.handler.rest) + p)[|p|];
    var next: Bytes := [if due == 0 then 1 else 0];
    var late := [Recv(Data(id, next)), Write(|next|, false)];
    var t := DirectWrite(m, id, next);
    assert late[0..] == late;
    ExecFrom(m, late, 0);
    ExecFrom(Next(m, late[0]), late, 1);
    assert Exec(m, late) == t;
    ExecAppend(l, early, late);
    steps := early + late;
    OutOfPlace(x.written, p, next, Flat(x.handler.rest));
    FlatSnoc(x.accepted, next);
  }

  lemma OutOfPlace(w: Bytes, p: Bytes, next: Bytes, owed: Bytes)
    requires |next| == 1 && owed != [] && next[0] != (owed + p)[|p|]
    ensures !(w + p + next <= (w + owed + p) + next)
  {
    var i := |w| + |p|;
    assert (w + p + next)[i] == next[0];
    assert ((w + owed + p) + next)[i] == (owed + p)[|p|] by {
      assert (w + owed + p) + next == w + ((owed + p) + next);
    }
  }

  lemma ExecFrom(l: State, run: seq<Step>, k: nat)
    requires k < |run|
    ensures Exec(l, run[k..]) == Exec(Next(l, run[k]), run[k + 1..])
  {
    assert run[k..][1..] == run[k + 1..];
  }

  lemma {:induction false} ExecAppend(l: State, a: seq<Step>, b: seq<Step>)
    ensures Exec(l, a + b) == Exec(Exec(l, a), b)
    decreases |a|
  {
    if a == [] {
      assert a + b == b;
    } else {
      assert (a + b)[1..] == a[1..] + b;
      ExecAppend(Next(l, a[0]), a[1..], b);
    }
  }
}
