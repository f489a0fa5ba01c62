/** Streams do get through: for every id and every traffic in both directions there is a
    run of the tunnel, without a failure, that opens the stream, carries the traffic
    whole, and ends with both ends rid of the stream. */
module Lifetime {
  import opened Messages
  import Pump
  import C = Connector
  import L = Listener
  import opened Tunnel

  lemma {:induction false} ExecAppend(s: State, a: seq<Step>, b: seq<Step>)
    ensures Exec(s, a + b) == Exec(Exec(s, a), b)
    decreases |a|
  {
    if a == [] {
      assert a + b == b;
    } else {
      assert (a + b)[1..] == a[1..] + b;
      ExecAppend(Next(s, a[0]), a[1..], b);
    }
  }

  lemma ExecTwo(s: State, r: seq<Step>)
    requires |r| == 2
    ensures Exec(s, r) == Next(Next(s, r[0]), r[1])
  {
    var s1 := Next(s, r[0]);
    assert r[1..][1..] == [];
    assert Exec(s1, r[1..]) == Exec(Next(s1, r[1]), r[1..][1..]);
  }

  lemma ExecThree(s: State, r: seq<Step>)
    requires |r| == 3
    ensures Exec(s, r) == Next(Next(Next(s, r[0]), r[1]), r[2])
  {
    ExecTwo(Next(s, r[0]), r[1..]);
  }

  lemma Alone(m: Envelope)
    requires !m.Heartbeat?
    ensures NonHeartbeats([m]) == [m] && [] + NonHeartbeats([m]) == [m]
  {
    assert [m][1..] == [];
  }

  /** One step of a connector's goroutine, pump or loop, and of a listener's. */
  lemma HandleStep(s: State, id: StreamId, a: C.Action)
    requires C.HandlerEnabled(C.At(s.c, id), a, s.c.closed)
    ensures var t := Next(s, ByConnector(C.Handle(id, a)));
            && C.At(t.c, id) == C.HandlerNext(C.At(s.c, id), a, s.c.closed) && t.c.loop == s.c.loop
            && t.l == s.l && t.toConnector == s.toConnector && t.c.closed == s.c.closed
            && t.toListener == s.toListener + if a == C.Open(true) then [OpenStream(id)] else []
  {
    Alone(OpenStream(id));
  }

  lemma PumpStepUp(s: State, id: StreamId, a: Pump.Action)
    requires Pump.Enabled(C.At(s.c, id).out, a, s.c.closed)
    ensures var t := Next(s, ByConnector(C.PumpStep(id, a)));
            && C.At(t.c, id) == C.PumpNext(C.At(s.c, id), a, s.c.closed) && t.c.loop == s.c.loop
            && t.l == s.l && t.toConnector == s.toConnector && t.c.closed == s.c.closed
            && t.toListener == s.toListener + Pump.Emits(C.At(s.c, id).out, a, s.c.closed, id)
  {
    Emitted(C.At(s.c, id).out, a, s.c.closed, id);
  }

  lemma PumpStepDown(s: State, id: StreamId, a: Pump.Action)
    requires Pump.Enabled(L.At(s.l, id).out, a, s.l.closed)
    ensures var t := Next(s, ByListener(L.PumpStep(id, a)));
            && L.At(t.l, id) == L.PumpNext(L.At(s.l, id), a, s.l.closed) && t.l.loop == s.l.loop
            && t.c == s.c && t.toListener == s.toListener && t.l.closed == s.l.closed
            && t.toConnector == s.toConnector + Pump.Emits(L.At(s.l, id).out, a, s.l.closed, id)
  {
    Emitted(L.At(s.l, id).out, a, s.l.closed, id);
  }

  lemma Emitted(o: Pump.Outflow, a: Pump.Action, closed: bool, id: StreamId)
    requires Pump.Enabled(o, a, closed)
    ensures NonHeartbeats(Pump.Emits(o, a, closed, id)) == Pump.Emits(o, a, closed, id)
  {
    if a == Pump.Send(true) {
      Alone(Data(id, o.stage.chunk));
    }
    Alone(CloseStream(id));
  }

  /** Nothing is under way and both message loops wait. */
  predicate Quiet(s: State) {
    s.toListener == [] && s.toConnector == [] && s.c.loop.Idle? && s.l.loop.Idle?
  }

  predicate Pumping(o: Pump.Outflow) {
    o.stage.Reading? && !o.announced
  }

  /** The stream is open at both ends. */
  predicate Open(s: State, id: StreamId) {
    var x, y := C.At(s.c, id), L.At(s.l, id);
    && Quiet(s)
    && x.phase.Pumping? && x.registered && !x.broken && Pumping(x.out)
    && y.handler == L.Acked(true) && y.entry == Some(L.Entry(true, [])) && !y.broken && Pumping(y.out)
  }

  // ---------------------------------------------------------------------------
  // Opening.

  function Accepts(n: nat): seq<Step> {
    if n == 0 then [] else Accepts(n - 1) + [ByConnector(C.Accept)]
  }

  lemma {:induction false} AllAccepted(n: nat)
    requires n < 0x1_0000_0000
    ensures var s := Exec(INIT, Accepts(n));
            && Quiet(s) && s.l == L.INIT && s.c.next == n
            && (0 < n ==> C.At(s.c, n) == C.FRESH.(phase := C.Allocated))
            && forall id: StreamId :: n < id ==> C.At(s.c, id) == C.FRESH
  {
    if 0 < n {
      AllAccepted(n - 1);
      var s := Exec(INIT, Accepts(n - 1));
      ExecAppend(INIT, Accepts(n - 1), [ByConnector(C.Accept)]);
      var t := Next(s, ByConnector(C.Accept));
      assert Exec(s, [ByConnector(C.Accept)]) == t;
      forall id: StreamId | n < id ensures C.At(t.c, id) == C.FRESH {
        assert C.At(t.c, id) == C.At(s.c, id);
      }
    }
  }

  function Handle(id: StreamId, a: C.Action): Step {
    ByConnector(C.Handle(id, a))
  }

  function Serve(id: StreamId, a: L.Action): Step {
    ByListener(L.Handle(id, a))
  }

  /** The connector asks. */
  lemma Asks(s: State, id: StreamId)
    requires Quiet(s) && C.At(s.c, id) == C.FRESH.(phase := C.Allocated)
    ensures var t := Exec(s, [Handle(id, C.SetPending), Handle(id, C.Register), Handle(id, C.Open(true))]);
            && C.At(t.c, id) == C.FRESH.(phase := C.Waiting, pending := true, registered := true, asked := true)
            && t.toListener == [OpenStream(id)] && t.toConnector == [] && t.c.loop.Idle? && t.l == s.l
  {
    var r := [Handle(id, C.SetPending), Handle(id, C.Register), Handle(id, C.Open(true))];
    ExecThree(s, r);
    HandleStep(s, id, C.SetPending);
    var s1 := Next(s, r[0]);
    HandleStep(s1, id, C.Register);
    HandleStep(Next(s1, r[1]), id, C.Open(true));
  }

  /** The listener hears it and dials. */
  lemma Dials(s: State, id: StreamId, ok: bool)
    requires s.toListener == [OpenStream(id)] && s.toConnector == [] && s.l.loop.Idle? && L.At(s.l, id) == L.FRESH
    ensures var t := Exec(s, [ListenerReceives, Serve(id, L.Dial(ok))]);
            && L.At(t.l, id) == L.OPENED.(handler := if ok then L.Dialed else L.Refusing)
            && t.toListener == [] && t.toConnector == [] && t.l.loop.Idle? && t.c == s.c
  {
    var r := [ListenerReceives, Serve(id, L.Dial(ok))];
    ExecTwo(s, r);
    var s1 := Next(s, r[0]);
    assert L.At(s1.l, id) == L.OPENED && s1.toListener == [] && s1.toConnector == [] && s1.l.loop.Idle? && s1.c == s.c;
  }

  /** It publishes the connection and acks. */
  lemma Answers(s: State, id: StreamId)
    requires s.toListener == [] && s.toConnector == [] && L.At(s.l, id) == L.OPENED.(handler := L.Dialed)
    ensures var t := Exec(s, [Serve(id, L.HandOver), Serve(id, L.Ack(true))]);
            && L.At(t.l, id) ==
                 L.FRESH.(entry := Some(L.Entry(true, [])), handler := L.Acked(true), out := Pump.STARTED)
            && t.toListener == [] && t.toConnector == [OpenStreamAck(id, true, "stream opened")]
            && t.l.loop == s.l.loop && t.c == s.c
  {
    var r := [Serve(id, L.HandOver), Serve(id, L.Ack(true))];
    ExecTwo(s, r);
    Alone(OpenStreamAck(id, true, "stream opened"));
    var s1 := Next(s, r[0]);
    assert L.At(s1.l, id) == L.FRESH.(entry := Some(L.Entry(true, [])), handler := L.Draining([]));
    assert s1.toListener == [] && s1.toConnector == [] && s1.l.loop == s.l.loop && s1.c == s.c;
  }

  /** Or it gives the stream up and says so. */
  lemma Refuses(s: State, id: StreamId)
    requires s.toListener == [] && s.toConnector == [] && L.At(s.l, id) == L.OPENED.(handler := L.Refusing)
    ensures var t := Exec(s, [Serve(id, L.Refuse), Serve(id, L.RefuseAck(true))]);
            && L.At(t.l, id).entry.None? && L.At(t.l, id).handler.Finished?
            && t.toListener == [] && t.toConnector == [OpenStreamAck(id, false, "failed to connect to local port")]
            && t.l.loop == s.l.loop && t.c == s.c
  {
    var r := [Serve(id, L.Refuse), Serve(id, L.RefuseAck(true))];
    ExecTwo(s, r);
    Alone(OpenStreamAck(id, false, "failed to connect to local port"));
    var s1 := Next(s, r[0]);
    assert L.At(s1.l, id).handler.Refused? && L.At(s1.l, id).entry.None?;
    assert s1.toListener == [] && s1.toConnector == [] && s1.l.loop == s.l.loop && s1.c == s.c;
  }

  /** The loop takes an ack from the session. */
  lemma AckArrives(s: State, id: StreamId, success: bool, message: string)
    requires s.toListener == [] && s.toConnector == [OpenStreamAck(id, success, message)] && s.c.loop.Idle?
    requires C.At(s.c, id).pending
    ensures var t := Next(s, ConnectorReceives);
            && t.toListener == [] && t.toConnector == [] && t.l == s.l && t.c.loop == C.Delivering(id, success)
            && C.At(t.c, id) == C.At(s.c, id).(pending := false, answer := Some(success))
  {
  }

  /** It puts it into the channel, and the goroutine takes it out. */
  lemma AckIsTaken(s: State, id: StreamId, success: bool)
    requires s.toListener == [] && s.toConnector == [] && s.c.loop == C.Delivering(id, success)
    requires C.At(s.c, id).ackCh == [] && C.At(s.c, id).phase.Waiting?
    ensures var t := Next(Next(s, ByConnector(C.Deliver)), Handle(id, C.TakeAck));
            && t.toListener == [] && t.toConnector == [] && t.c.loop.Idle? && t.l == s.l
            && C.At(t.c, id) == C.At(s.c, id).(
                 delivered := C.At(s.c, id).delivered + 1,
                 phase := if success then C.Pumping else C.Aborting(false),
                 out := if success then Pump.STARTED else C.At(s.c, id).out)
  {
    C.Touched(s.c, C.Deliver, id);
    var s1 := Next(s, ByConnector(C.Deliver));
    assert s1.toListener == [] && s1.toConnector == [] && s1.l == s.l && s1.c.loop.Idle?;
    HandleStep(s1, id, C.TakeAck);
  }

  /** The connector takes the ack. */
  lemma TakesAck(s: State, id: StreamId, success: bool, message: string)
    requires s.toListener == [] && s.toConnector == [OpenStreamAck(id, success, message)] && s.c.loop.Idle?
    requires C.At(s.c, id) == C.FRESH.(phase := C.Waiting, pending := true, registered := true, asked := true)
    ensures var t := Exec(s, [ConnectorReceives, ByConnector(C.Deliver), Handle(id, C.TakeAck)]);
            && t.toListener == [] && t.toConnector == [] && t.c.loop.Idle? && t.l == s.l
            && C.At(t.c, id).registered && !C.At(t.c, id).pending && !C.At(t.c, id).broken
            && C.At(t.c, id).written == [] && C.At(t.c, id).accepted == [] && C.At(t.c, id).answer == Some(success)
            && C.At(t.c, id).phase == (if success then C.Pumping else C.Aborting(false))
            && (success ==> C.At(t.c, id).out == Pump.STARTED)
  {
    ExecThree(s, [ConnectorReceives, ByConnector(C.Deliver), Handle(id, C.TakeAck)]);
    AckArrives(s, id, success, message);
    AckIsTaken(Next(s, ConnectorReceives), id, success);
  }

  /** From the start to an open stream, for any id. */
  lemma Opens(id: StreamId) returns (steps: seq<Step>)
    requires id != 0
    ensures var s := Exec(INIT, steps);
            && Open(s, id) && C.At(s.c, id).out == Pump.STARTED && L.At(s.l, id).out == Pump.STARTED
            && C.At(s.c, id).written == [] && L.At(s.l, id).written == []
  {
    var s := Exec(INIT, Accepts(id));
    AllAccepted(id);
    Asks(s, id);
    var a := [Handle(id, C.SetPending), Handle(id, C.Register), Handle(id, C.Open(true))];
    var s1 := Exec(s, a);
    Dials(s1, id, true);
    var b := [ListenerReceives, Serve(id, L.Dial(true))];
    var s2 := Exec(s1, b);
    Answers(s2, id);
    var d := [Serve(id, L.HandOver), Serve(id, L.Ack(true))];
    var s3 := Exec(s2, d);
    TakesAck(s3, id, true, "stream opened");
    var e := [ConnectorReceives, ByConnector(C.Deliver), Handle(id, C.TakeAck)];
    Chain(INIT, Accepts(id), a, b, d, e);
    steps := Accepts(id) + a + b + d + e;
  }

  lemma Chain(s: State, o: seq<Step>, a: seq<Step>, b: seq<Step>, d: seq<Step>, e: seq<Step>)
    ensures Exec(s, o + a + b + d + e) == Exec(Exec(Exec(Exec(Exec(s, o), a), b), d), e)
  {
    ExecAppend(s, o, a);
    ExecAppend(s, o + a, b);
    ExecAppend(s, o + a + b, d);
    ExecAppend(s, o + a + b + d, e);
  }

  /** From the start to a refused stream, for any id. */
  lemma IsRefused(id: StreamId) returns (steps: seq<Step>)
    requires id != 0
    ensures var s := Exec(INIT, steps);
            && L.At(s.l, id).entry.None? && L.At(s.l, id).handler.Finished?
            && C.At(s.c, id).phase == C.Aborting(false) && !C.At(s.c, id).pending && C.At(s.c, id).answer == Some(false)
  {
    var s := Exec(INIT, Accepts(id));
    AllAccepted(id);
    Asks(s, id);
    var a := [Handle(id, C.SetPending), Handle(id, C.Register), Handle(id, C.Open(true))];
    var s1 := Exec(s, a);
    Dials(s1, id, false);
    var b := [ListenerReceives, Serve(id, L.Dial(false))];
    var s2 := Exec(s1, b);
    Refuses(s2, id);
    var d := [Serve(id, L.Refuse), Serve(id, L.RefuseAck(true))];
    var s3 := Exec(s2, d);
    TakesAck(s3, id, false, "failed to connect to local port");
    var e := [ConnectorReceives, ByConnector(C.Deliver), Handle(id, C.TakeAck)];
    Chain(INIT, Accepts(id), a, b, d, e);
    steps := Accepts(id) + a + b + d + e;
  }

  /** Both ends have dropped a stream that was refused. */
  predicate Dropped(s: State, id: StreamId) {
    && L.At(s.l, id).entry.None? && L.At(s.l, id).handler.Finished?
    && C.At(s.c, id).phase.Finished? && !C.At(s.c, id).registered && !C.At(s.c, id).pending
    && C.At(s.c, id).answer == Some(false)
  }

  lemma LastStep(s: State, id: StreamId)
    requires C.At(s.c, id).phase == C.Aborting(false) && !C.At(s.c, id).pending && C.At(s.c, id).answer == Some(false)
    requires L.At(s.l, id).entry.None? && L.At(s.l, id).handler.Finished?
    ensures Dropped(Exec(s, [Handle(id, C.Unregister)]), id)
  {
    var t := Next(s, Handle(id, C.Unregister));
    assert Exec(s, [Handle(id, C.Unregister)]) == Exec(t, []);
  }

  /** A stream whose dial fails is given up at both ends: the listener's refusal reaches
      the connector, whose goroutine finishes, and neither end keeps the id. */
  lemma RefusedStreamIsDropped(id: StreamId)
    requires id != 0
    ensures exists steps :: Dropped(Exec(INIT, steps), id)
  {
    var early := IsRefused(id);
    LastStep(Exec(INIT, early), id);
    ExecAppend(INIT, early, [Handle(id, C.Unregister)]);
    assert Dropped(Exec(INIT, early + [Handle(id, C.Unregister)]), id);
  }

  // ---------------------------------------------------------------------------
  // Traffic.

  datatype Chunk = Up(bytes: Bytes) | Down(bytes: Bytes)

  predicate Fits(chunk: Chunk) {
    0 < |chunk.bytes| <= Pump.CHUNK_SIZE
  }

  function Read(chunk: Bytes): Pump.Action {
    Pump.Read(chunk, false)
  }

  function UpSteps(id: StreamId, p: Bytes): (seq<Step>, seq<Step>) {
    ([ByConnector(C.PumpStep(id, Read(p))), ByConnector(C.PumpStep(id, Pump.Send(true)))],
     [ListenerReceives, ByListener(L.Write(|p|, false))])
  }

  function DownSteps(id: StreamId, p: Bytes): (seq<Step>, seq<Step>) {
    ([ByListener(L.PumpStep(id, Read(p))), ByListener(L.PumpStep(id, Pump.Send(true)))],
     [ConnectorReceives, ByConnector(C.Write(|p|, false))])
  }

  /** Everything about the stream is the same but for the bytes that went by. */
  predicate Carried(s: State, t: State, id: StreamId, chunk: Chunk) {
    && Open(t, id)
    && C.At(t.c, id).written == C.At(s.c, id).written + (if chunk.Down? then chunk.bytes else [])
    && L.At(t.l, id).written == L.At(s.l, id).written + (if chunk.Up? then chunk.bytes else [])
  }

  lemma SentUp(s: State, id: StreamId, p: Bytes)
    requires Open(s, id) && Fits(Up(p))
    ensures var t := Exec(s, UpSteps(id, p).0);
            && t.toListener == [Data(id, p)] && t.toConnector == [] && t.c.loop.Idle? && t.l == s.l
            && C.At(t.c, id) == C.At(s.c, id).(out := C.At(t.c, id).out) && Pumping(C.At(t.c, id).out)
  {
    var a := UpSteps(id, p).0;
    ExecTwo(s, a);
    PumpStepUp(s, id, Read(p));
    PumpStepUp(Next(s, a[0]), id, Pump.Send(true));
  }

  lemma GoesUp(s: State, id: StreamId, p: Bytes)
    requires Open(s, id) && Fits(Up(p))
    ensures Carried(s, Exec(s, UpSteps(id, p).0 + UpSteps(id, p).1), id, Up(p))
  {
    var (a, b) := UpSteps(id, p);
    ExecAppend(s, a, b);
    SentUp(s, id, p);
    ExecTwo(Exec(s, a), b);
    TakenUp(Exec(s, a), id, p);
  }

  lemma TakenUp(s: State, id: StreamId, p: Bytes)
    requires s.toListener == [Data(id, p)] && s.toConnector == [] && s.l.loop.Idle?
    requires L.At(s.l, id).entry == Some(L.Entry(true, []))
    ensures var t := Next(Next(s, ListenerReceives), ByListener(L.Write(|p|, false)));
            && t.toListener == [] && t.toConnector == [] && t.c == s.c && t.l.loop.Idle?
            && L.At(t.l, id).written == L.At(s.l, id).written + p
            && L.At(t.l, id).entry == L.At(s.l, id).entry && L.At(t.l, id).handler == L.At(s.l, id).handler
            && L.At(t.l, id).out == L.At(s.l, id).out && L.At(t.l, id).broken == L.At(s.l, id).broken
  {
    var s1 := Next(s, ListenerReceives);
    assert s1.l.loop == L.Writing(id, p) && s1.toListener == [] && s1.toConnector == [] && s1.c == s.c;
    assert L.At(s1.l, id) == L.Accept(L.At(s.l, id), p);
    assert p[..|p|] == p;
  }

  lemma SentDown(s: State, id: StreamId, p: Bytes)
    requires Open(s, id) && Fits(Down(p))
    ensures var t := Exec(s, DownSteps(id, p).0);
            && t.toConnector == [Data(id, p)] && t.toListener == [] && t.l.loop.Idle? && t.c == s.c
            && L.At(t.l, id) == L.At(s.l, id).(out := L.At(t.l, id).out) && Pumping(L.At(t.l, id).out)
  {
    var a := DownSteps(id, p).0;
    ExecTwo(s, a);
    PumpStepDown(s, id, Read(p));
    PumpStepDown(Next(s, a[0]), id, Pump.Send(true));
  }

  lemma GoesDown(s: State, id: StreamId, p: Bytes)
    requires Open(s, id) && Fits(Down(p))
    ensures Carried(s, Exec(s, DownSteps(id, p).0 + DownSteps(id, p).1), id, Down(p))
  {
    var (a, b) := DownSteps(id, p);
    ExecAppend(s, a, b);
    SentDown(s, id, p);
    ExecTwo(Exec(s, a), b);
    TakenDown(Exec(s, a), id, p);
  }

  lemma TakenDown(s: State, id: StreamId, p: Bytes)
    requires s.toConnector == [Data(id, p)] && s.toListener == [] && s.c.loop.Idle? && C.At(s.c, id).registered
    ensures var t := Next(Next(s, ConnectorReceives), ByConnector(C.Write(|p|, false)));
            && t.toListener == [] && t.toConnector == [] && t.l == s.l && t.c.loop.Idle?
            && C.At(t.c, id).written == C.At(s.c, id).written + p
            && C.At(t.c, id).registered && C.At(t.c, id).phase == C.At(s.c, id).phase
            && C.At(t.c, id).out == C.At(s.c, id).out && C.At(t.c, id).broken == C.At(s.c, id).broken
  {
    var s1 := Next(s, ConnectorReceives);
    assert s1.c.loop == C.Writing(id, p) && s1.toListener == [] && s1.toConnector == [] && s1.l == s.l;
    assert p[..|p|] == p;
  }

  function Total(traffic: seq<Chunk>, up: bool): Bytes {
    if traffic == [] then []
    else (if traffic[0].Up? == up then traffic[0].bytes else []) + Total(traffic[1..], up)
  }

  /** The stream is open and has carried so much since `s`. */
  predicate HasCarried(s: State, t: State, id: StreamId, up: Bytes, down: Bytes) {
    && Open(t, id)
    && L.At(t.l, id).written == L.At(s.l, id).written + up
    && C.At(t.c, id).written == C.At(s.c, id).written + down
  }

  lemma CarriesOne(s: State, id: StreamId, chunk: Chunk) returns (steps: seq<Step>)
    requires Open(s, id) && Fits(chunk)
    ensures Carried(s, Exec(s, steps), id, chunk)
  {
    if chunk.Up? {
      GoesUp(s, id, chunk.bytes);
      steps := UpSteps(id, chunk.bytes).0 + UpSteps(id, chunk.bytes).1;
    } else {
      GoesDown(s, id, chunk.bytes);
      steps := DownSteps(id, chunk.bytes).0 + DownSteps(id, chunk.bytes).1;
    }
  }

  lemma Adds(s: State, t: State, u: State, id: StreamId, traffic: seq<Chunk>)
    requires traffic != [] && Carried(s, t, id, traffic[0])
    requires HasCarried(t, u, id, Total(traffic[1..], true), Total(traffic[1..], false))
    ensures HasCarried(s, u, id, Total(traffic, true), Total(traffic, false))
  {
    Associate(L.At(s.l, id).written, if traffic[0].Up? then traffic[0].bytes else [], Total(traffic[1..], true));
    Associate(C.At(s.c, id).written, if traffic[0].Down? then traffic[0].bytes else [], Total(traffic[1..], false));
  }

  lemma {:induction false} Carries(s: State, id: StreamId, traffic: seq<Chunk>) returns (steps: seq<Step>)
    requires Open(s, id) && forall i :: 0 <= i < |traffic| ==> Fits(traffic[i])
    ensures HasCarried(s, Exec(s, steps), id, Total(traffic, true), Total(traffic, false))
    decreases |traffic|
  {
    if traffic == [] {
      steps := [];
    } else {
      var first := CarriesOne(s, id, traffic[0]);
      var t := Exec(s, first);
      var later := Carries(t, id, traffic[1..]);
      ExecAppend(s, first, later);
      Adds(s, t, Exec(t, later), id, traffic);
      steps := first + later;
    }
  }

  // ---------------------------------------------------------------------------
  // The end.

  /** A pump at the end of its connection. */
  const EOF := Pump.Read([], true)

  lemma UpSaid(s: State, id: StreamId)
    requires Quiet(s) && Pumping(C.At(s.c, id).out)
    ensures var t := Next(Next(s, ByConnector(C.PumpStep(id, EOF))), ByConnector(C.PumpStep(id, Pump.Announce(true))));
            && t.toListener == [CloseStream(id)] && t.toConnector == [] && t.l == s.l && t.c.loop.Idle?
            && C.At(t.c, id).out.stage.Removing? && C.At(t.c, id).out.announced
            && C.At(t.c, id).written == C.At(s.c, id).written
  {
    PumpStepUp(s, id, EOF);
    PumpStepUp(Next(s, ByConnector(C.PumpStep(id, EOF))), id, Pump.Announce(true));
  }

  lemma DownSaid(s: State, id: StreamId)
    requires Quiet(s) && Pumping(L.At(s.l, id).out)
    ensures var t := Next(Next(s, ByListener(L.PumpStep(id, EOF))), ByListener(L.PumpStep(id, Pump.Announce(true))));
            && t.toConnector == [CloseStream(id)] && t.toListener == [] && t.c == s.c && t.l.loop.Idle?
            && L.At(t.l, id).out.stage.Removing? && L.At(t.l, id).out.announced
            && L.At(t.l, id).written == L.At(s.l, id).written
  {
    PumpStepDown(s, id, EOF);
    PumpStepDown(Next(s, ByListener(L.PumpStep(id, EOF))), id, Pump.Announce(true));
  }

  /** The connector's local connection ends: it says so and drops the stream. */
  lemma UpAnnounced(s: State, id: StreamId)
    requires Quiet(s) && Pumping(C.At(s.c, id).out)
    ensures var steps := [ByConnector(C.PumpStep(id, EOF)), ByConnector(C.PumpStep(id, Pump.Announce(true))),
                          ByConnector(C.PumpStep(id, Pump.Remove))];
            var t := Exec(s, steps);
            && t.toListener == [CloseStream(id)] && t.toConnector == [] && t.l == s.l && t.c.loop.Idle?
            && !C.At(t.c, id).registered && C.At(t.c, id).out.stage.Stopped? && C.At(t.c, id).out.announced
            && C.At(t.c, id).written == C.At(s.c, id).written
  {
    var r := [ByConnector(C.PumpStep(id, EOF)), ByConnector(C.PumpStep(id, Pump.Announce(true))),
              ByConnector(C.PumpStep(id, Pump.Remove))];
    ExecThree(s, r);
    UpSaid(s, id);
    PumpStepUp(Next(Next(s, r[0]), r[1]), id, Pump.Remove);
  }

  /** The service's connection ends: the listener says so and drops the stream. */
  lemma DownAnnounced(s: State, id: StreamId)
    requires Quiet(s) && Pumping(L.At(s.l, id).out)
    ensures var steps := [ByListener(L.PumpStep(id, EOF)), ByListener(L.PumpStep(id, Pump.Announce(true))),
                          ByListener(L.PumpStep(id, Pump.Remove))];
            var t := Exec(s, steps);
            && t.toConnector == [CloseStream(id)] && t.toListener == [] && t.c == s.c && t.l.loop.Idle?
            && L.At(t.l, id).entry.None? && L.At(t.l, id).out.stage.Stopped? && L.At(t.l, id).out.announced
            && L.At(t.l, id).written == L.At(s.l, id).written
  {
    var r := [ByListener(L.PumpStep(id, EOF)), ByListener(L.PumpStep(id, Pump.Announce(true))),
              ByListener(L.PumpStep(id, Pump.Remove))];
    ExecThree(s, r);
    DownSaid(s, id);
    PumpStepDown(Next(Next(s, r[0]), r[1]), id, Pump.Remove);
  }

  /** On hearing it the other end drops the stream too. */
  lemma UpHeard(s: State, id: StreamId)
    requires s.toListener == [CloseStream(id)] && s.toConnector == [] && s.l.loop.Idle?
    ensures var t := Exec(s, [ListenerReceives]);
            && t.toListener == [] && t.toConnector == [] && t.c == s.c && t.l.loop.Idle?
            && L.At(t.l, id) == L.Unregister(L.At(s.l, id))
  {
    var t := Next(s, ListenerReceives);
    assert Exec(s, [ListenerReceives]) == Exec(t, []);
  }

  lemma DownHeard(s: State, id: StreamId)
    requires s.toConnector == [CloseStream(id)] && s.toListener == [] && s.c.loop.Idle?
    ensures var t := Exec(s, [ConnectorReceives]);
            && t.toListener == [] && t.toConnector == [] && t.l == s.l && t.c.loop.Idle?
            && C.At(t.c, id) == C.At(s.c, id).(registered := false)
  {
    var t := Next(s, ConnectorReceives);
    assert Exec(s, [ConnectorReceives]) == Exec(t, []);
  }

  lemma UpEnds(s: State, id: StreamId) returns (steps: seq<Step>)
    requires Open(s, id)
    ensures var t := Exec(s, steps);
            && Quiet(t) && !C.At(t.c, id).registered && C.At(t.c, id).out.stage.Stopped? && C.At(t.c, id).out.announced
            && L.At(t.l, id).entry.None? && Pumping(L.At(t.l, id).out)
            && L.At(t.l, id).written == L.At(s.l, id).written && C.At(t.c, id).written == C.At(s.c, id).written
  {
    var a := [ByConnector(C.PumpStep(id, EOF)), ByConnector(C.PumpStep(id, Pump.Announce(true))),
              ByConnector(C.PumpStep(id, Pump.Remove))];
    UpAnnounced(s, id);
    UpHeard(Exec(s, a), id);
    ExecAppend(s, a, [ListenerReceives]);
    steps := a + [ListenerReceives];
  }

  lemma DownEnds(s: State, id: StreamId) returns (steps: seq<Step>)
    requires Quiet(s) && Pumping(L.At(s.l, id).out)
    ensures var t := Exec(s, steps);
            && Quiet(t) && L.At(t.l, id).entry.None? && L.At(t.l, id).out.stage.Stopped? && L.At(t.l, id).out.announced
            && !C.At(t.c, id).registered && C.At(t.c, id).out == C.At(s.c, id).out
            && L.At(t.l, id).written == L.At(s.l, id).written && C.At(t.c, id).written == C.At(s.c, id).written
  {
    var a := [ByListener(L.PumpStep(id, EOF)), ByListener(L.PumpStep(id, Pump.Announce(true))),
              ByListener(L.PumpStep(id, Pump.Remove))];
    DownAnnounced(s, id);
    DownHeard(Exec(s, a), id);
    ExecAppend(s, a, [ConnectorReceives]);
    steps := a + [ConnectorReceives];
  }

  /** The stream has come to its end at both sides, both of which have said so. */
  predicate Over(s: State, id: StreamId) {
    && Quiet(s)
    && !C.At(s.c, id).registered && C.At(s.c, id).out.stage.Stopped? && C.At(s.c, id).out.announced
    && L.At(s.l, id).entry.None? && L.At(s.l, id).out.stage.Stopped? && L.At(s.l, id).out.announced
  }

  lemma Closes(s: State, id: StreamId) returns (steps: seq<Step>)
    requires Open(s, id)
    ensures var t := Exec(s, steps);
            && Over(t, id)
            && L.At(t.l, id).written == L.At(s.l, id).written && C.At(t.c, id).written == C.At(s.c, id).written
  {
    var up := UpEnds(s, id);
    var down := DownEnds(Exec(s, up), id);
    ExecAppend(s, up, down);
    steps := up + down;
  }

  /** The stream is over and each side has written exactly the traffic meant for it. */
  predicate Through(s: State, id: StreamId, traffic: seq<Chunk>) {
    Over(s, id) && L.At(s.l, id).written == Total(traffic, true) && C.At(s.c, id).written == Total(traffic, false)
  }

  lemma GetsThrough(s: State, id: StreamId, traffic: seq<Chunk>) returns (steps: seq<Step>)
    requires Open(s, id) && forall i :: 0 <= i < |traffic| ==> Fits(traffic[i])
    requires C.At(s.c, id).written == [] && L.At(s.l, id).written == []
    ensures Through(Exec(s, steps), id, traffic)
  {
    var carry := Carries(s, id, traffic);
    var close := Closes(Exec(s, carry), id);
    ExecAppend(s, carry, close);
    assert [] + Total(traffic, true) == Total(traffic, true) && [] + Total(traffic, false) == Total(traffic, false);
    steps := carry + close;
  }

  /** For every id and any traffic of chunks in any order of directions, there is a run
      of the tunnel after which the stream is over and each side has written exactly the
      traffic meant for it. */
  lemma StreamsGetThrough(id: StreamId, traffic: seq<Chunk>)
    requires id != 0 && forall i :: 0 <= i < |traffic| ==> Fits(traffic[i])
    ensures exists steps :: Through(Exec(INIT, steps), id, traffic)
  {
    var open := Opens(id);
    var rest := GetsThrough(Exec(INIT, open), id, traffic);
    ExecAppend(INIT, open, rest);
    assert Through(Exec(INIT, open + rest), id, traffic);
  }
}
