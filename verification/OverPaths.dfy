/** The tunnel over any two channels that carry, per stream, a prefix of what was sent:
    the channels that `Path` makes of sessions and relay. Messages of different streams
    may overtake each other, and the end of a channel may be lost. */
module OverPaths {
  import opened Messages
  import Pump
  import C = Connector
  import L = Listener
  import T = Tunnel
  import P = Path
  import Y = LockRelay

  /** The two ends, what each has sent and what the other's message loop has taken. */
  datatype State = State(
    c: C.State,
    l: L.State,
    sentC: seq<Envelope>,
    takenL: seq<Envelope>,
    sentL: seq<Envelope>,
    takenC: seq<Envelope>)

  const INIT := State(C.INIT, L.INIT, [], [], [], [])

  datatype Step =
    | ByConnector(cstep: C.Step)
    | ByListener(lstep: L.Step)
    | ListenerTakes(env: Envelope)
    | ConnectorTakes(env: Envelope)

  /** What `Path.PathCarries` gives: per stream, a prefix. */
  ghost predicate Carried(taken: seq<Envelope>, sent: seq<Envelope>) {
    forall id: StreamId :: About(taken, id) <= About(sent, id)
  }

  ghost predicate Enabled(s: State, step: Step) {
    match step
    case ByConnector(cs) => !cs.Recv?
    case ByListener(ls) => !ls.Recv?
    case ListenerTakes(env) => L.Enabled(s.l, L.Recv(env)) && Carried(s.takenL + [env], s.sentC)
    case ConnectorTakes(env) => C.Enabled(s.c, C.Recv(env)) && Carried(s.takenC + [env], s.sentL)
  }

  ghost function Next(s: State, step: Step): State {
    if !Enabled(s, step) then s
    else match step
      case ByConnector(cs) => s.(c := C.Next(s.c, cs), sentC := s.sentC + C.Sent(s.c, cs))
      case ByListener(ls) => s.(l := L.Next(s.l, ls), sentL := s.sentL + L.Sent(s.l, ls))
      case ListenerTakes(env) =>
        s.(l := L.Next(s.l, L.Recv(env)), takenL := s.takenL + [env], sentL := s.sentL + L.Sent(s.l, L.Recv(env)))
      case ConnectorTakes(env) =>
        s.(c := C.Next(s.c, C.Recv(env)), takenC := s.takenC + [env], sentC := s.sentC + C.Sent(s.c, C.Recv(env)))
  }

  ghost function Exec(s: State, steps: seq<Step>): State
    decreases |steps|
  {
    if steps == [] then s else Exec(Next(s, steps[0]), steps[1..])
  }

  // ---------------------------------------------------------------------------
  // One stream, seen as a tunnel with two FIFO channels.

  /** The messages of a stream that are under way. */
  function Rest(sent: seq<Envelope>, taken: seq<Envelope>, id: StreamId): seq<Envelope> {
    if |About(taken, id)| <= |About(sent, id)| then About(sent, id)[|About(taken, id)|..] else []
  }

  function Image(s: State, id: StreamId): T.State {
    T.State(s.c, s.l, Rest(s.sentC, s.takenL, id), Rest(s.sentL, s.takenC, id))
  }

  ghost predicate Inv(s: State) {
    && C.Inv(s.c) && L.Inv(s.l) && Carried(s.takenL, s.sentC) && Carried(s.takenC, s.sentL)
    && forall id: StreamId :: T.Linked(T.Of(Image(s, id), id), id) && L.Calm(L.At(s.l, id), s.l.loop, id)
  }

  lemma {:induction false} AboutOnly(ms: seq<Envelope>, id: StreamId)
    requires forall i :: 0 <= i < |ms| ==> Concerns(ms[i], id)
    ensures About(ms, id) == ms
  {
    if ms != [] {
      AboutOnly(ms[1..], id);
    }
  }

  lemma {:induction false} AboutConcerns(ms: seq<Envelope>, id: StreamId)
    ensures forall i :: 0 <= i < |About(ms, id)| ==> Concerns(About(ms, id)[i], id)
  {
    if ms != [] {
      AboutConcerns(ms[1..], id);
    }
  }

  lemma AboutRest(sent: seq<Envelope>, taken: seq<Envelope>, id: StreamId)
    ensures About(Rest(sent, taken, id), id) == Rest(sent, taken, id)
  {
    AboutConcerns(sent, id);
    AboutOnly(Rest(sent, taken, id), id);
  }

  lemma DropAppend(a: seq<Envelope>, b: seq<Envelope>, k: nat)
    requires k <= |a|
    ensures (a + b)[k..] == a[k..] + b
  {
  }

  /** Sending adds to what is under way. */
  lemma RestGrows(sent: seq<Envelope>, more: seq<Envelope>, taken: seq<Envelope>, id: StreamId)
    requires About(taken, id) <= About(sent, id)
    ensures About(taken, id) <= About(sent + more, id)
    ensures Rest(sent + more, taken, id) == Rest(sent, taken, id) + About(more, id)
    ensures About(Rest(sent, taken, id) + NonHeartbeats(more), id) == Rest(sent + more, taken, id)
  {
    AboutAppend(sent, more, id);
    DropAppend(About(sent, id), About(more, id), |About(taken, id)|);
    RestSent(sent, more, taken, id);
  }

  lemma RestSent(sent: seq<Envelope>, more: seq<Envelope>, taken: seq<Envelope>, id: StreamId)
    ensures About(Rest(sent, taken, id) + NonHeartbeats(more), id) == Rest(sent, taken, id) + About(more, id)
  {
    AboutAppend(Rest(sent, taken, id), NonHeartbeats(more), id);
    AboutNonHeartbeats(more, id);
    AboutRest(sent, taken, id);
  }

  /** Taking a message of the stream takes the first one under way; taking another one
      leaves them. */
  lemma RestShrinks(sent: seq<Envelope>, taken: seq<Envelope>, env: Envelope, id: StreamId)
    requires About(taken, id) <= About(sent, id) && About(taken + [env], id) <= About(sent, id)
    ensures Concerns(env, id) ==> Rest(sent, taken, id) == [env] + Rest(sent, taken + [env], id)
    ensures !Concerns(env, id) ==> Rest(sent, taken + [env], id) == Rest(sent, taken, id)
  {
    AboutAppend(taken, [env], id);
    AboutOne(env, id);
    if Concerns(env, id) {
      FirstOf(About(sent, id), About(taken, id), env);
    } else {
      assert About(taken, id) + [] == About(taken, id);
    }
  }

  lemma FirstOf(all: seq<Envelope>, before: seq<Envelope>, env: Envelope)
    requires before + [env] <= all
    ensures all[|before|..] == [env] + all[|before + [env]|..]
  {
    assert (before + [env])[|before|] == env;
  }

  /** The same with the taken message put in front, if it is not of the stream. */
  function Offered(sent: seq<Envelope>, taken: seq<Envelope>, env: Envelope, id: StreamId): seq<Envelope> {
    if Concerns(env, id) then Rest(sent, taken, id) else [env] + Rest(sent, taken, id)
  }

  lemma OfferedIs(sent: seq<Envelope>, taken: seq<Envelope>, env: Envelope, id: StreamId)
    requires About(taken, id) <= About(sent, id) && About(taken + [env], id) <= About(sent, id)
    ensures About(Offered(sent, taken, env, id), id) == About(Rest(sent, taken, id), id)
    ensures Offered(sent, taken, env, id) == [env] + Rest(sent, taken + [env], id)
  {
    RestShrinks(sent, taken, env, id);
    AboutAppend([env], Rest(sent, taken, id), id);
    AboutOne(env, id);
  }

  // ---------------------------------------------------------------------------
  // Every step is, for each stream, a step of the tunnel.

  lemma SendView(s: State, step: Step, id: StreamId)
    requires Inv(s) && Enabled(s, step) && (step.ByConnector? || step.ByListener?)
    ensures var t := if step.ByConnector? then T.ByConnector(step.cstep) else T.ByListener(step.lstep);
            T.Enabled(Image(s, id), t) && T.Of(Image(Next(s, step), id), id) == T.Of(T.Next(Image(s, id), t), id)
  {
    var q := Next(s, step);
    if step.ByConnector? {
      RestGrows(s.sentC, C.Sent(s.c, step.cstep), s.takenL, id);
    } else {
      RestGrows(s.sentL, L.Sent(s.l, step.lstep), s.takenC, id);
    }
    AboutRest(q.sentC, q.takenL, id);
    AboutRest(q.sentL, q.takenC, id);
  }

  function BeforeListener(s: State, env: Envelope, id: StreamId): T.State {
    Image(s, id).(toListener := Offered(s.sentC, s.takenL, env, id))
  }

  lemma ListenerView(s: State, env: Envelope, id: StreamId)
    requires Inv(s) && Enabled(s, ListenerTakes(env))
    ensures var p := BeforeListener(s, env, id);
            && T.Of(p, id) == T.Of(Image(s, id), id) && T.Enabled(p, T.ListenerReceives) && p.toListener[0] == env
            && T.Of(Image(Next(s, ListenerTakes(env)), id), id) == T.Of(T.Next(p, T.ListenerReceives), id)
  {
    var p, q := BeforeListener(s, env, id), Next(s, ListenerTakes(env));
    OfferedIs(s.sentC, s.takenL, env, id);
    RestGrows(s.sentL, L.Sent(s.l, L.Recv(env)), s.takenC, id);
    AboutRest(q.sentC, q.takenL, id);
    AboutRest(q.sentL, q.takenC, id);
    assert p.toListener[1..] == Rest(q.sentC, q.takenL, id);
  }

  function BeforeConnector(s: State, env: Envelope, id: StreamId): T.State {
    Image(s, id).(toConnector := Offered(s.sentL, s.takenC, env, id))
  }

  lemma ConnectorView(s: State, env: Envelope, id: StreamId)
    requires Inv(s) && Enabled(s, ConnectorTakes(env))
    ensures var p := BeforeConnector(s, env, id);
            && T.Of(p, id) == T.Of(Image(s, id), id) && T.Enabled(p, T.ConnectorReceives) && p.toConnector[0] == env
            && T.Of(Image(Next(s, ConnectorTakes(env)), id), id) == T.Of(T.Next(p, T.ConnectorReceives), id)
  {
    var p, q := BeforeConnector(s, env, id), Next(s, ConnectorTakes(env));
    OfferedIs(s.sentL, s.takenC, env, id);
    RestGrows(s.sentC, C.Sent(s.c, C.Recv(env)), s.takenL, id);
    AboutRest(q.sentC, q.takenL, id);
    AboutRest(q.sentL, q.takenC, id);
    assert p.toConnector[1..] == Rest(q.sentL, q.takenC, id);
  }

  /** The tunnel state and step that show what a step does to a stream. */
  ghost function Shown(s: State, step: Step, id: StreamId): (T.State, T.Step) {
    match step
    case ByConnector(cs) => (Image(s, id), T.ByConnector(cs))
    case ByListener(ls) => (Image(s, id), T.ByListener(ls))
    case ListenerTakes(env) => (BeforeListener(s, env, id), T.ListenerReceives)
    case ConnectorTakes(env) => (BeforeConnector(s, env, id), T.ConnectorReceives)
  }

  lemma StepView(s: State, step: Step, id: StreamId)
    requires Inv(s) && Enabled(s, step)
    ensures var (p, t) := Shown(s, step, id);
            && p.c == s.c && p.l == s.l && T.Of(p, id) == T.Of(Image(s, id), id)
            && T.Next(p, t).c == Next(s, step).c && T.Next(p, t).l == Next(s, step).l
            && T.Of(Image(Next(s, step), id), id) == T.Of(T.Next(p, t), id)
  {
    match step
    case ListenerTakes(env) => ListenerView(s, env, id);
    case ConnectorTakes(env) => ConnectorView(s, env, id);
    case _ => SendView(s, step, id);
  }

  lemma StepStream(s: State, step: Step, id: StreamId)
    requires Inv(s) && Enabled(s, step)
    ensures T.Linked(T.Of(Image(Next(s, step), id), id), id)
    ensures L.Calm(L.At(Next(s, step).l, id), Next(s, step).l.loop, id)
    ensures C.Inv(Next(s, step).c) && L.Inv(Next(s, step).l)
  {
    var (p, t) := Shown(s, step, id);
    StepView(s, step, id);
    T.StepLinked(p, t, id);
    T.StepCalm(p, t, id);
    T.StepEnds(p, t);
  }

  lemma StepCarried(s: State, step: Step)
    requires Inv(s) && Enabled(s, step)
    ensures Carried(Next(s, step).takenL, Next(s, step).sentC) && Carried(Next(s, step).takenC, Next(s, step).sentL)
  {
    var t := Next(s, step);
    forall id: StreamId ensures About(t.takenL, id) <= About(t.sentC, id) && About(t.takenC, id) <= About(t.sentL, id) {
      AboutPrefix(s.sentC, t.sentC, id);
      AboutPrefix(s.sentL, t.sentL, id);
    }
  }

  lemma StepInv(s: State, step: Step)
    requires Inv(s)
    ensures Inv(Next(s, step))
  {
    if Enabled(s, step) {
      StepCarried(s, step);
      StepStream(s, step, 0);
      forall id: StreamId
        ensures T.Linked(T.Of(Image(Next(s, step), id), id), id)
        ensures L.Calm(L.At(Next(s, step).l, id), Next(s, step).l.loop, id)
      {
        StepStream(s, step, id);
      }
    }
  }

  lemma {:induction false} ExecInv(s: State, steps: seq<Step>)
    requires Inv(s)
    ensures Inv(Exec(s, steps))
    decreases |steps|
  {
    if steps != [] {
      StepInv(s, steps[0]);
      ExecInv(Next(s, steps[0]), steps[1..]);
    }
  }

  lemma InitInv()
    ensures Inv(INIT)
  {
  }

  // ---------------------------------------------------------------------------
  // The theorems.

  /** Two sessions and the relay between them are such a channel: what the message loop
      of one end has taken after the broker's answer is carried of what the other end has
      sent after its hello. */
  lemma PathsCarry(
    up: P.Hop, hello: seq<Envelope>, steps: seq<Y.Step>, from: nat, to: nat, down: P.Hop, own: seq<Envelope>,
    sent: seq<Envelope>, answer: seq<Envelope>, taken: seq<Envelope>)
    requires P.Honest(up) && P.Honest(down) && P.Joins(Y.Exec(Y.INIT, steps), up, hello, from, to, down, own)
    requires P.Delivered(up) == hello + sent && P.NoStreams(answer) && answer + taken <= P.Arrived(down)
    ensures Carried(taken, sent)
  {
    forall id: StreamId ensures About(taken, id) <= About(sent, id) {
      P.PathCarries(up, hello, steps, from, to, down, own, sent, answer, taken, id);
    }
  }

  /** In every run over such channels and for every stream, the bytes written at either
      end are a prefix of those read at the other. */
  lemma BytesArriveInOrder(steps: seq<Step>, id: StreamId)
    ensures var s := Exec(INIT, steps);
            && L.At(s.l, id).written <= C.At(s.c, id).out.read
            && C.At(s.c, id).written <= L.At(s.l, id).out.read
  {
    InitInv();
    ExecInv(INIT, steps);
    var s := Exec(INIT, steps);
    assert T.Linked(T.Of(Image(s, id), id), id) && L.Calm(L.At(s.l, id), s.l.loop, id);
    assert L.Sound(L.At(s.l, id), s.l.loop, id);
    assert C.Sound(C.At(s.c, id), C.Focus(s.c.loop, id));
    T.PrefixThere(C.At(s.c, id), L.At(s.l, id), s.l.loop, id);
    T.PrefixBack(C.At(s.c, id), C.Focus(s.c.loop, id), L.At(s.l, id));
  }

  /** No message that such a channel carries is held back from an idle listener: it is
      never one that opens a live id. */
  lemma NothingIsHeldBack(steps: seq<Step>, env: Envelope)
    ensures var s := Exec(INIT, steps);
            s.l.loop.Idle? && Carried(s.takenL + [env], s.sentC) ==> Enabled(s, ListenerTakes(env))
  {
    InitInv();
    ExecInv(INIT, steps);
    var s := Exec(INIT, steps);
    if env.OpenStream? && Carried(s.takenL + [env], s.sentC) {
      var id := env.streamId;
      assert T.Linked(T.Of(Image(s, id), id), id) && C.Sound(C.At(s.c, id), C.Focus(s.c.loop, id));
      RestShrinks(s.sentC, s.takenL, env, id);
      AboutRest(s.sentC, s.takenL, id);
      T.ListenerOpens(T.Of(Image(s, id), id), id);
    }
  }

  /** The end of a stream is heard of over such channels too. */
  lemma EndIsHeard(steps: seq<Step>, id: StreamId)
    ensures var s := Exec(INIT, steps);
            && (C.At(s.c, id).out.announced && About(s.takenL, id) == About(s.sentC, id) ==> L.At(s.l, id).entry.None?)
            && (L.At(s.l, id).out.announced && About(s.takenC, id) == About(s.sentL, id) ==> !C.At(s.c, id).registered)
  {
    InitInv();
    ExecInv(INIT, steps);
    var s := Exec(INIT, steps);
    assert T.Linked(T.Of(Image(s, id), id), id);
    AboutRest(s.sentC, s.takenL, id);
    AboutRest(s.sentL, s.takenC, id);
  }

  // ---------------------------------------------------------------------------
  // Heartbeats.

  /** Each end has sent as many heartbeats as it has taken. */
  ghost predicate Echoed(s: State) {
    Heartbeats(s.sentC) == Heartbeats(s.takenC) && Heartbeats(s.sentL) == Heartbeats(s.takenL)
  }

  lemma ConnectorBeats(c: C.State, cs: C.Step)
    requires C.Enabled(c, cs)
    ensures Heartbeats(C.Sent(c, cs)) == if cs == C.Recv(Heartbeat) then 1 else 0
  {
  }

  lemma ListenerBeats(l: L.State, ls: L.Step)
    requires L.Enabled(l, ls)
    ensures Heartbeats(L.Sent(l, ls)) == if ls == L.Recv(Heartbeat) then 1 else 0
  {
  }

  lemma StepEchoed(s: State, step: Step)
    requires Echoed(s)
    ensures Echoed(Next(s, step))
  {
    if Enabled(s, step) {
      match step
      case ByConnector(cs) =>
        HeartbeatsAppend(s.sentC, C.Sent(s.c, cs));
        if C.Enabled(s.c, cs) { ConnectorBeats(s.c, cs); }
      case ByListener(ls) =>
        HeartbeatsAppend(s.sentL, L.Sent(s.l, ls));
        if L.Enabled(s.l, ls) { ListenerBeats(s.l, ls); }
      case ListenerTakes(env) =>
        HeartbeatsAppend(s.sentL, L.Sent(s.l, L.Recv(env)));
        HeartbeatsAppend(s.takenL, [env]);
        ListenerBeats(s.l, L.Recv(env));
      case ConnectorTakes(env) =>
        HeartbeatsAppend(s.sentC, C.Sent(s.c, C.Recv(env)));
        HeartbeatsAppend(s.takenC, [env]);
        ConnectorBeats(s.c, C.Recv(env));
    }
  }

  lemma {:induction false} ExecEchoed(s: State, steps: seq<Step>)
    requires Echoed(s)
    ensures Echoed(Exec(s, steps))
    decreases |steps|
  {
    if steps != [] {
      StepEchoed(s, steps[0]);
      ExecEchoed(Next(s, steps[0]), steps[1..]);
    }
  }

  /** In every run each end has answered every heartbeat its loop has taken, once, and
      has sent no other. */
  lemma HeartbeatsAreEchoed(steps: seq<Step>)
    ensures Echoed(Exec(INIT, steps))
  {
    ExecEchoed(INIT, steps);
  }

  // ---------------------------------------------------------------------------
  // What the ends believe to have sent, they have.

  /** The marks that the two ends keep of their sends are true: the connector asked for
      the stream, either end announced its end, the listener acked, exactly if the
      message is among those sent. */
  ghost predicate Honest(s: State, id: StreamId) {
    && (C.At(s.c, id).asked <==> OpenStream(id) in s.sentC)
    && (C.At(s.c, id).out.announced <==> CloseStream(id) in s.sentC)
    && (L.At(s.l, id).handler == L.Acked(true) ==> OpenStreamAck(id, true, "stream opened") in s.sentL)
    && (L.At(s.l, id).out.announced ==> CloseStream(id) in s.sentL)
  }

  /** Which steps send the two messages. */
  lemma ConnectorSays(c: C.State, cs: C.Step, id: StreamId)
    requires C.Enabled(c, cs)
    ensures OpenStream(id) in C.Sent(c, cs) <==> cs == C.Handle(id, C.Open(true))
    ensures CloseStream(id) in C.Sent(c, cs) <==> cs == C.PumpStep(id, Pump.Announce(true))
  {
  }

  lemma ConnectorHonest(c: C.State, cs: C.Step, id: StreamId)
    requires C.Sound(C.At(c, id), C.Focus(c.loop, id)) && (cs.Accept? && c.next + 1 == id ==> C.At(c, id) == C.FRESH)
    ensures C.At(C.Next(c, cs), id).asked <==> C.At(c, id).asked || OpenStream(id) in C.Sent(c, cs)
    ensures C.At(C.Next(c, cs), id).out.announced <==> C.At(c, id).out.announced || CloseStream(id) in C.Sent(c, cs)
  {
    if C.Enabled(c, cs) {
      ConnectorSays(c, cs, id);
      if !C.Touches(c, cs, id) {
        C.Untouched(c, cs, id);
      } else {
        TouchedHonest(c, cs, id);
      }
    }
  }

  lemma TouchedHonest(c: C.State, cs: C.Step, id: StreamId)
    requires C.Sound(C.At(c, id), C.Focus(c.loop, id)) && (cs.Accept? && c.next + 1 == id ==> C.At(c, id) == C.FRESH)
    requires C.Enabled(c, cs) && C.Touches(c, cs, id)
    ensures C.At(C.Next(c, cs), id).asked <==> C.At(c, id).asked || cs == C.Handle(id, C.Open(true))
    ensures C.At(C.Next(c, cs), id).out.announced <==>
            C.At(c, id).out.announced || cs == C.PumpStep(id, Pump.Announce(true))
  {
    C.Touched(c, cs, id);
    if cs.Handle? {
      HandlerHonest(C.At(c, id), cs.action, c.closed, C.Focus(c.loop, id));
    } else if cs.PumpStep? {
      PumpHonest(C.At(c, id).out, cs.pump, c.closed, id);
    }
  }

  lemma HandlerHonest(x: C.Stream, a: C.Action, closed: bool, f: C.Loop)
    requires C.Sound(x, f) && C.HandlerEnabled(x, a, closed)
    ensures C.HandlerNext(x, a, closed).asked <==> x.asked || a == C.Open(true)
    ensures C.HandlerNext(x, a, closed).out.announced <==> x.out.announced
  {
  }

  lemma PumpHonest(o: Pump.Outflow, a: Pump.Action, closed: bool, id: StreamId)
    requires Pump.Enabled(o, a, closed) && Pump.Faithful(o)
    ensures Pump.Next(o, a, closed).announced <==> o.announced || CloseStream(id) in Pump.Emits(o, a, closed, id)
    ensures OpenStream(id) !in Pump.Emits(o, a, closed, id)
  {
  }

  lemma ListenerHonest(l: L.State, ls: L.Step, id: StreamId)
    requires L.Coherent(L.At(l, id), l.loop, id)
    ensures L.At(L.Next(l, ls), id).handler == L.Acked(true) ==>
              L.At(l, id).handler == L.Acked(true) || OpenStreamAck(id, true, "stream opened") in L.Sent(l, ls)
    ensures L.At(L.Next(l, ls), id).out.announced ==>
              L.At(l, id).out.announced || CloseStream(id) in L.Sent(l, ls)
  {
    if !L.Touches(l, ls, id) {
      L.Untouched(l, ls, id);
    } else if L.Enabled(l, ls) && ls.Handle? {
      ListenerActs(L.At(l, id), ls.action, id);
      assert L.At(L.Next(l, ls), id) == L.HandlerNext(L.At(l, id), ls.action);
    } else if L.Enabled(l, ls) && ls.PumpStep? {
      PumpHonest(L.At(l, id).out, ls.pump, l.closed, id);
      assert L.At(L.Next(l, ls), id) == L.PumpNext(L.At(l, id), ls.pump, l.closed);
    }
  }

  lemma ListenerActs(x: L.Stream, a: L.Action, id: StreamId)
    requires L.HandlerEnabled(x, a)
    ensures L.HandlerNext(x, a).handler == L.Acked(true) ==> OpenStreamAck(id, true, "stream opened") in L.AckOf(a, id)
    ensures L.HandlerNext(x, a).out.announced ==> x.out.announced
  {
  }

  lemma StepHonest(s: State, step: Step, id: StreamId)
    requires Inv(s) && Honest(s, id)
    ensures Honest(Next(s, step), id)
  {
    if Enabled(s, step) {
      assert C.Sound(C.At(s.c, id), C.Focus(s.c.loop, id)) && L.Sound(L.At(s.l, id), s.l.loop, id);
      assert C.At(s.c, id).phase.Unused? <==> id == 0 || s.c.next < id;
      match step
      case ByConnector(cs) => ConnectorHonest(s.c, cs, id);
      case ByListener(ls) => ListenerHonest(s.l, ls, id);
      case ListenerTakes(env) => ListenerHonest(s.l, L.Recv(env), id);
      case ConnectorTakes(env) => ConnectorHonest(s.c, C.Recv(env), id);
    }
  }

  lemma {:induction false} ExecHonest(s: State, steps: seq<Step>, id: StreamId)
    requires Inv(s) && Honest(s, id)
    ensures Honest(Exec(s, steps), id)
    decreases |steps|
  {
    if steps != [] {
      StepHonest(s, steps[0], id);
      StepInv(s, steps[0]);
      ExecHonest(Next(s, steps[0]), steps[1..], id);
    }
  }

  /** So in every run. */
  lemma MarksAreHonest(steps: seq<Step>, id: StreamId)
    ensures Honest(Exec(INIT, steps), id)
  {
    InitInv();
    ExecHonest(INIT, steps, id);
  }

  /** In every run neither end takes anything after a Disconnect. */
  ghost predicate LastIsDisconnect(taken: seq<Envelope>, ended: bool) {
    forall i :: 0 <= i < |taken| && taken[i].Disconnect? ==> i == |taken| - 1 && ended
  }

  lemma {:induction false} DisconnectsAreLast(s: State, steps: seq<Step>)
    requires LastIsDisconnect(s.takenL, s.l.loop.Ended?) && LastIsDisconnect(s.takenC, s.c.loop.Ended?)
    ensures var t := Exec(s, steps);
            LastIsDisconnect(t.takenL, t.l.loop.Ended?) && LastIsDisconnect(t.takenC, t.c.loop.Ended?)
    decreases |steps|
  {
    if steps != [] {
      DisconnectsAreLast(Next(s, steps[0]), steps[1..]);
    }
  }

  lemma NothingAfterDisconnect(steps: seq<Step>)
    ensures var s := Exec(INIT, steps);
            LastIsDisconnect(s.takenL, s.l.loop.Ended?) && LastIsDisconnect(s.takenC, s.c.loop.Ended?)
  {
    DisconnectsAreLast(INIT, steps);
  }
}
