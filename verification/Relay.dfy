/** The relay (pkg/broker/server.go:386-414): first the loop of one client against
    any behaviour of its surroundings, then all clients together with every `Close`
    taken as one step. */
module Relay {
  import opened Messages
  import R = Router
  import B = ClientConn

  type Id = nat

  // ---------------------------------------------------------------------------
  // One client.

  /** What an iteration of `relayMessages` meets: a receive error, or an envelope
      together with the peer GetPeer would answer and the fate of a send to it. */
  datatype Event = Failed | Got(env: Envelope, peer: Option<Id>, sent: bool)

  datatype Delivery = Delivery(peer: Id, env: Envelope)

  function Envelopes(ds: seq<Delivery>): seq<Envelope> {
    seq(|ds|, i requires 0 <= i < |ds| => ds[i].env)
  }

  lemma EnvelopesSnoc(ds: seq<Delivery>, d: Delivery)
    ensures Envelopes(ds + [d]) == Envelopes(ds) + [d.env]
  {
  }

  /** The deliveries of a script, event by event: each envelope that is no heartbeat
      goes to the peer of its own event, if there is one and the send works. */
  function Forwards(script: seq<Event>): seq<Delivery> {
    if script == [] then []
    else
      var e := script[|script| - 1];
      Forwards(script[..|script| - 1]) +
      if e.Got? && !e.env.Heartbeat? && e.peer.Some? && e.sent then [Delivery(e.peer.value, e.env)] else []
  }

  lemma ForwardsNext(script: seq<Event>, k: nat)
    requires k < |script|
    ensures var e := script[k];
            Forwards(script[..k + 1]) == Forwards(script[..k]) +
              if e.Got? && !e.env.Heartbeat? && e.peer.Some? && e.sent then [Delivery(e.peer.value, e.env)] else []
  {
    assert script[..k + 1][..k] == script[..k];
  }

  /** An envelope for a peer that is not there or cannot be reached. */
  predicate Undeliverable(e: Event) {
    e.Got? && !e.env.Heartbeat? && (e.peer.None? || !e.sent)
  }

  /** `relayMessages`, up to the end of the script; `closed` tells whether the loop
      closed the client. The deliveries are the received envelopes that are no
      heartbeats, in order, each to the peer of its moment; only the last one can be
      missing, and then the client is closed, which it is exactly after a receive error
      or an envelope that could not be delivered. */
  method RelayMessages(script: seq<Event>)
    returns (received: seq<Envelope>, deliveries: seq<Delivery>, closed: bool)
    ensures |received| <= |script|
    ensures forall i :: 0 <= i < |received| ==> script[i].Got? && received[i] == script[i].env
    ensures |received| < |script| ==> closed
    ensures deliveries == Forwards(script[..|received|])
    ensures forall i :: 0 <= i < |received| - 1 ==> !Undeliverable(script[i])
    ensures closed <==>
              || (|received| < |script| && script[|received|].Failed?)
              || (received != [] && Undeliverable(script[|received| - 1]))
    ensures !closed ==> Envelopes(deliveries) == NonHeartbeats(received)
    ensures closed ==>
              || Envelopes(deliveries) == NonHeartbeats(received)
              || (received != [] && !received[|received| - 1].Heartbeat? &&
                  Envelopes(deliveries) + [received[|received| - 1]] == NonHeartbeats(received))
  {
    received, deliveries, closed := [], [], false;
    for k := 0 to |script|
      invariant |received| == k && !closed
      invariant forall i :: 0 <= i < k ==> script[i].Got? && received[i] == script[i].env
      invariant Envelopes(deliveries) == NonHeartbeats(received)
      invariant deliveries == Forwards(script[..k])
      invariant forall i :: 0 <= i < k ==> !Undeliverable(script[i])
    {
      ForwardsNext(script, k);
      if script[k].Failed? {
        closed := true;
        return;
      }
      var env := script[k].env;
      NonHeartbeatsSnoc(received, env);
      received := received + [env];
      if !env.Heartbeat? {
        if script[k].peer.None? || !script[k].sent {
          closed := true;
          return;
        }
        EnvelopesSnoc(deliveries, Delivery(script[k].peer.value, env));
        deliveries := deliveries + [Delivery(script[k].peer.value, env)];
      }
    }
  }

  // ---------------------------------------------------------------------------
  // All clients.

  /** `asked` are the clients whose role is settled. The rest are histories: what a
      client sent to the broker, what of it was forwarded, what the relay delivered to
      it, and the peer it was linked to. */
  datatype State = State(
    table: R.Table<Id>,
    asked: set<Id>,
    closed: set<Id>,
    received: map<Id, seq<Envelope>>,
    forwarded: map<Id, seq<Envelope>>,
    delivered: map<Id, seq<Envelope>>,
    mates: map<Id, Id>)

  const INIT := State(R.Table(map[], map[]), {}, {}, map[], map[], map[], map[])

  function Log(m: map<Id, seq<Envelope>>, c: Id): seq<Envelope> {
    if c in m then m[c] else []
  }

  datatype Step =
    | Listen(c: Id, id: string)
    | Connect(c: Id, id: string)
    | Relay(c: Id, env: Envelope, sent: bool)
    | Close(c: Id)

  predicate Enabled(s: State, step: Step) {
    match step
    case Listen(c, _) => c !in s.asked
    case Connect(c, _) => c !in s.asked
    case Relay(c, _, _) => c in s.asked && c !in s.closed
    case Close(c) => c in s.asked && c !in s.closed
  }

  /** `Close`, as one step. */
  function Closed(s: State, c: Id): State {
    s.(table := B.CloseBoth(s.table, c),
       closed := s.closed + {c} + if c in s.table.peers then {s.table.peers[c]} else {})
  }

  /** `handleListener`. */
  function Listened(s: State, c: Id, id: string): State {
    if id in s.table.listeners then s.(asked := s.asked + {c}, closed := s.closed + {c})
    else s.(asked := s.asked + {c}, table := R.WithListener(s.table, id, c))
  }

  /** `handleConnector`. */
  function Connected(s: State, c: Id, id: string): State {
    if !R.CanLink(s.table, id) then s.(asked := s.asked + {c}, closed := s.closed + {c})
    else
      var l := s.table.listeners[id];
      s.(asked := s.asked + {c}, table := R.WithLink(s.table, id, c), mates := s.mates[l := c][c := l])
  }

  /** An iteration of `relayMessages` for an envelope of client `c`. */
  function Relayed(s: State, c: Id, env: Envelope, sent: bool): State {
    var t := s.(received := s.received[c := Log(s.received, c) + [env]]);
    if env.Heartbeat? then t
    else if c !in s.table.peers || !sent then Closed(t, c)
    else
      var p := s.table.peers[c];
      t.(forwarded := s.forwarded[c := Log(s.forwarded, c) + [env]],
         delivered := s.delivered[p := Log(s.delivered, p) + [env]])
  }

  function Next(s: State, step: Step): State {
    if !Enabled(s, step) then s
    else match step
      case Listen(c, id) => Listened(s, c, id)
      case Connect(c, id) => Connected(s, c, id)
      case Relay(c, env, sent) => Relayed(s, c, env, sent)
      case Close(c) => Closed(s, c)
  }

  function Exec(s: State, steps: seq<Step>): State
    decreases |steps|
  {
    if steps == [] then s else Exec(Next(s, steps[0]), steps[1..])
  }

  /** A client in the table has settled its role and is not closed. */
  ghost predicate Members(s: State) {
    && (forall id :: id in s.table.listeners ==> s.table.listeners[id] in s.asked && s.table.listeners[id] !in s.closed)
    && (forall c :: c in s.table.peers ==> c in s.asked && c !in s.closed)
    && s.closed <= s.asked
  }

  /** A client linked at some time is still linked to the same peer, or closed. */
  ghost predicate Mated(s: State) {
    && (forall c :: c in s.table.peers ==> c in s.mates && s.mates[c] == s.table.peers[c])
    && (forall c :: c in s.mates ==> c in s.asked && (c in s.table.peers || c in s.closed))
    && (forall c {:trigger s.mates[c]} :: c in s.mates ==> s.mates[c] in s.mates)
    && (forall c, d :: c in s.mates && d in s.mates && s.mates[c] == d ==> s.mates[d] == c && c != d)
  }

  ghost predicate TableInv(s: State) {
    R.WellFormed(s.table) && Members(s) && Mated(s)
  }

  ghost predicate LogInv(s: State, c: Id) {
    && (c in s.mates ==> Log(s.delivered, c) == Log(s.forwarded, s.mates[c]))
    && (c !in s.mates ==> Log(s.delivered, c) == [] && Log(s.forwarded, c) == [])
    && (c !in s.asked ==> Log(s.received, c) == [])
    && UpToLast(Log(s.forwarded, c), NonHeartbeats(Log(s.received, c)), c in s.closed)
  }

  /** The forwarded envelopes, of those to be forwarded: all of them, or, once the
      client is closed, all but the last. */
  ghost predicate UpToLast(forwarded: seq<Envelope>, wanted: seq<Envelope>, closed: bool) {
    forwarded == wanted || (closed && wanted != [] && forwarded == wanted[..|wanted| - 1])
  }

  ghost predicate Inv(s: State) {
    TableInv(s) && forall c: Id :: LogInv(s, c)
  }

  lemma ClosedTable(s: State, c: Id)
    requires TableInv(s) && c in s.asked
    ensures TableInv(Closed(s, c))
  {
    B.CloseBothIsExact(s.table, c);
  }

  lemma ListenTable(s: State, c: Id, id: string)
    requires TableInv(s) && c !in s.asked
    ensures TableInv(Listened(s, c, id))
  {
    ListenWellFormed(s, c, id);
    ListenMembers(s, c, id);
    MatedLater(s, Listened(s, c, id));
  }

  lemma ListenWellFormed(s: State, c: Id, id: string)
    requires TableInv(s) && c !in s.asked
    ensures R.WellFormed(Listened(s, c, id).table)
  {
    NotMember(s, c);
    R.ListenerKeeps(s.table, id, c);
  }

  lemma ListenMembers(s: State, c: Id, id: string)
    requires Members(s) && c !in s.asked
    ensures Members(Listened(s, c, id))
  {
  }

  lemma MatedLater(s: State, t: State)
    requires Mated(s) && t.table.peers == s.table.peers && t.mates == s.mates
    requires s.asked <= t.asked && s.closed <= t.closed
    ensures Mated(t)
  {
  }

  lemma ConnectTable(s: State, c: Id, id: string)
    requires TableInv(s) && c !in s.asked
    ensures TableInv(Connected(s, c, id))
  {
    NotMember(s, c);
    R.LinkKeeps(s.table, id, c);
    ConnectMembers(s, c, id);
    if R.CanLink(s.table, id) {
      ConnectMated(s, c, id);
    } else {
      MatedLater(s, Connected(s, c, id));
    }
  }

  lemma ConnectMembers(s: State, c: Id, id: string)
    requires Members(s) && c !in s.asked
    ensures Members(Connected(s, c, id))
  {
  }

  lemma ConnectMated(s: State, c: Id, id: string)
    requires Members(s) && Mated(s) && c !in s.asked && c !in s.mates && R.CanLink(s.table, id)
    ensures Mated(Connected(s, c, id))
  {
    var t, l := Connected(s, c, id), s.table.listeners[id];
    assert l in s.asked && l !in s.mates && l != c;
    assert t.mates[l] == c && t.mates[c] == l;
    forall e, f | e in t.mates && f in t.mates && t.mates[e] == f ensures t.mates[f] == e && e != f {
      if e in s.mates {
        assert s.mates[e] == f && f in s.mates;
      }
    }
  }

  lemma RelayTable(s: State, c: Id, env: Envelope, sent: bool)
    requires TableInv(s) && c in s.asked && c !in s.closed
    ensures TableInv(Relayed(s, c, env, sent))
  {
    ClosedTable(s.(received := s.received[c := Log(s.received, c) + [env]]), c);
  }

  lemma StepTable(s: State, step: Step)
    requires TableInv(s)
    ensures TableInv(Next(s, step))
  {
    if Enabled(s, step) {
      match step
      case Listen(c, id) => ListenTable(s, c, id);
      case Connect(c, id) => ConnectTable(s, c, id);
      case Relay(c, env, sent) => RelayTable(s, c, env, sent);
      case Close(c) => ClosedTable(s, c);
    }
  }

  lemma NotMember(s: State, c: Id)
    requires TableInv(s) && c !in s.asked
    ensures !R.Listening(s.table, c) && !R.Linked(s.table, c) && c !in s.mates
  {
  }

  lemma StepLogs(s: State, step: Step, c: Id)
    requires Inv(s)
    ensures LogInv(Next(s, step), c)
  {
    assert LogInv(s, c);
    if Enabled(s, step) {
      match step
      case Relay(d, env, sent) =>
        if !env.Heartbeat? && d in s.table.peers && sent {
          ForwardLogs(s, d, env, c);
        } else {
          KeptLogs(s, d, env, sent, c);
        }
      case Connect(d, id) => ConnectLogs(s, d, id, c);
      case _ =>
    }
  }

  lemma ConnectLogs(s: State, d: Id, id: string, c: Id)
    requires Inv(s) && d !in s.asked
    ensures LogInv(Connected(s, d, id), c)
  {
    NotMember(s, d);
    assert LogInv(s, c) && LogInv(s, d);
    if R.CanLink(s.table, id) {
      assert LogInv(s, s.table.listeners[id]);
    }
  }

  /** The envelope is a heartbeat, or it is not delivered and the client is closed. */
  lemma KeptLogs(s: State, d: Id, env: Envelope, sent: bool, c: Id)
    requires Inv(s) && d in s.asked && d !in s.closed && (env.Heartbeat? || d !in s.table.peers || !sent)
    ensures LogInv(Relayed(s, d, env, sent), c)
  {
    assert LogInv(s, c) && LogInv(s, d);
    KeptUpToLast(s, d, env, sent, c);
    var t := Relayed(s, d, env, sent);
    assert t.mates == s.mates && t.asked == s.asked && t.delivered == s.delivered && t.forwarded == s.forwarded;
  }

  lemma KeptUpToLast(s: State, d: Id, env: Envelope, sent: bool, c: Id)
    requires LogInv(s, c) && d !in s.closed && (env.Heartbeat? || d !in s.table.peers || !sent)
    ensures var t := Relayed(s, d, env, sent);
            UpToLast(Log(t.forwarded, c), NonHeartbeats(Log(t.received, c)), c in t.closed)
  {
    var t := Relayed(s, d, env, sent);
    assert t.forwarded == s.forwarded && s.closed <= t.closed;
    if c == d {
      NonHeartbeatsSnoc(Log(s.received, d), env);
      var wanted := NonHeartbeats(Log(s.received, d));
      assert (wanted + [env])[..|wanted|] == wanted;
      assert Log(t.received, c) == Log(s.received, d) + [env];
    } else {
      assert Log(t.received, c) == Log(s.received, c);
    }
  }

  lemma ForwardLogs(s: State, d: Id, env: Envelope, c: Id)
    requires Inv(s) && d in s.asked && d !in s.closed && !env.Heartbeat? && d in s.table.peers
    ensures LogInv(Relayed(s, d, env, true), c)
  {
    var p := s.table.peers[d];
    assert LogInv(s, c);
    assert d in s.mates && s.mates[d] == p && s.mates[p] == d && p != d;
    ForwardUpToLast(s, d, env, c);
    ForwardDelivered(s, d, env, c);
    var t := Relayed(s, d, env, true);
    assert t.mates == s.mates && t.asked == s.asked;
    if c !in s.mates {
      assert c != d && c != p;
      assert Log(t.delivered, c) == Log(s.delivered, c) && Log(t.forwarded, c) == Log(s.forwarded, c);
    }
    if c !in s.asked {
      assert Log(t.received, c) == Log(s.received, c);
    }
  }

  lemma ForwardUpToLast(s: State, d: Id, env: Envelope, c: Id)
    requires LogInv(s, c) && d !in s.closed && !env.Heartbeat? && d in s.table.peers
    ensures var t := Relayed(s, d, env, true);
            UpToLast(Log(t.forwarded, c), NonHeartbeats(Log(t.received, c)), c in t.closed)
  {
    NonHeartbeatsSnoc(Log(s.received, d), env);
  }

  lemma ForwardDelivered(s: State, d: Id, env: Envelope, c: Id)
    requires LogInv(s, c) && !env.Heartbeat? && d in s.table.peers && d in s.mates
    requires var p := s.table.peers[d]; p in s.mates && s.mates[p] == d && s.mates[d] == p && p != d
    requires Mated(s)
    ensures var t := Relayed(s, d, env, true);
            c in s.mates ==> Log(t.delivered, c) == Log(t.forwarded, s.mates[c])
  {
    var t, p := Relayed(s, d, env, true), s.table.peers[d];
    if c == p {
      assert Log(t.delivered, c) == Log(s.delivered, c) + [env] && Log(t.forwarded, d) == Log(s.forwarded, d) + [env];
    } else if c in s.mates {
      assert s.mates[c] != d;
      assert Log(t.delivered, c) == Log(s.delivered, c);
      assert Log(t.forwarded, s.mates[c]) == Log(s.forwarded, s.mates[c]);
    }
  }

  lemma {:induction false} ExecInv(s: State, steps: seq<Step>)
    requires Inv(s)
    ensures Inv(Exec(s, steps))
    decreases |steps|
  {
    if steps != [] {
      StepTable(s, steps[0]);
      forall c: Id ensures LogInv(Next(s, steps[0]), c) {
        StepLogs(s, steps[0], c);
      }
      ExecInv(Next(s, steps[0]), steps[1..]);
    }
  }

  lemma InitInv()
    ensures Inv(INIT)
  {
  }

  lemma MatesStayOnce(s: State, step: Step, c: Id)
    requires TableInv(s) && c in s.mates
    ensures c in Next(s, step).mates && Next(s, step).mates[c] == s.mates[c]
  {
    if step.Connect? && Enabled(s, step) && R.CanLink(s.table, step.id) {
      NotMember(s, step.c);
      var l := s.table.listeners[step.id];
      assert l in s.asked - s.closed;
    }
  }

  lemma {:induction false} MatesStay(s: State, steps: seq<Step>, c: Id)
    requires TableInv(s) && c in s.mates
    ensures c in Exec(s, steps).mates && Exec(s, steps).mates[c] == s.mates[c]
    decreases |steps|
  {
    if steps != [] {
      StepTable(s, steps[0]);
      MatesStayOnce(s, steps[0], c);
      MatesStay(Next(s, steps[0]), steps[1..], c);
    }
  }

  /** With `Close` atomic, a client has one peer for life: once linked it is never
      linked to anyone else. */
  lemma OnePeerForLife(before: seq<Step>, after: seq<Step>, c: Id)
    requires c in Exec(INIT, before).table.peers
    ensures var s, t := Exec(INIT, before), Exec(Exec(INIT, before), after);
            c in t.table.peers ==> t.table.peers[c] == s.table.peers[c]
  {
    InitInv();
    ExecInv(INIT, before);
    ExecInv(Exec(INIT, before), after);
    MatesStay(Exec(INIT, before), after, c);
  }

  /** So a link is a FIFO with heartbeats filtered out: what the relay has delivered to
      a client is, in order, what its one peer sent, without heartbeats and, if that
      peer is closed, perhaps without its last message; and nothing else. */
  lemma LinkIsAFifo(steps: seq<Step>, c: Id)
    ensures var s := Exec(INIT, steps);
            if c in s.mates
            then UpToLast(Log(s.delivered, c), NonHeartbeats(Log(s.received, s.mates[c])), s.mates[c] in s.closed)
            else Log(s.delivered, c) == []
  {
    InitInv();
    ExecInv(INIT, steps);
    var s := Exec(INIT, steps);
    assert LogInv(s, c);
    if c in s.mates {
      assert LogInv(s, s.mates[c]);
    }
  }

  /** The client or its peer. */
  predicate Either(s: State, d: Id, c: Id) {
    d == c || (d in s.table.peers && s.table.peers[d] == c)
  }

  /** A client gets closed by a step exactly if it or its peer is closed, has a message
      that cannot be delivered, or if it asks for a role it cannot have. */
  lemma ClosedExactly(s: State, step: Step, c: Id)
    requires c !in s.closed
    ensures c in Next(s, step).closed <==>
            && Enabled(s, step)
            && match step
               case Close(d) => Either(s, d, c)
               case Relay(d, env, sent) => !env.Heartbeat? && (d !in s.table.peers || !sent) && Either(s, d, c)
               case Listen(d, id) => d == c && id in s.table.listeners
               case Connect(d, id) => d == c && !R.CanLink(s.table, id)
  {
  }
}
