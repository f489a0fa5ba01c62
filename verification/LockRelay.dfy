/** The relay (pkg/broker/server.go:386-414) at the granularity of locks: every client's
    loop receives, looks its peer up and sends in separate steps, interleaved with all
    lock-level steps of the broker. */
module LockRelay {
  import opened Messages
  import B = Broker
  import X = Races
  import R = Router

  type Id = nat

  /** Where the relay loop of a client stands. */
  datatype Place =
    | Idle
    | Holding(env: Envelope)              // GetPeer is next
    | Sending(env: Envelope, peer: Id)    // peer.Send is next

  /** An envelope, with the client it went to or came from. */
  datatype Post = Post(client: Id, env: Envelope)

  /** The broker with the steps it has taken, the relay loops, and histories: what each
      client's loop received, what it sent to whom, and what each client got from whom. */
  datatype State = State(
    b: B.State,
    done: seq<B.Step>,
    places: map<Id, Place>,
    received: map<Id, seq<Envelope>>,
    sent: map<Id, seq<Post>>,
    got: map<Id, seq<Post>>)

  const INIT := State(B.INIT, [], map[], map[], map[], map[])

  datatype Step =
    | Lock(step: B.Step)
    | Receive(c: Id, env: Envelope)
    | FindPeer(c: Id)
    | Send(c: Id, ok: bool)

  function At(s: State, c: Id): Place {
    if c in s.places then s.places[c] else Idle
  }

  function Received(s: State, c: Id): seq<Envelope> {
    if c in s.received then s.received[c] else []
  }

  function Posts(m: map<Id, seq<Post>>, c: Id): seq<Post> {
    if c in m then m[c] else []
  }

  /** The loop gives up on a receive error between two messages only. */
  predicate Enabled(s: State, step: Step) {
    match step
    case Lock(bs) => bs.StopServing? ==> At(s, bs.c).Idle?
    case Receive(c, _) => B.At(s.b, c).handler.Serving? && At(s, c).Idle?
    case FindPeer(c) => At(s, c).Holding?
    case Send(c, _) => At(s, c).Sending?
  }

  ghost function Locked(s: State, bs: B.Step): State {
    s.(b := B.Next(s.b, bs), done := s.done + [bs])
  }

  /** The loop closes its client and returns. */
  ghost function GivenUp(s: State, c: Id): State {
    Locked(s, B.StopServing(c)).(places := s.places[c := Idle])
  }

  ghost function Next(s: State, step: Step): State {
    if !Enabled(s, step) then s
    else match step
      case Lock(bs) => Locked(s, bs)
      case Receive(c, env) =>
        s.(received := s.received[c := Received(s, c) + [env]],
           places := s.places[c := if env.Heartbeat? then Idle else Holding(env)])
      case FindPeer(c) =>
        (match B.PeerOf(s.b.table, c)
         case None => GivenUp(s, c)
         case Some(p) => s.(places := s.places[c := Sending(At(s, c).env, p)]))
      case Send(c, false) => GivenUp(s, c)
      case Send(c, true) =>
        var Sending(env, p) := At(s, c);
        s.(places := s.places[c := Idle],
           sent := s.sent[c := Posts(s.sent, c) + [Post(p, env)]],
           got := s.got[p := Posts(s.got, p) + [Post(c, env)]])
  }

  ghost function Exec(s: State, steps: seq<Step>): State
    decreases |steps|
  {
    if steps == [] then s else Exec(Next(s, steps[0]), steps[1..])
  }

  function Envelopes(ps: seq<Post>): seq<Envelope> {
    seq(|ps|, i requires 0 <= i < |ps| => ps[i].env)
  }

  lemma EnvelopesSnoc(ps: seq<Post>, p: Post)
    ensures Envelopes(ps + [p]) == Envelopes(ps) + [p.env]
  {
  }

  /** The envelopes of the posts with one client, in order. */
  function With(ps: seq<Post>, c: Id): seq<Envelope> {
    if ps == [] then []
    else With(ps[..|ps| - 1], c) + if ps[|ps| - 1].client == c then [ps[|ps| - 1].env] else []
  }

  lemma WithSnoc(ps: seq<Post>, p: Post, c: Id)
    ensures With(ps + [p], c) == With(ps, c) + if p.client == c then [p.env] else []
  {
    assert (ps + [p])[..|ps|] == ps;
  }

  // ---------------------------------------------------------------------------
  // What every run keeps.

  /** All, or all but the last. */
  ghost predicate UpToLast(sent: seq<Envelope>, wanted: seq<Envelope>) {
    sent == wanted || (wanted != [] && sent == wanted[..|wanted| - 1])
  }

  /** What a loop at `place` of a client with handler `h` has sent, of what it wants to. */
  ghost predicate LogOk(place: Place, h: B.Handler, sent: seq<Envelope>, wanted: seq<Envelope>) {
    && (place.Idle? && h.Serving? ==> sent == wanted)
    && (!place.Idle? ==> h.Serving? && wanted == sent + [place.env])
    && UpToLast(sent, wanted)
    && (!B.HasAsked(h) ==> sent == [] && wanted == [])
  }

  function SentBy(s: State, c: Id): seq<Envelope> {
    Envelopes(Posts(s.sent, c))
  }

  function WantedBy(s: State, c: Id): seq<Envelope> {
    NonHeartbeats(Received(s, c))
  }

  /** What a client's loop has sent, of what it has received without heartbeats. */
  ghost predicate LogInv(s: State, c: Id) {
    LogOk(At(s, c), B.At(s.b, c).handler, SentBy(s, c), WantedBy(s, c))
  }

  /** `a` and `b` have been linked, one way or the other. */
  ghost predicate Met(done: seq<B.Step>, a: Id, b: Id) {
    a in X.Links(B.INIT, done, b) || b in X.Links(B.INIT, done, a)
  }

  ghost predicate AllMet(done: seq<B.Step>, c: Id, ps: seq<Post>) {
    forall i :: 0 <= i < |ps| ==> Met(done, c, ps[i].client)
  }

  /** Whoever a client sends to or gets from, it has been linked with. */
  ghost predicate MetInv(s: State, c: Id) {
    && AllMet(s.done, c, Posts(s.sent, c)) && AllMet(s.done, c, Posts(s.got, c))
    && (At(s, c).Sending? ==> Met(s.done, c, At(s, c).peer))
  }

  /** What `b` got from `a` is what `a` sent to `b`. */
  ghost predicate PairInv(s: State, a: Id, b: Id) {
    With(Posts(s.got, b), a) == With(Posts(s.sent, a), b)
  }

  ghost predicate Inv(s: State) {
    && s.b == B.Exec(B.INIT, s.done)
    && (forall c: Id :: LogInv(s, c))
    && (forall c: Id :: MetInv(s, c))
    && (forall a: Id, b: Id :: PairInv(s, a, b))
  }

  lemma {:induction false} LinksSnoc(b: B.State, steps: seq<B.Step>, bs: B.Step, l: Id)
    ensures X.Links(b, steps + [bs], l) ==
            X.Links(b, steps, l) + if X.LinksTo(B.Exec(b, steps), bs, l) then [bs.c] else []
    decreases |steps|
  {
    if steps == [] {
      assert steps + [bs] == [bs];
      assert X.Links(B.Next(b, bs), [bs][1..], l) == [];
    } else {
      assert (steps + [bs])[1..] == steps[1..] + [bs];
      LinksSnoc(B.Next(b, steps[0]), steps[1..], bs, l);
    }
  }

  lemma ExecSnoc(steps: seq<B.Step>, bs: B.Step)
    ensures B.Exec(B.INIT, steps + [bs]) == B.Next(B.Exec(B.INIT, steps), bs)
  {
    B.ExecAppend(B.INIT, steps, [bs]);
    var t := B.Exec(B.INIT, steps);
    assert B.Exec(t, [bs]) == B.Next(t, bs);
  }

  lemma MetStays(done: seq<B.Step>, bs: B.Step, a: Id, b: Id)
    requires Met(done, a, b)
    ensures Met(done + [bs], a, b)
  {
    LinksSnoc(B.INIT, done, bs, a);
    LinksSnoc(B.INIT, done, bs, b);
  }

  /** A lock-level step of the broker, with the relay loops as they are or one of them
      giving up. */
  lemma LockedMet(s: State, bs: B.Step, c: Id, t: State)
    requires MetInv(s, c) && t.done == s.done + [bs] && t.sent == s.sent && t.got == s.got
    requires At(t, c) == At(s, c) || At(t, c).Idle?
    ensures MetInv(t, c)
  {
    forall i | 0 <= i < |Posts(s.sent, c)| ensures Met(t.done, c, Posts(s.sent, c)[i].client) {
      MetStays(s.done, bs, c, Posts(s.sent, c)[i].client);
    }
    forall i | 0 <= i < |Posts(s.got, c)| ensures Met(t.done, c, Posts(s.got, c)[i].client) {
      MetStays(s.done, bs, c, Posts(s.got, c)[i].client);
    }
    if At(s, c).Sending? {
      MetStays(s.done, bs, c, At(s, c).peer);
    }
  }

  /** Only its own loop stops a client from serving, and asking makes it serve once. */
  lemma HandlerSteps(b: B.State, bs: B.Step, c: Id)
    ensures var h, g := B.At(b, c).handler, B.At(B.Next(b, bs), c).handler;
            && (h.Serving? && bs != B.StopServing(c) ==> g.Serving?)
            && (g.Serving? ==> h.Serving? || !B.HasAsked(h))
            && (B.HasAsked(h) ==> B.HasAsked(g))
  {
  }

  /** A loop that gives up, or whose client's handler moves on. */
  lemma LogOkMoves(place: Place, h: B.Handler, now: Place, g: B.Handler, sent: seq<Envelope>, wanted: seq<Envelope>)
    requires LogOk(place, h, sent, wanted) && (B.HasAsked(h) ==> B.HasAsked(g))
    requires
      || (now == place && (g.Serving? <==> h.Serving?))
      || (now == place && place.Idle? && g.Serving? && !B.HasAsked(h))
      || (now.Idle? && !g.Serving? && B.HasAsked(h))
    ensures LogOk(now, g, sent, wanted)
  {
  }

  lemma LockedLogs(s: State, bs: B.Step, c: Id)
    requires LogInv(s, c) && (bs.StopServing? ==> At(s, bs.c).Idle?)
    ensures LogInv(Locked(s, bs), c)
  {
    var t, h := Locked(s, bs), B.At(s.b, c).handler;
    HandlerSteps(s.b, bs, c);
    assert SentBy(t, c) == SentBy(s, c) && WantedBy(t, c) == WantedBy(s, c) && At(t, c) == At(s, c);
    assert !At(s, c).Idle? ==> h.Serving?;
    LogOkMoves(At(s, c), h, At(t, c), B.At(t.b, c).handler, SentBy(s, c), WantedBy(s, c));
  }

  lemma DropLast(sent: seq<Envelope>, env: Envelope)
    ensures UpToLast(sent, sent + [env])
  {
    assert (sent + [env])[..|sent|] == sent;
  }

  lemma GivenUpLogs(s: State, d: Id, c: Id)
    requires LogInv(s, c) && LogInv(s, d) && !At(s, d).Idle?
    ensures LogInv(GivenUp(s, d), c)
  {
    var t := GivenUp(s, d);
    assert SentBy(t, c) == SentBy(s, c) && WantedBy(t, c) == WantedBy(s, c);
    assert c == d ==> At(t, c).Idle? && B.At(t.b, c).handler.Closing? && B.At(s.b, c).handler.Serving?;
    assert c != d ==> At(t, c) == At(s, c) && B.At(t.b, c) == B.At(s.b, c);
    LogOkMoves(At(s, c), B.At(s.b, c).handler, At(t, c), B.At(t.b, c).handler, SentBy(s, c), WantedBy(s, c));
  }

  lemma ReceiveLogs(s: State, d: Id, env: Envelope, c: Id)
    requires LogInv(s, c) && Enabled(s, Receive(d, env))
    ensures LogInv(Next(s, Receive(d, env)), c)
  {
    var t := Next(s, Receive(d, env));
    assert t.b == s.b && SentBy(t, c) == SentBy(s, c);
    if c == d {
      NonHeartbeatsSnoc(Received(s, c), env);
      DropLast(SentBy(s, c), env);
      assert Received(t, c) == Received(s, c) + [env];
      assert WantedBy(t, c) == WantedBy(s, c) + if env.Heartbeat? then [] else [env];
    } else {
      assert At(t, c) == At(s, c) && WantedBy(t, c) == WantedBy(s, c);
    }
  }

  lemma SendLogs(s: State, d: Id, c: Id)
    requires LogInv(s, c) && Enabled(s, Send(d, true))
    ensures LogInv(Next(s, Send(d, true)), c)
  {
    var t := Next(s, Send(d, true));
    assert t.b == s.b && WantedBy(t, c) == WantedBy(s, c);
    if c == d {
      EnvelopesSnoc(Posts(s.sent, c), Post(At(s, c).peer, At(s, c).env));
      assert SentBy(t, c) == WantedBy(t, c);
    } else {
      assert At(t, c) == At(s, c) && SentBy(t, c) == SentBy(s, c);
    }
  }

  lemma FindLogs(s: State, d: Id, c: Id)
    requires LogInv(s, c) && LogInv(s, d) && Enabled(s, FindPeer(d))
    ensures LogInv(Next(s, FindPeer(d)), c)
  {
    var t := Next(s, FindPeer(d));
    if B.PeerOf(s.b.table, d).None? {
      GivenUpLogs(s, d, c);
      assert t == GivenUp(s, d);
    } else {
      assert t.b == s.b && SentBy(t, c) == SentBy(s, c) && WantedBy(t, c) == WantedBy(s, c);
      assert At(t, c) == At(s, c) || (!At(s, c).Idle? && !At(t, c).Idle? && At(t, c).env == At(s, c).env);
    }
  }

  lemma StepLogs(s: State, step: Step, c: Id)
    requires LogInv(s, c) && (!step.Lock? ==> LogInv(s, step.c))
    ensures LogInv(Next(s, step), c)
  {
    if Enabled(s, step) {
      match step
      case Lock(bs) =>
        LockedLogs(s, bs, c);
        assert Next(s, step) == Locked(s, bs);
      case Receive(d, env) => ReceiveLogs(s, d, env, c);
      case FindPeer(d) => FindLogs(s, d, c);
      case Send(d, true) => SendLogs(s, d, c);
      case Send(d, false) =>
        GivenUpLogs(s, d, c);
        assert Next(s, step) == GivenUp(s, d);
    }
  }

  /** The peer in the table is one that has been linked. */
  lemma PeersHaveMet(done: seq<B.Step>, c: Id)
    requires R.Linked(B.Exec(B.INIT, done).table, c)
    ensures Met(done, c, B.Exec(B.INIT, done).table.peers[c])
  {
    B.InitInv();
    B.ExecInv(B.INIT, done);
    var t := B.Exec(B.INIT, done).table;
    var p := t.peers[c];
    assert R.Linked(t, p) && t.peers[p] == c;
    if R.Listening(t, c) {
      X.LinksCoverPeers(B.INIT, done, c);
    } else {
      X.LinksCoverPeers(B.INIT, done, p);
    }
  }

  lemma SendMet(s: State, d: Id, c: Id)
    requires MetInv(s, c) && MetInv(s, d) && Enabled(s, Send(d, true))
    ensures MetInv(Next(s, Send(d, true)), c)
  {
  }

  lemma StepMet(s: State, step: Step, c: Id)
    requires Inv(s)
    ensures MetInv(Next(s, step), c)
  {
    assert MetInv(s, c);
    if Enabled(s, step) {
      match step
      case Lock(bs) => LockedMet(s, bs, c, Locked(s, bs));
      case Receive(_, _) =>
      case FindPeer(d) =>
        match B.PeerOf(s.b.table, d) {
          case None => LockedMet(s, B.StopServing(d), c, GivenUp(s, d));
          case Some(_) => PeersHaveMet(s.done, d);
        }
      case Send(d, ok) =>
        assert MetInv(s, d);
        if ok {
          SendMet(s, d, c);
        } else {
          LockedMet(s, B.StopServing(d), c, GivenUp(s, d));
        }
    }
  }

  lemma SendPairs(s: State, d: Id, a: Id, b: Id)
    requires PairInv(s, a, b) && Enabled(s, Send(d, true))
    ensures PairInv(Next(s, Send(d, true)), a, b)
  {
    var t := Next(s, Send(d, true));
    var Sending(env, p) := At(s, d);
    WithSnoc(Posts(s.sent, d), Post(p, env), b);
    WithSnoc(Posts(s.got, p), Post(d, env), a);
    assert a != d ==> Posts(t.sent, a) == Posts(s.sent, a);
    assert b != p ==> Posts(t.got, b) == Posts(s.got, b);
  }

  lemma StepPairs(s: State, step: Step, a: Id, b: Id)
    requires PairInv(s, a, b)
    ensures PairInv(Next(s, step), a, b)
  {
    if step.Send? && step.ok && Enabled(s, step) {
      SendPairs(s, step.c, a, b);
    } else {
      assert Next(s, step).sent == s.sent && Next(s, step).got == s.got;
    }
  }

  lemma StepBroker(s: State, step: Step)
    requires s.b == B.Exec(B.INIT, s.done)
    ensures Next(s, step).b == B.Exec(B.INIT, Next(s, step).done)
  {
    if step.Lock? {
      ExecSnoc(s.done, step.step);
    } else if step.FindPeer? || step.Send? {
      ExecSnoc(s.done, B.StopServing(step.c));
    }
  }

  lemma {:induction false} ExecInv(s: State, steps: seq<Step>)
    requires Inv(s)
    ensures Inv(Exec(s, steps))
    decreases |steps|
  {
    if steps != [] {
      var t := Next(s, steps[0]);
      StepBroker(s, steps[0]);
      forall c: Id ensures LogInv(t, c) && MetInv(t, c) {
        assert LogInv(s, c);
        StepLogs(s, steps[0], c);
        StepMet(s, steps[0], c);
      }
      forall a: Id, b: Id ensures PairInv(t, a, b) {
        StepPairs(s, steps[0], a, b);
      }
      ExecInv(t, steps[1..]);
    }
  }

  lemma InitInv()
    ensures Inv(INIT)
  {
  }

  // ---------------------------------------------------------------------------
  // Who has been linked with whom.

  /** A connector is linked to one listener in its life. */
  lemma {:induction false} OneListener(b: B.State, steps: seq<B.Step>, c: Id, l: Id, m: Id)
    requires c in X.Links(b, steps, l) && c in X.Links(b, steps, m)
    ensures l == m
    decreases |steps|
  {
    var t := B.Next(b, steps[0]);
    X.LinksAreDistinct(t, steps[1..], l);
    X.LinksAreDistinct(t, steps[1..], m);
    if c in X.Links(t, steps[1..], l) && c in X.Links(t, steps[1..], m) {
      OneListener(t, steps[1..], c, l, m);
    } else {
      assert steps[0].c == c && B.HasAsked(B.At(t, c).handler);
    }
  }

  /** The two ends of a link have different roles, for good. */
  lemma {:induction false} RolesOfLinks(b: B.State, steps: seq<B.Step>, c: Id, l: Id)
    requires B.Inv(b) && c in X.Links(b, steps, l)
    ensures var t := B.Exec(b, steps);
            && B.At(t, c).role.Some? && B.At(t, c).role.value.Connect?
            && B.At(t, l).role.Some? && B.At(t, l).role.value.Listen?
    decreases |steps|
  {
    var t := B.Next(b, steps[0]);
    B.StepInv(b, steps[0]);
    if X.LinksTo(b, steps[0], l) && steps[0].c == c {
      X.LinkRoles(b, steps[0], l);
      X.LinkTies(b, steps[0], l);
      assert B.ClientInv(t, l);
      X.RoleForGood(t, steps[1..], c);
      X.RoleForGood(t, steps[1..], l);
    } else {
      RolesOfLinks(t, steps[1..], c, l);
    }
  }

  lemma OnlyMates(done: seq<B.Step>, l: Id, c: Id, x: Id)
    requires X.NoDoomedLinks(B.INIT, done, l) && c in X.Links(B.INIT, done, l)
    ensures Met(done, l, x) ==> x == c
    ensures Met(done, c, x) ==> x == l
  {
    B.InitInv();
    X.OnePeerExactly(done, l);
    RolesOfLinks(B.INIT, done, c, l);
    if l in X.Links(B.INIT, done, x) {
      RolesOfLinks(B.INIT, done, l, x);
      assert false;
    }
    if x in X.Links(B.INIT, done, c) {
      RolesOfLinks(B.INIT, done, x, c);
      assert false;
    }
    if c in X.Links(B.INIT, done, x) {
      OneListener(B.INIT, done, c, l, x);
    }
  }

  lemma {:induction false} WithOnly(ps: seq<Post>, c: Id)
    requires forall i :: 0 <= i < |ps| ==> ps[i].client == c
    ensures With(ps, c) == Envelopes(ps)
  {
    if ps != [] {
      WithOnly(ps[..|ps| - 1], c);
      assert ps == ps[..|ps| - 1] + [ps[|ps| - 1]];
    }
  }

  // ---------------------------------------------------------------------------
  // The theorems.

  /** Under every interleaving, also of interrupted closes: what a client got from
      another is, in order, what that one's loop sent to it; and what a loop has sent,
      to whomever, is what it received, in order, without heartbeats and at most
      without the last. */
  lemma PairsAreFifos(steps: seq<Step>, a: Id, b: Id)
    ensures var s := Exec(INIT, steps);
            && With(Posts(s.got, b), a) == With(Posts(s.sent, a), b)
            && UpToLast(Envelopes(Posts(s.sent, a)), NonHeartbeats(Received(s, a)))
  {
    InitInv();
    ExecInv(INIT, steps);
    var s := Exec(INIT, steps);
    assert PairInv(s, a, b) && LogInv(s, a);
  }

  /** A connector was linked to `l`, and nobody linked to `l` when it was to be closed. */
  ghost predicate ProperLink(s: State, l: Id, c: Id) {
    X.NoDoomedLinks(B.INIT, s.done, l) && c in X.Links(B.INIT, s.done, l)
  }

  /** The relay loop of the client is between two messages. */
  predicate BetweenMessages(s: State, c: Id) {
    B.At(s.b, c).handler.Serving? && At(s, c).Idle?
  }

  /** So a proper link is a FIFO in both directions, whatever is interleaved: all that
      either end got is what the other's loop received, in order, without heartbeats and
      at most without the last; and without that exception while the loop is between two
      messages. */
  lemma LinkIsAFifo(steps: seq<Step>, l: Id, c: Id)
    requires ProperLink(Exec(INIT, steps), l, c)
    ensures var s := Exec(INIT, steps);
            && UpToLast(Envelopes(Posts(s.got, l)), NonHeartbeats(Received(s, c)))
            && UpToLast(Envelopes(Posts(s.got, c)), NonHeartbeats(Received(s, l)))
            && (BetweenMessages(s, c) ==> Envelopes(Posts(s.got, l)) == NonHeartbeats(Received(s, c)))
            && (BetweenMessages(s, l) ==> Envelopes(Posts(s.got, c)) == NonHeartbeats(Received(s, l)))
  {
    InitInv();
    ExecInv(INIT, steps);
    var s := Exec(INIT, steps);
    Mated(s, l, c);
    assert PairInv(s, c, l) && PairInv(s, l, c) && LogInv(s, l) && LogInv(s, c);
  }

  lemma Mated(s: State, l: Id, c: Id)
    requires Inv(s) && ProperLink(s, l, c)
    ensures With(Posts(s.got, l), c) == Envelopes(Posts(s.got, l))
    ensures With(Posts(s.sent, l), c) == Envelopes(Posts(s.sent, l))
    ensures With(Posts(s.got, c), l) == Envelopes(Posts(s.got, c))
    ensures With(Posts(s.sent, c), l) == Envelopes(Posts(s.sent, c))
  {
    assert MetInv(s, l) && MetInv(s, c);
    AllWith(s.done, l, c, Posts(s.got, l), Posts(s.got, c));
    AllWith(s.done, l, c, Posts(s.sent, l), Posts(s.sent, c));
  }

  lemma AllWith(done: seq<B.Step>, l: Id, c: Id, ofL: seq<Post>, ofC: seq<Post>)
    requires X.NoDoomedLinks(B.INIT, done, l) && c in X.Links(B.INIT, done, l)
    requires AllMet(done, l, ofL) && AllMet(done, c, ofC)
    ensures With(ofL, c) == Envelopes(ofL) && With(ofC, l) == Envelopes(ofC)
  {
    forall i | 0 <= i < |ofL| ensures ofL[i].client == c {
      OnlyMates(done, l, c, ofL[i].client);
    }
    forall i | 0 <= i < |ofC| ensures ofC[i].client == l {
      OnlyMates(done, l, c, ofC[i].client);
    }
    WithOnly(ofL, c);
    WithOnly(ofC, l);
  }
}
