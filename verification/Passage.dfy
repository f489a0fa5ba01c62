/** A message that goes all the way: runs of sessions, broker and relay as `Path` asks
    for them exist, for any lanes, clients and messages. */
module Passage {
  import opened Messages
  import opened Framing
  import B = Broker
  import R = Router
  import X = Races
  import S = Session
  import K = SendLock
  import Y = LockRelay
  import P = Path

  // ---------------------------------------------------------------------------
  // One sender, one envelope after the other.

  function SendSteps(e: Envelope): seq<K.Step> {
    [K.Call(0, e), K.Lock(0), K.Encrypt(0), K.Write(0, true), K.Unlock(0)]
  }

  function AllSteps(envs: seq<Envelope>): seq<K.Step> {
    if envs == [] then [] else SendSteps(envs[0]) + AllSteps(envs[1..])
  }

  ghost predicate Rests(s: K.State) {
    s.holder.None? && forall t: nat :: K.At(s, t).Outside?
  }

  lemma OneSend(cd: S.Codec, s: K.State, e: Envelope)
    requires Rests(s) && S.Sendable(cd, e)
    ensures var t := K.Exec(cd, s, SendSteps(e), true);
            Rests(t) && t.order == s.order + [e] && t.written == s.written + [e]
  {
    var r := SendSteps(e);
    var s1 := K.Next(cd, s, r[0], true);
    var s2 := K.Next(cd, s1, r[1], true);
    assert K.At(s2, 0) == K.Locked(e);
    var s3 := K.Next(cd, s2, r[2], true);
    assert K.At(s3, 0) == K.Sealed(e, s.counter);
    var s4 := K.Next(cd, s3, r[3], true);
    var s5 := K.Next(cd, s4, r[4], true);
    assert forall t: nat :: t != 0 ==> K.At(s5, t) == K.At(s, t);
    K.ExecFour(cd, s, r[..4], true);
    K.ExecAppend(cd, s, r[..4], r[4..], true);
    assert r[..4] + r[4..] == r;
    assert K.Exec(cd, s4, r[4..], true) == K.Exec(cd, s5, r[4..][1..], true);
  }

  lemma {:induction false} AllSucceed(envs: seq<Envelope>)
    ensures K.WritesSucceed(AllSteps(envs))
  {
    if envs != [] {
      AllSucceed(envs[1..]);
    }
  }

  lemma {:induction false} AllSends(cd: S.Codec, s: K.State, envs: seq<Envelope>)
    requires Rests(s) && S.AllSendable(cd, envs)
    ensures var t := K.Exec(cd, s, AllSteps(envs), true);
            Rests(t) && t.order == s.order + envs && t.written == s.written + envs
    decreases |envs|
  {
    if envs != [] {
      OneSend(cd, s, envs[0]);
      var t := K.Exec(cd, s, SendSteps(envs[0]), true);
      AllSends(cd, t, envs[1..]);
      K.ExecAppend(cd, s, SendSteps(envs[0]), AllSteps(envs[1..]), true);
      SplitFirst(s.order, envs);
      SplitFirst(s.written, envs);
    }
  }

  lemma SplitFirst(before: seq<Envelope>, envs: seq<Envelope>)
    requires envs != []
    ensures (before + [envs[0]]) + envs[1..] == before + envs
  {
  }

  lemma {:induction false} ReadFrames(ps: seq<Bytes>)
    requires Framable(ps)
    ensures ReadAll(Frames(ps)).0 == ps
  {
    if ps != [] {
      assert Framable(ps[1..]);
      ReadFrames(ps[1..]);
      ReadAllOfFrame(ps[0], Frames(ps[1..]));
    }
  }

  /** Any list of sendable envelopes can be sent and arrive in full. */
  lemma HopOf(x: S.Lane, envs: seq<Envelope>) returns (h: P.Hop)
    requires S.Lawful(x) && S.AllSendable(x.codec, envs) && |envs| < S.A.COUNTERS
    ensures P.Honest(h) && P.Delivered(h) == envs && P.Arrived(h) == envs
  {
    var steps := AllSteps(envs);
    AllSends(x.codec, K.INIT, envs);
    AllSucceed(envs);
    K.SendersAreSequential(x, steps);
    var s := K.Exec(x.codec, K.INIT, steps, true);
    assert s.order == envs && s.written == envs;
    ReadFrames(K.Ciphertexts(x, s));
    h := P.Hop(x, steps, Frames(K.Ciphertexts(x, s)));
  }

  // ---------------------------------------------------------------------------
  // The broker links two clients and relays a message.

  function Locks(bs: seq<B.Step>): seq<Y.Step> {
    if bs == [] then [] else [Y.Lock(bs[0])] + Locks(bs[1..])
  }

  /** The broker steps taken, with all relay loops idle. */
  function Stepped(s: Y.State, b: B.State, bs: seq<B.Step>): Y.State {
    s.(b := b, done := s.done + bs)
  }

  lemma SteppedTwice(s: Y.State, b: B.State, bs: seq<B.Step>, c: B.State)
    requires bs != []
    ensures Stepped(Stepped(s, b, [bs[0]]), c, bs[1..]) == Stepped(s, c, bs)
  {
    assert s.done + [bs[0]] + bs[1..] == s.done + bs;
  }

  lemma {:induction false} LocksRun(s: Y.State, bs: seq<B.Step>)
    requires s.places == map[]
    ensures Y.Exec(s, Locks(bs)) == Stepped(s, B.Exec(s.b, bs), bs)
    decreases |bs|
  {
    if bs == [] {
      assert s.done + [] == s.done;
    } else {
      var b := B.Next(s.b, bs[0]);
      var t := Stepped(s, b, [bs[0]]);
      assert Y.Next(s, Y.Lock(bs[0])) == t;
      assert Locks(bs)[0] == Y.Lock(bs[0]) && Locks(bs)[1..] == Locks(bs[1..]);
      LocksRun(t, bs[1..]);
      SteppedTwice(s, b, bs, B.Exec(b, bs[1..]));
    }
  }

  lemma {:induction false} RunAppend(s: Y.State, a: seq<Y.Step>, b: seq<Y.Step>)
    ensures Y.Exec(s, a + b) == Y.Exec(Y.Exec(s, a), b)
    decreases |a|
  {
    if a == [] {
      assert a + b == b;
    } else {
      assert (a + b)[1..] == a[1..] + b;
      RunAppend(Y.Next(s, a[0]), a[1..], b);
    }
  }

  lemma {:induction false} LinkedHaveAsked(b: B.State, steps: seq<B.Step>, c: nat, l: nat)
    requires c in X.Links(b, steps, l)
    ensures B.HasAsked(B.At(B.Exec(b, steps), c).handler)
    decreases |steps|
  {
    var t := B.Next(b, steps[0]);
    if c in X.Links(t, steps[1..], l) {
      LinkedHaveAsked(t, steps[1..], c, l);
    } else {
      assert B.HasAsked(B.At(t, c).handler);
      AskedStaysAsked(t, steps[1..], c);
    }
  }

  lemma {:induction false} AskedStaysAsked(b: B.State, steps: seq<B.Step>, c: nat)
    requires B.HasAsked(B.At(b, c).handler)
    ensures B.HasAsked(B.At(B.Exec(b, steps), c).handler)
    decreases |steps|
  {
    if steps != [] {
      B.AskedForGood(b, steps[0], c);
      AskedStaysAsked(B.Next(b, steps[0]), steps[1..], c);
    }
  }

  function EarlySteps(l: nat, c: nat, id: string): seq<B.Step> {
    X.Arrival(l, B.Listen(id)) + [B.Ask(l)] + X.Arrival(c, B.Connect(id))
  }

  lemma NoLinkYet(l: nat, c: nat, id: string)
    requires l != c
    ensures X.Links(B.INIT, EarlySteps(l, c, id), l) == []
  {
    var early := EarlySteps(l, c, id);
    var s := X.Waiting(l, c, id);
    var links := X.Links(B.INIT, early, l);
    if links != [] {
      var x := links[0];
      LinkedHaveAsked(B.INIT, early, x, l);
      B.InitInv();
      Y.RolesOfLinks(B.INIT, early, x, l);
      assert false;
    }
  }

  /** Both clients are there, the connector is linked, and properly so. */
  lemma ProperlyLinked(l: nat, c: nat, id: string) returns (s: Y.State, steps: seq<Y.Step>)
    requires l != c
    ensures s == Y.Exec(Y.INIT, steps) && Y.ProperLink(s, l, c)
    ensures s.places == map[] && s.received == map[] && s.sent == map[] && s.got == map[]
    ensures B.At(s.b, c).handler.Serving? && B.PeerOf(s.b.table, c) == Some(l)
  {
    var early := EarlySteps(l, c, id);
    var b := X.Waiting(l, c, id);
    var done := early + [B.Ask(c)];
    Y.ExecSnoc(early, B.Ask(c));
    X.LinksIn(b, c, l, id);
    NoLinkYet(l, c, id);
    Y.LinksSnoc(B.INIT, early, B.Ask(c), l);
    assert X.LinksTo(b, B.Ask(c), l);
    assert X.Links(B.INIT, done, l) == [c];
    X.OnePeerExactly(done, l);
    steps := Locks(done);
    LocksRun(Y.INIT, done);
    s := Y.Exec(Y.INIT, steps);
    assert s.done == done;
  }

  lemma RelaysOne(l: nat, c: nat, id: string, e: Envelope) returns (steps: seq<Y.Step>)
    requires l != c && !e.Heartbeat?
    ensures var s := Y.Exec(Y.INIT, steps);
            && Y.ProperLink(s, l, c) && Y.Received(s, c) == [e]
            && Y.Envelopes(Y.Posts(s.got, l)) == [e]
  {
    var s, early := ProperlyLinked(l, c, id);
    var late := [Y.Receive(c, e), Y.FindPeer(c), Y.Send(c, true)];
    var s1 := Y.Next(s, late[0]);
    assert Y.At(s1, c) == Y.Holding(e) && Y.Received(s1, c) == [e];
    var s2 := Y.Next(s1, late[1]);
    assert Y.At(s2, c) == Y.Sending(e, l);
    var s3 := Y.Next(s2, late[2]);
    assert Y.Posts(s3.got, l) == [Y.Post(c, e)];
    assert Y.Exec(s, late) == Y.Exec(s1, late[1..]);
    assert late[1..][1..] == late[2..] && late[2..][1..] == [];
    assert Y.Exec(s1, late[1..]) == Y.Exec(s2, late[2..]);
    assert Y.Exec(s2, late[2..]) == s3;
    RunAppend(Y.INIT, early, late);
    steps := early + late;
  }

  // ---------------------------------------------------------------------------
  // All the way.

  lemma {:induction false} WeavesAlone(a: seq<Envelope>)
    ensures P.Weaves(a, a, [])
  {
    if a != [] {
      WeavesAlone(a[1..]);
    }
  }

  lemma {:induction false} WeavesAfter(own: seq<Envelope>, a: seq<Envelope>)
    ensures P.Weaves(own + a, a, own)
  {
    if own == [] {
      WeavesAlone(a);
      assert own + a == a;
    } else {
      WeavesAfter(own[1..], a);
      assert (own + a)[1..] == own[1..] + a;
    }
  }

  /** Any message of a connector that can be sent can go through to its listener, after
      any hello and any messages of the broker's own: what `Path` asks of a run is met,
      and the message arrives. */
  lemma MessagesPass(xu: S.Lane, xd: S.Lane, l: nat, c: nat, id: string,
                     hello: seq<Envelope>, own: seq<Envelope>, e: Envelope)
    requires S.Lawful(xu) && S.Lawful(xd) && l != c && !e.Heartbeat? && P.NoStreams(hello) && P.NoStreams(own)
    requires S.AllSendable(xu.codec, hello + [e]) && S.AllSendable(xd.codec, own + [e])
    requires |hello| + 1 < S.A.COUNTERS && |own| + 1 < S.A.COUNTERS
    ensures exists up, steps, down ::
              && P.Honest(up) && P.Honest(down)
              && P.Joins(Y.Exec(Y.INIT, steps), up, hello, c, l, down, own)
              && P.Delivered(up) == hello + [e] && P.Arrived(down) == own + [e]
  {
    var up := HopOf(xu, hello + [e]);
    var down := HopOf(xd, own + [e]);
    var steps := RelaysOne(l, c, id, e);
    WeavesAfter(own, [e]);
    assert P.Joins(Y.Exec(Y.INIT, steps), up, hello, c, l, down, own);
  }
}
