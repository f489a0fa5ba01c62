/** Concurrent senders on one session (pkg/protocol/session.go:69-88): `sendMu` spans
    the encryption, which takes the next nonce, and the write. */
module SendLock {
  import opened Messages
  import opened Framing
  import A = Aead
  import K = KeyExchange
  import S = Session

  /** Where a goroutine stands in `Send`, with its envelope. */
  datatype Place =
    | Outside
    | Calling(env: Envelope)
    | Locked(env: Envelope)
    | Sealed(env: Envelope, nonce: nat)
    | Leaving

  /** `order` lists the envelopes in the order in which they were encrypted or refused;
      `sealed` and `wire` the counters used for sealing and those of the messages
      written, and `written` the envelopes of the latter; `burnt` counts the sealed
      messages that were not written. */
  datatype State = State(
    holder: Option<nat>,
    counter: nat,
    threads: map<nat, Place>,
    order: seq<Envelope>,
    sealed: seq<nat>,
    wire: seq<nat>,
    written: seq<Envelope>,
    burnt: nat)

  const INIT := State(None, 0, map[], [], [], [], [], 0)

  datatype Step =
    | Call(t: nat, env: Envelope)
    | Lock(t: nat)
    | Encrypt(t: nat)
    | Write(t: nat, ok: bool)
    | Unlock(t: nat)

  function At(s: State, t: nat): Place {
    if t in s.threads then s.threads[t] else Outside
  }

  /** `locking` tells whether `sendMu` is there at all. */
  predicate Enabled(s: State, step: Step, locking: bool) {
    match step
    case Call(t, _) => At(s, t).Outside?
    case Lock(t) => At(s, t).Calling? && (locking ==> s.holder.None?)
    case Encrypt(t) => At(s, t).Locked?
    case Write(t, _) => At(s, t).Sealed?
    case Unlock(t) => At(s, t).Leaving?
  }

  function Next(cd: S.Codec, s: State, step: Step, locking: bool): State {
    if !Enabled(s, step, locking) then s
    else match step
      case Call(t, env) => s.(threads := s.threads[t := Calling(env)])
      case Lock(t) => s.(threads := s.threads[t := Locked(At(s, t).env)], holder := Some(t))
      case Encrypt(t) =>
        var env := At(s, t).env;
        var u := s.(order := s.order + [env]);
        if S.TooBig(cd, env) then u.(threads := s.threads[t := Leaving])
        else u.(threads := s.threads[t := Sealed(env, s.counter)],
                counter := s.counter + 1, sealed := s.sealed + [s.counter])
      case Write(t, ok) =>
        var Sealed(env, nonce) := At(s, t);
        var left := s.(threads := s.threads[t := Leaving]);
        if ok && S.Sendable(cd, env) then left.(wire := s.wire + [nonce], written := s.written + [env])
        else left.(burnt := s.burnt + 1)
      case Unlock(t) => s.(threads := s.threads[t := Outside], holder := None)
  }

  function Exec(cd: S.Codec, s: State, steps: seq<Step>, locking: bool): State
    decreases |steps|
  {
    if steps == [] then s else Exec(cd, Next(cd, s, steps[0], locking), steps[1..], locking)
  }

  predicate Inside(pc: Place) {
    pc.Locked? || pc.Sealed? || pc.Leaving?
  }

  ghost predicate CountsUp(ns: seq<nat>) {
    forall i :: 0 <= i < |ns| ==> ns[i] == i
  }

  ghost predicate Increasing(ns: seq<nat>) {
    forall i, j :: 0 <= i < j < |ns| ==> ns[i] < ns[j]
  }

  /** With or without the mutex, no counter is used twice. */
  ghost predicate SealedInv(s: State) {
    |s.sealed| == s.counter && CountsUp(s.sealed)
  }

  /** A message sealed but not yet written. */
  function Pending(s: State): nat {
    if s.holder.Some? && At(s, s.holder.value).Sealed? then 1 else 0
  }

  ghost predicate Inv(s: State) {
    && (forall t: nat :: Inside(At(s, t)) ==> s.holder == Some(t))
    && (forall t: nat :: At(s, t).Sealed? ==> At(s, t).nonce == s.counter - 1)
    && |s.wire| + s.burnt + Pending(s) == s.counter
    && Increasing(s.wire)
    && (forall i :: 0 <= i < |s.wire| ==> s.wire[i] < s.counter - Pending(s))
    && (s.burnt == 0 ==> CountsUp(s.wire))
  }

  lemma StepInv(cd: S.Codec, s: State, step: Step)
    requires Inv(s)
    ensures Inv(Next(cd, s, step, true))
  {
    if Enabled(s, step, true) {
      assert step.Lock? || At(s, step.t).Outside? || At(s, step.t).Calling? || s.holder == Some(step.t);
    }
  }

  lemma {:induction false} ExecInv(cd: S.Codec, s: State, steps: seq<Step>)
    requires Inv(s)
    ensures Inv(Exec(cd, s, steps, true))
    decreases |steps|
  {
    if steps != [] {
      StepInv(cd, s, steps[0]);
      ExecInv(cd, Next(cd, s, steps[0], true), steps[1..]);
    }
  }

  lemma {:induction false} ExecSealed(cd: S.Codec, s: State, steps: seq<Step>, locking: bool)
    requires SealedInv(s)
    ensures SealedInv(Exec(cd, s, steps, locking))
    decreases |steps|
  {
    if steps != [] {
      ExecSealed(cd, Next(cd, s, steps[0], locking), steps[1..], locking);
    }
  }

  /** What the callers and the connection do: no envelope in the band, no failed write. */
  ghost predicate Benign(cd: S.Codec, steps: seq<Step>) {
    forall i :: 0 <= i < |steps| ==> BenignStep(cd, steps[i])
  }

  predicate BenignStep(cd: S.Codec, step: Step) {
    (step.Call? ==> !S.InBand(cd, step.env)) && (step.Write? ==> step.ok)
  }

  /** The envelope in a goroutine's hands is not in the band, and a sealed one fits. */
  predicate PlaceFits(cd: S.Codec, pc: Place) {
    match pc
    case Calling(env) => !S.InBand(cd, env)
    case Locked(env) => !S.InBand(cd, env)
    case Sealed(env, _) => S.Sendable(cd, env)
    case _ => true
  }

  ghost predicate AllFit(cd: S.Codec, s: State) {
    forall t: nat :: PlaceFits(cd, At(s, t))
  }

  lemma StepFits(cd: S.Codec, s: State, step: Step, locking: bool)
    requires AllFit(cd, s) && s.burnt == 0 && BenignStep(cd, step)
    ensures AllFit(cd, Next(cd, s, step, locking)) && Next(cd, s, step, locking).burnt == 0
  {
    var u := Next(cd, s, step, locking);
    assert PlaceFits(cd, At(s, step.t));
    forall t: nat ensures PlaceFits(cd, At(u, t)) {
      assert PlaceFits(cd, At(s, t));
      assert t != step.t ==> At(u, t) == At(s, t);
    }
  }

  lemma {:induction false} BenignBurnsNothing(cd: S.Codec, s: State, steps: seq<Step>, locking: bool)
    requires AllFit(cd, s) && s.burnt == 0 && Benign(cd, steps)
    ensures Exec(cd, s, steps, locking).burnt == 0
    decreases |steps|
  {
    if steps != [] {
      assert BenignStep(cd, steps[0]);
      StepFits(cd, s, steps[0], locking);
      BenignBurnsNothing(cd, Next(cd, s, steps[0], locking), steps[1..], locking);
    }
  }

  /** For any number of senders and any interleaving, the counters on the wire
      increase strictly; they are exactly 0, 1, 2, ... as long as every sealed message
      was written, which is so whenever no envelope is in the band and no write fails. */
  lemma WireIsInCounterOrder(cd: S.Codec, steps: seq<Step>)
    ensures var s := Exec(cd, INIT, steps, true);
            && Increasing(s.wire)
            && (s.burnt == 0 ==> CountsUp(s.wire))
            && (Benign(cd, steps) ==> s.burnt == 0)
  {
    ExecInv(cd, INIT, steps);
    if Benign(cd, steps) {
      BenignBurnsNothing(cd, INIT, steps, true);
    }
  }

  /** Without `sendMu` two senders can put their messages on the wire the wrong way
      round, although nothing fails, whatever they send. */
  lemma MutexIsNeeded(cd: S.Codec, e: Envelope, f: Envelope)
    requires S.Sendable(cd, e) && S.Sendable(cd, f)
    ensures exists steps ::
              var s := Exec(cd, INIT, steps, false);
              Benign(cd, steps) && s.wire == [1, 0] && s.order == [e, f] && s.written == [f, e] && s.burnt == 0
  {
    var a := [Call(0, e), Call(1, f), Lock(0), Lock(1)];
    var b := [Encrypt(0), Encrypt(1), Write(1, true), Write(0, true)];
    BothInside(cd, e, f, a);
    WrongWayRound(cd, Exec(cd, INIT, a, false), e, f, b);
    ExecAppend(cd, INIT, a, b, false);
    assert Benign(cd, a + b);
  }

  lemma BothInside(cd: S.Codec, e: Envelope, f: Envelope, a: seq<Step>)
    requires a == [Call(0, e), Call(1, f), Lock(0), Lock(1)]
    ensures var s := Exec(cd, INIT, a, false);
            At(s, 0) == Locked(e) && At(s, 1) == Locked(f) && s == INIT.(holder := s.holder, threads := s.threads)
  {
    ExecFour(cd, INIT, a, false);
  }

  lemma WrongWayRound(cd: S.Codec, s: State, e: Envelope, f: Envelope, b: seq<Step>)
    requires S.Sendable(cd, e) && S.Sendable(cd, f)
    requires At(s, 0) == Locked(e) && At(s, 1) == Locked(f) && s == INIT.(holder := s.holder, threads := s.threads)
    requires b == [Encrypt(0), Encrypt(1), Write(1, true), Write(0, true)]
    ensures var t := Exec(cd, s, b, false);
            t.wire == [1, 0] && t.order == [e, f] && t.written == [f, e] && t.burnt == 0
  {
    ExecFour(cd, s, b, false);
    var s2 := Next(cd, Next(cd, s, b[0], false), b[1], false);
    assert At(s2, 0) == Sealed(e, 0) && At(s2, 1) == Sealed(f, 1) && s2.order == [e, f];
    var s4 := Next(cd, Next(cd, s2, b[2], false), b[3], false);
    assert s4.wire == [1, 0] && s4.written == [f, e];
  }

  lemma ExecFour(cd: S.Codec, s: State, r: seq<Step>, locking: bool)
    requires |r| == 4
    ensures Exec(cd, s, r, locking) ==
            var s2 := Next(cd, Next(cd, s, r[0], locking), r[1], locking);
            Next(cd, Next(cd, s2, r[2], locking), r[3], locking)
  {
    var s1 := Next(cd, s, r[0], locking);
    var s2 := Next(cd, s1, r[1], locking);
    var s3 := Next(cd, s2, r[2], locking);
    assert Exec(cd, s, r, locking) == Exec(cd, s1, r[1..], locking);
    assert Exec(cd, s1, r[1..], locking) == Exec(cd, s2, r[1..][1..], locking);
    assert r[1..][1..] == r[2..];
    assert Exec(cd, s2, r[2..], locking) == Exec(cd, s3, r[2..][1..], locking);
    assert r[2..][1..] == r[3..];
    assert Exec(cd, s3, r[3..], locking) == Exec(cd, Next(cd, s3, r[3], locking), r[3..][1..], locking);
  }

  lemma {:induction false} ExecAppend(cd: S.Codec, s: State, a: seq<Step>, b: seq<Step>, locking: bool)
    ensures Exec(cd, s, a + b, locking) == Exec(cd, Exec(cd, s, a, locking), b, locking)
    decreases |a|
  {
    if a == [] {
      assert a + b == b;
    } else {
      assert (a + b)[1..] == a[1..] + b;
      ExecAppend(cd, Next(cd, s, a[0], locking), a[1..], b, locking);
    }
  }

  // ---------------------------------------------------------------------------
  // The bytes of concurrent senders.

  /** The messages written, under the key of lane `x`. */
  function Ciphertexts(x: S.Lane, s: State): seq<Bytes>
    requires |s.wire| == |s.written| && forall i :: 0 <= i < |s.wire| ==> s.wire[i] < A.COUNTERS
  {
    seq(|s.wire|, i requires 0 <= i < |s.wire| =>
      A.Sealed(x.cipher, x.key, s.wire[i], x.codec.marshal(s.written[i])))
  }

  /** The message of the holder of the lock that is sealed and not yet written. */
  function InHand(x: S.Lane, s: State): seq<Bytes>
    requires s.counter <= A.COUNTERS
  {
    if s.holder.Some? && At(s, s.holder.value).Sealed? && At(s, s.holder.value).nonce < A.COUNTERS
       && S.Sendable(x.codec, At(s, s.holder.value).env)
    then [A.Sealed(x.cipher, x.key, At(s, s.holder.value).nonce, x.codec.marshal(At(s, s.holder.value).env))]
    else []
  }

  /** Nothing is lost between the order of encryption and the wire. */
  ghost predicate Joined(x: S.Lane, s: State) {
    && Inv(s) && |s.order| < A.COUNTERS && |s.wire| == |s.written|
    && s.counter == S.CounterAfter(x, 0, s.order) <= |s.order|
    && Ciphertexts(x, s) + InHand(x, s) == S.Wire(x, 0, s.order)
  }

  ghost predicate WritesSucceed(steps: seq<Step>) {
    forall i :: 0 <= i < |steps| ==> steps[i].Write? ==> steps[i].ok
  }

  lemma EncryptJoined(x: S.Lane, s: State, t: nat)
    requires Joined(x, s) && Enabled(s, Encrypt(t), true) && |s.order| + 1 < A.COUNTERS
    ensures Joined(x, Next(x.codec, s, Encrypt(t), true))
  {
    var env, u := At(s, t).env, Next(x.codec, s, Encrypt(t), true);
    StepInv(x.codec, s, Encrypt(t));
    assert s.holder == Some(t);
    S.WireSnoc(x, 0, s.order, env);
    assert Ciphertexts(x, u) == Ciphertexts(x, s) && InHand(x, s) == [];
    assert S.Wire(x, s.counter, [env]) == InHand(x, u) by {
      assert S.Wire(x, s.counter, []) == [] && S.Wire(x, s.counter + 1, []) == [];
    }
  }

  lemma WriteJoined(x: S.Lane, s: State, t: nat)
    requires Joined(x, s) && Enabled(s, Write(t, true), true)
    ensures Joined(x, Next(x.codec, s, Write(t, true), true))
  {
    StepInv(x.codec, s, Write(t, true));
    var u := Next(x.codec, s, Write(t, true), true);
    assert s.holder == Some(t);
    assert InHand(x, u) == [];
    assert Ciphertexts(x, u) == Ciphertexts(x, s) + InHand(x, s);
  }

  lemma StepJoined(x: S.Lane, s: State, step: Step)
    requires Joined(x, s) && (step.Write? ==> step.ok)
    requires |Next(x.codec, s, step, true).order| < A.COUNTERS
    ensures Joined(x, Next(x.codec, s, step, true))
  {
    if Enabled(s, step, true) {
      match step
      case Encrypt(t) => EncryptJoined(x, s, t);
      case Write(t, _) => WriteJoined(x, s, t);
      case _ =>
        StepInv(x.codec, s, step);
        var u := Next(x.codec, s, step, true);
        assert Ciphertexts(x, u) == Ciphertexts(x, s);
        assert InHand(x, u) == InHand(x, s);
    }
  }

  lemma {:induction false} OrderGrows(cd: S.Codec, s: State, steps: seq<Step>)
    ensures |s.order| <= |Exec(cd, s, steps, true).order|
    decreases |steps|
  {
    if steps != [] {
      OrderGrows(cd, Next(cd, s, steps[0], true), steps[1..]);
    }
  }

  lemma {:induction false} ExecJoined(x: S.Lane, s: State, steps: seq<Step>)
    requires Joined(x, s) && WritesSucceed(steps) && |Exec(x.codec, s, steps, true).order| < A.COUNTERS
    ensures Joined(x, Exec(x.codec, s, steps, true))
    decreases |steps|
  {
    if steps != [] {
      var t := Next(x.codec, s, steps[0], true);
      OrderGrows(x.codec, t, steps[1..]);
      StepJoined(x, s, steps[0]);
      ExecJoined(x, t, steps[1..]);
    }
  }

  /** Any number of concurrent senders are one sender: at every moment of every run
      whose writes succeed, when nobody is between encryption and write, the messages
      written are those of sending, one after the other, the envelopes in the order of
      their encryption; and if these are all sendable, a receiver gets exactly that
      list. */
  lemma SendersAreSequential(x: S.Lane, steps: seq<Step>)
    requires S.Lawful(x) && WritesSucceed(steps) && |Exec(x.codec, INIT, steps, true).order| < A.COUNTERS
    requires var s := Exec(x.codec, INIT, steps, true);
             forall t: nat :: !At(s, t).Sealed?
    ensures var s := Exec(x.codec, INIT, steps, true);
            && |s.wire| == |s.written| && (forall i :: 0 <= i < |s.wire| ==> s.wire[i] < A.COUNTERS)
            && Ciphertexts(x, s) == S.Wire(x, 0, s.order)
            && (S.AllSendable(x.codec, s.order) ==>
                  Framable(Ciphertexts(x, s)) && S.Received(x, 0, Frames(Ciphertexts(x, s))) == s.order)
  {
    assert Joined(x, INIT);
    ExecJoined(x, INIT, steps);
    var s := Exec(x.codec, INIT, steps, true);
    assert InHand(x, s) == [];
    if S.AllSendable(x.codec, s.order) {
      S.SessionRoundTrip(x, s.order);
    }
  }

  // ---------------------------------------------------------------------------
  // Whatever becomes of the writes.

  /** The message of counter `n` for `env` is one of those of sending the envelopes in
      the order of their encryption. */
  ghost predicate InWire(x: S.Lane, order: seq<Envelope>, n: nat, env: Envelope)
    requires |order| < A.COUNTERS
  {
    n < A.COUNTERS && A.Sealed(x.cipher, x.key, n, x.codec.marshal(env)) in S.Wire(x, 0, order)
  }

  /** Every message written or about to be is one of those. */
  ghost predicate Traced(x: S.Lane, s: State) {
    && |s.order| < A.COUNTERS && |s.wire| == |s.written|
    && s.counter == S.CounterAfter(x, 0, s.order) <= |s.order|
    && (forall i :: 0 <= i < |s.wire| ==> InWire(x, s.order, s.wire[i], s.written[i]))
    && (forall t: nat :: At(s, t).Sealed? && S.Sendable(x.codec, At(s, t).env) ==>
          InWire(x, s.order, At(s, t).nonce, At(s, t).env))
  }

  lemma WireGrows(x: S.Lane, order: seq<Envelope>, env: Envelope)
    requires |order| + 1 < A.COUNTERS
    ensures forall n: nat, e :: InWire(x, order, n, e) ==> InWire(x, order + [env], n, e)
    ensures S.Sendable(x.codec, env) ==> InWire(x, order + [env], S.CounterAfter(x, 0, order), env)
    ensures S.CounterAfter(x, 0, order + [env]) ==
            S.CounterAfter(x, 0, order) + if S.TooBig(x.codec, env) then 0 else 1
  {
    S.WireSnoc(x, 0, order, env);
    var n := S.CounterAfter(x, 0, order);
    assert S.Wire(x, n + 1, []) == [];
    if S.Sendable(x.codec, env) {
      assert S.Wire(x, n, [env]) == [A.Sealed(x.cipher, x.key, n, x.codec.marshal(env))];
    }
  }

  lemma EncryptTraced(x: S.Lane, s: State, t: nat, locking: bool)
    requires Traced(x, s) && Enabled(s, Encrypt(t), locking) && |s.order| + 1 < A.COUNTERS
    ensures Traced(x, Next(x.codec, s, Encrypt(t), locking))
  {
    WireGrows(x, s.order, At(s, t).env);
    var u := Next(x.codec, s, Encrypt(t), locking);
    forall r: nat | At(u, r).Sealed? && S.Sendable(x.codec, At(u, r).env)
      ensures InWire(x, u.order, At(u, r).nonce, At(u, r).env)
    {
      if r != t {
        assert At(u, r) == At(s, r);
      }
    }
  }

  lemma StepTraced(x: S.Lane, s: State, step: Step, locking: bool)
    requires Traced(x, s) && |Next(x.codec, s, step, locking).order| < A.COUNTERS
    ensures Traced(x, Next(x.codec, s, step, locking))
  {
    if Enabled(s, step, locking) {
      if step.Encrypt? {
        EncryptTraced(x, s, step.t, locking);
      } else {
        var u := Next(x.codec, s, step, locking);
        assert u.order == s.order && u.counter == s.counter;
        assert forall r: nat :: At(u, r).Sealed? ==> At(u, r) == At(s, r);
      }
    }
  }

  lemma {:induction false} ExecTraced(x: S.Lane, s: State, steps: seq<Step>)
    requires Traced(x, s) && |Exec(x.codec, s, steps, true).order| < A.COUNTERS
    ensures Traced(x, Exec(x.codec, s, steps, true))
    decreases |steps|
  {
    if steps != [] {
      var t := Next(x.codec, s, steps[0], true);
      OrderGrows(x.codec, t, steps[1..]);
      StepTraced(x, s, steps[0], true);
      ExecTraced(x, t, steps[1..]);
    }
  }

  /** The first `n` counters on the wire are 0, 1, ..., n - 1. */
  ghost predicate Consecutive(ns: seq<nat>, n: nat) {
    n <= |ns| && forall i :: 0 <= i < n ==> ns[i] == i
  }

  lemma NextInLine(ns: seq<nat>, n: nat, i: nat)
    requires Increasing(ns) && Consecutive(ns, n) && i < |ns| && ns[i] == n
    ensures i == n && Consecutive(ns, n + 1)
  {
    if n < |ns| {
      assert n == 0 || ns[n - 1] < ns[n];
      assert n <= ns[n];
    }
  }

  lemma SealedSpends(x: S.Lane, n: nat, p: Bytes)
    requires n + 1 < A.COUNTERS
    ensures A.Spent(n, A.Sealed(x.cipher, x.key, n, p)) == n + 1
  {
    assert A.NONCE_SIZE <= |A.Sealed(x.cipher, x.key, n, p)|;
  }

  /** A receiver that has taken the first `n` messages takes the next one or none. */
  lemma NextWritten(x: S.Lane, s: State, n: nat, c: Bytes)
    requires S.Lawful(x) && |s.wire| == |s.written| && Increasing(s.wire)
    requires forall i :: 0 <= i < |s.wire| ==> s.wire[i] < A.COUNTERS
    requires Consecutive(s.wire, n) && |s.wire| < A.COUNTERS && c in Ciphertexts(x, s)
    requires A.Opened(x.cipher, x.key, n, c).Ok?
    ensures Consecutive(s.wire, n + 1) && A.Spent(n, c) == n + 1
    ensures A.Opened(x.cipher, x.key, n, c) == Ok(x.codec.marshal(s.written[n]))
  {
    var i :| 0 <= i < |s.wire| && Ciphertexts(x, s)[i] == c;
    A.OpenedSealed(x.cipher, x.key, n, s.wire[i], x.codec.marshal(s.written[i]));
    assert s.wire[i] == n;
    NextInLine(s.wire, n, i);
    SealedSpends(x, n, x.codec.marshal(s.written[i]));
  }

  lemma {:induction false} TakenIsWritten(x: S.Lane, s: State, n: nat, cs: seq<Bytes>)
    requires S.Lawful(x) && |s.wire| == |s.written| && Increasing(s.wire)
    requires forall i :: 0 <= i < |s.wire| ==> s.wire[i] < A.COUNTERS
    requires Consecutive(s.wire, n) && |s.wire| < A.COUNTERS
    requires forall c :: c in cs && S.Opens(x, c) ==> c in Ciphertexts(x, s)
    ensures S.Taken(x, n, cs) <= s.written[n..]
    decreases |cs|
  {
    if cs != [] && A.Opened(x.cipher, x.key, n, cs[0]).Ok? {
      assert S.Opens(x, cs[0]);
      NextWritten(x, s, n, cs[0]);
      TakenIsWritten(x, s, n + 1, cs[1..]);
      S.PrefixCons(s.written, n, S.Taken(x, n + 1, cs[1..]));
    }
  }

  /** Whatever an attacker makes of the bytes of concurrent senders without forging a
      message, and whichever writes fail, the receiver gets a prefix of the envelopes
      whose write succeeded, and of those sent before the first one in the band in the
      order of their encryption. */
  lemma TamperedSendersAreAPrefix(x: S.Lane, steps: seq<Step>, bytes: Bytes)
    requires S.Lawful(x) && |Exec(x.codec, INIT, steps, true).order| < A.COUNTERS
    requires var s := Exec(x.codec, INIT, steps, true);
             && |s.wire| == |s.written| && (forall i :: 0 <= i < |s.wire| ==> s.wire[i] < A.COUNTERS)
             && forall c :: c in ReadAll(bytes).0 && S.Opens(x, c) ==> c in Ciphertexts(x, s)
    ensures S.Received(x, 0, bytes) <= Exec(x.codec, INIT, steps, true).written
    ensures S.Received(x, 0, bytes) <= S.Heard(x.codec, Exec(x.codec, INIT, steps, true).order)
  {
    var s := Exec(x.codec, INIT, steps, true);
    assert Traced(x, INIT);
    ExecTraced(x, INIT, steps);
    ExecInv(x.codec, INIT, steps);
    forall c | c in ReadAll(bytes).0 && S.Opens(x, c) ensures c in S.Wire(x, 0, s.order) {
      var i :| 0 <= i < |s.wire| && Ciphertexts(x, s)[i] == c;
      assert InWire(x, s.order, s.wire[i], s.written[i]);
    }
    S.TamperedStreamIsAPrefix(x, s.order, bytes);
    S.ReceivedIsTaken(x, 0, bytes);
    TakenIsWritten(x, s, 0, ReadAll(bytes).0);
  }

  // ---------------------------------------------------------------------------
  // Both directions of a session.

  /** A use of a key with a nonce. */
  datatype Use = Use(key: Bytes, nonce: Bytes)

  /** The uses of one end's sending key in a run of its senders. */
  function Uses(key: Bytes, counters: seq<nat>): seq<Use>
    requires forall i :: 0 <= i < |counters| ==> counters[i] < A.COUNTERS
  {
    seq(|counters|, i requires 0 <= i < |counters| => Use(key, A.Nonce(counters[i])))
  }

  ghost predicate Distinct(us: seq<Use>) {
    forall i, j :: 0 <= i < j < |us| ==> us[i] != us[j]
  }

  /** Two ends that derived their keys from each other's public key, each sealing at
      most 2^64 messages from any number of goroutines: no key is ever used twice with
      the same nonce, in either direction, exactly when their public keys differ or
      one of them stays silent. */
  lemma NoNonceReuse(su: K.Suite, cd: S.Codec, a: Bytes, b: Bytes, stepsA: seq<Step>, stepsB: seq<Step>)
    requires K.Lawful(su) && su.ecdh(a, su.publicOf(b)).Some? && su.ecdh(b, su.publicOf(a)).Some?
    requires Exec(cd, INIT, stepsA, true).counter <= A.COUNTERS
    requires Exec(cd, INIT, stepsB, true).counter <= A.COUNTERS
    ensures var sealedA, sealedB := Exec(cd, INIT, stepsA, true).sealed, Exec(cd, INIT, stepsB, true).sealed;
            && (forall i :: 0 <= i < |sealedA| ==> sealedA[i] < A.COUNTERS)
            && (forall i :: 0 <= i < |sealedB| ==> sealedB[i] < A.COUNTERS)
            && (Distinct(Uses(K.Derive(su, a, su.publicOf(b)).value.send, sealedA) +
                         Uses(K.Derive(su, b, su.publicOf(a)).value.send, sealedB))
                <==> su.publicOf(a) != su.publicOf(b) || sealedA == [] || sealedB == [])
  {
    ExecSealed(cd, INIT, stepsA, true);
    ExecSealed(cd, INIT, stepsB, true);
    var sealedA, sealedB := Exec(cd, INIT, stepsA, true).sealed, Exec(cd, INIT, stepsB, true).sealed;
    var keyA, keyB := K.Derive(su, a, su.publicOf(b)).value.send, K.Derive(su, b, su.publicOf(a)).value.send;
    SendingKeys(su, a, b);
    var ua, ub := Uses(keyA, sealedA), Uses(keyB, sealedB);
    UsesDistinct(keyA, sealedA);
    UsesDistinct(keyB, sealedB);
    if su.publicOf(a) == su.publicOf(b) && sealedA != [] && sealedB != [] {
      assert ua[0] == ub[0];
      assert (ua + ub)[0] == (ua + ub)[|ua|];
    } else {
      DistinctUnion(ua, ub);
    }
  }

  lemma SendingKeys(su: K.Suite, a: Bytes, b: Bytes)
    requires K.Lawful(su) && su.ecdh(a, su.publicOf(b)).Some? && su.ecdh(b, su.publicOf(a)).Some?
    ensures K.Derive(su, a, su.publicOf(b)).value.send == K.Derive(su, b, su.publicOf(a)).value.send
            <==> su.publicOf(a) == su.publicOf(b)
  {
    K.KeysAreComplementary(su, a, b);
  }

  lemma UsesDistinct(key: Bytes, counters: seq<nat>)
    requires CountsUp(counters) && |counters| <= A.COUNTERS
    ensures Distinct(Uses(key, counters))
  {
    var us := Uses(key, counters);
    forall i, j | 0 <= i < j < |us| ensures us[i] != us[j] {
      if A.Nonce(i) == A.Nonce(j) {
        A.NonceInjective(i, j);
      }
    }
  }

  lemma DistinctUnion(us: seq<Use>, vs: seq<Use>)
    requires Distinct(us) && Distinct(vs)
    requires forall i, j :: 0 <= i < |us| && 0 <= j < |vs| ==> us[i] != vs[j]
    ensures Distinct(us + vs)
  {
  }
}
