/** The way of a message from one end of a tunnel to the other: the session of the
    sending end, the broker's relay loop, and the session of the receiving end, composed
    from what is proved of each. */
module Path {
  import opened Messages
  import opened Framing
  import S = Session
  import K = SendLock
  import Y = LockRelay

  /** `all` is an interleaving of `a` and `b`. */
  ghost predicate Weaves(all: seq<Envelope>, a: seq<Envelope>, b: seq<Envelope>) {
    if all == [] then a == [] && b == []
    else
      || (a != [] && a[0] == all[0] && Weaves(all[1..], a[1..], b))
      || (b != [] && b[0] == all[0] && Weaves(all[1..], a, b[1..]))
  }

  /** Messages of the broker's own: acks of registration, heartbeats, disconnects. */
  ghost predicate NoStreams(own: seq<Envelope>) {
    forall i :: 0 <= i < |own| ==>
      !own[i].OpenStream? && !own[i].OpenStreamAck? && !own[i].Data? && !own[i].CloseStream?
  }

  /** They do not disturb the messages of a stream. */
  lemma {:induction false} WeavingKeepsStreams(all: seq<Envelope>, a: seq<Envelope>, own: seq<Envelope>, id: StreamId)
    requires Weaves(all, a, own) && NoStreams(own)
    ensures About(all, id) == About(a, id)
  {
    if all != [] {
      if a != [] && a[0] == all[0] && Weaves(all[1..], a[1..], own) {
        WeavingKeepsStreams(all[1..], a[1..], own, id);
      } else {
        WeavingKeepsStreams(all[1..], a, own[1..], id);
      }
    }
  }

  /** One direction of a session, with concurrent senders on one side and, on the other,
      a receiver of whatever bytes arrive. */
  datatype Hop = Hop(lane: S.Lane, senders: seq<K.Step>, arrived: Bytes)

  ghost function After(h: Hop): K.State {
    K.Exec(h.lane.codec, K.INIT, h.senders, true)
  }

  /** No message is forged: what opens was written. Writes may fail. */
  ghost predicate Honest(h: Hop) {
    && S.Lawful(h.lane) && |After(h).order| < S.A.COUNTERS
    && |After(h).wire| == |After(h).written|
    && (forall i :: 0 <= i < |After(h).wire| ==> After(h).wire[i] < S.A.COUNTERS)
    && forall c :: c in ReadAll(h.arrived).0 && S.Opens(h.lane, c) ==> c in K.Ciphertexts(h.lane, After(h))
  }

  /** What the receiver gets before its first error. */
  function Arrived(h: Hop): seq<Envelope> {
    S.Received(h.lane, 0, h.arrived)
  }

  /** The envelopes whose write succeeded, in that order. */
  ghost function Delivered(h: Hop): seq<Envelope> {
    After(h).written
  }

  /** A hop is a FIFO that may lose the end. */
  lemma HopIsAFifo(h: Hop)
    requires Honest(h)
    ensures Arrived(h) <= Delivered(h)
  {
    K.TamperedSendersAreAPrefix(h.lane, h.senders, h.arrived);
  }

  lemma RelayedStreams(sent: seq<Envelope>, received: seq<Envelope>, id: StreamId)
    requires Y.UpToLast(sent, NonHeartbeats(received))
    ensures About(sent, id) <= About(received, id)
  {
    AboutPrefix(sent, NonHeartbeats(received), id);
    AboutNonHeartbeats(received, id);
  }

  /** The two ends of a proper link, in either direction. */
  ghost predicate Ends(s: Y.State, from: nat, to: nat) {
    Y.ProperLink(s, from, to) || Y.ProperLink(s, to, from)
  }

  lemma {:induction false} NothingAbout(own: seq<Envelope>, id: StreamId)
    requires NoStreams(own)
    ensures About(own, id) == []
  {
    if own != [] {
      NothingAbout(own[1..], id);
    }
  }

  lemma AfterHello(hello: seq<Envelope>, rest: seq<Envelope>, id: StreamId)
    requires NoStreams(hello)
    ensures About(hello + rest, id) == About(rest, id)
  {
    AboutAppend(hello, rest, id);
    NothingAbout(hello, id);
    assert [] + About(rest, id) == About(rest, id);
  }

  /** The broker in between. What arrives on the first hop begins with the messages that
      are read before the relay loop of `from` starts, the authentication and the request
      of a role, and goes on with what the loop takes. What the loop sends to `to`, woven
      with messages of the broker's own, goes out on the second hop. */
  ghost predicate Joins(s: Y.State, up: Hop, hello: seq<Envelope>, from: nat, to: nat, down: Hop, own: seq<Envelope>) {
    && Ends(s, from, to) && NoStreams(hello) && NoStreams(own)
    && hello + Y.Received(s, from) <= Arrived(up)
    && Weaves(Delivered(down), Y.Envelopes(Y.Posts(s.got, to)), own)
  }

  /** From one end of a tunnel to the other, in either direction: the messages of a
      stream that arrive are a prefix of those that were sent, in order and none twice,
      for any number of concurrent senders at the end and at the broker, any lock-level
      interleaving of the broker, any failed writes, and whatever is done to the bytes
      short of forging a message. */
  lemma PathIsAFifo(
    up: Hop, hello: seq<Envelope>, steps: seq<Y.Step>, from: nat, to: nat, down: Hop, own: seq<Envelope>, id: StreamId)
    requires Honest(up) && Honest(down) && Joins(Y.Exec(Y.INIT, steps), up, hello, from, to, down, own)
    ensures About(Arrived(down), id) <= About(Delivered(up), id)
  {
    var s := Y.Exec(Y.INIT, steps);
    var got := Y.Envelopes(Y.Posts(s.got, to));
    HopIsAFifo(up);
    HopIsAFifo(down);
    if Y.ProperLink(s, from, to) {
      Y.LinkIsAFifo(steps, from, to);
    } else {
      Y.LinkIsAFifo(steps, to, from);
    }
    AboutPrefix(Arrived(down), Delivered(down), id);
    WeavingKeepsStreams(Delivered(down), got, own, id);
    RelayedStreams(got, Y.Received(s, from), id);
    AfterHello(hello, Y.Received(s, from), id);
    AboutPrefix(hello + Y.Received(s, from), Arrived(up), id);
    AboutPrefix(Arrived(up), Delivered(up), id);
  }

  /** In the terms of the two ends: if one end has sent `sent` after its hello, and the
      message loop of the other has taken `taken` off its session after the broker's
      answer, then per stream the latter is a prefix of the former. */
  lemma PathCarries(
    up: Hop, hello: seq<Envelope>, steps: seq<Y.Step>, from: nat, to: nat, down: Hop, own: seq<Envelope>,
    sent: seq<Envelope>, answer: seq<Envelope>, taken: seq<Envelope>, id: StreamId)
    requires Honest(up) && Honest(down) && Joins(Y.Exec(Y.INIT, steps), up, hello, from, to, down, own)
    requires Delivered(up) == hello + sent && NoStreams(answer) && answer + taken <= Arrived(down)
    ensures About(taken, id) <= About(sent, id)
  {
    PathIsAFifo(up, hello, steps, from, to, down, own, id);
    AfterHello(hello, sent, id);
    AfterHello(answer, taken, id);
    AboutPrefix(answer + taken, Arrived(down), id);
  }
}
