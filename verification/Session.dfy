/** Encrypted sessions (pkg/protocol/session.go) and how they come about
    (pkg/protocol/handshake.go). Protobuf marshalling is a parameter. */
module Session {
  import opened Messages
  import opened Framing
  import A = Aead
  import K = KeyExchange
  import E = Encoding
  import N = Counting

  /** The room left for a marshalled envelope by the nonce and the tag. */
  const OVERHEAD := A.NONCE_SIZE + A.TAG_SIZE

  /** What protobuf adds at most to the payload of a Data envelope: three tags, two
      lengths and a stream id. */
  const DATA_OVERHEAD := 18

  datatype Codec = Codec(marshal: Envelope -> Bytes, unmarshal: Bytes -> Option<Envelope>)

  ghost predicate Faithful(cd: Codec) {
    && (forall e :: cd.unmarshal(cd.marshal(e)) == Some(e))
    && (forall id, p :: |cd.marshal(Data(id, p))| <= |p| + DATA_OVERHEAD)
    && (forall k :: |cd.marshal(Handshake(k))| <= |k| + DATA_OVERHEAD)
  }

  /** The laws can be met: `Encoding.Encode` writes a tag and the fields, and its
      inverse is whatever envelope has the given encoding. */
  lemma FaithfulCodecExists()
    ensures exists cd :: Faithful(cd)
  {
    var cd := Codec(E.Encode, b => if exists e :: E.Encode(e) == b then var e :| E.Encode(e) == b; Some(e) else None);
    forall e ensures cd.unmarshal(cd.marshal(e)) == Some(e) {
      var b := E.Encode(e);
      var f :| E.Encode(f) == b && cd.unmarshal(b) == Some(f);
      E.EncodeInjective(e, f);
    }
    assert Faithful(cd);
  }

  /** One direction of a session. */
  datatype Lane = Lane(cipher: A.Cipher, codec: Codec, key: Bytes)

  ghost predicate Lawful(x: Lane) {
    A.Lawful(x.cipher) && Faithful(x.codec)
  }

  /** `Encrypt` refuses the envelope. */
  predicate TooBig(cd: Codec, e: Envelope) {
    MAX_FRAME_SIZE < |cd.marshal(e)|
  }

  /** `Encrypt` accepts the envelope but `WriteFrame` refuses the outcome. */
  predicate InBand(cd: Codec, e: Envelope) {
    MAX_FRAME_SIZE - OVERHEAD < |cd.marshal(e)| <= MAX_FRAME_SIZE
  }

  predicate Sendable(cd: Codec, e: Envelope) {
    |cd.marshal(e)| <= MAX_FRAME_SIZE - OVERHEAD
  }

  /** Data envelopes of the pumps, whose chunks are at most 32 KiB, stay below the
      band. */
  lemma PumpedDataIsSendable(cd: Codec, id: StreamId, chunk: Bytes)
    requires Faithful(cd) && |chunk| <= 32 * 1024
    ensures Sendable(cd, Data(id, chunk))
  {
    assert |cd.marshal(Data(id, chunk))| <= |chunk| + DATA_OVERHEAD;
  }

  /** Lengths and counters are laid out in big-endian: their order as numbers is that of
      their bytes. */
  lemma BigEndian(a: nat, b: nat)
    requires a < b < 0x1_0000_0000
    ensures K.Less(U32(a), U32(b))
  {
    var x, y := U32(a), U32(b);
    U32RoundTrip(a);
    U32RoundTrip(b);
    FirstDifference(x, y);
  }

  lemma FirstDifference(x: Bytes, y: Bytes)
    requires |x| == 4 && |y| == 4 && FromU32(x) < FromU32(y)
    ensures K.Less(x, y)
  {
    var i := if x[0] != y[0] then 0 else if x[1] != y[1] then 1 else if x[2] != y[2] then 2 else 3;
    assert x[i] < y[i];
    assert x[..i] == y[..i];
    assert K.Precedes(x, y, i);
    K.LessIsLexicographic(x, y);
  }

  lemma NoncesInOrder(a: nat, b: nat)
    requires a < b < A.COUNTERS
    ensures K.Less(A.Nonce(a), A.Nonce(b))
  {
    var ha, hb, la, lb := a / 0x1_0000_0000, b / 0x1_0000_0000, a % 0x1_0000_0000, b % 0x1_0000_0000;
    if ha < hb {
      BigEndian(ha, hb);
      LessInside([0, 0, 0, 0], U32(ha), U32(hb), U32(la), U32(lb));
    } else {
      BigEndian(la, lb);
      LessInside([0, 0, 0, 0] + U32(ha), U32(la), U32(lb), [], []);
      assert A.Nonce(a) == ([0, 0, 0, 0] + U32(ha)) + U32(la) + [];
      assert A.Nonce(b) == ([0, 0, 0, 0] + U32(hb)) + U32(lb) + [];
    }
  }

  lemma LessInside(front: Bytes, x: Bytes, y: Bytes, endX: Bytes, endY: Bytes)
    requires |x| == |y| && K.Less(x, y)
    ensures K.Less(front + x + endX, front + y + endY)
  {
    K.LessIsLexicographic(x, y);
    var i :| K.Precedes(x, y, i);
    var a, b := front + x + endX, front + y + endY;
    assert a[..|front| + i] == front + x[..i] && b[..|front| + i] == front + y[..i];
    assert K.Precedes(a, b, |front| + i);
    K.LessIsLexicographic(a, b);
  }

  // ---------------------------------------------------------------------------
  // A list of sends, and what a receiver makes of it.

  /** The messages that sending `envs` from counter `n` puts on the wire. */
  function Wire(x: Lane, n: nat, envs: seq<Envelope>): seq<Bytes>
    requires n + |envs| <= A.COUNTERS
    decreases |envs|
  {
    if envs == [] then []
    else if TooBig(x.codec, envs[0]) then Wire(x, n, envs[1..])
    else if InBand(x.codec, envs[0]) then Wire(x, n + 1, envs[1..])
    else [A.Sealed(x.cipher, x.key, n, x.codec.marshal(envs[0]))] + Wire(x, n + 1, envs[1..])
  }

  /** The sender's counter after those sends. */
  function CounterAfter(x: Lane, n: nat, envs: seq<Envelope>): nat
    decreases |envs|
  {
    if envs == [] then n
    else CounterAfter(x, if TooBig(x.codec, envs[0]) then n else n + 1, envs[1..])
  }

  /** The counter of a receiver that has been handed messages at counter `n`. */
  function ReceiverCounter(n: nat, cs: seq<Bytes>): (m: nat)
    requires n < A.COUNTERS
    ensures m < A.COUNTERS
    decreases |cs|
  {
    if cs == [] then n else ReceiverCounter(A.Spent(n, cs[0]), cs[1..])
  }

  /** The envelopes a receiver at counter `n` gets from messages until an error. */
  function Taken(x: Lane, n: nat, cs: seq<Bytes>): seq<Envelope>
    requires n < A.COUNTERS
    decreases |cs|
  {
    if cs == [] then []
    else match A.Opened(x.cipher, x.key, n, cs[0])
      case Err(_) => []
      case Ok(p) =>
        match x.codec.unmarshal(p)
        case None => []
        case Some(e) => [e] + Taken(x, A.Spent(n, cs[0]), cs[1..])
  }

  datatype ReceiveError = BadFrame(frame: Framing.Error) | BadMessage(aead: A.Error) | BadEnvelope

  /** One `ReceiveRaw` of a receiver at counter `n` from the bytes at hand: the
      envelope, the raw bytes that go with it or with the error, the counter after it
      and the bytes left. */
  datatype Receipt = Receipt(result: Result<Envelope, ReceiveError>, raw: Bytes, counter: nat, rest: Bytes)

  function Receive(x: Lane, n: nat, s: Bytes): Receipt
    requires n < A.COUNTERS
  {
    var r := Parse(s);
    if r.result.Err? then Receipt(Err(BadFrame(r.result.error)), [], n, r.rest)
    else
      var c := r.result.value;
      match A.Opened(x.cipher, x.key, n, c)
      case Err(e) => Receipt(Err(BadMessage(e)), c, A.Spent(n, c), r.rest)
      case Ok(p) =>
        match x.codec.unmarshal(p)
        case None => Receipt(Err(BadEnvelope), p, A.Spent(n, c), r.rest)
        case Some(e) => Receipt(Ok(e), p, A.Spent(n, c), r.rest)
  }

  /** The first frame of the bytes decrypts to `p`. */
  predicate Decrypts(x: Lane, n: nat, s: Bytes, p: Bytes)
    requires n < A.COUNTERS
  {
    Parse(s).result.Ok? && A.Opened(x.cipher, x.key, n, Parse(s).result.value) == Ok(p)
  }

  /** The raw bytes that come with a receipt are the plaintext of the envelope, or, to be
      logged, the plaintext that is none and the message that does not decrypt. */
  lemma RawExactly(x: Lane, n: nat, s: Bytes)
    requires n < A.COUNTERS
    ensures var r := Receive(x, n, s);
            match r.result
            case Ok(e) => Decrypts(x, n, s, r.raw) && x.codec.unmarshal(r.raw) == Some(e)
            case Err(BadEnvelope) => Decrypts(x, n, s, r.raw) && x.codec.unmarshal(r.raw) == None
            case Err(BadMessage(e)) => Parse(s).result == Ok(r.raw) && A.Opened(x.cipher, x.key, n, r.raw) == Err(e)
            case Err(BadFrame(e)) => r.raw == [] && Parse(s).result == Err(e)
  {
  }

  /** The envelopes a receive loop gets from a byte stream until an error. */
  function Received(x: Lane, n: nat, s: Bytes): seq<Envelope>
    requires n < A.COUNTERS
    decreases |s|
  {
    var r := Receive(x, n, s);
    if r.result.Err? then []
    else
      assert |r.rest| < |s| by { ParseIsSound(s); }
      [r.result.value] + Received(x, r.counter, r.rest)
  }

  lemma {:induction false} WireIsFramable(x: Lane, n: nat, envs: seq<Envelope>)
    requires A.Lawful(x.cipher) && n + |envs| <= A.COUNTERS
    ensures Framable(Wire(x, n, envs))
    decreases |envs|
  {
    if envs != [] {
      var m := if TooBig(x.codec, envs[0]) then n else n + 1;
      WireIsFramable(x, m, envs[1..]);
    }
  }

  lemma {:induction false} FramesAreTaken(x: Lane, n: nat, cs: seq<Bytes>)
    requires Framable(cs) && n < A.COUNTERS
    ensures Received(x, n, Frames(cs)) == Taken(x, n, cs)
    decreases |cs|
  {
    if cs != [] {
      assert Framable(cs[1..]);
      ParseOfFrame(cs[0], Frames(cs[1..]));
      FramesAreTaken(x, A.Spent(n, cs[0]), cs[1..]);
    }
  }

  /** The envelopes that reach the wire. */
  function Sent(cd: Codec, envs: seq<Envelope>): seq<Envelope> {
    if envs == [] then []
    else (if Sendable(cd, envs[0]) then [envs[0]] else []) + Sent(cd, envs[1..])
  }

  /** The position of the first envelope in the band, or the end. */
  function FirstInBand(cd: Codec, envs: seq<Envelope>): (k: nat)
    ensures k <= |envs|
    ensures forall i :: 0 <= i < k ==> !InBand(cd, envs[i])
    ensures k < |envs| ==> InBand(cd, envs[k])
  {
    if envs == [] || InBand(cd, envs[0]) then 0 else 1 + FirstInBand(cd, envs[1..])
  }

  /** What is sent before the first envelope in the band. */
  function Heard(cd: Codec, envs: seq<Envelope>): seq<Envelope> {
    Sent(cd, envs[..FirstInBand(cd, envs)])
  }

  ghost predicate AllRejected(outcomes: seq<Result<Bytes, A.Error>>) {
    forall i :: 0 <= i < |outcomes| ==> outcomes[i] == Err(A.NonceMismatch)
  }

  /** Once the sender's counter is ahead, no message is accepted any more, by a
      receiver that goes on after errors either. */
  lemma {:induction false} OutOfStep(x: Lane, n: nat, m: nat, envs: seq<Envelope>)
    requires A.Lawful(x.cipher) && n < m && m + |envs| <= A.COUNTERS
    ensures AllRejected(A.OpenAll(x.cipher, x.key, n, Wire(x, m, envs)))
    decreases |envs|
  {
    if envs != [] {
      if Sendable(x.codec, envs[0]) {
        OutOfStep(x, n + 1, m + 1, envs[1..]);
        RejectedAhead(x, n, m, x.codec.marshal(envs[0]), Wire(x, m + 1, envs[1..]));
      } else {
        OutOfStep(x, n, if TooBig(x.codec, envs[0]) then m else m + 1, envs[1..]);
      }
    }
  }

  lemma RejectedAhead(x: Lane, n: nat, m: nat, p: Bytes, later: seq<Bytes>)
    requires A.Lawful(x.cipher) && n < m && m + 1 <= A.COUNTERS
    requires n + 1 < A.COUNTERS && AllRejected(A.OpenAll(x.cipher, x.key, n + 1, later))
    ensures AllRejected(A.OpenAll(x.cipher, x.key, n, [A.Sealed(x.cipher, x.key, m, p)] + later))
  {
    var c := A.Sealed(x.cipher, x.key, m, p);
    A.OpenedSealed(x.cipher, x.key, n, m, p);
    assert A.Spent(n, c) == n + 1;
    assert ([c] + later)[1..] == later;
  }

  /** The receiver gets exactly what was sent before the first envelope in the band. */
  lemma {:induction false} TakenUntilBand(x: Lane, n: nat, envs: seq<Envelope>)
    requires Lawful(x) && n + |envs| < A.COUNTERS
    ensures Taken(x, n, Wire(x, n, envs)) == Heard(x.codec, envs)
    decreases |envs|
  {
    if envs != [] {
      var e, rest := envs[0], envs[1..];
      if InBand(x.codec, e) {
        OutOfStep(x, n, n + 1, rest);
        NothingTaken(x, n, Wire(x, n + 1, rest));
      } else {
        assert envs[..FirstInBand(x.codec, envs)][1..] == rest[..FirstInBand(x.codec, rest)];
        if Sendable(x.codec, e) {
          TakenUntilBand(x, n + 1, rest);
          TakenInStep(x, n, e, Wire(x, n + 1, rest));
        } else {
          TakenUntilBand(x, n, rest);
        }
      }
    }
  }

  /** A message sealed under the receiver's own counter is taken. */
  lemma TakenInStep(x: Lane, n: nat, e: Envelope, later: seq<Bytes>)
    requires Lawful(x) && n + 1 < A.COUNTERS
    ensures Taken(x, n, [A.Sealed(x.cipher, x.key, n, x.codec.marshal(e))] + later) == [e] + Taken(x, n + 1, later)
  {
    var c := A.Sealed(x.cipher, x.key, n, x.codec.marshal(e));
    A.OpenedSealed(x.cipher, x.key, n, n, x.codec.marshal(e));
    assert A.Spent(n, c) == n + 1;
    assert ([c] + later)[1..] == later;
  }

  lemma NothingTaken(x: Lane, n: nat, cs: seq<Bytes>)
    requires n < A.COUNTERS
    requires cs != [] ==> A.OpenAll(x.cipher, x.key, n, cs)[0].Err?
    ensures Taken(x, n, cs) == []
  {
  }

  ghost predicate AllSendable(cd: Codec, envs: seq<Envelope>) {
    forall i :: 0 <= i < |envs| ==> Sendable(cd, envs[i])
  }

  /** Sending any list of envelopes below the band is lossless and in order. */
  lemma SessionRoundTrip(x: Lane, envs: seq<Envelope>)
    requires Lawful(x) && |envs| < A.COUNTERS && AllSendable(x.codec, envs)
    ensures Framable(Wire(x, 0, envs)) && Received(x, 0, Frames(Wire(x, 0, envs))) == envs
  {
    WireIsFramable(x, 0, envs);
    FramesAreTaken(x, 0, Wire(x, 0, envs));
    TakenUntilBand(x, 0, envs);
    NoneInBand(x.codec, envs);
    SentAll(x.codec, envs);
  }

  lemma NoneInBand(cd: Codec, envs: seq<Envelope>)
    requires AllSendable(cd, envs)
    ensures envs[..FirstInBand(cd, envs)] == envs
  {
  }

  lemma {:induction false} SentAll(cd: Codec, envs: seq<Envelope>)
    requires AllSendable(cd, envs)
    ensures Sent(cd, envs) == envs
  {
    if envs != [] {
      SentAll(cd, envs[1..]);
    }
  }

  ghost predicate NoneIsInBand(cd: Codec, envs: seq<Envelope>) {
    forall i :: 0 <= i < |envs| ==> !InBand(cd, envs[i])
  }

  lemma {:induction false} CounterGap(x: Lane, n: nat, envs: seq<Envelope>)
    requires n + |envs| <= A.COUNTERS
    ensures n + |Wire(x, n, envs)| <= CounterAfter(x, n, envs)
    ensures n + |Wire(x, n, envs)| == CounterAfter(x, n, envs) <==> NoneIsInBand(x.codec, envs)
    decreases |envs|
  {
    if envs != [] {
      var m := if TooBig(x.codec, envs[0]) then n else n + 1;
      CounterGap(x, m, envs[1..]);
      assert envs == [envs[0]] + envs[1..];
    }
  }

  /** A receiver spends one counter for every message that has room for a nonce. */
  lemma {:induction false} OneCounterEach(n: nat, cs: seq<Bytes>)
    requires n + |cs| < A.COUNTERS && forall i :: 0 <= i < |cs| ==> A.NONCE_SIZE <= |cs[i]|
    ensures ReceiverCounter(n, cs) == n + |cs|
    decreases |cs|
  {
    if cs != [] {
      OneCounterEach(n + 1, cs[1..]);
    }
  }

  lemma {:induction false} WireHasNonces(x: Lane, n: nat, envs: seq<Envelope>)
    requires n + |envs| <= A.COUNTERS
    ensures |Wire(x, n, envs)| <= |envs|
    ensures forall i :: 0 <= i < |Wire(x, n, envs)| ==> A.NONCE_SIZE <= |Wire(x, n, envs)[i]|
    decreases |envs|
  {
    if envs != [] {
      WireHasNonces(x, if TooBig(x.codec, envs[0]) then n else n + 1, envs[1..]);
    }
  }

  /** What the receiver's counter is after all messages of a list of sends. */
  lemma CounterReceived(x: Lane, envs: seq<Envelope>)
    requires |envs| < A.COUNTERS
    ensures ReceiverCounter(0, Wire(x, 0, envs)) == |Wire(x, 0, envs)|
  {
    WireHasNonces(x, 0, envs);
    OneCounterEach(0, Wire(x, 0, envs));
  }

  /** The messages after position `k` are all rejected by a receiver that has been
      handed the messages before it. */
  ghost predicate DeafAfter(x: Lane, envs: seq<Envelope>, k: nat)
    requires k < |envs| < A.COUNTERS
  {
    var n := CounterAfter(x, 0, envs[..k]);
    && n <= k
    && Wire(x, 0, envs) == Wire(x, 0, envs[..k]) + Wire(x, n + 1, envs[k + 1..])
    && AllRejected(A.OpenAll(x.cipher, x.key, n, Wire(x, n + 1, envs[k + 1..])))
  }

  lemma BandDeafens(x: Lane, envs: seq<Envelope>, k: nat)
    requires A.Lawful(x.cipher) && k < |envs| < A.COUNTERS && InBand(x.codec, envs[k])
    ensures DeafAfter(x, envs, k)
  {
    WireSplits(x, 0, envs, k);
    OutOfStep(x, CounterAfter(x, 0, envs[..k]), CounterAfter(x, 0, envs[..k]) + 1, envs[k + 1..]);
  }

  lemma ReceivedUntilBand(x: Lane, envs: seq<Envelope>)
    requires Lawful(x) && |envs| < A.COUNTERS
    ensures Framable(Wire(x, 0, envs))
    ensures Received(x, 0, Frames(Wire(x, 0, envs))) == Heard(x.codec, envs)
  {
    WireIsFramable(x, 0, envs);
    FramesAreTaken(x, 0, Wire(x, 0, envs));
    TakenUntilBand(x, 0, envs);
  }

  /** An envelope in the band spends a nonce and writes nothing. The counters of the
      two ends agree after all messages have been handed over exactly when no envelope
      was in the band; the receiver gets precisely what was sent before the first one
      in the band; and every message after it is rejected for good. */
  lemma LockstepExactlyOutsideTheBand(x: Lane, envs: seq<Envelope>)
    requires Lawful(x) && |envs| < A.COUNTERS
    ensures CounterAfter(x, 0, envs) == ReceiverCounter(0, Wire(x, 0, envs)) <==> NoneIsInBand(x.codec, envs)
    ensures Framable(Wire(x, 0, envs))
    ensures Received(x, 0, Frames(Wire(x, 0, envs))) == Heard(x.codec, envs)
    ensures FirstInBand(x.codec, envs) < |envs| ==> DeafAfter(x, envs, FirstInBand(x.codec, envs))
  {
    CounterGap(x, 0, envs);
    CounterReceived(x, envs);
    ReceivedUntilBand(x, envs);
    if FirstInBand(x.codec, envs) < |envs| {
      BandDeafens(x, envs, FirstInBand(x.codec, envs));
    }
  }

  /** Whatever the codec, an envelope in the band that is sent first leaves the receiver
      with nothing of what follows. */
  lemma BandSilences(x: Lane, e: Envelope, later: seq<Envelope>)
    requires Lawful(x) && |later| + 1 < A.COUNTERS && InBand(x.codec, e)
    ensures var envs := [e] + later;
            Framable(Wire(x, 0, envs)) && Received(x, 0, Frames(Wire(x, 0, envs))) == []
  {
    var envs := [e] + later;
    ReceivedUntilBand(x, envs);
    assert InBand(x.codec, envs[0]);
    assert envs[..FirstInBand(x.codec, envs)] == [];
  }

  /** A payload 18 bytes short of the limit, marshalled to no less than its own size as
      by protobuf, is in the band on every stream. */
  lemma LargeDataIsInBand(cd: Codec, id: StreamId, p: Bytes)
    requires Faithful(cd) && |p| == MAX_FRAME_SIZE - DATA_OVERHEAD
    ensures InBand(cd, Data(id, p)) <==> MAX_FRAME_SIZE - OVERHEAD < |cd.marshal(Data(id, p))|
    ensures |p| <= |cd.marshal(Data(id, p))| ==> InBand(cd, Data(id, p))
  {
    assert |cd.marshal(Data(id, p))| <= |p| + DATA_OVERHEAD;
  }

  /** Every faithful codec has such envelopes, on every stream: it cannot shorten all
      payloads of one size. */
  lemma BandIsInhabited(cd: Codec, id: StreamId)
    requires Faithful(cd)
    ensures exists p :: |p| == MAX_FRAME_SIZE - DATA_OVERHEAD && InBand(cd, Data(id, p))
  {
    var n := MAX_FRAME_SIZE - DATA_OVERHEAD;
    var g := (p: Bytes) => cd.marshal(Data(id, p));
    forall p: Bytes, q: Bytes | |p| == n && |q| == n && g(p) == g(q) ensures p == q {
      assert cd.unmarshal(cd.marshal(Data(id, p))) == Some(Data(id, p));
      assert cd.unmarshal(cd.marshal(Data(id, q))) == Some(Data(id, q));
    }
    N.SomeImageIsLong(g, n);
    var p :| |p| == n && n <= |g(p)|;
    LargeDataIsInBand(cd, id, p);
  }

  lemma {:induction false} WireSplits(x: Lane, n: nat, envs: seq<Envelope>, k: nat)
    requires k < |envs| && n + |envs| <= A.COUNTERS && InBand(x.codec, envs[k])
    ensures n <= CounterAfter(x, n, envs[..k]) <= n + k
    ensures Wire(x, n, envs) == Wire(x, n, envs[..k]) + Wire(x, CounterAfter(x, n, envs[..k]) + 1, envs[k + 1..])
    decreases |envs|
  {
    if 0 < k {
      var m := if TooBig(x.codec, envs[0]) then n else n + 1;
      assert envs[..k][1..] == envs[1..][..k - 1];
      assert envs[1..][k..] == envs[k + 1..];
      WireSplits(x, m, envs[1..], k - 1);
      if Sendable(x.codec, envs[0]) {
        var head := [A.Sealed(x.cipher, x.key, n, x.codec.marshal(envs[0]))];
        Associate(head, Wire(x, m, envs[..k][1..]), Wire(x, CounterAfter(x, n, envs[..k]) + 1, envs[k + 1..]));
      }
    }
  }

  // ---------------------------------------------------------------------------
  // A receiver facing an arbitrary byte stream.

  /** Nobody without the key makes a message that opens: every frame of the stream that
      opens is one the sender has written. */
  ghost predicate Unforged(x: Lane, envs: seq<Envelope>, s: Bytes)
    requires |envs| <= A.COUNTERS
  {
    forall c :: c in ReadAll(s).0 && Opens(x, c) ==> c in Wire(x, 0, envs)
  }

  ghost predicate Opens(x: Lane, c: Bytes) {
    A.NONCE_SIZE <= |c| && x.cipher.open(x.key, c[..A.NONCE_SIZE], c[A.NONCE_SIZE..]).Some?
  }

  /** A receive loop takes the frames of a stream one by one, until an error. */
  lemma {:induction false} ReceivedIsTaken(x: Lane, n: nat, s: Bytes)
    requires n < A.COUNTERS
    ensures Received(x, n, s) == Taken(x, n, ReadAll(s).0)
    decreases |s|
  {
    var r := Parse(s);
    if r.result.Ok? {
      ParseIsSound(s);
      ReceivedIsTaken(x, A.Spent(n, r.result.value), r.rest);
      assert ReadAll(s).0[1..] == ReadAll(r.rest).0;
    }
  }

  /** No message written from counter `m` on opens before it. */
  lemma {:induction false} NotBefore(x: Lane, m: nat, n: nat, envs: seq<Envelope>, c: Bytes)
    requires A.Lawful(x.cipher) && m + |envs| <= A.COUNTERS && n < m
    requires c in Wire(x, m, envs)
    ensures A.Opened(x.cipher, x.key, n, c).Err?
    decreases |envs|
  {
    var e, next := envs[0], if TooBig(x.codec, envs[0]) then m else m + 1;
    if Sendable(x.codec, e) && c == A.Sealed(x.cipher, x.key, m, x.codec.marshal(e)) {
      A.OpenedSealed(x.cipher, x.key, n, m, x.codec.marshal(e));
    } else {
      NotBefore(x, next, n, envs[1..], c);
    }
  }

  lemma HeardCons(cd: Codec, envs: seq<Envelope>)
    requires envs != []
    ensures InBand(cd, envs[0]) ==> Heard(cd, envs) == []
    ensures TooBig(cd, envs[0]) ==> Heard(cd, envs) == Heard(cd, envs[1..])
    ensures Sendable(cd, envs[0]) ==> Heard(cd, envs) == [envs[0]] + Heard(cd, envs[1..])
  {
    if !InBand(cd, envs[0]) {
      assert envs[..FirstInBand(cd, envs)][1..] == envs[1..][..FirstInBand(cd, envs[1..])];
    }
  }

  /** A written message that opens at a counter up to which all was heard is the next
      one to be heard. */
  lemma {:induction false} OpensInPlace(x: Lane, m: nat, n: nat, envs: seq<Envelope>, c: Bytes)
    requires A.Lawful(x.cipher) && m + |envs| < A.COUNTERS
    requires m <= n <= m + |Heard(x.codec, envs)| && n < A.COUNTERS
    requires c in Wire(x, m, envs) && A.Opened(x.cipher, x.key, n, c).Ok?
    ensures n < m + |Heard(x.codec, envs)|
    ensures A.Opened(x.cipher, x.key, n, c) == Ok(x.codec.marshal(Heard(x.codec, envs)[n - m]))
    decreases |envs|
  {
    var e, rest := envs[0], envs[1..];
    HeardCons(x.codec, envs);
    if InBand(x.codec, e) {
      NotBefore(x, m + 1, n, rest, c);
    } else if TooBig(x.codec, e) {
      OpensInPlace(x, m, n, rest, c);
    } else if c == A.Sealed(x.cipher, x.key, m, x.codec.marshal(e)) {
      A.OpenedSealed(x.cipher, x.key, n, m, x.codec.marshal(e));
    } else {
      if n == m {
        NotBefore(x, m + 1, n, rest, c);
      }
      OpensInPlace(x, m + 1, n, rest, c);
    }
  }

  lemma {:induction false} HeardInTime(x: Lane, envs: seq<Envelope>)
    ensures |Heard(x.codec, envs)| <= |envs|
  {
    if envs != [] {
      HeardCons(x.codec, envs);
      HeardInTime(x, envs[1..]);
    }
  }

  lemma PrefixCons(heard: seq<Envelope>, n: nat, later: seq<Envelope>)
    requires n < |heard| && later <= heard[n + 1..]
    ensures [heard[n]] + later <= heard[n..]
  {
    assert heard[n..] == [heard[n]] + heard[n + 1..];
  }

  lemma {:induction false} TakenIsHeard(x: Lane, n: nat, envs: seq<Envelope>, cs: seq<Bytes>)
    requires Lawful(x) && |envs| < A.COUNTERS && n <= |Heard(x.codec, envs)| && n < A.COUNTERS
    requires forall c :: c in cs && Opens(x, c) ==> c in Wire(x, 0, envs)
    ensures Taken(x, n, cs) <= Heard(x.codec, envs)[n..]
    decreases |cs|
  {
    HeardInTime(x, envs);
    if cs != [] && A.Opened(x.cipher, x.key, n, cs[0]).Ok? {
      var heard := Heard(x.codec, envs);
      assert Opens(x, cs[0]);
      OpensInPlace(x, 0, n, envs, cs[0]);
      assert A.Spent(n, cs[0]) == n + 1;
      TakenIsHeard(x, n + 1, envs, cs[1..]);
      PrefixCons(heard, n, Taken(x, n + 1, cs[1..]));
    }
  }

  /** Whatever bytes reach a receiver, replayed, reordered, cut or forged: the
      envelopes its loop gets before the first error are a prefix of those sent, in
      order and none twice, up to the first one in the band. */
  lemma TamperedStreamIsAPrefix(x: Lane, envs: seq<Envelope>, s: Bytes)
    requires Lawful(x) && |envs| < A.COUNTERS && Unforged(x, envs, s)
    ensures Received(x, 0, s) <= Heard(x.codec, envs)
  {
    ReceivedIsTaken(x, 0, s);
    TakenIsHeard(x, 0, envs, ReadAll(s).0);
  }

  lemma WireOne(x: Lane, n: nat, e: Envelope)
    requires A.Lawful(x.cipher) && n < A.COUNTERS
    ensures Framable(Wire(x, n, [e]))
    ensures Wire(x, n, [e]) == if Sendable(x.codec, e) then [A.Sealed(x.cipher, x.key, n, x.codec.marshal(e))] else []
    ensures Sendable(x.codec, e) ==>
              Frames(Wire(x, n, [e])) == Frame(A.Sealed(x.cipher, x.key, n, x.codec.marshal(e)))
  {
    assert Wire(x, n + 1, []) == [];
    if Sendable(x.codec, e) {
      var c := A.Sealed(x.cipher, x.key, n, x.codec.marshal(e));
      assert Frames([c]) == Frame(c) + Frames([c][1..]);
    }
  }

  lemma {:induction false} WireSnoc(x: Lane, n: nat, envs: seq<Envelope>, e: Envelope)
    requires n + |envs| < A.COUNTERS
    ensures CounterAfter(x, n, envs) <= n + |envs|
    ensures Wire(x, n, envs + [e]) == Wire(x, n, envs) + Wire(x, CounterAfter(x, n, envs), [e])
    ensures CounterAfter(x, n, envs + [e]) == CounterAfter(x, CounterAfter(x, n, envs), [e])
    decreases |envs|
  {
    if envs == [] {
      assert envs + [e] == [e];
    } else {
      WireSnoc(x, if TooBig(x.codec, envs[0]) then n else n + 1, envs[1..], e);
      assert (envs + [e])[1..] == envs[1..] + [e];
    }
  }

  /** A session that has sent `envs` and sends `e` next has sent `envs + [e]`: the
      bytes of one send after the other are those of the list. */
  lemma SendsCompose(x: Lane, envs: seq<Envelope>, e: Envelope)
    requires A.Lawful(x.cipher) && |envs| + 1 < A.COUNTERS
    ensures var n := CounterAfter(x, 0, envs);
            && n < A.COUNTERS
            && CounterAfter(x, 0, envs + [e]) == CounterAfter(x, n, [e])
            && Framable(Wire(x, 0, envs)) && Framable(Wire(x, n, [e])) && Framable(Wire(x, 0, envs + [e]))
            && Frames(Wire(x, 0, envs + [e])) == Frames(Wire(x, 0, envs)) + Frames(Wire(x, n, [e]))
  {
    WireSnoc(x, 0, envs, e);
    WireIsFramable(x, 0, envs);
    WireOne(x, CounterAfter(x, 0, envs), e);
    FramesAppend(Wire(x, 0, envs), Wire(x, CounterAfter(x, 0, envs), [e]));
  }

  // ---------------------------------------------------------------------------
  // The session object and the handshake.

  datatype SendError = Unsendable | Unwritten

  /** `Session`: two counters and the two directions of the connection. */
  class Endpoint {
    const input: Pipe
    const output: Pipe
    const codec: Codec
    const sendEnc: A.Counter
    const recvEnc: A.Counter

    constructor (input: Pipe, output: Pipe, cipher: A.Cipher, codec: Codec, keys: K.Keys)
      requires |keys.send| == A.AES_KEY_SIZE && |keys.recv| == A.AES_KEY_SIZE && A.Lawful(cipher)
      ensures Valid() && fresh(sendEnc) && fresh(recvEnc)
      ensures this.input == input && this.output == output
      ensures sendEnc.counter == 0 && recvEnc.counter == 0
      ensures SendLane() == Lane(cipher, codec, keys.send) && ReceiveLane() == Lane(cipher, codec, keys.recv)
    {
      this.input, this.output, this.codec := input, output, codec;
      sendEnc := new A.Counter(cipher, keys.send);
      recvEnc := new A.Counter(cipher, keys.recv);
    }

    ghost predicate Valid()
      reads sendEnc, recvEnc
    {
      sendEnc != recvEnc && sendEnc.Valid() && recvEnc.Valid() && A.Lawful(sendEnc.cipher)
    }

    ghost function SendLane(): Lane {
      Lane(sendEnc.cipher, codec, sendEnc.key)
    }

    ghost function ReceiveLane(): Lane {
      Lane(recvEnc.cipher, codec, recvEnc.key)
    }

    /** `Send`, on a connection that takes `room` more bytes: what `Wire` says of the
        list with this one envelope, unless the write fails part way. A sendable
        envelope goes out under the next counter; one in the band loses that counter
        for nothing. */
    method Send(e: Envelope, room: nat) returns (r: Result<(), SendError>)
      requires Valid()
      modifies sendEnc`counter, output
      ensures Valid()
      ensures sendEnc.counter == CounterAfter(SendLane(), old(sendEnc.counter), [e]) % A.COUNTERS
      ensures Framable(Wire(SendLane(), old(sendEnc.counter), [e]))
      ensures var bytes := Frames(Wire(SendLane(), old(sendEnc.counter), [e]));
              && r == (if !Sendable(codec, e) then Err(Unsendable)
                       else if |bytes| <= room then Ok(())
                       else Err(Unwritten))
              && (!Sendable(codec, e) ==> bytes == [])
              && output.data == old(output.data) + if |bytes| <= room then bytes else bytes[..room]
    {
      WireOne(SendLane(), sendEnc.counter, e);
      var data := codec.marshal(e);
      assert CounterAfter(SendLane(), sendEnc.counter, [e]) ==
             if TooBig(codec, e) then sendEnc.counter else sendEnc.counter + 1;
      var encrypted := sendEnc.Encrypt(data);
      if encrypted.Err? {
        return Err(Unsendable);
      }
      var written := WriteFrame(output, encrypted.value, room);
      r := match written
        case Ok(_) => Ok(())
        case Err(Oversize) => Err(Unsendable)
        case Err(WriteFailed) => Err(Unwritten);
    }

    /** `ReceiveRaw`. */
    method ReceiveRaw() returns (raw: Bytes, r: Result<Envelope, ReceiveError>)
      requires Valid()
      modifies recvEnc`counter, input
      ensures Valid()
      ensures Receipt(r, raw, recvEnc.counter, input.data) ==
                Receive(ReceiveLane(), old(recvEnc.counter), old(input.data))
    {
      var frame := ReadFrame(input);
      if frame.Err? {
        return [], Err(BadFrame(frame.error));
      }
      var plain := recvEnc.Decrypt(frame.value);
      if plain.Err? {
        return frame.value, Err(BadMessage(plain.error));
      }
      var env := codec.unmarshal(plain.value);
      r := if env.None? then Err(BadEnvelope) else Ok(env.value);
      raw := plain.value;
    }
  }

  datatype HandshakeError = NoFrame(frame: Framing.Error) | NotSent | Unreadable | NotAHandshake | EmptyKey | NoKeys

  /** What the holder of `secret` makes of the peer's first frame. */
  function Meet(su: K.Suite, cd: Codec, secret: Bytes, s: Bytes): Result<K.Keys, HandshakeError> {
    match Parse(s).result
    case Err(e) => Err(NoFrame(e))
    case Ok(frame) =>
      match cd.unmarshal(frame)
      case None => Err(Unreadable)
      case Some(env) =>
        if !env.Handshake? then Err(NotAHandshake)
        else if env.publicKey == [] then Err(EmptyKey)
        else match K.Derive(su, secret, env.publicKey)
          case None => Err(NoKeys)
          case Some(keys) => Ok(keys)
  }

  /** The cleartext frame the holder of `secret` opens with. */
  function Greeting(su: K.Suite, cd: Codec, secret: Bytes): Bytes {
    cd.marshal(Handshake(su.publicOf(secret)))
  }

  /** `PerformHandshake`: one frame out, one frame in; the key pair is drawn by the
      caller. The write runs beside the read, and its failure is looked at after it. */
  method PerformHandshake(input: Pipe, output: Pipe, su: K.Suite, cipher: A.Cipher, cd: Codec, secret: Bytes, room: nat)
    returns (r: Result<Endpoint, HandshakeError>)
    requires input != output && K.Lawful(su) && A.Lawful(cipher) && Faithful(cd)
    modifies input, output
    ensures |Greeting(su, cd, secret)| <= MAX_FRAME_SIZE
    ensures var hello := Frame(Greeting(su, cd, secret));
            && output.data == old(output.data) + (if |hello| <= room then hello else hello[..room])
            && (r.Ok? <==> |hello| <= room && Meet(su, cd, secret, old(input.data)).Ok?)
            && (r.Err? && r.error != NotSent ==> Meet(su, cd, secret, old(input.data)) == Err(r.error))
    ensures input.data == Parse(old(input.data)).rest
    ensures r.Ok? ==>
              var keys := Meet(su, cd, secret, old(input.data)).value;
              && r.value.Valid() && r.value.input == input && r.value.output == output
              && r.value.sendEnc.counter == 0 && r.value.recvEnc.counter == 0
              && r.value.SendLane() == Lane(cipher, cd, keys.send)
              && r.value.ReceiveLane() == Lane(cipher, cd, keys.recv)
  {
    var localData := Greeting(su, cd, secret);
    var written := WriteFrame(output, localData, room);
    var frame := ReadFrame(input);
    if frame.Err? {
      return Err(NoFrame(frame.error));
    }
    if written.Err? {
      return Err(NotSent);
    }
    var env := cd.unmarshal(frame.value);
    if env.None? {
      return Err(Unreadable);
    }
    if !env.value.Handshake? {
      return Err(NotAHandshake);
    }
    if env.value.publicKey == [] {
      return Err(EmptyKey);
    }
    var keys := K.Derive(su, secret, env.value.publicKey);
    if keys.None? {
      return Err(NoKeys);
    }
    var endpoint := new Endpoint(input, output, cipher, cd, keys.value);
    r := Ok(endpoint);
  }

  /** The first frame of the bytes is of the envelope. */
  predicate Carries(cd: Codec, s: Bytes, e: Envelope) {
    Parse(s).result.Ok? && cd.unmarshal(Parse(s).result.value) == Some(e)
  }

  /** A handshake succeeds exactly on a first frame that carries a non-empty public key
      with which keys can be derived. */
  lemma MeetExactly(su: K.Suite, cd: Codec, secret: Bytes, s: Bytes, keys: K.Keys)
    ensures Meet(su, cd, secret, s) == Ok(keys) <==>
            exists p :: p != [] && K.Derive(su, secret, p) == Some(keys) && Carries(cd, s, Handshake(p))
  {
    if Parse(s).result.Ok? && cd.unmarshal(Parse(s).result.value).Some? {
      var env := cd.unmarshal(Parse(s).result.value).value;
      if env.Handshake? {
        assert Carries(cd, s, Handshake(env.publicKey));
      }
    }
  }

  /** Both ends together: when their public keys differ and the exchange works, each
      derives keys from the other's greeting, and whatever list of sendable envelopes
      the end with secret `a` sends after its greeting, the end with secret `b`
      receives unchanged and in order. */
  lemma EndToEnd(su: K.Suite, ci: A.Cipher, cd: Codec, a: Bytes, b: Bytes, envs: seq<Envelope>)
    requires K.Lawful(su) && A.Lawful(ci) && Faithful(cd) && |envs| < A.COUNTERS
    requires su.publicOf(a) != su.publicOf(b) && su.ecdh(a, su.publicOf(b)).Some?
    requires AllSendable(cd, envs)
    ensures |Greeting(su, cd, a)| <= MAX_FRAME_SIZE && |Greeting(su, cd, b)| <= MAX_FRAME_SIZE
    ensures var fromB := Frame(Greeting(su, cd, b));
            && Meet(su, cd, a, fromB).Ok?
            && var sending := Lane(ci, cd, Meet(su, cd, a, fromB).value.send);
            && Framable(Wire(sending, 0, envs))
            && var fromA := Frame(Greeting(su, cd, a)) + Frames(Wire(sending, 0, envs));
            && Meet(su, cd, b, fromA).Ok?
            && Received(Lane(ci, cd, Meet(su, cd, b, fromA).value.recv), 0, Parse(fromA).rest) == envs
  {
    MeetGreeting(su, cd, a, b, []);
    var fromB := Frame(Greeting(su, cd, b));
    assert fromB + [] == fromB;
    K.KeysAreComplementary(su, a, b);
    var keys := K.Derive(su, a, su.publicOf(b)).value;
    var sending := Lane(ci, cd, keys.send);
    SessionRoundTrip(sending, envs);
    MeetGreeting(su, cd, b, a, Frames(Wire(sending, 0, envs)));
  }

  lemma MeetGreeting(su: K.Suite, cd: Codec, me: Bytes, peer: Bytes, rest: Bytes)
    requires K.Lawful(su) && Faithful(cd)
    ensures |Greeting(su, cd, peer)| <= MAX_FRAME_SIZE
    ensures var s := Frame(Greeting(su, cd, peer)) + rest;
            && Parse(s).rest == rest
            && Meet(su, cd, me, s) == match K.Derive(su, me, su.publicOf(peer))
                                      case None => Err(NoKeys)
                                      case Some(keys) => Ok(keys)
  {
    assert |cd.marshal(Handshake(su.publicOf(peer)))| <= 32 + DATA_OVERHEAD;
    ParseOfFrame(Greeting(su, cd, peer), rest);
  }
}
