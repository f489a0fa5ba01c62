/** The vocabulary shared by every component: bytes, stream ids and the envelope
    of proto/messages.proto. */
module Messages {

  type Byte = b: int | 0 <= b < 256
  type Bytes = seq<Byte>

  /** A `uint32` stream id. */
  type StreamId = n: int | 0 <= n < 0x1_0000_0000

  datatype Option<+T> = None | Some(value: T)

  datatype Result<+T, +E> = Ok(value: T) | Err(error: E)

  /** The `oneof` of proto/messages.proto; `Unset` is an envelope without a payload. */
  datatype Envelope =
    | Unset
    | Handshake(publicKey: Bytes)
    | Register(connectionId: string)
    | RegisterAck(success: bool, message: string)
    | ConnectRequest(connectionId: string)
    | ConnectAck(success: bool, message: string)
    | OpenStream(streamId: StreamId)
    | OpenStreamAck(streamId: StreamId, success: bool, message: string)
    | Data(streamId: StreamId, payload: Bytes)
    | CloseStream(streamId: StreamId)
    | Heartbeat
    | Disconnect(reason: string)
    | ErrorMsg(message: string)
    | Authenticate(passphraseHash: Bytes)

  /** Concatenation of a list of chunks. */
  function Flat(chunks: seq<Bytes>): Bytes {
    if chunks == [] then [] else chunks[0] + Flat(chunks[1..])
  }

  lemma Associate<T>(a: seq<T>, b: seq<T>, c: seq<T>)
    ensures a + (b + c) == (a + b) + c
  {
  }

  lemma {:induction false} FlatAppend(a: seq<Bytes>, b: seq<Bytes>)
    ensures Flat(a + b) == Flat(a) + Flat(b)
  {
    if a == [] {
      assert a + b == b;
    } else {
      assert (a + b)[1..] == a[1..] + b;
      FlatAppend(a[1..], b);
      Associate(a[0], Flat(a[1..]), Flat(b));
    }
  }

  lemma FlatSnoc(a: seq<Bytes>, c: Bytes)
    ensures Flat(a + [c]) == Flat(a) + c
  {
    FlatAppend(a, [c]);
    assert Flat([c]) == c;
  }

  /** The messages of a channel that concern one stream, in order. */
  function About(channel: seq<Envelope>, id: StreamId): seq<Envelope> {
    if channel == [] then []
    else (if Concerns(channel[0], id) then [channel[0]] else []) + About(channel[1..], id)
  }

  predicate Concerns(env: Envelope, id: StreamId) {
    (env.OpenStream? || env.OpenStreamAck? || env.Data? || env.CloseStream?) && env.streamId == id
  }

  lemma {:induction false} AboutAppend(a: seq<Envelope>, b: seq<Envelope>, id: StreamId)
    ensures About(a + b, id) == About(a, id) + About(b, id)
  {
    if a == [] {
      assert a + b == b;
    } else {
      assert (a + b)[1..] == a[1..] + b;
      AboutAppend(a[1..], b, id);
      Associate(if Concerns(a[0], id) then [a[0]] else [], About(a[1..], id), About(b, id));
    }
  }

  lemma {:induction false} AboutPrefix(a: seq<Envelope>, b: seq<Envelope>, id: StreamId)
    requires a <= b
    ensures About(a, id) <= About(b, id)
  {
    AboutAppend(a, b[|a|..], id);
    assert a + b[|a|..] == b;
  }

  lemma AboutOne(env: Envelope, id: StreamId)
    ensures About([env], id) == if Concerns(env, id) then [env] else []
  {
  }

  /** The payloads of the Data messages of a channel, in order. */
  function Payloads(channel: seq<Envelope>): seq<Bytes> {
    if channel == [] then []
    else (if channel[0].Data? then [channel[0].payload] else []) + Payloads(channel[1..])
  }

  lemma {:induction false} PayloadsAppend(a: seq<Envelope>, b: seq<Envelope>)
    ensures Payloads(a + b) == Payloads(a) + Payloads(b)
  {
    if a == [] {
      assert a + b == b;
    } else {
      assert (a + b)[1..] == a[1..] + b;
      PayloadsAppend(a[1..], b);
      Associate(if a[0].Data? then [a[0].payload] else [], Payloads(a[1..]), Payloads(b));
    }
  }

  /** What the broker's relay lets through: everything but heartbeats. */
  function NonHeartbeats(sent: seq<Envelope>): seq<Envelope> {
    if sent == [] then []
    else (if sent[0].Heartbeat? then [] else [sent[0]]) + NonHeartbeats(sent[1..])
  }

  lemma {:induction false} NonHeartbeatsSnoc(sent: seq<Envelope>, env: Envelope)
    ensures NonHeartbeats(sent + [env]) == NonHeartbeats(sent) + if env.Heartbeat? then [] else [env]
  {
    if sent == [] {
      assert sent + [env] == [env];
    } else {
      assert (sent + [env])[1..] == sent[1..] + [env];
      NonHeartbeatsSnoc(sent[1..], env);
      var head, last := if sent[0].Heartbeat? then [] else [sent[0]], if env.Heartbeat? then [] else [env];
      assert head + (NonHeartbeats(sent[1..]) + last) == (head + NonHeartbeats(sent[1..])) + last;
    }
  }

  /** Heartbeats concern no stream. */
  lemma {:induction false} AboutNonHeartbeats(sent: seq<Envelope>, id: StreamId)
    ensures About(NonHeartbeats(sent), id) == About(sent, id)
  {
    if sent != [] {
      AboutNonHeartbeats(sent[1..], id);
      AboutAppend(if sent[0].Heartbeat? then [] else [sent[0]], NonHeartbeats(sent[1..]), id);
      AboutOne(sent[0], id);
    }
  }

  function Heartbeats(ms: seq<Envelope>): nat {
    if ms == [] then 0 else (if ms[0].Heartbeat? then 1 else 0) + Heartbeats(ms[1..])
  }

  lemma {:induction false} HeartbeatsAppend(a: seq<Envelope>, b: seq<Envelope>)
    ensures Heartbeats(a + b) == Heartbeats(a) + Heartbeats(b)
  {
    if a == [] {
      assert a + b == b;
    } else {
      assert (a + b)[1..] == a[1..] + b;
      HeartbeatsAppend(a[1..], b);
    }
  }
}
