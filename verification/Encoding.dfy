/** A plain encoding of envelopes. It is not the protobuf format; it shows that what
    is asked of a marshaller can be had. */
module Encoding {
  import opened Messages
  import opened Framing

  function Text(s: string): Bytes {
    if s == [] then []
    else [s[0] as int / 0x1_0000, s[0] as int / 0x100 % 0x100, s[0] as int % 0x100] + Text(s[1..])
  }

  function Encode(e: Envelope): Bytes {
    match e
    case Unset => [0]
    case Handshake(k) => [1] + k
    case Register(id) => [2] + Text(id)
    case RegisterAck(ok, msg) => [3, if ok then 1 else 0] + Text(msg)
    case ConnectRequest(id) => [4] + Text(id)
    case ConnectAck(ok, msg) => [5, if ok then 1 else 0] + Text(msg)
    case OpenStream(id) => [6] + U32(id)
    case OpenStreamAck(id, ok, msg) => [7, if ok then 1 else 0] + U32(id) + Text(msg)
    case Data(id, p) => [8] + U32(id) + p
    case CloseStream(id) => [9] + U32(id)
    case Heartbeat => [10]
    case Disconnect(reason) => [11] + Text(reason)
    case ErrorMsg(msg) => [12] + Text(msg)
    case Authenticate(h) => [13] + h
  }

  lemma {:induction false} TextInjective(s: string, t: string)
    requires Text(s) == Text(t)
    ensures s == t
  {
    if s != [] && t != [] {
      TextHead(s);
      TextHead(t);
      SameNumber(s[0] as int, t[0] as int);
      TextInjective(s[1..], t[1..]);
      assert s == [s[0]] + s[1..] && t == [t[0]] + t[1..];
    }
  }

  lemma TextHead(s: string)
    requires s != []
    ensures var n := s[0] as int;
            && Text(s)[..3] == [n / 0x1_0000, n / 0x100 % 0x100, n % 0x100]
            && Text(s)[3..] == Text(s[1..])
  {
  }

  lemma SameNumber(a: nat, b: nat)
    requires [a / 0x1_0000, a / 0x100 % 0x100, a % 0x100] == [b / 0x1_0000, b / 0x100 % 0x100, b % 0x100]
    ensures a == b
  {
    var x, y := [a / 0x1_0000, a / 0x100 % 0x100, a % 0x100], [b / 0x1_0000, b / 0x100 % 0x100, b % 0x100];
    assert x[0] == y[0] && x[1] == y[1] && x[2] == y[2];
    assert a / 0x100 == a / 0x1_0000 * 0x100 + a / 0x100 % 0x100;
    assert b / 0x100 == b / 0x1_0000 * 0x100 + b / 0x100 % 0x100;
  }

  /** The fields that follow the tag. */
  lemma EncodeTail(e: Envelope)
    ensures match e
            case Handshake(k) => Encode(e)[1..] == k
            case Register(id) => Encode(e)[1..] == Text(id)
            case ConnectRequest(id) => Encode(e)[1..] == Text(id)
            case RegisterAck(_, msg) => Encode(e)[2..] == Text(msg)
            case ConnectAck(_, msg) => Encode(e)[2..] == Text(msg)
            case OpenStream(id) => Encode(e)[1..] == U32(id)
            case CloseStream(id) => Encode(e)[1..] == U32(id)
            case OpenStreamAck(id, _, msg) => Encode(e)[2..6] == U32(id) && Encode(e)[6..] == Text(msg)
            case Data(id, p) => Encode(e)[1..5] == U32(id) && Encode(e)[5..] == p
            case Disconnect(reason) => Encode(e)[1..] == Text(reason)
            case ErrorMsg(msg) => Encode(e)[1..] == Text(msg)
            case Authenticate(h) => Encode(e)[1..] == h
            case _ => true
  {
  }

  lemma EncodeInjective(e: Envelope, f: Envelope)
    requires Encode(e) == Encode(f)
    ensures e == f
  {
    assert Encode(e)[0] == Encode(f)[0];
    EncodeTail(e);
    EncodeTail(f);
    SameId(e, f);
    SameText(e, f);
  }

  /** Equal encodings of envelopes with an id have the same id. */
  lemma SameId(e: Envelope, f: Envelope)
    requires Encode(e) == Encode(f) && Encode(e)[0] == Encode(f)[0]
    ensures e.OpenStream? || e.CloseStream? || e.Data? || e.OpenStreamAck? ==>
              (f.OpenStream? || f.CloseStream? || f.Data? || f.OpenStreamAck?) && e.streamId == f.streamId
  {
    EncodeTail(e);
    EncodeTail(f);
    if e.OpenStream? || e.CloseStream? || e.Data? || e.OpenStreamAck? {
      U32RoundTrip(e.streamId);
      U32RoundTrip(f.streamId);
    }
  }

  function Words(e: Envelope): string {
    match e
    case Register(id) => id
    case ConnectRequest(id) => id
    case RegisterAck(_, msg) => msg
    case ConnectAck(_, msg) => msg
    case OpenStreamAck(_, _, msg) => msg
    case Disconnect(reason) => reason
    case ErrorMsg(msg) => msg
    case _ => []
  }

  /** Equal encodings have the same text. */
  lemma SameText(e: Envelope, f: Envelope)
    requires Encode(e) == Encode(f) && Encode(e)[0] == Encode(f)[0]
    ensures Words(e) == Words(f)
  {
    EncodeTail(e);
    EncodeTail(f);
    assert Text(Words(e)) == Text(Words(f));
    TextInjective(Words(e), Words(f));
  }
}
