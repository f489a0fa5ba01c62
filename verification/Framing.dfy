/** Length-prefixed frames (pkg/protocol/framing.go). */
module Framing {
  import opened Messages

  const MAX_FRAME_SIZE := 0x10_0000
  const FRAME_LENGTH_SIZE := 4

  /** `binary.BigEndian.PutUint32`. */
  function U32(n: nat): Bytes
    requires n < 0x1_0000_0000
  {
    [n / 0x100_0000, n / 0x1_0000 % 0x100, n / 0x100 % 0x100, n % 0x100]
  }

  /** `binary.BigEndian.Uint32`. */
  function FromU32(b: Bytes): (n: nat)
    requires |b| == 4
    ensures n < 0x1_0000_0000
  {
    b[0] as int * 0x100_0000 + b[1] as int * 0x1_0000 + b[2] as int * 0x100 + b[3]
  }

  lemma U32RoundTrip(n: nat)
    requires n < 0x1_0000_0000
    ensures FromU32(U32(n)) == n
  {
    assert n / 0x1_0000 == n / 0x100_0000 * 0x100 + n / 0x1_0000 % 0x100;
    assert n / 0x100 == n / 0x1_0000 * 0x100 + n / 0x100 % 0x100;
  }

  lemma U32Surjective(b: Bytes)
    requires |b| == 4
    ensures U32(FromU32(b)) == b
  {
    var n := FromU32(b);
    assert n / 0x100_0000 == b[0];
    assert n / 0x1_0000 == b[0] as int * 0x100 + b[1];
    assert n / 0x100 == b[0] as int * 0x1_0000 + b[1] as int * 0x100 + b[2];
  }

  function Frame(payload: Bytes): Bytes
    requires |payload| <= MAX_FRAME_SIZE
  {
    U32(|payload|) + payload
  }

  datatype Error = ShortHeader | TooLarge(size: nat) | ShortPayload

  /** What one read makes of the bytes a stream still has to offer, and what it
      leaves of them; a read past the end consumes everything there is. */
  datatype Reading = Reading(result: Result<Bytes, Error>, rest: Bytes)

  function Parse(s: Bytes): Reading {
    if |s| < FRAME_LENGTH_SIZE then Reading(Err(ShortHeader), [])
    else
      var size := FromU32(s[..4]);
      if MAX_FRAME_SIZE < size then Reading(Err(TooLarge(size)), s[4..])
      else if |s| < 4 + size then Reading(Err(ShortPayload), [])
      else Reading(Ok(s[4..4 + size]), s[4 + size..])
  }

  /** A frame that was read is exactly a frame that could have been written, and no
      byte stream yields a payload above the limit. */
  lemma ParseIsSound(s: Bytes)
    ensures var r := Parse(s);
            r.result.Ok? ==> |r.result.value| <= MAX_FRAME_SIZE && s == Frame(r.result.value) + r.rest
  {
    if 4 <= |s| {
      U32Surjective(s[..4]);
    }
  }

  lemma ParseOfFrame(p: Bytes, rest: Bytes)
    requires |p| <= MAX_FRAME_SIZE
    ensures Parse(Frame(p) + rest) == Reading(Ok(p), rest)
  {
    U32RoundTrip(|p|);
    var s := Frame(p) + rest;
    assert s[..4] == U32(|p|);
    assert s[4..4 + |p|] == p;
  }

  /** A frame cut short never yields a payload, and is not mistaken for a large one. */
  lemma ParseOfCutFrame(p: Bytes, k: nat)
    requires |p| <= MAX_FRAME_SIZE && k < |Frame(p)|
    ensures Parse(Frame(p)[..k]).result.Err? && !Parse(Frame(p)[..k]).result.error.TooLarge?
  {
    U32RoundTrip(|p|);
    if 4 <= k {
      assert Frame(p)[..k][..4] == U32(|p|);
    }
  }

  ghost predicate Framable(ps: seq<Bytes>) {
    forall p :: p in ps ==> |p| <= MAX_FRAME_SIZE
  }

  function Frames(ps: seq<Bytes>): Bytes
    requires Framable(ps)
  {
    if ps == [] then [] else Frame(ps[0]) + Frames(ps[1..])
  }

  lemma {:induction false} FramesAppend(ps: seq<Bytes>, qs: seq<Bytes>)
    requires Framable(ps) && Framable(qs)
    ensures Framable(ps + qs) && Frames(ps + qs) == Frames(ps) + Frames(qs)
  {
    if ps == [] {
      assert ps + qs == qs;
    } else {
      FramesAppend(ps[1..], qs);
      FramesMove(ps[0], ps[1..], qs);
      assert [ps[0]] + ps[1..] == ps;
    }
  }

  lemma FramesMove(p: Bytes, ps: seq<Bytes>, qs: seq<Bytes>)
    requires |p| <= MAX_FRAME_SIZE && Framable(ps) && Framable(qs) && Framable(ps + qs)
    requires Frames(ps + qs) == Frames(ps) + Frames(qs)
    ensures Framable([p] + ps) && Framable(([p] + ps) + qs)
    ensures Frames(([p] + ps) + qs) == Frames([p] + ps) + Frames(qs)
  {
    FramesCons(p, ps);
    FramesCons(p, ps + qs);
    assert [p] + (ps + qs) == ([p] + ps) + qs;
    Associate(Frame(p), Frames(ps), Frames(qs));
  }

  lemma FramesCons(p: Bytes, ps: seq<Bytes>)
    requires |p| <= MAX_FRAME_SIZE && Framable(ps)
    ensures Framable([p] + ps) && Frames([p] + ps) == Frame(p) + Frames(ps)
  {
    assert ([p] + ps)[1..] == ps;
  }

  /** Reading until the first error: the payloads and that error. */
  function ReadAll(s: Bytes): (seq<Bytes>, Error)
    decreases |s|
  {
    var r := Parse(s);
    if r.result.Err? then ([], r.result.error)
    else
      assert |r.rest| < |s| by { ParseIsSound(s); }
      var (ps, e) := ReadAll(r.rest);
      ([r.result.value] + ps, e)
  }

  /** How many frames lie wholly within the first `k` bytes. */
  function Whole(ps: seq<Bytes>, k: nat): (w: nat)
    requires Framable(ps) && k <= |Frames(ps)|
    ensures w <= |ps|
  {
    if ps == [] || k < |Frame(ps[0])| then 0 else 1 + Whole(ps[1..], k - |Frame(ps[0])|)
  }

  lemma {:induction false} WholeIsExact(ps: seq<Bytes>, k: nat)
    requires Framable(ps) && k <= |Frames(ps)|
    ensures var w := Whole(ps, k);
            |Frames(ps[..w])| <= k && (w < |ps| ==> k < |Frames(ps[..w + 1])|)
  {
    if ps != [] {
      assert Framable(ps[1..]);
      FramesOfPrefix(ps, 1);
      if |Frame(ps[0])| <= k {
        var w := Whole(ps, k);
        WholeIsExact(ps[1..], k - |Frame(ps[0])|);
        FramesOfPrefix(ps, w);
        if w < |ps| {
          FramesOfPrefix(ps, w + 1);
        }
      }
    }
  }

  lemma FramesOfPrefix(ps: seq<Bytes>, w: nat)
    requires Framable(ps) && 1 <= w <= |ps|
    ensures Framable(ps[1..]) && Frames(ps[..w]) == Frame(ps[0]) + Frames(ps[1..][..w - 1])
  {
    assert ps[..w][1..] == ps[1..][..w - 1];
  }

  /** Cutting the stream of any list of frames anywhere, repeated reads yield
      exactly the payloads of the frames before the cut, and then fail for want of
      bytes. */
  lemma {:induction false} CutStream(ps: seq<Bytes>, k: nat)
    requires Framable(ps) && k <= |Frames(ps)|
    ensures ReadAll(Frames(ps)[..k]).0 == ps[..Whole(ps, k)]
    ensures !ReadAll(Frames(ps)[..k]).1.TooLarge?
  {
    if ps == [] {
      assert Frames(ps)[..k] == [];
    } else {
      var p, rest := ps[0], ps[1..];
      assert Framable(rest);
      if k < |Frame(p)| {
        assert Frames(ps)[..k] == Frame(p)[..k];
        ParseOfCutFrame(p, k);
      } else {
        var j := k - |Frame(p)|;
        CutStream(rest, j);
        CutLater(ps, k, j);
      }
    }
  }

  lemma CutLater(ps: seq<Bytes>, k: nat, j: nat)
    requires Framable(ps) && ps != [] && Framable(ps[1..]) && k <= |Frames(ps)| && k == |Frame(ps[0])| + j
    requires ReadAll(Frames(ps[1..])[..j]).0 == ps[1..][..Whole(ps[1..], j)]
    ensures ReadAll(Frames(ps)[..k]) == (ps[..Whole(ps, k)], ReadAll(Frames(ps[1..])[..j]).1)
  {
    CutFrames(ps, k, j);
    ReadAllOfFrame(ps[0], Frames(ps[1..])[..j]);
    WholeLater(ps, k, j);
    ConsPrefix(ps, Whole(ps[1..], j));
  }

  lemma CutFrames(ps: seq<Bytes>, k: nat, j: nat)
    requires Framable(ps) && ps != [] && Framable(ps[1..]) && k <= |Frames(ps)| && k == |Frame(ps[0])| + j
    ensures j <= |Frames(ps[1..])| && Frames(ps)[..k] == Frame(ps[0]) + Frames(ps[1..])[..j]
  {
    CutSplit(Frame(ps[0]), Frames(ps[1..]), j);
  }

  lemma WholeLater(ps: seq<Bytes>, k: nat, j: nat)
    requires Framable(ps) && ps != [] && Framable(ps[1..]) && k <= |Frames(ps)| && k == |Frame(ps[0])| + j
    ensures Whole(ps, k) == 1 + Whole(ps[1..], j)
  {
  }

  lemma CutSplit(a: Bytes, b: Bytes, j: nat)
    requires j <= |b|
    ensures (a + b)[..|a| + j] == a + b[..j]
  {
  }

  lemma ConsPrefix(ps: seq<Bytes>, w: nat)
    requires ps != [] && w < |ps|
    ensures [ps[0]] + ps[1..][..w] == ps[..w + 1]
  {
  }

  lemma ReadAllOfFrame(p: Bytes, s: Bytes)
    requires |p| <= MAX_FRAME_SIZE
    ensures ReadAll(Frame(p) + s) == ([p] + ReadAll(s).0, ReadAll(s).1)
  {
    ParseOfFrame(p, s);
  }

  /** The bytes under way in one direction of a connection. */
  class Pipe {
    var data: Bytes

    constructor ()
      ensures data == []
    {
      data := [];
    }

    /** `Write`: takes up to `room` bytes and reports whether that was all of them. */
    method Write(bytes: Bytes, room: nat) returns (ok: bool)
      modifies this
      ensures ok <==> |bytes| <= room
      ensures data == old(data) + if ok then bytes else bytes[..room]
    {
      ok := |bytes| <= room;
      data := data + if ok then bytes else bytes[..room];
    }

    /** `io.ReadFull` of `n` bytes: all of them, or failure with nothing left. */
    method ReadFull(n: nat) returns (ok: bool, bytes: Bytes)
      modifies this
      ensures ok <==> n <= |old(data)|
      ensures ok ==> bytes == old(data)[..n] && data == old(data)[n..]
      ensures !ok ==> bytes == [] && data == []
    {
      if n <= |data| {
        ok, bytes, data := true, data[..n], data[n..];
      } else {
        ok, bytes, data := false, [], [];
      }
    }
  }

  datatype WriteError = Oversize | WriteFailed

  /** `binary.BigEndian.PutUint32` into a buffer. */
  method PutU32(buf: array<Byte>, n: nat)
    requires 4 <= buf.Length && n < 0x1_0000_0000
    modifies buf
    ensures buf[..4] == U32(n) && buf[4..] == old(buf[4..])
  {
    buf[0] := n / 0x100_0000;
    buf[1] := n / 0x1_0000 % 0x100;
    buf[2] := n / 0x100 % 0x100;
    buf[3] := n % 0x100;
  }

  /** `WriteFrame`: header and payload go out in one write, which may fail part way. */
  method WriteFrame(w: Pipe, payload: Bytes, room: nat) returns (r: Result<(), WriteError>)
    modifies w
    ensures MAX_FRAME_SIZE < |payload| ==> r == Err(Oversize) && w.data == old(w.data)
    ensures |payload| <= MAX_FRAME_SIZE ==>
              var frame := Frame(payload);
              && r == (if |frame| <= room then Ok(()) else Err(WriteFailed))
              && w.data == old(w.data) + if |frame| <= room then frame else frame[..room]
  {
    if MAX_FRAME_SIZE < |payload| {
      return Err(Oversize);
    }
    var frame := new Byte[FRAME_LENGTH_SIZE + |payload|](i => 0);
    PutU32(frame, |payload|);
    for i := 0 to |payload|
      invariant frame[..4] == U32(|payload|)
      invariant frame[4..4 + i] == payload[..i]
      invariant w.data == old(w.data)
    {
      frame[4 + i] := payload[i];
    }
    assert frame[..] == frame[..4] + frame[4..];
    var bytes := frame[..];
    assert bytes == Frame(payload);
    var ok := w.Write(bytes, room);
    r := if ok then Ok(()) else Err(WriteFailed);
  }

  /** `ReadFrame`. */
  method ReadFrame(r: Pipe) returns (result: Result<Bytes, Error>)
    modifies r
    ensures Reading(result, r.data) == Parse(old(r.data))
  {
    var ok, header := r.ReadFull(FRAME_LENGTH_SIZE);
    if !ok {
      return Err(ShortHeader);
    }
    var size := FromU32(header);
    if MAX_FRAME_SIZE < size {
      return Err(TooLarge(size));
    }
    ghost var s, body := old(r.data), r.data;
    var payload: Bytes := [];
    assert size == 0 ==> s[4..4] == [] && s[4..] == body;
    if 0 < size {
      ok, payload := r.ReadFull(size);
      if !ok {
        return Err(ShortPayload);
      }
    }
    assert payload == s[4..4 + size] && r.data == s[4 + size..];
    return Ok(payload);
  }
}
