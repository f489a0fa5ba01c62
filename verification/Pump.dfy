/** `pumpLocalToRemote`, which listener.go:272-315 and connector.go:231-274 write
    identically: read a chunk, send it, and on a read error announce the close. */
module Pump {
  import opened Messages

  const CHUNK_SIZE := 32 * 1024

  /** Where the pump goroutine of a stream stands. */
  datatype Stage =
    | Unstarted
    | Reading
    | Sending(chunk: Bytes, last: bool)
    | SendFailed            // closeStream is next
    | Announcing            // CloseStream is to be sent
    | Removing              // removeStream is next
    | Stopped

  /** A pump with the bytes it has read from the local connection, the bytes it has
      handed to the session, and whether it has announced the end there. */
  datatype Outflow = Outflow(stage: Stage, read: Bytes, sent: Bytes, announced: bool)

  const IDLE := Outflow(Unstarted, [], [], false)

  /** A pump just started. */
  const STARTED := IDLE.(stage := Reading)

  /** The environment's answers: what a read returns, whether a send works. */
  datatype Action =
    | Read(chunk: Bytes, err: bool)
    | Send(ok: bool)
    | Abandon               // closeStream after a failed send
    | Announce(ok: bool)
    | Remove
    | Stop                  // closeCh observed

  predicate Enabled(o: Outflow, a: Action, closed: bool) {
    match a
    case Read(chunk, err) => o.stage.Reading? && |chunk| <= CHUNK_SIZE
    case Send(_) => o.stage.Sending?
    case Abandon => o.stage.SendFailed?
    case Announce(_) => o.stage.Announcing?
    case Remove => o.stage.Removing?
    case Stop => o.stage.Reading? && closed
  }

  function Next(o: Outflow, a: Action, closed: bool): Outflow
    requires Enabled(o, a, closed)
  {
    match a
    case Read(chunk, err) =>
      var stage := if chunk != [] then Sending(chunk, err) else if err then Announcing else Reading;
      o.(stage := stage, read := o.read + chunk)
    case Send(true) =>
      o.(stage := if o.stage.last then Announcing else Reading, sent := o.sent + o.stage.chunk)
    case Send(false) => o.(stage := SendFailed)
    case Announce(ok) => o.(stage := Removing, announced := ok)
    case Abandon => o.(stage := Stopped)
    case Remove => o.(stage := Stopped)
    case Stop => o.(stage := Stopped)
  }

  /** The envelopes the action puts on the session. */
  function Emits(o: Outflow, a: Action, closed: bool, id: StreamId): seq<Envelope>
    requires Enabled(o, a, closed)
  {
    match a
    case Send(true) => [Data(id, o.stage.chunk)]
    case Announce(true) => [CloseStream(id)]
    case _ => []
  }

  /** Whether the action deletes the stream from the end's `streams` map. */
  predicate Unregisters(a: Action) {
    a.Abandon? || a.Remove?
  }

  /** What the pump has sent is what it has read, up to the chunk in its hands; a
      failed send stops it, so nothing is ever sent past a gap. */
  ghost predicate Faithful(o: Outflow) {
    && o.sent <= o.read
    && (o.stage.Unstarted? ==> o == IDLE)
    && (o.stage.Reading? || o.stage.Announcing? || o.stage.Removing? ==> o.sent == o.read)
    && (o.stage.Sending? ==> o.sent + o.stage.chunk == o.read && 0 < |o.stage.chunk| <= CHUNK_SIZE)
    && (o.announced ==> o.stage.Removing? || o.stage.Stopped?)
  }

  lemma NextFaithful(o: Outflow, a: Action, closed: bool)
    requires Faithful(o) && Enabled(o, a, closed)
    ensures Faithful(Next(o, a, closed))
  {
  }

  // ---------------------------------------------------------------------------
  // What a pump puts on the session, from its start to its end.

  /** An action, and whether closeCh is closed when it is tried. */
  datatype Moment = Moment(action: Action, closed: bool)

  /** A pump with what it has put on the session, the chunks its reads returned, and
      whether one of them returned an error. */
  datatype Trail = Trail(o: Outflow, emitted: seq<Envelope>, chunks: seq<Bytes>, ended: bool)

  const START := Trail(STARTED, [], [], false)

  function Follow(tr: Trail, m: Moment, id: StreamId): Trail {
    if !Enabled(tr.o, m.action, m.closed) then tr
    else Trail(
      Next(tr.o, m.action, m.closed),
      tr.emitted + Emits(tr.o, m.action, m.closed, id),
      tr.chunks + if m.action.Read? && m.action.chunk != [] then [m.action.chunk] else [],
      tr.ended || (m.action.Read? && m.action.err))
  }

  function FollowAll(tr: Trail, ms: seq<Moment>, id: StreamId): Trail
    decreases |ms|
  {
    if ms == [] then tr else FollowAll(Follow(tr, ms[0], id), ms[1..], id)
  }

  /** The Data envelopes of chunks. */
  function Datas(chunks: seq<Bytes>, id: StreamId): seq<Envelope> {
    seq(|chunks|, i requires 0 <= i < |chunks| => Data(id, chunks[i]))
  }

  lemma DatasSnoc(chunks: seq<Bytes>, c: Bytes, id: StreamId)
    ensures Datas(chunks + [c], id) == Datas(chunks, id) + [Data(id, c)]
  {
  }

  ghost predicate SendsSucceed(ms: seq<Moment>) {
    forall i :: 0 <= i < |ms| ==> SendSucceeds(ms[i].action)
  }

  predicate SendSucceeds(a: Action) {
    a != Send(false) && a != Announce(false)
  }

  /** Where the envelopes stand at each stage. */
  ghost predicate OnTrack(tr: Trail, id: StreamId) {
    var all := Datas(tr.chunks, id);
    match tr.o.stage
    case Reading => tr.emitted == all && !tr.ended
    case Sending(chunk, last) => tr.emitted + [Data(id, chunk)] == all && last == tr.ended
    case Announcing => tr.emitted == all && tr.ended
    case Removing => tr.emitted == all + [CloseStream(id)] && tr.ended
    case Stopped => tr.emitted == all + if tr.ended then [CloseStream(id)] else []
    case _ => false
  }

  lemma FollowOnTrack(tr: Trail, m: Moment, id: StreamId)
    requires OnTrack(tr, id) && SendSucceeds(m.action)
    ensures OnTrack(Follow(tr, m, id), id)
  {
    if Enabled(tr.o, m.action, m.closed) && m.action.Read? {
      if m.action.chunk != [] {
        DatasSnoc(tr.chunks, m.action.chunk, id);
      } else {
        assert tr.chunks + [] == tr.chunks;
      }
    }
  }

  lemma {:induction false} FollowAllOnTrack(tr: Trail, ms: seq<Moment>, id: StreamId)
    requires OnTrack(tr, id) && SendsSucceed(ms)
    ensures OnTrack(FollowAll(tr, ms, id), id)
    decreases |ms|
  {
    if ms != [] {
      FollowOnTrack(tr, ms[0], id);
      FollowAllOnTrack(Follow(tr, ms[0], id), ms[1..], id);
    }
  }

  /** For all reads and all schedules: a pump whose sends succeed has, when it stops, put
      on the session the chunks it read, in order, each once, followed by exactly one
      CloseStream if and only if a read returned an error; and it is never short of more
      than the chunk in its hands. */
  lemma PumpLaw(ms: seq<Moment>, id: StreamId)
    requires SendsSucceed(ms)
    ensures var tr := FollowAll(START, ms, id);
            && OnTrack(tr, id)
            && (tr.o.stage.Stopped? ==>
                  tr.emitted == Datas(tr.chunks, id) + if tr.ended then [CloseStream(id)] else [])
  {
    FollowAllOnTrack(START, ms, id);
  }
}
