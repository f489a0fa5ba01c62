/** The connector's shared maps and its id counter (pkg/tunnel/connector.go): every
    critical section of `pendingMu` and `streamsMu` is a method that does to the maps
    what the step of the same name does in the step system. A connection and an ack
    channel are named by the id they were made for. */
module ConnectorStreams {
  import opened Messages
  import C = Connector

  class Streams {
    var nextStreamID: StreamId
    var pendingStreams: set<StreamId>
    var streams: set<StreamId>

    constructor ()
      ensures Shows(C.INIT)
    {
      nextStreamID, pendingStreams, streams := 0, {}, {};
    }

    ghost predicate Shows(c: C.State)
      reads this
    {
      && nextStreamID == c.next
      && forall id: StreamId ::
           (id in pendingStreams <==> C.At(c, id).pending) && (id in streams <==> C.At(c, id).registered)
    }

    /** `nextStreamID.Add(1)`, with the wrap-around of `uint32`: the step system knows
        the id for a new one unless the counter has just wrapped. */
    method Allocate(ghost c: C.State) returns (id: StreamId)
      requires Shows(c)
      modifies this
      ensures id == (c.next + 1) % 0x1_0000_0000 && nextStreamID == id
      ensures pendingStreams == old(pendingStreams) && streams == old(streams)
      ensures C.Enabled(c, C.Accept) ==> Shows(C.Next(c, C.Accept)) && C.At(C.Next(c, C.Accept), id).phase.Allocated?
    {
      nextStreamID := (nextStreamID + 1) % 0x1_0000_0000;
      id := nextStreamID;
    }

    method SetPending(id: StreamId, ghost c: C.State)
      requires Shows(c) && C.Enabled(c, C.Handle(id, C.SetPending))
      modifies this
      ensures Shows(C.Next(c, C.Handle(id, C.SetPending)))
    {
      pendingStreams := pendingStreams + {id};
    }

    method Register(id: StreamId, ghost c: C.State)
      requires Shows(c) && C.Enabled(c, C.Handle(id, C.Register))
      modifies this
      ensures Shows(C.Next(c, C.Handle(id, C.Register)))
    {
      streams := streams + {id};
    }

    /** `handleMessages`, OpenStreamAck: look the channel up and take it out. */
    method TakePending(id: StreamId, success: bool, message: string, ghost c: C.State) returns (ok: bool)
      requires Shows(c) && c.loop.Idle?
      modifies this
      ensures Shows(C.Receive(c, OpenStreamAck(id, success, message)))
      ensures C.Receive(c, OpenStreamAck(id, success, message)).loop == if ok then C.Delivering(id, success) else C.Idle
    {
      ok := id in pendingStreams;
      pendingStreams := pendingStreams - {id};
    }

    /** `handleData` under the lock. */
    method Lookup(id: StreamId, payload: Bytes, ghost c: C.State) returns (ok: bool)
      requires Shows(c) && c.loop.Idle?
      ensures Shows(C.Receive(c, Data(id, payload)))
      ensures C.Receive(c, Data(id, payload)).loop == if ok then C.Writing(id, payload) else C.Idle
    {
      ok := id in streams;
    }

    /** `closeStream` and `removeStream`. */
    method RemoveStream(id: StreamId, ghost c: C.State) returns (hadConn: bool)
      requires Shows(c)
      modifies this
      ensures Shows(C.Put(c, id, C.At(c, id).(registered := false)))
      ensures hadConn <==> id in old(streams)
    {
      hadConn := id in streams;
      streams := streams - {id};
    }

    /** `removePending`. */
    method RemovePending(id: StreamId, ghost c: C.State)
      requires Shows(c) && C.Enabled(c, C.Handle(id, C.Forget))
      modifies this
      ensures Shows(C.Next(c, C.Handle(id, C.Forget)))
    {
      pendingStreams := pendingStreams - {id};
    }

    /** `Close` under the lock. */
    method Clear(ghost c: C.State) returns (closed: set<StreamId>)
      requires Shows(c) && c.closed
      modifies this
      ensures Shows(C.Next(c, C.Clear)) && closed == old(streams)
    {
      closed := Empty();
      ClearEmpties(c);
    }

    /** Its loop: close every local connection and empty the map. */
    method Empty() returns (closed: set<StreamId>)
      modifies this`streams
      ensures streams == {} && closed == old(streams)
    {
      closed := {};
      while streams != {}
        invariant closed + streams == old(streams) && closed !! streams
        decreases |streams|
      {
        var id :| id in streams;
        closed := closed + {id};
        streams := streams - {id};
      }
    }
  }

  lemma ClearEmpties(c: C.State)
    requires c.closed
    ensures forall id: StreamId :: !C.At(C.Next(c, C.Clear), id).registered
    ensures forall id: StreamId :: C.At(C.Next(c, C.Clear), id).pending == C.At(c, id).pending
  {
  }
}
