/** The listener's `streams` map (pkg/tunnel/listener.go) as the object its goroutines
    share: every critical section of `streamsMu` is a method, and each of them does to
    the map what the step of the same name does in the step system. */
module ListenerStreams {
  import opened Messages
  import L = Listener

  /** Where `handleData` leaves a chunk. */
  datatype Fate = Dropped | Buffered | ToConn

  class Streams {
    var streams: map<StreamId, L.Entry>

    constructor ()
      ensures Shows(L.INIT)
    {
      streams := map[];
    }

    /** The map holds the entries of the step system's state. */
    ghost predicate Shows(l: L.State)
      reads this
    {
      forall id: StreamId ::
        L.At(l, id).entry == if id in streams then Some(streams[id]) else None
    }

    /** `handleMessages`, OpenStream. */
    method Register(id: StreamId, ghost l: L.State)
      requires Shows(l)
      modifies this
      ensures Shows(L.Receive(l, OpenStream(id)))
    {
      streams := streams[id := L.Entry(false, [])];
    }

    /** `handleOpenStream` after a good dial: publish the connection, take the buffer. */
    method HandOver(id: StreamId, ghost l: L.State) returns (found: bool, buffered: seq<Bytes>)
      requires Shows(l)
      modifies this
      ensures Shows(L.Put(l, id, L.TakeOver(L.At(l, id))))
      ensures L.TakeOver(L.At(l, id)).handler == if found then L.Draining(buffered) else L.Finished
    {
      if id !in streams {
        return false, [];
      }
      buffered := streams[id].buf;
      streams := streams[id := L.Entry(true, [])];
      found := true;
    }

    /** `handleData` under the lock. */
    method Accept(id: StreamId, payload: Bytes, ghost l: L.State) returns (fate: Fate)
      requires Shows(l) && l.loop.Idle?
      modifies this
      ensures Shows(L.Receive(l, Data(id, payload)))
      ensures L.Receive(l, Data(id, payload)).loop == if fate.ToConn? then L.Writing(id, payload) else L.Idle
      ensures fate.Dropped? <==> id !in old(streams)
    {
      if id !in streams {
        return Dropped;
      }
      var state := streams[id];
      if !state.hasConn {
        streams := streams[id := state.(buf := state.buf + [payload])];
        return Buffered;
      }
      return ToConn;
    }

    /** `closeStream`, `removeStream` and the deletion after a failed dial; `hadConn`
        tells `closeStream` whether there is a connection to close. */
    method Delete(id: StreamId, ghost l: L.State) returns (hadConn: bool)
      requires Shows(l)
      modifies this
      ensures Shows(L.Put(l, id, L.Unregister(L.At(l, id))))
      ensures hadConn <==> id in old(streams) && old(streams)[id].hasConn
    {
      hadConn := id in streams && streams[id].hasConn;
      streams := streams - {id};
    }

    /** `Close` under the lock. */
    method Clear(ghost l: L.State) returns (closed: set<StreamId>)
      requires Shows(l) && l.closed
      modifies this
      ensures Shows(L.Next(l, L.Clear))
      ensures closed == set id | id in old(streams) && old(streams)[id].hasConn
    {
      closed := Empty();
      ClearEmpties(l);
    }

    /** Its loop: close every connection and empty the map. */
    method Empty() returns (closed: set<StreamId>)
      modifies this
      ensures streams == map[]
      ensures closed == set id | id in old(streams) && old(streams)[id].hasConn
    {
      ghost var all := streams;
      closed := {};
      while streams != map[]
        invariant forall id :: id in streams ==> id in all && streams[id] == all[id]
        invariant forall id :: id in closed <==> id in all && id !in streams && all[id].hasConn
        decreases |streams|
      {
        var id :| id in streams;
        if streams[id].hasConn {
          closed := closed + {id};
        }
        streams := streams - {id};
      }
    }
  }

  lemma ClearEmpties(l: L.State)
    requires l.closed
    ensures forall id: StreamId :: L.At(L.Next(l, L.Clear), id).entry.None?
  {
  }
}
