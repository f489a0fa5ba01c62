/** `ClientConn.Close` (pkg/broker/client_conn.go:139-177), run without interleaving:
    the client's own teardown and the cascade to its peer. */
module ClientConn {
  import opened Messages
  import R = Router

  /** The table without a client and without its peer. */
  function CloseBoth<C(==)>(t: R.Table<C>, c: C): R.Table<C> {
    if c in t.peers then R.Without(R.Without(t, c), t.peers[c]) else R.Without(t, c)
  }

  /** The client and its peer are erased, and every other registration and link is
      as it was. */
  lemma CloseBothIsExact<C>(t: R.Table<C>, c: C)
    requires R.WellFormed(t)
    ensures var u := CloseBoth(t, c);
            var gone := if c in t.peers then {c, t.peers[c]} else {c};
            && R.WellFormed(u)
            && (forall id :: id in u.listeners <==> id in t.listeners && t.listeners[id] !in gone)
            && (forall id :: id in u.listeners ==> u.listeners[id] == t.listeners[id])
            && (forall d :: d in u.peers <==> d in t.peers && d !in gone)
            && (forall d :: d in u.peers ==> u.peers[d] == t.peers[d])
  {
    R.WithoutKeeps(t, c);
    if c in t.peers {
      var p := t.peers[c];
      assert t.peers[p] == c;
      R.WithoutKeeps(R.Without(t, c), p);
    }
  }

  predicate IsPeer(t: R.Table<ClientConn>, c: ClientConn, d: ClientConn) {
    c in t.peers && t.peers[c] == d
  }

  ghost function Unclosed(all: set<ClientConn>): set<ClientConn>
    reads all
  {
    set c | c in all && !c.closed
  }

  /** The table is well formed and lists clients of this broker that are not closed. */
  ghost predicate World(router: R.Router<ClientConn>, all: set<ClientConn>)
    reads router, all
  {
    && R.WellFormed(router.Contents())
    && (forall c :: c in all ==> c.router == router)
    && (forall id :: id in router.listeners ==> router.listeners[id] in all && !router.listeners[id].closed)
    && (forall c :: c in router.peers ==> c in all && !c.closed && router.peers[c] in all)
  }

  class ClientConn {
    const router: R.Router<ClientConn>
    var closed: bool
    var inbox: seq<Envelope>          // what the broker has sent to the client

    constructor (router: R.Router<ClientConn>)
      ensures this.router == router && !closed && inbox == []
    {
      this.router := router;
      closed, inbox := false, [];
    }

    method Send(env: Envelope)
      modifies this`inbox
      ensures inbox == old(inbox) + [env]
    {
      inbox := inbox + [env];
    }

    /** The body of `closeOnce`: signal, read the peer, leave the router. */
    method Teardown(ghost all: set<ClientConn>) returns (peer: Option<ClientConn>)
      requires this in all && World(router, all) && !closed
      modifies router, this`closed
      ensures World(router, all) && closed
      ensures router.Contents() == R.Without(old(router.Contents()), this)
      ensures peer == if this in old(router.peers) then Some(old(router.peers[this])) else None
      ensures peer.Some? ==>
                peer.value != this && peer.value in all && !peer.value.closed && peer.value !in router.peers
    {
      closed := true;
      peer := router.GetPeer(this);
      router.Remove(this);
      R.RemoveIsComplete(old(router.Contents()), this, router.Contents());
      R.WithoutKeeps(old(router.Contents()), this);
    }

    /** `Close`. `all` are the clients of this router. */
    method Close(ghost all: set<ClientConn>)
      requires this in all && World(router, all)
      modifies router, all`closed, all`inbox
      ensures World(router, all)
      ensures old(closed) ==> router.Contents() == old(router.Contents())
      ensures !old(closed) ==> router.Contents() == CloseBoth(old(router.Contents()), this)
      ensures forall d :: d in all ==>
                (d.closed <==> old(d.closed) || d == this || (!old(closed) && IsPeer(old(router.Contents()), this, d)))
      ensures forall d :: d in all ==>
                d.inbox == old(d.inbox) +
                  if !old(closed) && IsPeer(old(router.Contents()), this, d) then [Disconnect("peer disconnected")]
                  else []
      decreases Unclosed(all)
    {
      var peer: Option<ClientConn> := None;
      if !closed {
        peer := Teardown(all);
      }
      if peer.Some? {
        assert Unclosed(all) < old(Unclosed(all)) by {
          assert this in old(Unclosed(all)) && this !in Unclosed(all);
        }
        peer.value.Send(Disconnect("peer disconnected"));
        peer.value.Close(all);
      }
    }
  }
}
