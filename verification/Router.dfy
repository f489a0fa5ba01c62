/** The broker's routing table (pkg/broker/router.go). */
module Router {
  import opened Messages

  /** Listeners by connection id, and the peer of each linked client. */
  datatype Table<C> = Table(listeners: map<string, C>, peers: map<C, C>)

  predicate Linked<C(==)>(t: Table<C>, c: C) {
    c in t.peers
  }

  ghost predicate Listening<C>(t: Table<C>, c: C) {
    exists id :: id in t.listeners && t.listeners[id] == c
  }

  /** `RegisterListener`, which fails on a taken id. */
  function WithListener<C>(t: Table<C>, id: string, c: C): Table<C> {
    if id in t.listeners then t else t.(listeners := t.listeners[id := c])
  }

  predicate CanLink<C(==)>(t: Table<C>, id: string) {
    id in t.listeners && t.listeners[id] !in t.peers
  }

  /** `LinkConnector`, which fails for an unknown id or a listener already linked. */
  function WithLink<C(==)>(t: Table<C>, id: string, c: C): Table<C> {
    if !CanLink(t, id) then t
    else
      var l := t.listeners[id];
      t.(peers := t.peers[l := c][c := l])
  }

  function Unlink<C(==)>(t: Table<C>, c: C): map<C, C> {
    if c in t.peers then t.peers - {t.peers[c]} - {c} else t.peers
  }

  /** What `Remove` may leave: one id of the client is gone, whichever the map
      iteration met first, and its link. */
  ghost predicate Removes<C>(t: Table<C>, c: C, u: Table<C>) {
    && u.peers == Unlink(t, c)
    && (Listening(t, c) ==> exists id :: id in t.listeners && t.listeners[id] == c && u.listeners == t.listeners - {id})
    && (!Listening(t, c) ==> u.listeners == t.listeners)
  }

  /** The client is gone from the table altogether. */
  function Without<C(==)>(t: Table<C>, c: C): Table<C> {
    Table(map id | id in t.listeners && t.listeners[id] != c :: t.listeners[id], Unlink(t, c))
  }

  /** No client is registered under two ids. */
  ghost predicate SingleIds<C>(t: Table<C>) {
    forall i, j :: i in t.listeners && j in t.listeners && t.listeners[i] == t.listeners[j] ==> i == j
  }

  /** Links are mutual and join exactly one listener to one other client. */
  ghost predicate Paired<C>(t: Table<C>) {
    forall c :: c in t.peers ==>
      && t.peers[c] != c
      && t.peers[c] in t.peers && t.peers[t.peers[c]] == c
      && (Listening(t, c) <==> !Listening(t, t.peers[c]))
  }

  ghost predicate WellFormed<C>(t: Table<C>) {
    SingleIds(t) && Paired(t)
  }

  /** Stopping at the first match is enough exactly because ids are single: what
      `Remove` leaves is then determined, and the client is in neither map. */
  lemma RemoveIsComplete<C>(t: Table<C>, c: C, u: Table<C>)
    requires SingleIds(t)
    ensures Removes(t, c, u) <==> u == Without(t, c)
  {
    if Listening(t, c) {
      var k :| k in t.listeners && t.listeners[k] == c;
      assert Without(t, c).listeners == t.listeners - {k};
      assert forall id :: id in t.listeners && t.listeners[id] == c ==> id == k;
    } else {
      assert Without(t, c).listeners == t.listeners;
    }
  }

  /** A client registered under two ids would survive its own removal. */
  lemma RemoveNeedsSingleIds<C>(t: Table<C>, c: C, i: string, j: string, u: Table<C>)
    requires i != j && i in t.listeners && j in t.listeners && t.listeners[i] == c && t.listeners[j] == c
    requires Removes(t, c, u)
    ensures Listening(u, c)
  {
    assert Listening(t, c);
    var k :| k in t.listeners && t.listeners[k] == c && u.listeners == t.listeners - {k};
    var survivor := if k == i then j else i;
    assert survivor in u.listeners && u.listeners[survivor] == c;
  }

  lemma ListenerKeeps<C>(t: Table<C>, id: string, c: C)
    requires WellFormed(t) && !Listening(t, c) && !Linked(t, c)
    ensures WellFormed(WithListener(t, id, c))
    ensures forall d :: Listening(WithListener(t, id, c), d) <==> Listening(t, d) || (d == c && id !in t.listeners)
  {
    var u := WithListener(t, id, c);
    if id !in t.listeners {
      assert id in u.listeners && u.listeners[id] == c;
      forall d ensures Listening(u, d) <==> Listening(t, d) || d == c {
        if Listening(t, d) {
          var k :| k in t.listeners && t.listeners[k] == d;
          assert k in u.listeners && u.listeners[k] == d;
        }
      }
    }
  }

  lemma LinkKeeps<C>(t: Table<C>, id: string, c: C)
    requires WellFormed(t) && !Listening(t, c) && !Linked(t, c)
    ensures WellFormed(WithLink(t, id, c))
    ensures forall d :: Listening(WithLink(t, id, c), d) <==> Listening(t, d)
  {
    var u := WithLink(t, id, c);
    assert u.listeners == t.listeners;
    if CanLink(t, id) {
      assert Listening(t, t.listeners[id]);
    }
  }

  lemma WithoutKeeps<C>(t: Table<C>, c: C)
    requires WellFormed(t)
    ensures var u := Without(t, c);
            && WellFormed(u) && !Listening(u, c) && !Linked(u, c)
            && (forall d :: d != c ==> (Listening(u, d) <==> Listening(t, d)))
            && (forall d :: Linked(u, d) <==> Linked(t, d) && d != c && t.peers[d] != c)
  {
    var u := Without(t, c);
    forall d | d != c ensures Listening(u, d) <==> Listening(t, d) {
      if Listening(t, d) {
        var k :| k in t.listeners && t.listeners[k] == d;
        assert k in u.listeners && u.listeners[k] == d;
      }
    }
    assert c in t.peers ==> t.peers[t.peers[c]] == c;
  }

  /** `Router`: the maps, and methods that each run under the lock. */
  class Router<C(==)> {
    var listeners: map<string, C>
    var peers: map<C, C>

    constructor ()
      ensures Contents() == Table(map[], map[])
    {
      listeners, peers := map[], map[];
    }

    function Contents(): Table<C>
      reads this
    {
      Table(listeners, peers)
    }

    method RegisterListener(id: string, client: C) returns (ok: bool)
      modifies this
      ensures ok <==> id !in old(listeners)
      ensures Contents() == WithListener(old(Contents()), id, client)
    {
      if id in listeners {
        return false;
      }
      listeners := listeners[id := client];
      return true;
    }

    method LinkConnector(id: string, connector: C) returns (ok: bool)
      modifies this
      ensures ok <==> CanLink(old(Contents()), id)
      ensures Contents() == WithLink(old(Contents()), id, connector)
    {
      if id !in listeners {
        return false;
      }
      var listener := listeners[id];
      if listener in peers {
        return false;
      }
      peers := peers[listener := connector];
      peers := peers[connector := listener];
      return true;
    }

    method GetPeer(client: C) returns (peer: Option<C>)
      ensures peer == if client in peers then Some(peers[client]) else None
    {
      peer := if client in peers then Some(peers[client]) else None;
    }

    /** The ids are visited in any order, up to the first that is the client's. */
    method Remove(client: C)
      modifies this
      ensures Removes(old(Contents()), client, Contents())
    {
      var ids := listeners.Keys;
      while ids != {}
        invariant ids <= listeners.Keys
        invariant Contents() == old(Contents())
        invariant forall id :: id in listeners && listeners[id] == client ==> id in ids
        decreases |ids|
      {
        var id :| id in ids;
        if listeners[id] == client {
          listeners := listeners - {id};
          break;
        }
        ids := ids - {id};
      }
      if client in peers {
        var peer := peers[client];
        peers := peers - {peer};
        peers := peers - {client};
      }
    }
  }
}
