/** What the separate lock acquisitions of `ClientConn.Close`
    (pkg/broker/client_conn.go:139-177) can and cannot do to the peer of a closing
    client: exactly when a partner is cut off without being closed, and exactly when a
    listener is linked a second time. */
module Races {
  import opened Messages
  import opened Broker
  import R = Router

  /** The step links its client, a connector, to listener `l`. */
  ghost predicate LinksTo(s: State, step: Step, l: Id) {
    && step.Ask? && Enabled(s, step)
    && var role := At(s, step.c).role;
    && role.Some? && role.value.Connect?
    && R.CanLink(s.table, role.value.id) && s.table.listeners[role.value.id] == l
  }

  lemma LinkRoles(s: State, step: Step, l: Id)
    requires Inv(s) && LinksTo(s, step, l)
    ensures var c, t := step.c, Next(s, step);
            && c != l && At(s, c).once.Unclosed? && c !in s.cascade
            && R.Listening(s.table, l) && !R.Linked(s.table, l) && !At(s, l).once.Removed?
            && t.table == R.WithLink(s.table, At(s, c).role.value.id, c)
            && t.table.peers[l] == c && t.table.peers[c] == l && t.cascade == s.cascade
            && At(t, c) == At(s, c).(handler := Serving)
            && forall d: Id :: d != c ==> At(t, d) == At(s, d)
  {
    var id := At(s, step.c).role.value.id;
    assert s.table.listeners[id] == l;
    assert R.Listening(s.table, l);
    assert ClientInv(s, step.c) && ClientInv(s, l);
    LinksIn(s, step.c, l, id);
  }

  lemma LinksIn(s: State, c: Id, l: Id, id: string)
    requires id in s.table.listeners && s.table.listeners[id] == l && !R.Linked(s.table, l) && c != l
    requires At(s, c).handler.Asking? && At(s, c).role == Some(Connect(id))
    ensures var t := Next(s, Ask(c));
            && t.table == R.WithLink(s.table, id, c) && t.table.peers[l] == c && t.table.peers[c] == l
            && t.cascade == s.cascade
            && At(t, c) == At(s, c).(handler := Serving) && t.slots == s.slots
            && forall d: Id :: d != c ==> At(t, d) == At(s, d)
  {
  }

  // ---------------------------------------------------------------------------
  // Whether `Close` reaches the partner it cuts off.

  /** If `l` is between its GetPeer and its Remove, the peer it read is its peer. */
  ghost predicate Reaches(s: State, l: Id) {
    At(s, l).once.PeerRead? && R.Linked(s.table, l) ==> At(s, l).once.peer == PeerOf(s.table, l)
  }

  /** A connector links to `l` between the GetPeer and the Remove of its `Close`. */
  ghost predicate LateLink(s: State, step: Step, l: Id) {
    LinksTo(s, step, l) && At(s, l).once.PeerRead?
  }

  /** The racing link is the one step that breaks this, and it always does. */
  lemma OnlyLateLinksBreak(s: State, step: Step, l: Id)
    requires Inv(s) && Reaches(s, l)
    ensures Reaches(Next(s, step), l) <==> !LateLink(s, step, l)
  {
    if LinksTo(s, step, l) {
      LinkReaches(s, step, l);
    } else if step.Ask? && Enabled(s, step) {
      OtherAsk(s, step.c, l);
    } else if step.CloseRemove? && Enabled(s, step) {
      RemoveReaches(s, step, l);
    } else if Enabled(s, step) {
      AskedStays(s, step);
      PlainOnce(s, step, l);
    }
  }

  lemma LinkReaches(s: State, step: Step, l: Id)
    requires Inv(s) && LinksTo(s, step, l)
    ensures Reaches(Next(s, step), l) <==> !LateLink(s, step, l)
  {
    LinkRoles(s, step, l);
    assert ClientInv(s, l);
  }

  lemma RemoveReaches(s: State, step: Step, l: Id)
    requires Inv(s) && Reaches(s, l) && step.CloseRemove? && Enabled(s, step)
    ensures Reaches(Next(s, step), l)
  {
    R.RemoveIsComplete(s.table, step.c, step.left);
    var t := Next(s, step);
    assert t.table.peers == R.Unlink(s.table, step.c);
    assert l != step.c ==> At(t, l) == At(s, l);
  }

  lemma OtherAsk(s: State, a: Id, l: Id)
    requires Inv(s) && Enabled(s, Ask(a)) && !LinksTo(s, Ask(a), l)
    ensures l != a ==> PeerOf(Next(s, Ask(a)).table, l) == PeerOf(s.table, l) && At(Next(s, Ask(a)), l) == At(s, l)
    ensures l == a ==> At(Next(s, Ask(a)), l).once.Unclosed?
  {
    assert ClientInv(s, a);
  }

  ghost predicate NoLateLinks(s: State, steps: seq<Step>, l: Id)
    decreases |steps|
  {
    steps == [] || (!LateLink(s, steps[0], l) && NoLateLinks(Next(s, steps[0]), steps[1..], l))
  }

  ghost predicate AlwaysReaches(s: State, steps: seq<Step>, l: Id)
    decreases |steps|
  {
    Reaches(s, l) && (steps == [] || AlwaysReaches(Next(s, steps[0]), steps[1..], l))
  }

  lemma {:induction false} ReachesFrom(s: State, steps: seq<Step>, l: Id)
    requires Inv(s) && Reaches(s, l)
    ensures AlwaysReaches(s, steps, l) <==> NoLateLinks(s, steps, l)
    ensures NoLateLinks(s, steps, l) ==> Reaches(Exec(s, steps), l)
    decreases |steps|
  {
    if steps != [] {
      OnlyLateLinksBreak(s, steps[0], l);
      StepInv(s, steps[0]);
      if !LateLink(s, steps[0], l) {
        ReachesFrom(Next(s, steps[0]), steps[1..], l);
      } else {
        assert !AlwaysReaches(Next(s, steps[0]), steps[1..], l);
      }
    }
  }

  /** In every run: the `Close` of a client is at all times about to close the partner
      it is about to cut off, if and only if nobody links to it between its GetPeer and
      its Remove; and then its Remove step hands over that partner to be closed. */
  lemma CloseReachesPeerExactly(steps: seq<Step>, l: Id)
    ensures AlwaysReaches(INIT, steps, l) <==> NoLateLinks(INIT, steps, l)
    ensures var s := Exec(INIT, steps);
            NoLateLinks(INIT, steps, l) ==>
              forall left :: Enabled(s, CloseRemove(l, left)) && R.Linked(s.table, l) ==>
                s.table.peers[l] in Next(s, CloseRemove(l, left)).cascade
  {
    InitInv();
    ReachesFrom(INIT, steps, l);
  }

  /** A connector serving without a peer, unclosed, and nobody's to close. */
  ghost predicate Orphan(s: State, c: Id) {
    && At(s, c).role.Some? && At(s, c).role.value.Connect?
    && At(s, c).handler.Serving? && At(s, c).once.Unclosed?
    && !R.Linked(s.table, c) && c !in s.cascade
  }

  /** Every open connector that serves is linked, or is going to be closed. */
  ghost predicate NoOrphans(s: State) {
    forall c: Id :: !Orphan(s, c)
  }

  lemma StepOrphans(s: State, step: Step, c: Id)
    requires Inv(s) && !Orphan(s, c) && forall l: Id :: Reaches(s, l)
    ensures !Orphan(Next(s, step), c)
  {
    if step.Ask? && Enabled(s, step) {
      AskOrphans(s, step.c, c);
    } else if step.CloseRemove? && Enabled(s, step) {
      RemoveOrphans(s, step, c);
    } else if Enabled(s, step) {
      AskedStays(s, step);
      PlainOrphans(s, step, c);
    }
  }

  lemma AskOrphans(s: State, a: Id, c: Id)
    requires Inv(s) && !Orphan(s, c) && Enabled(s, Ask(a))
    ensures !Orphan(Next(s, Ask(a)), c)
  {
    assert ClientInv(s, a);
    var t := Next(s, Ask(a));
    assert c != a ==> At(t, c) == At(s, c);
    assert R.Linked(s.table, c) ==> R.Linked(t.table, c);
  }

  lemma RemoveOrphans(s: State, step: Step, c: Id)
    requires Inv(s) && !Orphan(s, c) && step.CloseRemove? && Enabled(s, step) && Reaches(s, step.c)
    ensures !Orphan(Next(s, step), c)
  {
    var t := Next(s, step);
    assert t.table.peers == R.Unlink(s.table, step.c);
    assert At(t, step.c).once.Removed? && (c != step.c ==> At(t, c) == At(s, c));
  }

  lemma PlainOrphans(s: State, step: Step, c: Id)
    requires Inv(s) && !Orphan(s, c) && !step.Ask? && !step.CloseRemove? && Enabled(s, step)
    ensures !Orphan(Next(s, step), c)
  {
    AskedStays(s, step);
    PlainOnce(s, step, c);
    assert At(Next(s, step), c).handler.Serving? ==> At(s, c).handler.Serving?;
  }

  lemma {:induction false} OrphansFrom(s: State, steps: seq<Step>)
    requires Inv(s) && NoOrphans(s) && forall l: Id :: Reaches(s, l) && NoLateLinks(s, steps, l)
    ensures NoOrphans(Exec(s, steps))
    decreases |steps|
  {
    if steps != [] {
      var t := Next(s, steps[0]);
      StepInv(s, steps[0]);
      forall c: Id ensures !Orphan(t, c) {
        StepOrphans(s, steps[0], c);
      }
      forall l: Id ensures Reaches(t, l) && NoLateLinks(t, steps[1..], l) {
        assert NoLateLinks(s, steps, l);
        OnlyLateLinksBreak(s, steps[0], l);
      }
      OrphansFrom(t, steps[1..]);
    }
  }

  /** In a run in which nobody links late, no connector is ever orphaned. */
  lemma NoLateLinksNoOrphans(steps: seq<Step>)
    requires forall l: Id :: NoLateLinks(INIT, steps, l)
    ensures NoOrphans(Exec(INIT, steps))
  {
    InitInv();
    OrphansFrom(INIT, steps);
  }

  /** From every state of every run: a late link followed by the Remove it raced leaves
      the connector an orphan. */
  lemma LateLinkOrphans(s: State, c: Id, l: Id, left: R.Table<Id>)
    requires Inv(s) && LateLink(s, Ask(c), l) && R.Removes(Next(s, Ask(c)).table, l, left)
    ensures PeerOf(Next(s, Ask(c)).table, c) == Some(l)
    ensures Orphan(Next(Next(s, Ask(c)), CloseRemove(l, left)), c)
  {
    LinkRoles(s, Ask(c), l);
    assert ClientInv(s, l);
    var t := Next(s, Ask(c));
    assert At(t, l).once == At(s, l).once && At(s, l).once.peer != Some(c);
    CutOff(t, l, c, left);
  }

  /** A Remove step does not close a partner that its GetPeer did not find. */
  lemma CutOff(s: State, l: Id, c: Id, left: R.Table<Id>)
    requires At(s, l).once.PeerRead? && At(s, l).once.peer != Some(c) && R.Removes(s.table, l, left)
    requires PeerOf(s.table, l) == Some(c) && c != l && At(s, c).role.Some? && At(s, c).role.value.Connect?
    requires At(s, c).handler.Serving? && At(s, c).once.Unclosed? && c !in s.cascade
    ensures Orphan(Next(s, CloseRemove(l, left)), c)
  {
  }

  /** A partner is cut off by a Remove step whose `Close` will not close it only if the
      closing client is a registered listener to which somebody linked late. */
  lemma OnlyListenersOrphan(steps: seq<Step>, c: Id, left: R.Table<Id>)
    ensures var s := Exec(INIT, steps);
            Enabled(s, CloseRemove(c, left)) && R.Linked(s.table, c) && At(s, c).once.peer != Some(s.table.peers[c]) ==>
              R.Listening(s.table, c) && !NoLateLinks(INIT, steps, c)
  {
    InitInv();
    ExecInv(INIT, steps);
    ReachesFrom(INIT, steps, c);
    var s := Exec(INIT, steps);
    assert ClientInv(s, c);
    if R.Linked(s.table, c) && !R.Listening(s.table, c) {
      LinkedRoles(s, c);
    }
  }

  /** An unregistered end of a link has the connector's role. */
  lemma LinkedRoles(s: State, c: Id)
    requires Inv(s) && R.Linked(s.table, c) && !R.Listening(s.table, c)
    ensures At(s, c).role.Some? && At(s, c).role.value.Connect?
  {
    assert ClientInv(s, c);
  }

  /** A connector that links between the two lock acquisitions of its listener's `Close`
      ends up an orphan. */
  lemma ConnectorCanBeOrphaned(s: State, l: Id, c: Id, id: string, left: R.Table<Id>)
    requires Inv(s) && c !in s.cascade
    requires id in s.table.listeners && s.table.listeners[id] == l && !R.Linked(s.table, l)
    requires At(s, l).handler.Serving? && At(s, l).once.Unclosed?
    requires At(s, c).handler.Asking? && At(s, c).role == Some(Connect(id))
    requires R.Removes(R.WithLink(s.table, id, c), l, left)
    ensures var s3 := Next(Next(Next(s, CloseBegin(l)), CloseReadPeer(l)), Ask(c));
            && PeerOf(s3.table, c) == Some(l) && At(s3, c).role == Some(Connect(id))
            && Orphan(Next(s3, CloseRemove(l, left)), c)
  {
    HalfClosed(s, l);
    var s1 := Next(s, CloseBegin(l));
    var s2 := Next(s1, CloseReadPeer(l));
    StepInv(s, CloseBegin(l));
    StepInv(s1, CloseReadPeer(l));
    assert c != l;
    assert LateLink(s2, Ask(c), l);
    LinkRoles(s2, Ask(c), l);
    LateLinkOrphans(s2, c, l, left);
  }

  /** A client that is admitted, authenticated and says what it wants. */
  function Arrival(c: Id, role: Role): seq<Step> {
    [Accept(c), Shake(c, true), Step.Authenticate(c, true), FirstMessage(c, Some(role))]
  }

  lemma ExecFour(s: State, r: seq<Step>)
    requires |r| == 4
    ensures Exec(s, r) == Next(Next(Next(Next(s, r[0]), r[1]), r[2]), r[3])
  {
    var s1 := Next(s, r[0]);
    var s2 := Next(s1, r[1]);
    var s3 := Next(s2, r[2]);
    assert r[1..][1..] == r[2..] && r[2..][1..] == r[3..] && r[3..][1..] == [];
    assert Exec(s1, r[1..]) == Exec(s2, r[2..]);
    assert Exec(s2, r[2..]) == Exec(s3, r[3..]);
    assert Exec(s3, r[3..]) == Next(s3, r[3]);
  }

  lemma Arrives(s: State, c: Id, role: Role)
    requires At(s, c) == NEW && s.slots < MAX_CONNECTIONS
    ensures var t := Exec(s, Arrival(c, role));
            && At(t, c) == Client(Asking, Unclosed, Some(role), true)
            && t.table == s.table && t.cascade == s.cascade && t.slots == s.slots + 1
            && forall d: Id :: d != c ==> At(t, d) == At(s, d)
  {
    ExecFour(s, Arrival(c, role));
    var s1 := Next(s, Accept(c));
    assert At(s1, c) == NEW.(handler := Accepted);
    var s2 := Next(s1, Shake(c, true));
    assert At(s2, c) == NEW.(handler := Tracked);
    var s3 := Next(s2, Step.Authenticate(c, true));
    assert At(s3, c) == Client(Authenticated, Unclosed, None, true);
  }

  /** Such runs exist, with any two clients: the connector is linked to its listener,
      and later it is an orphan. */
  lemma OrphanIsReachable(l: Id, c: Id, id: string)
    requires l != c
    ensures exists before, after ::
              && PeerOf(Exec(INIT, before).table, c) == Some(l)
              && At(Exec(INIT, before), c).role == Some(Connect(id))
              && Orphan(Exec(Exec(INIT, before), after), c)
  {
    var early := Arrival(l, Listen(id)) + [Ask(l)] + Arrival(c, Connect(id));
    var s := Waiting(l, c, id);
    InitInv();
    ExecInv(INIT, early);
    var race, removal := OrphaningSteps(s, l, c, id);
    ExecAppend(INIT, early, race);
    var before := early + race;
    assert Exec(INIT, before) == Exec(s, race);
    assert Orphan(Exec(Exec(INIT, before), removal), c);
  }

  lemma OrphaningSteps(s: State, l: Id, c: Id, id: string) returns (race: seq<Step>, removal: seq<Step>)
    requires Inv(s) && s.cascade == {} && s.table == R.Table(map[id := l], map[])
    requires At(s, l).handler.Serving? && At(s, l).once.Unclosed?
    requires At(s, c) == Client(Asking, Unclosed, Some(Connect(id)), true)
    ensures PeerOf(Exec(s, race).table, c) == Some(l) && At(Exec(s, race), c).role == Some(Connect(id))
    ensures Orphan(Exec(Exec(s, race), removal), c)
  {
    var left := RemoveIsPossible(s, l, c, id);
    ConnectorCanBeOrphaned(s, l, c, id, left);
    race := [CloseBegin(l), CloseReadPeer(l), Ask(c)];
    removal := [CloseRemove(l, left)];
    ExecThree(s, race);
    var t := Exec(s, race);
    assert Exec(t, removal) == Next(t, CloseRemove(l, left));
  }

  lemma ExecThree(s: State, r: seq<Step>)
    requires |r| == 3
    ensures Exec(s, r) == Next(Next(Next(s, r[0]), r[1]), r[2])
  {
    var s1 := Next(s, r[0]);
    var s2 := Next(s1, r[1]);
    assert r[1..][1..] == r[2..] && r[2..][1..] == [];
    assert Exec(s1, r[1..]) == Exec(s2, r[2..]);
    assert Exec(s2, r[2..]) == Next(s2, r[2]);
  }

  lemma RemoveIsPossible(s: State, l: Id, c: Id, id: string) returns (left: R.Table<Id>)
    requires Inv(s) && At(s, c).handler.Asking?
    ensures R.Removes(R.WithLink(s.table, id, c), l, left)
  {
    var t := R.WithLink(s.table, id, c);
    left := R.Without(t, l);
    assert ClientInv(s, c);
    R.LinkKeeps(s.table, id, c);
    R.RemoveIsComplete(t, l, left);
  }

  /** A listener is registered and a connector is about to link to it. */
  lemma Waiting(l: Id, c: Id, id: string) returns (s: State)
    requires l != c
    ensures s == Exec(INIT, Arrival(l, Listen(id)) + [Ask(l)] + Arrival(c, Connect(id)))
    ensures s.table == R.Table(map[id := l], map[]) && s.cascade == {}
    ensures At(s, l).handler.Serving? && At(s, l).once.Unclosed?
    ensures At(s, c) == Client(Asking, Unclosed, Some(Connect(id)), true)
    ensures s.slots == 2 && forall d: Id :: d != l && d != c ==> At(s, d) == NEW
  {
    Arrives(INIT, l, Listen(id));
    var s1 := Exec(INIT, Arrival(l, Listen(id)));
    var s2 := Next(s1, Ask(l));
    assert s2.table == R.Table(map[id := l], map[]);
    assert At(s2, c) == At(s1, c) == At(INIT, c);
    assert Exec(s1, [Ask(l)]) == s2;
    Arrives(s2, c, Connect(id));
    s := Exec(s2, Arrival(c, Connect(id)));
    forall d: Id | d != l && d != c ensures At(s, d) == NEW {
      assert At(s, d) == At(s2, d) == At(s1, d) == At(INIT, d);
    }
    ExecAppend(INIT, Arrival(l, Listen(id)), [Ask(l)]);
    ExecAppend(INIT, Arrival(l, Listen(id)) + [Ask(l)], Arrival(c, Connect(id)));
  }

  // ---------------------------------------------------------------------------
  // Whether a listener has one peer for life.

  /** The connectors a run links to `l`, in order. */
  ghost function Links(s: State, steps: seq<Step>, l: Id): seq<Id>
    decreases |steps|
  {
    if steps == [] then []
    else (if LinksTo(s, steps[0], l) then [steps[0].c] else []) + Links(Next(s, steps[0]), steps[1..], l)
  }

  /** Nobody links to `l` while some `Close` has it on its list to close. */
  ghost predicate NoDoomedLinks(s: State, steps: seq<Step>, l: Id)
    decreases |steps|
  {
    steps == [] || (!(LinksTo(s, steps[0], l) && l in s.cascade) && NoDoomedLinks(Next(s, steps[0]), steps[1..], l))
  }

  /** `l` has been linked: it still is, or it is to be closed, or removed. */
  ghost predicate Tied(s: State, l: Id) {
    (R.Linked(s.table, l) && R.Listening(s.table, l)) || l in s.cascade || At(s, l).once.Removed?
  }

  /** `l` has never been linked to: no trace of a peer is left anywhere. */
  ghost predicate Untied(s: State, l: Id) {
    || (At(s, l).role.Some? && At(s, l).role.value.Connect?)
    || (!R.Linked(s.table, l) && l !in s.cascade && forall d: Id :: At(s, d).once != PeerRead(Some(l)))
  }

  lemma TiedStays(s: State, step: Step, l: Id)
    requires Inv(s) && Tied(s, l)
    ensures Tied(Next(s, step), l)
  {
    if step.Ask? && Enabled(s, step) {
      AskTied(s, step.c, l);
    } else if step.CloseRemove? && Enabled(s, step) {
      RemoveTied(s, step, l);
    } else if Enabled(s, step) {
      PlainTied(s, step, l);
    }
  }

  lemma PlainTied(s: State, step: Step, l: Id)
    requires Tied(s, l) && !step.Ask? && !step.CloseRemove?
    ensures Tied(Next(s, step), l)
  {
    AskedStays(s, step);
    if At(s, l).once.Removed? {
      OnceStays(s, [step], l);
      assert Exec(s, [step]) == Exec(Next(s, step), []);
    }
  }

  lemma AskTied(s: State, a: Id, l: Id)
    requires Inv(s) && Tied(s, l) && Enabled(s, Ask(a))
    ensures Tied(Next(s, Ask(a)), l)
  {
    assert ClientInv(s, a);
    var role := At(s, a).role.value;
    assert !Member(s.table, a);
    if role.Listen? {
      R.ListenerKeeps(s.table, role.id, a);
    } else {
      R.LinkKeeps(s.table, role.id, a);
    }
  }

  /** The Remove of a listener's connector has that listener on its list. */
  lemma RemoveTied(s: State, step: Step, l: Id)
    requires Inv(s) && Tied(s, l) && step.CloseRemove? && Enabled(s, step)
    ensures Tied(Next(s, step), l)
  {
    R.RemoveIsComplete(s.table, step.c, step.left);
    R.WithoutKeeps(s.table, step.c);
    assert ClientInv(s, step.c) && ClientInv(s, l);
    if step.c != l && R.Linked(s.table, l) && R.Listening(s.table, l) && s.table.peers[l] == step.c {
      LinkedRoles(s, step.c);
      assert s.table.peers[step.c] == l;
    }
  }

  lemma UntiedStays(s: State, step: Step, l: Id)
    requires Inv(s) && Untied(s, l)
    ensures LinksTo(s, step, l) ==> l !in s.cascade && Tied(Next(s, step), l)
    ensures !LinksTo(s, step, l) ==> Untied(Next(s, step), l)
  {
    assert ClientInv(s, l) && ClientInv(s, step.c);
    if LinksTo(s, step, l) {
      LinkRoles(s, step, l);
      LinkTies(s, step, l);
    } else if step.Ask? && Enabled(s, step) {
      OtherAskUntied(s, step.c, l);
    } else if Enabled(s, step) {
      OtherUntied(s, step, l);
    }
  }

  lemma LinkTies(s: State, step: Step, l: Id)
    requires Inv(s) && LinksTo(s, step, l)
    ensures R.Linked(Next(s, step).table, l) && R.Listening(Next(s, step).table, l)
    ensures At(s, l).role.Some? && At(s, l).role.value.Listen?
  {
    LinkRoles(s, step, l);
    assert ClientInv(s, step.c);
    var id := At(s, step.c).role.value.id;
    R.LinkKeeps(s.table, id, step.c);
    assert At(s, s.table.listeners[id]).role == Some(Listen(id));
  }

  lemma OtherAskUntied(s: State, a: Id, l: Id)
    requires Inv(s) && Untied(s, l) && Enabled(s, Ask(a)) && !LinksTo(s, Ask(a), l)
    ensures Untied(Next(s, Ask(a)), l)
  {
    assert ClientInv(s, a);
    OtherAsk(s, a, l);
    var t := Next(s, Ask(a));
    assert forall d: Id :: At(t, d).once == At(s, d).once && At(t, d).role == At(s, d).role;
  }

  lemma OtherUntied(s: State, step: Step, l: Id)
    requires Inv(s) && Untied(s, l) && !step.Ask? && Enabled(s, step)
    ensures Untied(Next(s, step), l)
  {
    if step.CloseRemove? {
      RemoveUntied(s, step, l);
    } else if step.FirstMessage? && step.c == l {
      FirstUntied(s, step);
    } else {
      PlainUntied(s, step, l);
    }
  }

  lemma RemoveUntied(s: State, step: Step, l: Id)
    requires Inv(s) && Untied(s, l) && step.CloseRemove? && Enabled(s, step)
    ensures Untied(Next(s, step), l)
  {
    R.RemoveIsComplete(s.table, step.c, step.left);
    var t := Next(s, step);
    assert t.table.peers == R.Unlink(s.table, step.c);
    assert At(t, step.c) == At(s, step.c).(once := Removed);
    assert forall d: Id :: d != step.c ==> At(t, d) == At(s, d);
  }

  /** A client whose role is not settled has left no trace. */
  lemma FirstUntied(s: State, step: Step)
    requires Inv(s) && step.FirstMessage? && Enabled(s, step)
    ensures Untied(Next(s, step), step.c)
  {
    AskedStays(s, step);
    assert ClientInv(s, step.c);
    var t := Next(s, step);
    forall d: Id ensures At(t, d).once != PeerRead(Some(step.c)) {
      assert ClientInv(s, d);
      PlainOnce(s, step, d);
    }
  }

  lemma PlainUntied(s: State, step: Step, l: Id)
    requires Inv(s) && Untied(s, l) && !step.Ask? && !step.CloseRemove? && (step.FirstMessage? ==> step.c != l)
    ensures Untied(Next(s, step), l)
  {
    AskedStays(s, step);
    PlainOnce(s, step, l);
    var t := Next(s, step);
    if !(At(s, l).role.Some? && At(s, l).role.value.Connect?) {
      forall d: Id ensures At(t, d).once != PeerRead(Some(l)) {
        PlainOnce(s, step, d);
        PeersOfUnlinked(s.table, d, l);
      }
    }
  }

  lemma PeersOfUnlinked(t: R.Table<Id>, d: Id, l: Id)
    requires R.WellFormed(t) && !R.Linked(t, l)
    ensures PeerOf(t, d) != Some(l)
  {
  }

  lemma {:induction false} TiedRun(s: State, steps: seq<Step>, l: Id)
    requires Inv(s) && Tied(s, l)
    ensures Links(s, steps, l) == [] <==> NoDoomedLinks(s, steps, l)
    decreases |steps|
  {
    if steps != [] {
      if LinksTo(s, steps[0], l) {
        LinkRoles(s, steps[0], l);
      } else {
        TiedStays(s, steps[0], l);
        StepInv(s, steps[0]);
        TiedRun(Next(s, steps[0]), steps[1..], l);
      }
    }
  }

  lemma {:induction false} UntiedRun(s: State, steps: seq<Step>, l: Id)
    requires Inv(s) && Untied(s, l)
    ensures |Links(s, steps, l)| <= 1 <==> NoDoomedLinks(s, steps, l)
    decreases |steps|
  {
    if steps != [] {
      UntiedStays(s, steps[0], l);
      StepInv(s, steps[0]);
      if LinksTo(s, steps[0], l) {
        TiedRun(Next(s, steps[0]), steps[1..], l);
      } else {
        UntiedRun(Next(s, steps[0]), steps[1..], l);
      }
    }
  }

  ghost predicate Distinct(cs: seq<Id>) {
    forall i, j :: 0 <= i < j < |cs| ==> cs[i] != cs[j]
  }

  /** A client asks once, so the connectors linked to `l` are different ones. */
  lemma {:induction false} LinksAreDistinct(s: State, steps: seq<Step>, l: Id)
    ensures Distinct(Links(s, steps, l))
    ensures forall c :: c in Links(s, steps, l) ==> !HasAsked(At(s, c).handler)
    decreases |steps|
  {
    if steps != [] {
      var t := Next(s, steps[0]);
      LinksAreDistinct(t, steps[1..], l);
      forall c | c in Links(t, steps[1..], l) ensures !HasAsked(At(s, c).handler) {
        if HasAsked(At(s, c).handler) {
          AskedForGood(s, steps[0], c);
        }
      }
      if LinksTo(s, steps[0], l) {
        assert HasAsked(At(t, steps[0].c).handler);
      }
    }
  }

  lemma {:induction false} RoleForGood(s: State, steps: seq<Step>, c: Id)
    requires HasAsked(At(s, c).handler)
    ensures At(Exec(s, steps), c).role == At(s, c).role
    decreases |steps|
  {
    if steps != [] {
      AskedForGood(s, steps[0], c);
      RoleForGood(Next(s, steps[0]), steps[1..], c);
    }
  }

  /** Outside of `Links` nothing gives a listener a peer. */
  lemma NewPeer(s: State, step: Step, l: Id)
    requires Inv(s) && !LinksTo(s, step, l) && !R.Linked(s.table, l) && R.Linked(Next(s, step).table, l)
    ensures HasAsked(At(Next(s, step), l).handler) && At(Next(s, step), l).role.Some?
    ensures At(Next(s, step), l).role.value.Connect?
  {
    if step.CloseRemove? && Enabled(s, step) {
      R.RemoveIsComplete(s.table, step.c, step.left);
    } else if step.Ask? && Enabled(s, step) {
      assert ClientInv(s, step.c);
      OtherAsk(s, step.c, l);
    }
  }

  lemma ListenersListen(s: State, l: Id)
    requires Inv(s) && R.Listening(s.table, l)
    ensures At(s, l).role.Some? && At(s, l).role.value.Listen?
  {
    var id :| id in s.table.listeners && s.table.listeners[id] == l;
    assert At(s, s.table.listeners[id]).role == Some(Listen(id));
  }

  lemma {:induction false} LinksCoverPeers(s: State, steps: seq<Step>, l: Id)
    requires Inv(s) && R.Linked(Exec(s, steps).table, l) && R.Listening(Exec(s, steps).table, l)
    ensures var p := Exec(s, steps).table.peers[l];
            p in Links(s, steps, l) || PeerOf(s.table, l) == Some(p)
    decreases |steps|
  {
    if steps != [] {
      var u := Next(s, steps[0]);
      StepInv(s, steps[0]);
      LinksCoverPeers(u, steps[1..], l);
      if LinksTo(s, steps[0], l) {
        LinkRoles(s, steps[0], l);
      } else if R.Linked(s.table, l) {
        SamePeer(s, steps[0], l);
      } else if R.Linked(u.table, l) {
        NewPeer(s, steps[0], l);
        RoleForGood(u, steps[1..], l);
        ExecInv(s, steps);
        ListenersListen(Exec(s, steps), l);
        assert false;
      }
    }
  }

  /** In every run a client is linked to by at most one connector in its life, if and
      only if nobody links to it while some `Close` is about to close it; the connectors
      linked to it are all different, and a listener's peer is always one of them. */
  lemma OnePeerExactly(steps: seq<Step>, l: Id)
    ensures |Links(INIT, steps, l)| <= 1 <==> NoDoomedLinks(INIT, steps, l)
    ensures Distinct(Links(INIT, steps, l))
    ensures var s := Exec(INIT, steps);
            R.Linked(s.table, l) && R.Listening(s.table, l) ==> s.table.peers[l] in Links(INIT, steps, l)
  {
    InitInv();
    if R.Linked(Exec(INIT, steps).table, l) && R.Listening(Exec(INIT, steps).table, l) {
      LinksCoverPeers(INIT, steps, l);
    }
    UntiedRun(INIT, steps, l);
    LinksAreDistinct(INIT, steps, l);
  }

  /** So between two moments of a run a registered listener changes its peer only if it
      is by then to be closed. */
  lemma {:induction false} PeerChangesOnlyWhenDoomed(s: State, steps: seq<Step>, l: Id)
    requires Inv(s) && R.Linked(s.table, l) && R.Listening(s.table, l)
    ensures var t := Exec(s, steps);
            R.Linked(t.table, l) && t.table.peers[l] != s.table.peers[l] ==> l in t.cascade
    decreases |steps|
  {
    if steps != [] {
      var t := Next(s, steps[0]);
      StepInv(s, steps[0]);
      TiedStays(s, steps[0], l);
      SamePeer(s, steps[0], l);
      ExecInv(s, steps);
      if l in t.cascade {
        DoomedStays(t, steps[1..], l);
      } else if At(t, l).once.Removed? {
        OnceStays(t, steps[1..], l);
        assert ClientInv(Exec(s, steps), l);
      } else {
        PeerChangesOnlyWhenDoomed(t, steps[1..], l);
      }
    }
  }

  /** No step replaces the peer of a linked client. */
  lemma SamePeer(s: State, step: Step, l: Id)
    requires Inv(s) && R.Linked(s.table, l)
    ensures R.Linked(Next(s, step).table, l) ==> Next(s, step).table.peers[l] == s.table.peers[l]
  {
    if step.Ask? && Enabled(s, step) {
      assert ClientInv(s, step.c);
      OtherAsk(s, step.c, l);
    } else if step.CloseRemove? && Enabled(s, step) {
      R.RemoveIsComplete(s.table, step.c, step.left);
    }
  }

  lemma {:induction false} DoomedStays(s: State, steps: seq<Step>, l: Id)
    requires l in s.cascade
    ensures l in Exec(s, steps).cascade
    decreases |steps|
  {
    if steps != [] {
      DoomedStays(Next(s, steps[0]), steps[1..], l);
    }
  }

  /** Nor does a listener keep one peer for life at this granularity: between the
      Remove of its connector and its own closing, another connector can link. */
  lemma ListenerCanBeRelinked(s: State, l: Id, c: Id, d: Id, id: string, left: R.Table<Id>)
    requires Inv(s) && c != d && d != l
    requires id in s.table.listeners && s.table.listeners[id] == l && PeerOf(s.table, l) == Some(c)
    requires At(s, c).once == PeerRead(Some(l)) && At(s, l).once.Unclosed?
    requires At(s, d).handler.Asking? && At(s, d).role == Some(Connect(id))
    requires R.Removes(s.table, c, left)
    ensures var t := Next(Next(s, CloseRemove(c, left)), Ask(d));
            PeerOf(t.table, l) == Some(d) && At(t, l).once.Unclosed? && l in t.cascade
  {
    assert ClientInv(s, c) && ClientInv(s, l) && ClientInv(s, d);
    R.RemoveIsComplete(s.table, c, left);
    R.WithoutKeeps(s.table, c);
    var s1 := Next(s, CloseRemove(c, left));
    assert s.table.peers[c] == l;
    assert c != l && !R.Listening(s.table, c);
    assert id in left.listeners && left.listeners[id] == l && l !in left.peers;
    assert At(s1, d) == At(s, d);
  }

  /** Three clients are enough for a listener to have two peers, one after the other. */
  lemma RelinkIsReachable(l: Id, c: Id, d: Id, id: string)
    requires l != c && l != d && c != d
    ensures exists before, after ::
              && PeerOf(Exec(INIT, before).table, l) == Some(c)
              && PeerOf(Exec(Exec(INIT, before), after).table, l) == Some(d)
  {
    var s := Waiting(l, c, id);
    var before := Arrival(l, Listen(id)) + [Ask(l)] + Arrival(c, Connect(id)) + [Ask(c)];
    ExecAppend(INIT, Arrival(l, Listen(id)) + [Ask(l)] + Arrival(c, Connect(id)), [Ask(c)]);
    LinksIn(s, c, l, id);
    var s1 := Next(s, Ask(c));
    assert Exec(s, [Ask(c)]) == s1;
    assert s1 == Exec(INIT, before);
    InitInv();
    ExecInv(INIT, before);
    var after := RelinkingSteps(s1, l, c, d, id);
  }

  lemma RelinkingSteps(s: State, l: Id, c: Id, d: Id, id: string) returns (after: seq<Step>)
    requires Inv(s) && l != c && l != d && c != d && s.slots < MAX_CONNECTIONS
    requires id in s.table.listeners && s.table.listeners[id] == l && PeerOf(s.table, l) == Some(c)
    requires At(s, c).handler.Serving? && At(s, c).once.Unclosed? && At(s, l).once.Unclosed? && At(s, d) == NEW
    ensures PeerOf(Exec(s, after).table, l) == Some(d)
  {
    var close := [CloseBegin(c), CloseReadPeer(c)];
    HalfClosed(s, c);
    var s1 := Next(s, close[0]);
    var s2 := Next(s1, close[1]);
    assert Exec(s, close) == Exec(s1, close[1..]) && Exec(s1, close[1..]) == s2;
    assert At(s2, c).once == PeerRead(Some(l)) && s2.slots == s.slots;
    Arrives(s2, d, Connect(id));
    var arrival := Arrival(d, Connect(id));
    var s3 := Exec(s2, arrival);
    ExecInv(s, close);
    ExecInv(s2, arrival);
    var relink := LastSteps(s3, l, c, d, id);
    ExecAppend(s2, arrival, relink);
    ExecAppend(s, close, arrival + relink);
    after := close + (arrival + relink);
  }

  lemma LastSteps(s: State, l: Id, c: Id, d: Id, id: string) returns (relink: seq<Step>)
    requires Inv(s) && c != d && d != l
    requires id in s.table.listeners && s.table.listeners[id] == l && PeerOf(s.table, l) == Some(c)
    requires At(s, c).once == PeerRead(Some(l)) && At(s, l).once.Unclosed?
    requires At(s, d) == Client(Asking, Unclosed, Some(Connect(id)), true)
    ensures PeerOf(Exec(s, relink).table, l) == Some(d)
  {
    var left := R.Without(s.table, c);
    R.RemoveIsComplete(s.table, c, left);
    ListenerCanBeRelinked(s, l, c, d, id, left);
    relink := [CloseRemove(c, left), Ask(d)];
    assert Exec(s, relink) == Exec(Next(s, relink[0]), relink[1..]);
    assert Exec(Next(s, relink[0]), relink[1..]) == Next(Next(s, relink[0]), relink[1]);
  }
}
