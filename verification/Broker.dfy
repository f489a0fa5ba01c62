/** The life of the broker's clients, one step per lock acquisition: admission
    (pkg/broker/server.go:163-218), roles (server.go:267-380) and `ClientConn.Close`
    (pkg/broker/client_conn.go:139-177), interleaved in any order. `Server.Stop` is
    not part of these runs. */
module Broker {
  import opened Messages
  import R = Router
  import B = ClientConn

  const MAX_CONNECTIONS := 1024

  /** A client is named by a number, its identity as a pointer. */
  type Id = nat

  datatype Role = Listen(id: string) | Connect(id: string)

  /** Where the `handleClient` goroutine of a client stands. */
  datatype Handler =
    | Absent
    | Accepted                        // slot taken, handshake running
    | Tracked
    | Authenticated
    | Asking                          // role known, router call ahead
    | Serving                         // registered or linked
    | Closing                         // inside client.Close()
    | Untracking                      // about to return
    | Releasing                       // untracked, slot still held
    | Gone

  /** How far the `closeOnce` body of a client has come. */
  datatype Once = Unclosed | Signalled | PeerRead(peer: Option<Id>) | Removed

  datatype Client = Client(handler: Handler, once: Once, role: Option<Role>, authenticated: bool)

  const NEW := Client(Absent, Unclosed, None, false)

  /** `cascade` holds the clients some `Close` has read as its peer and still has to
      close; `slots` counts the tokens in `connSem`. */
  datatype State = State(
    table: R.Table<Id>,
    clients: map<Id, Client>,
    running: set<Id>,
    tracked: set<Id>,
    slots: nat,
    cascade: set<Id>)

  const INIT := State(R.Table(map[], map[]), map[], {}, {}, 0, {})

  function At(s: State, c: Id): Client {
    if c in s.clients then s.clients[c] else NEW
  }

  function Put(s: State, c: Id, x: Client): State {
    s.(clients := s.clients[c := x])
  }

  datatype Step =
    | Accept(c: Id)
    | Shake(c: Id, ok: bool)                  // handshake, then trackClient
    | Authenticate(c: Id, ok: bool)
    | FirstMessage(c: Id, role: Option<Role>) // None: an error or another message
    | Ask(c: Id)                              // RegisterListener or LinkConnector
    | StopServing(c: Id)                      // relayMessages gives up
    | CloseBegin(c: Id)
    | CloseReadPeer(c: Id)
    | CloseRemove(c: Id, left: R.Table<Id>)
    | CloseReturn(c: Id)
    | Untrack(c: Id)
    | Release(c: Id)

  /** Who can be calling `Close`: the client's own handler, its heartbeat goroutine,
      or the `Close` of a former peer. */
  predicate MayClose(s: State, c: Id) {
    At(s, c).handler.Closing? || At(s, c).handler.Serving? || c in s.cascade
  }

  ghost predicate Enabled(s: State, step: Step) {
    var x := At(s, step.c);
    match step
    case Accept(_) => x.handler.Absent? && s.slots < MAX_CONNECTIONS
    case Shake(_, _) => x.handler.Accepted?
    case Authenticate(_, _) => x.handler.Tracked?
    case FirstMessage(_, _) => x.handler.Authenticated?
    case Ask(_) => x.handler.Asking?
    case StopServing(_) => x.handler.Serving?
    case CloseBegin(c) => x.once.Unclosed? && MayClose(s, c)
    case CloseReadPeer(_) => x.once.Signalled?
    case CloseRemove(c, left) => x.once.PeerRead? && R.Removes(s.table, c, left)
    case CloseReturn(_) => x.handler.Closing? && x.once.Removed?
    case Untrack(_) => x.handler.Untracking?
    case Release(_) => x.handler.Releasing?
  }

  /** The router call of a role: whether it works and the table it leaves. */
  predicate Succeeds(t: R.Table<Id>, role: Role) {
    match role
    case Listen(id) => id !in t.listeners
    case Connect(id) => R.CanLink(t, id)
  }

  function Asked(t: R.Table<Id>, role: Role, c: Id): R.Table<Id> {
    match role
    case Listen(id) => R.WithListener(t, id, c)
    case Connect(id) => R.WithLink(t, id, c)
  }

  function PeerOf(t: R.Table<Id>, c: Id): Option<Id> {
    if c in t.peers then Some(t.peers[c]) else None
  }

  ghost function Next(s: State, step: Step): State {
    if !Enabled(s, step) then s
    else
      var x := At(s, step.c);
      match step
      case Accept(c) => Put(s, c, x.(handler := Accepted)).(slots := s.slots + 1, running := s.running + {c})
      case Shake(c, true) => Put(s, c, x.(handler := Tracked)).(tracked := s.tracked + {c})
      case Shake(c, false) => Put(s, c, x.(handler := Releasing))
      case Authenticate(c, true) => Put(s, c, x.(handler := Authenticated, authenticated := true))
      case Authenticate(c, false) => Put(s, c, x.(handler := Untracking))
      case FirstMessage(c, role) => Put(s, c, x.(handler := if role.Some? then Asking else Closing, role := role))
      case Ask(c) =>
        if x.role.None? then s
        else Put(s, c, x.(handler := if Succeeds(s.table, x.role.value) then Serving else Closing))
             .(table := Asked(s.table, x.role.value, c))
      case StopServing(c) => Put(s, c, x.(handler := Closing))
      case CloseBegin(c) => Put(s, c, x.(once := Signalled))
      case CloseReadPeer(c) => Put(s, c, x.(once := PeerRead(PeerOf(s.table, c))))
      case CloseRemove(c, left) =>
        Put(s, c, x.(once := Removed))
        .(table := left, cascade := s.cascade + if x.once.peer.Some? then {x.once.peer.value} else {})
      case CloseReturn(c) => Put(s, c, x.(handler := Untracking))
      case Untrack(c) => Put(s, c, x.(handler := Releasing)).(tracked := s.tracked - {c})
      case Release(c) =>
        Put(s, c, x.(handler := Gone))
        .(slots := if 0 < s.slots then s.slots - 1 else 0, running := s.running - {c})
  }

  ghost function Exec(s: State, steps: seq<Step>): State
    decreases |steps|
  {
    if steps == [] then s else Exec(Next(s, steps[0]), steps[1..])
  }

  // ---------------------------------------------------------------------------
  // The invariant.

  ghost predicate Member(t: R.Table<Id>, c: Id) {
    R.Listening(t, c) || R.Linked(t, c)
  }

  /** The client will not call the router for a role any more. */
  predicate HasAsked(h: Handler) {
    h.Serving? || h.Closing? || h.Untracking? || h.Releasing? || h.Gone?
  }

  /** What the router's membership says about one client. */
  ghost predicate ClientInv(s: State, c: Id) {
    var x := At(s, c);
    && (x.handler.Absent? ==> x == NEW)
    && (x.handler.Authenticated? || x.handler.Asking? ==> x.authenticated)
    && (x.handler.Asking? ==> x.role.Some?)
    && (x.once != Unclosed || c in s.cascade ==> HasAsked(x.handler))
    && (x.once.PeerRead? && x.once.peer.Some? ==> HasAsked(At(s, x.once.peer.value).handler))
    && (Member(s.table, c) ==>
          && x.authenticated && x.role.Some? && !x.once.Removed?
          && (x.handler.Serving? || x.handler.Closing?))
    && (R.Linked(s.table, c) ==> x.role.Some? && (x.role.value.Listen? <==> R.Listening(s.table, c)))
    && (x.role.Some? && x.role.value.Connect? && x.once.PeerRead? && R.Linked(s.table, c) ==>
          x.once.peer == Some(s.table.peers[c]))
  }

  /** Handlers, tracking and slots. */
  ghost predicate SlotInv(s: State, c: Id) {
    var h := At(s, c).handler;
    && (c in s.running <==> !h.Absent? && !h.Gone?)
    && (c in s.tracked <==> !h.Absent? && !h.Accepted? && !h.Releasing? && !h.Gone?)
  }

  ghost predicate Inv(s: State) {
    && R.WellFormed(s.table)
    && (forall id :: id in s.table.listeners ==> At(s, s.table.listeners[id]).role == Some(Listen(id)))
    && (forall c: Id :: ClientInv(s, c))
    && (forall c: Id :: SlotInv(s, c))
    && s.slots == |s.running| <= MAX_CONNECTIONS
  }

  /** The steps that leave the table alone change one client's handler or `once`. */
  lemma PlainStepClients(s: State, step: Step, c: Id)
    requires Inv(s) && !step.Ask? && !step.CloseRemove?
    ensures ClientInv(Next(s, step), c)
  {
    assert ClientInv(s, c) && ClientInv(s, step.c);
    if c == step.c {
      PlainStepOwn(s, step);
    } else {
      AskedStays(s, step);
      OtherClient(s, Next(s, step), step.c, c);
    }
  }

  lemma AskedStays(s: State, step: Step)
    requires !step.Ask? && !step.CloseRemove?
    ensures var t := Next(s, step);
            && t.table == s.table && t.cascade == s.cascade
            && (forall d: Id :: d != step.c ==> At(t, d) == At(s, d))
            && (HasAsked(At(s, step.c).handler) ==> HasAsked(At(t, step.c).handler))
  {
  }

  /** What such a step does to the `once` of a client. */
  lemma PlainOnce(s: State, step: Step, c: Id)
    requires !step.Ask? && !step.CloseRemove?
    ensures var was, now := At(s, c).once, At(Next(s, step), c).once;
            || now == was || now.Signalled? || now == PeerRead(PeerOf(s.table, c))
    ensures !step.CloseBegin? && !step.CloseReadPeer? ==> At(Next(s, step), c).once == At(s, c).once
    ensures !step.FirstMessage? || step.c != c ==> At(Next(s, step), c).role == At(s, c).role
  {
  }

  /** A client is not affected by what another does on its own. */
  lemma OtherClient(s: State, t: State, a: Id, c: Id)
    requires ClientInv(s, c) && c != a && t.table == s.table && t.cascade == s.cascade
    requires forall d: Id :: d != a ==> At(t, d) == At(s, d)
    requires HasAsked(At(s, a).handler) ==> HasAsked(At(t, a).handler)
    ensures ClientInv(t, c)
  {
  }

  lemma PlainStepOwn(s: State, step: Step)
    requires Inv(s) && !step.Ask? && !step.CloseRemove?
    ensures ClientInv(Next(s, step), step.c)
  {
    assert ClientInv(s, step.c);
    if Enabled(s, step) {
      if step.CloseReadPeer? {
        ReadPeerOwn(s, step.c);
      } else if step.CloseBegin? {
        CloseBeginOwn(s, step.c);
      } else {
        HandlerOwn(s, step);
      }
    }
  }

  lemma ReadPeerOwn(s: State, c: Id)
    requires Inv(s) && At(s, c).once.Signalled?
    ensures ClientInv(Next(s, CloseReadPeer(c)), c)
  {
    assert ClientInv(s, c);
    if c in s.table.peers {
      assert ClientInv(s, s.table.peers[c]);
    }
  }

  lemma CloseBeginOwn(s: State, c: Id)
    requires ClientInv(s, c) && At(s, c).once.Unclosed? && MayClose(s, c)
    ensures ClientInv(Next(s, CloseBegin(c)), c)
  {
  }

  /** The steps of the client's own handler that do not reach the router: those before
      it asks for its role, and those after. */
  lemma HandlerOwn(s: State, step: Step)
    requires Inv(s) && Enabled(s, step)
    requires !step.Ask? && !step.CloseRemove? && !step.CloseReadPeer? && !step.CloseBegin?
    ensures ClientInv(Next(s, step), step.c)
  {
    assert ClientInv(s, step.c);
    if HasAsked(At(s, step.c).handler) {
      LateOwn(s, step);
    } else {
      EarlyOwn(s, step);
    }
  }

  lemma EarlyOwn(s: State, step: Step)
    requires ClientInv(s, step.c) && Enabled(s, step) && !HasAsked(At(s, step.c).handler)
    requires !step.Ask? && !step.CloseRemove? && !step.CloseReadPeer? && !step.CloseBegin?
    ensures ClientInv(Next(s, step), step.c)
  {
    AskedStays(s, step);
    var x, y := At(s, step.c), At(Next(s, step), step.c);
    assert x.once.Unclosed? && step.c !in s.cascade && !Member(s.table, step.c);
    assert y.once == x.once && (y.authenticated || !x.authenticated) && !y.handler.Absent?;
  }

  lemma LateOwn(s: State, step: Step)
    requires ClientInv(s, step.c) && Enabled(s, step) && HasAsked(At(s, step.c).handler)
    requires !step.Ask? && !step.CloseRemove? && !step.CloseReadPeer? && !step.CloseBegin?
    ensures ClientInv(Next(s, step), step.c)
  {
    AskedStays(s, step);
    var x, y := At(s, step.c), At(Next(s, step), step.c);
    assert y == x.(handler := y.handler) && HasAsked(y.handler);
    assert Member(s.table, step.c) ==> y.handler.Closing?;
  }

  lemma AskClients(s: State, a: Id, c: Id)
    requires Inv(s) && Enabled(s, Ask(a))
    ensures ClientInv(Next(s, Ask(a)), c)
  {
    var t := Next(s, Ask(a));
    assert ClientInv(s, c) && ClientInv(s, a);
    AskTable(s, a);
    var x := At(s, c);
    if x.once.PeerRead? && x.once.peer.Some? {
      assert ClientInv(s, x.once.peer.value);
    }
    var role := At(s, a).role.value;
    if role.Connect? && R.CanLink(s.table, role.id) {
      var l := s.table.listeners[role.id];
      assert R.Listening(s.table, l) && At(s, l).role == Some(Listen(role.id));
      assert ClientInv(s, l);
      assert R.Linked(t.table, c) <==> R.Linked(s.table, c) || c == a || c == l;
    }
  }

  lemma AskTable(s: State, a: Id)
    requires Inv(s) && Enabled(s, Ask(a))
    ensures At(s, a).role.Some? && !Member(s.table, a)
    ensures var t := Next(s, Ask(a)).table;
            && R.WellFormed(t)
            && (forall c: Id :: R.Listening(t, c) ==>
                  R.Listening(s.table, c) || (c == a && At(s, a).role.value.Listen?))
            && (forall id :: id in t.listeners ==> At(s, t.listeners[id]).role == Some(Listen(id)))
  {
    assert ClientInv(s, a);
    match At(s, a).role.value
    case Listen(id) => R.ListenerKeeps(s.table, id, a);
    case Connect(id) => R.LinkKeeps(s.table, id, a);
  }

  lemma RemoveClients(s: State, step: Step, c: Id)
    requires Inv(s) && step.CloseRemove? && Enabled(s, step)
    ensures ClientInv(Next(s, step), c)
  {
    assert ClientInv(s, c) && ClientInv(s, step.c);
    R.RemoveIsComplete(s.table, step.c, step.left);
    R.WithoutKeeps(s.table, step.c);
    var x := At(s, c);
    if x.once.PeerRead? && x.once.peer.Some? {
      assert ClientInv(s, x.once.peer.value);
    }
  }

  lemma StepTable(s: State, step: Step)
    requires Inv(s)
    ensures R.WellFormed(Next(s, step).table)
    ensures forall id :: id in Next(s, step).table.listeners ==>
              At(Next(s, step), Next(s, step).table.listeners[id]).role == Some(Listen(id))
  {
    if Enabled(s, step) {
      assert ClientInv(s, step.c);
      if step.Ask? {
        AskTable(s, step.c);
      } else if step.CloseRemove? {
        R.RemoveIsComplete(s.table, step.c, step.left);
        R.WithoutKeeps(s.table, step.c);
      } else if step.FirstMessage? {
        forall id | id in s.table.listeners ensures s.table.listeners[id] != step.c {
          assert R.Listening(s.table, s.table.listeners[id]);
        }
      }
    }
  }

  lemma StepSlots(s: State, step: Step)
    requires Inv(s)
    ensures forall c: Id :: SlotInv(Next(s, step), c)
    ensures Next(s, step).slots == |Next(s, step).running| <= MAX_CONNECTIONS
  {
    forall c: Id ensures SlotInv(Next(s, step), c) {
      assert SlotInv(s, c) && SlotInv(s, step.c);
      SlotStep(s, step, c);
    }
    assert SlotInv(s, step.c);
    SlotCount(s, step);
  }

  lemma SlotStep(s: State, step: Step, c: Id)
    requires SlotInv(s, c)
    ensures SlotInv(Next(s, step), c)
  {
  }

  lemma SlotCount(s: State, step: Step)
    requires s.slots == |s.running| <= MAX_CONNECTIONS && SlotInv(s, step.c)
    ensures Next(s, step).slots == |Next(s, step).running| <= MAX_CONNECTIONS
  {
  }

  lemma StepInv(s: State, step: Step)
    requires Inv(s)
    ensures Inv(Next(s, step))
  {
    StepTable(s, step);
    StepSlots(s, step);
    forall c: Id ensures ClientInv(Next(s, step), c) {
      assert ClientInv(s, c);
      if !step.Ask? && !step.CloseRemove? {
        PlainStepClients(s, step, c);
      } else if Enabled(s, step) {
        if step.Ask? { AskClients(s, step.c, c); } else { RemoveClients(s, step, c); }
      }
    }
  }

  lemma {:induction false} ExecInv(s: State, steps: seq<Step>)
    requires Inv(s)
    ensures Inv(Exec(s, steps))
    decreases |steps|
  {
    if steps != [] {
      StepInv(s, steps[0]);
      ExecInv(Next(s, steps[0]), steps[1..]);
    }
  }

  lemma {:induction false} ExecAppend(s: State, a: seq<Step>, b: seq<Step>)
    ensures Exec(s, a + b) == Exec(Exec(s, a), b)
    decreases |a|
  {
    if a == [] {
      assert a + b == b;
    } else {
      assert (a + b)[1..] == a[1..] + b;
      ExecAppend(Next(s, a[0]), a[1..], b);
    }
  }

  lemma InitInv()
    ensures Inv(INIT)
  {
  }

  // ---------------------------------------------------------------------------
  // The theorems.

  /** Under every interleaving, the links are mutual and irreflexive, each joins
      exactly one registered listener to one client that is not registered, no client
      holds two ids, and whoever is in the router has been authenticated. */
  lemma RouterStaysSound(steps: seq<Step>)
    ensures var s := Exec(INIT, steps);
            && R.SingleIds(s.table) && R.Paired(s.table)
            && (forall c: Id :: Member(s.table, c) ==> At(s, c).authenticated)
  {
    InitInv();
    ExecInv(INIT, steps);
    var s := Exec(INIT, steps);
    forall c: Id | Member(s.table, c) ensures At(s, c).authenticated {
      assert ClientInv(s, c);
    }
  }

  /** A client whose `Close` has passed its Remove step is in neither map then, nor
      after any further steps. */
  lemma RemovedForGood(before: seq<Step>, after: seq<Step>, c: Id)
    requires At(Exec(INIT, before), c).once.Removed?
    ensures var s := Exec(Exec(INIT, before), after);
            At(s, c).once.Removed? && !Member(s.table, c)
  {
    InitInv();
    ExecInv(INIT, before);
    ExecInv(Exec(INIT, before), after);
    OnceStays(Exec(INIT, before), after, c);
    assert ClientInv(Exec(Exec(INIT, before), after), c);
  }

  lemma {:induction false} OnceStays(s: State, steps: seq<Step>, c: Id)
    requires At(s, c).once.Removed?
    ensures At(Exec(s, steps), c).once.Removed?
    decreases |steps|
  {
    if steps != [] {
      OnceStays(Next(s, steps[0]), steps[1..], c);
    }
  }

  /** Router members are tracked, tracked clients have a running handler, and running
      handlers hold the slots: none of the three exceeds the limit. */
  lemma CapacityIsRespected(steps: seq<Step>)
    ensures var s := Exec(INIT, steps);
            && (forall c: Id :: Member(s.table, c) ==> c in s.tracked)
            && s.tracked <= s.running
            && |s.tracked| <= |s.running| == s.slots <= MAX_CONNECTIONS
  {
    InitInv();
    ExecInv(INIT, steps);
    var s := Exec(INIT, steps);
    forall c: Id ensures (Member(s.table, c) ==> c in s.tracked) && (c in s.tracked ==> c in s.running) {
      assert ClientInv(s, c) && SlotInv(s, c);
    }
    assert s.tracked <= s.running;
    SubsetSize(s.tracked, s.running);
  }

  lemma {:induction false} SubsetSize(a: set<Id>, b: set<Id>)
    requires a <= b
    ensures |a| <= |b|
  {
    assert b == a + (b - a);
  }

  /** The first two steps of a client's `Close`. */
  lemma HalfClosed(s: State, l: Id)
    requires At(s, l).once.Unclosed? && MayClose(s, l)
    ensures var t := Next(Next(s, CloseBegin(l)), CloseReadPeer(l));
            && t.table == s.table && t.cascade == s.cascade
            && At(t, l) == At(s, l).(once := PeerRead(PeerOf(s.table, l)))
            && forall d: Id :: d != l ==> At(t, d) == At(s, d)
  {
  }

  /** The three steps of one client's `closeOnce` body. */
  ghost function OnceSteps(t: R.Table<Id>, c: Id): seq<Step> {
    [CloseBegin(c), CloseReadPeer(c), CloseRemove(c, R.Without(t, c))]
  }

  /** The peer to which the `Close` of `c` cascades with effect: one whose own `Close`
      has not begun. */
  function OpenPeer(s: State, c: Id): Option<Id> {
    if c in s.table.peers && At(s, s.table.peers[c]).once.Unclosed? then Some(s.table.peers[c]) else None
  }

  /** All steps of the `Close` of `c` and of its cascade. */
  ghost function CloseSteps(s: State, c: Id): seq<Step> {
    OnceSteps(s.table, c) +
    match OpenPeer(s, c)
    case None => []
    case Some(p) => OnceSteps(R.Without(s.table, c), p)
  }

  lemma OnceAlone(s: State, c: Id)
    requires Inv(s) && At(s, c).once.Unclosed? && MayClose(s, c)
    ensures var t := Exec(s, OnceSteps(s.table, c));
            && t.table == R.Without(s.table, c) && At(t, c) == At(s, c).(once := Removed)
            && (R.Linked(s.table, c) ==> s.table.peers[c] in t.cascade)
            && forall d: Id :: d != c ==> At(t, d) == At(s, d)
  {
    var steps := OnceSteps(s.table, c);
    R.RemoveIsComplete(s.table, c, R.Without(s.table, c));
    HalfClosed(s, c);
    var s1 := Next(s, steps[0]);
    var s2 := Next(s1, steps[1]);
    assert steps[1..][1..] == steps[2..] && steps[2..][1..] == [];
    assert Exec(s, steps) == Exec(s1, steps[1..]);
    assert Exec(s1, steps[1..]) == Exec(s2, steps[2..]);
    assert Exec(s2, steps[2..]) == Next(s2, steps[2]);
  }

  /** Run without interruption, the lock-level steps of a `Close` and of its cascade
      have the effect of the atomic `Close`: client and peer are removed, the table
      loses the two, and no other client is touched. A peer already inside its own
      `Close` is left to that. */
  lemma UninterruptedClose(s: State, c: Id)
    requires Inv(s) && At(s, c).once.Unclosed? && MayClose(s, c)
    ensures var t, p := Exec(s, CloseSteps(s, c)), OpenPeer(s, c);
            && (p.Some? || !R.Linked(s.table, c) ==> t.table == B.CloseBoth(s.table, c))
            && (p.None? ==> t.table == R.Without(s.table, c))
            && At(t, c) == At(s, c).(once := Removed)
            && (p.Some? ==> p.value != c && At(t, p.value) == At(s, p.value).(once := Removed))
            && forall d: Id :: d != c && p != Some(d) ==> At(t, d) == At(s, d)
  {
    OnceAlone(s, c);
    var first := OnceSteps(s.table, c);
    match OpenPeer(s, c)
    case None => assert CloseSteps(s, c) == first;
    case Some(p) =>
      ExecInv(s, first);
      OnceAlone(Exec(s, first), p);
      ExecAppend(s, first, OnceSteps(R.Without(s.table, c), p));
  }

  /** A client that has asked for its role never asks again. */
  lemma AskedForGood(s: State, step: Step, c: Id)
    requires HasAsked(At(s, c).handler)
    ensures HasAsked(At(Next(s, step), c).handler)
  {
  }
}
