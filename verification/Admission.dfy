/** Who gets into the broker's router and who does not, and how every client leaves
    (pkg/broker/server.go:229-428). */
module Admission {
  import opened Messages
  import opened Broker
  import R = Router
  import X = Races

  // ---------------------------------------------------------------------------
  // In.

  /** The run takes this very step at a moment at which it is enabled. */
  ghost predicate Took(s: State, steps: seq<Step>, x: Step)
    decreases |steps|
  {
    steps != [] && ((steps[0] == x && Enabled(s, x)) || Took(Next(s, steps[0]), steps[1..], x))
  }

  /** The client has passed the check of its passphrase. */
  predicate PastCheck(h: Handler) {
    h.Authenticated? || h.Asking? || h.Serving? || h.Closing?
  }

  lemma {:induction false} CheckIsPassed(s: State, steps: seq<Step>, c: Id)
    requires !PastCheck(At(s, c).handler) && PastCheck(At(Exec(s, steps), c).handler)
    ensures Took(s, steps, Step.Authenticate(c, true))
    decreases |steps|
  {
    var t := Next(s, steps[0]);
    if PastCheck(At(t, c).handler) {
      assert steps[0] == Step.Authenticate(c, true);
    } else {
      CheckIsPassed(t, steps[1..], c);
    }
  }

  /** The client has shaken hands and is, or was, tracked. */
  predicate PastShake(h: Handler) {
    h.Tracked? || h.Untracking? || PastCheck(h)
  }

  lemma {:induction false} ShakeIsPassed(s: State, steps: seq<Step>, c: Id)
    requires !PastShake(At(s, c).handler) && PastShake(At(Exec(s, steps), c).handler)
    ensures Took(s, steps, Shake(c, true))
    decreases |steps|
  {
    var t := Next(s, steps[0]);
    if PastShake(At(t, c).handler) {
      assert steps[0] == Shake(c, true);
    } else {
      ShakeIsPassed(t, steps[1..], c);
    }
  }

  lemma {:induction false} RoleIsAsked(s: State, steps: seq<Step>, c: Id)
    requires At(s, c).role.None? && At(Exec(s, steps), c).role.Some?
    ensures Took(s, steps, FirstMessage(c, At(Exec(s, steps), c).role))
    decreases |steps|
  {
    var t := Next(s, steps[0]);
    if At(t, c).role.Some? {
      assert steps[0] == FirstMessage(c, At(t, c).role);
      assert HasAskedRole(At(t, c).handler);
      RoleStays(t, steps[1..], c);
    } else {
      RoleIsAsked(t, steps[1..], c);
    }
  }

  /** The first message has been read, for good. */
  predicate HasAskedRole(h: Handler) {
    h.Asking? || HasAsked(h)
  }

  lemma {:induction false} RoleStays(s: State, steps: seq<Step>, c: Id)
    requires HasAskedRole(At(s, c).handler)
    ensures At(Exec(s, steps), c).role == At(s, c).role
    decreases |steps|
  {
    if steps != [] {
      assert HasAskedRole(At(Next(s, steps[0]), c).handler);
      RoleStays(Next(s, steps[0]), steps[1..], c);
    }
  }

  /** In every run, whoever is in the router has shaken hands, has passed the check of its
      passphrase, and has asked for the role it is there in: a listener under an id has
      asked to listen under that id. */
  lemma MembersWereAdmitted(steps: seq<Step>, c: Id)
    requires Member(Exec(INIT, steps).table, c)
    ensures var s := Exec(INIT, steps);
            && Took(INIT, steps, Shake(c, true)) && Took(INIT, steps, Step.Authenticate(c, true))
            && At(s, c).role.Some? && Took(INIT, steps, FirstMessage(c, At(s, c).role))
            && (forall id :: id in s.table.listeners && s.table.listeners[id] == c ==>
                  Took(INIT, steps, FirstMessage(c, Some(Listen(id)))))
  {
    InitInv();
    ExecInv(INIT, steps);
    assert ClientInv(Exec(INIT, steps), c);
    CheckIsPassed(INIT, steps, c);
    ShakeIsPassed(INIT, steps, c);
    RoleIsAsked(INIT, steps, c);
  }

  // ---------------------------------------------------------------------------
  // Out.

  lemma StaysOut(s: State, step: Step, c: Id)
    requires Inv(s) && HasAsked(At(s, c).handler) && !Member(s.table, c)
    ensures !Member(Next(s, step).table, c)
  {
    if step.Ask? && Enabled(s, step) {
      assert ClientInv(s, step.c);
      AskLeavesOut(s, step.c, c);
    } else if step.CloseRemove? && Enabled(s, step) {
      R.RemoveIsComplete(s.table, step.c, step.left);
      R.WithoutKeeps(s.table, step.c);
    } else if Enabled(s, step) {
      AskedStays(s, step);
    }
  }

  lemma AskLeavesOut(s: State, a: Id, c: Id)
    requires Inv(s) && Enabled(s, Ask(a)) && a != c && !Member(s.table, c)
    ensures !Member(Next(s, Ask(a)).table, c)
  {
    AskTable(s, a);
    var role := At(s, a).role.value;
    if role.Connect? && R.CanLink(s.table, role.id) {
      assert R.Listening(s.table, s.table.listeners[role.id]);
    }
  }

  lemma {:induction false} OutForGood(s: State, steps: seq<Step>, c: Id)
    requires Inv(s) && HasAsked(At(s, c).handler) && !Member(s.table, c)
    ensures !Member(Exec(s, steps).table, c)
    decreases |steps|
  {
    if steps != [] {
      StaysOut(s, steps[0], c);
      AskedForGood(s, steps[0], c);
      StepInv(s, steps[0]);
      OutForGood(Next(s, steps[0]), steps[1..], c);
    }
  }

  /** The step turns its client away: a failed handshake, a wrong passphrase, a first
      message that asks for no role, or a role that cannot be had. */
  predicate TurnsAway(s: State, step: Step) {
    match step
    case Shake(_, ok) => !ok
    case Authenticate(_, ok) => !ok
    case FirstMessage(_, role) => role.None?
    case Ask(c) => At(s, c).role.Some? && !Succeeds(s.table, At(s, c).role.value)
    case _ => false
  }

  /** Whoever is turned away is in neither map then, nor after any further steps. */
  lemma TurnedAwayForGood(before: seq<Step>, step: Step, after: seq<Step>)
    requires Enabled(Exec(INIT, before), step) && TurnsAway(Exec(INIT, before), step)
    ensures !Member(Exec(Next(Exec(INIT, before), step), after).table, step.c)
  {
    InitInv();
    ExecInv(INIT, before);
    var s := Exec(INIT, before);
    assert ClientInv(s, step.c);
    StepInv(s, step);
    OutForGood(Next(s, step), after, step.c);
  }

  // ---------------------------------------------------------------------------
  // Who may come in, does.

  /** From any reachable state with a slot left: a new client with the right passphrase
      that asks for a free id is registered under it. */
  lemma AnyoneCanListen(s: State, c: Id, id: string)
    requires Inv(s) && At(s, c) == NEW && s.slots < MAX_CONNECTIONS && id !in s.table.listeners
    ensures var t := Exec(s, X.Arrival(c, Listen(id)) + [Ask(c)]);
            && t.table == R.WithListener(s.table, id, c) && t.table.listeners[id] == c
            && At(t, c).handler.Serving? && At(t, c).once.Unclosed? && c in t.tracked
  {
    X.Arrives(s, c, Listen(id));
    var u := Exec(s, X.Arrival(c, Listen(id)));
    ExecAppend(s, X.Arrival(c, Listen(id)), [Ask(c)]);
    var t := Next(u, Ask(c));
    assert Exec(u, [Ask(c)]) == Exec(t, []);
    ExecInv(s, X.Arrival(c, Listen(id)) + [Ask(c)]);
    assert SlotInv(t, c);
  }

  /** And one that asks for a registered, unlinked listener is linked to it. */
  lemma AnyoneCanConnect(s: State, c: Id, id: string)
    requires Inv(s) && At(s, c) == NEW && s.slots < MAX_CONNECTIONS && R.CanLink(s.table, id)
    ensures var t := Exec(s, X.Arrival(c, Connect(id)) + [Ask(c)]);
            var l := s.table.listeners[id];
            && PeerOf(t.table, c) == Some(l) && PeerOf(t.table, l) == Some(c)
            && At(t, c).handler.Serving? && At(t, c).once.Unclosed? && c in t.tracked
  {
    var l := s.table.listeners[id];
    assert R.Listening(s.table, l);
    assert ClientInv(s, l) && l != c;
    X.Arrives(s, c, Connect(id));
    var u := Exec(s, X.Arrival(c, Connect(id)));
    X.LinksIn(u, c, l, id);
    ExecAppend(s, X.Arrival(c, Connect(id)), [Ask(c)]);
    var t := Next(u, Ask(c));
    assert Exec(u, [Ask(c)]) == Exec(t, []);
    ExecInv(s, X.Arrival(c, Connect(id)) + [Ask(c)]);
    assert SlotInv(t, c);
  }

  // ---------------------------------------------------------------------------
  // How clients leave.

  /** A client that was let in is closed before its handler lets go of it. */
  ghost predicate LeavesClosed(x: Client) {
    && (x.handler.Absent? || x.handler.Accepted? || x.handler.Tracked? ==> !x.authenticated)
    && (x.authenticated && (x.handler.Untracking? || x.handler.Releasing? || x.handler.Gone?) ==> x.once.Removed?)
  }

  lemma {:induction false} LeftClosed(s: State, steps: seq<Step>, c: Id)
    requires LeavesClosed(At(s, c))
    ensures LeavesClosed(At(Exec(s, steps), c))
    decreases |steps|
  {
    if steps != [] {
      LeftClosed(Next(s, steps[0]), steps[1..], c);
    }
  }

  /** In every run, a client past the check whose handler has returned has been through
      its `Close`, and has left no trace in router, tracking or slots. */
  lemma NobodyIsLeftBehind(steps: seq<Step>, c: Id)
    ensures var s := Exec(INIT, steps);
            At(s, c).handler.Gone? ==>
              && (At(s, c).authenticated ==> At(s, c).once.Removed?)
              && !Member(s.table, c) && c !in s.tracked && c !in s.running
  {
    InitInv();
    ExecInv(INIT, steps);
    LeftClosed(INIT, steps, c);
    var s := Exec(INIT, steps);
    assert ClientInv(s, c) && SlotInv(s, c);
  }

  /** How far the handler of a client is from its end. */
  function Rank(x: Client): nat {
    match x.handler
    case Absent => 30
    case Accepted => 20
    case Tracked => 19
    case Authenticated => 18
    case Asking => 17
    case Serving => 16
    case Closing =>
      (match x.once
       case Unclosed => 10
       case Signalled => 9
       case PeerRead(_) => 8
       case Removed => 7)
    case Untracking => 2
    case Releasing => 1
    case Gone => 0
  }

  /** What brings it nearer. */
  ghost function Way(s: State, c: Id): Step {
    match At(s, c).handler
    case Accepted => Shake(c, false)
    case Tracked => Step.Authenticate(c, false)
    case Authenticated => FirstMessage(c, None)
    case Asking => Ask(c)
    case Serving => StopServing(c)
    case Closing =>
      (match At(s, c).once
       case Unclosed => CloseBegin(c)
       case Signalled => CloseReadPeer(c)
       case PeerRead(_) => CloseRemove(c, R.Without(s.table, c))
       case Removed => CloseReturn(c))
    case Untracking => Untrack(c)
    case _ => Release(c)
  }

  lemma ClosingAdvances(s: State, c: Id)
    requires R.WellFormed(s.table) && At(s, c).handler.Closing?
    ensures Rank(At(Next(s, Way(s, c)), c)) < Rank(At(s, c)) && !At(Next(s, Way(s, c)), c).handler.Absent?
  {
    R.RemoveIsComplete(s.table, c, R.Without(s.table, c));
  }

  lemma Advances(s: State, c: Id)
    requires Inv(s) && !At(s, c).handler.Absent? && !At(s, c).handler.Gone?
    ensures Rank(At(Next(s, Way(s, c)), c)) < Rank(At(s, c)) && !At(Next(s, Way(s, c)), c).handler.Absent?
  {
    assert ClientInv(s, c);
    if At(s, c).handler.Closing? {
      ClosingAdvances(s, c);
    }
  }

  /** From every reachable state every handler can come to its end, and gives its slot
      back. */
  lemma {:induction false} EveryoneCanLeave(s: State, c: Id) returns (steps: seq<Step>)
    requires Inv(s) && !At(s, c).handler.Absent?
    ensures At(Exec(s, steps), c).handler.Gone?
    decreases Rank(At(s, c))
  {
    if At(s, c).handler.Gone? {
      steps := [];
    } else {
      var step := Way(s, c);
      Advances(s, c);
      StepInv(s, step);
      var rest := EveryoneCanLeave(Next(s, step), c);
      steps := [step] + rest;
      assert steps[1..] == rest;
    }
  }

  // ---------------------------------------------------------------------------
  // Who serves, is registered.

  /** A listener that serves and has not been through its Remove is registered. */
  ghost predicate Registered(s: State, c: Id) {
    var x := At(s, c);
    x.handler.Serving? && x.role.Some? && x.role.value.Listen? && !x.once.Removed? ==>
      x.role.value.id in s.table.listeners && s.table.listeners[x.role.value.id] == c
  }

  lemma StepRegistered(s: State, step: Step, c: Id)
    requires Inv(s) && Registered(s, c)
    ensures Registered(Next(s, step), c)
  {
    assert ClientInv(s, c);
    if step.Ask? && Enabled(s, step) {
      assert ClientInv(s, step.c);
      AskRegistered(s, step.c, c);
    } else if step.CloseRemove? && Enabled(s, step) {
      R.RemoveIsComplete(s.table, step.c, step.left);
      RemoveRegistered(s, step, c);
    } else if Enabled(s, step) {
      AskedStays(s, step);
      PlainRegistered(s, step, c);
    }
  }

  lemma AskRegistered(s: State, a: Id, c: Id)
    requires Inv(s) && Registered(s, c) && Enabled(s, Ask(a)) && At(s, a).role.Some?
    ensures Registered(Next(s, Ask(a)), c)
  {
    var t := Next(s, Ask(a));
    assert c != a ==> At(t, c) == At(s, c);
    assert forall id :: id in s.table.listeners ==>
        id in t.table.listeners && t.table.listeners[id] == s.table.listeners[id];
  }

  lemma RemoveRegistered(s: State, step: Step, c: Id)
    requires Registered(s, c) && step.CloseRemove? && Enabled(s, step) && step.left == R.Without(s.table, step.c)
    ensures Registered(Next(s, step), c)
  {
    assert c != step.c ==> At(Next(s, step), c) == At(s, c);
  }

  lemma PlainRegistered(s: State, step: Step, c: Id)
    requires Registered(s, c) && !step.Ask? && !step.CloseRemove? && Enabled(s, step)
    ensures Registered(Next(s, step), c)
  {
    AskedStays(s, step);
    PlainOnce(s, step, c);
    assert At(Next(s, step), c).handler.Serving? ==> At(s, c).handler.Serving?;
  }

  lemma {:induction false} ExecRegistered(s: State, steps: seq<Step>, c: Id)
    requires Inv(s) && Registered(s, c)
    ensures Registered(Exec(s, steps), c)
    decreases |steps|
  {
    if steps != [] {
      StepRegistered(s, steps[0], c);
      StepInv(s, steps[0]);
      ExecRegistered(Next(s, steps[0]), steps[1..], c);
    }
  }

  /** In every run a listener that serves is registered under the id it asked for, up to
      the Remove of its own `Close`: nobody else can take it out. */
  lemma ServingListenersAreRegistered(steps: seq<Step>, c: Id)
    ensures Registered(Exec(INIT, steps), c)
  {
    InitInv();
    ExecRegistered(INIT, steps, c);
  }
}
