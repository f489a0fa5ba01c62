/** Broker runs in which no `Close` is interrupted are runs of the coarse system of
    `Relay`, so what is proved there with `Close` atomic holds of them. */
module Atomicity {
  import opened Broker
  import R = Router
  import B = ClientConn
  import A = Relay

  /** A lock-level step that is not part of a `Close`, or a whole `Close`. */
  datatype Move = Plain(step: Step) | Whole(c: Id)

  ghost function Steps(s: State, m: Move): seq<Step> {
    match m
    case Plain(step) => if step.CloseBegin? || step.CloseReadPeer? || step.CloseRemove? then [] else [step]
    case Whole(c) => if At(s, c).once.Unclosed? && MayClose(s, c) then CloseSteps(s, c) else []
  }

  /** The lock-level steps of a list of moves. */
  ghost function Run(s: State, ms: seq<Move>): seq<Step>
    decreases |ms|
  {
    if ms == [] then [] else Steps(s, ms[0]) + Run(Exec(s, Steps(s, ms[0])), ms[1..])
  }

  /** The coarse step of a client that asks for a role. */
  function Asks(c: Id, role: Role): A.Step {
    match role
    case Listen(id) => A.Listen(c, id)
    case Connect(id) => A.Connect(c, id)
  }

  /** What a move is in the coarse system. */
  ghost function Coarse(s: State, m: Move): seq<A.Step> {
    if m.Whole? then if Steps(s, m) == [] then [] else [A.Close(m.c)]
    else if m.step.Ask? && Enabled(s, m.step) && At(s, m.step.c).role.Some? then
      [Asks(m.step.c, At(s, m.step.c).role.value)]
    else []
  }

  ghost function CoarseRun(s: State, ms: seq<Move>): seq<A.Step>
    decreases |ms|
  {
    if ms == [] then [] else Coarse(s, ms[0]) + CoarseRun(Exec(s, Steps(s, ms[0])), ms[1..])
  }

  /** The two systems agree on the table, and nobody is inside a `Close`. */
  ghost predicate Sim(s: State, r: A.State) {
    && Inv(s) && A.TableInv(r) && s.table == r.table
    && (forall c: Id :: c in r.asked ==> HasAsked(At(s, c).handler))
    && (forall c: Id :: At(s, c).once.Unclosed? || At(s, c).once.Removed?)
  }

  lemma OneStep(s: State, step: Step)
    ensures Exec(s, [step]) == Next(s, step)
  {
  }

  lemma OneCoarseStep(r: A.State, step: A.Step)
    ensures A.Exec(r, [step]) == A.Next(r, step)
  {
  }

  /** Both systems do the same to the table when a client asks. */
  lemma AskAgrees(s: State, r: A.State, c: Id)
    requires Sim(s, r) && Enabled(s, Ask(c)) && At(s, c).role.Some?
    ensures var t, q := Next(s, Ask(c)), A.Next(r, Asks(c, At(s, c).role.value));
            && t.table == q.table && q.asked == r.asked + {c}
            && HasAsked(At(t, c).handler) && At(t, c).once == At(s, c).once
            && forall d: Id :: d != c ==> At(t, d) == At(s, d)
  {
    assert c !in r.asked;
    assert A.Enabled(r, Asks(c, At(s, c).role.value));
  }

  lemma AskSim(s: State, r: A.State, c: Id)
    requires Sim(s, r) && Enabled(s, Ask(c))
    ensures Sim(Next(s, Ask(c)), A.Exec(r, Coarse(s, Plain(Ask(c)))))
  {
    assert ClientInv(s, c);
    var step := Asks(c, At(s, c).role.value);
    AskAgrees(s, r, c);
    StepInv(s, Ask(c));
    A.StepTable(r, step);
    OneCoarseStep(r, step);
  }

  lemma PlainSim(s: State, r: A.State, step: Step)
    requires Sim(s, r) && !step.Ask? && !step.CloseBegin? && !step.CloseReadPeer? && !step.CloseRemove?
    ensures Sim(Next(s, step), r)
  {
    StepInv(s, step);
    AskedStays(s, step);
    forall d: Id
      ensures At(Next(s, step), d).once == At(s, d).once
      ensures HasAsked(At(s, d).handler) ==> HasAsked(At(Next(s, step), d).handler)
    {
      PlainOnce(s, step, d);
    }
  }

  lemma NothingToRemove(t: R.Table<Id>, c: Id)
    requires !Member(t, c)
    ensures B.CloseBoth(t, c) == t
  {
    assert R.Without(t, c).listeners == t.listeners;
  }

  /** A linked peer of a client is open while nobody is inside a `Close`. */
  lemma PeerIsOpen(s: State, r: A.State, c: Id)
    requires Sim(s, r)
    ensures OpenPeer(s, c) == PeerOf(s.table, c)
  {
    if R.Linked(s.table, c) {
      assert R.Linked(s.table, s.table.peers[c]);
      assert ClientInv(s, s.table.peers[c]);
    }
  }

  lemma WholeSim(s: State, r: A.State, c: Id)
    requires Sim(s, r) && At(s, c).once.Unclosed? && MayClose(s, c)
    ensures Sim(Exec(s, CloseSteps(s, c)), A.Exec(r, [A.Close(c)]))
  {
    PeerIsOpen(s, r, c);
    UninterruptedClose(s, c);
    ExecInv(s, CloseSteps(s, c));
    OneCoarseStep(r, A.Close(c));
    A.StepTable(r, A.Close(c));
    var t := Exec(s, CloseSteps(s, c));
    assert t.table == B.CloseBoth(s.table, c);
    if !(c in r.asked && c !in r.closed) {
      NothingToRemove(s.table, c);
    }
    forall d: Id
      ensures At(t, d).handler == At(s, d).handler && (At(t, d).once == At(s, d).once || At(t, d).once.Removed?)
    {
    }
  }

  lemma MoveSim(s: State, r: A.State, m: Move)
    requires Sim(s, r)
    ensures Sim(Exec(s, Steps(s, m)), A.Exec(r, Coarse(s, m)))
  {
    match m
    case Plain(step) =>
      if Steps(s, m) != [] {
        OneStep(s, step);
        if step.Ask? && Enabled(s, step) {
          AskSim(s, r, step.c);
        } else if !step.Ask? {
          PlainSim(s, r, step);
        }
      }
    case Whole(c) =>
      if Steps(s, m) != [] {
        WholeSim(s, r, c);
      }
  }

  lemma {:induction false} CoarseAppend(r: A.State, a: seq<A.Step>, b: seq<A.Step>)
    ensures A.Exec(r, a + b) == A.Exec(A.Exec(r, a), b)
    decreases |a|
  {
    if a == [] {
      assert a + b == b;
    } else {
      assert (a + b)[1..] == a[1..] + b;
      CoarseAppend(A.Next(r, a[0]), a[1..], b);
    }
  }

  lemma {:induction false} RunSim(s: State, r: A.State, ms: seq<Move>)
    requires Sim(s, r)
    ensures Sim(Exec(s, Run(s, ms)), A.Exec(r, CoarseRun(s, ms)))
    decreases |ms|
  {
    if ms != [] {
      var t := Exec(s, Steps(s, ms[0]));
      MoveSim(s, r, ms[0]);
      RunSim(t, A.Exec(r, Coarse(s, ms[0])), ms[1..]);
      ExecAppend(s, Steps(s, ms[0]), Run(t, ms[1..]));
      CoarseAppend(r, Coarse(s, ms[0]), CoarseRun(t, ms[1..]));
    }
  }

  lemma InitSim()
    ensures Sim(INIT, A.INIT)
  {
    InitInv();
    A.InitInv();
  }

  /** Every run without an interrupted `Close` is, as far as the router goes, a run of
      the coarse system. */
  lemma UninterruptedRunsAreCoarse(ms: seq<Move>)
    ensures A.Exec(A.INIT, CoarseRun(INIT, ms)).table == Exec(INIT, Run(INIT, ms)).table
  {
    InitSim();
    RunSim(INIT, A.INIT, ms);
  }

  /** So in such runs a client once linked is never linked to anyone else. */
  lemma UninterruptedRunsKeepPeers(before: seq<Move>, after: seq<Move>, c: Id)
    ensures var s := Exec(INIT, Run(INIT, before));
            var t := Exec(s, Run(s, after));
            R.Linked(s.table, c) && R.Linked(t.table, c) ==> t.table.peers[c] == s.table.peers[c]
  {
    InitSim();
    RunSim(INIT, A.INIT, before);
    var s, r := Exec(INIT, Run(INIT, before)), A.Exec(A.INIT, CoarseRun(INIT, before));
    RunSim(s, r, after);
    if R.Linked(s.table, c) {
      A.OnePeerForLife(CoarseRun(INIT, before), CoarseRun(s, after), c);
    }
  }
}
