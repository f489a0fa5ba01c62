/** `RunWithReconnect` (pkg/tunnel/reconnect.go:124-229) against a script of what its
    surroundings do, recorded as a trace of what it does. */
module Reconnect {
  import opened Backoff

  datatype Error = ConnectFailed | ConnectionLost

  /** Calls of connect, cleanup and the callback, in order. */
  datatype Event =
    | Connect(ok: bool)
    | Cleanup
    | Attempt(n: nat, delay: int, err: Error)
    | Connected(n: nat)

  /** How the run ends; `Running` if the script ended first. */
  datatype Outcome = Gave(err: Error) | Lost | Exhausted(last: Error) | Cancelled | Running

  /** The first connect, and whether the context is cancelled while it is up. */
  datatype First = First(ok: bool, cancelled: bool)

  /** One round of the loop: a cancelled context at its top, the random draw, a
      cancelled context during the wait, the connect, and one while it is up. */
  datatype Round = Round(stop: bool, draw: real, stopInWait: bool, ok: bool, stopWhileUp: bool)

  /** A run: what was done and how it ended. */
  datatype Run = Run(trace: seq<Event>, outcome: Outcome)

  function Then(events: seq<Event>, r: Run): Run {
    r.(trace := events + r.trace)
  }

  lemma ThenThen(a: seq<Event>, b: seq<Event>, r: Run)
    ensures Then(a, Then(b, r)) == Then(a + b, r)
  {
    assert a + (b + r.trace) == a + b + r.trace;
  }

  /** What a round does that is not cut short. */
  function RoundEvents(announce: Event, ok: bool): seq<Event>
    requires announce.Attempt?
  {
    [Cleanup, announce, Connect(ok)] + if ok then [Connected(announce.n)] else []
  }

  /** The reconnect loop from a given attempt counter and last error on. */
  function Loop(cfg: Config, attempt: nat, lastErr: Error, rounds: seq<Round>): Run
    decreases |rounds|
  {
    if 0 <= cfg.maxRetries <= attempt then Run([], Exhausted(lastErr))
    else if rounds == [] then Run([], Running)
    else
      var r := rounds[0];
      var announce := Attempt(attempt + 1, Delay(cfg, attempt, r.draw), lastErr);
      if r.stop then Run([Cleanup], Cancelled)
      else if r.stopInWait then Run([Cleanup, announce, Cleanup], Cancelled)
      else if r.ok && r.stopWhileUp then Run(RoundEvents(announce, true) + [Cleanup], Cancelled)
      else Then(RoundEvents(announce, r.ok),
                if r.ok then Loop(cfg, 0, ConnectionLost, rounds[1..])
                else Loop(cfg, attempt + 1, ConnectFailed, rounds[1..]))
  }

  /** The whole run. */
  function Whole(cfg: Config, first: First, rounds: seq<Round>): Run {
    if first.ok && first.cancelled then Run([Connect(true), Cleanup], Cancelled)
    else if cfg.maxRetries == 0 then Run([Connect(first.ok)], if first.ok then Lost else Gave(ConnectFailed))
    else Then([Connect(first.ok)], Loop(cfg, 0, if first.ok then ConnectionLost else ConnectFailed, rounds))
  }

  /** `RunWithReconnect`. */
  method RunWithReconnect(cfg: Config, first: First, rounds: seq<Round>) returns (trace: seq<Event>, outcome: Outcome)
    ensures Run(trace, outcome) == Whole(cfg, first, rounds)
  {
    trace := [Connect(first.ok)];
    var lastErr := ConnectFailed;
    if !first.ok {
      if cfg.maxRetries == 0 {
        return trace, Gave(ConnectFailed);
      }
    } else {
      if first.cancelled {
        return trace + [Cleanup], Cancelled;
      }
      if cfg.maxRetries == 0 {
        return trace, Lost;
      }
      lastErr := ConnectionLost;
    }

    var attempt, k := 0, 0;
    while true
      invariant 0 <= k <= |rounds| && 0 <= attempt
      invariant Whole(cfg, first, rounds) == Then(trace, Loop(cfg, attempt, lastErr, rounds[k..]))
      decreases |rounds| - k
    {
      assert k < |rounds| ==> rounds[k..][1..] == rounds[k + 1..];
      if 0 <= cfg.maxRetries <= attempt {
        return trace, Exhausted(lastErr);
      }
      if k == |rounds| {
        return trace, Running;
      }
      var round := rounds[k];
      var announce := Attempt(attempt + 1, Delay(cfg, attempt, round.draw), lastErr);
      ghost var before := trace;
      k := k + 1;
      trace := trace + [Cleanup];
      if round.stop {
        return trace, Cancelled;
      }
      trace := trace + [announce];
      if round.stopInWait {
        trace := trace + [Cleanup];
        assert trace == before + [Cleanup, announce, Cleanup];
        return trace, Cancelled;
      }
      trace := trace + [Connect(round.ok)];
      if !round.ok {
        assert trace == before + RoundEvents(announce, false);
        ThenThen(before, RoundEvents(announce, false), Loop(cfg, attempt + 1, ConnectFailed, rounds[k..]));
        lastErr, attempt := ConnectFailed, attempt + 1;
        continue;
      }
      trace := trace + [Connected(attempt + 1)];
      assert trace == before + RoundEvents(announce, true);
      attempt := -1;
      if round.stopWhileUp {
        trace := trace + [Cleanup];
        assert trace == before + (RoundEvents(announce, true) + [Cleanup]);
        return trace, Cancelled;
      }
      ThenThen(before, RoundEvents(announce, true), Loop(cfg, 0, ConnectionLost, rounds[k..]));
      lastErr, attempt := ConnectionLost, attempt + 1;
    }
  }

  // ---------------------------------------------------------------------------
  // The law of the trace.

  /** What may follow an event: a cleanup is followed by an attempt unless it ends the
      trace, and an attempt by a connect unless a last cleanup ends the trace. */
  predicate MayPrecede(e: Event, t: seq<Event>) {
    t == [] ||
    match e
    case Connect(ok) => t[0].Cleanup? || (ok && t[0].Connected?)
    case Connected(_) => t[0].Cleanup?
    case Cleanup => t[0].Attempt?
    case Attempt(_, _, _) => t[0].Connect? || t == [Cleanup]
  }

  /** Every event of the trace may precede what follows it. */
  predicate Chained(trace: seq<Event>) {
    |trace| < 2 || (Chained(trace[1..]) && MayPrecede(trace[0], trace[1..]))
  }

  /** Attempts are numbered onwards from `a` and start over after a success. */
  predicate Numbered(trace: seq<Event>, a: nat) {
    if trace == [] then true
    else match trace[0]
      case Attempt(n, _, _) => n == a + 1 && Numbered(trace[1..], a + 1)
      case Connected(_) => Numbered(trace[1..], 0)
      case _ => Numbered(trace[1..], a)
  }

  function Connects(trace: seq<Event>): nat {
    if trace == [] then 0 else (if trace[0].Connect? then 1 else 0) + Connects(trace[1..])
  }

  /** Successful reconnects. */
  function Reconnects(trace: seq<Event>): nat {
    if trace == [] then 0 else (if trace[0].Connected? then 1 else 0) + Reconnects(trace[1..])
  }

  function Successes(rounds: seq<Round>): nat {
    if rounds == [] then 0 else (if rounds[0].ok then 1 else 0) + Successes(rounds[1..])
  }

  /** One event in front of a trace: what it counts, and how it fits. */
  lemma Cons(e: Event, t: seq<Event>)
    ensures ([e] + t)[1..] == t
    ensures Connects([e] + t) == Connects(t) + if e.Connect? then 1 else 0
    ensures Reconnects([e] + t) == Reconnects(t) + if e.Connected? then 1 else 0
  {
    assert ([e] + t)[1..] == t;
  }

  lemma ConsNumbered(e: Event, t: seq<Event>, a: nat)
    requires e.Attempt? ==> e.n == a + 1
    requires Numbered(t, if e.Attempt? then a + 1 else if e.Connected? then 0 else a)
    ensures Numbered([e] + t, a)
  {
    assert ([e] + t)[1..] == t;
  }

  lemma ConsChained(e: Event, t: seq<Event>)
    requires Chained(t) && MayPrecede(e, t)
    ensures Chained([e] + t)
  {
    assert ([e] + t)[1..] == t;
  }

  /** A round that is not cut short, in front of a trace: what it counts. */
  lemma RoundCounts(announce: Event, ok: bool, t: seq<Event>)
    requires announce.Attempt?
    ensures var u := RoundEvents(announce, ok) + t;
            Connects(u) == 1 + Connects(t) && Reconnects(u) == Reconnects(t) + if ok then 1 else 0
  {
    var tail := (if ok then [Connected(announce.n)] else []) + t;
    Cons(Connected(announce.n), t);
    Cons(Connect(ok), tail);
    Cons(announce, [Connect(ok)] + tail);
    Cons(Cleanup, [announce] + ([Connect(ok)] + tail));
    assert tail == if ok then [Connected(announce.n)] + t else t;
    assert RoundEvents(announce, ok) + t == [Cleanup] + ([announce] + ([Connect(ok)] + tail));
  }

  /** And how it fits. */
  lemma RoundLaws(announce: Event, ok: bool, t: seq<Event>, a: nat)
    requires announce.Attempt? && announce.n == a + 1
    requires Chained(t) && (t != [] ==> t[0].Cleanup?) && Numbered(t, if ok then 0 else a + 1)
    ensures var u := RoundEvents(announce, ok) + t;
            Chained(u) && Numbered(u, a) && u[0].Cleanup?
  {
    var tail := if ok then [Connected(announce.n)] + t else t;
    var t1 := [Connect(ok)] + tail;
    var t2 := [announce] + t1;
    if ok {
      ConsChained(Connected(announce.n), t);
      ConsNumbered(Connected(announce.n), t, a + 1);
    }
    ConsChained(Connect(ok), tail);
    ConsNumbered(Connect(ok), tail, a + 1);
    ConsChained(announce, t1);
    ConsNumbered(announce, t1, a);
    ConsChained(Cleanup, t2);
    ConsNumbered(Cleanup, t2, a);
    assert RoundEvents(announce, ok) + t == [Cleanup] + t2;
  }

  /** The announcement and continuation of the first round, if it is not cut short. */
  function Announce(cfg: Config, attempt: nat, lastErr: Error, r: Round): Event {
    Attempt(attempt + 1, Delay(cfg, attempt, r.draw), lastErr)
  }

  function After(cfg: Config, attempt: nat, rounds: seq<Round>): Run
    requires rounds != []
  {
    if rounds[0].ok then Loop(cfg, 0, ConnectionLost, rounds[1..])
    else Loop(cfg, attempt + 1, ConnectFailed, rounds[1..])
  }

  lemma {:induction false} LoopShape(cfg: Config, attempt: nat, lastErr: Error, rounds: seq<Round>)
    ensures var r := Loop(cfg, attempt, lastErr, rounds);
            && Chained(r.trace) && Numbered(r.trace, attempt)
            && (r.trace != [] ==> r.trace[0].Cleanup?)
            && (r.outcome.Cancelled? ==> r.trace != [] && r.trace[|r.trace| - 1].Cleanup?)
    decreases |rounds|
  {
    if !(0 <= cfg.maxRetries <= attempt) && rounds != [] && !rounds[0].stop {
      var r, announce := rounds[0], Announce(cfg, attempt, lastErr, rounds[0]);
      if r.stopInWait {
        CutShort(announce, attempt);
      } else if r.ok && r.stopWhileUp {
        RoundLaws(announce, true, [Cleanup], attempt);
      } else {
        LoopShape(cfg, if r.ok then 0 else attempt + 1, if r.ok then ConnectionLost else ConnectFailed, rounds[1..]);
        RoundLaws(announce, r.ok, After(cfg, attempt, rounds).trace, attempt);
      }
    }
  }

  /** Without a cancellation or exhaustion every round is one connect. */
  lemma {:induction false} LoopCounts(cfg: Config, attempt: nat, lastErr: Error, rounds: seq<Round>)
    ensures var r := Loop(cfg, attempt, lastErr, rounds);
            r.outcome.Running? ==> Connects(r.trace) == |rounds| && Reconnects(r.trace) == Successes(rounds)
    decreases |rounds|
  {
    if !(0 <= cfg.maxRetries <= attempt) && rounds != [] && !rounds[0].stop && !rounds[0].stopInWait {
      var r := rounds[0];
      LoopCounts(cfg, if r.ok then 0 else attempt + 1, if r.ok then ConnectionLost else ConnectFailed, rounds[1..]);
      RoundCounts(Announce(cfg, attempt, lastErr, r), r.ok, After(cfg, attempt, rounds).trace);
    }
  }

  lemma {:induction false} LoopBound(cfg: Config, attempt: nat, lastErr: Error, rounds: seq<Round>)
    requires attempt <= cfg.maxRetries
    ensures var t := Loop(cfg, attempt, lastErr, rounds).trace;
            Connects(t) <= cfg.maxRetries - attempt + Reconnects(t) * cfg.maxRetries
    decreases |rounds|
  {
    if attempt < cfg.maxRetries && rounds != [] && !rounds[0].stop {
      var r, announce, n := rounds[0], Announce(cfg, attempt, lastErr, rounds[0]), cfg.maxRetries;
      if r.stopInWait {
        CutShort(announce, attempt);
      } else if r.ok && r.stopWhileUp {
        RoundCounts(announce, true, [Cleanup]);
        assert Reconnects([Cleanup]) == 0 && Connects([Cleanup]) == 0;
      } else {
        var t := After(cfg, attempt, rounds).trace;
        LoopBound(cfg, if r.ok then 0 else attempt + 1, if r.ok then ConnectionLost else ConnectFailed, rounds[1..]);
        assert Connects(t) <= n - (if r.ok then 0 else attempt + 1) + Reconnects(t) * n;
        RoundCounts(announce, r.ok, t);
        Product(Reconnects(t), n);
        assert Loop(cfg, attempt, lastErr, rounds).trace == RoundEvents(announce, r.ok) + t;
      }
    }
  }

  lemma CutShort(announce: Event, a: nat)
    requires announce.Attempt? && announce.n == a + 1
    ensures var t := [Cleanup, announce, Cleanup];
            Chained(t) && Numbered(t, a) && Connects(t) == 0 && Reconnects(t) == 0
  {
    var one: seq<Event> := [Cleanup];
    var two := [announce] + one;
    Cons(announce, one);
    Cons(Cleanup, two);
    ConsChained(announce, one);
    ConsNumbered(announce, one, a);
    ConsChained(Cleanup, two);
    ConsNumbered(Cleanup, two, a);
    assert [Cleanup, announce, Cleanup] == [Cleanup] + two;
  }

  lemma Product(s: nat, n: int)
    ensures (s + 1) * n == s * n + n
  {
  }

  // ---------------------------------------------------------------------------
  // The theorems about whole runs.

  /** In every run the calls follow each other as they should, attempt numbers run
      1, 2, ... and start over after each success, and a cancelled run has just cleaned
      up. */
  lemma TraceLaw(cfg: Config, first: First, rounds: seq<Round>)
    ensures var r := Whole(cfg, first, rounds);
            && Chained(r.trace) && Numbered(r.trace, 0)
            && (r.outcome.Cancelled? ==> r.trace[|r.trace| - 1].Cleanup?)
  {
    var lastErr := if first.ok then ConnectionLost else ConnectFailed;
    LoopShape(cfg, 0, lastErr, rounds);
    ConsChained(Connect(first.ok), Loop(cfg, 0, lastErr, rounds).trace);
    ConsNumbered(Connect(first.ok), Loop(cfg, 0, lastErr, rounds).trace, 0);
    var cancelled := [Connect(true), Cleanup];
    assert cancelled == [Connect(true)] + [Cleanup];
    ConsChained(Connect(true), [Cleanup]);
    ConsNumbered(Connect(true), [Cleanup], 0);
  }

  /** With MaxRetries n >= 0 and s successful reconnects there are at most
      1 + (s+1)*n connects, whatever the surroundings do. */
  lemma ConnectBound(cfg: Config, first: First, rounds: seq<Round>)
    requires 0 <= cfg.maxRetries
    ensures var t := Whole(cfg, first, rounds).trace;
            Connects(t) <= 1 + (Reconnects(t) + 1) * cfg.maxRetries
  {
    var lastErr := if first.ok then ConnectionLost else ConnectFailed;
    var t := Loop(cfg, 0, lastErr, rounds).trace;
    LoopBound(cfg, 0, lastErr, rounds);
    Cons(Connect(first.ok), t);
    Product(Reconnects(t), cfg.maxRetries);
    assert [Connect(true), Cleanup] == [Connect(true)] + [Cleanup];
    Cons(Connect(true), [Cleanup]);
    Cons(Cleanup, []);
    Cons(Connect(first.ok), []);
    assert [Connect(first.ok)] + [] == [Connect(first.ok)];
  }

  /** So a run with MaxRetries n >= 0 comes to an end: it is still going only after a
      script of at most (s+1)*n rounds, s of them successful. */
  lemma RunsEnd(cfg: Config, first: First, rounds: seq<Round>)
    requires 0 <= cfg.maxRetries
    ensures Whole(cfg, first, rounds).outcome.Running? ==> |rounds| <= (Successes(rounds) + 1) * cfg.maxRetries
  {
    var lastErr := if first.ok then ConnectionLost else ConnectFailed;
    LoopBound(cfg, 0, lastErr, rounds);
    LoopCounts(cfg, 0, lastErr, rounds);
    Product(Successes(rounds), cfg.maxRetries);
  }

  /** The law of neighbours, by position. */
  lemma {:induction false} Neighbours(trace: seq<Event>, k: nat)
    requires Chained(trace) && k + 1 < |trace|
    ensures trace[k].Connect? ==> trace[k + 1].Cleanup? || (trace[k].ok && trace[k + 1].Connected?)
    ensures trace[k].Connected? ==> trace[k + 1].Cleanup?
    ensures trace[k].Cleanup? ==> trace[k + 1].Attempt?
    ensures trace[k].Attempt? ==> trace[k + 1].Connect? || k + 2 == |trace|
  {
    if 0 < k {
      Neighbours(trace[1..], k - 1);
    }
  }

  /** What lies between two consecutive connects: one cleanup and then one attempt,
      after a Connected event if the first was a reconnect that worked. */
  predicate OneOfEach(trace: seq<Event>, i: nat, j: nat)
    requires i < j < |trace| && trace[i].Connect?
  {
    var between := trace[i + 1..j];
    || (|between| == 2 && between[0].Cleanup? && between[1].Attempt?)
    || (|between| == 3 && trace[i].ok && between[0].Connected? && between[1].Cleanup? && between[2].Attempt?)
  }

  lemma ChainedConnects(trace: seq<Event>, i: nat, j: nat)
    requires Chained(trace) && i < j < |trace| && trace[i].Connect? && trace[j].Connect?
    requires forall k :: i < k < j ==> !trace[k].Connect?
    ensures OneOfEach(trace, i, j)
  {
    Neighbours(trace, i);
    Neighbours(trace, i + 1);
    Neighbours(trace, i + 2);
    if trace[i + 1].Connected? {
      Neighbours(trace, i + 3);
    }
  }

  /** In every run, between two consecutive connects there is exactly one cleanup and
      then one attempt event. */
  lemma OneCleanupOneAttempt(cfg: Config, first: First, rounds: seq<Round>, i: nat, j: nat)
    requires var trace := Whole(cfg, first, rounds).trace;
             && i < j < |trace| && trace[i].Connect? && trace[j].Connect?
             && forall k :: i < k < j ==> !trace[k].Connect?
    ensures OneOfEach(Whole(cfg, first, rounds).trace, i, j)
  {
    TraceLaw(cfg, first, rounds);
    ChainedConnects(Whole(cfg, first, rounds).trace, i, j);
  }

  // ---------------------------------------------------------------------------
  // When it gives up, and when it does not.

  /** Failed retries since the last success, from a count of `a` on. */
  function Tally(trace: seq<Event>, a: nat): nat {
    if trace == [] then a
    else match trace[0]
      case Connect(false) => Tally(trace[1..], a + 1)
      case Connected(_) => Tally(trace[1..], 0)
      case _ => Tally(trace[1..], a)
  }

  lemma ConsTally(e: Event, t: seq<Event>, a: nat)
    ensures Tally([e] + t, a) == Tally(t, if e == Connect(false) then a + 1 else if e.Connected? then 0 else a)
  {
    assert ([e] + t)[1..] == t;
  }

  lemma RoundTally(announce: Event, ok: bool, t: seq<Event>, a: nat)
    requires announce.Attempt?
    ensures Tally(RoundEvents(announce, ok) + t, a) == Tally(t, if ok then 0 else a + 1)
  {
    var tail := if ok then [Connected(announce.n)] + t else t;
    var t1 := [Connect(ok)] + tail;
    var t2 := [announce] + t1;
    ConsTally(Connected(announce.n), t, a);
    ConsTally(Connect(ok), tail, a);
    ConsTally(announce, t1, a);
    ConsTally(Cleanup, t2, a);
    assert RoundEvents(announce, ok) + t == [Cleanup] + t2;
  }

  lemma ShortTally(announce: Event, a: nat)
    requires announce.Attempt?
    ensures Tally([Cleanup], a) == a && Tally([Cleanup, announce, Cleanup], a) == a
  {
    ConsTally(announce, [Cleanup], a);
    ConsTally(Cleanup, [announce] + [Cleanup], a);
    assert [Cleanup, announce, Cleanup] == [Cleanup] + ([announce] + [Cleanup]);
  }

  lemma {:induction false} LoopExhausted(cfg: Config, attempt: nat, lastErr: Error, rounds: seq<Round>)
    requires 0 <= cfg.maxRetries ==> attempt <= cfg.maxRetries
    ensures var r := Loop(cfg, attempt, lastErr, rounds);
            && (r.outcome.Exhausted? <==> cfg.maxRetries == Tally(r.trace, attempt))
            && (0 <= cfg.maxRetries ==> Tally(r.trace, attempt) <= cfg.maxRetries)
    decreases |rounds|
  {
    if !(0 <= cfg.maxRetries <= attempt) && rounds != [] {
      var r, announce := rounds[0], Announce(cfg, attempt, lastErr, rounds[0]);
      ShortTally(announce, attempt);
      if !r.stop && !r.stopInWait {
        if r.ok && r.stopWhileUp {
          RoundTally(announce, true, [Cleanup], attempt);
          ShortTally(announce, 0);
        } else {
          var err := if r.ok then ConnectionLost else ConnectFailed;
          LoopExhausted(cfg, if r.ok then 0 else attempt + 1, err, rounds[1..]);
          RoundTally(announce, r.ok, After(cfg, attempt, rounds).trace, attempt);
        }
      }
    }
  }

  /** A run gives up exactly when as many retries as MaxRetries have failed since the
      start or the last success, which are never more; with a negative MaxRetries it
      never does, and with zero there are no retries. */
  lemma GivesUpExactly(cfg: Config, first: First, rounds: seq<Round>)
    ensures var r := Whole(cfg, first, rounds);
            && r.trace != []
            && (r.outcome.Exhausted? <==> 0 < cfg.maxRetries == Tally(r.trace[1..], 0))
            && (0 <= cfg.maxRetries ==> Tally(r.trace[1..], 0) <= cfg.maxRetries)
            && (r.outcome.Gave? || r.outcome.Lost? <==> cfg.maxRetries == 0 && !(first.ok && first.cancelled))
  {
    var lastErr := if first.ok then ConnectionLost else ConnectFailed;
    LoopExhausted(cfg, 0, lastErr, rounds);
    var t := Loop(cfg, 0, lastErr, rounds).trace;
    assert ([Connect(first.ok)] + t)[1..] == t;
    ShortTally(Attempt(0, 0, ConnectFailed), 0);
    assert [Connect(true), Cleanup][1..] == [Cleanup];
    LoopNeverGives(cfg, 0, lastErr, rounds);
  }

  lemma {:induction false} LoopNeverGives(cfg: Config, attempt: nat, lastErr: Error, rounds: seq<Round>)
    ensures !Loop(cfg, attempt, lastErr, rounds).outcome.Gave? && !Loop(cfg, attempt, lastErr, rounds).outcome.Lost?
    decreases |rounds|
  {
    if !(0 <= cfg.maxRetries <= attempt) && rounds != [] {
      LoopNeverGives(cfg, 0, ConnectionLost, rounds[1..]);
      LoopNeverGives(cfg, attempt + 1, ConnectFailed, rounds[1..]);
    }
  }

  /** The context is cancelled in the course of the round. */
  predicate Interrupts(r: Round) {
    r.stop || r.stopInWait || (r.ok && r.stopWhileUp)
  }

  ghost predicate Failing(rounds: seq<Round>) {
    forall i :: 0 <= i < |rounds| ==> !rounds[i].ok && !Interrupts(rounds[i])
  }

  lemma {:induction false} FailingLoop(cfg: Config, attempt: nat, lastErr: Error, rounds: seq<Round>)
    requires attempt <= cfg.maxRetries && |rounds| == cfg.maxRetries - attempt && Failing(rounds)
    ensures var r := Loop(cfg, attempt, lastErr, rounds);
            && r.outcome == Exhausted(if rounds == [] then lastErr else ConnectFailed)
            && Connects(r.trace) == |rounds| && Reconnects(r.trace) == 0
    decreases |rounds|
  {
    if rounds != [] {
      assert Failing(rounds[1..]);
      FailingLoop(cfg, attempt + 1, ConnectFailed, rounds[1..]);
      RoundCounts(Announce(cfg, attempt, lastErr, rounds[0]), false, After(cfg, attempt, rounds).trace);
    }
  }

  /** If nothing works and nothing is cancelled, MaxRetries n > 0 means exactly n
      retries: 1 + n connects, and then the last error is reported. */
  lemma FailureTakesAllRetries(cfg: Config, first: First, rounds: seq<Round>)
    requires 0 < cfg.maxRetries == |rounds| && Failing(rounds) && !(first.ok && first.cancelled)
    ensures var r := Whole(cfg, first, rounds);
            r.outcome == Exhausted(ConnectFailed) && Connects(r.trace) == 1 + cfg.maxRetries
  {
    var lastErr := if first.ok then ConnectionLost else ConnectFailed;
    FailingLoop(cfg, 0, lastErr, rounds);
    Cons(Connect(first.ok), Loop(cfg, 0, lastErr, rounds).trace);
  }

  lemma {:induction false} EndlessLoop(cfg: Config, attempt: nat, lastErr: Error, rounds: seq<Round>)
    requires cfg.maxRetries < 0
    ensures var r := Loop(cfg, attempt, lastErr, rounds);
            && (r.outcome.Cancelled? <==> exists i :: 0 <= i < |rounds| && Interrupts(rounds[i]))
            && (r.outcome.Running? <==> forall i :: 0 <= i < |rounds| ==> !Interrupts(rounds[i]))
    decreases |rounds|
  {
    if rounds != [] && !Interrupts(rounds[0]) {
      var r := rounds[0];
      EndlessLoop(cfg, if r.ok then 0 else attempt + 1, if r.ok then ConnectionLost else ConnectFailed, rounds[1..]);
      assert rounds == [rounds[0]] + rounds[1..];
      assert forall i :: 0 < i < |rounds| ==> rounds[i] == rounds[1..][i - 1];
    }
  }

  /** With a negative MaxRetries only a cancelled context ends a run: it goes on, one
      connect a round, exactly as long as none of its rounds is interrupted. */
  lemma NegativeMeansForever(cfg: Config, first: First, rounds: seq<Round>)
    requires cfg.maxRetries < 0 && !(first.ok && first.cancelled)
    ensures var r := Whole(cfg, first, rounds);
            && (r.outcome.Cancelled? <==> exists i :: 0 <= i < |rounds| && Interrupts(rounds[i]))
            && (r.outcome.Running? <==> forall i :: 0 <= i < |rounds| ==> !Interrupts(rounds[i]))
            && (r.outcome.Running? ==> Connects(r.trace) == 1 + |rounds|)
  {
    var lastErr := if first.ok then ConnectionLost else ConnectFailed;
    EndlessLoop(cfg, 0, lastErr, rounds);
    LoopCounts(cfg, 0, lastErr, rounds);
    Cons(Connect(first.ok), Loop(cfg, 0, lastErr, rounds).trace);
  }

  /** Every attempt reports the error that led to it, a failed connect or a lost
      connection, and the delay for its number with the draw of its round. */
  predicate Reported(cfg: Config, trace: seq<Event>, err: Error, rounds: seq<Round>) {
    if trace == [] then true
    else match trace[0]
      case Attempt(n, delay, e) =>
        && rounds != [] && 0 < n && e == err && delay == Delay(cfg, n - 1, rounds[0].draw)
        && Reported(cfg, trace[1..], err, rounds[1..])
      case Connect(ok) => Reported(cfg, trace[1..], if ok then ConnectionLost else ConnectFailed, rounds)
      case _ => Reported(cfg, trace[1..], err, rounds)
  }

  lemma ConsReported(cfg: Config, e: Event, t: seq<Event>, err: Error, rounds: seq<Round>)
    requires !e.Attempt?
    requires Reported(cfg, t, if e == Connect(true) then ConnectionLost else if e == Connect(false) then ConnectFailed
                              else err, rounds)
    ensures Reported(cfg, [e] + t, err, rounds)
  {
    assert ([e] + t)[1..] == t;
  }

  lemma AttemptReported(cfg: Config, e: Event, t: seq<Event>, err: Error, rounds: seq<Round>)
    requires e.Attempt? && rounds != [] && 0 < e.n && e.err == err && e.delay == Delay(cfg, e.n - 1, rounds[0].draw)
    requires Reported(cfg, t, err, rounds[1..])
    ensures Reported(cfg, [e] + t, err, rounds)
  {
    assert ([e] + t)[1..] == t;
  }

  lemma ConnectReported(cfg: Config, n: nat, ok: bool, t: seq<Event>, err: Error, rounds: seq<Round>)
    requires Reported(cfg, t, if ok then ConnectionLost else ConnectFailed, rounds)
    ensures Reported(cfg, [Connect(ok)] + (if ok then [Connected(n)] + t else t), err, rounds)
  {
    if ok {
      ConsReported(cfg, Connected(n), t, ConnectionLost, rounds);
    }
    ConsReported(cfg, Connect(ok), if ok then [Connected(n)] + t else t, err, rounds);
  }

  lemma RoundReported(cfg: Config, announce: Event, ok: bool, t: seq<Event>, err: Error, rounds: seq<Round>)
    requires announce.Attempt? && rounds != [] && 0 < announce.n && announce.err == err
    requires announce.delay == Delay(cfg, announce.n - 1, rounds[0].draw)
    requires Reported(cfg, t, if ok then ConnectionLost else ConnectFailed, rounds[1..])
    ensures Reported(cfg, RoundEvents(announce, ok) + t, err, rounds)
  {
    var t1 := [Connect(ok)] + if ok then [Connected(announce.n)] + t else t;
    ConnectReported(cfg, announce.n, ok, t, err, rounds[1..]);
    AttemptReported(cfg, announce, t1, err, rounds);
    ConsReported(cfg, Cleanup, [announce] + t1, err, rounds);
    RoundIs(announce, ok, t);
  }

  lemma RoundIs(announce: Event, ok: bool, t: seq<Event>)
    requires announce.Attempt?
    ensures RoundEvents(announce, ok) + t ==
            [Cleanup] + ([announce] + ([Connect(ok)] + if ok then [Connected(announce.n)] + t else t))
  {
  }

  lemma {:induction false} LoopReported(cfg: Config, attempt: nat, lastErr: Error, rounds: seq<Round>)
    ensures Reported(cfg, Loop(cfg, attempt, lastErr, rounds).trace, lastErr, rounds)
    decreases |rounds|
  {
    if !(0 <= cfg.maxRetries <= attempt) && rounds != [] {
      var r, announce := rounds[0], Announce(cfg, attempt, lastErr, rounds[0]);
      if r.stop {
      } else if r.stopInWait {
        ConsReported(cfg, Cleanup, [], lastErr, rounds[1..]);
        AttemptReported(cfg, announce, [Cleanup], lastErr, rounds);
        ConsReported(cfg, Cleanup, [announce] + [Cleanup], lastErr, rounds);
        assert [Cleanup, announce, Cleanup] == [Cleanup] + ([announce] + [Cleanup]);
      } else if r.ok && r.stopWhileUp {
        RoundReported(cfg, announce, true, [Cleanup], lastErr, rounds);
      } else {
        LoopReported(cfg, if r.ok then 0 else attempt + 1, if r.ok then ConnectionLost else ConnectFailed, rounds[1..]);
        RoundReported(cfg, announce, r.ok, After(cfg, attempt, rounds).trace, lastErr, rounds);
      }
    }
  }

  /** So for every run. */
  lemma AttemptsAreReported(cfg: Config, first: First, rounds: seq<Round>)
    ensures Reported(cfg, Whole(cfg, first, rounds).trace, ConnectFailed, rounds)
  {
    var lastErr := if first.ok then ConnectionLost else ConnectFailed;
    LoopReported(cfg, 0, lastErr, rounds);
    ConsReported(cfg, Connect(first.ok), Loop(cfg, 0, lastErr, rounds).trace, ConnectFailed, rounds);
    ConsReported(cfg, Connect(first.ok), [], ConnectFailed, rounds);
    assert [Connect(first.ok)] + [] == [Connect(first.ok)];
    ConsReported(cfg, Connect(true), [Cleanup], ConnectFailed, rounds);
    assert [Connect(true), Cleanup] == [Connect(true)] + [Cleanup];
  }
}
