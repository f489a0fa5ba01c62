/** Heartbeat timing (pkg/broker/client_conn.go:190-213): a ticker every 15 s, a
    client closed at the first tick more than 45 s after it was last seen. Times are
    in nanoseconds; a tick is handled at its nominal time. */
module Heartbeat {
  import opened Messages

  const INTERVAL := 15_000_000_000
  const TIMEOUT := 45_000_000_000

  /** The client of one heartbeat loop: when the loop was started, when the client had
      been seen before that, and when its later messages reached the broker. */
  datatype Client = Client(start: int, seen: int, receipts: seq<int>)

  /** The first message is seen before the loop is started (server.go:292, 345), and
      messages are seen in order. */
  ghost predicate Timeline(c: Client) {
    && c.seen <= c.start
    && (forall i :: 0 <= i < |c.receipts| ==> c.seen <= c.receipts[i])
    && (forall i, j :: 0 <= i < j < |c.receipts| ==> c.receipts[i] <= c.receipts[j])
  }

  /** The time of the k-th tick. */
  function Tick(c: Client, k: nat): int {
    c.start + k * INTERVAL
  }

  /** The client showed a sign of life in the 45 s up to the k-th tick. */
  ghost predicate Alive(c: Client, k: nat) {
    || Tick(c, k) - TIMEOUT <= c.seen
    || exists i :: 0 <= i < |c.receipts| && Tick(c, k) - TIMEOUT <= c.receipts[i] <= Tick(c, k)
  }

  /** `StartHeartbeat`'s loop over `n` ticks, with the relay updating `lastSeen`
      beside it: the tick at which it closes the client, if any, is the first at which
      the client is not alive. */
  method HeartbeatLoop(c: Client, n: nat) returns (closedAt: Option<nat>, heartbeats: nat)
    requires Timeline(c)
    ensures closedAt.Some? ==>
              && 1 <= closedAt.value <= n && !Alive(c, closedAt.value)
              && (forall k :: 1 <= k < closedAt.value ==> Alive(c, k))
              && heartbeats == closedAt.value - 1
    ensures closedAt.None? ==> heartbeats == n && forall k :: 1 <= k <= n ==> Alive(c, k)
  {
    var lastSeen, next := c.seen, 0;
    heartbeats := 0;
    for k := 1 to n + 1
      invariant heartbeats == k - 1
      invariant 0 <= next <= |c.receipts|
      invariant lastSeen == if next == 0 then c.seen else c.receipts[next - 1]
      invariant next == 0 || c.receipts[next - 1] <= Tick(c, k)
      invariant forall j :: 1 <= j < k ==> Alive(c, j)
    {
      while next < |c.receipts| && c.receipts[next] <= Tick(c, k)
        invariant 0 <= next <= |c.receipts|
        invariant lastSeen == if next == 0 then c.seen else c.receipts[next - 1]
        invariant next == 0 || c.receipts[next - 1] <= Tick(c, k)
      {
        lastSeen, next := c.receipts[next], next + 1;
      }
      if Tick(c, k) - lastSeen > TIMEOUT {
        assert !Alive(c, k);
        return Some(k), heartbeats;
      }
      assert Alive(c, k);
      heartbeats := heartbeats + 1;
    }
    closedAt := None;
  }

  /** A time at which the client was seen. */
  ghost predicate SeenAt(c: Client, t: int) {
    t == c.seen || exists i :: 0 <= i < |c.receipts| && t == c.receipts[i]
  }

  /** Nobody is timed out within 45 s of having been seen. */
  lemma NotBeforeTimeout(c: Client, t: int, k: nat)
    requires Timeline(c) && SeenAt(c, t) && t <= Tick(c, k) <= t + TIMEOUT
    ensures Alive(c, k)
  {
    if t != c.seen {
      var i :| 0 <= i < |c.receipts| && t == c.receipts[i];
      assert Tick(c, k) - TIMEOUT <= c.receipts[i] <= Tick(c, k);
    }
  }

  /** A client silent since `t` is not alive at any tick after t + 45 s, and such a
      tick comes by t + 60 s exactly when the loop was started by t + 45 s. */
  lemma SilentClientIsClosed(c: Client, t: int)
    requires Timeline(c) && SeenAt(c, t) && forall u :: SeenAt(c, u) ==> u <= t
    ensures forall k: nat :: t + TIMEOUT < Tick(c, k) ==> !Alive(c, k)
    ensures (exists k: nat :: 1 <= k && t + TIMEOUT < Tick(c, k) <= t + TIMEOUT + INTERVAL) <==> c.start <= t + TIMEOUT
  {
    forall k: nat | t + TIMEOUT < Tick(c, k) ensures !Alive(c, k) {
      assert SeenAt(c, c.seen);
      forall i | 0 <= i < |c.receipts| ensures c.receipts[i] <= t {
        assert SeenAt(c, c.receipts[i]);
      }
    }
    if c.start <= t + TIMEOUT {
      var k := (t + TIMEOUT - c.start) / INTERVAL + 1;
      assert 1 <= k && t + TIMEOUT < Tick(c, k) <= t + TIMEOUT + INTERVAL;
    }
  }

  /** How far the recorded receipts reach. */
  function Horizon(c: Client): int {
    if c.receipts == [] then c.start else c.receipts[|c.receipts| - 1]
  }

  /** The client echoes the heartbeat of every tick within `delay`. The heartbeat goes
      out after the check of its tick, so the echo comes after it. */
  ghost predicate Echoes(c: Client, delay: int) {
    forall k: nat :: 1 <= k && Tick(c, k) + delay <= Horizon(c) ==>
      exists i :: 0 <= i < |c.receipts| && Tick(c, k) < c.receipts[i] <= Tick(c, k) + delay
  }

  /** An answer for every heartbeat, as both ends of a tunnel give them, makes a client
      that echoes: if the k-th answer arrives after the k-th tick and within `delay` of
      it, for all ticks whose answer is due within the record. */
  lemma AnswersAreEchoes(c: Client, answers: seq<int>, delay: int)
    requires forall k :: 0 <= k < |answers| ==> answers[k] in c.receipts
    requires forall k :: 0 <= k < |answers| ==> Tick(c, k + 1) < answers[k] <= Tick(c, k + 1) + delay
    requires Horizon(c) < Tick(c, |answers| + 1) + delay
    ensures Echoes(c, delay)
  {
    forall k: nat | 1 <= k && Tick(c, k) + delay <= Horizon(c)
      ensures exists i :: 0 <= i < |c.receipts| && Tick(c, k) < c.receipts[i] <= Tick(c, k) + delay
    {
      TicksInOrder(c, k, |answers|, delay);
      assert answers[k - 1] in c.receipts;
      var i :| 0 <= i < |c.receipts| && c.receipts[i] == answers[k - 1];
      assert Tick(c, k) < c.receipts[i] <= Tick(c, k) + delay;
    }
  }

  lemma TicksInOrder(c: Client, k: nat, n: nat, delay: int)
    requires Tick(c, k) + delay < Tick(c, n + 1) + delay
    ensures k <= n
  {
  }

  /** A client that was seen `gap` before its heartbeat loop started, and that answers
      every heartbeat within `delay`. */
  ghost predicate Answers(c: Client, gap: nat, delay: nat) {
    Timeline(c) && c.start - c.seen == gap && Echoes(c, delay)
  }

  /** The gaps and delays that the timeout leaves room for. */
  predicate Tolerable(gap: nat, delay: nat) {
    || (gap == 0 && delay <= TIMEOUT)
    || (gap <= INTERVAL && delay <= 2 * INTERVAL)
    || (gap <= 2 * INTERVAL && delay <= INTERVAL)
  }

  /** A client that answers is never timed out, at any tick covered by the record, if
      and only if its gap and its delay are tolerable: answers within 45 s are enough
      only for a client seen at the very start, within 30 s for one seen no more than
      15 s before, and within 15 s for one seen no more than 30 s before. */
  lemma AnsweringClientStays(gap: nat, delay: nat)
    requires 0 < delay
    ensures Tolerable(gap, delay) <==>
            forall c, k: nat :: Answers(c, gap, delay) && 1 <= k && Tick(c, k) <= Horizon(c) ==> Alive(c, k)
  {
    if Tolerable(gap, delay) {
      forall c, k: nat | Answers(c, gap, delay) && 1 <= k && Tick(c, k) <= Horizon(c) ensures Alive(c, k) {
        StaysAlive(c, gap, delay, k);
      }
    } else {
      var n := if 2 * INTERVAL < gap then 1 else if INTERVAL < gap then 2 else if 0 < gap then 3 else 4;
      var c := LateAnswer(gap, delay, n);
      assert !Alive(c, n);
    }
  }

  lemma StaysAlive(c: Client, gap: nat, delay: nat, k: nat)
    requires Tolerable(gap, delay) && Answers(c, gap, delay) && 1 <= k && Tick(c, k) <= Horizon(c)
    ensures Alive(c, k)
  {
    var back := if delay <= INTERVAL then 1 else if delay <= 2 * INTERVAL then 2 else 3;
    if back < k {
      EchoInWindow(c, delay, k, back);
    }
  }

  lemma EchoInWindow(c: Client, delay: int, k: nat, back: nat)
    requires Echoes(c, delay) && 1 <= back <= 3 && back < k && Tick(c, k) <= Horizon(c) && delay <= back * INTERVAL
    ensures Alive(c, k)
  {
    var j := k - back;
    assert Tick(c, j) + back * INTERVAL == Tick(c, k);
    assert Tick(c, j) + delay <= Horizon(c);
    var i :| 0 <= i < |c.receipts| && Tick(c, j) < c.receipts[i] <= Tick(c, j) + delay;
    assert Tick(c, k) - TIMEOUT <= c.receipts[i] <= Tick(c, k);
  }

  /** A client whose first answer comes just after tick `n`, within its delay, and which
      is closed at that tick for having been seen too long before. */
  lemma LateAnswer(gap: nat, delay: nat, n: nat) returns (c: Client)
    requires 1 <= n <= 4 && (3 - n) * INTERVAL < gap && (n - 1) * INTERVAL < delay
    ensures Answers(c, gap, delay) && Tick(c, n) <= Horizon(c) && !Alive(c, n)
  {
    c := Client(0, 0 - gap, [n * INTERVAL + 1]);
    forall k: nat | 1 <= k && Tick(c, k) + delay <= Horizon(c)
      ensures exists i :: 0 <= i < |c.receipts| && Tick(c, k) < c.receipts[i] <= Tick(c, k) + delay
    {
      OnlyTheFirst(k, n, delay);
      assert Tick(c, k) < c.receipts[0] <= Tick(c, k) + delay;
    }
  }

  lemma OnlyTheFirst(k: nat, n: nat, delay: nat)
    requires 1 <= k && 1 <= n && (n - 1) * INTERVAL < delay && k * INTERVAL + delay <= n * INTERVAL + 1
    ensures k == 1 && delay == (n - 1) * INTERVAL + 1
  {
    assert (k - 1) * INTERVAL < INTERVAL;
  }

  /** Seen ever so little before the loop started, a client whose first answer comes
      later than 30 s after the first heartbeat is closed at the third tick or before;
      at the third if it was seen in the 15 s before the start, and then less than 45 s
      after any heartbeat was sent to it. */
  lemma LateFirstAnswerIsFatal(c: Client)
    requires Timeline(c) && c.seen < c.start
    requires forall i :: 0 <= i < |c.receipts| ==> Tick(c, 3) < c.receipts[i]
    ensures !Alive(c, 3)
    ensures c.start - c.seen <= INTERVAL <==> Alive(c, 1) && Alive(c, 2)
  {
  }
}
