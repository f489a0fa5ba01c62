/** `ReconnectConfig.delay` (pkg/tunnel/reconnect.go:69-89) over the reals, with the
    random draw as a parameter and the final conversion to a whole duration. */
module Backoff {

  datatype Config = Config(maxRetries: int, initialDelay: real, maxDelay: real, factor: real, jitter: real)

  function Pow(x: real, n: nat): real {
    if n == 0 then 1.0 else x * Pow(x, n - 1)
  }

  /** The delay before jitter: initial * factor^attempt, capped. */
  function Base(cfg: Config, attempt: nat): real {
    var d := cfg.initialDelay * Pow(cfg.factor, attempt);
    if d > cfg.maxDelay then cfg.maxDelay else d
  }

  /** Go's conversion of a float to an integer drops the fraction. */
  function Truncate(x: real): int {
    if x >= 0.0 then x.Floor else -((-x).Floor)
  }

  /** `delay`, for a draw in [-1, 1]. */
  function Delay(cfg: Config, attempt: nat, draw: real): int {
    var base := Base(cfg, attempt);
    var d := if cfg.jitter > 0.0 then base * (1.0 + cfg.jitter * draw) else base;
    var result := Truncate(d);
    if result < 0 then 0 else result
  }

  /** A configuration as documented: growing delays, jitter a fraction. */
  predicate Sane(cfg: Config) {
    cfg.initialDelay > 0.0 && cfg.factor >= 1.0 && cfg.maxDelay >= 0.0 && 0.0 <= cfg.jitter <= 1.0
  }

  lemma {:induction false} PowGrows(x: real, n: nat)
    requires x >= 1.0
    ensures 1.0 <= Pow(x, n) <= Pow(x, n + 1)
  {
    if n > 0 {
      PowGrows(x, n - 1);
      Scale(Pow(x, n), x);
    } else {
      assert Pow(x, 1) == x * Pow(x, 0);
    }
  }

  lemma Scale(p: real, x: real)
    requires p >= 1.0 && x >= 1.0
    ensures p <= x * p
  {
    assert (x - 1.0) * p >= 0.0;
  }

  lemma BaseBounds(cfg: Config, attempt: nat)
    requires Sane(cfg)
    ensures 0.0 <= Base(cfg, attempt) <= cfg.maxDelay
    ensures Base(cfg, attempt) <= cfg.initialDelay * Pow(cfg.factor, attempt)
  {
    PowGrows(cfg.factor, attempt);
    assert cfg.initialDelay * Pow(cfg.factor, attempt) >= 0.0;
  }

  lemma BaseStep(cfg: Config, a: nat)
    requires Sane(cfg)
    ensures Base(cfg, a) <= Base(cfg, a + 1)
  {
    PowGrows(cfg.factor, a);
    ScaleMono(cfg.initialDelay, Pow(cfg.factor, a), Pow(cfg.factor, a + 1));
  }

  /** The delay before jitter never shrinks from one attempt to a later one. */
  lemma {:induction false} BaseIsMonotone(cfg: Config, a: nat, b: nat)
    requires Sane(cfg) && a <= b
    ensures Base(cfg, a) <= Base(cfg, b)
    decreases b - a
  {
    if a < b {
      BaseStep(cfg, a);
      var next := a + 1;
      BaseIsMonotone(cfg, next, b);
    }
  }

  lemma TruncateDown(x: real)
    requires x >= 0.0
    ensures 0.0 <= Truncate(x) as real <= x
  {
  }

  lemma ScaleMono(k: real, a: real, b: real)
    requires k >= 0.0 && a <= b
    ensures k * a <= k * b
  {
    assert k * (b - a) >= 0.0;
  }

  lemma DelayBelowBase(cfg: Config, attempt: nat, draw: real)
    requires Sane(cfg) && -1.0 <= draw <= 1.0
    ensures 0.0 <= Delay(cfg, attempt, draw) as real <= (1.0 + cfg.jitter) * Base(cfg, attempt)
  {
    var base := Base(cfg, attempt);
    var d := if cfg.jitter > 0.0 then base * (1.0 + cfg.jitter * draw) else base;
    BaseBounds(cfg, attempt);
    Jittered(base, cfg.jitter, draw);
    assert 0.0 <= d <= (1.0 + cfg.jitter) * base;
    TruncateDown(d);
  }

  lemma BelowCap(d: real, k: real, base: real, cap: real)
    requires k >= 0.0 && d <= k * base && base <= cap
    ensures d <= k * cap
  {
    ScaleMono(k, base, cap);
  }

  /** Jitter moves a delay by at most its fraction, and truncation only down. */
  lemma DelayBounds(cfg: Config, attempt: nat, draw: real)
    requires Sane(cfg) && -1.0 <= draw <= 1.0
    ensures 0.0 <= Delay(cfg, attempt, draw) as real <= (1.0 + cfg.jitter) * Base(cfg, attempt)
    ensures Delay(cfg, attempt, draw) as real <= (1.0 + cfg.jitter) * cfg.maxDelay
  {
    BaseBounds(cfg, attempt);
    DelayBelowBase(cfg, attempt, draw);
    BelowCap(Delay(cfg, attempt, draw) as real, 1.0 + cfg.jitter, Base(cfg, attempt), cfg.maxDelay);
  }

  lemma Jittered(base: real, j: real, draw: real)
    requires base >= 0.0 && 0.0 <= j <= 1.0 && -1.0 <= draw <= 1.0
    ensures 0.0 <= base * (1.0 + j * draw) <= (1.0 + j) * base
    ensures base <= (1.0 + j) * base
  {
    assert j * (1.0 - draw) >= 0.0;
    assert j * (1.0 + draw) >= 0.0;
    assert j * draw <= j && -j <= j * draw;
    assert base * (1.0 + j * draw) >= 0.0;
    assert base * (j - j * draw) >= 0.0;
  }

  function Sum(ds: seq<real>): real {
    if ds == [] then 0.0 else Sum(ds[..|ds| - 1]) + ds[|ds| - 1]
  }

  /** The waits of attempts 0, 1, ... with the given draws. */
  function Waits(cfg: Config, draws: seq<real>): seq<real> {
    seq(|draws|, i requires 0 <= i < |draws| => Delay(cfg, i, draws[i]) as real)
  }

  predicate Draws(draws: seq<real>) {
    forall i :: 0 <= i < |draws| ==> -1.0 <= draws[i] <= 1.0
  }

  ghost predicate AllBelow(ds: seq<real>, cap: real) {
    forall i :: 0 <= i < |ds| ==> ds[i] <= cap
  }

  function Term(g: real, f: real, n: nat): real {
    g * Pow(f, n)
  }

  ghost predicate AllBelowTerms(ds: seq<real>, f: real, g: real) {
    forall i :: 0 <= i < |ds| ==> ds[i] <= Term(g, f, i)
  }

  lemma {:induction false} SumOfBounded(ds: seq<real>, n: nat, cap: real)
    requires |ds| == n && AllBelow(ds, cap)
    ensures Sum(ds) <= n as real * cap
  {
    if 0 < n {
      SumOfBounded(ds[..n - 1], n - 1, cap);
      assert n as real * cap == (n - 1) as real * cap + cap;
    }
  }

  /** A sum times the ratio less one, against the closed form of a progression. */
  ghost predicate Geometric(sum: real, n: nat, f: real, g: real) {
    (f - 1.0) * sum <= g * (Pow(f, n) - 1.0)
  }

  lemma NextTerm(sum: real, d: real, n: nat, f: real, g: real)
    requires f >= 1.0 && d <= Term(g, f, n) && Geometric(sum, n, f, g)
    ensures Geometric(sum + d, n + 1, f, g)
  {
    var p := Pow(f, n);
    ScaleMono(f - 1.0, d, g * p);
    assert (f - 1.0) * (sum + d) == (f - 1.0) * sum + (f - 1.0) * d;
    assert (f - 1.0) * (g * p) + g * (p - 1.0) == g * (f * p - 1.0);
    assert Pow(f, n + 1) == f * p;
  }

  /** A sum of terms below a geometric progression. */
  lemma {:induction false} SumOfGeometric(ds: seq<real>, n: nat, f: real, g: real)
    requires |ds| == n && f >= 1.0 && AllBelowTerms(ds, f, g)
    ensures Geometric(Sum(ds), n, f, g)
  {
    if 0 < n {
      SumOfGeometric(ds[..n - 1], n - 1, f, g);
      NextTerm(Sum(ds[..n - 1]), ds[n - 1], n - 1, f, g);
    } else {
      assert (f - 1.0) * 0.0 == 0.0;
    }
  }

  lemma Divide(x: real, y: real, d: real)
    requires d > 0.0 && d * x <= y
    ensures x <= y / d
  {
  }

  /** A single wait against the progression. */
  lemma WaitBelowTerm(cfg: Config, attempt: nat, draw: real)
    requires Sane(cfg) && -1.0 <= draw <= 1.0
    ensures Delay(cfg, attempt, draw) as real <= Term((1.0 + cfg.jitter) * cfg.initialDelay, cfg.factor, attempt)
  {
    DelayBounds(cfg, attempt, draw);
    BaseBounds(cfg, attempt);
    var k, i, p := 1.0 + cfg.jitter, cfg.initialDelay, Pow(cfg.factor, attempt);
    Chain(Delay(cfg, attempt, draw) as real, k, Base(cfg, attempt), i, p, Term(k * i, cfg.factor, attempt));
  }

  lemma Chain(d: real, k: real, base: real, i: real, p: real, t: real)
    requires k >= 0.0 && d <= k * base && base <= i * p && t == (k * i) * p
    ensures d <= t
  {
    ScaleMono(k, base, i * p);
  }

  /** The closed form of the geometric series of n terms that starts with g. */
  function Series(g: real, f: real, n: nat): real
    requires f > 1.0
  {
    g * (Pow(f, n) - 1.0) / (f - 1.0)
  }

  lemma WaitsBelow(cfg: Config, draws: seq<real>, cap: real, g: real)
    requires Sane(cfg) && Draws(draws)
    requires cap == (1.0 + cfg.jitter) * cfg.maxDelay && g == (1.0 + cfg.jitter) * cfg.initialDelay
    ensures |Waits(cfg, draws)| == |draws|
    ensures AllBelow(Waits(cfg, draws), cap) && AllBelowTerms(Waits(cfg, draws), cfg.factor, g)
  {
    var ds := Waits(cfg, draws);
    forall i | 0 <= i < |ds| ensures ds[i] <= cap && ds[i] <= Term(g, cfg.factor, i) {
      DelayBounds(cfg, i, draws[i]);
      WaitBelowTerm(cfg, i, draws[i]);
    }
  }

  /** The total wait over n attempts is at most n capped delays, and at most the
      geometric series of the uncapped ones; `cap` and `g` are the largest and the
      first delay stretched by the jitter. */
  lemma TotalWaitBounds(cfg: Config, draws: seq<real>, cap: real, g: real)
    requires Sane(cfg) && Draws(draws) && cfg.factor > 1.0
    requires cap == (1.0 + cfg.jitter) * cfg.maxDelay && g == (1.0 + cfg.jitter) * cfg.initialDelay
    ensures Sum(Waits(cfg, draws)) <= |draws| as real * cap
    ensures Sum(Waits(cfg, draws)) <= Series(g, cfg.factor, |draws|)
  {
    WaitsBelow(cfg, draws, cap, g);
    SumBounds(Waits(cfg, draws), |draws|, cfg.factor, cap, g);
  }

  lemma SumBounds(ds: seq<real>, n: nat, f: real, cap: real, g: real)
    requires |ds| == n && f > 1.0 && AllBelow(ds, cap) && AllBelowTerms(ds, f, g)
    ensures Sum(ds) <= n as real * cap
    ensures Sum(ds) <= Series(g, f, n)
  {
    SumOfBounded(ds, n, cap);
    SumBelowSeries(ds, n, f, g);
  }

  lemma SumBelowSeries(ds: seq<real>, n: nat, f: real, g: real)
    requires |ds| == n && f > 1.0 && AllBelowTerms(ds, f, g)
    ensures Sum(ds) <= Series(g, f, n)
  {
    SumOfGeometric(ds, n, f, g);
    Divide(Sum(ds), g * (Pow(f, n) - 1.0), f - 1.0);
  }

  // ---------------------------------------------------------------------------
  // From below.

  function Min(x: real, y: real): real {
    if x > y then y else x
  }

  /** The delay before jitter starts at the initial delay and is multiplied by the factor
      from attempt to attempt, until the maximum. */
  lemma BaseIsGeometric(cfg: Config, attempt: nat)
    requires Sane(cfg)
    ensures Base(cfg, 0) == Min(cfg.initialDelay, cfg.maxDelay)
    ensures Base(cfg, attempt + 1) == Min(cfg.factor * Base(cfg, attempt), cfg.maxDelay)
  {
    var d := cfg.initialDelay * Pow(cfg.factor, attempt);
    assert Pow(cfg.factor, 0) == 1.0;
    assert Pow(cfg.factor, attempt + 1) == cfg.factor * Pow(cfg.factor, attempt);
    assert cfg.initialDelay * (cfg.factor * Pow(cfg.factor, attempt)) == cfg.factor * d;
    if d > cfg.maxDelay {
      ScaleMono(cfg.factor, cfg.maxDelay, d);
      StretchMax(cfg.factor, cfg.maxDelay);
    }
  }

  lemma StretchMax(f: real, m: real)
    requires f >= 1.0 && m >= 0.0
    ensures f * m >= m
  {
    assert (f - 1.0) * m >= 0.0;
  }

  /** A delay is the base moved by the draw's share of the jitter, without its fraction;
      so it falls short of the base by no more than the jitter and one unit of time. */
  lemma DelayIsDue(cfg: Config, attempt: nat, draw: real)
    requires Sane(cfg) && -1.0 <= draw <= 1.0
    ensures (1.0 - cfg.jitter) * Base(cfg, attempt) - 1.0 < Delay(cfg, attempt, draw) as real
    ensures Delay(cfg, attempt, draw) == (Base(cfg, attempt) * (1.0 + cfg.jitter * draw)).Floor
  {
    var base := Base(cfg, attempt);
    var d := if cfg.jitter > 0.0 then base * (1.0 + cfg.jitter * draw) else base;
    BaseBounds(cfg, attempt);
    Jittered(base, cfg.jitter, draw);
    JitteredDown(base, cfg.jitter, draw);
    assert (1.0 - cfg.jitter) * base <= d;
    assert d - 1.0 < d.Floor as real;
    if cfg.jitter == 0.0 {
      assert cfg.jitter * draw == 0.0;
    }
    assert d == base * (1.0 + cfg.jitter * draw);
  }

  lemma JitteredDown(base: real, j: real, draw: real)
    requires base >= 0.0 && 0.0 <= j <= 1.0 && -1.0 <= draw <= 1.0
    ensures (1.0 - j) * base <= base * (1.0 + j * draw)
    ensures (1.0 - j) * base <= base
  {
    assert j * (1.0 + draw) >= 0.0;
    assert base * (j + j * draw) >= 0.0;
    assert j * base >= 0.0;
  }
}
