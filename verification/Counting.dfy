/** There are more byte strings of one length than of all smaller lengths together, so
    an injective function cannot shorten them all. */
module Counting {
  import opened Messages

  function Pow256(n: nat): (r: nat)
    ensures 1 <= r
  {
    if n == 0 then 1 else 256 * Pow256(n - 1)
  }

  /** The k-th string of length n. */
  function Str(k: nat, n: nat): (s: Bytes)
    requires k < Pow256(n)
    ensures |s| == n
  {
    if n == 0 then [] else [k % 256] + Str(k / 256, n - 1)
  }

  lemma {:induction false} StrInjective(j: nat, k: nat, n: nat)
    requires j < Pow256(n) && k < Pow256(n) && Str(j, n) == Str(k, n)
    ensures j == k
  {
    if 0 < n {
      assert Str(j, n)[0] == Str(k, n)[0];
      assert Str(j, n)[1..] == Str(j / 256, n - 1) && Str(k, n)[1..] == Str(k / 256, n - 1);
      StrInjective(j / 256, k / 256, n - 1);
    }
  }

  /** A number for every string of any length. */
  function Code(s: Bytes): nat {
    if s == [] then 0 else s[0] + 1 + 256 * Code(s[1..])
  }

  lemma {:induction false} CodeInjective(s: Bytes, t: Bytes)
    requires Code(s) == Code(t)
    ensures s == t
  {
    if s != [] && t != [] {
      assert s[0] == t[0] && Code(s[1..]) == Code(t[1..]);
      CodeInjective(s[1..], t[1..]);
      assert s == [s[0]] + s[1..] && t == [t[0]] + t[1..];
    }
  }

  lemma {:induction false} CodeBound(s: Bytes)
    ensures Code(s) + 2 <= 2 * Pow256(|s|)
  {
    if s != [] {
      CodeBound(s[1..]);
    }
  }

  lemma {:induction false} PowMonotone(m: nat, n: nat)
    requires m <= n
    ensures Pow256(m) <= Pow256(n)
    decreases n - m
  {
    if m < n {
      PowMonotone(m, n - 1);
    }
  }

  lemma ShortCode(s: Bytes, n: nat)
    requires |s| < n
    ensures Code(s) + 1 < Pow256(n)
  {
    CodeBound(s);
    PowMonotone(|s|, n - 1);
  }

  function Below(m: nat): set<nat> {
    if m == 0 then {} else Below(m - 1) + {m - 1}
  }

  lemma {:induction false} BelowIs(m: nat)
    ensures forall k: nat :: k in Below(m) <==> k < m
  {
    if 0 < m {
      BelowIs(m - 1);
    }
  }

  lemma {:induction false} BelowSize(m: nat)
    ensures |Below(m)| == m
  {
    if 0 < m {
      BelowSize(m - 1);
      BelowIs(m - 1);
    }
  }

  function Image(f: nat -> nat, n: nat): set<nat> {
    if n == 0 then {} else Image(f, n - 1) + {f(n - 1)}
  }

  lemma {:induction false} ImageIs(f: nat -> nat, n: nat)
    ensures forall y :: y in Image(f, n) ==> exists k: nat :: k < n && f(k) == y
  {
    if 0 < n {
      ImageIs(f, n - 1);
      assert n - 1 < n && f(n - 1) == f(n - 1);
    }
  }

  ghost predicate Injective(f: nat -> nat, n: nat) {
    forall i, j :: 0 <= i < j < n ==> f(i) != f(j)
  }

  lemma {:induction false} ImageSize(f: nat -> nat, n: nat)
    requires Injective(f, n)
    ensures |Image(f, n)| == n
  {
    if 0 < n {
      ImageSize(f, n - 1);
      ImageIs(f, n - 1);
    }
  }

  lemma SubsetSize(a: set<nat>, b: set<nat>)
    requires a <= b
    ensures |a| <= |b|
  {
    assert b == a + (b - a);
  }

  lemma Pigeonhole(f: nat -> nat, n: nat, m: nat)
    requires m < n && forall k: nat :: k < n ==> f(k) < m
    ensures !Injective(f, n)
  {
    if Injective(f, n) {
      ImageSize(f, n);
      ImageIs(f, n);
      BelowSize(m);
      BelowIs(m);
      SubsetSize(Image(f, n), Below(m));
    }
  }

  ghost predicate InjectiveOn(g: Bytes -> Bytes, n: nat) {
    forall p, q :: |p| == n && |q| == n && g(p) == g(q) ==> p == q
  }

  /** The number of the image of the k-th string. */
  function ImageCode(g: Bytes -> Bytes, n: nat, k: nat): nat {
    if k < Pow256(n) then Code(g(Str(k, n))) else 0
  }

  lemma SomeImageIsLong(g: Bytes -> Bytes, n: nat)
    requires InjectiveOn(g, n)
    ensures exists p :: |p| == n && n <= |g(p)|
  {
    var f: nat -> nat := k => ImageCode(g, n, k);
    if forall p :: |p| == n ==> |g(p)| < n {
      forall k: nat | k < Pow256(n) ensures f(k) < Pow256(n) - 1 {
        ShortCode(g(Str(k, n)), n);
      }
      Pigeonhole(f, Pow256(n), Pow256(n) - 1);
      var i, j :| 0 <= i < j < Pow256(n) && f(i) == f(j);
      CodeInjective(g(Str(i, n)), g(Str(j, n)));
      StrInjective(i, j, n);
    }
  }
}
