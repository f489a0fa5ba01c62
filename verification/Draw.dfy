/** `cryptoRandFloat64` (pkg/tunnel/reconnect.go:91-107) with the rounding of IEEE 754
    double precision. Every quantity in it is a whole number over a power of two, so the
    rounding is one of whole numbers to 53 significant bits. */
module Draw {

  const TWO_53 := 0x20_0000_0000_0000
  const TWO_63 := 0x8000_0000_0000_0000
  const TWO_64 := 0x1_0000_0000_0000_0000

  /** The distance between the doubles around `n`. */
  function Unit(n: nat): (u: nat)
    ensures 1 <= u
  {
    if n < TWO_53 then 1 else 2 * Unit(n / 2)
  }

  /** The multiple of `u` nearest to `n`, the even one of two. */
  function Nearest(n: nat, u: nat): nat
    requires 1 <= u
  {
    var q, r := n / u, n % u;
    if 2 * r < u || (2 * r == u && q % 2 == 0) then q * u else (q + 1) * u
  }

  /** The double nearest to `n`. */
  function Rounded(n: nat): nat {
    Nearest(n, Unit(n))
  }

  function RoundedInt(m: int): int {
    if m < 0 then 0 - Rounded(0 - m) else Rounded(m)
  }

  /** 2^63 times the result for the random number `n`: the two conversions to float64
      give Rounded(n) and 2^64, their quotient and its double are exact, and the
      difference with 1 is rounded once more. */
  function Scaled(n: nat): int
    requires n < TWO_64
  {
    RoundedInt(Rounded(n) - TWO_63)
  }

  function Draw(n: nat): real
    requires n < TWO_64
  {
    Scaled(n) as real / TWO_63 as real
  }

  // ---------------------------------------------------------------------------
  // Which numbers draw the ends of the range.

  function Pow2(k: nat): (p: nat)
    ensures 1 <= p
  {
    if k == 0 then 1 else 2 * Pow2(k - 1)
  }

  /** The unit of a number below 2^(53+k) divides 2^k. */
  lemma {:induction false} UnitDivides(n: nat, k: nat) returns (c: nat)
    requires n < TWO_53 * Pow2(k)
    ensures Pow2(k) == c * Unit(n)
  {
    if n < TWO_53 {
      c := Pow2(k);
    } else {
      c := UnitDivides(n / 2, k - 1);
    }
  }

  /** Rounding moves a number by at most half a unit. */
  lemma NearestBounds(n: nat, u: nat)
    requires 1 <= u
    ensures 2 * n <= 2 * Nearest(n, u) + u && 2 * Nearest(n, u) <= 2 * n + u
  {
    assert n == n / u * u + n % u;
    assert (n / u + 1) * u == n / u * u + u;
  }

  /** Nor does it move a number past a multiple of the unit. */
  lemma NearestUpTo(n: nat, u: nat, c: nat)
    requires 1 <= u && n <= c * u
    ensures Nearest(n, u) <= c * u
  {
    var q, r := n / u, n % u;
    assert n == q * u + r;
    if c < q {
      Mono(c + 1, q, u);
      assert false;
    } else if q < c {
      Mono(q + 1, c, u);
    }
  }

  lemma Mono(a: nat, b: nat, u: nat)
    requires a <= b
    ensures a * u <= b * u && (a + 1) * u == a * u + u
  {
  }

  lemma Associate(a: nat, b: nat, u: nat)
    ensures (a * b) * u == a * (b * u)
  {
  }

  lemma {:induction false} UnitAt(n: nat, k: nat)
    requires TWO_53 * Pow2(k) <= 2 * n && n < TWO_53 * Pow2(k)
    ensures Unit(n) == Pow2(k)
  {
    if 0 < k {
      Halve(n, Pow2(k - 1));
      UnitAt(n / 2, k - 1);
    }
  }

  lemma Halve(n: nat, h: nat)
    requires 1 <= h && TWO_53 * h <= n < TWO_53 * (2 * h)
    ensures TWO_53 <= n && TWO_53 * h <= 2 * (n / 2) && n / 2 < TWO_53 * h
  {
    var m := TWO_53 / 2 * h;
    assert TWO_53 * h == 2 * m && TWO_53 * (2 * h) == 4 * m;
    HalveEven(n, m);
  }

  lemma HalveEven(n: nat, m: nat)
    requires 2 * m <= n < 4 * m
    ensures 2 * m <= 2 * (n / 2) && n / 2 < 2 * m
  {
  }

  lemma Powers()
    ensures Pow2(10) == 1024 && Pow2(11) == 2048
  {
    assert Pow2(4) == 16;
    assert Pow2(8) == 256;
  }

  lemma NearestHigh(n: nat)
    requires TWO_63 <= n < TWO_64
    ensures Nearest(n, 2048) % 2048 == 0 && TWO_63 <= Nearest(n, 2048) <= TWO_64
    ensures Nearest(n, 2048) == TWO_64 <==> TWO_64 - 1024 <= n
  {
  }

  lemma RoundedLow(n: nat)
    requires n <= TWO_63
    ensures Rounded(n) <= TWO_63
  {
    Powers();
    if n == TWO_63 {
      UnitAt(n, 11);
    } else {
      var c := UnitDivides(n, 10);
      Associate(TWO_53, c, Unit(n));
      NearestUpTo(n, Unit(n), TWO_53 * c);
    }
  }

  /** Numbers up to 2^63 round to at most that, and all others to a multiple of 2048 up
      to 2^64, which is where exactly the last 1024 go. */
  lemma RoundedTop(n: nat)
    requires n < TWO_64
    ensures n <= TWO_63 ==> Rounded(n) <= TWO_63
    ensures TWO_63 <= n ==> Rounded(n) % 2048 == 0 && TWO_63 <= Rounded(n) <= TWO_64
    ensures TWO_63 <= n ==> (Rounded(n) == TWO_64 <==> TWO_64 - 1024 <= n)
  {
    if n <= TWO_63 {
      RoundedLow(n);
    }
    if TWO_63 <= n {
      Powers();
      UnitAt(n, 11);
      NearestHigh(n);
    }
  }

  /** The same one binade below: up to 2^63, and exactly the last 512 go there. */
  lemma RoundedBelow(m: nat)
    requires m <= TWO_63
    ensures Rounded(m) <= TWO_63
    ensures Rounded(m) == TWO_63 <==> TWO_63 - 512 <= m
  {
    Powers();
    RoundedTop(m);
    if TWO_63 <= 2 * m && m < TWO_63 {
      UnitAt(m, 10);
    } else if m < TWO_63 {
      HalfWay(m);
    }
  }

  /** A number of less than 63 bits does not round to 2^63. */
  lemma HalfWay(m: nat)
    requires 2 * m < TWO_63
    ensures Rounded(m) < TWO_63
  {
    Powers();
    var c := UnitDivides(m, 10);
    Associate(TWO_53, c, Unit(m));
    NearestBounds(m, Unit(m));
    UnitAtMost(m, c);
  }

  lemma UnitAtMost(m: nat, c: nat)
    requires Pow2(10) == c * Unit(m) && Pow2(10) == 1024
    ensures Unit(m) <= 1024
  {
    if c == 0 {
      assert false;
    }
    assert Unit(m) <= c * Unit(m);
  }

  /** Small numbers do not survive the subtraction: exactly those up to 512 are lost. */
  lemma RoundedBottom(n: nat)
    requires n < TWO_64
    ensures Rounded(n) <= 512 <==> n <= 512
  {
    if TWO_53 <= n {
      Powers();
      NearestBounds(n, Unit(n));
      if n < TWO_63 {
        var c := UnitDivides(n, 10);
        UnitAtMost(n, c);
      } else {
        RoundedTop(n);
      }
    }
  }

  /** A draw lies in [-1, 1]. The upper end is drawn, although documented not to be, by
      exactly the 1024 largest numbers, and the lower end by exactly the 513 smallest. */
  lemma DrawRange(n: nat)
    requires n < TWO_64
    ensures -1.0 <= Draw(n) <= 1.0
    ensures Draw(n) == 1.0 <==> TWO_64 - 1024 <= n
    ensures Draw(n) == -1.0 <==> n <= 512
  {
    ScaledRange(n);
    Quotient(Scaled(n));
  }

  lemma ScaledRange(n: nat)
    requires n < TWO_64
    ensures -TWO_63 <= Scaled(n) <= TWO_63
    ensures Scaled(n) == TWO_63 <==> TWO_64 - 1024 <= n
    ensures Scaled(n) == -TWO_63 <==> n <= 512
  {
    RoundedTop(n);
    RoundedBottom(n);
    var m := Rounded(n) - TWO_63;
    if m < 0 {
      RoundedBelow(-m);
    } else {
      RoundedBelow(m);
    }
  }

  lemma Quotient(k: int)
    requires -TWO_63 <= k <= TWO_63
    ensures -1.0 <= k as real / TWO_63 as real <= 1.0
    ensures k as real / TWO_63 as real == 1.0 <==> k == TWO_63
    ensures k as real / TWO_63 as real == -1.0 <==> k == -TWO_63
  {
    var q := k as real / TWO_63 as real;
    assert q * TWO_63 as real == k as real;
  }
}
