/** AES-256-GCM with counter nonces (pkg/crypto/aead.go). The cipher itself is a
    parameter of which only the AEAD laws are asked. */
module Aead {
  import opened Messages
  import Framing

  const AES_KEY_SIZE := 32
  const NONCE_SIZE := 12
  const TAG_SIZE := 16
  const MAX_FRAME_SIZE := 0x10_0000
  const COUNTERS := 0x1_0000_0000_0000_0000

  /** `Seal` and `Open` of an AEAD with empty associated data: key, nonce, text. */
  datatype Cipher = Cipher(seal: (Bytes, Bytes, Bytes) -> Bytes, open: (Bytes, Bytes, Bytes) -> Option<Bytes>)

  /** Sections 5.1 and 5.2 of RFC 5116: opening undoes sealing, the ciphertext is one
      tag longer, and only the sealing of a text opens to it. */
  ghost predicate Lawful(ci: Cipher) {
    && (forall k, n, p :: |ci.seal(k, n, p)| == |p| + TAG_SIZE)
    && (forall k, n, p :: ci.open(k, n, ci.seal(k, n, p)) == Some(p))
    && (forall k, n, c :: ci.open(k, n, c).Some? ==> c == ci.seal(k, n, ci.open(k, n, c).value))
  }

  /** The laws can be met. */
  lemma LawfulCipherExists()
    ensures exists ci :: Lawful(ci)
  {
    var tag: Bytes := seq(TAG_SIZE, i => 0);
    var ci := Cipher(
      (k, n, p) => p + tag,
      (k, n, c: Bytes) =>
        if |c| >= TAG_SIZE && c[|c| - TAG_SIZE..] == tag then Some(c[..|c| - TAG_SIZE]) else None);
    forall k, n, p: Bytes ensures ci.open(k, n, ci.seal(k, n, p)) == Some(p) {
      assert (p + tag)[|p|..] == tag && (p + tag)[..|p|] == p;
    }
    forall k, n, c: Bytes | ci.open(k, n, c).Some? ensures c == ci.seal(k, n, ci.open(k, n, c).value) {
      assert c == c[..|c| - TAG_SIZE] + c[|c| - TAG_SIZE..];
    }
    assert Lawful(ci);
  }

  /** The nonce of section 8.2.1 of NIST SP 800-38D as laid out here: four zero bytes
      and the counter in big-endian. */
  function Nonce(counter: nat): Bytes
    requires counter < COUNTERS
  {
    [0, 0, 0, 0] + Framing.U32(counter / 0x1_0000_0000) + Framing.U32(counter % 0x1_0000_0000)
  }

  lemma NonceInjective(a: nat, b: nat)
    requires a < COUNTERS && b < COUNTERS && Nonce(a) == Nonce(b)
    ensures a == b
  {
    Framing.U32RoundTrip(a / 0x1_0000_0000);
    Framing.U32RoundTrip(a % 0x1_0000_0000);
    Framing.U32RoundTrip(b / 0x1_0000_0000);
    Framing.U32RoundTrip(b % 0x1_0000_0000);
    assert Nonce(a)[4..8] == Framing.U32(a / 0x1_0000_0000) && Nonce(a)[8..] == Framing.U32(a % 0x1_0000_0000);
    assert Nonce(b)[4..8] == Framing.U32(b / 0x1_0000_0000) && Nonce(b)[8..] == Framing.U32(b % 0x1_0000_0000);
  }

  datatype Error = Oversize | MissingNonce | NonceMismatch | Forged

  /** The sealed message that counter `n` gives plaintext `p`. */
  function Sealed(ci: Cipher, key: Bytes, n: nat, p: Bytes): Bytes
    requires n < COUNTERS
  {
    Nonce(n) + ci.seal(key, Nonce(n), p)
  }

  /** What the receiver holding counter `n` makes of a message. */
  function Opened(ci: Cipher, key: Bytes, n: nat, c: Bytes): Result<Bytes, Error>
    requires n < COUNTERS
  {
    if |c| < NONCE_SIZE then Err(MissingNonce)
    else if c[..NONCE_SIZE] != Nonce(n) then Err(NonceMismatch)
    else match ci.open(key, c[..NONCE_SIZE], c[NONCE_SIZE..])
      case None => Err(Forged)
      case Some(p) => Ok(p)
  }

  /** A message too short to carry a nonce is the one that costs no counter. */
  function Spent(n: nat, c: Bytes): (m: nat)
    requires n < COUNTERS
    ensures m < COUNTERS
  {
    if |c| < NONCE_SIZE then n else (n + 1) % COUNTERS
  }

  lemma OpenedSealed(ci: Cipher, key: Bytes, n: nat, m: nat, p: Bytes)
    requires Lawful(ci) && n < COUNTERS && m < COUNTERS
    ensures Opened(ci, key, n, Sealed(ci, key, m, p)) == if n == m then Ok(p) else Err(NonceMismatch)
  {
    var c := Sealed(ci, key, m, p);
    assert c[..NONCE_SIZE] == Nonce(m);
    assert c[NONCE_SIZE..] == ci.seal(key, Nonce(m), p);
    if Nonce(n) == Nonce(m) {
      NonceInjective(n, m);
    }
  }

  /** `binary.BigEndian.PutUint64` into `buf` from index `at`. */
  method PutU64(buf: array<Byte>, at: nat, n: nat)
    requires at + 8 == buf.Length && n < COUNTERS
    modifies buf
    ensures buf[..at] == old(buf[..at])
    ensures buf[at..at + 4] == Framing.U32(n / 0x1_0000_0000)
    ensures buf[at + 4..] == Framing.U32(n % 0x1_0000_0000)
  {
    var high := Framing.U32(n / 0x1_0000_0000);
    var low := Framing.U32(n % 0x1_0000_0000);
    buf[at], buf[at + 1], buf[at + 2], buf[at + 3] := high[0], high[1], high[2], high[3];
    assert buf[at..at + 4] == high;
    buf[at + 4], buf[at + 5], buf[at + 6], buf[at + 7] := low[0], low[1], low[2], low[3];
    assert buf[at..at + 4] == high;
  }

  /** `AEAD`. */
  class Counter {
    const cipher: Cipher
    const key: Bytes
    var counter: nat

    ghost predicate Valid()
      reads this
    {
      counter < COUNTERS && |key| == AES_KEY_SIZE
    }

    constructor (cipher: Cipher, key: Bytes)
      requires |key| == AES_KEY_SIZE
      ensures Valid() && counter == 0 && this.cipher == cipher && this.key == key
    {
      this.cipher := cipher;
      this.key := key;
      counter := 0;
    }

    /** `nextNonce`, with the wrap-around of `uint64`. */
    method NextNonce() returns (nonce: Bytes)
      requires Valid()
      modifies this`counter
      ensures Valid() && nonce == Nonce(old(counter)) && counter == (old(counter) + 1) % COUNTERS
    {
      var buf := new Byte[NONCE_SIZE](i => 0);
      PutU64(buf, 4, counter);
      nonce := buf[..];
      assert nonce == buf[..4] + buf[4..8] + buf[8..];
      counter := (counter + 1) % COUNTERS;
    }

    method Encrypt(p: Bytes) returns (r: Result<Bytes, Error>)
      requires Valid()
      modifies this`counter
      ensures Valid()
      ensures MAX_FRAME_SIZE < |p| ==> r == Err(Oversize) && counter == old(counter)
      ensures |p| <= MAX_FRAME_SIZE ==>
                r == Ok(Sealed(cipher, key, old(counter), p)) && counter == (old(counter) + 1) % COUNTERS
    {
      if MAX_FRAME_SIZE < |p| {
        return Err(Oversize);
      }
      var nonce := NextNonce();
      r := Ok(nonce + cipher.seal(key, nonce, p));
    }

    /** Even a message that is rejected for its nonce or its tag spends a counter. */
    method Decrypt(c: Bytes) returns (r: Result<Bytes, Error>)
      requires Valid()
      modifies this`counter
      ensures Valid()
      ensures r == Opened(cipher, key, old(counter), c) && counter == Spent(old(counter), c)
    {
      if |c| < NONCE_SIZE {
        return Err(MissingNonce);
      }
      var expected := NextNonce();
      var same := NonceEqual(c[..NONCE_SIZE], expected);
      if !same {
        return Err(NonceMismatch);
      }
      var plain := cipher.open(key, c[..NONCE_SIZE], c[NONCE_SIZE..]);
      r := if plain.None? then Err(Forged) else Ok(plain.value);
    }
  }

  /** `nonceEqual`. */
  method NonceEqual(a: Bytes, b: Bytes) returns (same: bool)
    ensures same <==> a == b
  {
    if |a| != |b| {
      return false;
    }
    for i := 0 to |a|
      invariant a[..i] == b[..i]
    {
      if a[i] != b[i] {
        return false;
      }
    }
    return true;
  }

  // ---------------------------------------------------------------------------
  // A receiver facing arbitrary messages.

  /** The messages a sender starting at counter `n` makes of its plaintexts. */
  function SealAll(ci: Cipher, key: Bytes, n: nat, ps: seq<Bytes>): seq<Bytes>
    requires n + |ps| <= COUNTERS
    decreases |ps|
  {
    if ps == [] then [] else [Sealed(ci, key, n, ps[0])] + SealAll(ci, key, n + 1, ps[1..])
  }

  /** The outcomes of a receiver that goes on after errors. */
  function OpenAll(ci: Cipher, key: Bytes, n: nat, cs: seq<Bytes>): seq<Result<Bytes, Error>>
    requires n < COUNTERS
    decreases |cs|
  {
    if cs == [] then [] else [Opened(ci, key, n, cs[0])] + OpenAll(ci, key, Spent(n, cs[0]), cs[1..])
  }

  /** Nobody without the key makes a message that opens: if it opens, the sender
      sealed it. */
  ghost predicate Genuine(ci: Cipher, key: Bytes, ps: seq<Bytes>, c: Bytes)
    requires |ps| <= COUNTERS
  {
    NONCE_SIZE <= |c| && ci.open(key, c[..NONCE_SIZE], c[NONCE_SIZE..]).Some? ==> c in SealAll(ci, key, 0, ps)
  }

  ghost predicate Unforged(ci: Cipher, key: Bytes, ps: seq<Bytes>, cs: seq<Bytes>)
    requires |ps| <= COUNTERS
  {
    forall i :: 0 <= i < |cs| ==> Genuine(ci, key, ps, cs[i])
  }

  /** The plaintexts accepted, in order. */
  function Accepted(rs: seq<Result<Bytes, Error>>): seq<Bytes> {
    if rs == [] then [] else (if rs[0].Ok? then [rs[0].value] else []) + Accepted(rs[1..])
  }

  /** The plaintexts a reader gets that stops at its first error. */
  function UntilError(rs: seq<Result<Bytes, Error>>): seq<Bytes> {
    if rs == [] || rs[0].Err? then [] else [rs[0].value] + UntilError(rs[1..])
  }

  /** The k-th sealed message is plaintext k under counter n + k. */
  lemma {:induction false} SealAllAt(ci: Cipher, key: Bytes, n: nat, ps: seq<Bytes>, k: nat)
    requires n + |ps| <= COUNTERS && k < |ps|
    ensures |SealAll(ci, key, n, ps)| == |ps|
    ensures SealAll(ci, key, n, ps)[k] == Sealed(ci, key, n + k, ps[k])
    decreases |ps|
  {
    if 0 < k {
      SealAllAt(ci, key, n + 1, ps[1..], k - 1);
    } else if 1 < |ps| {
      SealAllAt(ci, key, n + 1, ps[1..], 0);
    }
  }

  /** A message that opens at counter `n` is the sender's n-th. */
  lemma OpensOnlyInPlace(ci: Cipher, key: Bytes, n: nat, ps: seq<Bytes>, c: Bytes)
    requires Lawful(ci) && n < COUNTERS && |ps| <= COUNTERS && Genuine(ci, key, ps, c)
    requires Opened(ci, key, n, c).Ok?
    ensures n < |ps| && Opened(ci, key, n, c) == Ok(ps[n])
  {
    var sealed := SealAll(ci, key, 0, ps);
    var k :| 0 <= k < |sealed| && sealed[k] == c;
    SealAllLength(ci, key, 0, ps);
    SealAllAt(ci, key, 0, ps, k);
    OpenedSealed(ci, key, n, k, ps[k]);
  }

  lemma {:induction false} SealAllLength(ci: Cipher, key: Bytes, n: nat, ps: seq<Bytes>)
    requires n + |ps| <= COUNTERS
    ensures |SealAll(ci, key, n, ps)| == |ps|
    decreases |ps|
  {
    if ps != [] {
      SealAllLength(ci, key, n + 1, ps[1..]);
    }
  }

  /** `taken` is `ps[at[0]], ps[at[1]], ...` for strictly increasing indices from
      `from` on. */
  ghost predicate Picks(at: seq<nat>, from: nat, ps: seq<Bytes>, taken: seq<Bytes>) {
    && |at| == |taken|
    && (forall i :: 0 <= i < |at| ==> from <= at[i] < |ps| && taken[i] == ps[at[i]])
    && (forall i, j :: 0 <= i < j < |at| ==> at[i] < at[j])
  }

  lemma PicksCons(at: seq<nat>, n: nat, ps: seq<Bytes>, taken: seq<Bytes>)
    requires Picks(at, n + 1, ps, taken) && n < |ps|
    ensures Picks([n] + at, n, ps, [ps[n]] + taken)
  {
  }

  /** Whatever messages are delivered, replayed, reordered, cut or forged: the
      accepted plaintexts are picked from those sealed at strictly increasing indices,
      and a reader that stops at its first error has a prefix. */
  lemma ReplayAndReorderAreRejected(ci: Cipher, key: Bytes, ps: seq<Bytes>, cs: seq<Bytes>)
    requires Lawful(ci) && |ps| <= COUNTERS && |cs| < COUNTERS && Unforged(ci, key, ps, cs)
    ensures exists at :: Picks(at, 0, ps, Accepted(OpenAll(ci, key, 0, cs)))
    ensures UntilError(OpenAll(ci, key, 0, cs)) <= ps
  {
    var at := AcceptedFrom(ci, key, 0, ps, cs);
    PrefixFrom(ci, key, 0, ps, cs);
  }

  lemma {:induction false} AcceptedFrom(ci: Cipher, key: Bytes, n: nat, ps: seq<Bytes>, cs: seq<Bytes>)
    returns (at: seq<nat>)
    requires Lawful(ci) && |ps| <= COUNTERS && n + |cs| < COUNTERS && Unforged(ci, key, ps, cs)
    ensures Picks(at, n, ps, Accepted(OpenAll(ci, key, n, cs)))
    decreases |cs|
  {
    if cs == [] {
      at := [];
    } else {
      var r, m := Opened(ci, key, n, cs[0]), Spent(n, cs[0]);
      var rest := OpenAll(ci, key, m, cs[1..]);
      at := AcceptedFrom(ci, key, m, ps, cs[1..]);
      AcceptedCons(r, rest);
      if r.Ok? {
        OpensOnlyInPlace(ci, key, n, ps, cs[0]);
        assert m == n + 1;
        PicksCons(at, n, ps, Accepted(rest));
        at := [n] + at;
      }
    }
  }

  lemma AcceptedCons(r: Result<Bytes, Error>, rs: seq<Result<Bytes, Error>>)
    ensures Accepted([r] + rs) == (if r.Ok? then [r.value] else []) + Accepted(rs)
  {
    assert ([r] + rs)[1..] == rs;
  }

  lemma {:induction false} PrefixFrom(ci: Cipher, key: Bytes, n: nat, ps: seq<Bytes>, cs: seq<Bytes>)
    requires Lawful(ci) && n <= |ps| <= COUNTERS && n + |cs| < COUNTERS && Unforged(ci, key, ps, cs)
    ensures UntilError(OpenAll(ci, key, n, cs)) <= ps[n..]
    decreases |cs|
  {
    if cs != [] && Opened(ci, key, n, cs[0]).Ok? {
      OpensOnlyInPlace(ci, key, n, ps, cs[0]);
      assert Spent(n, cs[0]) == n + 1;
      PrefixFrom(ci, key, n + 1, ps, cs[1..]);
      var later := OpenAll(ci, key, n + 1, cs[1..]);
      UntilErrorCons(Opened(ci, key, n, cs[0]), later);
      PrefixCons(ps, n, UntilError(later));
    }
  }

  lemma PrefixCons(ps: seq<Bytes>, n: nat, later: seq<Bytes>)
    requires n < |ps| && later <= ps[n + 1..]
    ensures [ps[n]] + later <= ps[n..]
  {
    assert ps[n..] == [ps[n]] + ps[n + 1..];
  }

  lemma UntilErrorCons(r: Result<Bytes, Error>, rs: seq<Result<Bytes, Error>>)
    requires r.Ok?
    ensures UntilError([r] + rs) == [r.value] + UntilError(rs)
  {
    assert ([r] + rs)[1..] == rs;
  }

  // ---------------------------------------------------------------------------
  // Noise.

  lemma OpenAllCons(ci: Cipher, key: Bytes, n: nat, c: Bytes, later: seq<Bytes>)
    requires n < COUNTERS
    ensures OpenAll(ci, key, n, [c] + later) == [Opened(ci, key, n, c)] + OpenAll(ci, key, Spent(n, c), later)
  {
    assert ([c] + later)[1..] == later;
  }

  /** What the first message adds to what is accepted. */
  lemma AcceptedFirst(ci: Cipher, key: Bytes, n: nat, c: Bytes, later: seq<Bytes>)
    requires n < COUNTERS
    ensures Accepted(OpenAll(ci, key, n, [c] + later)) ==
            (if Opened(ci, key, n, c).Ok? then [Opened(ci, key, n, c).value] else []) +
            Accepted(OpenAll(ci, key, Spent(n, c), later))
  {
    OpenAllCons(ci, key, n, c, later);
    AcceptedCons(Opened(ci, key, n, c), OpenAll(ci, key, Spent(n, c), later));
  }

  lemma SealedSpends(ci: Cipher, key: Bytes, n: nat, m: nat, p: Bytes)
    requires n + 1 < COUNTERS && m < COUNTERS
    ensures Spent(n, Sealed(ci, key, m, p)) == n + 1
  {
    assert NONCE_SIZE <= |Sealed(ci, key, m, p)|;
  }

  lemma AcceptedSealed(ci: Cipher, key: Bytes, n: nat, m: nat, p: Bytes, later: seq<Bytes>)
    requires Lawful(ci) && n + 1 < COUNTERS && m < COUNTERS
    ensures Accepted(OpenAll(ci, key, n, [Sealed(ci, key, m, p)] + later)) ==
            (if n == m then [p] else []) + Accepted(OpenAll(ci, key, n + 1, later))
  {
    var c := Sealed(ci, key, m, p);
    OpenedSealed(ci, key, n, m, p);
    SealedSpends(ci, key, n, m, p);
    AcceptedFirst(ci, key, n, c, later);
  }

  /** A receiver in step with the sender accepts everything. */
  lemma {:induction false} InStep(ci: Cipher, key: Bytes, n: nat, ps: seq<Bytes>)
    requires Lawful(ci) && n + |ps| < COUNTERS
    ensures Accepted(OpenAll(ci, key, n, SealAll(ci, key, n, ps))) == ps
    decreases |ps|
  {
    if ps != [] {
      InStep(ci, key, n + 1, ps[1..]);
      AcceptedSealed(ci, key, n, n, ps[0], SealAll(ci, key, n + 1, ps[1..]));
      assert ps == [ps[0]] + ps[1..];
    }
  }

  /** A receiver that is ahead of the sender accepts nothing. */
  lemma {:induction false} Ahead(ci: Cipher, key: Bytes, m: nat, n: nat, ps: seq<Bytes>)
    requires Lawful(ci) && m < n && n + |ps| < COUNTERS
    ensures Accepted(OpenAll(ci, key, n, SealAll(ci, key, m, ps))) == []
    decreases |ps|
  {
    if ps != [] {
      Ahead(ci, key, m + 1, n + 1, ps[1..]);
      AcceptedSealed(ci, key, n, m, ps[0], SealAll(ci, key, m + 1, ps[1..]));
    }
  }

  lemma NoiseFirst(ci: Cipher, key: Bytes, n: nat, c: Bytes, later: seq<Bytes>)
    requires n + 1 < COUNTERS && Opened(ci, key, n, c).Err?
    ensures Accepted(OpenAll(ci, key, n, [c] + later)) == Accepted(OpenAll(ci, key, Spent(n, c), later))
  {
    AcceptedFirst(ci, key, n, c, later);
    assert [] + Accepted(OpenAll(ci, key, Spent(n, c), later)) == Accepted(OpenAll(ci, key, Spent(n, c), later));
  }

  /** What a receiver at counter `m` accepts of the messages of a sender at `n`. */
  function Heard(ci: Cipher, key: Bytes, m: nat, n: nat, ps: seq<Bytes>): seq<Bytes>
    requires m < COUNTERS && n + |ps| <= COUNTERS
  {
    Accepted(OpenAll(ci, key, m, SealAll(ci, key, n, ps)))
  }

  lemma HeardInStep(ci: Cipher, key: Bytes, m: nat, n: nat, ps: seq<Bytes>)
    requires Lawful(ci) && n <= m && m + |ps| < COUNTERS
    ensures m == n ==> Heard(ci, key, m, n, ps) == ps
    ensures m != n ==> Heard(ci, key, m, n, ps) == []
  {
    if m == n {
      InStep(ci, key, n, ps);
    } else {
      Ahead(ci, key, n, m, ps);
    }
  }

  lemma NoiseCosts(n: nat, c: Bytes)
    requires n + 1 < COUNTERS
    ensures Spent(n, c) == if |c| < NONCE_SIZE then n else n + 1
  {
  }

  /** A message that does not open is harmless to a receiver that goes on after errors
      if it is too short for a nonce, and otherwise costs it everything that follows. */
  lemma NoiseExactly(ci: Cipher, key: Bytes, n: nat, c: Bytes, ps: seq<Bytes>)
    requires Lawful(ci) && n + 1 + |ps| < COUNTERS && Opened(ci, key, n, c).Err?
    ensures Accepted(OpenAll(ci, key, n, [c] + SealAll(ci, key, n, ps))) == if |c| < NONCE_SIZE then ps else []
  {
    NoiseCosts(n, c);
    HeardInStep(ci, key, Spent(n, c), n, ps);
    NoiseFirst(ci, key, n, c, SealAll(ci, key, n, ps));
  }
}
