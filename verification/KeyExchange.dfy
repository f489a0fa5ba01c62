/** Directional keys (pkg/crypto/handshake.go). X25519, HKDF and SHA-256 are
    parameters of which only their laws are asked. */
module KeyExchange {
  import opened Messages

  const INFO_CLIENT_TO_SERVER := "go-connect-v1-client-to-server"
  const INFO_SERVER_TO_CLIENT := "go-connect-v1-server-to-client"

  /** A private key is the secret scalar. `ecdh` is None where parsing the remote key
      or the exchange fails. */
  datatype Suite = Suite(
    publicOf: Bytes -> Bytes,
    ecdh: (Bytes, Bytes) -> Option<Bytes>,
    sha256: Bytes -> Bytes,
    hkdf: (Bytes, Bytes, string) -> Bytes)

  /** Section 6.1 of RFC 7748: both sides compute the same secret. Sections 2.2 and
      2.3 of RFC 5869: the derived key depends on secret, salt and info, and the two
      infos give distinct keys (section 3.2). */
  ghost predicate Lawful(su: Suite) {
    && (forall a :: |su.publicOf(a)| == 32)
    && (forall a, b :: su.ecdh(a, su.publicOf(b)) == su.ecdh(b, su.publicOf(a)))
    && (forall s, salt, info :: |su.hkdf(s, salt, info)| == 32)
    && (forall s, salt :: su.hkdf(s, salt, INFO_CLIENT_TO_SERVER) != su.hkdf(s, salt, INFO_SERVER_TO_CLIENT))
  }

  /** The laws can be met, by distinct public keys too. */
  lemma LawfulSuiteExists()
    ensures exists su, a, b :: Lawful(su) && su.publicOf(a) != su.publicOf(b)
  {
    var zeros: Bytes, ones: Bytes := seq(32, i => 0), seq(32, i => 1);
    var su := Suite(
      a => if a == [] then zeros else ones,
      (a, p) => Some([]),
      b => [],
      (s, salt, info) => if info == INFO_CLIENT_TO_SERVER then zeros else ones);
    assert INFO_CLIENT_TO_SERVER[14] != INFO_SERVER_TO_CLIENT[14];
    assert zeros[0] != ones[0];
    assert Lawful(su);
    assert su.publicOf([]) != su.publicOf([0]);
  }

  /** `bytes.Compare(a, b) < 0`. */
  predicate Less(a: Bytes, b: Bytes) {
    if b == [] then false
    else if a == [] then true
    else a[0] < b[0] || (a[0] == b[0] && Less(a[1..], b[1..]))
  }

  lemma {:induction false} LessIsTotal(a: Bytes, b: Bytes)
    ensures !(Less(a, b) && Less(b, a))
    ensures Less(a, b) || Less(b, a) <==> a != b
  {
    if a != [] && b != [] {
      assert a == [a[0]] + a[1..] && b == [b[0]] + b[1..];
      LessIsTotal(a[1..], b[1..]);
    }
  }

  predicate Precedes(a: Bytes, b: Bytes, i: int) {
    0 <= i <= |a| && i < |b| && a[..i] == b[..i] && (i == |a| || a[i] < b[i])
  }

  /** The order is the lexicographic one: `a` ends where `b` goes on, or has the smaller
      byte at the first place at which they differ. */
  lemma {:induction false} LessIsLexicographic(a: Bytes, b: Bytes)
    ensures Less(a, b) <==> exists i :: Precedes(a, b, i)
  {
    if a == [] || b == [] {
      if a == [] && b != [] {
        assert Precedes(a, b, 0);
      }
    } else if a[0] != b[0] {
      if a[0] < b[0] {
        assert Precedes(a, b, 0);
      }
      forall i | Precedes(a, b, i) ensures i == 0 {
        SameStart(a, b, i);
      }
    } else {
      LessIsLexicographic(a[1..], b[1..]);
      if Less(a, b) {
        var j :| Precedes(a[1..], b[1..], j);
        PrecedesLater(a, b, j);
      }
      if i :| Precedes(a, b, i) {
        PrecedesEarlier(a, b, i);
      }
    }
  }

  lemma SameStart(a: Bytes, b: Bytes, i: int)
    requires a != [] && b != [] && 0 <= i <= |a| && i <= |b| && a[..i] == b[..i]
    ensures i == 0 || a[0] == b[0]
  {
    if 0 < i {
      assert a[..i][0] == b[..i][0];
    }
  }

  lemma PrecedesLater(a: Bytes, b: Bytes, j: int)
    requires a != [] && b != [] && a[0] == b[0] && Precedes(a[1..], b[1..], j)
    ensures Precedes(a, b, j + 1)
  {
    assert a[..j + 1] == [a[0]] + a[1..][..j] && b[..j + 1] == [b[0]] + b[1..][..j];
  }

  lemma PrecedesEarlier(a: Bytes, b: Bytes, i: int)
    requires a != [] && b != [] && a[0] == b[0] && Precedes(a, b, i)
    ensures Precedes(a[1..], b[1..], i - 1)
  {
    assert a[1..][..i - 1] == a[..i][1..] && b[1..][..i - 1] == b[..i][1..];
  }

  datatype Keys = Keys(send: Bytes, recv: Bytes)

  /** The salt of the key derivation: a hash of both public keys in canonical order. */
  function Salt(su: Suite, local: Bytes, remote: Bytes): Bytes {
    su.sha256(if Less(local, remote) then local + remote else remote + local)
  }

  /** `DeriveDirectionalKeys`. */
  function Derive(su: Suite, secret: Bytes, remote: Bytes): Option<Keys> {
    match su.ecdh(secret, remote)
    case None => None
    case Some(shared) =>
      var local := su.publicOf(secret);
      var salt := Salt(su, local, remote);
      var clientToServer := su.hkdf(shared, salt, INFO_CLIENT_TO_SERVER);
      var serverToClient := su.hkdf(shared, salt, INFO_SERVER_TO_CLIENT);
      if Less(local, remote) then Some(Keys(clientToServer, serverToClient))
      else Some(Keys(serverToClient, clientToServer))
  }

  lemma SaltIsShared(su: Suite, a: Bytes, b: Bytes)
    ensures Salt(su, a, b) == Salt(su, b, a)
  {
    LessIsTotal(a, b);
  }

  /** Two parties exchanging public keys derive keys together or not at all; each
      end's two keys differ; and one end's sending key is the other's receiving key,
      both ways, exactly when their public keys differ. */
  lemma KeysAreComplementary(su: Suite, a: Bytes, b: Bytes)
    requires Lawful(su)
    ensures var ka, kb := Derive(su, a, su.publicOf(b)), Derive(su, b, su.publicOf(a));
            && (ka.Some? <==> kb.Some?)
            && (ka.Some? ==>
                  && ka.value.send != ka.value.recv && kb.value.send != kb.value.recv
                  && (su.publicOf(a) != su.publicOf(b) <==>
                        ka.value.send == kb.value.recv && ka.value.recv == kb.value.send))
  {
    LessIsTotal(su.publicOf(a), su.publicOf(b));
    SaltIsShared(su, su.publicOf(a), su.publicOf(b));
  }

  // ---------------------------------------------------------------------------
  // What the keys depend on.

  /** An ideal suite for the keys of 32 bytes that the exchange accepts and yields: no
      two inputs of the derivation give the same key, and no two texts the same hash. */
  ghost predicate Collisionless(su: Suite) {
    && (forall a :: |su.publicOf(a)| == 32)
    && (forall a, p :: su.ecdh(a, p).Some? ==> |p| == 32 && |su.ecdh(a, p).value| == 32)
    && (forall x, y :: su.sha256(x) == su.sha256(y) ==> x == y)
    && (forall s, t, u, v, i, j ::
          |s| == 32 && |u| == 32 && IsInfo(i) && IsInfo(j) && su.hkdf(s, t, i) == su.hkdf(u, v, j) ==>
            s == u && t == v && i == j)
  }

  predicate IsInfo(info: string) {
    info == INFO_CLIENT_TO_SERVER || info == INFO_SERVER_TO_CLIENT
  }

  lemma InfosDiffer()
    ensures INFO_CLIENT_TO_SERVER != INFO_SERVER_TO_CLIENT
  {
    assert INFO_CLIENT_TO_SERVER[14] != INFO_SERVER_TO_CLIENT[14];
  }

  lemma CollisionlessSuiteExists()
    ensures exists su :: Collisionless(su)
  {
    var zeros: Bytes := seq(32, i => 0);
    var su := Suite(
      a => zeros,
      (a, p: Bytes) => if |p| == 32 then Some(zeros) else None,
      b => b,
      (s, salt, info) => s + [if info == INFO_CLIENT_TO_SERVER then 0 else 1] + salt);
    forall s: Bytes, t: Bytes, u: Bytes, v: Bytes, i: string, j: string |
      |s| == 32 && |u| == 32 && IsInfo(i) && IsInfo(j) && su.hkdf(s, t, i) == su.hkdf(u, v, j)
      ensures s == u && t == v && i == j
    {
      var x, y := su.hkdf(s, t, i), su.hkdf(u, v, j);
      assert x[..32] == s && y[..32] == u && x[32] == y[32] && x[33..] == t && y[33..] == v;
    }
    assert Collisionless(su);
  }

  /** The same two public keys, whoever's they are. */
  predicate SamePair(a: Bytes, b: Bytes, x: Bytes, y: Bytes) {
    (a == x && b == y) || (a == y && b == x)
  }

  lemma SaltIsOfThePair(su: Suite, a: Bytes, b: Bytes, x: Bytes, y: Bytes)
    requires Collisionless(su) && |a| == 32 && |b| == 32 && |x| == 32 && |y| == 32
    ensures Salt(su, a, b) == Salt(su, x, y) <==> SamePair(a, b, x, y)
  {
    SaltIsShared(su, a, b);
    var p := if Less(a, b) then a + b else b + a;
    var q := if Less(x, y) then x + y else y + x;
    assert p[..32] == (if Less(a, b) then a else b) && p[32..] == (if Less(a, b) then b else a);
    assert q[..32] == (if Less(x, y) then x else y) && q[32..] == (if Less(x, y) then y else x);
  }

  /** Two derivations, of whatever parties, have a key in common exactly when they are of
      the same shared secret and the same two public keys: the sending keys are equal if
      both parties are then in the same role, the smaller key's or the other, and the
      sending key of one is the receiving key of the other if they are not. */
  lemma KeysDependOnEverything(su: Suite, a: Bytes, p: Bytes, b: Bytes, q: Bytes)
    requires Collisionless(su) && su.ecdh(a, p).Some? && su.ecdh(b, q).Some?
    ensures var ka, kb := Derive(su, a, p), Derive(su, b, q);
            var same := su.ecdh(a, p) == su.ecdh(b, q) && SamePair(su.publicOf(a), p, su.publicOf(b), q);
            var roles := Less(su.publicOf(a), p) == Less(su.publicOf(b), q);
            && ka.Some? && kb.Some?
            && (ka.value.send == kb.value.send <==> same && roles)
            && (ka.value.recv == kb.value.recv <==> same && roles)
            && (ka.value.send == kb.value.recv <==> same && !roles)
  {
    InfosDiffer();
    SaltIsOfThePair(su, su.publicOf(a), p, su.publicOf(b), q);
  }

  /** The end with the smaller public key sends as the client, whoever holds it. */
  lemma SmallerKeyIsTheClient(su: Suite, secret: Bytes, remote: Bytes, lo: Bytes, hi: Bytes)
    requires su.ecdh(secret, remote).Some? && Less(lo, hi) && SamePair(su.publicOf(secret), remote, lo, hi)
    ensures var shared, salt := su.ecdh(secret, remote).value, su.sha256(lo + hi);
            var toServer := su.hkdf(shared, salt, INFO_CLIENT_TO_SERVER);
            var toClient := su.hkdf(shared, salt, INFO_SERVER_TO_CLIENT);
            Derive(su, secret, remote) ==
              Some(if su.publicOf(secret) == lo then Keys(toServer, toClient) else Keys(toClient, toServer))
  {
    LessIsTotal(lo, hi);
  }
}
