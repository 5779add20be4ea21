/** Sealing the round's secret to an encapsulation key and an epoch PSK, over any provider whose
    KEM, KDF and AEAD behave as ideal symbols. */
module SealedSecret {
  import opened Prelude
  import opened Framing

  datatype Provider = Provider(
    publicKey: Bytes -> Bytes,
    encap: (Bytes, Bytes) -> (Bytes, Bytes),
    decap: (Bytes, Bytes, Bytes) -> Bytes,
    extract: (Bytes, Bytes) -> Bytes,
    expand: (Bytes, Bytes) -> Bytes,
    aeadSeal: (Bytes, Bytes) -> Bytes,
    aeadOpen: (Bytes, Bytes) -> Option<Bytes>)

  datatype Ephemeral = Ephemeral(dk: Bytes, ek: Bytes)

  function Ascii(s: string): Bytes {
    seq(|s|, i requires 0 <= i < |s| => if s[i] < 128 as char then s[i] as int else 0)
  }

  const CT_SEAL_KEY_INFO: Bytes := Ascii("germ.network.twomlspq.a3.ctSeal.key.v1")

  /** A ciphertext decapsulates to its shared secret under its own key; under any other key the
      KEM rejects implicitly, with an unrelated secret instead of an error. */
  ghost predicate SoundKem(p: Provider) {
    && (forall dk, r :: p.decap(p.encap(p.publicKey(dk), r).1, dk, p.publicKey(dk)) == p.encap(p.publicKey(dk), r).0)
    && (forall dk, ek, r :: ek != p.publicKey(dk) ==>
          p.decap(p.encap(ek, r).1, dk, p.publicKey(dk)) != p.encap(ek, r).0)
  }

  ghost predicate SoundKdf(p: Provider) {
    && (forall salt, ikm, salt', ikm' :: p.extract(salt, ikm) == p.extract(salt', ikm') ==>
        salt == salt' && ikm == ikm')
    && (forall prk, prk', info :: p.expand(prk, info) == p.expand(prk', info) ==> prk == prk')
  }

  /** A sealed text opens under its own key only. */
  ghost predicate SoundAead(p: Provider) {
    forall key, key', s :: p.aeadOpen(key', p.aeadSeal(key, s)) == if key' == key then Some(s) else None
  }

  ghost predicate Sound(p: Provider) {
    SoundKem(p) && SoundKdf(p) && SoundAead(p)
  }

  function CtSealKey(p: Provider, kemSecret: Bytes, psk: Bytes): Bytes {
    p.expand(p.extract(kemSecret, psk), CT_SEAL_KEY_INFO)
  }

  function Generate(p: Provider, dk: Bytes): Ephemeral {
    Ephemeral(dk, p.publicKey(dk))
  }

  /** The responder's wire for secret `s`, with the encapsulation randomness `r` explicit. */
  function SealInjectedSecret(p: Provider, ek: Bytes, psk: Bytes, r: Bytes, s: Bytes): Bytes {
    var (kemSecret, enc) := p.encap(ek, r);
    EncodeCt(enc, p.aeadSeal(CtSealKey(p, kemSecret, psk), s))
  }

  function OpenInjectedSecret(p: Provider, eph: Ephemeral, wire: Bytes, psk: Bytes): Option<Bytes> {
    match DecodeCt(wire)
    case None => None
    case Some((enc, sealed)) => p.aeadOpen(CtSealKey(p, p.decap(enc, eph.dk, eph.ek), psk), sealed)
  }

  /** The sealed secret is a receipt: a wire opens iff it answers this very ephemeral at this very
      epoch PSK, and then yields exactly the sealed secret; a stale or misdirected one is an
      explicit failure, never another secret. */
  lemma SealedSecretIsReceipt(p: Provider, dk: Bytes, ek: Bytes, sealedPsk: Bytes, psk: Bytes, r: Bytes, s: Bytes)
    requires Sound(p) && |p.encap(ek, r).1| < U32_LIMIT
    ensures OpenInjectedSecret(p, Generate(p, dk), SealInjectedSecret(p, ek, sealedPsk, r, s), psk) ==
            if ek == p.publicKey(dk) && sealedPsk == psk then Some(s) else None
  {
    var (kemSecret, enc) := p.encap(ek, r);
    var key := CtSealKey(p, kemSecret, sealedPsk);
    CtDecodesIff(EncodeCt(enc, p.aeadSeal(key, s)), enc, p.aeadSeal(key, s));
    var recovered := p.decap(enc, dk, p.publicKey(dk));
    assert CtSealKey(p, recovered, psk) == key ==> p.extract(recovered, psk) == p.extract(kemSecret, sealedPsk);
  }

  /** The wire, step by step, in HPKE's order: the KEM secret is the salt and the epoch PSK the input key
      material, and one fixed label separates the key. */
  lemma SealedWire(p: Provider, ek: Bytes, psk: Bytes, r: Bytes, s: Bytes)
    requires |p.encap(ek, r).1| < 256
    ensures var (kemSecret, enc) := p.encap(ek, r);
            var key := p.expand(p.extract(kemSecret, psk), Ascii("germ.network.twomlspq.a3.ctSeal.key.v1"));
            SealInjectedSecret(p, ek, psk, r, s) == [|enc|, 0, 0, 0] + enc + p.aeadSeal(key, s)
  {
    ShortPrefix(|p.encap(ek, r).1|);
  }

  // ---- an instance, so the assumptions above are known to be consistent ----

  /** `|a|` ones, a zero, then both strings: unambiguous for strings of any length. */
  function Join(a: Bytes, b: Bytes): Bytes {
    seq(|a|, _ => 1) + [0] + a + b
  }

  function Ones(b: Bytes): nat {
    if b == [] || b[0] != 1 then 0 else 1 + Ones(b[1..])
  }

  lemma {:induction false} OnesOfJoin(n: nat, tail: Bytes)
    requires tail != [] && tail[0] == 0
    ensures Ones(seq(n, _ => 1) + tail) == n
  {
    if n == 0 {
      assert seq(n, _ => 1) + tail == tail;
    } else {
      OnesOfJoin(n - 1, tail);
      assert (seq(n, _ => 1) + tail)[1..] == seq(n - 1, _ => 1) + tail;
    }
  }

  lemma JoinSplits(a: Bytes, b: Bytes)
    ensures Ones(Join(a, b)) == |a| && |Join(a, b)| == 2 * |a| + 1 + |b|
    ensures Join(a, b)[|a| + 1..2 * |a| + 1] == a && Join(a, b)[2 * |a| + 1..] == b
  {
    OnesOfJoin(|a|, [0] + a + b);
    assert Join(a, b) == seq(|a|, _ => 1) + ([0] + a + b);
  }

  lemma JoinIsInjective(a: Bytes, b: Bytes, c: Bytes, d: Bytes)
    requires Join(a, b) == Join(c, d)
    ensures a == c && b == d
  {
    JoinSplits(a, b);
    JoinSplits(c, d);
  }

  function First(j: Bytes): Bytes {
    var n := Ones(j);
    if |j| < 2 * n + 1 then [] else j[n + 1..2 * n + 1]
  }

  function Second(j: Bytes): Bytes {
    var n := Ones(j);
    if |j| < 2 * n + 1 then [] else j[2 * n + 1..]
  }

  function IdealProvider(): Provider {
    Provider(
      dk => dk,
      (ek, r) => ([0] + Join(ek, r), Join(ek, r)),
      (enc, dk, _) => [if First(enc) == dk then 0 else 1] + enc,
      (salt, ikm) => Join(salt, ikm),
      (prk, _) => prk,
      (key, s) => Join(key, s),
      (key, sealed) => if First(sealed) == key then Some(Second(sealed)) else None)
  }

  lemma IdealProviderIsSound()
    ensures Sound(IdealProvider())
  {
    var p := IdealProvider();
    forall a, b ensures First(Join(a, b)) == a && Second(Join(a, b)) == b {
      JoinSplits(a, b);
    }
    forall a, b, c, d | Join(a, b) == Join(c, d) ensures a == c && b == d {
      JoinIsInjective(a, b, c, d);
    }
    forall dk, ek, r | ek != dk
      ensures p.decap(p.encap(ek, r).1, dk, dk) != p.encap(ek, r).0
    {
      assert p.decap(p.encap(ek, r).1, dk, dk)[0] == 1 && p.encap(ek, r).0[0] == 0;
    }
    assert SoundKdf(p);
    assert SoundAead(p);
  }
}
