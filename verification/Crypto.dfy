/**
 Suites, keys and the record layer. The external algorithms are the function
 fields of a `Primitives` value; `Lawful` lists the laws assumed of them and
 `LawsAreConsistent` shows that the laws can be met. SHA-256 and HKDF appear as
 free constructors: a digest is its preimage, a traffic key is the inputs it was
 derived from.
 */
module Crypto {
  import opened Bytes

  const X25519_LEN := 32
  const ED25519_PUBLIC_LEN := 32
  const ED25519_SIGNATURE_LEN := 64
  const MLDSA65_PUBLIC_LEN := 1952
  const MLDSA65_SIGNATURE_LEN := 3309
  const IDENTITY_PUBLIC_LEN := ED25519_PUBLIC_LEN + MLDSA65_PUBLIC_LEN
  const IDENTITY_SIGNATURE_LEN := ED25519_SIGNATURE_LEN + MLDSA65_SIGNATURE_LEN
  const FALLBACK_NONCE_LEN := 16
  const TAG_LEN := 16
  /** The suite byte of the fallback key schedule. */
  const FALLBACK_SUITE_ID: byte := 0xFF

  datatype CryptoError =
    | BadHelloLength
    | Authentication
    | MlKemDecode
    | Decapsulate
    | Decrypt
    | NonceExhausted

  // ---------------------------------- suites ----------------------------------

  datatype Suite = Nist768 | Nist1024 {
    function Id(): byte {
      match this case Nist768 => 0x01 case Nist1024 => 0x02
    }

    /** Length of an ML-KEM encapsulation key. */
    function EkLen(): nat {
      match this case Nist768 => 1184 case Nist1024 => 1568
    }

    /** Length of an ML-KEM ciphertext. */
    function CtLen(): nat {
      match this case Nist768 => 1088 case Nist1024 => 1568
    }

    static function FromId(id: byte): (s: Option<Suite>) {
      if id == 0x01 then Some(Nist768) else if id == 0x02 then Some(Nist1024) else None
    }
  }

  /** Wire ids and suites correspond one to one, and neither reserved byte names a suite. */
  lemma SuiteIds(id: byte, s: Suite)
    ensures Suite.FromId(id) == Some(s) <==> id == s.Id()
    ensures Suite.FromId(FALLBACK_SUITE_ID) == None && Suite.FromId(0xFE) == None
  {
  }

  // ----------------------------------- keys -----------------------------------

  datatype Digest = Sha256(preimage: bytes)

  /** Which half of the 64 bytes of key material. */
  datatype Half = ClientToServer | ServerToClient

  function Other(h: Half): Half {
    match h case ClientToServer => ServerToClient case ServerToClient => ClientToServer
  }

  /** An AES-256-GCM traffic key: HKDF input, HKDF info (suite byte and transcript), and half. */
  datatype Key = Key(ikm: bytes, suiteId: byte, transcript: Digest, half: Half)

  function Twin(k: Key): Key {
    k.(half := Other(k.half))
  }

  type u64 = x: int | 0 <= x <= U64_MAX

  datatype Direction = Direction(key: Key, counter: u64)

  datatype SessionKeys = SessionKeys(tx: Direction, rx: Direction)

  predicate Mirrored(a: SessionKeys, b: SessionKeys) {
    a.tx == b.rx && a.rx == b.tx
  }

  /** `derive`: the initiator writes client-to-server and reads server-to-client. */
  function Derive(ikm: bytes, suiteId: byte, transcript: Digest, isInitiator: bool): (keys: SessionKeys) {
    var c2s := Direction(Key(ikm, suiteId, transcript, ClientToServer), 0);
    var s2c := Direction(Key(ikm, suiteId, transcript, ServerToClient), 0);
    if isInitiator then SessionKeys(c2s, s2c) else SessionKeys(s2c, c2s)
  }

  // -------------------------------- primitives --------------------------------

  datatype Primitives = Primitives(
    seal: (Key, bytes, bytes) -> bytes,
    open: (Key, bytes, bytes) -> Option<bytes>,
    ktlsExpand: Key -> bytes,
    xPublic: bytes -> bytes,
    dh: (bytes, bytes) -> bytes,
    kemPublic: (Suite, bytes) -> bytes,
    encapsulate: (Suite, bytes, bytes) -> Option<(bytes, bytes)>,
    decapsulate: (Suite, bytes, bytes) -> Option<bytes>,
    edPublic: bytes -> bytes,
    edSign: (bytes, bytes) -> bytes,
    edVerify: (bytes, bytes, bytes) -> bool,
    mlPublic: bytes -> bytes,
    mlSign: (bytes, bytes) -> bytes,
    mlVerify: (bytes, bytes, bytes) -> bool)

  /** AES-GCM: opening undoes sealing, and the tag costs 16 bytes in both directions. */
  ghost predicate AeadLaws(p: Primitives) {
    && (forall k, n, m :: |p.seal(k, n, m)| == |m| + TAG_LEN)
    && (forall k, n, m :: p.open(k, n, p.seal(k, n, m)) == Some(m))
    && (forall k, n, c :: p.open(k, n, c).Some? ==> |c| == |p.open(k, n, c).value| + TAG_LEN)
    && (forall k :: |p.ktlsExpand(k)| == 12)
  }

  /** X25519 commutes, and decapsulation undoes encapsulation. */
  ghost predicate ExchangeLaws(p: Primitives) {
    && (forall a :: |p.xPublic(a)| == X25519_LEN)
    && (forall a, b :: |p.dh(a, b)| == X25519_LEN)
    && (forall a, b :: p.dh(a, p.xPublic(b)) == p.dh(b, p.xPublic(a)))
    && (forall s, dk :: |p.kemPublic(s, dk)| == s.EkLen())
    && (forall s, ek, r :: p.encapsulate(s, ek, r).Some? ==> |p.encapsulate(s, ek, r).value.0| == s.CtLen())
    && (forall s, dk, r :: p.encapsulate(s, p.kemPublic(s, dk), r).Some? ==>
          p.decapsulate(s, dk, p.encapsulate(s, p.kemPublic(s, dk), r).value.0)
          == Some(p.encapsulate(s, p.kemPublic(s, dk), r).value.1))
  }

  ghost predicate SignatureLaws(p: Primitives) {
    && (forall sk :: |p.edPublic(sk)| == ED25519_PUBLIC_LEN)
    && (forall sk :: |p.mlPublic(sk)| == MLDSA65_PUBLIC_LEN)
    && (forall sk, m :: |p.edSign(sk, m)| == ED25519_SIGNATURE_LEN)
    && (forall sk, m :: |p.mlSign(sk, m)| == MLDSA65_SIGNATURE_LEN)
    && (forall sk, m :: p.edVerify(p.edPublic(sk), m, p.edSign(sk, m)))
    && (forall sk, m :: p.mlVerify(p.mlPublic(sk), m, p.mlSign(sk, m)))
  }

  ghost predicate Lawful(p: Primitives) {
    AeadLaws(p) && ExchangeLaws(p) && SignatureLaws(p)
  }

  function Zeros(n: nat): (z: bytes)
    ensures |z| == n
  {
    seq(n, _ => 0)
  }

  /** Some primitives meet every law, so results that assume the laws are not vacuous. */
  lemma LawsAreConsistent() returns (p: Primitives)
    ensures Lawful(p)
  {
    p := Primitives(
      (k, n, m) => m + Zeros(TAG_LEN),
      (k, n, c: bytes) => if |c| < TAG_LEN then None else Some(c[..|c| - TAG_LEN]),
      k => Zeros(12),
      a => Zeros(X25519_LEN),
      (a, b) => Zeros(X25519_LEN),
      (s: Suite, dk) => Zeros(s.EkLen()),
      (s: Suite, ek, r) => Some((Zeros(s.CtLen()), [])),
      (s, dk, c) => Some([]),
      sk => Zeros(ED25519_PUBLIC_LEN),
      (sk, m) => Zeros(ED25519_SIGNATURE_LEN),
      (pk, m, sig) => true,
      sk => Zeros(MLDSA65_PUBLIC_LEN),
      (sk, m) => Zeros(MLDSA65_SIGNATURE_LEN),
      (pk, m, sig) => true);
    forall k, n, m ensures p.open(k, n, p.seal(k, n, m)) == Some(m) {
      assert (m + Zeros(TAG_LEN))[..|m|] == m;
    }
  }

  // -------------------------------- record layer --------------------------------

  /** `nonce_from_counter`: four zero bytes, then the counter. */
  function Nonce(counter: u64): (n: bytes)
    ensures |n| == 12
  {
    [0, 0, 0, 0] + Be64(counter)
  }

  /** Distinct counters give distinct nonces, as section 8.2.1 of NIST SP 800-38D requires. */
  lemma NonceInjective(a: u64, b: u64)
    requires Nonce(a) == Nonce(b)
    ensures a == b
  {
    assert Be64(a) == Nonce(a)[4..] == Be64(b);
    Be64Injective(a, b);
  }

  /** Read as one 96-bit big-endian number, the nonce is the counter. */
  lemma NonceIsCounter(n: u64)
    ensures var nonce := Nonce(n);
            && FromBe32(nonce[..4]) == 0
            && FromBe32(nonce[4..8]) * U32_LIMIT + FromBe32(nonce[8..]) == n
  {
    var nonce := Nonce(n);
    assert nonce[..4] == [0, 0, 0, 0];
    assert nonce[4..8] == Be32(n / U32_LIMIT) && nonce[8..] == Be32(n % U32_LIMIT);
    Be32RoundTrip(n / U32_LIMIT);
    Be32RoundTrip(n % U32_LIMIT);
  }

  function SealWith(p: Primitives, d: Direction, plaintext: bytes): (r: Result<(Direction, bytes), CryptoError>) {
    if d.counter == U64_MAX then Err(NonceExhausted)
    else Ok((d.(counter := d.counter + 1), p.seal(d.key, Nonce(d.counter), plaintext)))
  }

  function OpenWith(p: Primitives, d: Direction, ciphertext: bytes): (r: Result<(Direction, bytes), CryptoError>) {
    if d.counter == U64_MAX then Err(NonceExhausted)
    else match p.open(d.key, Nonce(d.counter), ciphertext)
      case None => Err(Decrypt)
      case Some(m) => Ok((d.(counter := d.counter + 1), m))
  }

  // ---------------------------------- kTLS export ----------------------------------

  datatype KtlsSecret = KtlsSecret(key: Key, salt: bytes, iv: bytes, recSeq: bytes)

  /** `ktls_secret` followed by `KtlsSecrets::from_traffic_secret`. */
  function ExportKtls(p: Primitives, d: Direction): (s: KtlsSecret)
    requires |p.ktlsExpand(d.key)| == 12
    ensures s.key == d.key && s.salt + s.iv == p.ktlsExpand(d.key) && s.recSeq == Zeros(8)
    ensures |s.salt| == 4 && |s.iv| == 8
  {
    var okm := p.ktlsExpand(d.key);
    KtlsSecret(d.key, okm[0..4], okm[4..12], Zeros(8))
  }

  /** Each side's exported transmit material is the other side's receive material. */
  lemma MirroredKtls(p: Primitives, a: SessionKeys, b: SessionKeys)
    requires AeadLaws(p)
    requires Mirrored(a, b)
    ensures ExportKtls(p, a.tx) == ExportKtls(p, b.rx)
    ensures ExportKtls(p, a.rx) == ExportKtls(p, b.tx)
  {
  }
}
