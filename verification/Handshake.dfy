/**
 The hybrid handshake (`client_hello`, `respond`, `finish`) and the pre-shared-key
 fallback handshake. Ephemeral secrets, encapsulation coins and nonces, which the
 program draws from the operating system, are arguments.
 */
module Handshake {
  import opened Bytes
  import opened Crypto

  function Ascii(s: string): (b: bytes)
    ensures |b| == |s|
  {
    seq(|s|, i requires 0 <= i < |s| => (s[i] as int) % 256)
  }

  const CLIENT_AUTH_LABEL: bytes := Ascii("syntriass-overlay client identity v1")
  const SERVER_AUTH_LABEL: bytes := Ascii("syntriass-overlay server identity v1")
  const KEY_TRANSCRIPT_LABEL: bytes := Ascii("syntriass-overlay transcript hash v1")
  const FALLBACK_TRANSCRIPT_LABEL: bytes := Ascii("syntriass-overlay psk-fallback transcript v1")
  const FALLBACK_CONFIRM: bytes := Ascii("syntriass-overlay psk-fallback confirm v1")

  const LABEL_LEN := 36
  const FALLBACK_LABEL_LEN := 44

  /** The labels have fixed lengths and differ pairwise at index 18. */
  lemma Labels()
    ensures |CLIENT_AUTH_LABEL| == |SERVER_AUTH_LABEL| == |KEY_TRANSCRIPT_LABEL| == LABEL_LEN
    ensures |FALLBACK_TRANSCRIPT_LABEL| == FALLBACK_LABEL_LEN
    ensures CLIENT_AUTH_LABEL[18] == 99 && SERVER_AUTH_LABEL[18] == 115
    ensures KEY_TRANSCRIPT_LABEL[18] == 116 && FALLBACK_TRANSCRIPT_LABEL[18] == 112
  {
  }

  // --------------------------------- messages ---------------------------------

  datatype Identity = Identity(edSeed: bytes, mlSeed: bytes, peerEd: bytes, peerMl: bytes)

  /** Two identities that each name the other as the one trusted peer. */
  predicate Trusting(p: Primitives, a: Identity, b: Identity) {
    && a.peerEd == p.edPublic(b.edSeed) && a.peerMl == p.mlPublic(b.mlSeed)
    && b.peerEd == p.edPublic(a.edSeed) && b.peerMl == p.mlPublic(a.mlSeed)
  }

  function ClientUnsignedLen(s: Suite): nat { X25519_LEN + s.EkLen() + IDENTITY_PUBLIC_LEN }
  function ClientHelloLen(s: Suite): nat { ClientUnsignedLen(s) + IDENTITY_SIGNATURE_LEN }
  function ServerUnsignedLen(s: Suite): nat { X25519_LEN + s.CtLen() + IDENTITY_PUBLIC_LEN }
  function ServerHelloLen(s: Suite): nat { ServerUnsignedLen(s) + IDENTITY_SIGNATURE_LEN }

  function ClientAuthMessage(suiteId: byte, unsigned: bytes): bytes {
    CLIENT_AUTH_LABEL + [suiteId] + unsigned
  }

  function ServerAuthMessage(suiteId: byte, clientHello: bytes, unsigned: bytes): bytes {
    SERVER_AUTH_LABEL + [suiteId] + clientHello + unsigned
  }

  function Transcript(suiteId: byte, clientHello: bytes, serverHello: bytes): Digest {
    Sha256(KEY_TRANSCRIPT_LABEL + [suiteId] + clientHello + serverHello)
  }

  function FallbackTranscript(clientNonce: bytes, serverNonce: bytes): Digest {
    Sha256(FALLBACK_TRANSCRIPT_LABEL + clientNonce + serverNonce)
  }

  /** A prefix, a suite byte and two fields of known lengths, laid end to end, can be read in one way only. */
  lemma FieldsUnambiguous(prefix: bytes, s: Suite, a: bytes, b: bytes, t: Suite, c: bytes, d: bytes)
    requires s == t ==> |a| == |c|
    requires prefix + [s.Id()] + a + b == prefix + [t.Id()] + c + d
    ensures s == t && a == c && b == d
  {
    var m, n := prefix + [s.Id()] + a + b, prefix + [t.Id()] + c + d;
    assert m[|prefix|] == s.Id() && n[|prefix|] == t.Id();
    assert m[|prefix| + 1..][..|a|] == a && n[|prefix| + 1..][..|c|] == c;
    assert m[|prefix| + 1..][|a|..] == b && n[|prefix| + 1..][|c|..] == d;
  }

  lemma ClientAuthUnambiguous(s: Suite, u: bytes, t: Suite, v: bytes)
    requires ClientAuthMessage(s.Id(), u) == ClientAuthMessage(t.Id(), v)
    ensures s == t && u == v
  {
    assert CLIENT_AUTH_LABEL + [s.Id()] + [] == CLIENT_AUTH_LABEL + [s.Id()];
    assert CLIENT_AUTH_LABEL + [t.Id()] + [] == CLIENT_AUTH_LABEL + [t.Id()];
    FieldsUnambiguous(CLIENT_AUTH_LABEL, s, [], u, t, [], v);
  }

  /** The signed server message fixes the suite, the whole ClientHello and the server's fields. */
  lemma ServerAuthUnambiguous(s: Suite, ch: bytes, u: bytes, t: Suite, dh: bytes, v: bytes)
    requires |ch| == ClientHelloLen(s) && |dh| == ClientHelloLen(t)
    requires ServerAuthMessage(s.Id(), ch, u) == ServerAuthMessage(t.Id(), dh, v)
    ensures s == t && ch == dh && u == v
  {
    FieldsUnambiguous(SERVER_AUTH_LABEL, s, ch, u, t, dh, v);
  }

  lemma TranscriptUnambiguous(s: Suite, ch: bytes, sh: bytes, t: Suite, dh: bytes, eh: bytes)
    requires |ch| == ClientHelloLen(s) && |dh| == ClientHelloLen(t)
    requires Transcript(s.Id(), ch, sh) == Transcript(t.Id(), dh, eh)
    ensures s == t && ch == dh && sh == eh
  {
    FieldsUnambiguous(KEY_TRANSCRIPT_LABEL, s, ch, sh, t, dh, eh);
  }

  /** No client message is a server message, and no fallback transcript is a hybrid one. */
  lemma DomainsSeparate(a: byte, u: bytes, b: byte, ch: bytes, v: bytes, cn: bytes, sn: bytes)
    ensures ClientAuthMessage(a, u) != ServerAuthMessage(b, ch, v)
    ensures FallbackTranscript(cn, sn) != Transcript(b, ch, v)
  {
    Labels();
    assert ClientAuthMessage(a, u)[18] == CLIENT_AUTH_LABEL[18];
    assert ServerAuthMessage(b, ch, v)[18] == SERVER_AUTH_LABEL[18];
    assert FallbackTranscript(cn, sn).preimage[18] == FALLBACK_TRANSCRIPT_LABEL[18];
    assert Transcript(b, ch, v).preimage[18] == KEY_TRANSCRIPT_LABEL[18];
  }

  // ----------------------------- the hybrid handshake -----------------------------

  datatype InitState = InitState(suite: Suite, xSecret: bytes, decapKey: bytes, clientHello: bytes)

  datatype IdentityFields = IdentityFields(edPub: bytes, mlPub: bytes, edSig: bytes, mlSig: bytes)

  /** `split_identity_fields`. */
  function SplitIdentityFields(body: bytes, start: nat): (r: Result<IdentityFields, CryptoError>) {
    if |body| != start + IDENTITY_PUBLIC_LEN + IDENTITY_SIGNATURE_LEN then Err(BadHelloLength)
    else
      var edPubEnd := start + ED25519_PUBLIC_LEN;
      var mlPubEnd := edPubEnd + MLDSA65_PUBLIC_LEN;
      var edSigEnd := mlPubEnd + ED25519_SIGNATURE_LEN;
      Ok(IdentityFields(body[start..edPubEnd], body[edPubEnd..mlPubEnd], body[mlPubEnd..edSigEnd], body[edSigEnd..]))
  }

  /** `verify_peer_public_keys` and `verify_peer_signatures`. */
  predicate Authentic(p: Primitives, id: Identity, f: IdentityFields, message: bytes) {
    && f.edPub == id.peerEd && f.mlPub == id.peerMl
    && p.edVerify(id.peerEd, message, f.edSig)
    && p.mlVerify(id.peerMl, message, f.mlSig)
  }

  function ClientUnsigned(p: Primitives, s: Suite, id: Identity, xSecret: bytes, decapKey: bytes): bytes {
    p.xPublic(xSecret) + p.kemPublic(s, decapKey) + (p.edPublic(id.edSeed) + p.mlPublic(id.mlSeed))
  }

  function Signatures(p: Primitives, id: Identity, message: bytes): bytes {
    p.edSign(id.edSeed, message) + p.mlSign(id.mlSeed, message)
  }

  /** `client_hello`: the retained state, whose `clientHello` is the body sent. */
  function ClientHello(p: Primitives, s: Suite, id: Identity, xSecret: bytes, decapKey: bytes): (st: InitState) {
    var unsigned := ClientUnsigned(p, s, id, xSecret, decapKey);
    InitState(s, xSecret, decapKey, unsigned + Signatures(p, id, ClientAuthMessage(s.Id(), unsigned)))
  }

  /** A retained state whose hello really carries the public halves of its secrets. */
  predicate Genuine(p: Primitives, st: InitState) {
    && |st.clientHello| == ClientHelloLen(st.suite)
    && st.clientHello[..X25519_LEN] == p.xPublic(st.xSecret)
    && st.clientHello[X25519_LEN..X25519_LEN + st.suite.EkLen()] == p.kemPublic(st.suite, st.decapKey)
  }

  function ServerUnsigned(p: Primitives, id: Identity, xSecret: bytes, ct: bytes): bytes {
    p.xPublic(xSecret) + ct + (p.edPublic(id.edSeed) + p.mlPublic(id.mlSeed))
  }

  function ServerHello(p: Primitives, s: Suite, id: Identity, ch: bytes, xSecret: bytes, ct: bytes): bytes {
    var unsigned := ServerUnsigned(p, id, xSecret, ct);
    unsigned + Signatures(p, id, ServerAuthMessage(s.Id(), ch, unsigned))
  }

  /** `respond`: check and authenticate the ClientHello, then answer it. */
  function Respond(p: Primitives, s: Suite, id: Identity, ch: bytes, xSecret: bytes, coins: bytes)
    : (r: Result<(SessionKeys, bytes), CryptoError>)
  {
    if |ch| != ClientHelloLen(s) then Err(BadHelloLength)
    else
      var fields := SplitIdentityFields(ch, X25519_LEN + s.EkLen()).value;
      if !Authentic(p, id, fields, ClientAuthMessage(s.Id(), ch[..ClientUnsignedLen(s)])) then Err(Authentication)
      else
        match p.encapsulate(s, ch[X25519_LEN..X25519_LEN + s.EkLen()], coins)
        case None => Err(MlKemDecode)
        case Some((ct, ss)) =>
          var hello := ServerHello(p, s, id, ch, xSecret, ct);
          var ikm := p.dh(xSecret, ch[..X25519_LEN]) + ss;
          Ok((Derive(ikm, s.Id(), Transcript(s.Id(), ch, hello), false), hello))
  }

  /**
   A responder answers only a hello of the right length that names exactly the two keys of its trusted peer and carries
   both of that peer's signatures over this suite and everything before them.
   */
  lemma RespondVerifies(p: Primitives, s: Suite, id: Identity, ch: bytes, xSecret: bytes, coins: bytes)
    requires Respond(p, s, id, ch, xSecret, coins).Ok?
    ensures |ch| == ClientHelloLen(s)
    ensures var keysAt, edSigAt := X25519_LEN + s.EkLen(), ClientUnsignedLen(s);
            var mlSigAt := edSigAt + ED25519_SIGNATURE_LEN;
            var message := ClientAuthMessage(s.Id(), ch[..edSigAt]);
            && ch[keysAt..edSigAt] == id.peerEd + id.peerMl
            && p.edVerify(id.peerEd, message, ch[edSigAt..mlSigAt])
            && p.mlVerify(id.peerMl, message, ch[mlSigAt..])
  {
    var keysAt, edSigAt := X25519_LEN + s.EkLen(), ClientUnsignedLen(s);
    assert ch[keysAt..edSigAt]
        == ch[keysAt..keysAt + ED25519_PUBLIC_LEN] + ch[keysAt + ED25519_PUBLIC_LEN..edSigAt];
  }

  /** `finish`: check and authenticate the ServerHello, then agree on the keys. */
  function Finish(p: Primitives, st: InitState, id: Identity, sh: bytes): (r: Result<SessionKeys, CryptoError>) {
    var s := st.suite;
    if |sh| != ServerHelloLen(s) then Err(BadHelloLength)
    else
      var fields := SplitIdentityFields(sh, X25519_LEN + s.CtLen()).value;
      var message := ServerAuthMessage(s.Id(), st.clientHello, sh[..ServerUnsignedLen(s)]);
      if !Authentic(p, id, fields, message) then Err(Authentication)
      else
        match p.decapsulate(s, st.decapKey, sh[X25519_LEN..X25519_LEN + s.CtLen()])
        case None => Err(Decapsulate)
        case Some(ss) =>
          var ikm := p.dh(st.xSecret, sh[..X25519_LEN]) + ss;
          Ok(Derive(ikm, s.Id(), Transcript(s.Id(), st.clientHello, sh), true))
  }

  /** How a body made of four parts of known lengths splits. */
  lemma SplitsAt(x: bytes, kem: bytes, pubs: bytes, sigs: bytes)
    requires |x| == X25519_LEN
    ensures var body := x + kem + pubs + sigs;
            && body[..X25519_LEN] == x
            && body[X25519_LEN..X25519_LEN + |kem|] == kem
            && body[..X25519_LEN + |kem| + |pubs|] == x + kem + pubs
            && body[X25519_LEN + |kem| + |pubs|..] == sigs
            && body[X25519_LEN + |kem|..] == pubs + sigs
  {
  }

  lemma IdentityFieldsOf(edPub: bytes, mlPub: bytes, edSig: bytes, mlSig: bytes, body: bytes, start: nat)
    requires |edPub| == ED25519_PUBLIC_LEN && |mlPub| == MLDSA65_PUBLIC_LEN
    requires |edSig| == ED25519_SIGNATURE_LEN && |mlSig| == MLDSA65_SIGNATURE_LEN
    requires start <= |body| && body[start..] == (edPub + mlPub) + (edSig + mlSig)
    ensures SplitIdentityFields(body, start) == Ok(IdentityFields(edPub, mlPub, edSig, mlSig))
  {
    var tail := body[start..];
    assert tail[..32] == edPub && tail[32..1984] == mlPub && tail[1984..2048] == edSig && tail[2048..] == mlSig;
    assert body[start..start + 32] == tail[..32];
    assert body[start + 32..start + 1984] == tail[32..1984];
    assert body[start + 1984..start + 2048] == tail[1984..2048];
    assert body[start + 2048..] == tail[2048..];
  }

  lemma ClientHelloGenuine(p: Primitives, s: Suite, id: Identity, xSecret: bytes, decapKey: bytes)
    requires ExchangeLaws(p) && SignatureLaws(p)
    ensures Genuine(p, ClientHello(p, s, id, xSecret, decapKey))
    ensures var st := ClientHello(p, s, id, xSecret, decapKey);
            && st.clientHello[..ClientUnsignedLen(s)] == ClientUnsigned(p, s, id, xSecret, decapKey)
  {
    var unsigned := ClientUnsigned(p, s, id, xSecret, decapKey);
    SplitsAt(p.xPublic(xSecret), p.kemPublic(s, decapKey), p.edPublic(id.edSeed) + p.mlPublic(id.mlSeed),
             Signatures(p, id, ClientAuthMessage(s.Id(), unsigned)));
  }

  /**
   An initiator accepts only an answer of the right length that names exactly the two keys of its trusted peer and
   carries both of that peer's signatures over this suite, its own hello and everything before them.
   */
  lemma FinishVerifies(p: Primitives, st: InitState, id: Identity, sh: bytes)
    requires Finish(p, st, id, sh).Ok?
    ensures |sh| == ServerHelloLen(st.suite)
    ensures var s := st.suite;
            var keysAt, edSigAt := X25519_LEN + s.CtLen(), ServerUnsignedLen(s);
            var mlSigAt := edSigAt + ED25519_SIGNATURE_LEN;
            var message := ServerAuthMessage(s.Id(), st.clientHello, sh[..edSigAt]);
            && sh[keysAt..edSigAt] == id.peerEd + id.peerMl
            && p.edVerify(id.peerEd, message, sh[edSigAt..mlSigAt])
            && p.mlVerify(id.peerMl, message, sh[mlSigAt..])
  {
    var s := st.suite;
    var keysAt, edSigAt := X25519_LEN + s.CtLen(), ServerUnsignedLen(s);
    assert sh[keysAt..edSigAt]
        == sh[keysAt..keysAt + ED25519_PUBLIC_LEN] + sh[keysAt + ED25519_PUBLIC_LEN..edSigAt];
  }

  /** What a ServerHello built by `ServerHello` reads as on the other side. */
  lemma ServerHelloReads(p: Primitives, s: Suite, id: Identity, ch: bytes, xSecret: bytes, ct: bytes)
    requires ExchangeLaws(p) && SignatureLaws(p)
    requires |ct| == s.CtLen()
    ensures var sh := ServerHello(p, s, id, ch, xSecret, ct);
            var unsigned := ServerUnsigned(p, id, xSecret, ct);
            var message := ServerAuthMessage(s.Id(), ch, unsigned);
            && |sh| == ServerHelloLen(s)
            && sh[..X25519_LEN] == p.xPublic(xSecret)
            && sh[X25519_LEN..X25519_LEN + s.CtLen()] == ct
            && sh[..ServerUnsignedLen(s)] == unsigned
            && SplitIdentityFields(sh, X25519_LEN + s.CtLen())
               == Ok(IdentityFields(p.edPublic(id.edSeed), p.mlPublic(id.mlSeed),
                                    p.edSign(id.edSeed, message), p.mlSign(id.mlSeed, message)))
  {
    var unsigned := ServerUnsigned(p, id, xSecret, ct);
    var message := ServerAuthMessage(s.Id(), ch, unsigned);
    var pubs := p.edPublic(id.edSeed) + p.mlPublic(id.mlSeed);
    SplitsAt(p.xPublic(xSecret), ct, pubs, Signatures(p, id, message));
    IdentityFieldsOf(p.edPublic(id.edSeed), p.mlPublic(id.mlSeed), p.edSign(id.edSeed, message),
                     p.mlSign(id.mlSeed, message), ServerHello(p, s, id, ch, xSecret, ct), X25519_LEN + s.CtLen());
  }

  lemma ClientHelloReads(p: Primitives, s: Suite, id: Identity, xSecret: bytes, decapKey: bytes)
    requires ExchangeLaws(p) && SignatureLaws(p)
    ensures var unsigned := ClientUnsigned(p, s, id, xSecret, decapKey);
            var message := ClientAuthMessage(s.Id(), unsigned);
            SplitIdentityFields(ClientHello(p, s, id, xSecret, decapKey).clientHello, X25519_LEN + s.EkLen())
            == Ok(IdentityFields(p.edPublic(id.edSeed), p.mlPublic(id.mlSeed),
                                 p.edSign(id.edSeed, message), p.mlSign(id.mlSeed, message)))
  {
    var unsigned := ClientUnsigned(p, s, id, xSecret, decapKey);
    var message := ClientAuthMessage(s.Id(), unsigned);
    SplitsAt(p.xPublic(xSecret), p.kemPublic(s, decapKey), p.edPublic(id.edSeed) + p.mlPublic(id.mlSeed),
             Signatures(p, id, message));
    IdentityFieldsOf(p.edPublic(id.edSeed), p.mlPublic(id.mlSeed), p.edSign(id.edSeed, message),
                     p.mlSign(id.mlSeed, message), ClientHello(p, s, id, xSecret, decapKey).clientHello,
                     X25519_LEN + s.EkLen());
  }

  /**
   If the ServerHello an initiator accepts is the answer to its own ClientHello,
   both sides computed the same input key material over the same transcript: the
   keys are mirrored and both counters start at zero.
   */
  lemma AnswerMirrorsKeys(p: Primitives, st: InitState, cid: Identity, sid: Identity, xSecret: bytes, coins: bytes)
    requires ExchangeLaws(p) && SignatureLaws(p)
    requires Genuine(p, st)
    requires Respond(p, st.suite, sid, st.clientHello, xSecret, coins).Ok?
    requires Finish(p, st, cid, Respond(p, st.suite, sid, st.clientHello, xSecret, coins).value.1).Ok?
    ensures var answer := Respond(p, st.suite, sid, st.clientHello, xSecret, coins).value;
            Mirrored(Finish(p, st, cid, answer.1).value, answer.0)
  {
    var s, ch := st.suite, st.clientHello;
    var (ct, ss) := p.encapsulate(s, p.kemPublic(s, st.decapKey), coins).value;
    ServerHelloReads(p, s, sid, ch, xSecret, ct);
    assert p.dh(st.xSecret, p.xPublic(xSecret)) == p.dh(xSecret, p.xPublic(st.xSecret));
  }

  /** Two nodes that trust each other complete the handshake and hold mirrored keys. */
  lemma HonestHandshake(p: Primitives, s: Suite, cid: Identity, sid: Identity,
                        cSecret: bytes, decapKey: bytes, sSecret: bytes, coins: bytes)
    requires ExchangeLaws(p) && SignatureLaws(p)
    requires Trusting(p, cid, sid)
    requires p.encapsulate(s, p.kemPublic(s, decapKey), coins).Some?
    ensures var st := ClientHello(p, s, cid, cSecret, decapKey);
            var answer := Respond(p, s, sid, st.clientHello, sSecret, coins);
            && answer.Ok?
            && Finish(p, st, cid, answer.value.1).Ok?
            && Mirrored(Finish(p, st, cid, answer.value.1).value, answer.value.0)
  {
    var st := ClientHello(p, s, cid, cSecret, decapKey);
    ClientHelloGenuine(p, s, cid, cSecret, decapKey);
    ClientHelloReads(p, s, cid, cSecret, decapKey);
    var (ct, ss) := p.encapsulate(s, p.kemPublic(s, decapKey), coins).value;
    ServerHelloReads(p, s, sid, st.clientHello, sSecret, ct);
    AnswerMirrorsKeys(p, st, cid, sid, sSecret, coins);
  }

  // ----------------------------- the fallback handshake -----------------------------

  datatype FallbackError = BadStructure | DowngradeDetected | CryptoFailure

  function DeriveFallback(psk: bytes, clientNonce: bytes, serverNonce: bytes, isInitiator: bool): (keys: SessionKeys) {
    Derive(psk, FALLBACK_SUITE_ID, FallbackTranscript(clientNonce, serverNonce), isInitiator)
  }

  /** `fallback::respond`: the confirmation is the first record sealed by the responder. */
  function FallbackRespond(p: Primitives, psk: bytes, hello: bytes, serverNonce: bytes)
    : (r: Result<(SessionKeys, bytes), FallbackError>)
  {
    if |hello| != FALLBACK_NONCE_LEN then Err(BadStructure)
    else
      var keys := DeriveFallback(psk, hello, serverNonce, false);
      match SealWith(p, keys.tx, FALLBACK_CONFIRM)
      case Err(_) => Err(CryptoFailure)
      case Ok((tx, ct)) => Ok((keys.(tx := tx), serverNonce + ct))
  }

  /** `FallbackInitiator::finish`. */
  function FallbackFinish(p: Primitives, psk: bytes, clientNonce: bytes, finished: bytes)
    : (r: Result<SessionKeys, FallbackError>)
  {
    if |finished| <= FALLBACK_NONCE_LEN then Err(BadStructure)
    else
      var keys := DeriveFallback(psk, clientNonce, finished[..FALLBACK_NONCE_LEN], true);
      match OpenWith(p, keys.rx, finished[FALLBACK_NONCE_LEN..])
      case Err(_) => Err(DowngradeDetected)
      case Ok((rx, m)) => if m != FALLBACK_CONFIRM then Err(DowngradeDetected) else Ok(keys.(rx := rx))
  }

  /** With one pre-shared key the fallback completes: keys mirrored, the confirmation counted on both sides. */
  lemma HonestFallback(p: Primitives, psk: bytes, clientNonce: bytes, serverNonce: bytes)
    requires AeadLaws(p)
    requires |clientNonce| == FALLBACK_NONCE_LEN && |serverNonce| == FALLBACK_NONCE_LEN
    ensures var answer := FallbackRespond(p, psk, clientNonce, serverNonce);
            && answer.Ok?
            && FallbackFinish(p, psk, clientNonce, answer.value.1).Ok?
            && Mirrored(FallbackFinish(p, psk, clientNonce, answer.value.1).value, answer.value.0)
            && answer.value.0.tx.counter == 1 && answer.value.0.rx.counter == 0
  {
    var (keys, finished) := FallbackRespond(p, psk, clientNonce, serverNonce).value;
    assert finished[..FALLBACK_NONCE_LEN] == serverNonce;
    assert finished[FALLBACK_NONCE_LEN..]
        == p.seal(DeriveFallback(psk, clientNonce, serverNonce, false).tx.key, Nonce(0), FALLBACK_CONFIRM);
  }

  /**
   The pre-shared key is what the fallback authenticates with: two ends that hold mirrored keys used the same one and
   the same nonces, and with different ones no nonces lead to a common traffic key.
   */
  lemma FallbackBindsPsk(p: Primitives, a: bytes, clientNonce: bytes, finished: bytes, b: bytes, hello: bytes,
                         serverNonce: bytes)
    requires FallbackFinish(p, a, clientNonce, finished).Ok? && FallbackRespond(p, b, hello, serverNonce).Ok?
    requires |clientNonce| == FALLBACK_NONCE_LEN && |serverNonce| == FALLBACK_NONCE_LEN
    ensures var mine, theirs := FallbackFinish(p, a, clientNonce, finished).value,
                                FallbackRespond(p, b, hello, serverNonce).value.0;
            && (Mirrored(mine, theirs) ==>
                  a == b && clientNonce == hello && finished[..FALLBACK_NONCE_LEN] == serverNonce)
            && (a != b ==> {mine.tx.key, mine.rx.key} !! {theirs.tx.key, theirs.rx.key})
  {
    var sn := finished[..FALLBACK_NONCE_LEN];
    if FallbackTranscript(clientNonce, sn) == FallbackTranscript(hello, serverNonce) {
      var prefix, m, n := FALLBACK_TRANSCRIPT_LABEL, FallbackTranscript(clientNonce, sn).preimage,
                          FallbackTranscript(hello, serverNonce).preimage;
      assert m[|prefix|..] == clientNonce + sn && n[|prefix|..] == hello + serverNonce;
      assert (clientNonce + sn)[..FALLBACK_NONCE_LEN] == clientNonce;
      assert (hello + serverNonce)[..FALLBACK_NONCE_LEN] == hello;
      assert (clientNonce + sn)[FALLBACK_NONCE_LEN..] == sn;
      assert (hello + serverNonce)[FALLBACK_NONCE_LEN..] == serverNonce;
    }
  }

  /** Both secrets are in the keys: the first 32 bytes of input key material are X25519's, the rest ML-KEM's. */
  lemma HybridMaterial(p: Primitives, st: InitState, cid: Identity, sh: bytes, s: Suite, sid: Identity, ch: bytes,
                       xSecret: bytes, coins: bytes)
    requires ExchangeLaws(p) && SignatureLaws(p)
    requires Finish(p, st, cid, sh).Ok? && Respond(p, s, sid, ch, xSecret, coins).Ok?
    ensures var ikm := Finish(p, st, cid, sh).value.tx.key.ikm;
            && |ikm| >= X25519_LEN && ikm[..X25519_LEN] == p.dh(st.xSecret, sh[..X25519_LEN])
            && p.decapsulate(st.suite, st.decapKey, sh[X25519_LEN..X25519_LEN + st.suite.CtLen()])
               == Some(ikm[X25519_LEN..])
    ensures var (keys, hello) := Respond(p, s, sid, ch, xSecret, coins).value;
            var ikm := keys.tx.key.ikm;
            && |ikm| >= X25519_LEN && ikm[..X25519_LEN] == p.dh(xSecret, ch[..X25519_LEN])
            && |hello| == ServerHelloLen(s)
            && p.encapsulate(s, ch[X25519_LEN..X25519_LEN + s.EkLen()], coins)
               == Some((hello[X25519_LEN..X25519_LEN + s.CtLen()], ikm[X25519_LEN..]))
  {
    var ss := p.decapsulate(st.suite, st.decapKey, sh[X25519_LEN..X25519_LEN + st.suite.CtLen()]).value;
    assert (p.dh(st.xSecret, sh[..X25519_LEN]) + ss)[X25519_LEN..] == ss;
    var (ct, tt) := p.encapsulate(s, ch[X25519_LEN..X25519_LEN + s.EkLen()], coins).value;
    assert (p.dh(xSecret, ch[..X25519_LEN]) + tt)[X25519_LEN..] == tt;
    ServerHelloReads(p, s, sid, ch, xSecret, ct);
  }

  /** Ends with mirrored hybrid keys agree on the suite, on both hellos and on both secrets. */
  lemma HybridBindsSecrets(p: Primitives, st: InitState, cid: Identity, sh: bytes, s: Suite, sid: Identity, ch: bytes,
                           xSecret: bytes, coins: bytes)
    requires ExchangeLaws(p) && SignatureLaws(p)
    requires |st.clientHello| == ClientHelloLen(st.suite)
    requires Finish(p, st, cid, sh).Ok? && Respond(p, s, sid, ch, xSecret, coins).Ok?
    requires Mirrored(Finish(p, st, cid, sh).value, Respond(p, s, sid, ch, xSecret, coins).value.0)
    ensures st.suite == s && st.clientHello == ch && sh == Respond(p, s, sid, ch, xSecret, coins).value.1
    ensures |sh| == ServerHelloLen(s) && |ch| == ClientHelloLen(s)
    ensures p.dh(st.xSecret, sh[..X25519_LEN]) == p.dh(xSecret, ch[..X25519_LEN])
    ensures var shared := p.decapsulate(s, st.decapKey, sh[X25519_LEN..X25519_LEN + s.CtLen()]);
            && shared.Some?
            && p.encapsulate(s, ch[X25519_LEN..X25519_LEN + s.EkLen()], coins)
               == Some((sh[X25519_LEN..X25519_LEN + s.CtLen()], shared.value))
  {
    HybridMaterial(p, st, cid, sh, s, sid, ch, xSecret, coins);
    TranscriptUnambiguous(st.suite, st.clientHello, sh, s, ch, Respond(p, s, sid, ch, xSecret, coins).value.1);
  }

  // -------------------------- whose ephemeral is in a key --------------------------

  /** The ephemeral value contributed to a key by the side that writes under it. */
  function WriterEphemeral(k: Key): (e: bytes) {
    var t := k.transcript.preimage;
    if k.suiteId == FALLBACK_SUITE_ID then
      var start := if k.half.ClientToServer? then FALLBACK_LABEL_LEN else FALLBACK_LABEL_LEN + FALLBACK_NONCE_LEN;
      if |t| < start + FALLBACK_NONCE_LEN then [] else t[start..start + FALLBACK_NONCE_LEN]
    else
      var chLen := if k.suiteId == Nist768.Id() then ClientHelloLen(Nist768) else ClientHelloLen(Nist1024);
      var start := LABEL_LEN + 1 + (if k.half.ClientToServer? then 0 else chLen);
      if |t| < start + X25519_LEN then [] else t[start..start + X25519_LEN]
  }

  lemma HybridEphemerals(ikm: bytes, s: Suite, ch: bytes, sh: bytes)
    requires |ch| == ClientHelloLen(s) && |sh| >= X25519_LEN
    ensures var t := Transcript(s.Id(), ch, sh);
            && WriterEphemeral(Key(ikm, s.Id(), t, ClientToServer)) == ch[..X25519_LEN]
            && WriterEphemeral(Key(ikm, s.Id(), t, ServerToClient)) == sh[..X25519_LEN]
  {
    Labels();
    var t := Transcript(s.Id(), ch, sh).preimage;
    assert t == (KEY_TRANSCRIPT_LABEL + [s.Id()]) + (ch + sh);
    assert t[LABEL_LEN + 1..] == ch + sh;
    assert t[LABEL_LEN + 1..LABEL_LEN + 1 + X25519_LEN] == (ch + sh)[..X25519_LEN] == ch[..X25519_LEN];
    assert t[LABEL_LEN + 1 + |ch|..LABEL_LEN + 1 + |ch| + X25519_LEN] == (ch + sh)[|ch|..][..X25519_LEN]
      == sh[..X25519_LEN];
  }

  lemma FallbackEphemerals(psk: bytes, cn: bytes, sn: bytes)
    requires |cn| == FALLBACK_NONCE_LEN && |sn| == FALLBACK_NONCE_LEN
    ensures var t := FallbackTranscript(cn, sn);
            && WriterEphemeral(Key(psk, FALLBACK_SUITE_ID, t, ClientToServer)) == cn
            && WriterEphemeral(Key(psk, FALLBACK_SUITE_ID, t, ServerToClient)) == sn
  {
    Labels();
    var t := FallbackTranscript(cn, sn).preimage;
    assert t[FALLBACK_LABEL_LEN..] == cn + sn;
    assert t[FALLBACK_LABEL_LEN..FALLBACK_LABEL_LEN + FALLBACK_NONCE_LEN] == (cn + sn)[..FALLBACK_NONCE_LEN] == cn;
    assert t[FALLBACK_LABEL_LEN + FALLBACK_NONCE_LEN..] == (cn + sn)[FALLBACK_NONCE_LEN..] == sn;
  }
}
