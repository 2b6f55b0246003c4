/** What every reachable session keeps, whatever the kernel, the peer or the network does. */
module Invariants {
  import opened Bytes
  import opened Framing
  import opened Crypto
  import opened Handshake
  import opened Session

  // -------------------------------- the invariants --------------------------------

  /** Buffer limits; the gauge bit; a failed state holds nothing. */
  predicate Bounded(s: Session) {
    && |s.fd.txBacklog| <= MAX_WRITE_BACKLOG
    && |s.fd.rxWire| + |s.fd.rxPlain| <= MAX_WIRE_RX_BUFFER
    && (s.fd.countedActive <==> s.fd.phase.Active?)
    && (s.fd.phase.Failed? ==> Idle(s.fd) && s.pending == [])
  }

  /** Before keys exist nothing has been sealed, received or delivered. */
  predicate Unstarted(p: Primitives, s: Session) {
    InHandshake(s.fd) ==>
      && s.fd.rxPlain == [] && s.pending == []
      && s.history.link.None? && s.history.helloIn.None? && s.history.delivered == []
      && match s.fd.phase
         case AwaitingServerHello(st) =>
           && Genuine(p, st) && st.suite == s.fd.policySuite && Fits(st.clientHello)
           && s.history.helloOut == Some(Parsed(st.suite.Id(), TYPE_CLIENT_HELLO, st.clientHello))
           && s.history.ephemeral == Some(p.xPublic(st.xSecret)) && s.history.psk.None?
         case AwaitingFallbackFinished(psk, cn) =>
           && s.history.psk == Some(psk)
           && s.history.helloOut == Some(Parsed(FALLBACK_WIRE_ID, TYPE_FALLBACK_HELLO, cn))
           && s.history.ephemeral == Some(cn)
         case _ => s.history.helloOut.None? && s.history.ephemeral.None? && s.history.psk.None?
  }

  /** The i-th record of each direction was processed under that direction's key and counter i. */
  predicate Numbered(p: Primitives, s: Session) {
    var h := s.history;
    match h.link
    case None => h.sealed == [] && h.received == []
    case Some(link) =>
      && |h.sealed| <= U64_MAX && |h.received| <= U64_MAX
      && (forall i :: 0 <= i < |h.sealed| ==>
            h.sealed[i].ciphertext == p.seal(link.tx, Nonce(i), h.sealed[i].plaintext))
      && (forall i :: 0 <= i < |h.received| ==>
            p.open(link.rx, Nonce(i), h.received[i].ciphertext) == Some(h.received[i].plaintext))
      && (s.fd.phase.Active? ==>
            && s.fd.phase.keys.tx == Direction(link.tx, |h.sealed|)
            && s.fd.phase.keys.rx == Direction(link.rx, |h.received|))
  }

  /** The two traffic keys of a session, and whose ephemeral each carries. */
  predicate Linked(p: Primitives, s: Session) {
    var h := s.history;
    && (s.fd.phase.Active? ==> h.link.Some?)
    && (h.link.Some? ==>
          && h.link.value.rx == Twin(h.link.value.tx)
          && h.ephemeral == Some(WriterEphemeral(h.link.value.tx))
          && h.helloOut.Some? && Fits(h.helloOut.value.payload)
          && h.helloIn.Some? && Fits(h.helloIn.value.payload)
          && Confirmations(h.link.value.tx) <= |h.sealed|
          && Confirmations(h.link.value.rx) <= |h.received|)
  }

  /** Keys come from the pinned suite, or from the pre-shared key of a fallback that was decided locally. */
  predicate Undowngraded(s: Session) {
    s.history.link.Some? ==> RightSource(s.history.link.value.tx, s.fd.policySuite, s.history.psk)
  }

  predicate RightSource(k: Key, policy: Suite, psk: Option<bytes>) {
    if psk.None? then k.suiteId == policy.Id() else k.suiteId == FALLBACK_SUITE_ID && k.ikm == psk.value
  }

  /** Sent, queued and pending bytes are one hello frame and then the sealed records, in order. */
  predicate WireOut(s: Session) {
    if s.fd.phase.Failed? then s.history.sent <= Stream(FramesOut(s))
    else s.history.sent + s.fd.txBacklog + s.pending == Stream(FramesOut(s))
  }

  /** Pulled bytes are the accepted hello, the received records in order, and what is still buffered. */
  predicate WireIn(s: Session) {
    if s.fd.phase.Failed? then Stream(FramesIn(s)) <= s.history.pulled
    else s.history.pulled == Stream(FramesIn(s)) + s.fd.rxWire
  }

  /** The application gets the received plaintext in order, without loss or repetition. */
  predicate PlainOut(s: Session) {
    var all := Concat(Plaintexts(DataReceived(s)));
    if s.fd.phase.Failed? then s.history.delivered <= all
    else s.history.delivered + s.fd.rxPlain == all
  }

  /** Nothing sent is longer than a full data record; everything received came in a frame. */
  predicate RecordsFit(s: Session) {
    && (s.history.helloOut.Some? ==> |s.history.helloOut.value.payload| <= MAX_RECORD_PLAINTEXT)
    && (forall i :: 0 <= i < |s.history.sealed| ==>
          |s.history.sealed[i].ciphertext| <= MAX_RECORD_PLAINTEXT + TAG_LEN)
    && (forall i :: 0 <= i < |s.history.received| ==> Fits(s.history.received[i].ciphertext))
  }

  /** The hello type that introduces the side writing under a key. */
  function HelloTag(k: Key): (tag: byte) {
    if k.suiteId == FALLBACK_SUITE_ID
    then if k.half.ClientToServer? then TYPE_FALLBACK_HELLO else TYPE_FALLBACK_FINISHED
    else if k.half.ClientToServer? then TYPE_CLIENT_HELLO else TYPE_SERVER_HELLO
  }

  predicate FallbackTag(tag: byte) {
    tag == TYPE_FALLBACK_HELLO || tag == TYPE_FALLBACK_FINISHED
  }

  /** A hybrid hello under the pinned suite, or a fallback hello under the reserved identifier. */
  predicate HelloShaped(f: Parsed, policy: Suite) {
    || ((f.tag == TYPE_CLIENT_HELLO || f.tag == TYPE_SERVER_HELLO) && f.suiteId == policy.Id())
    || (FallbackTag(f.tag) && f.suiteId == FALLBACK_WIRE_ID)
  }

  /** The ephemeral value a hello starts with. */
  function Lead(f: Parsed): bytes {
    f.payload[..Min(|f.payload|, if FallbackTag(f.tag) then FALLBACK_NONCE_LEN else X25519_LEN)]
  }

  /** The first record of a fallback responder is the confirmation, and its hello carries it. */
  predicate Confirmed(k: Key, f: Parsed, records: seq<Record>) {
    Confirmations(k) == 1 ==>
      && |f.payload| >= FALLBACK_NONCE_LEN && records != []
      && records[0] == Record(FALLBACK_CONFIRM, f.payload[FALLBACK_NONCE_LEN..])
  }

  /** Hellos are of the type the keys say, open with the ephemerals the keys carry, and carry the confirmation. */
  predicate Introduced(s: Session) {
    var h := s.history;
    && (h.helloOut.Some? ==>
          HelloShaped(h.helloOut.value, s.fd.policySuite) && h.ephemeral == Some(Lead(h.helloOut.value)))
    && (h.link.Some? ==>
          && h.helloOut.Some? && h.helloOut.value.tag == HelloTag(h.link.value.tx)
          && h.helloIn.Some? && h.helloIn.value.tag == HelloTag(h.link.value.rx)
          && WriterEphemeral(h.link.value.rx) == Lead(h.helloIn.value)
          && Confirmed(h.link.value.tx, h.helloOut.value, h.sealed)
          && Confirmed(h.link.value.rx, h.helloIn.value, h.received))
  }

  predicate Inv(p: Primitives, s: Session) {
    && Bounded(s) && Unstarted(p, s) && Numbered(p, s) && Linked(p, s) && Undowngraded(s)
    && WireOut(s) && WireIn(s) && PlainOut(s) && RecordsFit(s) && Introduced(s)
  }

  lemma UnstartedOf(p: Primitives, s: Session)
    requires Inv(p, s)
    ensures Unstarted(p, s)
  {
    hide Bounded, Unstarted, Numbered, Linked, Undowngraded, WireIn, WireOut, PlainOut, RecordsFit, Introduced;
  }

  // ---------------------------------- creation ----------------------------------

  lemma BlankInv(p: Primitives, phase: Phase, pid: int, suite: Suite, epoch: nat)
    requires phase == Failed || phase == AwaitingClientHello
    ensures Inv(p, Blank(phase, pid, suite, epoch))
  {
  }

  lemma AnnounceInv(p: Primitives, phase: Phase, pid: int, suite: Suite, epoch: nat, hello: Parsed, ephemeral: bytes,
                    psk: Option<bytes>)
    requires |hello.payload| <= MAX_RECORD_PLAINTEXT
    requires Unstarted(p, Announce(phase, pid, suite, epoch, hello, ephemeral, psk))
    requires phase.AwaitingServerHello? || phase.AwaitingFallbackFinished?
    ensures Inv(p, Announce(phase, pid, suite, epoch, hello, ephemeral, psk))
  {
    var s := Announce(phase, pid, suite, epoch, hello, ephemeral, psk);
    AnnounceIntroduces(p, s);
    AnnounceWires(s, hello);
    hide Unstarted, Encode, Introduced, WireOut, WireIn, PlainOut;
  }

  lemma AnnounceWires(s: Session, hello: Parsed)
    requires s.history == NO_HISTORY.(helloOut := Some(hello), ephemeral := s.history.ephemeral,
              psk := s.history.psk)
    requires !s.fd.phase.Failed? && s.fd.txBacklog == Encode(hello) && s.fd.rxWire == [] && s.fd.rxPlain == []
              && s.pending == []
    ensures WireOut(s) && WireIn(s) && PlainOut(s)
  {
    hide Encode, DataFrames;
    assert FramesOut(s) == [] + [hello] && FramesIn(s) == [];
    StreamSnoc([], hello);
    assert Plaintexts(DataReceived(s)) == [];
  }

  lemma AnnounceIntroduces(p: Primitives, s: Session)
    requires Unstarted(p, s) && (s.fd.phase.AwaitingServerHello? || s.fd.phase.AwaitingFallbackFinished?)
    ensures Introduced(s)
  {
    hide Encode, Confirmed, HelloTag;
    if s.fd.phase.AwaitingFallbackFinished? {
      var cn := s.fd.phase.clientNonce;
      assert cn[..FALLBACK_NONCE_LEN] == cn;
    }
  }

  lemma ConnectInv(p: Primitives, policy: Option<Suite>, env: Local, pid: int, epoch: nat)
    requires Lawful(p)
    ensures Inv(p, Connect(p, policy, env, pid, epoch))
    ensures Connect(p, policy, env, pid, epoch).fd.ownerPid == pid
  {
    var s := Connect(p, policy, env, pid, epoch);
    hide Inv;
    if s.fd.phase.AwaitingServerHello? {
      ClientHelloGenuine(p, policy.value, env.identity.value, env.xSecret, env.decapKey);
      hide Encode, ClientHello, Lawful;
      AnnounceInv(p, s.fd.phase, pid, policy.value, epoch, s.history.helloOut.value, p.xPublic(env.xSecret), None);
    } else if s.fd.phase.AwaitingFallbackFinished? {
      AnnounceInv(p, s.fd.phase, pid, policy.value, epoch, s.history.helloOut.value, env.nonce, env.psk);
    } else {
      BlankInv(p, Failed, pid, s.fd.policySuite, epoch);
    }
  }

  lemma AdoptInv(p: Primitives, policy: Option<Suite>, pid: int, epoch: nat)
    ensures Inv(p, Adopt(policy, pid, epoch))
  {
  }

  // ------------------------------- one accepted hello -------------------------------

  /** What an establishing verdict hands over, in each of the four handshake branches. */
  predicate SoundVerdict(p: Primitives, s: Session, v: Verdict) {
    && v.Establish?
    && v.keys.rx.key == Twin(v.keys.tx.key)
    && v.keys == FirstKeys(Link(v.keys.tx.key, v.keys.rx.key))
    && v.keys.tx.counter == |v.sealed| == Confirmations(v.keys.tx.key)
    && v.keys.rx.counter == |v.received| == Confirmations(v.keys.rx.key)
    && (forall i :: 0 <= i < |v.sealed| ==>
          && v.sealed[i].ciphertext == p.seal(v.keys.tx.key, Nonce(i), v.sealed[i].plaintext)
          && |v.sealed[i].ciphertext| <= MAX_RECORD_PLAINTEXT + TAG_LEN)
    && (forall i :: 0 <= i < |v.received| ==>
          && p.open(v.keys.rx.key, Nonce(i), v.received[i].ciphertext) == Some(v.received[i].plaintext)
          && Fits(v.received[i].ciphertext))
    && (if v.ephemeral.Some? then v.ephemeral else s.history.ephemeral) == Some(WriterEphemeral(v.keys.tx.key))
    && (v.reply.Some? <==> s.history.helloOut.None?)
    && (v.reply.Some? ==> CanQueue(s.fd, v.reply.value) && |v.reply.value.payload| <= MAX_RECORD_PLAINTEXT)
    && RightSource(v.keys.tx.key, s.fd.policySuite, if v.psk.Some? then v.psk else s.history.psk)
  }

  lemma ClientHelloVerdict(p: Primitives, s: Session, f: Parsed, env: Local)
    requires Lawful(p) && Unstarted(p, s) && s.fd.phase.AwaitingClientHello?
    requires JudgeClientHello(p, s.fd, f, env).Establish?
    ensures SoundVerdict(p, s, JudgeClientHello(p, s.fd, f, env))
  {
    var suite, ch := s.fd.policySuite, f.payload;
    var (ct, ss) := p.encapsulate(suite, ch[X25519_LEN..X25519_LEN + suite.EkLen()], env.coins).value;
    ServerHelloReads(p, suite, env.identity.value, ch, env.xSecret, ct);
    var (keys, hello) := Respond(p, suite, env.identity.value, ch, env.xSecret, env.coins).value;
    HybridEphemerals(keys.tx.key.ikm, suite, ch, hello);
  }

  lemma FallbackHelloVerdict(p: Primitives, s: Session, f: Parsed, env: Local)
    requires Lawful(p) && Unstarted(p, s) && s.fd.phase.AwaitingClientHello?
    requires JudgeFallbackHello(p, s.fd, f, env).Establish?
    ensures SoundVerdict(p, s, JudgeFallbackHello(p, s.fd, f, env))
  {
    FallbackEphemerals(env.psk.value, f.payload, env.nonce);
    var keys := DeriveFallback(env.psk.value, f.payload, env.nonce, false);
    var ct := p.seal(keys.tx.key, Nonce(0), FALLBACK_CONFIRM);
    assert (env.nonce + ct)[FALLBACK_NONCE_LEN..] == ct;
  }

  lemma ServerHelloVerdict(p: Primitives, s: Session, f: Parsed, env: Local)
    requires Lawful(p) && Unstarted(p, s) && s.fd.phase.AwaitingServerHello?
    requires JudgeServerHello(p, s.fd, s.fd.phase.init, f, env).Establish?
    ensures SoundVerdict(p, s, JudgeServerHello(p, s.fd, s.fd.phase.init, f, env))
  {
    var st := s.fd.phase.init;
    var keys := Finish(p, st, env.identity.value, f.payload).value;
    HybridEphemerals(keys.tx.key.ikm, st.suite, st.clientHello, f.payload);
  }

  lemma FallbackFinishedVerdict(p: Primitives, s: Session, f: Parsed)
    requires Lawful(p) && Unstarted(p, s) && s.fd.phase.AwaitingFallbackFinished? && Fits(f.payload)
    requires JudgeFallbackFinished(p, s.fd.phase.psk, s.fd.phase.clientNonce, f).Establish?
    ensures SoundVerdict(p, s, JudgeFallbackFinished(p, s.fd.phase.psk, s.fd.phase.clientNonce, f))
  {
    FallbackEphemerals(s.fd.phase.psk, s.fd.phase.clientNonce, f.payload[..FALLBACK_NONCE_LEN]);
  }

  lemma JudgeSound(p: Primitives, s: Session, f: Parsed, env: Local)
    requires Lawful(p) && Unstarted(p, s) && Fits(f.payload)
    requires Judge(p, s.fd, f, env).Establish?
    ensures InHandshake(s.fd)
    ensures SoundVerdict(p, s, Judge(p, s.fd, f, env))
  {
    hide SoundVerdict, Unstarted, Lawful, Fits, JudgeClientHello, JudgeFallbackHello, JudgeServerHello,
         JudgeFallbackFinished;
    match s.fd.phase
    case AwaitingClientHello =>
      if f.tag == TYPE_CLIENT_HELLO {
        ClientHelloVerdict(p, s, f, env);
      } else {
        FallbackHelloVerdict(p, s, f, env);
      }
    case AwaitingServerHello(_) => ServerHelloVerdict(p, s, f, env);
    case AwaitingFallbackFinished(_, _) => FallbackFinishedVerdict(p, s, f);
  }

  /** What an establishing verdict says about the two hellos. */
  predicate Introduces(s: Session, f: Parsed, v: Verdict) {
    && v.Establish?
    && var out := if v.reply.Some? then v.reply else s.history.helloOut;
    && var tx, rx := v.keys.tx.key, v.keys.rx.key;
    && out.Some? && HelloShaped(out.value, s.fd.policySuite) && out.value.tag == HelloTag(tx)
    && (if v.ephemeral.Some? then v.ephemeral else s.history.ephemeral) == Some(Lead(out.value))
    && f.tag == HelloTag(rx) && WriterEphemeral(rx) == Lead(f)
    && Confirmed(tx, out.value, v.sealed) && Confirmed(rx, f, v.received)
  }

  lemma ClientHelloIntroduces(p: Primitives, s: Session, f: Parsed, env: Local)
    requires Lawful(p) && Unstarted(p, s) && s.fd.phase.AwaitingClientHello? && f.tag == TYPE_CLIENT_HELLO
    requires JudgeClientHello(p, s.fd, f, env).Establish?
    ensures Introduces(s, f, JudgeClientHello(p, s.fd, f, env))
  {
    var suite, ch := s.fd.policySuite, f.payload;
    var (ct, ss) := p.encapsulate(suite, ch[X25519_LEN..X25519_LEN + suite.EkLen()], env.coins).value;
    ServerHelloReads(p, suite, env.identity.value, ch, env.xSecret, ct);
    var (keys, hello) := Respond(p, suite, env.identity.value, ch, env.xSecret, env.coins).value;
    HybridEphemerals(keys.tx.key.ikm, suite, ch, hello);
    hide WriterEphemeral, ServerHello, Encode, SplitIdentityFields;
  }

  lemma FallbackHelloIntroduces(p: Primitives, s: Session, f: Parsed, env: Local)
    requires Unstarted(p, s) && s.fd.phase.AwaitingClientHello? && f.tag == TYPE_FALLBACK_HELLO
    requires JudgeFallbackHello(p, s.fd, f, env).Establish?
    ensures Introduces(s, f, JudgeFallbackHello(p, s.fd, f, env))
  {
    FallbackEphemerals(env.psk.value, f.payload, env.nonce);
    var keys := DeriveFallback(env.psk.value, f.payload, env.nonce, false);
    var finished := env.nonce + p.seal(keys.tx.key, Nonce(0), FALLBACK_CONFIRM);
    assert finished[..FALLBACK_NONCE_LEN] == env.nonce && f.payload[..FALLBACK_NONCE_LEN] == f.payload;
    hide WriterEphemeral, Encode;
  }

  lemma ServerHelloIntroduces(p: Primitives, s: Session, f: Parsed, env: Local)
    requires Unstarted(p, s) && s.fd.phase.AwaitingServerHello? && f.tag == TYPE_SERVER_HELLO
    requires JudgeServerHello(p, s.fd, s.fd.phase.init, f, env).Establish?
    ensures Introduces(s, f, JudgeServerHello(p, s.fd, s.fd.phase.init, f, env))
  {
    var st := s.fd.phase.init;
    var keys := Finish(p, st, env.identity.value, f.payload).value;
    HybridEphemerals(keys.tx.key.ikm, st.suite, st.clientHello, f.payload);
    hide WriterEphemeral, SplitIdentityFields;
  }

  lemma FallbackFinishedIntroduces(p: Primitives, s: Session, f: Parsed)
    requires Unstarted(p, s) && s.fd.phase.AwaitingFallbackFinished? && f.tag == TYPE_FALLBACK_FINISHED
    requires JudgeFallbackFinished(p, s.fd.phase.psk, s.fd.phase.clientNonce, f).Establish?
    ensures Introduces(s, f, JudgeFallbackFinished(p, s.fd.phase.psk, s.fd.phase.clientNonce, f))
  {
    FallbackEphemerals(s.fd.phase.psk, s.fd.phase.clientNonce, f.payload[..FALLBACK_NONCE_LEN]);
    assert s.fd.phase.clientNonce[..FALLBACK_NONCE_LEN] == s.fd.phase.clientNonce;
    hide WriterEphemeral, Nonce;
  }

  lemma JudgeIntroduces(p: Primitives, s: Session, f: Parsed, env: Local)
    requires Lawful(p) && Unstarted(p, s)
    requires Judge(p, s.fd, f, env).Establish?
    ensures Introduces(s, f, Judge(p, s.fd, f, env))
  {
    hide Introduces, Unstarted, Lawful, JudgeClientHello, JudgeFallbackHello, JudgeServerHello, JudgeFallbackFinished;
    match s.fd.phase
    case AwaitingClientHello =>
      if f.tag == TYPE_CLIENT_HELLO {
        ClientHelloIntroduces(p, s, f, env);
      } else {
        FallbackHelloIntroduces(p, s, f, env);
      }
    case AwaitingServerHello(_) => ServerHelloIntroduces(p, s, f, env);
    case AwaitingFallbackFinished(_, _) => FallbackFinishedIntroduces(p, s, f);
  }

  // ------------------------------ every action keeps them ------------------------------

  lemma EstablishedIntroduced(s: Session, f: Parsed, rest: bytes, v: Verdict)
    requires Introduces(s, f, v)
    ensures Introduced(Established(s, f, rest, v))
  {
    hide Confirmed, Lead, HelloShaped, HelloTag, WriterEphemeral, Stream;
  }

  /** Hellos, keys and first records stay once they are there. */
  lemma IntroducedStays(s: Session, t: Session)
    requires Introduced(s) && t.fd.policySuite == s.fd.policySuite
    requires t.history.helloOut == s.history.helloOut && t.history.helloIn == s.history.helloIn
    requires t.history.link == s.history.link && t.history.ephemeral == s.history.ephemeral
    requires s.history.sealed <= t.history.sealed && s.history.received <= t.history.received
    ensures Introduced(t)
  {
    hide Lead, HelloShaped, HelloTag, WriterEphemeral, Confirmations;
  }

  /** Establishing a session keeps the invariant. */
  lemma EstablishedKeys(p: Primitives, s: Session, f: Parsed, rest: bytes, v: Verdict)
    requires Lawful(p) && Inv(p, s) && InHandshake(s.fd)
    requires PopFrame(s.fd.rxWire) == Popped(f, rest) && Fits(f.payload)
    requires SoundVerdict(p, s, v)
    ensures var t := Established(s, f, rest, v);
            Bounded(t) && Unstarted(p, t) && Numbered(p, t) && Linked(p, t) && Undowngraded(t) && RecordsFit(t)
  {
    EstablishedBounds(p, s, f, rest, v);
    hide PopFrame, WriterEphemeral, Encode, Bounded, WireIn, WireOut, PlainOut, Stream, Nonce, Genuine;
  }

  lemma EstablishedBounds(p: Primitives, s: Session, f: Parsed, rest: bytes, v: Verdict)
    requires Inv(p, s) && InHandshake(s.fd)
    requires PopFrame(s.fd.rxWire) == Popped(f, rest) && Fits(f.payload)
    requires SoundVerdict(p, s, v)
    ensures Bounded(Established(s, f, rest, v))
  {
    hide PopFrame, WriterEphemeral, Encode, Numbered, Linked, Undowngraded, WireIn, WireOut, PlainOut, RecordsFit,
         Introduced, Nonce, Genuine;
    EncodePop(s.fd.rxWire);
    if v.reply.Some? {
      assert Stream([v.reply.value]) == Encode(v.reply.value) by {
        StreamSnoc([], v.reply.value);
        assert [] + [v.reply.value] == [v.reply.value];
      }
    }
  }

  lemma EstablishedWires(p: Primitives, s: Session, f: Parsed, rest: bytes, v: Verdict)
    requires WireOut(s) && WireIn(s) && PlainOut(s)
    requires InHandshake(s.fd) && s.pending == [] && s.fd.rxPlain == [] && s.history.link.None?
              && s.history.helloIn.None?
    requires s.fd.rxWire == Encode(f) + rest
    requires v.Establish? && (v.reply.Some? <==> s.history.helloOut.None?)
    requires |v.sealed| == Confirmations(v.keys.tx.key) && |v.received| == Confirmations(v.keys.rx.key)
    ensures var t := Established(s, f, rest, v);
            WireOut(t) && WireIn(t) && PlainOut(t)
  {
    hide Encode, Confirmations, DataFrames, Ciphertexts;
    var t := Established(s, f, rest, v);
    assert DataSealed(t) == DataSealed(s) == [];
    assert DataReceived(t) == DataReceived(s) == [];
    assert FramesOut(s) == HelloFrames(s.history.helloOut) && FramesIn(s) == [];
    assert FramesOut(t) == HelloFrames(t.history.helloOut) && FramesIn(t) == [f];
    StreamSnoc([], f);
    assert [] + [f] == [f];
  }

  lemma HandshakeKeepsInv(p: Primitives, s: Session, env: Local)
    requires Lawful(p) && Inv(p, s)
    requires PopFrame(s.fd.rxWire).Popped? && Judge(p, s.fd, PopFrame(s.fd.rxWire).frame, env).Establish?
    ensures var Popped(f, rest) := PopFrame(s.fd.rxWire);
            Inv(p, Established(s, f, rest, Judge(p, s.fd, f, env)))
  {
    hide Judge, Established, Lawful, Bounded, Numbered, Linked, Undowngraded, WireOut, WireIn, PlainOut, RecordsFit,
         Introduced, PopFrame;
    var Popped(f, rest) := PopFrame(s.fd.rxWire);
    EncodePop(s.fd.rxWire);
    JudgeSound(p, s, f, env);
    EstablishedKeys(p, s, f, rest, Judge(p, s.fd, f, env));
    EstablishedWires(p, s, f, rest, Judge(p, s.fd, f, env));
    JudgeIntroduces(p, s, f, env);
    EstablishedIntroduced(s, f, rest, Judge(p, s.fd, f, env));
    var t := Established(s, f, rest, Judge(p, s.fd, f, env));
    assert Inv(p, t);
  }

  lemma SnocViews(k: Key, records: seq<Record>, r: Record)
    requires Confirmations(k) <= |records|
    ensures DataOf(k, records + [r]) == DataOf(k, records) + [r]
    ensures Ciphertexts(DataOf(k, records + [r])) == Ciphertexts(DataOf(k, records)) + [r.ciphertext]
    ensures forall id :: DataFrames(id, Ciphertexts(DataOf(k, records + [r])))
                      == DataFrames(id, Ciphertexts(DataOf(k, records))) + [Parsed(id, TYPE_DATA, r.ciphertext)]
    ensures Plaintexts(DataOf(k, records + [r])) == Plaintexts(DataOf(k, records)) + [r.plaintext]
  {
  }

  lemma SealKeepsNumbers(p: Primitives, s: Session, plaintext: bytes)
    requires AeadLaws(p) && Bounded(s) && Numbered(p, s) && Linked(p, s) && RecordsFit(s)
    requires CanSeal(p, s.fd, plaintext)
    ensures var t := Sealed(p, s, plaintext);
            Bounded(t) && Numbered(p, t) && Linked(p, t) && RecordsFit(t)
  {
    var ct := SealWith(p, s.fd.phase.keys.tx, plaintext).value.1;
    assert |ct| == |plaintext| + TAG_LEN;
    hide WriterEphemeral, Nonce, Encode, AeadLaws;
    assert Numbered(p, Sealed(p, s, plaintext));
  }

  lemma SealKeepsWireOut(p: Primitives, s: Session, plaintext: bytes)
    requires WireOut(s) && Linked(p, s) && s.pending == [] && CanSeal(p, s.fd, plaintext)
    ensures WireOut(Sealed(p, s, plaintext))
  {
    hide Encode, WriterEphemeral, DataFrames, Stream, Nonce, Ciphertexts, DataOf, Confirmations, Fits;
    var t := Sealed(p, s, plaintext);
    var ct := SealWith(p, s.fd.phase.keys.tx, plaintext).value.1;
    var f := Parsed(s.fd.policySuite.Id(), TYPE_DATA, ct);
    SnocViews(s.history.link.value.tx, s.history.sealed, Record(plaintext, ct));
    assert FramesOut(t) == FramesOut(s) + [f];
    StreamSnoc(FramesOut(s), f);
  }

  lemma SealKeepsReceiving(p: Primitives, s: Session, plaintext: bytes)
    requires WireIn(s) && PlainOut(s) && Undowngraded(s) && CanSeal(p, s.fd, plaintext)
    ensures var t := Sealed(p, s, plaintext);
            WireIn(t) && PlainOut(t) && Undowngraded(t) && Unstarted(p, t)
  {
    hide DataFrames, Stream, Ciphertexts, DataOf, Encode, Concat, Plaintexts, Fits, Nonce;
    var t := Sealed(p, s, plaintext);
    assert DataReceived(t) == DataReceived(s);
    assert FramesIn(t) == FramesIn(s);
  }

  lemma SealKeepsInv(p: Primitives, s: Session, plaintext: bytes)
    requires Lawful(p) && Inv(p, s)
    requires s.pending == [] && CanSeal(p, s.fd, plaintext)
    ensures Inv(p, Sealed(p, s, plaintext))
  {
    hide WireOut, WireIn, PlainOut, Bounded, Numbered, Linked, RecordsFit, Introduced, Undowngraded, Unstarted,
         CanSeal, Sealed;
    SealKeepsNumbers(p, s, plaintext);
    SealKeepsWireOut(p, s, plaintext);
    SealKeepsReceiving(p, s, plaintext);
    SealKeepsIntroduced(p, s, plaintext);
  }

  lemma SealKeepsIntroduced(p: Primitives, s: Session, plaintext: bytes)
    requires Introduced(s) && CanSeal(p, s.fd, plaintext)
    ensures Introduced(Sealed(p, s, plaintext))
  {
    hide Introduced, Encode, SealWith, Fits;
    IntroducedStays(s, Sealed(p, s, plaintext));
  }

  lemma OpenKeepsNumbers(p: Primitives, s: Session)
    requires AeadLaws(p) && Bounded(s) && Numbered(p, s) && Linked(p, s) && RecordsFit(s)
    requires CanOpen(p, s.fd) && Fits(PopFrame(s.fd.rxWire).frame.payload)
    ensures var t := Opened(p, s);
            Bounded(t) && Numbered(p, t) && Linked(p, t) && RecordsFit(t)
  {
    var Popped(f, rest) := PopFrame(s.fd.rxWire);
    assert |OpenWith(p, s.fd.phase.keys.rx, f.payload).value.1| + TAG_LEN == |f.payload|;
    hide PopFrame, WriterEphemeral, Nonce, Encode;
    var t := Opened(p, s);
    assert Numbered(p, t);
  }

  lemma OpenAddsFrame(p: Primitives, s: Session)
    requires Linked(p, s) && CanOpen(p, s.fd)
    ensures FramesIn(Opened(p, s)) == FramesIn(s) + [PopFrame(s.fd.rxWire).frame]
  {
    hide Encode, WriterEphemeral, DataFrames, PopFrame, Ciphertexts, DataOf, Confirmations, OpenWith, Twin, Fits;
    var f := PopFrame(s.fd.rxWire).frame;
    var m := OpenWith(p, s.fd.phase.keys.rx, f.payload).value.1;
    SnocViews(s.history.link.value.rx, s.history.received, Record(m, f.payload));
  }

  lemma OpenKeepsWireIn(p: Primitives, s: Session)
    requires WireIn(s) && Linked(p, s) && CanOpen(p, s.fd)
    ensures WireIn(Opened(p, s))
  {
    hide Encode, Stream, PopFrame, OpenWith, FramesIn, Linked;
    EncodePop(s.fd.rxWire);
    OpenAddsFrame(p, s);
    var t := Opened(p, s);
    var Popped(f, rest) := PopFrame(s.fd.rxWire);
    StreamSnoc(FramesIn(s), f);
    assert Stream(FramesIn(s)) + (Encode(f) + rest) == Stream(FramesIn(s)) + Encode(f) + rest;
  }

  lemma OpenKeepsPlainOut(p: Primitives, s: Session)
    requires PlainOut(s) && Linked(p, s) && CanOpen(p, s.fd)
    ensures PlainOut(Opened(p, s))
  {
    hide WriterEphemeral, Nonce, PopFrame, Concat, Plaintexts, DataOf, Confirmations;
    var Popped(f, rest) := PopFrame(s.fd.rxWire);
    var m := OpenWith(p, s.fd.phase.keys.rx, f.payload).value.1;
    SnocViews(s.history.link.value.rx, s.history.received, Record(m, f.payload));
    ConcatSnoc(Plaintexts(DataReceived(s)), m);
    assert s.history.delivered + s.fd.rxPlain + m == s.history.delivered + (s.fd.rxPlain + m);
  }

  lemma OpenKeepsWireOut(p: Primitives, s: Session)
    requires WireOut(s) && CanOpen(p, s.fd)
    ensures WireOut(Opened(p, s))
  {
    hide DataFrames, Stream, PopFrame, Ciphertexts, DataOf, Encode;
    assert DataSealed(Opened(p, s)) == DataSealed(s);
  }

  lemma OpenKeepsInv(p: Primitives, s: Session)
    requires Lawful(p) && Inv(p, s)
    requires CanOpen(p, s.fd)
    ensures Inv(p, Opened(p, s))
  {
    EncodePop(s.fd.rxWire);
    hide WireOut, WireIn, PlainOut, Bounded, Numbered, Linked, RecordsFit, Introduced, PopFrame;
    OpenKeepsNumbers(p, s);
    OpenKeepsWireIn(p, s);
    OpenKeepsPlainOut(p, s);
    OpenKeepsWireOut(p, s);
    OpenKeepsIntroduced(p, s);
  }

  lemma OpenKeepsIntroduced(p: Primitives, s: Session)
    requires Introduced(s) && CanOpen(p, s.fd)
    ensures Introduced(Opened(p, s))
  {
    hide Introduced, PopFrame, OpenWith;
    IntroducedStays(s, Opened(p, s));
  }

  lemma SameRecordsSameFrames(s: Session, t: Session)
    requires t.fd.policySuite == s.fd.policySuite
    requires t.history.link == s.history.link && t.history.sealed == s.history.sealed
              && t.history.received == s.history.received
    requires t.history.helloOut == s.history.helloOut && t.history.helloIn == s.history.helloIn
    ensures FramesOut(t) == FramesOut(s) && FramesIn(t) == FramesIn(s) && DataReceived(t) == DataReceived(s)
  {
  }

  lemma MovedBytes(p: Primitives, s: Session, a: Act)
    requires Enabled(p, s, a) && !s.fd.phase.Failed?
    requires Moves(a.event)
    ensures var t := Step(p, s, a);
            && t.history.sent + t.fd.txBacklog + t.pending == s.history.sent + s.fd.txBacklog + s.pending
            && (forall w :: s.history.pulled == w + s.fd.rxWire ==> t.history.pulled == w + t.fd.rxWire)
            && t.history.delivered + t.fd.rxPlain == s.history.delivered + s.fd.rxPlain
  {
    hide PopFrame;
  }

  predicate Moves(e: Event) {
    e.Flush? || e.Pull? || e.Queue? || e.Deliver?
  }

  lemma MovesKeepWires(p: Primitives, s: Session, a: Act)
    requires WireOut(s) && WireIn(s) && PlainOut(s) && Enabled(p, s, a) && Moves(a.event) && !s.fd.phase.Failed?
    ensures var t := Step(p, s, a);
            WireOut(t) && WireIn(t) && PlainOut(t)
  {
    var t := Step(p, s, a);
    SameRecordsSameFrames(s, t);
    MovedBytes(p, s, a);
    assert !t.fd.phase.Failed?;
    hide Enabled, Step, Stream, Concat, DataReceived, FramesOut, FramesIn, Plaintexts;
  }

  lemma MovesKeepRest(p: Primitives, s: Session, a: Act)
    requires Bounded(s) && Unstarted(p, s) && Numbered(p, s) && Linked(p, s) && Undowngraded(s) && RecordsFit(s)
    requires Enabled(p, s, a) && Moves(a.event)
    ensures var t := Step(p, s, a);
            Bounded(t) && Unstarted(p, t) && Numbered(p, t) && Linked(p, t) && Undowngraded(t) && RecordsFit(t)
  {
    hide PopFrame, Encode, WriterEphemeral, Genuine, Fits, Nonce;
  }

  /** The actions that only move bytes between buffers. */
  lemma MovesKeepInv(p: Primitives, s: Session, a: Act)
    requires Inv(p, s) && Enabled(p, s, a) && Moves(a.event)
    ensures Inv(p, Step(p, s, a))
  {
    assert !s.fd.phase.Failed?;
    hide Enabled, Step, Moves, WireOut, WireIn, PlainOut, Bounded, Numbered, Linked, RecordsFit, Introduced,
         Undowngraded, Unstarted;
    MovesKeepWires(p, s, a);
    MovesKeepRest(p, s, a);
    MovesKeepIntroduced(p, s, a);
  }

  lemma MovesKeepIntroduced(p: Primitives, s: Session, a: Act)
    requires Introduced(s) && Enabled(p, s, a) && Moves(a.event)
    ensures Introduced(Step(p, s, a))
  {
    hide Introduced, PopFrame, Quiet;
    IntroducedStays(s, Step(p, s, a));
  }

  lemma FailKeepsInv(p: Primitives, s: Session, t: Session)
    requires Inv(p, s)
    requires t.fd == Closed(s.fd).(configEpoch := t.fd.configEpoch) && t.pending == [] && t.history == s.history
    ensures Inv(p, t)
  {
    hide Bounded, Unstarted, Numbered, Linked, Undowngraded, WireIn, WireOut, PlainOut, RecordsFit, Introduced;
    FailKeepsRecords(p, s, t);
    FailKeepsWires(s, t);
    IntroducedStays(s, t);
    assert Bounded(t) && Unstarted(p, t) by { ClosedIsEmpty(p, t); }
  }

  lemma ClosedIsEmpty(p: Primitives, t: Session)
    requires t.fd == Closed(t.fd) && t.pending == []
    ensures Bounded(t) && Unstarted(p, t)
  {
  }

  lemma FailKeepsRecords(p: Primitives, s: Session, t: Session)
    requires Numbered(p, s) && Linked(p, s) && Undowngraded(s) && RecordsFit(s)
    requires t.fd.phase.Failed? && t.fd.policySuite == s.fd.policySuite && t.history == s.history
    ensures Numbered(p, t) && Linked(p, t) && Undowngraded(t) && RecordsFit(t)
  {
    hide WriterEphemeral, Nonce, Confirmations, Twin, Fits;
  }

  lemma FailKeepsWires(s: Session, t: Session)
    requires WireOut(s) && WireIn(s) && PlainOut(s)
    requires t.fd.phase.Failed? && t.fd.policySuite == s.fd.policySuite && t.history == s.history
    ensures WireOut(t) && WireIn(t) && PlainOut(t)
  {
    SameRecordsSameFrames(s, t);
    hide Stream, Concat, DataReceived, FramesOut, FramesIn, Plaintexts;
  }

  lemma StepKeepsInv(p: Primitives, s: Session, a: Act)
    requires Lawful(p) && Inv(p, s) && Enabled(p, s, a)
    ensures Inv(p, Step(p, s, a))
  {
    hide Inv, Lawful, Judge, Established, Sealed, Opened, CanOpen, CanSeal, PopFrame, Quiet;
    match a.event
    case Handshake(env) => HandshakeKeepsInv(p, s, env);
    case Seal(plaintext) => SealKeepsInv(p, s, plaintext);
    case Open => OpenKeepsInv(p, s);
    case Fail => FailKeepsInv(p, s, Step(p, s, a));
    case Retire(_) => FailKeepsInv(p, s, Step(p, s, a));
    case _ => MovesKeepInv(p, s, a);
  }

  /** Every state of every run of a session satisfies the invariant. */
  lemma {:induction false} ReachableInv(p: Primitives, s: Session, acts: seq<Act>)
    requires Lawful(p) && Inv(p, s) && After(p, s, acts).Some?
    ensures Inv(p, After(p, s, acts).value)
    decreases |acts|
  {
    hide Inv, Lawful, Enabled, Step;
    if acts != [] {
      ReachableInv(p, s, acts[..|acts| - 1]);
      StepKeepsInv(p, After(p, s, acts[..|acts| - 1]).value, acts[|acts| - 1]);
    }
  }
}
