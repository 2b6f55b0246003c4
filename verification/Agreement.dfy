/** Who answered whom: what a completed handshake says about the other side, over every run. */
module Agreement {
  import opened Bytes
  import opened Framing
  import opened Crypto
  import opened Handshake
  import opened Session
  import opened Invariants
  import opened Network

  // ---------------------------------- what is kept ----------------------------------

  function AnswerTo(p: Primitives, g: Signing): Result<(SessionKeys, bytes), CryptoError>
    requires g.Answered?
  {
    Respond(p, g.suite, g.id, g.clientHello, g.xSecret, g.coins)
  }

  function HelloOf(p: Primitives, g: Signing): bytes
    requires g.Sent?
  {
    ClientHello(p, g.suite, g.id, g.xSecret, g.decapKey).clientHello
  }

  function PublicKeys(p: Primitives, id: Identity): bytes {
    p.edPublic(id.edSeed) + p.mlPublic(id.mlSeed)
  }

  /** The session that signed is the one that really sent, or really answered. */
  predicate SigningOk(p: Primitives, w: World, g: Signing) {
    && Owned(w, g.owner)
    && var s := w.sessions[g.owner];
    && s.fd.policySuite == g.suite
    && match g
       case Sent(_, suite, _, _, _) =>
         s.history.helloOut == Some(Parsed(suite.Id(), TYPE_CLIENT_HELLO, HelloOf(p, g)))
       case Answered(_, _, _, ch, _, _) =>
         && AnswerTo(p, g).Ok?
         && var (keys, hello) := AnswerTo(p, g).value;
         && s.history.link == Some(Link(keys.tx.key, keys.rx.key))
         && s.history.helloIn.Some? && s.history.helloIn.value.payload == ch
         && s.history.helloOut.Some? && s.history.helloOut.value.payload == hello
  }

  ghost predicate SigningsSound(p: Primitives, w: World) {
    forall g :: g in w.signings ==> SigningOk(p, w, g)
  }

  /** `g` is the answer the initiator `s` accepted: same hellos, mirrored keys, trusted identity. */
  predicate AnsweredBy(p: Primitives, s: Session, g: Signing) {
    && g.Answered? && AnswerTo(p, g).Ok?
    && s.history.link.Some? && s.history.helloOut.Some? && s.history.helloIn.Some?
    && var (keys, hello) := AnswerTo(p, g).value;
    && g.suite == s.fd.policySuite
    && g.clientHello == s.history.helloOut.value.payload
    && hello == s.history.helloIn.value.payload
    && s.history.link.value == Link(keys.rx.key, keys.tx.key)
    && PublicKeys(p, g.id) == s.history.peer
  }

  /** `g` sent the ClientHello the responder `s` accepted. */
  predicate GreetedBy(p: Primitives, s: Session, g: Signing) {
    && g.Sent?
    && s.history.helloIn.Some?
    && g.suite == s.fd.policySuite
    && HelloOf(p, g) == s.history.helloIn.value.payload
    && PublicKeys(p, g.id) == s.history.peer
  }

  predicate HybridInitiator(s: Session) {
    s.history.link.Some? && s.history.link.value.tx.half.ClientToServer?
      && s.history.link.value.tx.suiteId != FALLBACK_SUITE_ID
  }

  predicate HybridResponder(s: Session) {
    s.history.link.Some? && s.history.link.value.tx.half.ServerToClient?
      && s.history.link.value.tx.suiteId != FALLBACK_SUITE_ID
  }

  ghost predicate Authenticated(p: Primitives, w: World, s: Session) {
    && (HybridInitiator(s) ==> exists g :: g in w.signings && AnsweredBy(p, s, g))
    && (HybridResponder(s) ==> exists g :: g in w.signings && GreetedBy(p, s, g))
  }

  ghost predicate AllAuthenticated(p: Primitives, w: World) {
    forall sid :: sid in w.sessions ==> Authenticated(p, w, w.sessions[sid])
  }

  ghost predicate Trustworthy(p: Primitives, w: World) {
    SigningsSound(p, w) && AllAuthenticated(p, w)
  }

  // ----------------------------- one authenticated hello -----------------------------

  /** A body is its unsigned part and the four identity fields it splits into. */
  lemma BodyFromFields(body: bytes, start: nat, unsignedLen: nat)
    requires unsignedLen == start + IDENTITY_PUBLIC_LEN && SplitIdentityFields(body, start).Ok?
    ensures unsignedLen <= |body|
    ensures var x := SplitIdentityFields(body, start).value;
            body == body[..unsignedLen] + (x.edSig + x.mlSig)
  {
    var x := SplitIdentityFields(body, start).value;
    assert body[unsignedLen..] == x.edSig + x.mlSig;
  }

  /**
   If what the initiator authenticated was signed on some occasion, that occasion was
   the answer to its own ClientHello with exactly this ServerHello, and the keys are
   mirrored.
   */
  lemma FinishPinsAnswer(p: Primitives, st: InitState, id: Identity, sh: bytes, g: Signing)
    requires Lawful(p) && Genuine(p, st) && Finish(p, st, id, sh).Ok?
    requires g.Answered? ==> AnswerTo(p, g).Ok?
    requires var x := SplitIdentityFields(sh, X25519_LEN + st.suite.CtLen()).value;
             Signature(p, g) == Claim(x.edPub, x.mlPub,
                                      ServerAuthMessage(st.suite.Id(), st.clientHello,
                                        sh[..ServerUnsignedLen(st.suite)]),
                                      x.edSig, x.mlSig)
    ensures g.Answered? && g.suite == st.suite && g.clientHello == st.clientHello
    ensures AnswerTo(p, g).value.1 == sh
    ensures Mirrored(Finish(p, st, id, sh).value, AnswerTo(p, g).value.0)
    ensures PublicKeys(p, g.id) == PeerOf(id)
  {
    var s := st.suite;
    var x := SplitIdentityFields(sh, X25519_LEN + s.CtLen()).value;
    var message := ServerAuthMessage(s.Id(), st.clientHello, sh[..ServerUnsignedLen(s)]);
    if g.Sent? {
      DomainsSeparate(g.suite.Id(), ClientUnsigned(p, g.suite, g.id, g.xSecret, g.decapKey), s.Id(), st.clientHello,
                      sh[..ServerUnsignedLen(s)], [], []);
      assert false;
    }
    AnswerIsServerHello(p, g);
    var unsigned := ServerUnsigned(p, g.id, g.xSecret, KemCiphertext(p, g));
    ServerAuthUnambiguous(s, st.clientHello, sh[..ServerUnsignedLen(s)], g.suite, g.clientHello, unsigned);
    BodyFromFields(sh, X25519_LEN + s.CtLen(), ServerUnsignedLen(s));
    assert AnswerTo(p, g).value.1 == unsigned + (x.edSig + x.mlSig);
    AnswerMirrorsKeys(p, st, id, g.id, g.xSecret, g.coins);
  }

  lemma AnswerIsServerHello(p: Primitives, g: Signing)
    requires g.Answered? && AnswerTo(p, g).Ok?
    ensures |g.clientHello| == ClientHelloLen(g.suite)
    ensures var unsigned := ServerUnsigned(p, g.id, g.xSecret, KemCiphertext(p, g));
            AnswerTo(p, g).value.1
            == unsigned + Signatures(p, g.id, ServerAuthMessage(g.suite.Id(), g.clientHello, unsigned))
  {
  }

  /** If what the responder authenticated was signed on some occasion, that was the sending of exactly this
      ClientHello. */
  lemma RespondPinsHello(p: Primitives, s: Suite, id: Identity, ch: bytes, xSecret: bytes, coins: bytes, g: Signing)
    requires Lawful(p) && Respond(p, s, id, ch, xSecret, coins).Ok?
    requires var x := SplitIdentityFields(ch, X25519_LEN + s.EkLen()).value;
             Signature(p, g) == Claim(x.edPub, x.mlPub, ClientAuthMessage(s.Id(), ch[..ClientUnsignedLen(s)]), x.edSig,
               x.mlSig)
    ensures g.Sent? && g.suite == s && HelloOf(p, g) == ch
    ensures PublicKeys(p, g.id) == PeerOf(id)
  {
    var x := SplitIdentityFields(ch, X25519_LEN + s.EkLen()).value;
    if g.Answered? {
      DomainsSeparate(s.Id(), ch[..ClientUnsignedLen(s)], g.suite.Id(), g.clientHello,
                      ServerUnsigned(p, g.id, g.xSecret, KemCiphertext(p, g)), [], []);
      assert false;
    }
    ClientAuthUnambiguous(s, ch[..ClientUnsignedLen(s)], g.suite,
      ClientUnsigned(p, g.suite, g.id, g.xSecret, g.decapKey));
    BodyFromFields(ch, X25519_LEN + s.EkLen(), ClientUnsignedLen(s));
  }

  // --------------------------- a handshake step in the world ---------------------------

  /** What an initiator accepts verifies as a claim. */
  lemma AnswerVerifies(p: Primitives, st: InitState, id: Identity, sh: bytes)
    requires Finish(p, st, id, sh).Ok? && SplitIdentityFields(sh, X25519_LEN + st.suite.CtLen()).Ok?
    ensures var x := SplitIdentityFields(sh, X25519_LEN + st.suite.CtLen()).value;
            var message := ServerAuthMessage(st.suite.Id(), st.clientHello, sh[..ServerUnsignedLen(st.suite)]);
            p.edVerify(x.edPub, message, x.edSig) && p.mlVerify(x.mlPub, message, x.mlSig)
  {
  }

  /** What a responder accepts verifies as a claim. */
  lemma HelloVerifies(p: Primitives, s: Suite, id: Identity, ch: bytes, xSecret: bytes, coins: bytes)
    requires Respond(p, s, id, ch, xSecret, coins).Ok? && SplitIdentityFields(ch, X25519_LEN + s.EkLen()).Ok?
    ensures var x := SplitIdentityFields(ch, X25519_LEN + s.EkLen()).value;
            var message := ClientAuthMessage(s.Id(), ch[..ClientUnsignedLen(s)]);
            p.edVerify(x.edPub, message, x.edSig) && p.mlVerify(x.mlPub, message, x.mlSig)
  {
  }

  lemma AnsweringSigning(p: Primitives, w: World, st: InitState, id: Identity, sh: bytes) returns (g: Signing)
    requires Lawful(p) && SigningsSound(p, w) && Genuine(p, st) && Finish(p, st, id, sh).Ok?
    requires SplitIdentityFields(sh, X25519_LEN + st.suite.CtLen()).Ok?
    requires var x := SplitIdentityFields(sh, X25519_LEN + st.suite.CtLen()).value;
             Undisputed(p, w, Claim(x.edPub, x.mlPub,
                                    ServerAuthMessage(st.suite.Id(), st.clientHello, sh[..ServerUnsignedLen(st.suite)]),
                                    x.edSig, x.mlSig))
    ensures g in w.signings && g.Answered? && g.suite == st.suite && g.clientHello == st.clientHello
    ensures AnswerTo(p, g).Ok? && AnswerTo(p, g).value.1 == sh
    ensures Mirrored(Finish(p, st, id, sh).value, AnswerTo(p, g).value.0)
    ensures PublicKeys(p, g.id) == PeerOf(id)
  {
    AnswerVerifies(p, st, id, sh);
    hide Lawful, Genuine, Finish, Respond, Signature;
    var x := SplitIdentityFields(sh, X25519_LEN + st.suite.CtLen()).value;
    g :| g in w.signings && Signature(p, g) == Claim(x.edPub, x.mlPub,
                                   ServerAuthMessage(st.suite.Id(), st.clientHello, sh[..ServerUnsignedLen(st.suite)]),
                                   x.edSig, x.mlSig);
    assert SigningOk(p, w, g);
    FinishPinsAnswer(p, st, id, sh, g);
  }

  lemma AcceptsAnswer(p: Primitives, w: World, s: Session, f: Parsed, rest: bytes, env: Local)
    requires Lawful(p) && SigningsSound(p, w) && Unstarted(p, s)
    requires s.fd.phase.AwaitingServerHello? && f.tag == TYPE_SERVER_HELLO
    requires JudgeServerHello(p, s.fd, s.fd.phase.init, f, env).Establish?
    requires ClaimOf(s.fd, f, env).Some? ==> Undisputed(p, w, ClaimOf(s.fd, f, env).value)
    ensures Authenticated(p, w, Established(s, f, rest, JudgeServerHello(p, s.fd, s.fd.phase.init, f, env)))
  {
    hide Lawful, Genuine, Respond, Stream, Undisputed, SigningsSound;
    var st, id := s.fd.phase.init, env.identity.value;
    var v := JudgeServerHello(p, s.fd, st, f, env);
    var t := Established(s, f, rest, v);
    assert SplitIdentityFields(f.payload, X25519_LEN + st.suite.CtLen()).Ok?;
    var g := AnsweringSigning(p, w, st, id, f.payload);
    assert !HybridResponder(t);
    hide Finish;
    assert AnsweredBy(p, t, g);
  }

  lemma AcceptsHello(p: Primitives, w: World, s: Session, f: Parsed, rest: bytes, env: Local)
    requires Lawful(p)
    requires s.fd.phase.AwaitingClientHello? && f.tag == TYPE_CLIENT_HELLO
    requires JudgeClientHello(p, s.fd, f, env).Establish?
    requires ClaimOf(s.fd, f, env).Some? ==> Undisputed(p, w, ClaimOf(s.fd, f, env).value)
    ensures Authenticated(p, w, Established(s, f, rest, JudgeClientHello(p, s.fd, f, env)))
  {
    var id, suite := env.identity.value, s.fd.policySuite;
    var v := JudgeClientHello(p, s.fd, f, env);
    var t := Established(s, f, rest, v);
    assert Respond(p, suite, id, f.payload, env.xSecret, env.coins).Ok?;
    assert SplitIdentityFields(f.payload, X25519_LEN + suite.EkLen()).Ok?;
    HelloVerifies(p, suite, id, f.payload, env.xSecret, env.coins);
    var g :| g in w.signings && Signature(p, g) == ClaimOf(s.fd, f, env).value;
    RespondPinsHello(p, suite, id, f.payload, env.xSecret, env.coins, g);
    assert !HybridInitiator(t);
    hide Signature, Lawful, Respond, Stream, WasSigned, ClaimOf, ClientHello;
    assert GreetedBy(p, t, g);
  }

  lemma FallbackIsNotHybrid(p: Primitives, s: Session, f: Parsed, rest: bytes, env: Local)
    requires Judge(p, s.fd, f, env).Establish?
    requires f.tag == TYPE_FALLBACK_HELLO || f.tag == TYPE_FALLBACK_FINISHED
    ensures var t := Established(s, f, rest, Judge(p, s.fd, f, env));
            !HybridInitiator(t) && !HybridResponder(t)
  {
    hide Respond, Finish, Stream, Encode, Nonce;
  }

  lemma HandshakeAuthenticates(p: Primitives, w: World, s: Session, f: Parsed, rest: bytes, env: Local)
    requires Lawful(p) && SigningsSound(p, w) && Unstarted(p, s)
    requires Judge(p, s.fd, f, env).Establish?
    requires ClaimOf(s.fd, f, env).Some? ==> Undisputed(p, w, ClaimOf(s.fd, f, env).value)
    ensures Authenticated(p, w, Established(s, f, rest, Judge(p, s.fd, f, env)))
  {
    hide Lawful, SigningsSound, Unstarted, Authenticated, Established, ClaimOf, Undisputed, JudgeClientHello,
         JudgeFallbackHello, JudgeServerHello, JudgeFallbackFinished;
    match s.fd.phase
    case AwaitingClientHello =>
      if f.tag == TYPE_CLIENT_HELLO {
        AcceptsHello(p, w, s, f, rest, env);
      } else {
        FallbackIsNotHybrid(p, s, f, rest, env);
        NotHybridIsFine(p, w, Established(s, f, rest, Judge(p, s.fd, f, env)));
      }
    case AwaitingServerHello(_) => AcceptsAnswer(p, w, s, f, rest, env);
    case AwaitingFallbackFinished(_, _) =>
      FallbackIsNotHybrid(p, s, f, rest, env);
      NotHybridIsFine(p, w, Established(s, f, rest, Judge(p, s.fd, f, env)));
  }

  lemma NotHybridIsFine(p: Primitives, w: World, s: Session)
    requires !HybridInitiator(s) && !HybridResponder(s)
    ensures Authenticated(p, w, s)
  {
  }

  /** Authentication outlives growth of the session and of the record of signings. */
  lemma AuthenticationLasts(p: Primitives, w: World, v: World, s: Session, t: Session)
    requires Authenticated(p, w, s) && w.signings <= v.signings
    requires t.fd.policySuite == s.fd.policySuite
    requires t.history.link == s.history.link && t.history.helloIn == s.history.helloIn
    requires t.history.helloOut == s.history.helloOut && t.history.peer == s.history.peer
    ensures Authenticated(p, v, t)
  {
    hide Respond, ClientHello;
    if HybridInitiator(s) {
      var g :| g in w.signings && AnsweredBy(p, s, g);
      assert AnsweredBy(p, t, g);
    }
    if HybridResponder(s) {
      var g :| g in w.signings && GreetedBy(p, s, g);
      assert GreetedBy(p, t, g);
    }
  }

  /** Links appear only in handshakes. */
  lemma LinksComeFromHandshakes(p: Primitives, s: Session, a: Act)
    requires Enabled(p, s, a) && !a.event.Handshake?
    ensures var t := Step(p, s, a);
            && t.history.link == s.history.link && t.history.helloIn == s.history.helloIn
            && t.history.helloOut == s.history.helloOut && t.history.peer == s.history.peer
            && t.fd.policySuite == s.fd.policySuite
  {
    hide PopFrame, Judge, Encode, Nonce, OpenWith, SealWith;
  }

  lemma DoAuthenticates(p: Primitives, w: World, sid: Sid, e: Event)
    requires Lawful(p) && Good(p, w) && Trustworthy(p, w) && Possible(p, w, Do(sid, e))
    ensures Authenticated(p, Next(p, w, Do(sid, e)), Next(p, w, Do(sid, e)).sessions[sid])
  {
    var s, v := w.sessions[sid], Next(p, w, Do(sid, e));
    var t := Step(p, s, Act(sid.pid, e));
    assert v.sessions[sid] == t && w.signings <= v.signings;
    assert Authenticated(p, w, s);
    if e.Handshake? {
      assert Inv(p, s);
      UnstartedOf(p, s);
      var Popped(f, rest) := PopFrame(s.fd.rxWire);
      assert t == Established(s, f, rest, Judge(p, s.fd, f, e.env));
      hide Next, Good, AllAuthenticated, Lawful, SigningsSound, Unstarted, Authenticated, Established, ClaimOf,
           Undisputed, Judge, Step, PopFrame, Inv;
      HandshakeAuthenticates(p, w, s, f, rest, e.env);
      AuthenticationLasts(p, w, v, t, t);
    } else {
      LinksComeFromHandshakes(p, s, Act(sid.pid, e));
      hide Next, Good, Trustworthy, Lawful, Authenticated, Step, PopFrame, Inv, Possible;
      AuthenticationLasts(p, w, v, s, t);
    }
  }

  // ------------------------------- every act keeps it -------------------------------

  /** A signing on record stays a true account of its session. */
  lemma SigningLasts(p: Primitives, w: World, v: World, g: Signing)
    requires SigningOk(p, w, g) && g.owner in v.sessions && Grows(w.sessions[g.owner], v.sessions[g.owner])
    ensures SigningOk(p, v, g)
  {
    hide Respond, ClientHello;
  }

  lemma NewSigningOk(p: Primitives, w: World, sid: Sid, e: Event, g: Signing)
    requires Possible(p, w, Do(sid, e)) && g in NewSignings(sid, w.sessions[sid], e)
    ensures SigningOk(p, Next(p, w, Do(sid, e)), g)
  {
    var s, v := w.sessions[sid], Next(p, w, Do(sid, e));
    var f := PopFrame(s.fd.rxWire).frame;
    hide Respond, PopFrame, Stream, Encode, NewSeals, Ideal, Connect, Adopt, Inherited, CanQueue;
    assert v.sessions[sid] == Established(s, f, PopFrame(s.fd.rxWire).rest, JudgeClientHello(p, s.fd, f, e.env));
  }

  lemma AdvanceKeepsTrust(p: Primitives, w: World, v: World, sid: Sid)
    requires Trustworthy(p, w) && sid in w.sessions && sid in v.sessions && Grows(w.sessions[sid], v.sessions[sid])
    requires v.sessions == w.sessions[sid := v.sessions[sid]] && w.signings <= v.signings
    requires forall g :: g in v.signings && g !in w.signings ==> SigningOk(p, v, g)
    requires Authenticated(p, v, v.sessions[sid])
    ensures Trustworthy(p, v)
  {
    hide Authenticated, SigningOk, Grows;
    forall g | g in w.signings
      ensures SigningOk(p, v, g)
    {
      SigningOwner(p, w, g);
      GrowsReflexive(w.sessions[g.owner]);
      SigningLasts(p, w, v, g);
    }
    forall x | x in v.sessions && x != sid
      ensures Authenticated(p, v, v.sessions[x])
    {
      AuthenticationLasts(p, w, v, w.sessions[x], v.sessions[x]);
    }
  }

  lemma DoKeepsTrust(p: Primitives, w: World, sid: Sid, e: Event)
    requires Lawful(p) && Good(p, w) && Trustworthy(p, w) && Possible(p, w, Do(sid, e))
    ensures Trustworthy(p, Next(p, w, Do(sid, e)))
  {
    hide Good, Lawful, Trustworthy, Authenticated, SigningOk, NewSignings, NewSeals, Grows, Step, Connect, Adopt,
         Inherited, Ideal, Enabled;
    var s, v := w.sessions[sid], Next(p, w, Do(sid, e));
    assert v.signings == w.signings + NewSignings(sid, s, e);
    DoAdvances(p, w, sid, e);
    DoAuthenticates(p, w, sid, e);
    hide Next;
    forall g | g in v.signings && g !in w.signings
      ensures SigningOk(p, v, g)
    {
      NewSigningOk(p, w, sid, e, g);
    }
    AdvanceKeepsTrust(p, w, v, sid);
  }

  lemma SigningOwner(p: Primitives, w: World, g: Signing)
    requires SigningOk(p, w, g)
    ensures g.owner in w.sessions
  {
    hide Respond, ClientHello;
  }

  lemma GrowsReflexive(s: Session)
    ensures Grows(s, s)
  {
  }

  /** Adding states that are not linked yet, or copies of linked ones, keeps trust. */
  lemma MoreSessionsKeepTrust(p: Primitives, w: World, v: World)
    requires Trustworthy(p, w)
    requires forall sid :: sid in w.sessions ==> sid in v.sessions && v.sessions[sid] == w.sessions[sid]
    requires forall sid :: sid in v.sessions && sid !in w.sessions
              ==> v.sessions[sid].history.link.None? || v.sessions[sid] in w.sessions.Values
    requires w.signings <= v.signings
    requires forall g :: g in v.signings && g !in w.signings ==> SigningOk(p, v, g)
    ensures Trustworthy(p, v)
  {
    hide SigningOk, Authenticated, Grows;
    forall g | g in w.signings
      ensures SigningOk(p, v, g)
    {
      SigningOwner(p, w, g);
      GrowsReflexive(w.sessions[g.owner]);
      SigningLasts(p, w, v, g);
    }
    forall sid | sid in v.sessions
      ensures Authenticated(p, v, v.sessions[sid])
    {
      if v.sessions[sid].history.link.None? {
        NotHybridIsFine(p, v, v.sessions[sid]);
      } else {
        assert v.sessions[sid] in w.sessions.Values;
        AuthenticationLasts(p, w, v, v.sessions[sid], v.sessions[sid]);
      }
    }
  }

  lemma InstallKeepsTrust(p: Primitives, w: World, sid: Sid, policy: Option<Suite>, env: Local, epoch: nat)
    requires Trustworthy(p, w) && Possible(p, w, Install(sid, policy, env, epoch))
    ensures Trustworthy(p, Next(p, w, Install(sid, policy, env, epoch)))
  {
    var v := Next(p, w, Install(sid, policy, env, epoch));
    hide ClientHello, Encode;
    forall g | g in v.signings && g !in w.signings
      ensures SigningOk(p, v, g)
    {
    }
    hide Trustworthy, Next, SigningOk;
    MoreSessionsKeepTrust(p, w, v);
  }

  lemma TrackKeepsTrust(p: Primitives, w: World, sid: Sid, policy: Option<Suite>, epoch: nat)
    requires Trustworthy(p, w) && Possible(p, w, Track(sid, policy, epoch))
    ensures Trustworthy(p, Next(p, w, Track(sid, policy, epoch)))
  {
    hide Trustworthy, SigningOk, Connect;
    MoreSessionsKeepTrust(p, w, Next(p, w, Track(sid, policy, epoch)));
  }

  lemma ForkKeepsTrust(p: Primitives, w: World, parent: int, child: int)
    requires Good(p, w) && Trustworthy(p, w) && Possible(p, w, Fork(parent, child))
    ensures Trustworthy(p, Next(p, w, Fork(parent, child)))
  {
    hide Trustworthy, SigningOk, Connect, Inv, Distinct, LogSound, ReceivedLogged;
    MoreSessionsKeepTrust(p, w, Next(p, w, Fork(parent, child)));
  }

  lemma NextKeepsTrust(p: Primitives, w: World, a: WorldAct)
    requires Lawful(p) && Good(p, w) && Trustworthy(p, w) && Possible(p, w, a)
    ensures Trustworthy(p, Next(p, w, a))
  {
    hide Lawful, Good, Trustworthy, Possible, Next;
    match a
    case Do(sid, e) => DoKeepsTrust(p, w, sid, e);
    case Fork(parent, child) => ForkKeepsTrust(p, w, parent, child);
    case Install(sid, policy, env, epoch) => InstallKeepsTrust(p, w, sid, policy, env, epoch);
    case Track(sid, policy, epoch) => TrackKeepsTrust(p, w, sid, policy, epoch);
  }

  lemma {:induction false} RunIsTrustworthy(p: Primitives, pid: int, acts: seq<WorldAct>)
    requires Lawful(p) && Run(p, pid, acts).Some?
    ensures Trustworthy(p, Run(p, pid, acts).value)
    decreases |acts|
  {
    if acts != [] {
      hide Good, Next, Possible, Lawful, Trustworthy;
      RunIsTrustworthy(p, pid, acts[..|acts| - 1]);
      RunIsGood(p, pid, acts[..|acts| - 1]);
      NextKeepsTrust(p, Run(p, pid, acts[..|acts| - 1]).value, acts[|acts| - 1]);
    }
  }

  // ----------------------------------- agreement -----------------------------------

  /**
   Handshake agreement. An initiator with hybrid keys was answered by a session of the
   identity it trusts, which received exactly its ClientHello, sent exactly the
   ServerHello it accepted, and holds the mirrored traffic keys, counters and exported
   kernel TLS material included.
   */
  lemma HandshakeAgreement(p: Primitives, pid: int, acts: seq<WorldAct>, sid: Sid) returns (g: Signing)
    requires Lawful(p) && Run(p, pid, acts).Some? && sid in Run(p, pid, acts).value.sessions
    requires HybridInitiator(Run(p, pid, acts).value.sessions[sid])
    ensures var w := Run(p, pid, acts).value;
            var s := w.sessions[sid];
            && g in w.signings && g.Answered? && Owned(w, g.owner) && PublicKeys(p, g.id) == s.history.peer
            && var t := w.sessions[g.owner];
            && s.history.helloOut.Some? && s.history.helloIn.Some?
            && t.history.helloOut.Some? && t.history.helloIn.Some?
            && t.history.helloIn.value.payload == s.history.helloOut.value.payload
            && t.history.helloOut.value.payload == s.history.helloIn.value.payload
            && t.fd.policySuite == s.fd.policySuite
            && t.history.link == Some(Link(s.history.link.value.rx, s.history.link.value.tx))
    ensures var w := Run(p, pid, acts).value;
            var mine, theirs := FirstKeys(w.sessions[sid].history.link.value),
              FirstKeys(w.sessions[g.owner].history.link.value);
            && AeadLaws(p) && Mirrored(mine, theirs) && mine.tx.counter == 0 && mine.rx.counter == 0
            && ExportKtls(p, mine.tx) == ExportKtls(p, theirs.rx) && ExportKtls(p, mine.rx) == ExportKtls(p, theirs.tx)
  {
    RunIsTrustworthy(p, pid, acts);
    RunIsGood(p, pid, acts);
    var w := Run(p, pid, acts).value;
    assert AeadLaws(p) && Inv(p, w.sessions[sid]);
    HybridStartsAtZero(p, w.sessions[sid]);
    hide Run, Respond, Lawful, Inv, AeadLaws, Good;
    assert Authenticated(p, w, w.sessions[sid]);
    g :| g in w.signings && AnsweredBy(p, w.sessions[sid], g);
    assert SigningOk(p, w, g);
    MirroredKtls(p, FirstKeys(w.sessions[sid].history.link.value), FirstKeys(w.sessions[g.owner].history.link.value));
  }

  lemma HybridStartsAtZero(p: Primitives, s: Session)
    requires Inv(p, s) && (HybridInitiator(s) || HybridResponder(s))
    ensures var keys := FirstKeys(s.history.link.value); keys.tx.counter == 0 && keys.rx.counter == 0
  {
    hide Bounded, Unstarted, Numbered, Undowngraded, WireIn, WireOut, PlainOut, RecordsFit, Introduced, WriterEphemeral;
  }

  /** A responder with hybrid keys accepted a ClientHello that its trusted peer really sent, suite and all. */
  lemma ClientAuthentication(p: Primitives, pid: int, acts: seq<WorldAct>, sid: Sid) returns (g: Signing)
    requires Lawful(p) && Run(p, pid, acts).Some? && sid in Run(p, pid, acts).value.sessions
    requires HybridResponder(Run(p, pid, acts).value.sessions[sid])
    ensures var w := Run(p, pid, acts).value;
            var s := w.sessions[sid];
            && g in w.signings && g.Sent? && Owned(w, g.owner) && PublicKeys(p, g.id) == s.history.peer
            && var t := w.sessions[g.owner];
            && s.history.helloIn.Some? && t.history.helloOut.Some?
            && t.history.helloOut.value.tag == TYPE_CLIENT_HELLO
            && t.history.helloOut.value.payload == s.history.helloIn.value.payload
            && t.fd.policySuite == s.fd.policySuite
  {
    RunIsTrustworthy(p, pid, acts);
    hide Run, ClientHello, Lawful;
    var w := Run(p, pid, acts).value;
    assert Authenticated(p, w, w.sessions[sid]);
    g :| g in w.signings && GreetedBy(p, w.sessions[sid], g);
    assert SigningOk(p, w, g);
  }
}
