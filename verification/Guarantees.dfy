/** Consequences of the session invariants, over whole runs. */
module Guarantees {
  import opened Bytes
  import opened Framing
  import opened Crypto
  import opened Handshake
  import opened Session
  import opened Invariants

  /** No wire input and no local action revives a failed session, sends a byte for it or delivers one from it. */
  lemma {:induction false} FailedIsAbsorbing(p: Primitives, s: Session, acts: seq<Act>)
    requires Bounded(s) && s.fd.phase.Failed? && After(p, s, acts).Some?
    ensures var t := After(p, s, acts).value;
            t.fd.phase.Failed? && Idle(t.fd) && t.pending == [] && t.history == s.history
    decreases |acts|
  {
    if acts != [] {
      FailedIsAbsorbing(p, s, acts[..|acts| - 1]);
    }
  }

  /** The state a run passes through before its i-th action. */
  lemma {:induction false} Prefixes(p: Primitives, s: Session, acts: seq<Act>, i: nat)
    requires After(p, s, acts).Some? && i <= |acts|
    ensures After(p, s, acts[..i]).Some?
    ensures i < |acts| ==> Enabled(p, After(p, s, acts[..i]).value, acts[i])
    decreases |acts|
  {
    hide Enabled, Step;
    if i < |acts| {
      assert acts[..|acts| - 1][..i] == acts[..i];
      Prefixes(p, s, acts[..|acts| - 1], i);
    } else {
      assert acts[..i] == acts;
    }
  }

  /** Whenever the kernel is asked for bytes, no plaintext is waiting and no complete frame is buffered. */
  lemma PullsAreQuiet(p: Primitives, s: Session, acts: seq<Act>, i: nat)
    requires After(p, s, acts).Some? && i < |acts| && acts[i].event.Pull?
    ensures After(p, s, acts[..i]).Some? && Quiet(After(p, s, acts[..i]).value.fd)
  {
    Prefixes(p, s, acts, i);
  }

  /** The plaintext buffer cannot overflow: an opened record is shorter than the frame it came in. */
  lemma PlainNeverOverflows(p: Primitives, s: Session)
    requires AeadLaws(p) && Bounded(s) && s.fd.phase.Active? && PopFrame(s.fd.rxWire).Popped?
    requires OpenWith(p, s.fd.phase.keys.rx, PopFrame(s.fd.rxWire).frame.payload).Ok?
    ensures |s.fd.rxPlain| + |OpenWith(p, s.fd.phase.keys.rx, PopFrame(s.fd.rxWire).frame.payload).value.1|
         <= MAX_PLAIN_RX_BUFFER
  {
    var c := PopFrame(s.fd.rxWire).frame.payload;
    var d := s.fd.phase.keys.rx;
    assert p.open(d.key, Nonce(d.counter), c).Some?;
  }

  /** A record of at most 64 KiB always fits a frame, so framing sealed data never fails. */
  lemma DataAlwaysFits(p: Primitives, d: Direction, plaintext: bytes)
    requires AeadLaws(p) && |plaintext| <= MAX_RECORD_PLAINTEXT && d.counter < U64_MAX
    ensures SealWith(p, d, plaintext).Ok? && Fits(SealWith(p, d, plaintext).value.1)
    ensures Frame(0, TYPE_DATA, SealWith(p, d, plaintext).value.1).Some?
  {
    assert |p.seal(d.key, Nonce(d.counter), plaintext)| == |plaintext| + TAG_LEN;
  }

  /** The plaintext of the application records sealed so far. */
  function SealedText(s: Session): (ms: seq<bytes>) {
    Plaintexts(DataSealed(s))
  }

  lemma SealAppends(p: Primitives, s: Session, plaintext: bytes)
    requires Linked(p, s) && CanSeal(p, s.fd, plaintext)
    ensures SealedText(Sealed(p, s, plaintext)) == SealedText(s) + [plaintext]
    ensures DataReceived(Sealed(p, s, plaintext)) == DataReceived(s)
  {
    hide WriterEphemeral, Encode, Nonce, Fits, Plaintexts, DataOf, Confirmations;
    SnocViews(s.history.link.value.tx, s.history.sealed,
      Record(plaintext, SealWith(p, s.fd.phase.keys.tx, plaintext).value.1));
  }

  /** The i-th data record is sealed under counter i, or i + 1 where the fallback confirmation took 0. */
  predicate Consecutive(p: Primitives, t: Session) {
    var data := DataSealed(t);
    forall i :: 0 <= i < |data| ==>
      && t.history.link.Some?
      && i + Confirmations(t.history.link.value.tx) <= U64_MAX
      && data[i].ciphertext == p.seal(t.history.link.value.tx,
                                      Nonce(i + Confirmations(t.history.link.value.tx)), data[i].plaintext)
  }

  /**
   The bytes handed to the kernel are a prefix of one hello frame followed by data
   frames in seal order, under consecutive counters. The hello is of the type that the
   traffic key calls for, and a fallback responder's carries the confirmation, sealed
   under counter 0.
   */
  lemma WireGrammar(p: Primitives, s: Session, acts: seq<Act>)
    requires Lawful(p) && Inv(p, s) && After(p, s, acts).Some?
    ensures var t := After(p, s, acts).value;
            var data := DataSealed(t);
            && t.history.sent <= Stream(HelloFrames(t.history.helloOut)
                                        + DataFrames(t.fd.policySuite.Id(), Ciphertexts(data)))
            && (data != [] ==> t.history.helloOut.Some?)
            && Consecutive(p, t)
    ensures var t := After(p, s, acts).value;
            && (t.history.helloOut.Some? ==> HelloShaped(t.history.helloOut.value, t.fd.policySuite))
            && (t.history.link.Some? ==>
                  && t.history.helloOut.Some?
                  && t.history.helloOut.value.tag == HelloTag(t.history.link.value.tx)
                  && CarriesConfirmation(p, t.history.link.value.tx, t.history.helloOut.value))
  {
    hide Inv, Lawful, After, Consecutive, Stream, HelloFrames, DataFrames, Ciphertexts, DataSealed,
         HelloShaped, HelloTag, CarriesConfirmation;
    ReachableInv(p, s, acts);
    SentIsGrammatical(p, After(p, s, acts).value);
    DataIsNumbered(p, After(p, s, acts).value);
    HelloIsGrammatical(p, After(p, s, acts).value);
  }

  /** A fallback responder's hello is its nonce and the confirmation sealed under counter 0. */
  predicate CarriesConfirmation(p: Primitives, k: Key, f: Parsed) {
    Confirmations(k) == 1 ==>
      && |f.payload| >= FALLBACK_NONCE_LEN && f.payload[..FALLBACK_NONCE_LEN] == WriterEphemeral(k)
      && f.payload[FALLBACK_NONCE_LEN..] == p.seal(k, Nonce(0), FALLBACK_CONFIRM)
  }

  lemma HelloIsGrammatical(p: Primitives, t: Session)
    requires Inv(p, t)
    ensures t.history.helloOut.Some? ==> HelloShaped(t.history.helloOut.value, t.fd.policySuite)
    ensures t.history.link.Some? ==>
              && t.history.helloOut.Some?
              && t.history.helloOut.value.tag == HelloTag(t.history.link.value.tx)
              && CarriesConfirmation(p, t.history.link.value.tx, t.history.helloOut.value)
  {
    hide Bounded, Unstarted, Undowngraded, WireIn, WireOut, PlainOut, RecordsFit, WriterEphemeral, Nonce;
    if t.history.link.Some? && Confirmations(t.history.link.value.tx) == 1 {
      assert t.history.sealed[0].plaintext == FALLBACK_CONFIRM;
    }
  }

  lemma SentIsGrammatical(p: Primitives, t: Session)
    requires Inv(p, t)
    ensures t.history.sent <= Stream(FramesOut(t))
    ensures DataSealed(t) != [] ==> t.history.helloOut.Some?
  {
    hide Bounded, Unstarted, Numbered, Undowngraded, WireIn, PlainOut, RecordsFit, Introduced, FramesOut, Stream,
         WriterEphemeral;
  }

  lemma DataIsNumbered(p: Primitives, t: Session)
    requires Inv(p, t)
    ensures Consecutive(p, t)
  {
    hide Bounded, Unstarted, Undowngraded, WireIn, WireOut, PlainOut, RecordsFit, Introduced, WriterEphemeral, Nonce;
    if t.history.link.Some? {
      assert DataSealed(t) == t.history.sealed[Confirmations(t.history.link.value.tx)..];
    }
  }

  // ------------------------------- local posture decides -------------------------------

  /**
   What an outgoing connection becomes, by local configuration alone. With the control plane up it announces the
   hybrid handshake and can never be a fallback, whatever pre-shared key is configured; with it down it announces the
   fallback if there is a pre-shared key, and otherwise nothing; without a policy it is failed.
   */
  lemma ConnectPosture(p: Primitives, policy: Option<Suite>, env: Local, pid: int, epoch: nat)
    requires Lawful(p)
    ensures var s := Connect(p, policy, env, pid, epoch);
            && s.fd.ownerPid == pid && s.fd.configEpoch == epoch && (policy.Some? ==> s.fd.policySuite == policy.value)
            && (s.fd.phase.AwaitingServerHello? <==> policy.Some? && env.pqcAvailable && env.identity.Some?)
            && (s.fd.phase.AwaitingFallbackFinished? <==> policy.Some? && !env.pqcAvailable && env.psk.Some?)
            && (s.fd.phase.Failed? <==> !s.fd.phase.AwaitingServerHello? && !s.fd.phase.AwaitingFallbackFinished?)
    ensures var s := Connect(p, policy, env, pid, epoch);
            match s.fd.phase
            case AwaitingServerHello(st) =>
              && st.suite == policy.value && s.history.psk.None?
              && s.fd.txBacklog == Encode(Parsed(policy.value.Id(), TYPE_CLIENT_HELLO, st.clientHello))
            case AwaitingFallbackFinished(psk, cn) =>
              && Some(psk) == s.history.psk == env.psk && cn == env.nonce
              && s.fd.txBacklog == Encode(Parsed(FALLBACK_WIRE_ID, TYPE_FALLBACK_HELLO, cn))
            case _ => Idle(s.fd) && s.history == NO_HISTORY
  {
    if policy.Some? && env.identity.Some? {
      ClientHelloGenuine(p, policy.value, env.identity.value, env.xSecret, env.decapKey);
    }
    hide Encode, ClientHello, Lawful;
  }

  /** A socket found by its first use waits for a hello of either kind, or has failed for want of a policy. */
  lemma AdoptPosture(policy: Option<Suite>, pid: int, epoch: nat)
    ensures var s := Adopt(policy, pid, epoch);
            && s.fd.ownerPid == pid && s.fd.configEpoch == epoch && (policy.Some? ==> s.fd.policySuite == policy.value)
            && s.fd.phase == (if policy.Some? then AwaitingClientHello else Failed)
            && Idle(s.fd) && s.history == NO_HISTORY
  {
  }

  /** A waiting responder takes a fallback hello exactly when its own control plane is down and it has a key. */
  lemma FallbackAccepted(p: Primitives, s: Session, f: Parsed, env: Local)
    requires Lawful(p) && Inv(p, s) && s.fd.phase.AwaitingClientHello? && f.tag == TYPE_FALLBACK_HELLO
    ensures Judge(p, s.fd, f, env).Establish?
       <==> !env.pqcAvailable && env.psk.Some? && |f.payload| == FALLBACK_NONCE_LEN
  {
    hide Inv, Lawful, FallbackRespond, Encode;
    WaitingHoldsNothing(p, s);
    if env.psk.Some? {
      FallbackAnswers(p, env.psk.value, f.payload, env.nonce);
    }
  }

  /** The fallback answers every hello of one nonce, with a short message. */
  lemma FallbackAnswers(p: Primitives, psk: bytes, hello: bytes, nonce: FallbackNonce)
    requires Lawful(p)
    ensures FallbackRespond(p, psk, hello, nonce).Ok? <==> |hello| == FALLBACK_NONCE_LEN
    ensures |hello| == FALLBACK_NONCE_LEN ==> |FallbackRespond(p, psk, hello, nonce).value.1| <= 100
  {
    if |hello| == FALLBACK_NONCE_LEN {
      var keys := DeriveFallback(psk, hello, nonce, false);
      assert |p.seal(keys.tx.key, Nonce(0), FALLBACK_CONFIRM)| == |FALLBACK_CONFIRM| + TAG_LEN;
      hide Nonce;
    }
  }

  /** With nothing queued, a reply of any handshake can be queued. */
  lemma WaitingHoldsNothing(p: Primitives, s: Session)
    requires Inv(p, s) && s.fd.phase.AwaitingClientHello?
    ensures s.fd.txBacklog == []
  {
    hide Bounded, Numbered, Linked, Undowngraded, WireIn, PlainOut, RecordsFit, Introduced;
    assert WireOut(s) && Unstarted(p, s);
    assert FramesOut(s) == [];
  }

  /** A waiting responder takes a ClientHello exactly when it is under the pinned suite, there is an identity, and the
      hello passes that identity's checks. */
  lemma ClientHelloAccepted(p: Primitives, s: Session, f: Parsed, env: Local)
    requires Lawful(p) && Inv(p, s) && s.fd.phase.AwaitingClientHello? && f.tag == TYPE_CLIENT_HELLO
    ensures Judge(p, s.fd, f, env).Establish?
       <==> && f.suiteId == s.fd.policySuite.Id() && env.identity.Some?
            && Respond(p, s.fd.policySuite, env.identity.value, f.payload, env.xSecret, env.coins).Ok?
  {
    WaitingHoldsNothing(p, s);
    SuiteIds(f.suiteId, s.fd.policySuite);
    hide Inv;
    var suite, ch := s.fd.policySuite, f.payload;
    if env.identity.Some? && Respond(p, suite, env.identity.value, ch, env.xSecret, env.coins).Ok? {
      var (ct, ss) := p.encapsulate(suite, ch[X25519_LEN..X25519_LEN + suite.EkLen()], env.coins).value;
      ServerHelloReads(p, suite, env.identity.value, ch, env.xSecret, ct);
    }
    hide Lawful;
  }

  /** An initiator takes an answer exactly when it is a ServerHello under the pinned suite, there is an identity, and
      the answer passes that identity's checks. */
  lemma ServerHelloAccepted(p: Primitives, s: Session, f: Parsed, env: Local)
    requires s.fd.phase.AwaitingServerHello?
    ensures Judge(p, s.fd, f, env).Establish?
       <==> && f.tag == TYPE_SERVER_HELLO && f.suiteId == s.fd.policySuite.Id() && env.identity.Some?
            && Finish(p, s.fd.phase.init, env.identity.value, f.payload).Ok?
  {
    hide Finish;
  }

  /** Whether local configuration asks for the fallback: the control plane is down and there is a pre-shared key. */
  predicate AsksForFallback(a: Act) {
    a.event.Handshake? && !a.event.env.pqcAvailable && a.event.env.psk.Some?
  }

  /** The only step onto a pre-shared key is local, and the key is the one configured there. */
  lemma FallbackIsLocal(p: Primitives, s: Session, a: Act)
    requires Unstarted(p, s) && Enabled(p, s, a)
    ensures var t := Step(p, s, a);
            t.history.psk == s.history.psk || (AsksForFallback(a) && t.history.psk == a.event.env.psk)
  {
    hide PopFrame, Respond, Finish, FallbackRespond, FallbackFinish, WriterEphemeral, Encode, Stream;
  }

  /** A pre-shared key that was there at the start, or that some handshake step of the run was configured with. */
  ghost predicate Configured(acts: seq<Act>, was: Option<bytes>, psk: Option<bytes>) {
    psk == was || exists i :: 0 <= i < |acts| && AsksForFallback(acts[i]) && psk == acts[i].event.env.psk
  }

  lemma ConfiguredOnward(acts: seq<Act>, was: Option<bytes>, psk: Option<bytes>, next: Option<bytes>)
    requires acts != [] && Configured(acts[..|acts| - 1], was, psk)
    requires next == psk || (AsksForFallback(acts[|acts| - 1]) && next == acts[|acts| - 1].event.env.psk)
    ensures Configured(acts, was, next)
  {
    var before := acts[..|acts| - 1];
    if next == psk != was {
      var i :| 0 <= i < |before| && AsksForFallback(before[i]) && psk == before[i].event.env.psk;
      assert acts[i] == before[i];
    }
  }

  lemma StillConfigured(acts: seq<Act>, psk: Option<bytes>)
    ensures Configured(acts, psk, psk)
  {
  }

  lemma {:induction false} PskIsConfigured(p: Primitives, s: Session, acts: seq<Act>)
    requires Lawful(p) && Inv(p, s) && After(p, s, acts).Some?
    ensures Configured(acts, s.history.psk, After(p, s, acts).value.history.psk)
    decreases |acts|
  {
    hide Inv, Lawful, Enabled, Step, Configured;
    if acts == [] {
      StillConfigured(acts, s.history.psk);
    } else {
      var before := acts[..|acts| - 1];
      var u := After(p, s, before).value;
      PskIsConfigured(p, s, before);
      ReachableInv(p, s, before);
      UnstartedOf(p, u);
      FallbackIsLocal(p, u, acts[|acts| - 1]);
      ConfiguredOnward(acts, s.history.psk, u.history.psk, After(p, s, acts).value.history.psk);
    }
  }

  /**
   Where the keys of a session come from, in every run: from the pinned suite, or from a pre-shared key which the
   session was built with or which was configured, with the control plane down, when it accepted a fallback hello.
   */
  lemma KeysComeFromConfiguration(p: Primitives, s: Session, acts: seq<Act>)
    requires Lawful(p) && Inv(p, s) && After(p, s, acts).Some?
    ensures var t := After(p, s, acts).value;
            && (t.history.psk == s.history.psk
                || exists i :: 0 <= i < |acts| && AsksForFallback(acts[i]) && t.history.psk == acts[i].event.env.psk)
            && (t.history.link.Some? ==> RightSource(t.history.link.value.tx, t.fd.policySuite, t.history.psk))
  {
    PskIsConfigured(p, s, acts);
    ReachableInv(p, s, acts);
    hide After, Lawful, Bounded, Numbered, Linked, WireOut, WireIn, PlainOut, RecordsFit, Introduced, Unstarted,
         RightSource, AsksForFallback;
  }

  /**
   No bytes from the network can move a session onto fallback keys: if it was not built for the fallback and, at
   every handshake step, the control plane was up or there was no pre-shared key, its keys are always those of its
   pinned suite.
   */
  lemma NoDowngradeFromTheWire(p: Primitives, s: Session, acts: seq<Act>)
    requires Lawful(p) && Inv(p, s) && After(p, s, acts).Some?
    requires s.history.psk.None?
    requires forall i :: 0 <= i < |acts| && acts[i].event.Handshake? ==>
               acts[i].event.env.pqcAvailable || acts[i].event.env.psk.None?
    ensures var t := After(p, s, acts).value;
            && t.history.psk.None?
            && (t.history.link.Some? ==> t.history.link.value.tx.suiteId == t.fd.policySuite.Id())
  {
    KeysComeFromConfiguration(p, s, acts);
  }
}
