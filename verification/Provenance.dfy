/**
 Who is at the other end: which identity the delivered bytes come from, and why two ends of a
 connection that keeps bytes in order hold each other's keys. Over every run of the network.
 */
module Provenance {
  import opened Bytes
  import opened Framing
  import opened Crypto
  import opened Handshake
  import opened Session
  import opened Invariants
  import opened Guarantees
  import opened Channel
  import opened Policies
  import opened Network
  import opened Security
  import opened Agreement

  // ------------------------------------ the key's writer ------------------------------------

  /** A session reads under a key whose writer opened with the ephemeral of the hello it accepted. */
  lemma HelloEphemerals(p: Primitives, s: Session)
    requires Inv(p, s) && s.history.link.Some?
    ensures s.history.helloIn.Some? && s.history.helloOut.Some?
    ensures s.history.ephemeral == Some(WriterEphemeral(s.history.link.value.tx))
              == Some(Lead(s.history.helloOut.value))
    ensures WriterEphemeral(s.history.link.value.rx) == Lead(s.history.helloIn.value)
    ensures s.history.helloOut.value.tag == HelloTag(s.history.link.value.tx)
    ensures s.history.helloIn.value.tag == HelloTag(s.history.link.value.rx)
    ensures s.history.link.value.rx == Twin(s.history.link.value.tx)
  {
    hide Bounded, Unstarted, Numbered, Undowngraded, WireIn, WireOut, PlainOut, RecordsFit, WriterEphemeral, Lead,
         HelloTag, HelloShaped, Confirmed, Twin;
  }

  /** One ephemeral names one owner. */
  lemma EphemeralNamesOwner(w: World, a: Sid, b: Sid)
    requires Distinct(w) && Owned(w, a) && Owned(w, b)
    requires w.sessions[a].history.ephemeral.Some? && w.sessions[a].history.ephemeral == w.sessions[b].history.ephemeral
    ensures a == b
  {
    assert Ephemeral(w, a) == Ephemeral(w, b);
  }

  // -------------------------------- the fallback's agreement --------------------------------

  predicate FallbackInitiated(s: Session) {
    && s.history.link.Some?
    && s.history.link.value.tx.half.ClientToServer? && s.history.link.value.tx.suiteId == FALLBACK_SUITE_ID
  }

  /**
   An initiator with fallback keys was answered by one session, which holds the mirrored
   keys, saw its nonce, sent exactly the confirmation it accepted, and chose the same
   pre-shared key.
   */
  lemma FallbackAgreement(p: Primitives, pid: int, acts: seq<WorldAct>, sid: Sid) returns (peer: Sid)
    requires Lawful(p) && Run(p, pid, acts).Some? && sid in Run(p, pid, acts).value.sessions
    requires FallbackInitiated(Run(p, pid, acts).value.sessions[sid])
    ensures var w := Run(p, pid, acts).value;
            var s := w.sessions[sid];
            && Owned(w, peer) && Peers(s, w.sessions[peer])
            && SameFallback(s, w.sessions[peer])
            && s.history.psk == w.sessions[peer].history.psk == Some(s.history.link.value.tx.ikm)
  {
    RunIsGood(p, pid, acts);
    var w := Run(p, pid, acts).value;
    var s := w.sessions[sid];
    assert Inv(p, s);
    hide Run, Inv, Lawful, Distinct, LogSound, ReceivedLogged;
    ConfirmationReceived(p, s);
    assert ReceivedOk(w, sid, 0) by { AllReceivedLogged(p, w, sid); }
    peer := w.seals[(s.history.link.value.rx, 0)].owner;
    ReceivedFromOneOwner(p, w, sid, peer);
    assert Inv(p, w.sessions[peer]);
    hide Good, Locals, ReceivedOk;
    DataFromPeer(p, s, w.sessions[peer]);
    ConfirmedAlike(p, s, w.sessions[peer]);
    SamePsk(p, s, w.sessions[peer]);
  }

  lemma SamePsk(p: Primitives, s: Session, t: Session)
    requires Inv(p, s) && Inv(p, t) && FallbackInitiated(s) && Peers(s, t)
    ensures s.history.psk == t.history.psk == Some(s.history.link.value.tx.ikm)
  {
    hide Bounded, Unstarted, Numbered, WireIn, WireOut, PlainOut, RecordsFit, WriterEphemeral, Introduced;
    assert Undowngraded(s) && Undowngraded(t) && Linked(p, s);
  }

  /** A step of some node at which, with its control plane down, that pre-shared key was configured. */
  predicate Chose(a: WorldAct, psk: bytes) {
    match a
    case Install(_, _, env, _) => !env.pqcAvailable && env.psk == Some(psk)
    case Do(_, e) => e.Handshake? && !e.env.pqcAvailable && e.env.psk == Some(psk)
    case _ => false
  }

  lemma ChosenInOneStep(p: Primitives, w: World, a: WorldAct, sid: Sid)
    requires Lawful(p) && Good(p, w) && Possible(p, w, a) && sid in Next(p, w, a).sessions
    ensures var psk := Next(p, w, a).sessions[sid].history.psk;
            psk.Some? ==> Chose(a, psk.value) || exists x :: x in w.sessions && w.sessions[x].history.psk == psk
  {
    hide Good, Lawful, Step, Enabled, Ideal, Connect, NewSeals, NewSignings;
    match a
    case Do(x, e) =>
      if sid == x {
        ChosenByDoing(p, w, x, e);
      }
    case Install(x, policy, env, epoch) =>
      if sid == x {
        ConnectPosture(p, policy, env, x.pid, epoch);
      }
    case Track(x, policy, epoch) =>
    case Fork(_, _) =>
  }

  lemma ChosenByDoing(p: Primitives, w: World, x: Sid, e: Event)
    requires Good(p, w) && x in w.sessions && Enabled(p, w.sessions[x], Act(x.pid, e))
    ensures var s, t := w.sessions[x], Step(p, w.sessions[x], Act(x.pid, e));
            t.history.psk == s.history.psk || (t.history.psk.Some? ==> Chose(Do(x, e), t.history.psk.value))
  {
    hide Inv, Distinct, LogSound, ReceivedLogged, Step, Enabled;
    assert Inv(p, w.sessions[x]);
    UnstartedOf(p, w.sessions[x]);
    hide Good;
    FallbackIsLocal(p, w.sessions[x], Act(x.pid, e));
  }

  /** In every run, the pre-shared key of a session was configured at a node whose control plane was down. */
  lemma {:induction false} PskWasConfigured(p: Primitives, pid: int, acts: seq<WorldAct>, sid: Sid)
    requires Lawful(p) && Run(p, pid, acts).Some? && sid in Run(p, pid, acts).value.sessions
    ensures var psk := Run(p, pid, acts).value.sessions[sid].history.psk;
            psk.Some? ==> exists i :: 0 <= i < |acts| && Chose(acts[i], psk.value)
    decreases |acts|
  {
    hide Good, Possible, Next, Lawful, Chose;
    if acts != [] {
      var before, i := acts[..|acts| - 1], |acts| - 1;
      var w := Run(p, pid, before).value;
      var psk := Run(p, pid, acts).value.sessions[sid].history.psk;
      RunIsGood(p, pid, before);
      ChosenInOneStep(p, w, acts[i], sid);
      if psk.Some? && !Chose(acts[i], psk.value) {
        var x :| x in w.sessions && w.sessions[x].history.psk == psk;
        PskWasConfigured(p, pid, before, x);
        var j :| 0 <= j < |before| && Chose(before[j], psk.value);
        assert acts[j] == before[j];
      }
    }
  }

  /** Same nonces and same confirmation on both sides of a fallback handshake. */
  predicate SameFallback(s: Session, t: Session) {
    && s.history.helloOut.Some? && s.history.helloIn.Some? && t.history.helloOut.Some? && t.history.helloIn.Some?
    && Lead(t.history.helloIn.value) == Lead(s.history.helloOut.value)
    && t.history.helloOut.value.payload == s.history.helloIn.value.payload
  }

  lemma AllReceivedLogged(p: Primitives, w: World, sid: Sid)
    requires Good(p, w)
    ensures ReceivedOk(w, sid, 0)
  {
    hide ReceivedOk, Locals, Distinct, LogSound;
  }

  lemma ConfirmationReceived(p: Primitives, s: Session)
    requires Inv(p, s) && FallbackInitiated(s)
    ensures s.history.received != []
  {
    hide Bounded, Unstarted, Numbered, Undowngraded, WireIn, WireOut, PlainOut, RecordsFit, Introduced, WriterEphemeral;
  }

  lemma ConfirmedAlike(p: Primitives, s: Session, t: Session)
    requires Inv(p, s) && Inv(p, t) && FallbackInitiated(s) && Peers(s, t)
    requires s.history.received != [] && s.history.received <= t.history.sealed
    ensures SameFallback(s, t)
  {
    hide Bounded, Unstarted, Numbered, Undowngraded, WireIn, WireOut, PlainOut, RecordsFit, WriterEphemeral, Linked,
         HelloShaped;
    HelloEphemerals(p, s);
    HelloEphemerals(p, t);
    assert Introduced(s) && Introduced(t);
    hide Inv;
    var x, y := s.history.helloIn.value.payload, t.history.helloOut.value.payload;
    assert s.history.received[0] == t.history.sealed[0];
    assert x[FALLBACK_NONCE_LEN..] == y[FALLBACK_NONCE_LEN..] && x[..FALLBACK_NONCE_LEN] == y[..FALLBACK_NONCE_LEN];
    assert x == x[..FALLBACK_NONCE_LEN] + x[FALLBACK_NONCE_LEN..]
      && y == y[..FALLBACK_NONCE_LEN] + y[FALLBACK_NONCE_LEN..];
  }

  // ---------------------------------- both ends of a wire ----------------------------------

  /** Every initiator has a peer with the mirrored keys, whichever handshake it was. */
  lemma InitiatorHasPeer(p: Primitives, pid: int, acts: seq<WorldAct>, sid: Sid) returns (peer: Sid)
    requires Lawful(p) && Run(p, pid, acts).Some? && sid in Run(p, pid, acts).value.sessions
    requires var s := Run(p, pid, acts).value.sessions[sid];
             s.history.link.Some? && s.history.link.value.tx.half.ClientToServer?
    ensures var w := Run(p, pid, acts).value; Owned(w, peer) && Peers(w.sessions[sid], w.sessions[peer])
  {
    hide Run, Lawful, SameFallback;
    var s := Run(p, pid, acts).value.sessions[sid];
    if FallbackInitiated(s) {
      peer := FallbackAgreement(p, pid, acts, sid);
    } else {
      var g := HandshakeAgreement(p, pid, acts, sid);
      peer := g.owner;
    }
  }

  /** The two hellos of a connection that keeps bytes in order are the same on both sides. */
  lemma HellosMatch(p: Primitives, a: Session, b: Session, inFlight: bytes)
    requires Wired(p, a, b, inFlight)
    ensures a.history.helloOut.Some? && b.history.helloIn == a.history.helloOut
  {
    FramesInOrder(p, a, b, inFlight);
    ActiveFacts(p, a);
    ActiveFacts(p, b);
    hide Inv, DataFrames, Ciphertexts, DataSealed, DataReceived, Stream, OnTheWay, AllFit;
    assert FramesIn(b)[0] == b.history.helloIn.value && FramesOut(a)[0] == a.history.helloOut.value;
  }

  lemma TagNamesHalf(j: Key, k: Key)
    requires HelloTag(j) == HelloTag(k)
    ensures j.half == k.half
  {
  }

  /** Between wired ends the initiator's peer is the other end. */
  lemma WiredInitiator(p: Primitives, pid: int, acts: seq<WorldAct>, x: Sid, y: Sid, xy: bytes, yx: bytes)
    requires Lawful(p) && Run(p, pid, acts).Some?
    requires var w := Run(p, pid, acts).value;
             && Owned(w, x) && Owned(w, y)
             && Wired(p, w.sessions[x], w.sessions[y], xy) && Wired(p, w.sessions[y], w.sessions[x], yx)
             && w.sessions[x].history.link.Some? && w.sessions[x].history.link.value.tx.half.ClientToServer?
    ensures var w := Run(p, pid, acts).value; Peers(w.sessions[x], w.sessions[y])
  {
    RunIsGood(p, pid, acts);
    var w := Run(p, pid, acts).value;
    var a, b := w.sessions[x], w.sessions[y];
    var peer := InitiatorHasPeer(p, pid, acts, x);
    assert Inv(p, w.sessions[peer]);
    hide Run, Lawful, LogSound, ReceivedLogged;
    HellosMatch(p, b, a, yx);
    ActiveFacts(p, b);
    hide Distinct, Locals, Inv, Wired;
    WiredFacts(p, a, b, xy);
    HelloEphemerals(p, a);
    HelloEphemerals(p, b);
    HelloEphemerals(p, w.sessions[peer]);
    EphemeralNamesOwner(w, peer, y);
  }

  lemma WiredFacts(p: Primitives, a: Session, b: Session, inFlight: bytes)
    requires Wired(p, a, b, inFlight)
    ensures Inv(p, a) && Inv(p, b) && a.fd.phase.Active? && b.fd.phase.Active?
  {
  }

  /**
   Two ends of a connection that keeps bytes in order, both active, hold each other's keys:
   no assumption about keys is needed to join them.
   */
  lemma WiredEndsAreJoined(p: Primitives, pid: int, acts: seq<WorldAct>, x: Sid, y: Sid, xy: bytes, yx: bytes)
    requires Lawful(p) && Run(p, pid, acts).Some?
    requires var w := Run(p, pid, acts).value;
             && Owned(w, x) && Owned(w, y)
             && Wired(p, w.sessions[x], w.sessions[y], xy) && Wired(p, w.sessions[y], w.sessions[x], yx)
    ensures var w := Run(p, pid, acts).value;
            && Peers(w.sessions[x], w.sessions[y])
            && Joined(p, w.sessions[x], w.sessions[y], xy) && Joined(p, w.sessions[y], w.sessions[x], yx)
  {
    var w := Run(p, pid, acts).value;
    var a, b := w.sessions[x], w.sessions[y];
    HellosMatch(p, a, b, xy);
    WiredFacts(p, a, b, xy);
    ActiveFacts(p, a);
    ActiveFacts(p, b);
    HelloEphemerals(p, a);
    HelloEphemerals(p, b);
    TagNamesHalf(a.history.link.value.tx, b.history.link.value.rx);
    hide Run, Lawful, Inv, Lead, WriterEphemeral, HelloTag;
    if a.history.link.value.tx.half.ClientToServer? {
      WiredInitiator(p, pid, acts, x, y, xy, yx);
    } else {
      WiredInitiator(p, pid, acts, y, x, yx, xy);
    }
  }

  /**
   Stream conservation in every run: between two ends of a connection that keeps bytes in
   order, what was delivered, what waits and what is on the way is exactly what was sealed,
   if and only if the policies agree or nothing was sealed.
   */
  lemma ConservedInEveryRun(p: Primitives, pid: int, acts: seq<WorldAct>, x: Sid, y: Sid, xy: bytes, yx: bytes)
    requires Lawful(p) && Run(p, pid, acts).Some?
    requires var w := Run(p, pid, acts).value;
             && Owned(w, x) && Owned(w, y)
             && Wired(p, w.sessions[x], w.sessions[y], xy) && Wired(p, w.sessions[y], w.sessions[x], yx)
    ensures var w := Run(p, pid, acts).value;
            var a, b := w.sessions[x], w.sessions[y];
            var rest := Drain(p, b.fd.phase.keys.rx, b.fd.policySuite.Id(), OnTheWay(a, b, xy));
            b.history.delivered + b.fd.rxPlain + Concat(rest.plaintexts) == Concat(Plaintexts(DataSealed(a)))
            <==> a.fd.policySuite == b.fd.policySuite || Concat(Plaintexts(DataSealed(a))) == []
  {
    hide Run, Joined, Drain, OnTheWay, DataSealed, Plaintexts, Concat;
    WiredEndsAreJoined(p, pid, acts, x, y, xy, yx);
    var w := Run(p, pid, acts).value;
    ConservedExactly(p, w.sessions[x], w.sessions[y], xy);
  }

  // ------------------------------- whose bytes were delivered -------------------------------

  /**
   Prefix safety with a name to it. What a session with hybrid keys delivered is a prefix of
   what one session sealed, and that session made its half of the handshake under the identity
   this side trusts.
   */
  lemma DeliveredByTrustedPeer(p: Primitives, pid: int, acts: seq<WorldAct>, sid: Sid) returns (peer: Sid, g: Signing)
    requires Lawful(p) && Run(p, pid, acts).Some? && sid in Run(p, pid, acts).value.sessions
    requires var s := Run(p, pid, acts).value.sessions[sid];
             s.history.delivered != [] && (HybridInitiator(s) || HybridResponder(s))
    ensures var w := Run(p, pid, acts).value;
            var s := w.sessions[sid];
            && Owned(w, peer) && Peers(s, w.sessions[peer])
            && s.history.delivered <= Concat(Plaintexts(DataSealed(w.sessions[peer])))
            && g in w.signings && g.owner == peer && PublicKeys(p, g.id) == s.history.peer
            && (if HybridInitiator(s) then g.Answered? else g.Sent?)
  {
    RunIsGood(p, pid, acts);
    var w := Run(p, pid, acts).value;
    var s := w.sessions[sid];
    peer := PrefixSafety(p, pid, acts, sid);
    assert Inv(p, s) && Inv(p, w.sessions[peer]);
    hide Run, Lawful, LogSound, ReceivedLogged, Concat, Plaintexts, DataSealed;
    if HybridInitiator(s) {
      g := HandshakeAgreement(p, pid, acts, sid);
      KeyNamesOwner(p, w, peer, g.owner);
    } else {
      g := ClientAuthentication(p, pid, acts, sid);
      assert Inv(p, w.sessions[g.owner]);
      hide Inv, Locals, Distinct;
      HelloEphemerals(p, s);
      HelloEphemerals(p, w.sessions[peer]);
      GreetingNamesSender(p, w.sessions[g.owner]);
      EphemeralNamesOwner(w, peer, g.owner);
    }
  }

  /** A session that announced itself carries the ephemeral of its hello. */
  lemma GreetingNamesSender(p: Primitives, s: Session)
    requires Inv(p, s) && s.history.helloOut.Some?
    ensures s.history.ephemeral == Some(Lead(s.history.helloOut.value))
  {
    hide Bounded, Unstarted, Numbered, Undowngraded, WireIn, WireOut, PlainOut, RecordsFit, WriterEphemeral, Lead,
         Linked;
  }
}
