/**
 Two ends whose policies differ. The fallback handshake compares no policies, while every data
 frame carries its sender's policy suite and every receiver insists on its own.
 */
module Policies {
  import opened Bytes
  import opened Framing
  import opened Crypto
  import opened Handshake
  import opened Session
  import opened Invariants
  import opened Channel

  /** A hybrid handshake leaves no room for a difference: the suite is in the key. */
  lemma HybridPoliciesAgree(p: Primitives, a: Session, b: Session, inFlight: bytes)
    requires Joined(p, a, b, inFlight) && a.history.link.value.tx.suiteId != FALLBACK_SUITE_ID
    ensures a.fd.policySuite == b.fd.policySuite
  {
    hide Bounded, Unstarted, Numbered, WireIn, WireOut, PlainOut, RecordsFit, Introduced, WriterEphemeral;
  }

  /** Over a difference nothing is ever delivered, and nothing on the way can be opened. */
  lemma MismatchDeliversNothing(p: Primitives, a: Session, b: Session, inFlight: bytes)
    requires Joined(p, a, b, inFlight) && a.fd.policySuite != b.fd.policySuite
    ensures DataReceived(b) == [] && b.history.delivered == [] && b.fd.rxPlain == []
    ensures Drain(p, b.fd.phase.keys.rx, b.fd.policySuite.Id(), OnTheWay(a, b, inFlight)).plaintexts == []
  {
    hide Bounded, Unstarted, Numbered, Undowngraded, WireIn, WireOut, RecordsFit, Introduced, Linked, OnTheWay,
         DataReceived, DataSealed, Ciphertexts, Stream, Encode, PopFrame, Drain, OpenWith, Joined, AllFit;
    assert Inv(p, a) && Inv(p, b) by { JoinedFacts(p, a, b, inFlight); }
    JoinedFacts(p, a, b, inFlight);
    FramesInOrder(p, a, b, inFlight);
    ActiveFacts(p, a);
    ActiveFacts(p, b);
    var ids := (a.fd.policySuite.Id(), b.fd.policySuite.Id());
    var sealed, received := Ciphertexts(DataSealed(a)), Ciphertexts(DataReceived(b));
    NothingInCommon(ids.0, ids.1, a.history.helloOut.value, sealed, b.history.helloIn.value, received);
    assert Concat(Plaintexts(DataReceived(b))) == [];
    assert FramesOut(a)[|FramesIn(b)|..] == DataFrames(ids.0, sealed);
    DrainForeign(p, b.fd.phase.keys.rx, ids.0, ids.1, sealed);
  }

  lemma JoinedFacts(p: Primitives, a: Session, b: Session, inFlight: bytes)
    requires Joined(p, a, b, inFlight)
    ensures Wired(p, a, b, inFlight)
    ensures Inv(p, a) && Inv(p, b) && a.fd.phase.Active? && b.fd.phase.Active?
  {
  }

  lemma NothingInCommon(x: byte, y: byte, f: Parsed, sealed: seq<bytes>, g: Parsed, received: seq<bytes>)
    requires x != y && [g] + DataFrames(y, received) <= [f] + DataFrames(x, sealed)
    requires AllFit([f] + DataFrames(x, sealed))
    ensures received == [] && AllFit(DataFrames(x, sealed))
    ensures ([f] + DataFrames(x, sealed))[1..] == DataFrames(x, sealed)
  {
    var fs, gs := [f] + DataFrames(x, sealed), [g] + DataFrames(y, received);
    assert received != [] ==> gs[1] == fs[1];
    assert forall i :: 0 <= i < |sealed| ==> DataFrames(x, sealed)[i] == fs[i + 1];
  }

  lemma DrainForeign(p: Primitives, d: Direction, x: byte, y: byte, sealed: seq<bytes>)
    requires x != y && AllFit(DataFrames(x, sealed))
    ensures Drain(p, d, y, Stream(DataFrames(x, sealed))).plaintexts == []
  {
    hide Encode, PopFrame, OpenWith;
    var fs := DataFrames(x, sealed);
    if sealed == [] {
      assert Stream(fs) == [];
      EmptyHasNoFrame();
    } else {
      StreamCons(fs);
      PopEncode(fs[0], Stream(fs[1..]));
    }
  }

  /** Stream conservation over a faithful channel, exactly: it holds unless the two policies differ
      and something was sent. */
  lemma ConservedExactly(p: Primitives, a: Session, b: Session, inFlight: bytes)
    requires AeadLaws(p) && Joined(p, a, b, inFlight)
    ensures var rest := Drain(p, b.fd.phase.keys.rx, b.fd.policySuite.Id(), OnTheWay(a, b, inFlight));
            b.history.delivered + b.fd.rxPlain + Concat(rest.plaintexts) == Concat(Plaintexts(DataSealed(a)))
            <==> a.fd.policySuite == b.fd.policySuite || Concat(Plaintexts(DataSealed(a))) == []
  {
    hide Inv, Joined, Drain, OnTheWay, DataSealed, DataReceived, Plaintexts, AeadLaws;
    if a.fd.policySuite == b.fd.policySuite {
      StreamConserved(p, a, b, inFlight);
    } else {
      MismatchDeliversNothing(p, a, b, inFlight);
      JoinedFacts(p, a, b, inFlight);
    }
  }

  // ------------------------------ such a pair can arise ------------------------------

  /** A node whose hybrid path is down and that has a pre-shared key. */
  function Degraded(psk: bytes, nonce: FallbackNonce): Local {
    Local(None, false, Some(psk), [], [], [], nonce)
  }

  function Hello(nonce: FallbackNonce): Parsed {
    Parsed(FALLBACK_WIRE_ID, TYPE_FALLBACK_HELLO, nonce)
  }

  /** The responder's answer, as a frame. */
  function Answer(p: Primitives, psk: bytes, cn: FallbackNonce, sn: FallbackNonce): Parsed {
    var r := FallbackRespond(p, psk, cn, sn);
    Parsed(FALLBACK_WIRE_ID, TYPE_FALLBACK_FINISHED, if r.Ok? then r.value.1 else [])
  }

  lemma AnswerIsShort(p: Primitives, psk: bytes, cn: FallbackNonce, sn: FallbackNonce)
    requires AeadLaws(p)
    ensures FallbackRespond(p, psk, cn, sn).Ok?
    ensures |Answer(p, psk, cn, sn).payload| <= 100 && Fits(Answer(p, psk, cn, sn).payload)
  {
    hide Nonce;
    HonestFallback(p, psk, cn, sn);
    assert |FALLBACK_CONFIRM| == 41;
  }

  lemma AnswerAccepted(p: Primitives, psk: bytes, cn: FallbackNonce, sn: FallbackNonce, fd: Fd)
    requires AeadLaws(p) && fd.phase.AwaitingClientHello? && fd.txBacklog == []
    ensures var r := FallbackRespond(p, psk, cn, sn);
      && r.Ok?
      && var v := Judge(p, fd, Hello(cn), Degraded(psk, sn));
      && v.Establish? && v.keys == r.value.0
  {
    AnswerIsShort(p, psk, cn, sn);
    hide FallbackRespond, Encode, Nonce, Respond;
  }

  lemma FinishAccepted(p: Primitives, psk: bytes, cn: FallbackNonce, sn: FallbackNonce, fd: Fd)
    requires AeadLaws(p) && fd.phase == AwaitingFallbackFinished(psk, cn)
    ensures var r := FallbackRespond(p, psk, cn, sn);
      && r.Ok?
      && var v := Judge(p, fd, Answer(p, psk, cn, sn), Degraded(psk, cn));
      && v.Establish? && Mirrored(v.keys, r.value.0) && v.sealed == []
  {
    HonestFallback(p, psk, cn, sn);
    hide FallbackRespond, FallbackFinish, Finish, Encode, Nonce;
  }

  /** The responder's side of a fallback handshake, under any policy. */
  lemma ResponderRun(p: Primitives, psk: bytes, cn: FallbackNonce, sn: FallbackNonce, suite: Suite, pid: int)
    returns (acts: seq<Act>, b: Session)
    requires AeadLaws(p)
    ensures After(p, Adopt(Some(suite), pid, 0), acts) == Some(b)
    ensures b.fd.phase == Active(FallbackRespond(p, psk, cn, sn).value.0) && b.fd.policySuite == suite
    ensures b.history.pulled == Encode(Hello(cn)) && b.history.sent == []
    ensures b.history.link == Some(Link(b.fd.phase.keys.tx.key, b.fd.phase.keys.rx.key))
  {
    hide AeadLaws, Encode, Nonce, FallbackRespond, Stream, Judge, PopFrame, CanOpen, CanSeal;
    var s := Adopt(Some(suite), pid, 0);
    PullFrame(p, s, Hello(cn));
    var pull := Act(pid, Pull(Encode(Hello(cn))));
    var s1 := Step(p, s, pull);
    AfterSnoc(p, s, [], s, pull);
    AnswerAccepted(p, psk, cn, sn, s1.fd);
    var greet := Act(pid, Event.Handshake(Degraded(psk, sn)));
    b := Step(p, s1, greet);
    AfterSnoc(p, s, [] + [pull], s1, greet);
    acts := [] + [pull] + [greet];
  }

  /** The initiator's side, up to its keys. */
  lemma InitiatorRun(p: Primitives, psk: bytes, cn: FallbackNonce, sn: FallbackNonce, suite: Suite, pid: int)
    returns (acts: seq<Act>, a: Session)
    requires AeadLaws(p)
    ensures After(p, Connect(p, Some(suite), Degraded(psk, cn), pid, 0), acts) == Some(a)
    ensures FallbackRespond(p, psk, cn, sn).Ok? && a.fd.phase.Active?
    ensures Mirrored(a.fd.phase.keys, FallbackRespond(p, psk, cn, sn).value.0)
    ensures a.fd.policySuite == suite && a.fd.ownerPid == pid && a.pending == []
    ensures a.history.sent == Encode(Hello(cn)) && a.history.sealed == []
    ensures a.history.link == Some(Link(a.fd.phase.keys.tx.key, a.fd.phase.keys.rx.key))
  {
    AnswerIsShort(p, psk, cn, sn);
    hide AeadLaws, Encode, Nonce, FallbackRespond, Stream, Judge, PopFrame, CanOpen, CanSeal, Answer, PqcInitiator;
    var s := Connect(p, Some(suite), Degraded(psk, cn), pid, 0);
    var flush := Act(pid, Flush(|s.fd.txBacklog|));
    var s1 := Step(p, s, flush);
    AfterSnoc(p, s, [], s, flush);
    assert s1.fd.txBacklog == [] && s1.history.sent == Encode(Hello(cn));
    PullFrame(p, s1, Answer(p, psk, cn, sn));
    var pull := Act(pid, Pull(Encode(Answer(p, psk, cn, sn))));
    var s2 := Step(p, s1, pull);
    AfterSnoc(p, s, [] + [flush], s1, pull);
    FinishAccepted(p, psk, cn, sn, s2.fd);
    var finish := Act(pid, Event.Handshake(Degraded(psk, cn)));
    a := Step(p, s2, finish);
    AfterSnoc(p, s, [] + [flush] + [pull], s2, finish);
    acts := [] + [flush] + [pull] + [finish];
  }

  /** Whatever the key, the nonces and the message, two degraded nodes under different policies
      reach a pair of active sessions that breaks stream conservation. */
  lemma MismatchIsReachable(p: Primitives, psk: bytes, cn: FallbackNonce, sn: FallbackNonce, message: bytes)
    returns (actsA: seq<Act>, a: Session, actsB: seq<Act>, b: Session)
    requires Lawful(p) && 1 <= |message| <= MAX_RECORD_PLAINTEXT
    ensures After(p, Connect(p, Some(Nist768), Degraded(psk, cn), 1, 0), actsA) == Some(a)
    ensures After(p, Adopt(Some(Nist1024), 2, 0), actsB) == Some(b)
    ensures Joined(p, a, b, []) && a.fd.policySuite != b.fd.policySuite
    ensures Plaintexts(DataSealed(a)) == [message]
    ensures var rest := Drain(p, b.fd.phase.keys.rx, b.fd.policySuite.Id(), OnTheWay(a, b, []));
            b.history.delivered + b.fd.rxPlain + Concat(rest.plaintexts) != Concat(Plaintexts(DataSealed(a)))
  {
    hide After, Connect, Adopt, FallbackRespond, Encode, Nonce, Drain, OnTheWay, Inv;
    var acts, s := InitiatorRun(p, psk, cn, sn, Nist768, 1);
    actsB, b := ResponderRun(p, psk, cn, sn, Nist1024, 2);
    var seal := Act(1, Seal(message));
    FirstRecord(p, psk, cn, sn, s, message);
    a := Step(p, s, seal);
    AfterSnoc(p, Connect(p, Some(Nist768), Degraded(psk, cn), 1, 0), acts, s, seal);
    actsA := acts + [seal];
    ConnectInv(p, Some(Nist768), Degraded(psk, cn), 1, 0);
    AdoptInv(p, Some(Nist1024), 2, 0);
    ReachableInv(p, Connect(p, Some(Nist768), Degraded(psk, cn), 1, 0), actsA);
    ReachableInv(p, Adopt(Some(Nist1024), 2, 0), actsB);
    assert Joined(p, a, b, []);
    assert Concat([message]) == message by { assert [message][1..] == []; }
    ConservedExactly(p, a, b, []);
  }

  lemma FirstRecord(p: Primitives, psk: bytes, cn: FallbackNonce, sn: FallbackNonce, s: Session, message: bytes)
    requires AeadLaws(p) && |message| <= MAX_RECORD_PLAINTEXT
    requires s.fd.phase.Active? && s.pending == [] && s.history.sealed == [] && s.history.link.Some?
    requires FallbackRespond(p, psk, cn, sn).Ok? && Mirrored(s.fd.phase.keys, FallbackRespond(p, psk, cn, sn).value.0)
    requires s.history.link.value.tx == s.fd.phase.keys.tx.key
    ensures var seal := Act(s.fd.ownerPid, Seal(message));
      && Enabled(p, s, seal)
      && var a := Step(p, s, seal);
      && a.fd.phase.Active? && a.fd.policySuite == s.fd.policySuite && a.history.sent == s.history.sent
      && a.history.link == s.history.link && Plaintexts(DataSealed(a)) == [message]
  {
    hide Nonce, Encode;
    var keys := FallbackRespond(p, psk, cn, sn).value.0;
    assert s.fd.phase.keys.tx == keys.rx;
    assert keys.rx.counter == 0 && keys.rx.key.half.ClientToServer?;
    var a := Step(p, s, Act(s.fd.ownerPid, Seal(message)));
    assert DataSealed(a) == a.history.sealed;
  }
}
