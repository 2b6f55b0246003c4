/**
 Many sessions in many processes over a network the adversary controls. A pull may
 bring any bytes at all, in any order, any number of times. What the adversary cannot
 do is stated in `Ideal`: no one seals under a traffic key, and no one signs with an
 identity key, but the sessions that hold it; and fresh values are fresh.
 */
module Network {
  import opened Bytes
  import opened Framing
  import opened Crypto
  import opened Handshake
  import opened Session
  import opened Invariants

  /** A state in the memory of a process. */
  datatype Sid = Sid(pid: int, n: nat)

  datatype Sealing = Sealing(owner: Sid, record: Record)

  /** The two occasions on which an identity signs: a hello sent, a hello answered. */
  datatype Signing =
    | Sent(owner: Sid, suite: Suite, id: Identity, xSecret: bytes, decapKey: bytes)
    | Answered(owner: Sid, suite: Suite, id: Identity, clientHello: bytes, xSecret: bytes, coins: bytes)

  datatype World = World(
    sessions: map<Sid, Session>,
    seals: map<(Key, nat), Sealing>,
    signings: set<Signing>,
    used: set<bytes>,
    pids: set<int>)

  function Start(pid: int): World {
    World(map[], map[], {}, {}, {pid})
  }

  // ------------------------------------ claims ------------------------------------

  /** A public key pair, a message and a signature pair. */
  datatype Claim = Claim(edPub: bytes, mlPub: bytes, message: bytes, edSig: bytes, mlSig: bytes)

  function SignedBy(p: Primitives, id: Identity, message: bytes): Claim {
    Claim(p.edPublic(id.edSeed), p.mlPublic(id.mlSeed), message, p.edSign(id.edSeed, message),
      p.mlSign(id.mlSeed, message))
  }

  function KemCiphertext(p: Primitives, g: Signing): bytes
    requires g.Answered?
  {
    if |g.clientHello| < X25519_LEN + g.suite.EkLen() then []
    else
      match p.encapsulate(g.suite, g.clientHello[X25519_LEN..X25519_LEN + g.suite.EkLen()], g.coins)
      case None => []
      case Some((ct, _)) => ct
  }

  /** What was signed on that occasion. */
  function Signature(p: Primitives, g: Signing): (c: Claim) {
    match g
    case Sent(_, suite, id, x, dk) =>
      SignedBy(p, id, ClientAuthMessage(suite.Id(), ClientUnsigned(p, suite, id, x, dk)))
    case Answered(_, suite, id, ch, x, _) =>
      SignedBy(p, id, ServerAuthMessage(suite.Id(), ch, ServerUnsigned(p, id, x, KemCiphertext(p, g))))
  }

  /** The claim a hello frame makes when a session in the given phase accepts it. */
  function ClaimOf(fd: Fd, f: Parsed, env: Local): (c: Option<Claim>) {
    if env.identity.None? then None
    else
      var id := env.identity.value;
      match fd.phase
      case AwaitingClientHello =>
        var s := fd.policySuite;
        if f.tag != TYPE_CLIENT_HELLO || SplitIdentityFields(f.payload, X25519_LEN + s.EkLen()).Err? then None
        else
          var x := SplitIdentityFields(f.payload, X25519_LEN + s.EkLen()).value;
          Some(Claim(x.edPub, x.mlPub, ClientAuthMessage(s.Id(), f.payload[..ClientUnsignedLen(s)]), x.edSig, x.mlSig))
      case AwaitingServerHello(st) =>
        var s := st.suite;
        if SplitIdentityFields(f.payload, X25519_LEN + s.CtLen()).Err? then None
        else
          var x := SplitIdentityFields(f.payload, X25519_LEN + s.CtLen()).value;
          Some(Claim(x.edPub, x.mlPub, ServerAuthMessage(s.Id(), st.clientHello, f.payload[..ServerUnsignedLen(s)]),
                     x.edSig, x.mlSig))
      case _ => None
  }

  // ------------------------------------- steps -------------------------------------

  datatype WorldAct =
    | Install(sid: Sid, policy: Option<Suite>, env: Local, epoch: nat)
    | Track(sid: Sid, policy: Option<Suite>, epoch: nat)
    | Do(sid: Sid, event: Event)
    | Fork(parent: int, child: int)

  predicate Fresh(w: World, ephemeral: Option<bytes>) {
    ephemeral.Some? ==> ephemeral.value !in w.used
  }

  predicate WasSealed(w: World, k: Key, n: nat, ciphertext: bytes) {
    (k, n) in w.seals && w.seals[(k, n)].record.ciphertext == ciphertext
  }

  ghost predicate WasSigned(p: Primitives, w: World, c: Claim) {
    exists g :: g in w.signings && Signature(p, g) == c
  }

  /** A ciphertext that opens under a key and counter was sealed under them. */
  predicate Unforged(p: Primitives, w: World, k: Key, n: u64, ciphertext: bytes) {
    p.open(k, Nonce(n), ciphertext).Some? ==> WasSealed(w, k, n, ciphertext)
  }

  /** A pair of signatures that both verify were both made, by the same identity and for the same message. */
  ghost predicate Undisputed(p: Primitives, w: World, c: Claim) {
    p.edVerify(c.edPub, c.message, c.edSig) && p.mlVerify(c.mlPub, c.message, c.mlSig) ==> WasSigned(p, w, c)
  }

  /** Of the values a session is about to look at: what opens was sealed, what verifies was signed, and no ephemeral
      repeats. Nothing is said of values that do not open or do not verify. */
  ghost predicate Ideal(p: Primitives, w: World, s: Session, e: Event) {
    match e
    case Open =>
      s.fd.phase.Active? && PopFrame(s.fd.rxWire).Popped? ==>
        Unforged(p, w, s.fd.phase.keys.rx.key, s.fd.phase.keys.rx.counter, PopFrame(s.fd.rxWire).frame.payload)
    case Handshake(env) =>
      PopFrame(s.fd.rxWire).Popped? ==>
        var f := PopFrame(s.fd.rxWire).frame;
        var v := Judge(p, s.fd, f, env);
        && (ClaimOf(s.fd, f, env).Some? ==> Undisputed(p, w, ClaimOf(s.fd, f, env).value))
        && (v.Establish? ==>
              && Fresh(w, v.ephemeral)
              && (v.received != [] ==> Unforged(p, w, v.keys.rx.key, 0, v.received[0].ciphertext)))
    case _ => true
  }

  ghost predicate Possible(p: Primitives, w: World, a: WorldAct) {
    match a
    case Install(sid, policy, env, epoch) =>
      sid !in w.sessions && sid.pid in w.pids && Fresh(w, Connect(p, policy, env, sid.pid, epoch).history.ephemeral)
    case Track(sid, policy, epoch) => sid !in w.sessions && sid.pid in w.pids
    case Do(sid, e) =>
      sid in w.sessions && Enabled(p, w.sessions[sid], Act(sid.pid, e)) && Ideal(p, w, w.sessions[sid], e)
    case Fork(parent, child) => parent in w.pids && child !in w.pids
  }

  function Values(o: Option<bytes>): set<bytes> {
    if o.None? then {} else {o.value}
  }

  /** The record an action adds to a session's sealed records, as an entry of the log. */
  function NewSeals(sid: Sid, s: Session, t: Session): (entries: map<(Key, nat), Sealing>) {
    if t.history.link.Some? && |t.history.sealed| > |s.history.sealed|
    then map[(t.history.link.value.tx, |s.history.sealed|) := Sealing(sid, t.history.sealed[|s.history.sealed|])]
    else map[]
  }

  function NewSignings(sid: Sid, s: Session, e: Event): set<Signing> {
    if e.Handshake? && s.fd.phase.AwaitingClientHello? && PopFrame(s.fd.rxWire).Popped? && e.env.identity.Some?
       && PopFrame(s.fd.rxWire).frame.tag == TYPE_CLIENT_HELLO
    then {Answered(sid, s.fd.policySuite, e.env.identity.value, PopFrame(s.fd.rxWire).frame.payload,
                   e.env.xSecret, e.env.coins)}
    else {}
  }

  function Inherited(w: World, parent: int, child: int): map<Sid, Session> {
    map s | s in w.sessions.Keys && s.pid == parent :: Sid(child, s.n) := w.sessions[s]
  }

  ghost function Next(p: Primitives, w: World, a: WorldAct): (v: World)
    requires Possible(p, w, a)
  {
    match a
    case Install(sid, policy, env, epoch) =>
      var s := Connect(p, policy, env, sid.pid, epoch);
      w.(sessions := w.sessions[sid := s], used := w.used + Values(s.history.ephemeral),
         signings := if s.fd.phase.AwaitingServerHello?
                     then w.signings + {Sent(sid, s.fd.policySuite, env.identity.value, env.xSecret, env.decapKey)}
                     else w.signings)
    case Track(sid, policy, epoch) => w.(sessions := w.sessions[sid := Adopt(policy, sid.pid, epoch)])
    case Do(sid, e) =>
      var s := w.sessions[sid];
      var t := Step(p, s, Act(sid.pid, e));
      w.(sessions := w.sessions[sid := t], seals := w.seals + NewSeals(sid, s, t),
         signings := w.signings + NewSignings(sid, s, e), used := w.used + Values(t.history.ephemeral))
    case Fork(parent, child) =>
      w.(sessions := w.sessions + Inherited(w, parent, child), pids := w.pids + {child})
  }

  /** The world after a run from a single process; none if some act was not possible. */
  ghost function Run(p: Primitives, pid: int, acts: seq<WorldAct>): (w: Option<World>)
    decreases |acts|
  {
    if acts == [] then Some(Start(pid))
    else
      match Run(p, pid, acts[..|acts| - 1])
      case None => None
      case Some(u) => if Possible(p, u, acts[|acts| - 1]) then Some(Next(p, u, acts[|acts| - 1])) else None
  }

  // ------------------------------ what every world keeps ------------------------------

  /** The process that created the state is the one it lives in. */
  predicate Owned(w: World, sid: Sid) {
    sid in w.sessions && w.sessions[sid].fd.ownerPid == sid.pid
  }

  /** The ephemeral value of an owned state. */
  function Ephemeral(w: World, sid: Sid): Option<bytes> {
    if Owned(w, sid) then w.sessions[sid].history.ephemeral else None
  }

  ghost predicate Locals(p: Primitives, w: World) {
    forall sid :: sid in w.sessions ==>
      Inv(p, w.sessions[sid]) && sid.pid in w.pids && w.sessions[sid].fd.ownerPid in w.pids
  }

  /** Owners' ephemerals are on record, and no two owners share one. */
  ghost predicate Distinct(w: World) {
    && (forall sid :: Ephemeral(w, sid).Some? ==> Ephemeral(w, sid).value in w.used)
    && (forall a, b :: a != b && Ephemeral(w, a).Some? ==> Ephemeral(w, a) != Ephemeral(w, b))
  }

  /** A log entry is the record its owner sealed under that key with that counter. */
  predicate EntryOk(w: World, k: Key, n: nat) {
    (k, n) in w.seals ==>
      && var owner := w.seals[(k, n)].owner;
      && Owned(w, owner)
      && w.sessions[owner].history.link.Some? && w.sessions[owner].history.link.value.tx == k
      && n < |w.sessions[owner].history.sealed|
      && w.sessions[owner].history.sealed[n] == w.seals[(k, n)].record
  }

  ghost predicate LogSound(w: World) {
    forall k, n: nat :: EntryOk(w, k, n)
  }

  /** Every received record is in the log, under the reader's key and counter. */
  predicate ReceivedOk(w: World, sid: Sid, i: nat) {
    sid in w.sessions && i < |w.sessions[sid].history.received| ==>
      && w.sessions[sid].history.link.Some?
      && (w.sessions[sid].history.link.value.rx, i) in w.seals
      && w.seals[(w.sessions[sid].history.link.value.rx, i)].record == w.sessions[sid].history.received[i]
  }

  ghost predicate ReceivedLogged(w: World) {
    forall sid, i: nat :: ReceivedOk(w, sid, i)
  }

  ghost predicate Good(p: Primitives, w: World) {
    Locals(p, w) && Distinct(w) && LogSound(w) && ReceivedLogged(w)
  }

  // ------------------------------- how a session grows -------------------------------

  /** Histories only grow, and what identifies an established session stays. */
  predicate Grows(s: Session, t: Session) {
    && t.fd.ownerPid == s.fd.ownerPid && t.fd.policySuite == s.fd.policySuite
    && s.history.sealed <= t.history.sealed && |t.history.sealed| <= |s.history.sealed| + 1
    && s.history.received <= t.history.received && |t.history.received| <= |s.history.received| + 1
    && (s.history.ephemeral.Some? ==> t.history.ephemeral == s.history.ephemeral)
    && (s.history.helloOut.Some? ==> t.history.helloOut == s.history.helloOut)
    && (s.history.link.Some? ==>
          && t.history.link == s.history.link && t.history.ephemeral == s.history.ephemeral
          && t.history.helloIn == s.history.helloIn && t.history.helloOut == s.history.helloOut
          && t.history.peer == s.history.peer)
  }

  lemma EstablishedGrows(s: Session, f: Parsed, rest: bytes, v: Verdict)
    requires v.Establish? && s.history.link.None? && s.history.sealed == [] && s.history.received == []
    requires |v.sealed| <= 1 && |v.received| <= 1
    requires v.ephemeral.Some? ==> s.history.ephemeral.None?
    requires v.reply.Some? ==> s.history.helloOut.None?
    ensures Grows(s, Established(s, f, rest, v))
  {
    hide Stream;
  }

  lemma StartsEmpty(p: Primitives, s: Session)
    requires Inv(p, s) && InHandshake(s.fd)
    ensures s.history.link.None? && s.history.sealed == [] && s.history.received == []
    ensures s.history.ephemeral.Some? <==> !s.fd.phase.AwaitingClientHello?
    ensures s.history.helloOut.Some? <==> !s.fd.phase.AwaitingClientHello?
  {
    hide Bounded, Linked, Undowngraded, WireIn, WireOut, PlainOut, RecordsFit, Introduced, Genuine;
  }

  lemma OnlyRespondersDraw(p: Primitives, fd: Fd, f: Parsed, env: Local)
    requires Judge(p, fd, f, env).Establish?
    ensures Judge(p, fd, f, env).ephemeral.Some? ==> fd.phase.AwaitingClientHello?
    ensures Judge(p, fd, f, env).reply.Some? ==> fd.phase.AwaitingClientHello?
    ensures |Judge(p, fd, f, env).sealed| <= 1 && |Judge(p, fd, f, env).received| <= 1
  {
    hide Respond, Finish, FallbackRespond, FallbackFinish, Encode;
  }

  lemma StepGrows(p: Primitives, s: Session, a: Act)
    requires Lawful(p) && Inv(p, s) && Enabled(p, s, a)
    ensures Grows(s, Step(p, s, a))
  {
    if a.event.Handshake? {
      hide Judge, Inv, Lawful, PopFrame, Established, Grows, Unstarted, SoundVerdict;
      var Popped(f, rest) := PopFrame(s.fd.rxWire);
      EncodePop(s.fd.rxWire);
      assert Unstarted(p, s) by { UnstartedOf(p, s); }
      JudgeSound(p, s, f, a.event.env);
      StartsEmpty(p, s);
      OnlyRespondersDraw(p, s.fd, f, a.event.env);
      EstablishedGrows(s, f, rest, Judge(p, s.fd, f, a.event.env));
    } else {
      hide PopFrame, Judge, Lawful, Inv, Encode, Nonce, OpenWith, SealWith;
    }
  }

  /** Only the owner's process seals, receives or establishes. */
  lemma OnlyOwnersAct(p: Primitives, s: Session, a: Act)
    requires Enabled(p, s, a)
    requires Step(p, s, a).history != s.history
    ensures a.pid == s.fd.ownerPid
  {
    hide PopFrame, Judge, Encode, Nonce;
  }

  /** A traffic key names one owner. */
  lemma KeyNamesOwner(p: Primitives, w: World, a: Sid, b: Sid)
    requires Locals(p, w) && Distinct(w) && Owned(w, a) && Owned(w, b)
    requires w.sessions[a].history.link.Some? && w.sessions[b].history.link.Some?
    requires w.sessions[a].history.link.value.tx == w.sessions[b].history.link.value.tx
    ensures a == b
  {
    hide Bounded, Unstarted, Numbered, Undowngraded, WireIn, WireOut, PlainOut, RecordsFit, Introduced, WriterEphemeral;
    assert Inv(p, w.sessions[a]) && Inv(p, w.sessions[b]);
    assert Ephemeral(w, a) == Ephemeral(w, b);
  }

  /** An ephemeral that appears is fresh. */
  lemma NewEphemeralIsFresh(p: Primitives, w: World, sid: Sid, e: Event)
    requires Possible(p, w, Do(sid, e))
    ensures var s, t := w.sessions[sid], Step(p, w.sessions[sid], Act(sid.pid, e));
            t.history.ephemeral == s.history.ephemeral || Fresh(w, t.history.ephemeral)
  {
    hide PopFrame, Judge, Encode, Nonce, OpenWith, SealWith;
  }

  // --------------------------------- the log is sound ---------------------------------

  lemma EphemeralOfKey(p: Primitives, s: Session)
    requires Inv(p, s) && s.history.link.Some?
    ensures s.history.ephemeral == Some(WriterEphemeral(s.history.link.value.tx))
  {
    hide Bounded, Unstarted, Numbered, Undowngraded, WireIn, WireOut, PlainOut, RecordsFit, Introduced, WriterEphemeral;
  }

  /** Every logged use of a session's key, even of a key it is only about to have, is its own. */
  lemma LoggedByOwner(p: Primitives, w: World, sid: Sid, t: Session, n: nat)
    requires Good(p, w) && Owned(w, sid) && Inv(p, t) && t.history.link.Some?
    requires t.history.ephemeral == w.sessions[sid].history.ephemeral || Fresh(w, t.history.ephemeral)
    requires (t.history.link.value.tx, n) in w.seals
    ensures w.seals[(t.history.link.value.tx, n)].owner == sid && n < |w.sessions[sid].history.sealed|
  {
    hide Inv, WriterEphemeral, ReceivedLogged;
    var k := t.history.link.value.tx;
    assert EntryOk(w, k, n);
    var owner := w.seals[(k, n)].owner;
    EphemeralOfKey(p, t);
    EphemeralOfKey(p, w.sessions[owner]);
    assert Ephemeral(w, owner) == Some(WriterEphemeral(k)) == t.history.ephemeral;
    assert t.history.ephemeral.value in w.used;
    assert Ephemeral(w, sid) == w.sessions[sid].history.ephemeral;
  }

  /** The key and counter of a new record have not been used before, in any process. */
  lemma NonceNeverReused(p: Primitives, w: World, sid: Sid, e: Event)
    requires Lawful(p) && Good(p, w) && Possible(p, w, Do(sid, e))
    requires var t := Step(p, w.sessions[sid], Act(sid.pid, e));
             t.history.link.Some? && |t.history.sealed| > |w.sessions[sid].history.sealed|
    ensures var t := Step(p, w.sessions[sid], Act(sid.pid, e));
            (t.history.link.value.tx, |w.sessions[sid].history.sealed|) !in w.seals
  {
    hide Step, Inv, Lawful, Distinct, LogSound, ReceivedLogged, Ideal, Connect, Adopt, Inherited, Enabled;
    var s, t := w.sessions[sid], Step(p, w.sessions[sid], Act(sid.pid, e));
    OnlyOwnersAct(p, s, Act(sid.pid, e));
    NewEphemeralIsFresh(p, w, sid, e);
    StepKeepsInv(p, s, Act(sid.pid, e));
    if (t.history.link.value.tx, |s.history.sealed|) in w.seals {
      LoggedByOwner(p, w, sid, t, |s.history.sealed|);
      assert false;
    }
  }

  // ------------------------------- every act keeps it -------------------------------

  /** One session grew, and the log gained at most an entry of its own that was not there. */
  ghost predicate Advance(w: World, v: World, sid: Sid) {
    && sid in w.sessions && sid in v.sessions && Grows(w.sessions[sid], v.sessions[sid])
    && v.sessions == w.sessions[sid := v.sessions[sid]]
    && v.pids == w.pids
    && v.seals == w.seals + NewSeals(sid, w.sessions[sid], v.sessions[sid])
    && (forall k, n :: (k, n) in NewSeals(sid, w.sessions[sid], v.sessions[sid]) ==> (k, n) !in w.seals)
    && (v.sessions[sid].history != w.sessions[sid].history ==> Owned(w, sid))
    && v.used == w.used + Values(v.sessions[sid].history.ephemeral)
    && (v.sessions[sid].history.ephemeral == w.sessions[sid].history.ephemeral
          || Fresh(w, v.sessions[sid].history.ephemeral))
  }

  lemma DoAdvances(p: Primitives, w: World, sid: Sid, e: Event)
    requires Lawful(p) && Good(p, w) && Possible(p, w, Do(sid, e))
    ensures Advance(w, Next(p, w, Do(sid, e)), sid)
    ensures Inv(p, Next(p, w, Do(sid, e)).sessions[sid])
  {
    hide Step, Inv, Lawful, Distinct, LogSound, ReceivedLogged, Ideal, Grows, Connect, Adopt, Inherited, NewSignings,
         Enabled;
    var s, t := w.sessions[sid], Step(p, w.sessions[sid], Act(sid.pid, e));
    assert Inv(p, s);
    StepGrows(p, s, Act(sid.pid, e));
    StepKeepsInv(p, s, Act(sid.pid, e));
    NewEphemeralIsFresh(p, w, sid, e);
    if t.history != s.history {
      OnlyOwnersAct(p, s, Act(sid.pid, e));
    }
    if t.history.link.Some? && |t.history.sealed| > |s.history.sealed| {
      NonceNeverReused(p, w, sid, e);
    }
  }

  lemma AdvanceKeepsDistinct(w: World, v: World, sid: Sid)
    requires Advance(w, v, sid) && Distinct(w)
    ensures Distinct(v)
  {
    hide NewSeals, Grows;
    assert v.sessions[sid].fd.ownerPid == w.sessions[sid].fd.ownerPid by {
      GrownOwner(w.sessions[sid], v.sessions[sid]);
    }
    forall a | a != sid
      ensures Ephemeral(v, a) == Ephemeral(w, a)
    {
    }
    forall a, b | a != b && Ephemeral(v, a).Some?
      ensures Ephemeral(v, a) != Ephemeral(v, b)
    {
      if a == sid || b == sid {
        var other := if a == sid then b else a;
        assert Ephemeral(v, other) == Ephemeral(w, other);
        assert Owned(v, sid) ==> Ephemeral(w, sid) == w.sessions[sid].history.ephemeral;
      }
    }
  }

  lemma GrownOwner(s: Session, t: Session)
    requires Grows(s, t)
    ensures t.fd.ownerPid == s.fd.ownerPid
  {
  }

  lemma AdvanceKeepsLog(w: World, v: World, sid: Sid)
    requires Advance(w, v, sid) && LogSound(w)
    ensures LogSound(v)
  {
    forall k, n: nat
      ensures EntryOk(v, k, n)
    {
      assert EntryOk(w, k, n);
    }
  }

  /** The record received under position `n`, if there is one, was in the log. */
  predicate LoggedAt(w: World, t: Session, n: nat) {
    |t.history.received| > n ==>
      t.history.link.Some? && WasSealed(w, t.history.link.value.rx, n, t.history.received[n].ciphertext)
  }

  lemma OpenedWasSealed(p: Primitives, w: World, s: Session)
    requires CanOpen(p, s.fd) && Inv(p, s) && Ideal(p, w, s, Open)
    ensures LoggedAt(w, Opened(p, s), |s.history.received|)
  {
    hide PopFrame, Inv, WasSealed, Judge, ClaimOf, WasSigned, Fresh, Nonce;
    ActiveNumbers(p, s);
    var t := Opened(p, s);
    assert t.history.link == s.history.link;
    assert t.history.received[|s.history.received|].ciphertext == PopFrame(s.fd.rxWire).frame.payload;
  }

  lemma ConfirmationWasSealed(p: Primitives, w: World, s: Session, env: Local)
    requires Lawful(p) && Inv(p, s) && Ideal(p, w, s, Event.Handshake(env))
    requires PopFrame(s.fd.rxWire).Popped? && Judge(p, s.fd, PopFrame(s.fd.rxWire).frame, env).Establish?
    ensures var Popped(f, rest) := PopFrame(s.fd.rxWire);
            LoggedAt(w, Established(s, f, rest, Judge(p, s.fd, f, env)), |s.history.received|)
  {
    var f := PopFrame(s.fd.rxWire).frame;
    OnlyRespondersDraw(p, s.fd, f, env);
    HandshakesHappenOnce(p, s, f, env);
    StartsEmpty(p, s);
    UnstartedOf(p, s);
    EncodePop(s.fd.rxWire);
    JudgeSound(p, s, f, env);
    hide PopFrame, Judge, Inv, WasSealed, Stream, Undisputed, ClaimOf, Nonce, Lawful;
  }

  /** The record an action adds to the received ones was in the log. */
  lemma ReceivedWasSealed(p: Primitives, w: World, sid: Sid, e: Event)
    requires Lawful(p) && Possible(p, w, Do(sid, e)) && Inv(p, w.sessions[sid])
    ensures LoggedAt(w, Step(p, w.sessions[sid], Act(sid.pid, e)), |w.sessions[sid].history.received|)
  {
    var s := w.sessions[sid];
    hide PopFrame, Judge, Inv, WasSealed, Ideal, Established, Opened, Sealed, CanOpen, CanSeal, Connect, Adopt;
    if e.Open? {
      hide LoggedAt;
      OpenedWasSealed(p, w, s);
    } else if e.Handshake? {
      hide LoggedAt;
      ConfirmationWasSealed(p, w, s, e.env);
    } else {
      OnlyOpeningReceives(p, s, Act(sid.pid, e));
    }
  }

  lemma OnlyOpeningReceives(p: Primitives, s: Session, a: Act)
    requires Enabled(p, s, a) && !a.event.Open? && !a.event.Handshake?
    ensures Step(p, s, a).history.received == s.history.received
  {
    hide PopFrame, Judge, SealWith, Encode;
  }

  lemma ActiveNumbers(p: Primitives, s: Session)
    requires Inv(p, s) && s.fd.phase.Active?
    ensures s.history.link.Some? && s.fd.phase.keys.rx.key == s.history.link.value.rx
    ensures s.fd.phase.keys.rx.counter == |s.history.received|
    ensures s.fd.phase.keys.tx.key == s.history.link.value.tx
  {
    hide Bounded, Unstarted, Undowngraded, WireIn, WireOut, PlainOut, RecordsFit, Introduced, WriterEphemeral, Nonce;
  }

  lemma HandshakesHappenOnce(p: Primitives, s: Session, f: Parsed, env: Local)
    requires Judge(p, s.fd, f, env).Establish?
    ensures InHandshake(s.fd)
  {
    hide JudgeClientHello, JudgeFallbackHello, JudgeServerHello, JudgeFallbackFinished;
  }

  /** A received record and the log entry it matches carry the same plaintext. */
  lemma SealedIsReceived(p: Primitives, w: World, t: Session, n: nat)
    requires AeadLaws(p) && Locals(p, w) && LogSound(w) && Inv(p, t) && t.history.link.Some?
    requires n < |t.history.received| && WasSealed(w, t.history.link.value.rx, n, t.history.received[n].ciphertext)
    ensures w.seals[(t.history.link.value.rx, n)].record == t.history.received[n]
  {
    var k := t.history.link.value.rx;
    assert EntryOk(w, k, n);
    var owner := w.seals[(k, n)].owner;
    assert Inv(p, w.sessions[owner]);
    hide Bounded, Unstarted, Linked, Undowngraded, WireIn, WireOut, PlainOut, RecordsFit, Introduced, Nonce, LogSound,
         Locals;
    var m := w.sessions[owner].history.sealed[n].plaintext;
    assert p.open(k, Nonce(n), p.seal(k, Nonce(n), m)) == Some(m);
  }

  /** The log only gains entries. */
  lemma AdvanceExtendsLog(w: World, v: World, sid: Sid)
    requires Advance(w, v, sid)
    ensures forall k, n {:trigger (k, n) in w.seals} :: (k, n) in w.seals
              ==> (k, n) in v.seals && v.seals[(k, n)] == w.seals[(k, n)]
  {
  }

  lemma ReceivedPersists(w: World, v: World, sid: Sid, x: Sid, i: nat)
    requires Advance(w, v, sid) && ReceivedOk(w, x, i)
    requires x in w.sessions && i < |w.sessions[x].history.received|
    ensures ReceivedOk(v, x, i)
  {
    AdvanceExtendsLog(w, v, sid);
    hide NewSeals;
    assert (w.sessions[x].history.link.value.rx, i) in w.seals;
  }

  lemma AdvanceKeepsReceived(p: Primitives, w: World, v: World, sid: Sid)
    requires AeadLaws(p) && Locals(p, w) && LogSound(w) && ReceivedLogged(w)
    requires Advance(w, v, sid) && Inv(p, v.sessions[sid])
    requires LoggedAt(w, v.sessions[sid], |w.sessions[sid].history.received|)
    ensures ReceivedLogged(v)
  {
    var s, t := w.sessions[sid], v.sessions[sid];
    var n := |s.history.received|;
    AdvanceExtendsLog(w, v, sid);
    if |t.history.received| > n {
      SealedIsReceived(p, w, t, n);
    }
    hide Inv, LogSound, Locals, AeadLaws, NewSeals, WasSealed;
    forall x, i: nat
      ensures ReceivedOk(v, x, i)
    {
      if x in w.sessions && i < |w.sessions[x].history.received| {
        ReceivedPersists(w, v, sid, x, i);
      } else if x == sid && i < |t.history.received| {
        assert i == n;
      }
    }
  }

  lemma AdvanceKeepsLocals(p: Primitives, w: World, v: World, sid: Sid)
    requires Locals(p, w) && Advance(w, v, sid) && Inv(p, v.sessions[sid])
    ensures Locals(p, v)
  {
    assert sid in w.sessions && sid in v.sessions;
    GrownOwner(w.sessions[sid], v.sessions[sid]);
    OnlyOneChanged(w, v, sid);
    hide Inv, Advance;
    forall x | x in v.sessions
      ensures Inv(p, v.sessions[x]) && x.pid in v.pids && v.sessions[x].fd.ownerPid in v.pids
    {
      assert x in w.sessions;
      if x != sid {
        assert v.sessions[x] == w.sessions[x];
      }
    }
  }

  lemma OnlyOneChanged(w: World, v: World, sid: Sid)
    requires Advance(w, v, sid)
    ensures v.sessions.Keys == w.sessions.Keys && v.pids == w.pids
    ensures forall x :: x in w.sessions && x != sid ==> v.sessions[x] == w.sessions[x]
  {
    hide Grows, NewSeals;
  }

  lemma DoKeepsGood(p: Primitives, w: World, sid: Sid, e: Event)
    requires Lawful(p) && Good(p, w) && Possible(p, w, Do(sid, e))
    ensures Good(p, Next(p, w, Do(sid, e)))
  {
    hide Inv, Distinct, LogSound, ReceivedLogged, Advance, Step, Ideal, Enabled, Connect, Adopt, Inherited,
         NewSignings, NewSeals, AeadLaws, WasSealed;
    var v := Next(p, w, Do(sid, e));
    DoAdvances(p, w, sid, e);
    assert Inv(p, w.sessions[sid]);
    ReceivedWasSealed(p, w, sid, e);
    assert v.sessions[sid] == Step(p, w.sessions[sid], Act(sid.pid, e));
    hide Next, Locals;
    AdvanceKeepsLocals(p, w, v, sid);
    AdvanceKeepsDistinct(w, v, sid);
    AdvanceKeepsLog(w, v, sid);
    AdvanceKeepsReceived(p, w, v, sid);
  }

  lemma BirthKeepsGood(p: Primitives, w: World, sid: Sid, s: Session, v: World)
    requires Good(p, w) && sid !in w.sessions && sid.pid in w.pids
    requires Inv(p, s) && s.fd.ownerPid == sid.pid && s.history.sealed == [] && s.history.received == []
    requires Fresh(w, s.history.ephemeral)
    requires v.sessions == w.sessions[sid := s] && v.used == w.used + Values(s.history.ephemeral)
    requires v.seals == w.seals && v.pids == w.pids
    ensures Good(p, v)
  {
    hide Inv;
    forall a | a != sid
      ensures Ephemeral(v, a) == Ephemeral(w, a)
    {
    }
    assert Ephemeral(w, sid) == None;
    forall k, n: nat
      ensures EntryOk(v, k, n)
    {
      assert EntryOk(w, k, n);
    }
    forall x, i: nat
      ensures ReceivedOk(v, x, i)
    {
      assert ReceivedOk(w, x, i);
    }
  }

  lemma ForkKeepsGood(p: Primitives, w: World, parent: int, child: int)
    requires Good(p, w) && Possible(p, w, Fork(parent, child))
    ensures Good(p, Next(p, w, Fork(parent, child)))
  {
    hide Inv, Connect, Adopt, Step, NewSeals, NewSignings, Ideal, Enabled;
    var v := Next(p, w, Fork(parent, child));
    hide Next;
    forall a
      ensures Owned(v, a) <==> Owned(w, a)
      ensures Ephemeral(v, a) == Ephemeral(w, a)
    {
    }
    forall k, n: nat
      ensures EntryOk(v, k, n)
    {
      assert EntryOk(w, k, n);
    }
    forall x, i: nat
      ensures ReceivedOk(v, x, i)
    {
      assert ReceivedOk(w, x, i) && ReceivedOk(w, Sid(parent, x.n), i);
    }
  }

  lemma InstallKeepsGood(p: Primitives, w: World, sid: Sid, policy: Option<Suite>, env: Local, epoch: nat)
    requires Lawful(p) && Good(p, w) && Possible(p, w, Install(sid, policy, env, epoch))
    ensures Good(p, Next(p, w, Install(sid, policy, env, epoch)))
  {
    ConnectInv(p, policy, env, sid.pid, epoch);
    ConnectStartsEmpty(p, policy, env, sid.pid, epoch);
    hide Inv, Good, Connect, Lawful;
    BirthKeepsGood(p, w, sid, Connect(p, policy, env, sid.pid, epoch), Next(p, w, Install(sid, policy, env, epoch)));
  }

  lemma ConnectStartsEmpty(p: Primitives, policy: Option<Suite>, env: Local, pid: int, epoch: nat)
    ensures var s := Connect(p, policy, env, pid, epoch);
            s.history.sealed == [] && s.history.received == [] && s.history.link.None?
  {
    hide ClientHello, Encode;
  }

  lemma TrackKeepsGood(p: Primitives, w: World, sid: Sid, policy: Option<Suite>, epoch: nat)
    requires Good(p, w) && Possible(p, w, Track(sid, policy, epoch))
    ensures Good(p, Next(p, w, Track(sid, policy, epoch)))
  {
    AdoptInv(p, policy, sid.pid, epoch);
    hide Inv, Good, Connect;
    assert w.used + Values(None) == w.used;
    BirthKeepsGood(p, w, sid, Adopt(policy, sid.pid, epoch), Next(p, w, Track(sid, policy, epoch)));
  }

  lemma NextKeepsGood(p: Primitives, w: World, a: WorldAct)
    requires Lawful(p) && Good(p, w) && Possible(p, w, a)
    ensures Good(p, Next(p, w, a))
  {
    hide Lawful, Good, Possible, Next;
    match a
    case Do(sid, e) => DoKeepsGood(p, w, sid, e);
    case Fork(parent, child) => ForkKeepsGood(p, w, parent, child);
    case Install(sid, policy, env, epoch) => InstallKeepsGood(p, w, sid, policy, env, epoch);
    case Track(sid, policy, epoch) => TrackKeepsGood(p, w, sid, policy, epoch);
  }

  lemma {:induction false} RunIsGood(p: Primitives, pid: int, acts: seq<WorldAct>)
    requires Lawful(p) && Run(p, pid, acts).Some?
    ensures Good(p, Run(p, pid, acts).value)
    decreases |acts|
  {
    if acts != [] {
      hide Good, Next, Possible, Lawful;
      RunIsGood(p, pid, acts[..|acts| - 1]);
      NextKeepsGood(p, Run(p, pid, acts[..|acts| - 1]).value, acts[|acts| - 1]);
    }
  }
}
