/**
 One whole run, for any two identities that trust each other, any secrets and any short message:
 connect, hybrid handshake, one record, delivery. The conditions on runs allow it at every step.
 */
module EndToEnd {
  import opened Bytes
  import opened Framing
  import opened Crypto
  import opened Handshake
  import opened Session
  import opened Channel
  import opened Network

  const CLIENT := Sid(1, 0)
  const SERVER := Sid(2, 0)

  datatype Scene = Scene(
    suite: Suite, client: Identity, server: Identity, clientSecret: bytes, decapKey: bytes, serverSecret: bytes,
      coins: bytes)

  ghost predicate Fair(p: Primitives, x: Scene) {
    && Lawful(p) && Trusting(p, x.client, x.server)
    && p.encapsulate(x.suite, p.kemPublic(x.suite, x.decapKey), x.coins).Some?
    && p.xPublic(x.clientSecret) != p.xPublic(x.serverSecret)
  }

  const NO_NONCE: FallbackNonce := Zeros(FALLBACK_NONCE_LEN)

  function ClientEnv(x: Scene): Local {
    Local(Some(x.client), true, None, x.clientSecret, x.decapKey, [], NO_NONCE)
  }

  function ServerEnv(x: Scene): Local {
    Local(Some(x.server), true, None, x.serverSecret, [], x.coins, NO_NONCE)
  }

  // ------------------------------------- the world -------------------------------------

  ghost predicate Stands(p: Primitives, acts: seq<WorldAct>, w: World, c: Session, s: Session) {
    && Run(p, 1, acts) == Some(w)
    && CLIENT in w.sessions && w.sessions[CLIENT] == c
    && SERVER in w.sessions && w.sessions[SERVER] == s
  }

  lemma RunSnoc(p: Primitives, acts: seq<WorldAct>, w: World, a: WorldAct)
    requires Run(p, 1, acts) == Some(w) && Possible(p, w, a)
    ensures Run(p, 1, acts + [a]) == Some(Next(p, w, a))
  {
    hide Possible, Next;
    assert (acts + [a])[..|acts|] == acts;
  }

  lemma ClientDoes(p: Primitives, acts: seq<WorldAct>, w: World, c: Session, s: Session, e: Event) returns (v: World)
    requires Stands(p, acts, w, c, s) && Enabled(p, c, Act(1, e)) && Ideal(p, w, c, e)
    ensures Stands(p, acts + [Do(CLIENT, e)], v, Step(p, c, Act(1, e)), s)
    ensures v.seals == w.seals + NewSeals(CLIENT, c, Step(p, c, Act(1, e)))
    ensures v.signings == w.signings + NewSignings(CLIENT, c, e)
  {
    hide Enabled, Step, Ideal, NewSeals, NewSignings, Run, Connect, Adopt, Inherited;
    v := Next(p, w, Do(CLIENT, e));
    RunSnoc(p, acts, w, Do(CLIENT, e));
  }

  lemma ServerDoes(p: Primitives, acts: seq<WorldAct>, w: World, c: Session, s: Session, e: Event) returns (v: World)
    requires Stands(p, acts, w, c, s) && Enabled(p, s, Act(2, e)) && Ideal(p, w, s, e)
    ensures Stands(p, acts + [Do(SERVER, e)], v, c, Step(p, s, Act(2, e)))
    ensures v.seals == w.seals + NewSeals(SERVER, s, Step(p, s, Act(2, e)))
    ensures v.signings == w.signings + NewSignings(SERVER, s, e)
    ensures v.used == w.used + Values(Step(p, s, Act(2, e)).history.ephemeral)
  {
    hide Enabled, Step, Ideal, NewSeals, NewSignings, Run, Connect, Adopt, Inherited;
    v := Next(p, w, Do(SERVER, e));
    RunSnoc(p, acts, w, Do(SERVER, e));
  }

  // ------------------------------------ the handshake -----------------------------------

  function Greeting(p: Primitives, x: Scene): InitState {
    ClientHello(p, x.suite, x.client, x.clientSecret, x.decapKey)
  }

  function GreetingFrame(p: Primitives, x: Scene): Parsed {
    Parsed(x.suite.Id(), TYPE_CLIENT_HELLO, Greeting(p, x).clientHello)
  }

  function Reply(p: Primitives, x: Scene): Result<(SessionKeys, bytes), CryptoError> {
    Respond(p, x.suite, x.server, Greeting(p, x).clientHello, x.serverSecret, x.coins)
  }

  function ReplyFrame(p: Primitives, x: Scene): Parsed {
    Parsed(x.suite.Id(), TYPE_SERVER_HELLO, if Reply(p, x).Ok? then Reply(p, x).value.1 else [])
  }

  /** Both hellos fit one pull, and each side accepts the other's. */
  lemma HellosWork(p: Primitives, x: Scene)
    requires Fair(p, x)
    ensures Reply(p, x).Ok? && Finish(p, Greeting(p, x), x.client, Reply(p, x).value.1).Ok?
    ensures Mirrored(Finish(p, Greeting(p, x), x.client, Reply(p, x).value.1).value, Reply(p, x).value.0)
    ensures Reply(p, x).value.0.tx.counter == 0 && Reply(p, x).value.0.rx.counter == 0
    ensures |GreetingFrame(p, x).payload| <= PULL_LEN - HDR_LEN - 2
              && |ReplyFrame(p, x).payload| <= PULL_LEN - HDR_LEN - 2
  {
    HonestHandshake(p, x.suite, x.client, x.server, x.clientSecret, x.decapKey, x.serverSecret, x.coins);
    ClientHelloGenuine(p, x.suite, x.client, x.clientSecret, x.decapKey);
    var ch := Greeting(p, x).clientHello;
    var (ct, ss) := p.encapsulate(x.suite, ch[X25519_LEN..X25519_LEN + x.suite.EkLen()], x.coins).value;
    ServerHelloReads(p, x.suite, x.server, ch, x.serverSecret, ct);
  }

  /** What the client claims in its hello is what it signed. */
  lemma GreetingWasSigned(p: Primitives, x: Scene, fd: Fd)
    requires Fair(p, x) && fd.phase.AwaitingClientHello? && fd.policySuite == x.suite
    ensures ClaimOf(fd, GreetingFrame(p, x), ServerEnv(x))
         == Some(Signature(p, Sent(CLIENT, x.suite, x.client, x.clientSecret, x.decapKey)))
  {
    hide AeadLaws;
    ClientHelloReads(p, x.suite, x.client, x.clientSecret, x.decapKey);
    ClientHelloGenuine(p, x.suite, x.client, x.clientSecret, x.decapKey);
    hide ClientHello, SplitIdentityFields, ClientUnsigned, ClientAuthMessage;
  }

  /** What the server claims in its answer is what it signed. */
  lemma ReplyWasSigned(p: Primitives, x: Scene, fd: Fd)
    requires Fair(p, x) && fd.phase == AwaitingServerHello(Greeting(p, x))
    ensures ClaimOf(fd, ReplyFrame(p, x), ClientEnv(x))
         == Some(Signature(p, Answered(SERVER, x.suite, x.server, Greeting(p, x).clientHello, x.serverSecret, x.coins)))
  {
    hide AeadLaws;
    HellosWork(p, x);
    ClientHelloGenuine(p, x.suite, x.client, x.clientSecret, x.decapKey);
    var ch := Greeting(p, x).clientHello;
    var (ct, ss) := p.encapsulate(x.suite, ch[X25519_LEN..X25519_LEN + x.suite.EkLen()], x.coins).value;
    ServerHelloReads(p, x.suite, x.server, ch, x.serverSecret, ct);
  }

  lemma GreetingAccepted(p: Primitives, x: Scene, fd: Fd)
    requires Fair(p, x) && fd.phase.AwaitingClientHello? && fd.policySuite == x.suite && fd.txBacklog == []
    ensures Reply(p, x).Ok?
    ensures Judge(p, fd, GreetingFrame(p, x), ServerEnv(x))
         == Establish(Reply(p, x).value.0, Some(ReplyFrame(p, x)), [], [], Some(p.xPublic(x.serverSecret)),
           PeerOf(x.server), None)
  {
    HellosWork(p, x);
    hide Fair, Respond, ClientHello, Encode;
    SuiteIds(x.suite.Id(), x.suite);
  }

  lemma ReplyAccepted(p: Primitives, x: Scene, fd: Fd)
    requires Fair(p, x) && fd.phase == AwaitingServerHello(Greeting(p, x)) && fd.policySuite == x.suite
    ensures Reply(p, x).Ok? && Finish(p, Greeting(p, x), x.client, Reply(p, x).value.1).Ok?
    ensures Judge(p, fd, ReplyFrame(p, x), ClientEnv(x))
         == Establish(Finish(p, Greeting(p, x), x.client, Reply(p, x).value.1).value, None, [], [], None,
           PeerOf(x.client), None)
  {
    HellosWork(p, x);
    hide Fair, Respond, Finish, ClientHello, Encode;
  }

  function Caller(p: Primitives, x: Scene): Session {
    Announce(AwaitingServerHello(Greeting(p, x)), 1, x.suite, 0, GreetingFrame(p, x), p.xPublic(x.clientSecret), None)
  }

  function Callee(x: Scene): Session {
    Blank(AwaitingClientHello, 2, x.suite, 0)
  }

  /** A second process, before anything is connected. */
  lemma TwoProcesses(p: Primitives)
    ensures Possible(p, Start(1), Fork(1, 2))
    ensures Next(p, Start(1), Fork(1, 2)) == World(map[], map[], {}, {}, {1, 2})
  {
    NothingInherited();
    hide Connect, Adopt, Step, Enabled, Ideal, NewSeals, NewSignings, Inherited;
    assert Next(p, Start(1), Fork(1, 2)).pids == {1, 2};
  }

  lemma NothingInherited()
    ensures Start(1).sessions + Inherited(Start(1), 1, 2) == map[]
  {
    assert Inherited(Start(1), 1, 2) == map[];
  }

  lemma ClientConnects(p: Primitives, x: Scene, w: World)
    requires Fair(p, x) && w == World(map[], map[], {}, {}, {1, 2})
    ensures var a := Install(CLIENT, Some(x.suite), ClientEnv(x), 0);
      && Possible(p, w, a)
      && Next(p, w, a) == World(map[CLIENT := Caller(p, x)], map[],
                                {Sent(CLIENT, x.suite, x.client, x.clientSecret, x.decapKey)},
                                  {p.xPublic(x.clientSecret)}, {1, 2})
  {
    HellosWork(p, x);
    hide Fair, ClientHello, Respond, Encode, Finish, Inherited;
    assert Connect(p, Some(x.suite), ClientEnv(x), 1, 0) == Caller(p, x);
  }

  /** Two processes, one connecting and one accepting. */
  lemma Opening(p: Primitives, x: Scene) returns (acts: seq<WorldAct>, w: World)
    requires Fair(p, x)
    ensures Stands(p, acts, w, Caller(p, x), Callee(x))
    ensures w.seals == map[] && w.used == {p.xPublic(x.clientSecret)}
    ensures w.signings == {Sent(CLIENT, x.suite, x.client, x.clientSecret, x.decapKey)}
  {
    hide Fair, Caller, Connect, Run;
    var fork, install,
      track := Fork(1, 2), Install(CLIENT, Some(x.suite), ClientEnv(x), 0), Track(SERVER, Some(x.suite), 0);
    assert Run(p, 1, []) == Some(Start(1)) by { NothingYet(p); }
    TwoProcesses(p);
    RunSnoc(p, [], Start(1), fork);
    var w1 := World(map[], map[], {}, {}, {1, 2});
    ClientConnects(p, x, w1);
    RunSnoc(p, [] + [fork], w1, install);
    var w2 := Next(p, w1, install);
    assert Possible(p, w2, track);
    w := Next(p, w2, track);
    RunSnoc(p, [] + [fork] + [install], w2, track);
    acts := [] + [fork] + [install] + [track];
  }

  lemma NothingYet(p: Primitives)
    ensures Run(p, 1, []) == Some(Start(1))
  {
  }

  /** Nothing but the client's own hello is asked of the world when the server answers. */
  lemma AnsweringIsIdeal(p: Primitives, x: Scene, w: World, s: Session)
    requires Fair(p, x) && s.fd.phase.AwaitingClientHello? && s.fd.policySuite == x.suite && s.fd.txBacklog == []
    requires PopFrame(s.fd.rxWire) == Popped(GreetingFrame(p, x), [])
    requires w.used == {p.xPublic(x.clientSecret)}
    requires w.signings == {Sent(CLIENT, x.suite, x.client, x.clientSecret, x.decapKey)}
    ensures Reply(p, x).Ok? && Ideal(p, w, s, Event.Handshake(ServerEnv(x)))
    ensures Enabled(p, s, Act(s.fd.ownerPid, Event.Handshake(ServerEnv(x))))
  {
    assert p.xPublic(x.clientSecret) != p.xPublic(x.serverSecret);
    GreetingWasSigned(p, x, s.fd);
    GreetingAccepted(p, x, s.fd);
    hide Fair, Judge, PopFrame, ClaimOf, Signature, Greeting, Reply;
  }

  lemma AnswerQueued(p: Primitives, x: Scene, s: Session)
    requires Reply(p, x).Ok? && s.fd.txBacklog == [] && s.history.sealed == []
    ensures var v := Establish(Reply(p, x).value.0, Some(ReplyFrame(p, x)), [], [], Some(p.xPublic(x.serverSecret)),
              PeerOf(x.server), None);
      var t := Established(s, GreetingFrame(p, x), [], v);
      && t.fd == s.fd.(phase := Active(Reply(p, x).value.0), rxWire := [],
           txBacklog := Encode(ReplyFrame(p, x)), countedActive := true)
      && t.pending == s.pending && t.history.delivered == s.history.delivered
      && t.history.sealed == [] && t.history.received == []
  {
    hide Reply, Encode;
    StreamSnoc([], ReplyFrame(p, x));
    assert [] + [ReplyFrame(p, x)] == [ReplyFrame(p, x)];
  }

  lemma HandshakeStep(p: Primitives, s: Session, env: Local, f: Parsed, v: Verdict)
    requires PopFrame(s.fd.rxWire) == Popped(f, []) && Judge(p, s.fd, f, env) == v && v.Establish?
    ensures var act := Act(s.fd.ownerPid, Event.Handshake(env));
      Enabled(p, s, act) && Step(p, s, act) == Established(s, f, [], v)
  {
    hide PopFrame, Judge, Established;
  }

  /** The client's hello reaches the server. */
  lemma HelloArrives(p: Primitives, x: Scene) returns (acts: seq<WorldAct>, w: World)
    requires Fair(p, x)
    ensures Stands(p, acts, w, Flushed(Caller(p, x)), Pulled(Callee(x), Encode(GreetingFrame(p, x))))
    ensures w.seals == map[] && w.used == {p.xPublic(x.clientSecret)}
    ensures w.signings == {Sent(CLIENT, x.suite, x.client, x.clientSecret, x.decapKey)}
  {
    var before, w0 := Opening(p, x);
    HellosWork(p, x);
    var f, c, s0 := GreetingFrame(p, x), Caller(p, x), Callee(x);
    FlushAll(p, c);
    PullFrame(p, s0, f);
    hide Fair, Greeting, Reply, Encode, Judge, PopFrame, Run, Ideal, Enabled, Stands, Step, Pulled;
    var flush := Flush(|c.fd.txBacklog|);
    PlainActsAreIdeal(p, w0, c, flush);
    var w1 := ClientDoes(p, before, w0, c, s0, flush);
    var pull := Pull(Encode(f));
    PlainActsAreIdeal(p, w1, s0, pull);
    w := ServerDoes(p, before + [Do(CLIENT, flush)], w1, Flushed(c), s0, pull);
    acts := before + [Do(CLIENT, flush)] + [Do(SERVER, pull)];
    PulledKeeps(s0, Encode(f));
  }

  lemma PulledKeeps(s: Session, wire: bytes)
    ensures Pulled(s, wire).history.sealed == s.history.sealed
              && Pulled(s, wire).history.ephemeral == s.history.ephemeral
    ensures Pulled(s, wire).history.link == s.history.link && Pulled(s, wire).pending == s.pending
    ensures s.fd.rxWire == [] ==> Pulled(s, wire).fd == s.fd.(rxWire := wire)
  {
  }

  /** The server answers the client's hello. */
  lemma Answering(p: Primitives, x: Scene) returns (acts: seq<WorldAct>, w: World, s: Session)
    requires Fair(p, x)
    ensures Reply(p, x).Ok?
    ensures Stands(p, acts, w, Flushed(Caller(p, x)), s)
    ensures s.fd == Fd(Active(Reply(p, x).value.0), 2, x.suite, 0, Encode(ReplyFrame(p, x)), [], [], true)
              && s.pending == []
    ensures s.history.delivered == [] && s.history.sealed == [] && s.history.received == [] && w.seals == map[]
    ensures Answered(SERVER, x.suite, x.server, Greeting(p, x).clientHello, x.serverSecret, x.coins) in w.signings
  {
    var before, w0 := HelloArrives(p, x);
    HellosWork(p, x);
    var f, s1 := GreetingFrame(p, x), Pulled(Callee(x), Encode(GreetingFrame(p, x)));
    PullFrame(p, Callee(x), f);
    hide Fair, Greeting, Reply, Encode, Judge, PopFrame, Run, Ideal, Enabled, Stands, Established, Caller, Step;
    AnsweringIsIdeal(p, x, w0, s1);
    GreetingAccepted(p, x, s1.fd);
    AnswerQueued(p, x, s1);
    HandshakeStep(p, s1, ServerEnv(x), f, Judge(p, s1.fd, f, ServerEnv(x)));
    var greet := Event.Handshake(ServerEnv(x));
    w := ServerDoes(p, before, w0, Flushed(Caller(p, x)), s1, greet);
    s := Step(p, s1, Act(2, greet));
    acts := before + [Do(SERVER, greet)];
  }

  lemma PlainActsAreIdeal(p: Primitives, w: World, s: Session, e: Event)
    requires !e.Open? && !e.Handshake?
    ensures Ideal(p, w, s, e)
  {
  }

  /** Nothing but the server's own answer is asked of the world when the client finishes. */
  lemma FinishingIsIdeal(p: Primitives, x: Scene, w: World, c: Session)
    requires Fair(p, x) && c.fd.phase == AwaitingServerHello(Greeting(p, x)) && c.fd.policySuite == x.suite
    requires PopFrame(c.fd.rxWire) == Popped(ReplyFrame(p, x), [])
    requires Answered(SERVER, x.suite, x.server, Greeting(p, x).clientHello, x.serverSecret, x.coins) in w.signings
    ensures Ideal(p, w, c, Event.Handshake(ClientEnv(x)))
    ensures Enabled(p, c, Act(c.fd.ownerPid, Event.Handshake(ClientEnv(x))))
  {
    ReplyWasSigned(p, x, c.fd);
    ReplyAccepted(p, x, c.fd);
    hide Fair, Judge, PopFrame, ClaimOf, Signature, Greeting, Reply, Finish;
  }

  /** Both ends hold mirrored keys, with nothing sent or waiting. */
  ghost predicate Settled(p: Primitives, x: Scene, c: Session, s: Session) {
    && c.fd.phase.Active? && s.fd.phase.Active? && Mirrored(c.fd.phase.keys, s.fd.phase.keys)
    && c.fd.phase.keys.tx.counter == 0
    && c.fd.policySuite == s.fd.policySuite && c.fd.ownerPid == 1 && s.fd.ownerPid == 2
    && c.fd.txBacklog == [] && c.pending == [] && c.history.sealed == []
    && c.history.link == Some(Link(c.fd.phase.keys.tx.key, c.fd.phase.keys.rx.key))
    && s.fd.rxWire == [] && s.fd.rxPlain == [] && s.history.delivered == []
  }

  /** The server's answer reaches the client. */
  lemma ReplyArrives(p: Primitives, x: Scene) returns (acts: seq<WorldAct>, w: World, c: Session, s: Session)
    requires Fair(p, x)
    ensures Reply(p, x).Ok?
    ensures Stands(p, acts, w, c, s)
    ensures c.fd == Fd(AwaitingServerHello(Greeting(p, x)), 1, x.suite, 0, [], Encode(ReplyFrame(p, x)), [], false)
    ensures c.pending == [] && PopFrame(Encode(ReplyFrame(p, x))) == Popped(ReplyFrame(p, x), [])
    ensures s.fd == Fd(Active(Reply(p, x).value.0), 2, x.suite, 0, [], [], [], true)
    ensures s.history.delivered == [] && w.seals == map[]
    ensures Answered(SERVER, x.suite, x.server, Greeting(p, x).clientHello, x.serverSecret, x.coins) in w.signings
  {
    var before, w0, s0 := Answering(p, x);
    HellosWork(p, x);
    var f, c0 := ReplyFrame(p, x), Flushed(Caller(p, x));
    FlushAll(p, s0);
    PullFrame(p, c0, f);
    hide Fair, Greeting, Reply, Encode, Judge, PopFrame, Run, Ideal, Enabled, Stands, Step, Pulled;
    var flush := Flush(|s0.fd.txBacklog|);
    PlainActsAreIdeal(p, w0, s0, flush);
    var w1 := ServerDoes(p, before, w0, c0, s0, flush);
    s := Flushed(s0);
    var pull := Pull(Encode(f));
    PlainActsAreIdeal(p, w1, c0, pull);
    w := ClientDoes(p, before + [Do(SERVER, flush)], w1, c0, s, pull);
    acts := before + [Do(SERVER, flush)] + [Do(CLIENT, pull)];
    PulledKeeps(c0, Encode(f));
    c := Pulled(c0, Encode(f));
  }

  lemma Finishing(p: Primitives, x: Scene) returns (acts: seq<WorldAct>, w: World, c: Session, s: Session)
    requires Fair(p, x)
    ensures Stands(p, acts, w, c, s) && Settled(p, x, c, s) && w.seals == map[]
  {
    var before, w0, c1, s0 := ReplyArrives(p, x);
    HellosWork(p, x);
    hide Fair, Greeting, Reply, Encode, Judge, PopFrame, Run, Ideal, Enabled, Stands, Finish, Established, Step,
         NewSeals, Mirrored;
    var f := ReplyFrame(p, x);
    FinishingIsIdeal(p, x, w0, c1);
    ReplyAccepted(p, x, c1.fd);
    FinishedClient(c1, f, Judge(p, c1.fd, f, ClientEnv(x)));
    HandshakeStep(p, c1, ClientEnv(x), f, Judge(p, c1.fd, f, ClientEnv(x)));
    var finish := Event.Handshake(ClientEnv(x));
    w := ClientDoes(p, before, w0, c1, s0, finish);
    c, s := Step(p, c1, Act(1, finish)), s0;
    acts := before + [Do(CLIENT, finish)];
    NothingSealed(CLIENT, c1, c);
    assert c.fd.phase.keys.tx == s.fd.phase.keys.rx by { MirroredTx(c.fd.phase.keys, s.fd.phase.keys); }
  }

  lemma NothingSealed(sid: Sid, s: Session, t: Session)
    requires t.history.sealed == []
    ensures NewSeals(sid, s, t) == map[]
  {
  }

  lemma MirroredTx(a: SessionKeys, b: SessionKeys)
    requires Mirrored(a, b)
    ensures a.tx == b.rx
  {
  }

  lemma FinishedClient(c: Session, f: Parsed, v: Verdict)
    requires v.Establish? && v.reply.None? && v.sealed == [] && v.received == []
    ensures var t := Established(c, f, [], v);
      && t.fd == c.fd.(phase := Active(v.keys), rxWire := [], countedActive := true)
      && t.pending == c.pending && t.history.sealed == [] && t.history.link == Some(Link(v.keys.tx.key, v.keys.rx.key))
  {
    assert Stream([]) == [];
    assert c.fd.txBacklog + [] == c.fd.txBacklog;
  }

  // -------------------------------------- delivery --------------------------------------

  function Ciphertext(p: Primitives, c: Session, message: bytes): bytes
    requires c.fd.phase.Active? && c.fd.phase.keys.tx.counter == 0
  {
    p.seal(c.fd.phase.keys.tx.key, Nonce(0), message)
  }

  function DataFrame(p: Primitives, c: Session, message: bytes): Parsed
    requires c.fd.phase.Active? && c.fd.phase.keys.tx.counter == 0
  {
    Parsed(c.fd.policySuite.Id(), TYPE_DATA, Ciphertext(p, c, message))
  }

  /** The record is sealed and logged. */
  lemma SealingRecord(p: Primitives, x: Scene, message: bytes)
    returns (acts: seq<WorldAct>, w: World, first: Session, c: Session, s: Session)
    requires Fair(p, x) && 1 <= |message| <= PULL_LEN - HDR_LEN - 2 - TAG_LEN
    ensures Settled(p, x, first, s) && Stands(p, acts, w, c, s)
    ensures WasSealed(w, first.fd.phase.keys.tx.key, 0, Ciphertext(p, first, message))
    ensures c.pending == Encode(DataFrame(p, first, message)) && Fits(DataFrame(p, first, message).payload)
    ensures c.fd.txBacklog == [] && c.fd.ownerPid == 1 && c.history.sent == first.history.sent
  {
    var before, w0, c0, s0 := Finishing(p, x);
    SettledClient(p, x, c0, s0);
    assert |Ciphertext(p, c0, message)| == |message| + TAG_LEN;
    hide Fair, Encode, Judge, PopFrame, Run, Ideal, Stands, Nonce, Settled, CanOpen, Opened, Established;
    var seal := Seal(message);
    PlainActsAreIdeal(p, w0, c0, seal);
    w := ClientDoes(p, before, w0, c0, s0, seal);
    first, c, s := c0, Step(p, c0, Act(1, seal)), s0;
    acts := before + [Do(CLIENT, seal)];
  }

  /** The record is on the wire. */
  lemma Sending(p: Primitives, x: Scene, message: bytes)
    returns (acts: seq<WorldAct>, w: World, first: Session, c: Session, s: Session)
    requires Fair(p, x) && 1 <= |message| <= PULL_LEN - HDR_LEN - 2 - TAG_LEN
    ensures Settled(p, x, first, s) && Stands(p, acts, w, c, s)
    ensures WasSealed(w, first.fd.phase.keys.tx.key, 0, Ciphertext(p, first, message))
    ensures c.history.sent == first.history.sent + Encode(DataFrame(p, first, message))
  {
    var before, w0, c0, c1, s0 := SealingRecord(p, x, message);
    hide Fair, Encode, Judge, PopFrame, Run, Ideal, Stands, Settled, CanOpen, CanSeal, Opened, Sealed, Established,
         Ciphertext;
    SettledServer(p, x, c0, s0);
    PlainActsAreIdeal(p, w0, c1, Queue);
    assert [] + c1.pending == c1.pending;
    var w1 := ClientDoes(p, before, w0, c1, s0, Queue);
    var c2 := Step(p, c1, Act(1, Queue));
    FlushAll(p, c2);
    var flush := Flush(|c2.fd.txBacklog|);
    PlainActsAreIdeal(p, w1, c2, flush);
    w := ClientDoes(p, before + [Do(CLIENT, Queue)], w1, c2, s0, flush);
    acts := before + [Do(CLIENT, Queue)] + [Do(CLIENT, flush)];
    first, c, s := c0, Flushed(c2), s0;
  }

  lemma SettledClient(p: Primitives, x: Scene, c: Session, s: Session)
    requires Settled(p, x, c, s)
    ensures c.fd.phase.Active? && c.pending == [] && c.fd.txBacklog == [] && c.fd.ownerPid == 1
    ensures c.fd.phase.keys.tx.counter == 0 && c.history.sealed == []
    ensures c.history.link == Some(Link(c.fd.phase.keys.tx.key, c.fd.phase.keys.rx.key))
  {
  }

  lemma SettledServer(p: Primitives, x: Scene, c: Session, s: Session)
    requires Settled(p, x, c, s)
    ensures c.fd.phase.Active? && s.fd.phase.Active? && s.fd.phase.keys.rx == c.fd.phase.keys.tx
              && c.fd.phase.keys.tx.counter == 0
    ensures s.fd.policySuite == c.fd.policySuite && s.fd.ownerPid == 2
    ensures s.fd.rxWire == [] && s.fd.rxPlain == [] && s.history.delivered == []
  {
  }

  lemma OpensTo(p: Primitives, c: Session, s: Session, message: bytes)
    requires AeadLaws(p) && c.fd.phase.Active? && s.fd.phase.Active? && s.fd.phase.keys.rx == c.fd.phase.keys.tx
    requires c.fd.phase.keys.tx.counter == 0 && s.fd.policySuite == c.fd.policySuite && s.fd.rxPlain == []
    requires |message| <= MAX_PLAIN_RX_BUFFER && PopFrame(s.fd.rxWire) == Popped(DataFrame(p, c, message), [])
    ensures CanOpen(p, s.fd)
    ensures var act := Act(s.fd.ownerPid, Open); Enabled(p, s, act) && Step(p, s, act) == Opened(p, s)
    ensures Opened(p, s).fd.rxPlain == message && Opened(p, s).history.delivered == s.history.delivered
    ensures Opened(p, s).fd.ownerPid == s.fd.ownerPid
  {
    hide PopFrame, Nonce;
  }

  /** The record is pulled and opened. */
  lemma Receiving(p: Primitives, x: Scene, message: bytes)
    returns (acts: seq<WorldAct>, w: World, c: Session, s: Session)
    requires Fair(p, x) && 1 <= |message| <= PULL_LEN - HDR_LEN - 2 - TAG_LEN
    ensures Stands(p, acts, w, c, s) && s.fd.rxPlain == message && s.history.delivered == [] && s.fd.ownerPid == 2
  {
    var before, w0, first, c0, s0 := Sending(p, x, message);
    SettledServer(p, x, first, s0);
    var f := DataFrame(p, first, message);
    assert AeadLaws(p) && |f.payload| == |message| + TAG_LEN;
    PullFrame(p, s0, f);
    hide Fair, Encode, Judge, PopFrame, Ideal, Nonce, Settled, CanOpen, Opened, AeadLaws, CanSeal, Sealed,
         Established, Run, Stands, Step, Enabled;
    var pull := Pull(Encode(f));
    PlainActsAreIdeal(p, w0, s0, pull);
    var w1 := ServerDoes(p, before, w0, c0, s0, pull);
    var s1 := Pulled(s0, Encode(f));
    OpensTo(p, first, s1, message);
    OpeningIsIdeal(p, w0, w1, first, s0, s1, message);
    c := c0;
    w := ServerDoes(p, before + [Do(SERVER, pull)], w1, c, s1, Open);
    s := Step(p, s1, Act(2, Open));
    acts := before + [Do(SERVER, pull)] + [Do(SERVER, Open)];
  }

  /** Whoever the two nodes are, whatever their secrets and whatever the message: there is a run
      at whose end the server's application has exactly the message. */
  lemma MessageArrives(p: Primitives, x: Scene, message: bytes) returns (acts: seq<WorldAct>)
    requires Fair(p, x) && 1 <= |message| <= PULL_LEN - HDR_LEN - 2 - TAG_LEN
    ensures Run(p, 1, acts).Some? && SERVER in Run(p, 1, acts).value.sessions
    ensures Run(p, 1, acts).value.sessions[SERVER].history.delivered == message
  {
    hide Fair, Judge, PopFrame, Ideal, CanOpen, Opened, CanSeal, Sealed, Established, Run;
    var before, w, c, s := Receiving(p, x, message);
    var deliver := Deliver(|message|);
    assert Ideal(p, w, s, deliver) by { PlainActsAreIdeal(p, w, s, deliver); }
    var v := ServerDoes(p, before, w, c, s, deliver);
    acts := before + [Do(SERVER, deliver)];
    assert message[..|message|] == message;
  }

  lemma OpeningIsIdeal(p: Primitives, w: World, v: World, c: Session, s: Session, t: Session, message: bytes)
    requires c.fd.phase.Active? && c.fd.phase.keys.tx.counter == 0 && t.fd.phase.Active?
              && t.fd.phase.keys.rx == c.fd.phase.keys.tx
    requires WasSealed(w, c.fd.phase.keys.tx.key, 0, Ciphertext(p, c, message))
    requires PopFrame(t.fd.rxWire) == Popped(DataFrame(p, c, message), [])
    requires v.seals == w.seals + NewSeals(SERVER, s, t) && t.history.sealed == s.history.sealed
    ensures Ideal(p, v, t, Open)
  {
    hide PopFrame, Nonce;
  }
}
