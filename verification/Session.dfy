/**
 One tracked socket as a value: the fields of the per-descriptor state, what it has
 exchanged with the kernel, the peer and the application so far, and the atomic
 actions of which every intercepted call is made.
 */
module Session {
  import opened Bytes
  import opened Framing
  import opened Crypto
  import opened Handshake

  datatype Phase =
    | AwaitingServerHello(init: InitState)
    | AwaitingFallbackFinished(psk: bytes, clientNonce: FallbackNonce)
    | AwaitingClientHello
    | Active(keys: SessionKeys)
    | Failed

  type FallbackNonce = b: bytes | |b| == FALLBACK_NONCE_LEN witness Zeros(FALLBACK_NONCE_LEN)

  datatype Fd = Fd(
    phase: Phase,
    ownerPid: int,
    policySuite: Suite,
    configEpoch: nat,
    txBacklog: bytes,
    rxWire: bytes,
    rxPlain: bytes,
    countedActive: bool)

  predicate InHandshake(fd: Fd) {
    !fd.phase.Active? && !fd.phase.Failed?
  }

  predicate Idle(fd: Fd) {
    fd.txBacklog == [] && fd.rxWire == [] && fd.rxPlain == []
  }

  /** Nothing is held that a receive could still use without asking the kernel. */
  predicate Quiet(fd: Fd) {
    fd.rxPlain == [] && PopFrame(fd.rxWire).NoFrame?
  }

  /** `fail_closed`. */
  function Closed(fd: Fd): Fd {
    fd.(phase := Failed, txBacklog := [], rxWire := [], rxPlain := [], countedActive := false)
  }

  // --------------------------------- history ---------------------------------

  /** The i-th record of a direction is sealed or received under counter i. */
  datatype Record = Record(plaintext: bytes, ciphertext: bytes)

  datatype Link = Link(tx: Key, rx: Key)

  /** The keys a session starts with: the confirmation, where there is one, is behind it. */
  function FirstKeys(link: Link): (keys: SessionKeys) {
    SessionKeys(Direction(link.tx, Confirmations(link.tx)), Direction(link.rx, Confirmations(link.rx)))
  }

  datatype History = History(
    sent: bytes,
    pulled: bytes,
    delivered: bytes,
    helloOut: Option<Parsed>,
    helloIn: Option<Parsed>,
    sealed: seq<Record>,
    received: seq<Record>,
    link: Option<Link>,
    ephemeral: Option<bytes>,
    peer: bytes,
    psk: Option<bytes>)

  const NO_HISTORY := History([], [], [], None, None, [], [], None, None, [], None)

  /** `pending` is the frame a send has sealed and not yet queued. */
  datatype Session = Session(fd: Fd, pending: bytes, history: History)

  /** The fallback confirmation is a record of the responder's direction that carries no data. */
  function Confirmations(k: Key): (n: nat) {
    if k.suiteId == FALLBACK_SUITE_ID && k.half.ServerToClient? then 1 else 0
  }

  function DataOf(k: Key, records: seq<Record>): (data: seq<Record>) {
    if Confirmations(k) <= |records| then records[Confirmations(k)..] else []
  }

  function Plaintexts(records: seq<Record>): (ms: seq<bytes>)
    ensures |ms| == |records|
  {
    seq(|records|, i requires 0 <= i < |records| => records[i].plaintext)
  }

  function Ciphertexts(records: seq<Record>): (cs: seq<bytes>)
    ensures |cs| == |records|
  {
    seq(|records|, i requires 0 <= i < |records| => records[i].ciphertext)
  }

  function DataSealed(s: Session): (records: seq<Record>) {
    if s.history.link.None? then [] else DataOf(s.history.link.value.tx, s.history.sealed)
  }

  function DataReceived(s: Session): (records: seq<Record>) {
    if s.history.link.None? then [] else DataOf(s.history.link.value.rx, s.history.received)
  }

  function HelloFrames(h: Option<Parsed>): seq<Parsed> {
    if h.None? then [] else [h.value]
  }

  /** Everything this side has framed: its hello, then its data records. */
  function FramesOut(s: Session): (fs: seq<Parsed>) {
    HelloFrames(s.history.helloOut) + DataFrames(s.fd.policySuite.Id(), Ciphertexts(DataSealed(s)))
  }

  /** Everything this side has accepted: the peer's hello, then the peer's data records. */
  function FramesIn(s: Session): (fs: seq<Parsed>) {
    HelloFrames(s.history.helloIn) + DataFrames(s.fd.policySuite.Id(), Ciphertexts(DataReceived(s)))
  }

  // ------------------------------ local environment ------------------------------

  datatype Posture = FullPqc | EncryptedFallback | FailClosedPosture

  /** `select_posture`. */
  function SelectPosture(pqcAvailable: bool, pskConfigured: bool): Posture {
    if pqcAvailable then FullPqc else if pskConfigured then EncryptedFallback else FailClosedPosture
  }

  /** What a call reads from local configuration and from the random generator. */
  datatype Local = Local(
    identity: Option<Identity>,
    pqcAvailable: bool,
    psk: Option<bytes>,
    xSecret: bytes,
    decapKey: bytes,
    coins: bytes,
    nonce: FallbackNonce)

  function LocalPosture(env: Local): Posture {
    SelectPosture(env.pqcAvailable, env.psk.Some?)
  }

  // ---------------------------------- creation ----------------------------------

  function Blank(phase: Phase, pid: int, suite: Suite, epoch: nat): Session {
    Session(Fd(phase, pid, suite, epoch, [], [], [], false), [], NO_HISTORY)
  }

  function Announce(phase: Phase, pid: int, suite: Suite, epoch: nat, hello: Parsed, ephemeral: bytes,
                    psk: Option<bytes>): Session {
    var b := Blank(phase, pid, suite, epoch);
    b.(fd := b.fd.(txBacklog := Encode(hello)),
       history := NO_HISTORY.(helloOut := Some(hello), ephemeral := Some(ephemeral), psk := psk))
  }

  /** `build_pqc_initiator`. */
  function PqcInitiator(p: Primitives, suite: Suite, env: Local, pid: int, epoch: nat): (s: Session) {
    if env.identity.None? then Blank(Failed, pid, suite, epoch)
    else
      var st := ClientHello(p, suite, env.identity.value, env.xSecret, env.decapKey);
      var hello := Parsed(suite.Id(), TYPE_CLIENT_HELLO, st.clientHello);
      if Fits(st.clientHello)
      then Announce(AwaitingServerHello(st), pid, suite, epoch, hello, p.xPublic(env.xSecret), None)
      else Blank(Failed, pid, suite, epoch)
  }

  /** `build_fallback_initiator`. */
  function FallbackInitiator(suite: Suite, env: Local, pid: int, epoch: nat): (s: Session) {
    if env.psk.None? then Blank(Failed, pid, suite, epoch)
    else
      var hello := Parsed(FALLBACK_WIRE_ID, TYPE_FALLBACK_HELLO, env.nonce);
      Announce(AwaitingFallbackFinished(env.psk.value, env.nonce), pid, suite, epoch, hello, env.nonce, env.psk)
  }

  /** `install_initiator_state`: the posture is decided locally. */
  function Connect(p: Primitives, policy: Option<Suite>, env: Local, pid: int, epoch: nat): (s: Session) {
    match policy
    case None => Blank(Failed, pid, Nist768, epoch)
    case Some(suite) =>
      match LocalPosture(env)
      case FullPqc => PqcInitiator(p, suite, env, pid, epoch)
      case EncryptedFallback => FallbackInitiator(suite, env, pid, epoch)
      case FailClosedPosture => Blank(Failed, pid, suite, epoch)
  }

  /** `ensure_tracked` on an unknown stream socket. */
  function Adopt(policy: Option<Suite>, pid: int, epoch: nat): (s: Session) {
    match policy
    case None => Blank(Failed, pid, Nist768, epoch)
    case Some(suite) => Blank(AwaitingClientHello, pid, suite, epoch)
  }

  // --------------------------- handshake frame handling ---------------------------

  datatype Verdict =
    | Reject
    | Establish(keys: SessionKeys, reply: Option<Parsed>, sealed: seq<Record>, received: seq<Record>,
                ephemeral: Option<bytes>, peer: bytes, psk: Option<bytes>)

  /** The public keys of the one peer an identity trusts. */
  function PeerOf(id: Identity): bytes {
    id.peerEd + id.peerMl
  }

  predicate CanQueue(fd: Fd, f: Parsed) {
    Fits(f.payload) && |fd.txBacklog| + |Encode(f)| <= MAX_WRITE_BACKLOG
  }

  function JudgeClientHello(p: Primitives, fd: Fd, f: Parsed, env: Local): (v: Verdict) {
    if Suite.FromId(f.suiteId) != Some(fd.policySuite) || env.identity.None? then Reject
    else
      match Respond(p, fd.policySuite, env.identity.value, f.payload, env.xSecret, env.coins)
      case Err(_) => Reject
      case Ok((keys, hello)) =>
        var reply := Parsed(fd.policySuite.Id(), TYPE_SERVER_HELLO, hello);
        var ephemeral, peer := p.xPublic(env.xSecret), PeerOf(env.identity.value);
        if CanQueue(fd, reply) then Establish(keys, Some(reply), [], [], Some(ephemeral), peer, None) else Reject
  }

  function JudgeFallbackHello(p: Primitives, fd: Fd, f: Parsed, env: Local): (v: Verdict) {
    if LocalPosture(env) != EncryptedFallback then Reject
    else
      match FallbackRespond(p, env.psk.value, f.payload, env.nonce)
      case Err(_) => Reject
      case Ok((keys, finished)) =>
        var reply := Parsed(FALLBACK_WIRE_ID, TYPE_FALLBACK_FINISHED, finished);
        var confirm := Record(FALLBACK_CONFIRM, finished[FALLBACK_NONCE_LEN..]);
        if CanQueue(fd, reply) then Establish(keys, Some(reply), [confirm], [], Some(env.nonce), [], env.psk)
        else Reject
  }

  function JudgeServerHello(p: Primitives, fd: Fd, st: InitState, f: Parsed, env: Local): (v: Verdict) {
    if env.identity.None? || f.suiteId != fd.policySuite.Id() then Reject
    else
      match Finish(p, st, env.identity.value, f.payload)
      case Err(_) => Reject
      case Ok(keys) => Establish(keys, None, [], [], None, PeerOf(env.identity.value), None)
  }

  function JudgeFallbackFinished(p: Primitives, psk: bytes, cn: FallbackNonce, f: Parsed): (v: Verdict) {
    match FallbackFinish(p, psk, cn, f.payload)
    case Err(_) => Reject
    case Ok(keys) =>
      Establish(keys, None, [], [Record(FALLBACK_CONFIRM, f.payload[FALLBACK_NONCE_LEN..])], None, [], Some(psk))
  }

  /** The `(phase, type)` table of `drive_handshake`: one frame either establishes the session or is refused. */
  function Judge(p: Primitives, fd: Fd, f: Parsed, env: Local): (v: Verdict) {
    match fd.phase
    case AwaitingClientHello =>
      if f.tag == TYPE_CLIENT_HELLO then JudgeClientHello(p, fd, f, env)
      else if f.tag == TYPE_FALLBACK_HELLO then JudgeFallbackHello(p, fd, f, env)
      else Reject
    case AwaitingServerHello(st) =>
      if f.tag == TYPE_SERVER_HELLO then JudgeServerHello(p, fd, st, f, env) else Reject
    case AwaitingFallbackFinished(psk, cn) =>
      if f.tag == TYPE_FALLBACK_FINISHED then JudgeFallbackFinished(p, psk, cn, f) else Reject
    case _ => Reject
  }

  // ----------------------------------- actions -----------------------------------

  type Chunk = b: bytes | 1 <= |b| <= PULL_LEN witness [0]

  datatype Event =
    | Flush(n: nat)              // the kernel takes n bytes of the backlog
    | Pull(chunk: Chunk)         // the kernel hands over bytes
    | Handshake(env: Local)      // a hello frame is accepted
    | Seal(plaintext: bytes)     // an application record is sealed and framed
    | Queue                      // the frame joins the backlog
    | Open                       // a data frame is received
    | Deliver(n: nat)            // the application takes n bytes
    | Fail                       // fail_closed
    | Retire(epoch: nat)         // fail_closed of an idle state under a new configuration

  /** An event in the process that runs it. */
  datatype Act = Act(pid: int, event: Event)

  predicate CanOpen(p: Primitives, fd: Fd) {
    && fd.phase.Active?
    && PopFrame(fd.rxWire).Popped?
    && var f := PopFrame(fd.rxWire).frame;
       && f.tag == TYPE_DATA
       && f.suiteId == fd.policySuite.Id()
       && OpenWith(p, fd.phase.keys.rx, f.payload).Ok?
       && |fd.rxPlain| + |OpenWith(p, fd.phase.keys.rx, f.payload).value.1| <= MAX_PLAIN_RX_BUFFER
  }

  predicate CanSeal(p: Primitives, fd: Fd, plaintext: bytes) {
    && fd.phase.Active?
    && |plaintext| <= MAX_RECORD_PLAINTEXT
    && SealWith(p, fd.phase.keys.tx, plaintext).Ok?
    && Fits(SealWith(p, fd.phase.keys.tx, plaintext).value.1)
  }

  /** Only `fail_closed` may touch a state in a process that does not own it. */
  predicate Enabled(p: Primitives, s: Session, a: Act) {
    && (a.event.Fail? || a.event.Retire? || a.pid == s.fd.ownerPid)
    && match a.event
       case Flush(n) => 1 <= n <= |s.fd.txBacklog|
       case Pull(chunk) => !s.fd.phase.Failed? && Quiet(s.fd) && |s.fd.rxWire| + |chunk| <= MAX_WIRE_RX_BUFFER
       case Handshake(env) =>
         PopFrame(s.fd.rxWire).Popped? && Judge(p, s.fd, PopFrame(s.fd.rxWire).frame, env).Establish?
       case Seal(plaintext) => s.pending == [] && CanSeal(p, s.fd, plaintext)
       case Queue => s.pending != [] && |s.fd.txBacklog| + |s.pending| <= MAX_WRITE_BACKLOG
       case Open => CanOpen(p, s.fd)
       case Deliver(n) => 1 <= n <= |s.fd.rxPlain|
       case Fail => true
       case Retire(epoch) => Idle(s.fd) && epoch != s.fd.configEpoch
  }

  function Established(s: Session, f: Parsed, rest: bytes, v: Verdict): Session
    requires v.Establish?
  {
    var h := s.history;
    s.(fd := s.fd.(phase := Active(v.keys), rxWire := rest, txBacklog := s.fd.txBacklog + Stream(HelloFrames(v.reply)),
                   countedActive := true),
       history := h.(helloIn := Some(f),
                     helloOut := if v.reply.Some? then v.reply else h.helloOut,
                     sealed := v.sealed, received := v.received,
                     link := Some(Link(v.keys.tx.key, v.keys.rx.key)),
                     ephemeral := if v.ephemeral.Some? then v.ephemeral else h.ephemeral,
                     peer := v.peer,
                     psk := if v.psk.Some? then v.psk else h.psk))
  }

  function Sealed(p: Primitives, s: Session, plaintext: bytes): Session
    requires CanSeal(p, s.fd, plaintext)
  {
    var (tx, ct) := SealWith(p, s.fd.phase.keys.tx, plaintext).value;
    s.(fd := s.fd.(phase := Active(s.fd.phase.keys.(tx := tx))),
       pending := Encode(Parsed(s.fd.policySuite.Id(), TYPE_DATA, ct)),
       history := s.history.(sealed := s.history.sealed + [Record(plaintext, ct)]))
  }

  function Opened(p: Primitives, s: Session): Session
    requires CanOpen(p, s.fd)
  {
    var Popped(f, rest) := PopFrame(s.fd.rxWire);
    var (rx, m) := OpenWith(p, s.fd.phase.keys.rx, f.payload).value;
    s.(fd := s.fd.(phase := Active(s.fd.phase.keys.(rx := rx)), rxWire := rest, rxPlain := s.fd.rxPlain + m),
       history := s.history.(received := s.history.received + [Record(m, f.payload)]))
  }

  function Step(p: Primitives, s: Session, a: Act): (t: Session)
    requires Enabled(p, s, a)
  {
    match a.event
    case Flush(n) =>
      s.(fd := s.fd.(txBacklog := s.fd.txBacklog[n..]),
         history := s.history.(sent := s.history.sent + s.fd.txBacklog[..n]))
    case Pull(chunk) =>
      s.(fd := s.fd.(rxWire := s.fd.rxWire + chunk),
         history := s.history.(pulled := s.history.pulled + chunk))
    case Handshake(env) =>
      var Popped(f, rest) := PopFrame(s.fd.rxWire);
      Established(s, f, rest, Judge(p, s.fd, f, env))
    case Seal(plaintext) => Sealed(p, s, plaintext)
    case Queue => s.(fd := s.fd.(txBacklog := s.fd.txBacklog + s.pending), pending := [])
    case Open => Opened(p, s)
    case Deliver(n) =>
      s.(fd := s.fd.(rxPlain := s.fd.rxPlain[n..]),
         history := s.history.(delivered := s.history.delivered + s.fd.rxPlain[..n]))
    case Fail => s.(fd := Closed(s.fd), pending := [])
    case Retire(epoch) => s.(fd := Closed(s.fd).(configEpoch := epoch), pending := [])
  }

  /** The state a run of actions leads to; none if some action was not possible. */
  function After(p: Primitives, s: Session, acts: seq<Act>): (t: Option<Session>)
    decreases |acts|
  {
    if acts == [] then Some(s)
    else
      match After(p, s, acts[..|acts| - 1])
      case None => None
      case Some(u) => if Enabled(p, u, acts[|acts| - 1]) then Some(Step(p, u, acts[|acts| - 1])) else None
  }

  lemma AfterSnoc(p: Primitives, s: Session, acts: seq<Act>, t: Session, a: Act)
    requires After(p, s, acts) == Some(t)
    requires Enabled(p, t, a)
    ensures After(p, s, acts + [a]) == Some(Step(p, t, a))
  {
    assert (acts + [a])[..|acts|] == acts;
  }
}
