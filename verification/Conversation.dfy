/**
 From `connect` to the last byte, call by call: for any two identities that trust each other, any
 secrets and any message the backlog can hold, one receive, one send and further receives deliver
 exactly the message.
 */
module Conversation {
  import opened Bytes
  import opened Framing
  import opened Crypto
  import opened Handshake
  import opened Session
  import opened Invariants
  import opened Guarantees
  import opened Calls
  import opened Channel
  import opened Service
  import opened EndToEnd

  // ------------------------------- sends keep the invariant -------------------------------

  /** What a send on an active session leaves in place. */
  ghost predicate Kept(p: Primitives, s: Session, t: Session) {
    && Inv(p, t) && t.fd.phase.Active? && t.pending == []
    && t.history.link == s.history.link && t.fd.policySuite == s.fd.policySuite
    && s.history.sent <= t.history.sent
  }

  lemma RecordKept(p: Primitives, s: Session, blocking: bool, record: bytes, k: Script)
    requires Lawful(p) && Inv(p, s) && s.fd.phase.Active? && s.pending == [] && |record| <= MAX_RECORD_PLAINTEXT
    requires s.fd.phase.keys.tx.counter < U64_MAX
    requires |s.fd.txBacklog| + |record| + RECORD_OVERHEAD <= MAX_WRITE_BACKLOG
    ensures var t := RunRecord(p, s, blocking, record, k).session;
            Kept(p, s, t) && SealedText(t) == SealedText(s) + [record]
  {
    hide Inv, SealedText;
    RecordQueues(p, s, blocking, record, k);
    DataAlwaysFits(p, s.fd.phase.keys.tx, record);
    var u := Sealed(p, s, record);
    var t := RunRecord(p, s, blocking, record, k).session;
    hide Lawful, Encode, Sealed;
    SealedKept(p, s, record);
    StepKeepsInv(p, s, Act(s.fd.ownerPid, Seal(record)));
    assert HasRoom(u) by { QueuedFits(p, s, record); }
    assert t == Queueing(u);
    StepKeepsInv(p, u, Act(u.fd.ownerPid, Queue));
    SameText(u, t);
  }

  lemma SealedKept(p: Primitives, s: Session, record: bytes)
    requires Inv(p, s) && CanSeal(p, s.fd, record)
    ensures var t := Sealed(p, s, record);
            && SealedText(t) == SealedText(s) + [record]
            && t.fd.phase.Active? && t.history.link == s.history.link && t.fd.policySuite == s.fd.policySuite
            && t.history.sent == s.history.sent && t.pending != []
  {
    hide Bounded, Unstarted, Numbered, Undowngraded, WireIn, WireOut, PlainOut, RecordsFit, Introduced, Nonce;
    SealAppends(p, s, record);
  }

  lemma QueuedFits(p: Primitives, s: Session, record: bytes)
    requires Lawful(p) && CanSeal(p, s.fd, record)
    requires |s.fd.txBacklog| + |record| + RECORD_OVERHEAD <= MAX_WRITE_BACKLOG
    ensures HasRoom(Sealed(p, s, record))
  {
    var d := s.fd.phase.keys.tx;
    assert |p.seal(d.key, Nonce(d.counter), record)| == |record| + TAG_LEN;
    hide Nonce;
  }

  lemma SameText(s: Session, t: Session)
    requires t.history.link == s.history.link && t.history.sealed == s.history.sealed
    ensures SealedText(t) == SealedText(s)
  {
  }

  lemma {:induction false} RecordsKept(p: Primitives, s: Session, blocking: bool, records: seq<bytes>, k: Script)
    requires Lawful(p) && Inv(p, s) && s.fd.phase.Active? && s.pending == []
    requires forall i :: 0 <= i < |records| ==> |records[i]| <= MAX_RECORD_PLAINTEXT
    requires s.fd.phase.keys.tx.counter + |records| <= U64_MAX
    requires |s.fd.txBacklog| + RecordsLen(records) <= MAX_WRITE_BACKLOG
    ensures var t := RunRecords(p, s, blocking, records, k).session;
            && Kept(p, s, t) && SealedText(t) == SealedText(s) + records
            && |t.fd.txBacklog| == |s.fd.txBacklog| + RecordsLen(records)
    decreases |records|
  {
    hide Lawful, Inv, RunRecord, SealedText;
    if records == [] {
      assert SealedText(s) + records == SealedText(s);
    } else {
      RecordKept(p, s, blocking, records[0], k);
      assert AeadLaws(p) by { AeadOf(p); }
      RecordQueues(p, s, blocking, records[0], k);
      var u := RunRecord(p, s, blocking, records[0], k).session;
      RecordsKept(p, u, blocking, records[1..], k);
      assert SealedText(s) + [records[0]] + records[1..] == SealedText(s) + records;
    }
  }

  lemma AeadOf(p: Primitives)
    requires Lawful(p)
    ensures AeadLaws(p)
  {
  }

  /** The kernel takes the whole backlog at once. */
  lemma FlushedAtOnce(s: Session, k: Script)
    requires s.fd.txBacklog != [] && k.sends != [] && k.sends[0].Took? && k.sends[0].n >= |s.fd.txBacklog|
    ensures RunFlush(s, k) == Outcome(Emptied, Flushed(s), k.(sends := k.sends[1..]))
  {
    var b := s.fd.txBacklog;
    assert b[|b|..] == [] && b[..|b|] == b;
    assert Flushing(s, |b|) == Flushed(s);
  }

  lemma FlushedKept(p: Primitives, s: Session)
    requires Lawful(p) && Inv(p, s) && s.fd.phase.Active? && s.pending == []
    ensures Kept(p, s, Flushed(s)) && SealedText(Flushed(s)) == SealedText(s)
  {
    hide Lawful, Inv, SealedText;
    SameText(s, Flushed(s));
    if s.fd.txBacklog == [] {
      assert Flushed(s) == s;
    } else {
      FlushAll(p, s);
      StepKeepsInv(p, s, Act(s.fd.ownerPid, Flush(|s.fd.txBacklog|)));
    }
  }

  /** A whole message on an active session with an empty backlog, taken by the kernel at once. */
  lemma SentAtOnce(p: Primitives, s: Session, blocking: bool, m: bytes, k: Script)
    requires Lawful(p) && Inv(p, s) && s.fd.phase.Active? && s.pending == [] && s.fd.txBacklog == []
    requires s.fd.phase.keys.tx.counter == 0 && m != [] && WireLen(m) <= MAX_WRITE_BACKLOG
    requires k.sends != [] && k.sends[0].Took? && k.sends[0].n >= WireLen(m)
    ensures var o := RunSendAll(p, s, blocking, m, k);
            && o.result == Returned(|m|) && o.session.fd.txBacklog == []
            && Kept(p, s, o.session) && SealedText(o.session) == SealedText(s) + Split(m)
  {
    hide Lawful, Inv, Split, RunRecords, RunFlush, RunFinish, SealedText, RecordsLen, WireLen, Kept;
    MessageFits(m);
    AeadOf(p);
    hide AeadLaws;
    RecordsKept(p, s, blocking, Split(m), k);
    RecordsQueue(p, s, blocking, Split(m), k);
    var t := RunRecords(p, s, blocking, Split(m), k).session;
    FinishedAtOnce(t, blocking, k);
    KeptTwice(p, s, t);
  }

  lemma MessageFits(m: bytes)
    requires m != [] && WireLen(m) <= MAX_WRITE_BACKLOG
    ensures 0 < |Split(m)| <= U64_MAX && RecordsLen(Split(m)) == WireLen(m) > 0
    ensures forall i :: 0 <= i < |Split(m)| ==> |Split(m)[i]| <= MAX_RECORD_PLAINTEXT
  {
    SplitIsExact(m);
    SplitLen(m);
  }

  lemma FinishedAtOnce(s: Session, blocking: bool, k: Script)
    requires s.fd.txBacklog != [] && k.sends != [] && k.sends[0].Took? && k.sends[0].n >= |s.fd.txBacklog|
    ensures RunFinish(s, blocking, k) == Outcome(Returned(0), Flushed(s), k.(sends := k.sends[1..]))
  {
    hide RunFlush;
    FlushedAtOnce(s, k);
  }

  lemma KeptTwice(p: Primitives, s: Session, t: Session)
    requires Lawful(p) && Kept(p, s, t)
    ensures Kept(p, s, Flushed(t)) && SealedText(Flushed(t)) == SealedText(t)
  {
    hide Inv, Lawful, SealedText;
    FlushedKept(p, t);
  }

  // ---------------------------------- the responder ----------------------------------

  /** The server's session once it has answered and its answer has been sent. */
  function Answered(p: Primitives, x: Scene): Session
    requires Reply(p, x).Ok?
  {
    Flushed(Established(Pulling(Callee(x), Encode(GreetingFrame(p, x))), GreetingFrame(p, x), [], ServerVerdict(p, x)))
  }

  function ServerVerdict(p: Primitives, x: Scene): Verdict
    requires Reply(p, x).Ok?
  {
    Establish(Reply(p, x).value.0, Some(ReplyFrame(p, x)), [], [], Some(p.xPublic(x.serverSecret)), PeerOf(x.server),
              None)
  }

  /** The first round finds nothing and reads the greeting. */
  lemma GreetingIsRead(p: Primitives, x: Scene, env: Local, greeting: Chunk, rest: seq<RecvResult>,
                       sends: seq<SendResult>)
    ensures ReadStep(p, Callee(x), env, false, Script(sends, [Arrived(greeting)] + rest))
         == Outcome(None, Pulling(Callee(x), greeting), Script(sends, rest))
  {
    EmptyHasNoFrame();
    hide PopFrame, Judge;
    var k := Script(sends, [Arrived(greeting)] + rest);
    assert k.recvs[1..] == rest;
    assert RunDriveForRead(p, Callee(x), env, k) == Outcome(false, Callee(x), k);
  }

  /** The second round answers it, sends the answer, and finds nothing more. */
  lemma GreetingIsAnswered(p: Primitives, x: Scene, greeting: Chunk, n: nat)
    requires Fair(p, x) && greeting == Encode(GreetingFrame(p, x)) && n >= |Encode(ReplyFrame(p, x))|
    ensures Reply(p, x).Ok?
    ensures ReadStep(p, Pulling(Callee(x), greeting), ServerEnv(x), false, Script([Took(n)], [RecvWouldBlock]))
         == Outcome(Some(Error(EAGAIN)), Answered(p, x), Script([], []))
  {
    hide Fair, Reply, Encode, Established, Driven, ReadStep, ServerVerdict;
    GreetingDrives(p, x, greeting);
    AnswerGoesOut(p, Pulling(Callee(x), greeting), ServerEnv(x), n);
  }

  lemma GreetingDrives(p: Primitives, x: Scene, greeting: Chunk)
    requires Fair(p, x) && greeting == Encode(GreetingFrame(p, x))
    ensures Reply(p, x).Ok?
    ensures var s := Pulling(Callee(x), greeting);
            var t := Driven(p, s, ServerEnv(x));
            && t == Established(s, GreetingFrame(p, x), [], ServerVerdict(p, x))
            && t.fd.phase == Active(Reply(p, x).value.0) && t.fd.rxWire == [] && t.fd.rxPlain == []
            && t.fd.txBacklog == Encode(ReplyFrame(p, x)) && t.fd.txBacklog != []
            && t.history.sent == [] && t.history.pulled == greeting && t.history.delivered == []
  {
    HellosWork(p, x);
    var s := Pulling(Callee(x), greeting);
    PullFrame(p, Callee(x), GreetingFrame(p, x));
    GreetingAccepted(p, x, s.fd);
    AnswerQueued(p, x, s);
    hide Fair, PopFrame, Judge, Greeting, Reply, Encode;
    assert s.fd.rxWire == greeting && s.history.pulled == greeting;
  }

  /** A round that answers: what is queued leaves at once, and there is nothing more to read. */
  lemma AnswerGoesOut(p: Primitives, s: Session, env: Local, n: nat)
    requires InHandshake(s.fd) && s.fd.txBacklog == []
    requires var t := Driven(p, s, env);
             && t.fd.phase.Active? && t.fd.rxWire == [] && t.fd.rxPlain == []
             && t.fd.txBacklog != [] && n >= |t.fd.txBacklog|
    ensures ReadStep(p, s, env, false, Script([Took(n)], [RecvWouldBlock]))
         == Outcome(Some(Error(EAGAIN)), Flushed(Driven(p, s, env)), Script([], []))
  {
    hide Driven, PopFrame;
    var t, k := Driven(p, s, env), Script([Took(n)], [RecvWouldBlock]);
    EmptyHasNoFrame();
    FlushedAtOnce(t, k);
    assert k.sends[1..] == [] && k.recvs[1..] == [];
    assert RunDriveForRead(p, s, env, k) == Outcome(false, Flushed(t), Script([], [RecvWouldBlock]));
    assert Calls.Opening(p, Flushed(t)) == Flushed(t);
  }

  /** The server's first receive, without blocking: it answers the greeting and has nothing to hand over yet. */
  lemma ServerAnswers(p: Primitives, x: Scene, len: nat, greeting: Chunk, n: nat)
    requires Fair(p, x) && len > 0 && greeting == Encode(GreetingFrame(p, x)) && n >= |Encode(ReplyFrame(p, x))|
    ensures Reply(p, x).Ok?
    ensures RunRecv(p, Adopt(Some(x.suite), 2, 0), ServerEnv(x), 2, 0, false, len,
                    Script([Took(n)], [Arrived(greeting), RecvWouldBlock]))
         == Outcome(Error(EAGAIN), Answered(p, x), Script([], []))
  {
    hide Fair, Reply, Encode, ReadStep, Answered;
    var k := Script([Took(n)], [Arrived(greeting), RecvWouldBlock]);
    assert k.recvs == [Arrived(greeting)] + [RecvWouldBlock];
    GreetingIsRead(p, x, ServerEnv(x), greeting, [RecvWouldBlock], [Took(n)]);
    GreetingIsAnswered(p, x, greeting, n);
    assert RunAwait(p, Callee(x), ServerEnv(x), false, k)
      == RunAwait(p, Pulling(Callee(x), greeting), ServerEnv(x), false, Script([Took(n)], [RecvWouldBlock]));
  }

  lemma AnsweredInv(p: Primitives, x: Scene)
    requires Fair(p, x)
    ensures Reply(p, x).Ok? && Inv(p, Answered(p, x))
    ensures var s := Answered(p, x);
            && s.fd.phase == Active(Reply(p, x).value.0) && s.fd.policySuite == x.suite
            && s.history.link == Some(Link(Reply(p, x).value.0.tx.key, Reply(p, x).value.0.rx.key))
            && s.history.sent == Encode(ReplyFrame(p, x)) && s.history.pulled == Encode(GreetingFrame(p, x))
            && s.history.delivered == [] && s.fd.ownerPid == 2 && s.fd.configEpoch == 0
  {
    HellosWork(p, x);
    PullFrame(p, Callee(x), GreetingFrame(p, x));
    var greeting: Chunk := Encode(GreetingFrame(p, x));
    GreetingDrives(p, x, greeting);
    AdoptInv(p, Some(x.suite), 2, 0);
    hide AeadLaws, ExchangeLaws, SignatureLaws, Inv, Reply, Encode, Greeting, Driven, PopFrame, Judge;
    var s := Pulling(Callee(x), greeting);
    StepKeepsInv(p, Callee(x), Act(2, Pull(greeting)));
    assert Inv(p, s);
    DrivenInv(p, s, ServerEnv(x));
    var t := Driven(p, s, ServerEnv(x));
    hide Fair;
    FlushAll(p, t);
    StepKeepsInv(p, t, Act(t.fd.ownerPid, Flush(|t.fd.txBacklog|)));
    assert [] + Encode(ReplyFrame(p, x)) == Encode(ReplyFrame(p, x));
  }

  lemma DrivenInv(p: Primitives, s: Session, env: Local)
    requires Lawful(p) && Inv(p, s)
    ensures Inv(p, Driven(p, s, env))
  {
    hide Lawful, Inv, PopFrame, Judge, Established;
    match PopFrame(s.fd.rxWire)
    case NoFrame =>
    case Malformed => StepKeepsInv(p, s, Act(s.fd.ownerPid, Fail));
    case Popped(f, _) =>
      if Judge(p, s.fd, f, env).Establish? {
        StepKeepsInv(p, s, Act(s.fd.ownerPid, Event.Handshake(env)));
      } else {
        StepKeepsInv(p, s, Act(s.fd.ownerPid, Fail));
      }
  }

  // ---------------------------------- the initiator ----------------------------------

  /** The client's session once its greeting has been sent and the answer accepted. */
  function Agreed(p: Primitives, x: Scene): Session {
    Driven(p, Pulling(Flushed(Caller(p, x)), Encode(ReplyFrame(p, x))), ClientEnv(x))
  }

  /** What arrives at the client: the answer, whole, which it accepts. */
  lemma ReplyArrives(p: Primitives, x: Scene)
    requires Fair(p, x)
    ensures Reply(p, x).Ok? && Finish(p, Greeting(p, x), x.client, Reply(p, x).value.1).Ok?
    ensures var f, t := ReplyFrame(p, x), Pulling(Flushed(Caller(p, x)), Encode(ReplyFrame(p, x)));
            && 1 <= |Encode(f)| <= PULL_LEN && t.fd.rxWire == Encode(f) && PopFrame(t.fd.rxWire) == Popped(f, [])
            && Judge(p, t.fd, f, ClientEnv(x))
               == Establish(Finish(p, Greeting(p, x), x.client, Reply(p, x).value.1).value, None, [], [], None,
                            PeerOf(x.client), None)
  {
    hide Fair, PopFrame, Judge, Greeting, Reply, Encode, Finish;
    HellosWork(p, x);
    var c := Flushed(Caller(p, x));
    PullFrame(p, c, ReplyFrame(p, x));
    ReplyAccepted(p, x, Pulling(c, Encode(ReplyFrame(p, x))).fd);
    assert [] + Encode(ReplyFrame(p, x)) == Encode(ReplyFrame(p, x));
  }

  lemma ReplyDrives(p: Primitives, x: Scene)
    requires Fair(p, x)
    ensures Reply(p, x).Ok? && Finish(p, Greeting(p, x), x.client, Reply(p, x).value.1).Ok?
    ensures var t, keys := Agreed(p, x), Finish(p, Greeting(p, x), x.client, Reply(p, x).value.1).value;
            && t.fd.phase == Active(keys) && t.fd.policySuite == x.suite
            && t.history.link == Some(Link(keys.tx.key, keys.rx.key))
            && t.fd.txBacklog == [] && t.pending == []
            && t.history.sent == Encode(GreetingFrame(p, x)) && SealedText(t) == []
  {
    hide Fair, PopFrame, Judge, Greeting, Reply, Encode, Finish;
    ReplyArrives(p, x);
    assert Encode(GreetingFrame(p, x)) == [] + Encode(GreetingFrame(p, x));
  }

  lemma FlushIsAStep(p: Primitives, s: Session)
    requires Lawful(p) && Inv(p, s) && s.fd.txBacklog != []
    ensures Inv(p, Flushed(s))
  {
    hide Lawful, Inv;
    FlushAll(p, s);
    StepKeepsInv(p, s, Act(s.fd.ownerPid, Flush(|s.fd.txBacklog|)));
  }

  lemma AgreedInv(p: Primitives, x: Scene)
    requires Fair(p, x)
    ensures Inv(p, Agreed(p, x))
  {
    hide AeadLaws, ExchangeLaws, SignatureLaws, Inv, Reply, Encode, Greeting, Driven, PopFrame, Judge, Finish, Connect;
    ReplyArrives(p, x);
    ConnectInv(p, Some(x.suite), ClientEnv(x), 1, 0);
    ConnectIsCaller(p, x);
    GreetingNotEmpty(p, x);
    var c, reply := Caller(p, x), Encode(ReplyFrame(p, x));
    FlushIsAStep(p, c);
    EmptyHasNoFrame();
    PullIsAStep(p, Flushed(c), reply);
    DrivenInv(p, Pulling(Flushed(c), reply), ClientEnv(x));
  }

  lemma ConnectIsCaller(p: Primitives, x: Scene)
    requires Fair(p, x)
    ensures Connect(p, Some(x.suite), ClientEnv(x), 1, 0) == Caller(p, x)
  {
    HellosWork(p, x);
    hide Fair, Encode, Reply;
  }

  lemma GreetingNotEmpty(p: Primitives, x: Scene)
    requires Fair(p, x)
    ensures Encode(GreetingFrame(p, x)) != []
  {
    HellosWork(p, x);
    hide Fair, Reply;
  }

  /** The client's send: the greeting goes out, the answer comes in, and the whole message is sealed and sent. */
  lemma ClientSends(p: Primitives, x: Scene, blocking: bool, m: bytes, reply: Chunk, n: nat)
    requires Fair(p, x) && reply == Encode(ReplyFrame(p, x)) && m != [] && n >= WireLen(m)
    requires WireLen(m) <= MAX_WRITE_BACKLOG
    ensures var o := RunSend(p, Connect(p, Some(x.suite), ClientEnv(x), 1, 0), ClientEnv(x), 1, 0, blocking, m,
                             Script([Took(|Encode(GreetingFrame(p, x))|), Took(n)], [Arrived(reply)]));
            && o.result == Returned(|m|) && o.session.fd.txBacklog == []
            && Kept(p, Agreed(p, x), o.session) && SealedText(o.session) == Split(m)
  {
    hide Fair, Connect, Lawful, Inv, Reply, Finish, Greeting, Encode, Judge, PopFrame, Driven, WireLen, Split,
         SealedText, RunSend, RunSendAll, RunFlush, Kept;
    var k := Script([Took(|Encode(GreetingFrame(p, x))|), Took(n)], [Arrived(reply)]);
    ConnectIsCaller(p, x);
    ClientReady(p, x, blocking, m, reply, k);
    ReplyDrives(p, x);
    AgreedInv(p, x);
    CountersStart(p, x);
    LawfulOf(p, x);
    assert k.sends[1..] == [Took(n)] && k.recvs[1..] == [];
    SentAtOnce(p, Agreed(p, x), blocking, m, Script([Took(n)], []));
    assert [] + Split(m) == Split(m);
  }

  lemma LawfulOf(p: Primitives, x: Scene)
    requires Fair(p, x)
    ensures Lawful(p)
  {
    hide Lawful;
  }

  lemma CountersStart(p: Primitives, x: Scene)
    requires Fair(p, x)
    ensures Reply(p, x).Ok? && Finish(p, Greeting(p, x), x.client, Reply(p, x).value.1).Ok?
    ensures var keys := Finish(p, Greeting(p, x), x.client, Reply(p, x).value.1).value;
            keys.tx.counter == 0 && Mirrored(keys, Reply(p, x).value.0)
  {
    hide Fair, Reply, Finish, Greeting;
    HellosWork(p, x);
  }

  /** The handshake part of that send. */
  lemma ClientReady(p: Primitives, x: Scene, blocking: bool, m: bytes, reply: Chunk, k: Script)
    requires Fair(p, x) && reply == Encode(ReplyFrame(p, x)) && m != []
    requires |k.sends| > 0 && k.sends[0] == Took(|Encode(GreetingFrame(p, x))|) && k.recvs == [Arrived(reply)]
    ensures RunSend(p, Caller(p, x), ClientEnv(x), 1, 0, blocking, m, k)
         == RunSendAll(p, Agreed(p, x), blocking, m, Script(k.sends[1..], []))
  {
    hide Fair, Reply, Finish, Greeting, Encode, Judge, PopFrame, Driven, RunSend, RunSendAll, RunFlush;
    var c := Caller(p, x);
    GreetingNotEmpty(p, x);
    FlushedAtOnce(c, k);
    ReplyArrives(p, x);
    assert k.recvs[1..] == [];
    HandshakeCompletes(p, c, ClientEnv(x), 1, 0, blocking, m, k);
  }

  // ------------------------------------ the whole ------------------------------------

  lemma EndsConnected(p: Primitives, x: Scene, c: Session)
    requires Fair(p, x) && Reply(p, x).Ok? && Kept(p, Agreed(p, x), c)
    ensures var greeting := Encode(GreetingFrame(p, x));
            greeting <= c.history.sent && Connected(p, c, Answered(p, x), c.history.sent[|greeting|..])
  {
    hide Fair, Inv, Reply, Finish, Greeting, Encode, Agreed, Answered;
    ReplyDrives(p, x);
    AnsweredInv(p, x);
    CountersStart(p, x);
  }

  /** A kernel that hands these bytes over in one piece, if one read can hold them. */
  function Whole(w: bytes): RecvResult {
    if 1 <= |w| <= PULL_LEN then Arrived(w) else RecvWouldBlock
  }

  function Beyond(w: bytes, n: nat): bytes {
    if n <= |w| then w[n..] else []
  }

  /** The server's first receive, on a socket it has just accepted: the greeting has arrived, and nothing more. */
  function FirstReceive(p: Primitives, x: Scene, len: nat): Outcome<CallResult> {
    var greeting, reply := Encode(GreetingFrame(p, x)), Encode(ReplyFrame(p, x));
    RunRecv(p, Adopt(Some(x.suite), 2, 0), ServerEnv(x), 2, 0, false, len,
            Script([Took(|reply|)], [Whole(greeting), RecvWouldBlock]))
  }

  /** The client's send, right after `connect`: the greeting is taken, the answer arrives, the rest is taken. */
  function OneSend(p: Primitives, x: Scene, blocking: bool, m: bytes): Outcome<CallResult> {
    var greeting, reply := Encode(GreetingFrame(p, x)), Encode(ReplyFrame(p, x));
    RunSend(p, Connect(p, Some(x.suite), ClientEnv(x), 1, 0), ClientEnv(x), 1, 0, blocking, m,
            Script([Took(|greeting|), Took(WireLen(m))], [Whole(reply)]))
  }

  lemma HellosAreWhole(p: Primitives, x: Scene)
    requires Fair(p, x)
    ensures var greeting, reply := Encode(GreetingFrame(p, x)), Encode(ReplyFrame(p, x));
            && 1 <= |greeting| <= PULL_LEN && 1 <= |reply| <= PULL_LEN
            && Whole(greeting) == Arrived(greeting) && Whole(reply) == Arrived(reply)
  {
    hide Fair, Reply, Greeting;
    HellosWork(p, x);
  }

  /**
   Any two identities that trust each other, any secrets, any message that the backlog can hold, either mode of the
   sockets, any buffer size and any pieces in which the data arrives. The server's receive answers the greeting, the
   client's send takes in that answer and returns the full length, and the server's further receives deliver exactly
   the message.
   */
  lemma MessageIsDelivered(p: Primitives, x: Scene, blocking: bool, m: bytes, len: nat, k: Script)
    returns (count: nat)
    requires Fair(p, x) && m != [] && WireLen(m) <= MAX_WRITE_BACKLOG && len > 0
    requires AllOf(k.recvs, Beyond(OneSend(p, x, blocking, m).session.history.sent, |Encode(GreetingFrame(p, x))|))
    ensures var greeting, reply := Encode(GreetingFrame(p, x)), Encode(ReplyFrame(p, x));
            var s, c := FirstReceive(p, x, len), OneSend(p, x, blocking, m);
            && s.result == Error(EAGAIN) && s.session.history.pulled == greeting && s.session.history.sent == reply
            && c.result == Returned(|m|) && greeting <= c.session.history.sent
            && RunReceives(p, s.session, ServerEnv(x), blocking, len, k, count).history.delivered == m
  {
    hide Fair, Lawful, Inv, Reply, Finish, Greeting, Encode, Agreed, Answered, Connect, Adopt, RunSend, RunRecv,
         WireLen, Split, AllOf, Connected, DataSealed, Plaintexts, Concat, RunReceives, Whole;
    var greeting, reply := Encode(GreetingFrame(p, x)), Encode(ReplyFrame(p, x));
    HellosAreWhole(p, x);
    ServerAnswers(p, x, len, greeting, |reply|);
    AnsweredInv(p, x);
    ClientSends(p, x, blocking, m, reply, WireLen(m));
    var c := OneSend(p, x, blocking, m).session;
    EndsConnected(p, x, c);
    LawfulOf(p, x);
    PrefixCarried(k.recvs, c.history.sent[|greeting|..]);
    count := HonestDeliversAll(p, c, Answered(p, x), c.history.sent[|greeting|..], ServerEnv(x), blocking, len, k);
    SplitIsExact(m);
  }

  lemma PrefixCarried(rs: seq<RecvResult>, inFlight: bytes)
    requires AllOf(rs, inFlight)
    ensures Arrivals(rs) <= inFlight
  {
  }
}
