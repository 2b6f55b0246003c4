/**
 The per-descriptor state as the object the intercepted calls update in place, and
 the calls themselves. A ghost trace records the actions performed; `Valid` says the
 fields are where that trace leads, so everything proved of traces holds of the object.
 */
module Interceptor {
  import opened Bytes
  import opened Framing
  import opened Crypto
  import opened Handshake
  import opened Session
  import opened Invariants
  import opened Guarantees
  import opened Calls

  // ----------------------------------- the kernel -----------------------------------

  /**
   The real socket: scripts of what its next calls will return. A call past the end
   of a script never returns, which is how a thread parked in the kernel appears.
   `asked` remembers what the caller held at each receive, whatever came of it.
   */
  class Kernel {
    var sends: seq<SendResult>
    var recvs: seq<RecvResult>
    ghost var asked: seq<Fd>

    function Left(): Script
      reads this
    {
      Script(sends, recvs)
    }

    /** `send` of `len` bytes; it takes at most `len`. */
    method Send(len: nat) returns (r: Option<SendResult>)
      modifies this`sends
      ensures old(sends) == [] ==> r.None? && sends == []
      ensures old(sends) != [] ==> r.Some? && sends == old(sends)[1..]
      ensures r.Some? ==> r.value == if old(sends)[0].Took? then Took(Min(old(sends)[0].n, len)) else old(sends)[0]
    {
      if sends == [] {
        return None;
      }
      r := Some(if sends[0].Took? then Took(Min(sends[0].n, len)) else sends[0]);
      sends := sends[1..];
    }

    /** `recv` into an 8 KiB buffer. */
    method Recv(ghost holding: Fd) returns (r: Option<RecvResult>)
      modifies this`recvs, this`asked
      ensures old(recvs) == [] ==> r.None? && recvs == []
      ensures old(recvs) != [] ==> r == Some(old(recvs)[0]) && recvs == old(recvs)[1..]
      ensures asked == old(asked) + [holding]
    {
      asked := asked + [holding];
      if recvs == [] {
        return None;
      }
      r := Some(recvs[0]);
      recvs := recvs[1..];
    }
  }

  /** Every receive since then was made with nothing at hand that could be used instead. */
  predicate AskedQuietly(was: seq<Fd>, now: seq<Fd>) {
    was <= now && forall i :: |was| <= i < |now| ==> Quiet(now[i])
  }

  lemma NothingAsked(asked: seq<Fd>)
    ensures AskedQuietly(asked, asked)
  {
  }

  /** The process-wide gauge of active sessions. */
  class Metrics {
    var activeSessions: int
  }

  /** `limit.saturating_sub(len)`. */
  function Room(len: nat, limit: nat): nat {
    if len <= limit then limit - len else 0
  }

  function Bit(b: bool): int {
    if b then 1 else 0
  }

  // ------------------------------- shapes of change -------------------------------

  /** A handshake state at rest holds no complete frame. */
  predicate Rested(fd: Fd) {
    InHandshake(fd) ==> PopFrame(fd.rxWire).NoFrame?
  }

  /** Only the split between sent bytes and backlog moved. */
  predicate OnlyFlushed(s: Session, t: Session) {
    && t == s.(fd := s.fd.(txBacklog := t.fd.txBacklog), history := s.history.(sent := t.history.sent))
    && t.history.sent + t.fd.txBacklog == s.history.sent + s.fd.txBacklog
  }

  /** Only the split between sent bytes, backlog and the pending frame moved. */
  predicate OnlyEmitted(s: Session, t: Session) {
    && t == s.(fd := s.fd.(txBacklog := t.fd.txBacklog), pending := t.pending,
         history := s.history.(sent := t.history.sent))
    && t.history.sent + t.fd.txBacklog + t.pending == s.history.sent + s.fd.txBacklog + s.pending
  }

  /** Nothing was received or delivered, and nothing sealed was taken back. */
  predicate OnlySending(s: Session, t: Session) {
    && DataReceived(t) == DataReceived(s)
    && t.history.delivered == s.history.delivered
    && SealedText(s) <= SealedText(t)
    && t.fd.ownerPid == s.fd.ownerPid && t.fd.policySuite == s.fd.policySuite
  }

  /** No application data was sealed, received or delivered. */
  predicate DataUntouched(s: Session, t: Session) {
    && DataSealed(t) == DataSealed(s)
    && DataReceived(t) == DataReceived(s)
    && t.history.delivered == s.history.delivered
  }

  /** A buffer whose first `n` bytes were overwritten with the first `n` of `plain`. */
  predicate Copied(now: bytes, was: bytes, plain: bytes, n: nat) {
    n <= |plain| && n <= |now| == |was| && now[..n] == plain[..n] && now[n..] == was[n..]
  }

  lemma HandshakeHoldsNoPlaintext(p: Primitives, s: Session)
    requires Inv(p, s) && InHandshake(s.fd)
    ensures s.fd.rxPlain == [] && s.pending == [] && s.history.link.None? && s.history.delivered == []
  {
    hide Bounded, Numbered, Linked, Undowngraded, WireIn, WireOut, PlainOut, RecordsFit, Introduced, Genuine;
  }

  lemma FailedHoldsNothing(p: Primitives, s: Session)
    requires Inv(p, s) && s.fd.phase.Failed?
    ensures Idle(s.fd) && s.pending == []
  {
    hide Unstarted, Numbered, Linked, Undowngraded, WireIn, WireOut, PlainOut, RecordsFit, Introduced;
  }

  /** A handshake frame never moves application data, and leaves nothing half done. */
  lemma DrivenKeepsData(p: Primitives, s: Session, env: Local)
    requires Lawful(p) && Inv(p, s) && InHandshake(s.fd)
    ensures DataUntouched(s, Driven(p, s, env)) && Rested(Driven(p, s, env).fd)
    ensures Driven(p, s, env).pending == s.pending == []
    ensures Driven(p, s, env).fd.ownerPid == s.fd.ownerPid && Driven(p, s, env).fd.policySuite == s.fd.policySuite
  {
    HandshakeHoldsNoPlaintext(p, s);
    assert Unstarted(p, s);
    hide Inv, Lawful, PopFrame, Judge, Encode, WriterEphemeral, Confirmations, Unstarted, Nonce, Stream;
    hide Established;
    if PopFrame(s.fd.rxWire).Popped? {
      EncodePop(s.fd.rxWire);
      var Popped(f, rest) := PopFrame(s.fd.rxWire);
      var v := Judge(p, s.fd, f, env);
      if v.Establish? {
        JudgeSound(p, s, f, env);
        EstablishingKeepsData(s, f, rest, v);
      }
    }
  }

  lemma EstablishingKeepsData(s: Session, f: Parsed, rest: bytes, v: Verdict)
    requires v.Establish? && |v.sealed| == Confirmations(v.keys.tx.key) && |v.received| == Confirmations(v.keys.rx.key)
    requires s.history.link.None?
    ensures var t := Established(s, f, rest, v);
      && DataUntouched(s, t) && Rested(t.fd) && t.pending == s.pending
      && t.fd.ownerPid == s.fd.ownerPid && t.fd.policySuite == s.fd.policySuite
  {
    hide Confirmations, Stream;
  }

  lemma SameRecords(s: Session, t: Session)
    requires t.history.link == s.history.link
    requires t.history.sealed == s.history.sealed && t.history.received == s.history.received
    ensures DataSealed(t) == DataSealed(s) && DataReceived(t) == DataReceived(s) && SealedText(t) == SealedText(s)
  {
  }

  class FdState {
    var phase: Phase
    var ownerPid: int
    var policySuite: Suite
    var configEpoch: nat
    var txBacklog: bytes
    var rxWire: bytes
    var rxPlain: bytes
    var countedActive: bool

    const prims: Primitives
    const metrics: Metrics

    ghost const born: Session
    ghost var trace: seq<Act>
    ghost var at: Session

    function Value(): Fd
      reads this
    {
      Fd(phase, ownerPid, policySuite, configEpoch, txBacklog, rxWire, rxPlain, countedActive)
    }

    /** The trace is possible and leads to `at`. */
    ghost predicate Tracked()
      reads this
    {
      && Lawful(prims) && Inv(prims, born)
      && After(prims, born, trace) == Some(at)
      && Inv(prims, at)
    }

    ghost predicate Valid()
      reads this
    {
      Tracked() && at.fd == Value()
    }

    /** The gauge moved exactly with this state's own contribution to it. */
    ghost predicate GaugeFrom(gauge: int, counted: bool)
      reads this, metrics
    {
      metrics.activeSessions - Bit(countedActive) == gauge - Bit(counted)
    }

    // ------------------------------- constructors -------------------------------

    /** `FdState::responder`, `FdState::initiator`, `FdState::fallback_initiator`, `FdState::failed`. */
    constructor (prims: Primitives, metrics: Metrics, s: Session)
      requires Lawful(prims) && Inv(prims, s)
      ensures Valid() && at == s && trace == [] && this.metrics == metrics && this.prims == prims && born == s
    {
      this.prims, this.metrics := prims, metrics;
      phase, ownerPid, policySuite, configEpoch := s.fd.phase, s.fd.ownerPid, s.fd.policySuite, s.fd.configEpoch;
      txBacklog, rxWire, rxPlain, countedActive := s.fd.txBacklog, s.fd.rxWire, s.fd.rxPlain, s.fd.countedActive;
      born, trace, at := s, [], s;
    }

    // ------------------------------ small operations ------------------------------

    ghost method Note(pid: int, event: Event)
      requires Tracked() && Enabled(prims, at, Act(pid, event))
      modifies this`trace, this`at
      ensures Tracked() && at == Step(prims, old(at), Act(pid, event))
      ensures trace == old(trace) + [Act(pid, event)]
    {
      hide Lawful, Inv, Enabled, Step;
      AfterSnoc(prims, born, trace, at, Act(pid, event));
      StepKeepsInv(prims, at, Act(pid, event));
      trace, at := trace + [Act(pid, event)], Step(prims, at, Act(pid, event));
    }

    /** `fail_closed`. */
    method Close()
      modifies this`phase, this`txBacklog, this`rxWire, this`rxPlain, this`countedActive, metrics
      ensures Value() == Closed(old(Value()))
      ensures GaugeFrom(old(metrics.activeSessions), old(countedActive))
    {
      if countedActive {
        metrics.activeSessions := metrics.activeSessions - 1;
        countedActive := false;
      }
      txBacklog, rxWire, rxPlain := [], [], [];
      phase := Failed;
    }

    /** `fail_closed` from any point of an operation, as an action of its own. */
    method FailClosed(pid: int)
      requires Tracked() && Closed(Value()) == Closed(at.fd)
      modifies this, metrics
      ensures Valid() && at == Failing(old(at))
      ensures trace == old(trace) + [Act(pid, Fail)]
      ensures GaugeFrom(old(metrics.activeSessions), old(countedActive))
    {
      hide Lawful, Inv, After;
      Close();
      Note(pid, Fail);
    }

    /** `activate`. */
    method Activate(keys: SessionKeys)
      modifies this`phase, this`countedActive, metrics
      ensures phase == Active(keys) && countedActive
      ensures GaugeFrom(old(metrics.activeSessions), old(countedActive))
    {
      if !countedActive {
        metrics.activeSessions := metrics.activeSessions + 1;
        countedActive := true;
      }
      phase := Active(keys);
    }

    /** `append_tx`, through `append_bounded`. */
    method AppendTx(data: bytes) returns (ok: bool)
      modifies this`txBacklog
      ensures ok <==> |data| <= Room(|old(txBacklog)|, MAX_WRITE_BACKLOG)
      ensures txBacklog == if ok then old(txBacklog) + data else old(txBacklog)
    {
      ok := |data| <= Room(|txBacklog|, MAX_WRITE_BACKLOG);
      if ok {
        txBacklog := txBacklog + data;
      }
    }

    /** `try_pop_frame`. */
    method TryPopFrame() returns (r: Pop)
      modifies this`rxWire
      ensures r == PopFrame(old(rxWire))
      ensures rxWire == if r.Popped? then r.rest else old(rxWire)
    {
      r := NoFrame;
      if |rxWire| < HDR_LEN {
        return;
      }
      var bodyLen := FromBe32(rxWire[..HDR_LEN]);
      if bodyLen < 2 || bodyLen > MAX_FRAME_BODY {
        return Malformed;
      }
      if |rxWire| < HDR_LEN + bodyLen {
        return;
      }
      var payload := rxWire[HDR_LEN + 2..HDR_LEN + bodyLen];
      r := Popped(Parsed(rxWire[HDR_LEN], rxWire[HDR_LEN + 1], payload), rxWire[HDR_LEN + bodyLen..]);
      rxWire := rxWire[HDR_LEN + bodyLen..];
    }

    /** `flush_backlog`. */
    method FlushBacklog(k: Kernel, pid: int) returns (r: FlushOutcome)
      requires Valid() && pid == ownerPid
      modifies this, k`sends
      ensures Valid() && OnlyFlushed(old(at), at)
      ensures Outcome(r, at, k.Left()) == RunFlush(old(at), old(k.Left()))
      ensures r.Emptied? <==> txBacklog == []
      ensures old(txBacklog) == [] ==> at == old(at) && k.sends == old(k.sends)
      ensures |k.sends| <= |old(k.sends)|
      ensures old(txBacklog) != [] && !r.FlushParked? ==> |k.sends| < |old(k.sends)|
      ensures r.FlushParked? ==> k.sends == []
    {
      hide Lawful, Inv, After, CanOpen, CanSeal, Judge, PopFrame, Established, Sealed, Opened, Quiet;
      while txBacklog != []
        invariant Valid() && OnlyFlushed(old(at), at) && pid == ownerPid
        invariant RunFlush(at, k.Left()) == RunFlush(old(at), old(k.Left()))
        invariant |k.sends| <= |old(k.sends)|
        invariant (at == old(at) && k.sends == old(k.sends)) || |k.sends| < |old(k.sends)|
        invariant old(txBacklog) == [] ==> at == old(at) && k.sends == old(k.sends)
        decreases |k.sends|
      {
        var n := k.Send(|txBacklog|);
        match n
        case None => return FlushParked;
        case Some(SendWouldBlock) => return Blocked;
        case Some(SendError) => return Broken;
        case Some(Took(n)) =>
          if n == 0 {
            return Blocked;
          }
          txBacklog := txBacklog[n..];
          Note(pid, Flush(n));
      }
      r := Emptied;
    }

    /** `pull_wire`: one real receive, made only when nothing held could be used instead. */
    method PullWire(k: Kernel, pid: int) returns (r: PullOutcome)
      requires Valid() && pid == ownerPid && !phase.Failed? && Quiet(Value())
      modifies this, k`recvs, k`asked
      ensures Valid() && k.asked == old(k.asked) + [old(Value())]
      ensures Outcome(r, at, k.Left()) == RunPull(old(at), old(k.Left()))
    {
      hide Lawful, Inv, After, PopFrame;
      var n := k.Recv(Value());
      match n
      case None => r := PullParked;
      case Some(EndOfStream) => r := Eof;
      case Some(RecvWouldBlock) => r := Again;
      case Some(RecvError(e)) => r := PullError(e);
      case Some(Arrived(chunk)) =>
        if |chunk| > Room(|rxWire|, MAX_WIRE_RX_BUFFER) {
          return Overflow;
        }
        rxWire := rxWire + chunk;
        Note(pid, Pull(chunk));
        r := Got;
    }

    // --------------------------------- the handshake ---------------------------------

    /** A frame has been popped and the phase taken out of the state, and nothing else has changed. */
    ghost predicate Holding(f: Parsed)
      reads this
    {
      && Tracked()
      && PopFrame(at.fd.rxWire).Popped? && PopFrame(at.fd.rxWire).frame == f
      && Value() == at.fd.(phase := Failed, rxWire := PopFrame(at.fd.rxWire).rest)
    }

    /** `queue_frame`. */
    method QueueFrame(f: Parsed) returns (ok: bool)
      modifies this`txBacklog
      ensures ok <==> CanQueue(old(Value()), f)
      ensures txBacklog == if ok then old(txBacklog) + Encode(f) else old(txBacklog)
    {
      match Frame(f.suiteId, f.tag, f.payload)
      case None => ok := false;
      case Some(w) => ok := AppendTx(w);
    }

    /** Take up the agreed keys. */
    method Establish(f: Parsed, env: Local, pid: int, keys: SessionKeys, ghost reply: Option<Parsed>)
      requires Tracked() && PopFrame(at.fd.rxWire).Popped? && PopFrame(at.fd.rxWire).frame == f && pid == ownerPid
      requires var v := Judge(prims, at.fd, f, env); v.Establish? && v.keys == keys && v.reply == reply
      requires Value() == at.fd.(phase := Failed, rxWire := PopFrame(at.fd.rxWire).rest,
                                 txBacklog := at.fd.txBacklog + Stream(HelloFrames(reply)))
      modifies this, metrics
      ensures Valid() && at == Driven(prims, old(at), env)
      ensures GaugeFrom(old(metrics.activeSessions), old(countedActive))
    {
      hide Lawful, Inv, After, PopFrame, Judge, Stream;
      Activate(keys);
      Note(pid, Event.Handshake(env));
    }

    /** Queue the reply and activate, or fail closed if it cannot be queued. */
    method ReplyAndActivate(f: Parsed, env: Local, pid: int, keys: SessionKeys, reply: Parsed)
      requires Holding(f) && pid == ownerPid
      requires var v := Judge(prims, at.fd, f, env);
               if CanQueue(at.fd, reply) then v.Establish? && v.keys == keys && v.reply == Some(reply) else v.Reject?
      modifies this, metrics
      ensures Valid() && at == Driven(prims, old(at), env)
      ensures GaugeFrom(old(metrics.activeSessions), old(countedActive))
    {
      hide Lawful, Inv, After, PopFrame, Judge, Encode;
      var ok := QueueFrame(reply);
      if ok {
        StreamSnoc([], reply);
        assert [] + [reply] == [reply];
        Establish(f, env, pid, keys, Some(reply));
      } else {
        FailClosed(pid);
      }
    }

    method OnClientHello(f: Parsed, env: Local, pid: int)
      requires Holding(f) && pid == ownerPid && at.fd.phase.AwaitingClientHello? && f.tag == TYPE_CLIENT_HELLO
      modifies this, metrics
      ensures Valid() && at == Driven(prims, old(at), env)
      ensures GaugeFrom(old(metrics.activeSessions), old(countedActive))
    {
      hide Lawful, Inv, After, PopFrame, Encode, Respond;
      if Suite.FromId(f.suiteId) == Some(policySuite) && env.identity.Some? {
        match Respond(prims, policySuite, env.identity.value, f.payload, env.xSecret, env.coins) {
          case Ok((keys, hello)) =>
            ReplyAndActivate(f, env, pid, keys, Parsed(policySuite.Id(), TYPE_SERVER_HELLO, hello));
          case Err(_) =>
            FailClosed(pid);
        }
      } else {
        FailClosed(pid);
      }
    }

    /** Accepted only if this node's own posture is the fallback. */
    method OnFallbackHello(f: Parsed, env: Local, pid: int)
      requires Holding(f) && pid == ownerPid && at.fd.phase.AwaitingClientHello? && f.tag == TYPE_FALLBACK_HELLO
      modifies this, metrics
      ensures Valid() && at == Driven(prims, old(at), env)
      ensures GaugeFrom(old(metrics.activeSessions), old(countedActive))
    {
      hide Lawful, Inv, After, PopFrame, Encode, FallbackRespond;
      if LocalPosture(env) == EncryptedFallback && env.psk.Some? {
        match FallbackRespond(prims, env.psk.value, f.payload, env.nonce) {
          case Ok((keys, finished)) =>
            ReplyAndActivate(f, env, pid, keys, Parsed(FALLBACK_WIRE_ID, TYPE_FALLBACK_FINISHED, finished));
          case Err(_) =>
            FailClosed(pid);
        }
      } else {
        FailClosed(pid);
      }
    }

    method OnServerHello(st: InitState, f: Parsed, env: Local, pid: int)
      requires Holding(f) && pid == ownerPid && at.fd.phase == AwaitingServerHello(st) && f.tag == TYPE_SERVER_HELLO
      modifies this, metrics
      ensures Valid() && at == Driven(prims, old(at), env)
      ensures GaugeFrom(old(metrics.activeSessions), old(countedActive))
    {
      hide Lawful, Inv, After, PopFrame, Encode, Finish;
      if env.identity.Some? && f.suiteId == policySuite.Id() {
        match Finish(prims, st, env.identity.value, f.payload) {
          case Ok(keys) =>
            Establish(f, env, pid, keys, None);
          case Err(_) =>
            FailClosed(pid);
        }
      } else {
        FailClosed(pid);
      }
    }

    method OnFallbackFinished(psk: bytes, cn: FallbackNonce, f: Parsed, env: Local, pid: int)
      requires Holding(f) && pid == ownerPid && at.fd.phase == AwaitingFallbackFinished(psk, cn)
                && f.tag == TYPE_FALLBACK_FINISHED
      modifies this, metrics
      ensures Valid() && at == Driven(prims, old(at), env)
      ensures GaugeFrom(old(metrics.activeSessions), old(countedActive))
    {
      hide Lawful, Inv, After, PopFrame, Encode, FallbackFinish;
      match FallbackFinish(prims, psk, cn, f.payload) {
        case Ok(keys) =>
          Establish(f, env, pid, keys, None);
        case Err(_) =>
          FailClosed(pid);
      }
    }

    /** `drive_handshake`. The loop of the source ends after one frame: each frame activates the session or fails it. */
    method DriveHandshake(env: Local, pid: int)
      requires Valid() && pid == ownerPid
      modifies this, metrics
      ensures Valid() && at == Driven(prims, old(at), env)
      ensures GaugeFrom(old(metrics.activeSessions), old(countedActive))
      ensures InHandshake(Value()) ==> Value() == old(Value()) && PopFrame(rxWire).NoFrame?
    {
      hide Lawful, Inv, After, PopFrame, JudgeClientHello, JudgeFallbackHello, JudgeServerHello, JudgeFallbackFinished;
      var r := TryPopFrame();
      match r
      case NoFrame =>
      case Malformed => FailClosed(pid);
      case Popped(f, _) =>
        var current := phase;
        phase := Failed;
        match current {
          case AwaitingClientHello =>
            if f.tag == TYPE_CLIENT_HELLO {
              OnClientHello(f, env, pid);
            } else if f.tag == TYPE_FALLBACK_HELLO {
              OnFallbackHello(f, env, pid);
            } else {
              FailClosed(pid);
            }
          case AwaitingServerHello(st) =>
            if f.tag == TYPE_SERVER_HELLO {
              OnServerHello(st, f, env, pid);
            } else {
              FailClosed(pid);
            }
          case AwaitingFallbackFinished(psk, cn) =>
            if f.tag == TYPE_FALLBACK_FINISHED {
              OnFallbackFinished(psk, cn, f, env, pid);
            } else {
              FailClosed(pid);
            }
          case _ => FailClosed(pid);
        }
    }

    // ---------------------------------- the write path ----------------------------------

    /** One round of the handshake loop of the write path; none when the loop goes on. */
    method HandshakeRound(k: Kernel, env: Local, pid: int, blocking: bool) returns (r: Option<WriteReady>)
      requires Valid() && pid == ownerPid && Rested(Value()) && at.pending == [] && InHandshake(Value())
      modifies this, metrics, k
      ensures Valid() && Rested(Value()) && at.pending == []
      ensures Outcome(r, at, k.Left()) == WriteStep(prims, old(at), env, blocking, old(k.Left()))
      ensures ownerPid == old(ownerPid) && policySuite == old(policySuite)
      ensures DataUntouched(old(at), at)
      ensures GaugeFrom(old(metrics.activeSessions), old(countedActive))
      ensures |k.sends| <= |old(k.sends)| && AskedQuietly(old(k.asked), k.asked)
      ensures r.None? ==> |k.sends| + |k.recvs| < |old(k.sends)| + |old(k.recvs)|
      ensures r.Some? ==> !r.value.Ready?
      ensures r.Some? && r.value.NotReady? ==>
                phase.Failed? || (InHandshake(Value()) && r.value.errno == EAGAIN && !blocking)
    {
      hide Lawful, Inv, After, PopFrame, Driven, CanOpen, CanSeal, Judge, Established, Sealed, Opened;
      if txBacklog != [] {
        var flushed := FlushBacklog(k, pid);
        match flushed
        case Emptied =>
        case Blocked => return if blocking then None else Some(NotReady(EAGAIN));
        case Broken =>
          FailClosed(pid);
          return Some(NotReady(EIO));
        case FlushParked => return Some(ReadyParked);
      }
      r := HandshakePull(k, env, pid, blocking);
    }

    /** The receiving half of such a round: one pull, and whatever hello it completes. */
    method HandshakePull(k: Kernel, env: Local, pid: int, blocking: bool) returns (r: Option<WriteReady>)
      requires Valid() && pid == ownerPid && Rested(Value()) && at.pending == [] && InHandshake(Value())
      modifies this, metrics, k`recvs, k`asked
      ensures Valid() && Rested(Value()) && at.pending == []
      ensures Outcome(r, at, k.Left()) == PullStep(prims, old(at), env, blocking, old(k.Left()))
      ensures ownerPid == old(ownerPid) && policySuite == old(policySuite)
      ensures DataUntouched(old(at), at)
      ensures GaugeFrom(old(metrics.activeSessions), old(countedActive))
      ensures AskedQuietly(old(k.asked), k.asked)
      ensures r.None? ==> |k.recvs| < |old(k.recvs)|
      ensures r.Some? ==> !r.value.Ready?
      ensures r.Some? && r.value.NotReady? ==>
                phase.Failed? || (InHandshake(Value()) && r.value.errno == EAGAIN && !blocking)
    {
      hide Lawful, Inv, After, PopFrame, Driven, CanOpen, CanSeal, Judge, Established, Sealed, Opened;
      HandshakeHoldsNoPlaintext(prims, at);
      var pulled := PullWire(k, pid);
      match pulled
      case Got =>
        DrivenKeepsData(prims, at, env);
        DriveHandshake(env, pid);
        r := None;
      case Eof =>
        FailClosed(pid);
        r := Some(NotReady(EPIPE));
      case Again => r := if blocking then None else Some(NotReady(EAGAIN));
      case PullError(code) =>
        FailClosed(pid);
        r := Some(NotReady(OtherErrno(code)));
      case Overflow =>
        FailClosed(pid);
        r := Some(NotReady(EPIPE));
      case PullParked => r := Some(ReadyParked);
    }

    /** `drive_until_active_for_write`. */
    method DriveUntilActiveForWrite(k: Kernel, env: Local, pid: int, blocking: bool) returns (r: WriteReady)
      requires Valid() && pid == ownerPid && Rested(Value()) && at.pending == []
      modifies this, metrics, k
      ensures Valid() && Rested(Value()) && at.pending == []
      ensures Outcome(r, at, k.Left()) == RunDriveForWrite(prims, old(at), env, blocking, old(k.Left()))
      ensures ownerPid == old(ownerPid) && policySuite == old(policySuite)
      ensures DataUntouched(old(at), at)
      ensures |k.sends| <= |old(k.sends)| && AskedQuietly(old(k.asked), k.asked)
      ensures GaugeFrom(old(metrics.activeSessions), old(countedActive))
      ensures r.Ready? ==> phase.Active?
      ensures r.NotReady? ==> phase.Failed? || (InHandshake(Value()) && r.errno == EAGAIN && !blocking)
      ensures old(phase).Active? && r.Ready? ==> OnlyFlushed(old(at), at)
      ensures old(phase).Active? && r.NotReady? ==> phase.Failed?
      ensures old(phase).Failed? ==> r == NotReady(EPIPE) && at == old(at) && unchanged(k)
    {
      hide Lawful, Inv, After, PopFrame, RunFlush, WriteStep, Driven, Judge, Established;
      if phase.Failed? {
        FailedHoldsNothing(prims, at);
      }
      var flushed := FlushBacklog(k, pid);
      if flushed.FlushParked? {
        return ReadyParked;
      }
      if flushed.Broken? {
        FailClosed(pid);
        return NotReady(EIO);
      }
      while InHandshake(Value())
        invariant Valid() && Rested(Value()) && at.pending == [] && pid == ownerPid && policySuite == old(policySuite)
        invariant WriteLoop(prims, at, env, blocking, k.Left())
               == RunDriveForWrite(prims, old(at), env, blocking, old(k.Left()))
        invariant DataUntouched(old(at), at)
        invariant GaugeFrom(old(metrics.activeSessions), old(countedActive))
        invariant |k.sends| <= |old(k.sends)| && AskedQuietly(old(k.asked), k.asked)
        invariant old(phase).Active? ==> OnlyFlushed(old(at), at)
        invariant old(phase).Failed? ==> at == old(at) && unchanged(k)
        decreases |k.sends| + |k.recvs|
      {
        var round := HandshakeRound(k, env, pid, blocking);
        if round.Some? {
          return round.value;
        }
      }
      r := if phase.Active? then Ready else NotReady(EPIPE);
    }

    /** The pending frame joins the backlog if it fits. */
    method QueuePending(pid: int, frame: bytes) returns (ok: bool)
      requires Valid() && pid == ownerPid && at.pending == frame != []
      modifies this
      ensures Valid() && at == if ok then Queueing(old(at)) else old(at)
      ensures ok <==> HasRoom(old(at))
      ensures ok ==> OnlyEmitted(old(at), at)
      ensures countedActive == old(countedActive)
    {
      hide Lawful, Inv, After, CanOpen, CanSeal, Judge, PopFrame, Established, Sealed, Opened, Quiet;
      ok := AppendTx(frame);
      if ok {
        Note(pid, Queue);
      }
    }

    /** `append_or_flush`: queue the pending frame, making room once if needed. */
    method AppendOrFlush(k: Kernel, pid: int, blocking: bool, frame: bytes) returns (r: CallResult)
      requires Valid() && pid == ownerPid && at.pending == frame != []
      modifies this, metrics, k`sends
      ensures Valid()
      ensures Outcome(r, at, k.Left()) == RunQueue(old(at), blocking, old(k.Left()))
      ensures r.Returned? ==> OnlyEmitted(old(at), at) && at.pending == []
      ensures r.Error? ==> OnlyEmitted(old(at), at) || at.fd.phase.Failed?
      ensures r.Error? || r.Parked? ==> at.history.(sent := []) == old(at).history.(sent := [])
      ensures r.Error? || r.Parked? ==> ownerPid == old(ownerPid) && policySuite == old(policySuite)
      ensures r.Parked? ==> OnlyEmitted(old(at), at)
      ensures |k.sends| <= |old(k.sends)|
      ensures GaugeFrom(old(metrics.activeSessions), old(countedActive))
    {
      hide Lawful, Inv, After;
      var ok := QueuePending(pid, frame);
      if ok {
        return Returned(0);
      }
      var flushed := FlushBacklog(k, pid);
      match flushed {
        case Emptied =>
        case Blocked =>
          if !blocking {
            return Error(EAGAIN);
          }
        case Broken =>
          FailClosed(pid);
          return Error(EIO);
        case FlushParked => return Parked;
      }
      ok := QueuePending(pid, frame);
      r := if ok then Returned(0) else Error(EMSGSIZE);
    }

    /** One record of `overlay_send`: seal, frame and queue, or fail closed. */
    method SendRecord(k: Kernel, pid: int, blocking: bool, record: bytes) returns (r: CallResult)
      requires Valid() && pid == ownerPid && phase.Active? && at.pending == [] && |record| <= MAX_RECORD_PLAINTEXT
      modifies this, metrics, k`sends
      ensures Valid() && OnlySending(old(at), at)
      ensures Outcome(r, at, k.Left()) == RunRecord(prims, old(at), blocking, record, old(k.Left()))
      ensures r.Returned? ==> phase.Active? && at.pending == [] && SealedText(at) == SealedText(old(at)) + [record]
      ensures r.Error? ==> phase.Failed?
      ensures r.Error? ==> SealedText(at) == SealedText(old(at)) || SealedText(at) == SealedText(old(at)) + [record]
      ensures r.Parked? ==> phase.Active? && SealedText(at) == SealedText(old(at)) + [record]
      ensures |k.sends| <= |old(k.sends)|
      ensures GaugeFrom(old(metrics.activeSessions), old(countedActive))
    {
      hide Lawful, Inv, After, DataSealed, DataReceived, Plaintexts, Judge, Established, Opened, CanOpen, Quiet,
           PopFrame;
      match SealWith(prims, phase.keys.tx, record)
      case Err(_) =>
        FailClosed(pid);
        SameRecords(old(at), at);
        r := Error(EIO);
      case Ok((tx, ct)) =>
        Framable(record, at);
        phase := Active(phase.keys.(tx := tx));
        Note(pid, Seal(record));
        ghost var queued := at;
        var frame := Encode(Parsed(policySuite.Id(), TYPE_DATA, ct));
        r := AppendOrFlush(k, pid, blocking, frame);
        if r.Error? {
          FailClosed(pid);
        }
        SameRecords(queued, at);
    }

    lemma Framable(record: bytes, s: Session)
      requires Lawful(prims) && Inv(prims, s) && s.fd.phase.Active? && |record| <= MAX_RECORD_PLAINTEXT
      requires SealWith(prims, s.fd.phase.keys.tx, record).Ok?
      ensures CanSeal(prims, s.fd, record)
      ensures SealedText(Sealed(prims, s, record)) == SealedText(s) + [record]
      ensures DataReceived(Sealed(prims, s, record)) == DataReceived(s)
    {
      DataAlwaysFits(prims, s.fd.phase.keys.tx, record);
      hide Lawful, Numbered, Unstarted, WireIn, WireOut, PlainOut, RecordsFit, Introduced, Undowngraded, Bounded,
           Sealed;
      SealAppends(prims, s, record);
    }

    // ------------------------------------- guards -------------------------------------

    /** `inherited_after_fork`: a process that does not own the state closes it. */
    method InheritedAfterFork(pid: int) returns (inherited: bool)
      requires Valid()
      modifies this, metrics
      ensures Valid()
      ensures inherited <==> pid != old(ownerPid)
      ensures at == if inherited then Failing(old(at)) else old(at)
      ensures GaugeFrom(old(metrics.activeSessions), old(countedActive))
    {
      hide Lawful, Inv, After;
      inherited := ownerPid != pid;
      if inherited {
        FailClosed(pid);
      }
    }

    /** `fail_if_stale_idle_config`, and the body of `retire_idle_sessions_for_new_config`. */
    method FailIfStaleIdleConfig(pid: int, epoch: nat) returns (stale: bool)
      requires Valid() && at.pending == []
      modifies this, metrics
      ensures Valid() && at.pending == []
      ensures stale <==> old(configEpoch) != epoch && Idle(old(Value()))
      ensures at == if stale then old(at).(fd := Closed(old(at).fd).(configEpoch := epoch)) else old(at)
      ensures GaugeFrom(old(metrics.activeSessions), old(countedActive))
    {
      hide Lawful, Inv, After, CanOpen, CanSeal, Judge, PopFrame, Established, Sealed, Opened, Quiet;
      stale := configEpoch != epoch && txBacklog == [] && rxWire == [] && rxPlain == [];
      if stale {
        Close();
        configEpoch := epoch;
        Note(pid, Retire(epoch));
      }
    }

    /** The two guards every call starts with; true when the call must be refused. */
    method Refuse(pid: int, epoch: nat) returns (refused: bool)
      requires Valid() && at.pending == []
      modifies this, metrics
      ensures Valid() && at.pending == []
      ensures refused <==> Refuses(old(Value()), pid, epoch)
      ensures at == if refused then Refused(old(at), pid, epoch) else old(at)
      ensures refused ==> phase.Failed? && at.history == old(at).history
      ensures GaugeFrom(old(metrics.activeSessions), old(countedActive))
    {
      hide Lawful, Inv, After;
      refused := InheritedAfterFork(pid);
      if !refused {
        refused := FailIfStaleIdleConfig(pid, epoch);
      }
    }

    // ----------------------------------- overlay_send -----------------------------------

    /** The record loop of `overlay_send`. */
    method SendRecords(k: Kernel, pid: int, blocking: bool, plaintext: bytes) returns (r: CallResult)
      requires Valid() && pid == ownerPid && phase.Active? && at.pending == []
      modifies this, metrics, k`sends
      ensures Valid() && OnlySending(old(at), at)
      ensures Outcome(if r.Returned? then Returned(0) else r, at, k.Left())
           == RunRecords(prims, old(at), blocking, Split(plaintext), old(k.Left()))
      ensures r.Returned? ==> r.n == |plaintext|
      ensures SealedText(at) <= SealedText(old(at)) + Split(plaintext)
      ensures r.Returned? ==>
                phase.Active? && at.pending == [] && SealedText(at) == SealedText(old(at)) + Split(plaintext)
      ensures r.Error? ==> phase.Failed?
      ensures r.Parked? ==> phase.Active?
      ensures |k.sends| <= |old(k.sends)|
      ensures GaugeFrom(old(metrics.activeSessions), old(countedActive))
    {
      hide Lawful, Inv, After, SealedText, DataReceived, RunRecords, RunRecord;
      var offset := 0;
      assert plaintext[0..] == plaintext;
      while offset < |plaintext|
        invariant 0 <= offset <= |plaintext|
        invariant Valid() && pid == ownerPid && phase.Active? && at.pending == [] && OnlySending(old(at), at)
        invariant RunRecords(prims, at, blocking, Split(plaintext[offset..]), k.Left())
               == RunRecords(prims, old(at), blocking, Split(plaintext), old(k.Left()))
        invariant SealedText(at) + Split(plaintext[offset..]) == SealedText(old(at)) + Split(plaintext)
        invariant |k.sends| <= |old(k.sends)|
        invariant GaugeFrom(old(metrics.activeSessions), old(countedActive))
      {
        var end := Min(offset + MAX_RECORD_PLAINTEXT, |plaintext|);
        var record := plaintext[offset..end];
        SplitStep(plaintext, offset, end);
        assert SealedText(at) + ([record] + Split(plaintext[end..]))
          == SealedText(at) + [record] + Split(plaintext[end..]);
        RecordsUnfold(prims, at, blocking, record, Split(plaintext[end..]), k.Left());
        hide Split;
        r := SendRecord(k, pid, blocking, record);
        if !r.Returned? {
          return;
        }
        offset := end;
      }
      assert plaintext[offset..] == [];
      NoRecords(prims, at, blocking, k.Left());
      r := Returned(|plaintext|);
    }

    lemma SplitStep(m: bytes, offset: nat, end: nat)
      requires offset < |m| && end == Min(offset + MAX_RECORD_PLAINTEXT, |m|)
      ensures Split(m[offset..]) == [m[offset..end]] + Split(m[end..])
    {
      var n := Min(MAX_RECORD_PLAINTEXT, |m[offset..]|);
      assert m[offset..][..n] == m[offset..end] && m[offset..][n..] == m[end..];
    }

    /** The flush that ends `overlay_send`, repeated on a blocking socket. */
    method FinishSend(k: Kernel, pid: int, blocking: bool) returns (r: CallResult)
      requires Valid() && pid == ownerPid && phase.Active?
      modifies this, metrics, k`sends
      ensures Valid()
      ensures Outcome(r, at, k.Left()) == RunFinish(old(at), blocking, old(k.Left()))
      ensures r.Returned? || r.Parked? ==> OnlyFlushed(old(at), at) && phase.Active?
      ensures r.Returned? && blocking ==> txBacklog == []
      ensures r.Returned? ==> txBacklog == [] || |k.sends| < |old(k.sends)|
      ensures r.Error? ==> phase.Failed? && at.history.(sent := []) == old(at).history.(sent := []) && at.pending == []
      ensures r.Error? ==> ownerPid == old(ownerPid) && policySuite == old(policySuite)
      ensures GaugeFrom(old(metrics.activeSessions), old(countedActive))
    {
      hide Lawful, Inv, After;
      while true
        invariant Valid() && pid == ownerPid && OnlyFlushed(old(at), at)
        invariant RunFinish(at, blocking, k.Left()) == RunFinish(old(at), blocking, old(k.Left()))
        invariant GaugeFrom(old(metrics.activeSessions), old(countedActive))
        decreases |k.sends|
      {
        var flushed := FlushBacklog(k, pid);
        match flushed
        case Emptied => return Returned(0);
        case Blocked =>
          if !blocking {
            return Returned(0);
          }
        case Broken =>
          FailClosed(pid);
          return Error(EIO);
        case FlushParked => return Parked;
      }
    }

    /** The record loop and the final flush, on an active session. */
    method SendAll(k: Kernel, pid: int, blocking: bool, plaintext: bytes) returns (r: CallResult)
      requires Valid() && pid == ownerPid && phase.Active? && at.pending == []
      modifies this, metrics, k`sends
      ensures Valid() && OnlySending(old(at), at)
      ensures Outcome(r, at, k.Left()) == RunSendAll(prims, old(at), blocking, plaintext, old(k.Left()))
      ensures SealedText(at) <= SealedText(old(at)) + Split(plaintext)
      ensures r.Returned? ==>
                && r.n == |plaintext| && at.pending == []
                && SealedText(at) == SealedText(old(at)) + Split(plaintext)
                && (blocking ==> txBacklog == [])
                && (txBacklog == [] || |k.sends| < |old(k.sends)|)
      ensures if r.Error? then phase.Failed? && at.pending == [] else phase.Active?
      ensures GaugeFrom(old(metrics.activeSessions), old(countedActive))
    {
      hide Lawful, Inv, After, PopFrame, DataSealed, DataReceived, Plaintexts, Split;
      r := SendRecords(k, pid, blocking, plaintext);
      if r.Returned? {
        ghost var sealed := at;
        r := FinishSend(k, pid, blocking);
        SameRecords(sealed, at);
        if r.Returned? {
          r := Returned(|plaintext|);
        }
      } else if r.Error? {
        FailedHoldsNothing(prims, at);
      }
    }

    /**
     `overlay_send`. All or nothing on a session that survives: either the full length
     is returned, every byte sealed in order and sent or queued; or an error is
     returned and the session has failed, or was never active and sealed nothing.
     */
    method OverlaySend(k: Kernel, env: Local, pid: int, epoch: nat, blocking: bool, plaintext: bytes)
      returns (r: CallResult)
      requires Valid() && Rested(Value()) && at.pending == []
      modifies this, metrics, k
      ensures Valid() && Rested(Value()) && OnlySending(old(at), at)
      ensures Outcome(r, at, k.Left())
           == RunSend(prims, old(at), env, pid, epoch, blocking, plaintext, old(k.Left()))
      ensures SealedText(at) <= SealedText(old(at)) + Split(plaintext)
      ensures r.Returned? ==>
                && r.n == |plaintext| && phase.Active? && at.pending == []
                && SealedText(at) == SealedText(old(at)) + Split(plaintext)
                && (blocking && plaintext != [] ==> txBacklog == [])
                && (plaintext != [] ==> txBacklog == [] || |k.sends| < |old(k.sends)|)
      ensures r.Error? ==> at.pending == []
      ensures r.Error? ==> phase.Failed? || (InHandshake(Value()) && SealedText(at) == SealedText(old(at))
                                             && r.errno == EAGAIN && !blocking)
      ensures r.Error? && old(phase).Active? ==> phase.Failed?
      ensures pid != old(ownerPid) || old(phase).Failed? ==>
                r == Error(EPIPE) && phase.Failed? && at.history == old(at).history && unchanged(k)
      ensures AskedQuietly(old(k.asked), k.asked)
      ensures GaugeFrom(old(metrics.activeSessions), old(countedActive))
    {
      hide Lawful, Inv, After, PopFrame, DataSealed, DataReceived, Plaintexts, Quiet, CanOpen, CanSeal, Judge,
           Established, Sealed, Opened;
      var refused := Refuse(pid, epoch);
      SameRecords(old(at), at);
      if refused {
        return Error(EPIPE);
      }
      var ready := DriveUntilActiveForWrite(k, env, pid, blocking);
      match ready
      case ReadyParked => r := Parked;
      case NotReady(e) => r := Error(e);
      case Ready =>
        if plaintext == [] {
          return Returned(0);
        }
        r := SendAll(k, pid, blocking, plaintext);
    }

    // ----------------------------------- overlay_recv -----------------------------------

    /** `copy_plaintext_to_app`: as much waiting plaintext as fits, taken off the front. */
    method CopyPlaintextToApp(pid: int, buf: array<byte>) returns (n: nat)
      requires Valid() && pid == ownerPid && rxPlain != [] && buf.Length > 0
      modifies this, buf
      ensures Valid() && at == Delivering(old(at), n)
      ensures n == Min(buf.Length, |old(rxPlain)|) > 0 && Copied(buf[..], old(buf[..]), old(rxPlain), n)
    {
      hide Lawful, Inv, After, CanOpen, CanSeal, Judge, PopFrame, Established, Sealed, Opened, Quiet;
      n := Min(buf.Length, |rxPlain|);
      var i := 0;
      while i < n
        modifies buf
        invariant 0 <= i <= n
        invariant buf[..i] == rxPlain[..i] && buf[n..] == old(buf[n..])
      {
        buf[i] := rxPlain[i];
        i := i + 1;
      }
      rxPlain := rxPlain[n..];
      Note(pid, Deliver(n));
    }

    /** What receiving may change: bytes move in, records are opened, pending output may leave. */
    static predicate OnlyReceiving(s: Session, t: Session) {
      && DataSealed(t) == DataSealed(s)
      && DataReceived(s) <= DataReceived(t)
      && t.fd.ownerPid == s.fd.ownerPid && t.fd.policySuite == s.fd.policySuite
    }

    /** Pop and open every complete data frame; false when one was refused and the session failed. */
    method OpenFrames(pid: int) returns (ok: bool)
      requires Valid() && pid == ownerPid && phase.Active?
      modifies this, metrics
      ensures Valid() && OnlyReceiving(old(at), at) && at.history.delivered == old(at).history.delivered
      ensures at == Opening(prims, old(at))
      ensures ok ==> phase.Active? && PopFrame(rxWire).NoFrame?
      ensures !ok ==> phase.Failed?
      ensures GaugeFrom(old(metrics.activeSessions), old(countedActive))
      ensures at.pending == old(at).pending || phase.Failed?
    {
      hide Lawful, Inv, After, PopFrame, DataSealed, DataReceived, OpenWith, Judge, Established, Sealed, Quiet, CanSeal,
           Driven, Opening;
      while true
        invariant Valid() && pid == ownerPid && phase.Active? && OnlyReceiving(old(at), at)
        invariant Opening(prims, at) == Opening(prims, old(at))
        invariant at.history.delivered == old(at).history.delivered && at.pending == old(at).pending
        invariant GaugeFrom(old(metrics.activeSessions), old(countedActive))
        decreases |rxWire|
      {
        ghost var before := at;
        OpeningUnfolds(prims, at);
        var popped := TryPopFrame();
        match popped
        case NoFrame => return true;
        case Malformed =>
          FailClosed(pid);
          SameRecords(before, at);
          return false;
        case Popped(f, _) =>
          if f.tag != TYPE_DATA || f.suiteId != policySuite.Id() {
            FailClosed(pid);
            SameRecords(before, at);
            return false;
          }
          match OpenWith(prims, phase.keys.rx, f.payload)
          case Err(_) =>
            FailClosed(pid);
            SameRecords(before, at);
            return false;
          case Ok((rx, m)) =>
            Openable(before);
            phase := Active(phase.keys.(rx := rx));
            rxPlain := rxPlain + m;
            Note(pid, Open);
      }
    }

    /** The plaintext always fits, so the overflow branch of the source is never taken. */
    lemma Openable(s: Session)
      requires Lawful(prims) && Inv(prims, s) && s.fd.phase.Active? && PopFrame(s.fd.rxWire).Popped?
      requires var f := PopFrame(s.fd.rxWire).frame;
               && f.tag == TYPE_DATA && f.suiteId == s.fd.policySuite.Id()
               && OpenWith(prims, s.fd.phase.keys.rx, f.payload).Ok?
      ensures CanOpen(prims, s.fd)
      ensures DataReceived(s) <= DataReceived(Opened(prims, s))
      ensures DataSealed(s) == DataSealed(Opened(prims, s))
    {
      PlainNeverOverflows(prims, s);
      hide Lawful, Unstarted, WireIn, WireOut, PlainOut, RecordsFit, Introduced, Undowngraded, Bounded, PopFrame,
           WriterEphemeral, Nonce;
    }

    /** The handshake part of a receive: flush, drive, flush; true when parked in the kernel. */
    method DriveForRead(k: Kernel, env: Local, pid: int) returns (parked: bool)
      requires Valid() && pid == ownerPid && InHandshake(Value())
      modifies this, metrics, k`sends
      ensures Valid() && DataUntouched(old(at), at)
      ensures Outcome(parked, at, k.Left()) == RunDriveForRead(prims, old(at), env, old(k.Left()))
      ensures !parked ==> Rested(Value()) && at.pending == []
      ensures |k.sends| <= |old(k.sends)|
      ensures !parked ==> txBacklog == [] || |k.sends| < |old(k.sends)|
      ensures ownerPid == old(ownerPid) && policySuite == old(policySuite)
      ensures GaugeFrom(old(metrics.activeSessions), old(countedActive))
    {
      hide Lawful, Inv, After, PopFrame, Driven, DataSealed, DataReceived;
      var flushed := FlushBacklog(k, pid);
      SameRecords(old(at), at);
      if flushed.FlushParked? {
        return true;
      }
      DrivenKeepsData(prims, at, env);
      DriveHandshake(env, pid);
      ghost var driven := at;
      flushed := FlushBacklog(k, pid);
      SameRecords(driven, at);
      parked := flushed.FlushParked?;
    }

    /** One round of the receive loop with no plaintext waiting; none when the loop goes on. */
    method ReceiveRound(k: Kernel, env: Local, pid: int, blocking: bool) returns (r: Option<CallResult>)
      requires Valid() && pid == ownerPid && rxPlain == [] && at.pending == []
      modifies this, metrics, k
      ensures Valid() && OnlyReceiving(old(at), at) && at.history.delivered == old(at).history.delivered
      ensures Outcome(r, at, k.Left()) == ReadStep(prims, old(at), env, blocking, old(k.Left()))
      ensures r != Some(Parked) ==> at.pending == []
      ensures r.Some? && r.value != Parked ==> Rested(Value())
      ensures r.Some? && InHandshake(Value()) && r.value != Parked ==> txBacklog == [] || |k.sends| < |old(k.sends)|
      ensures |k.sends| <= |old(k.sends)| && AskedQuietly(old(k.asked), k.asked)
      ensures r.Some? && r.value.Returned? ==> r.value.n == 0 && EndOfStream in old(k.recvs)
      ensures forall x <- k.recvs :: x in old(k.recvs)
      ensures |k.recvs| <= |old(k.recvs)|
      ensures r.None? ==> rxPlain != [] || |k.recvs| < |old(k.recvs)|
      ensures old(phase).Failed? ==> r == Some(Error(EPIPE)) && at == old(at) && unchanged(k)
      ensures GaugeFrom(old(metrics.activeSessions), old(countedActive))
    {
      hide Lawful, Inv, After, PopFrame, DataSealed, DataReceived, Judge, Established, Sealed, CanSeal, Driven, Opening,
           Opened, CanOpen, RunFlush, RunPullForRead, RunDriveForRead;
      if InHandshake(Value()) {
        HandshakeHoldsNoPlaintext(prims, at);
        var parked := DriveForRead(k, env, pid);
        if parked {
          return Some(Parked);
        }
      }
      if phase.Failed? {
        FailedHoldsNothing(prims, at);
        return Some(Error(EPIPE));
      }
      r := OpenAndPull(k, pid, blocking);
    }

    /** The rest of such a round: open what is there, and ask for more only if there is nothing to hand over. */
    method OpenAndPull(k: Kernel, pid: int, blocking: bool) returns (r: Option<CallResult>)
      requires Valid() && pid == ownerPid && !phase.Failed? && at.pending == [] && Rested(Value())
      modifies this, metrics, k`recvs, k`asked
      ensures Valid() && OnlyReceiving(old(at), at) && at.history.delivered == old(at).history.delivered
      ensures Outcome(r, at, k.Left()) == ReadOpen(prims, old(at), blocking, old(k.Left()))
      ensures at.pending == []
      ensures r.Some? ==> Rested(Value())
      ensures InHandshake(Value()) ==> InHandshake(old(Value())) && txBacklog == old(txBacklog)
      ensures AskedQuietly(old(k.asked), k.asked)
      ensures r.Some? && r.value.Returned? ==> r.value.n == 0 && EndOfStream in old(k.recvs)
      ensures forall x <- k.recvs :: x in old(k.recvs)
      ensures |k.recvs| <= |old(k.recvs)|
      ensures r.None? ==> rxPlain != [] || |k.recvs| < |old(k.recvs)|
      ensures GaugeFrom(old(metrics.activeSessions), old(countedActive))
    {
      hide Lawful, Inv, After, PopFrame, DataSealed, DataReceived, Judge, Established, Sealed, CanSeal, Driven, Opening,
           Opened, CanOpen, RunFlush, RunPullForRead;
      if phase.Active? {
        var ok := OpenFrames(pid);
        if !ok {
          FailedHoldsNothing(prims, at);
          return Some(Error(EPIPE));
        }
        if rxPlain != [] {
          return None;
        }
      } else {
        HandshakeHoldsNoPlaintext(prims, at);
      }
      r := PullForRead(k, pid, blocking);
    }

    method PullForRead(k: Kernel, pid: int, blocking: bool) returns (r: Option<CallResult>)
      requires Valid() && pid == ownerPid && !phase.Failed? && Quiet(Value()) && at.pending == []
      modifies this, metrics, k`recvs, k`asked
      ensures Valid() && DataUntouched(old(at), at) && at.pending == []
      ensures Outcome(r, at, k.Left()) == RunPullForRead(old(at), blocking, old(k.Left()))
      ensures AskedQuietly(old(k.asked), k.asked)
      ensures ownerPid == old(ownerPid) && policySuite == old(policySuite)
      ensures phase.Failed? || (phase == old(phase) && txBacklog == old(txBacklog))
      ensures r.Some? ==> Rested(Value())
      ensures r.Some? && r.value.Returned? ==> r.value.n == 0 && EndOfStream in old(k.recvs)
      ensures forall x <- k.recvs :: x in old(k.recvs)
      ensures |k.recvs| <= |old(k.recvs)|
      ensures r.None? ==> |k.recvs| < |old(k.recvs)|
      ensures GaugeFrom(old(metrics.activeSessions), old(countedActive))
    {
      hide Lawful, Inv, After, PopFrame, DataSealed, DataReceived;
      var pulled := PullWire(k, pid);
      SameRecords(old(at), at);
      match pulled
      case Got => r := None;
      case Eof => r := Some(Returned(0));
      case Again => r := if blocking then None else Some(Error(EAGAIN));
      case PullError(code) => r := Some(Error(OtherErrno(code)));
      case Overflow =>
        FailClosed(pid);
        SameRecords(old(at), at);
        r := Some(Error(EPIPE));
      case PullParked => r := Some(Parked);
    }

    /** The receive loop: rounds until there is plaintext to hand over, or a result without any. */
    method AwaitPlaintext(k: Kernel, env: Local, pid: int, blocking: bool) returns (r: Option<CallResult>)
      requires Valid() && pid == ownerPid && at.pending == []
      modifies this, metrics, k
      ensures Valid() && OnlyReceiving(old(at), at) && at.history.delivered == old(at).history.delivered
      ensures Outcome(r, at, k.Left()) == RunAwait(prims, old(at), env, blocking, old(k.Left()))
      ensures r.None? ==> rxPlain != []
      ensures r != Some(Parked) ==> at.pending == []
      ensures r.Some? && r.value != Parked ==> Rested(Value())
      ensures r.Some? && InHandshake(Value()) && r.value != Parked ==> txBacklog == [] || |k.sends| < |old(k.sends)|
      ensures r.Some? && r.value.Returned? ==> r.value.n == 0 && EndOfStream in old(k.recvs)
      ensures old(rxPlain) != [] ==> r.None? && at == old(at) && unchanged(k)
      ensures old(phase).Failed? && old(rxPlain) == [] ==> r == Some(Error(EPIPE)) && at == old(at) && unchanged(k)
      ensures AskedQuietly(old(k.asked), k.asked)
      ensures GaugeFrom(old(metrics.activeSessions), old(countedActive))
    {
      hide Lawful, Inv, After, PopFrame, DataSealed, DataReceived, CanOpen, CanSeal, Judge, Established, Sealed,
           Opened, Quiet;
      while rxPlain == []
        invariant Valid() && pid == ownerPid && at.pending == [] && OnlyReceiving(old(at), at)
        invariant RunAwait(prims, at, env, blocking, k.Left())
               == RunAwait(prims, old(at), env, blocking, old(k.Left()))
        invariant at.history.delivered == old(at).history.delivered
        invariant forall x <- k.recvs :: x in old(k.recvs)
        invariant old(phase).Failed? || old(rxPlain) != [] ==> at == old(at) && unchanged(k)
        invariant GaugeFrom(old(metrics.activeSessions), old(countedActive))
        invariant |k.sends| <= |old(k.sends)| && AskedQuietly(old(k.asked), k.asked)
        decreases |k.recvs|, rxPlain == []
      {
        var round := ReceiveRound(k, env, pid, blocking);
        if round.Some? {
          return round;
        }
      }
      r := None;
    }

    /**
     `overlay_recv`. The bytes put in the buffer are the next ones of the received
     stream; on every other outcome nothing is delivered and the buffer is untouched.
     */
    method OverlayRecv(k: Kernel, env: Local, pid: int, epoch: nat, blocking: bool, buf: array<byte>)
      returns (r: CallResult)
      requires Valid() && Rested(Value()) && at.pending == []
      modifies this, metrics, k, buf
      ensures Valid() && OnlyReceiving(old(at), at)
      ensures Outcome(r, at, k.Left())
           == RunRecv(prims, old(at), env, pid, epoch, blocking, buf.Length, old(k.Left()))
      ensures !r.Parked? ==> Rested(Value()) && at.pending == []
      ensures r.Returned? && r.n > 0 ==>
                && r.n <= buf.Length
                && at.history.delivered == old(at).history.delivered + buf[..r.n]
                && buf[r.n..] == old(buf[..])[r.n..]
                && (r.n == buf.Length || rxPlain == [])
      ensures !(r.Returned? && r.n > 0) ==> at.history.delivered == old(at).history.delivered && buf[..] == old(buf[..])
      ensures r == Returned(0) ==> buf.Length == 0 || EndOfStream in old(k.recvs)
      ensures buf.Length > 0 && !r.Parked? && InHandshake(Value()) ==> txBacklog == [] || |k.sends| < |old(k.sends)|
      ensures buf.Length > 0 && (pid != old(ownerPid) || old(phase).Failed?) ==>
                r == Error(EPIPE) && phase.Failed? && at.history == old(at).history && unchanged(k)
      ensures buf.Length > 0 && pid == old(ownerPid) && old(rxPlain) != [] ==>
                && r == Returned(Min(buf.Length, |old(rxPlain)|))
                && at == Delivering(old(at), buf.Length) && unchanged(k)
      ensures AskedQuietly(old(k.asked), k.asked)
      ensures GaugeFrom(old(metrics.activeSessions), old(countedActive))
    {
      hide Lawful, Inv, After, PopFrame, DataSealed, DataReceived, CanOpen, CanSeal, Judge, Established, Sealed,
           Opened, Quiet, SealedText, RunServe, AskedQuietly;
      if buf.Length == 0 {
        NothingAsked(k.asked);
        return Returned(0);
      }
      var refused := Refuse(pid, epoch);
      SameRecords(old(at), at);
      if refused {
        NothingAsked(k.asked);
        return Error(EPIPE);
      }
      r := Serve(k, env, pid, blocking, buf);
    }

    /** The receive loop, and the copy that ends it. */
    method Serve(k: Kernel, env: Local, pid: int, blocking: bool, buf: array<byte>) returns (r: CallResult)
      requires Valid() && pid == ownerPid && at.pending == [] && buf.Length > 0
      modifies this, metrics, k, buf
      ensures Valid() && OnlyReceiving(old(at), at)
      ensures Outcome(r, at, k.Left()) == RunServe(prims, old(at), env, blocking, buf.Length, old(k.Left()))
      ensures !r.Parked? ==> Rested(Value()) && at.pending == []
      ensures r.Returned? && r.n > 0 ==>
                && r.n <= buf.Length
                && at.history.delivered == old(at).history.delivered + buf[..r.n]
                && buf[r.n..] == old(buf[..])[r.n..]
                && (r.n == buf.Length || rxPlain == [])
      ensures !(r.Returned? && r.n > 0) ==> at.history.delivered == old(at).history.delivered && buf[..] == old(buf[..])
      ensures r == Returned(0) ==> EndOfStream in old(k.recvs)
      ensures !r.Parked? && InHandshake(Value()) ==> txBacklog == [] || |k.sends| < |old(k.sends)|
      ensures old(phase).Failed? ==>
                r == Error(EPIPE) && phase.Failed? && at.history == old(at).history && unchanged(k)
      ensures old(rxPlain) != [] ==>
                && r == Returned(Min(buf.Length, |old(rxPlain)|))
                && at == Delivering(old(at), buf.Length) && unchanged(k)
      ensures AskedQuietly(old(k.asked), k.asked)
      ensures GaugeFrom(old(metrics.activeSessions), old(countedActive))
    {
      hide Lawful, Inv, After, PopFrame, DataSealed, DataReceived, CanOpen, CanSeal, Judge, Established, Sealed,
           Opened, Quiet, SealedText, RunAwait, Driven, Opening;
      if phase.Failed? {
        FailedHoldsNothing(prims, at);
      }
      var early := AwaitPlaintext(k, env, pid, blocking);
      if early.Some? {
        return early.value;
      }
      ghost var filled := at;
      var n := CopyPlaintextToApp(pid, buf);
      SameRecords(filled, at);
      HoldingPlaintextIsActive(filled);
      r := Returned(n);
    }

    lemma HoldingPlaintextIsActive(s: Session)
      requires Inv(prims, s) && s.fd.rxPlain != []
      ensures s.fd.phase.Active?
    {
      hide Numbered, Linked, Undowngraded, WireIn, WireOut, PlainOut, RecordsFit, Introduced, Genuine, PopFrame;
    }
  }
}
