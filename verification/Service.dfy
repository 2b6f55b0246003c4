/**
 What an application is owed by the calls it makes: sends that are not refused without
 cause, receives that hand over what has arrived, and, against an honest peer, calls that
 never close the session.
 */
module Service {
  import opened Bytes
  import opened Framing
  import opened Crypto
  import opened Handshake
  import opened Session
  import opened Invariants
  import opened Guarantees
  import opened Calls
  import opened Channel

  // ------------------------------------ flushing ------------------------------------

  /** How many bytes a stretch of answers takes, if there are that many. */
  function Taken(rs: seq<SendResult>): nat {
    if rs == [] then 0 else (if rs[0].Took? then rs[0].n else 0) + Taken(rs[1..])
  }

  /** Whether an answer of the kernel ends a flush. */
  predicate Stops(r: SendResult) {
    !r.Took? || r.n == 0
  }

  /**
   A flush uses answers until the backlog is gone or one of them stops it. What it reports is told by the last answer
   it used: broken exactly by an error, blocked exactly by a refusal or by a send of nothing. What it sent is the
   front of the backlog, as much of it as the answers took.
   */
  predicate Explains(s: Session, k: Script, used: seq<SendResult>, o: Outcome<FlushOutcome>) {
    && k == o.script.(sends := used + o.script.sends)
    && (forall i :: 0 <= i < |used| - 1 ==> !Stops(used[i]))
    && (forall i :: 0 <= i < |used| ==> Taken(used[..i]) < |s.fd.txBacklog|)
    && (o.result.Emptied? <==> o.session.fd.txBacklog == [])
    && (o.result.Broken? <==> used != [] && used[|used| - 1].SendError?)
    && (o.result.Blocked? <==> used != [] && Stops(used[|used| - 1]) && !used[|used| - 1].SendError?)
    && (o.result.FlushParked? ==> o.script.sends == [])
    && o.session == Flushing(s, Min(|s.fd.txBacklog|, Taken(used)))
  }

  lemma {:induction false} FlushExplained(s: Session, k: Script) returns (used: seq<SendResult>)
    ensures Explains(s, k, used, RunFlush(s, k))
    decreases |k.sends|
  {
    hide Explains;
    var o := RunFlush(s, k);
    if s.fd.txBacklog == [] || k.sends == [] {
      used := [];
      UsesNone(s, k, o);
    } else {
      var n := if k.sends[0].Took? then Min(k.sends[0].n, |s.fd.txBacklog|) else 0;
      if n == 0 {
        used := [k.sends[0]];
        UsesOne(s, k, o);
      } else {
        used := FlushExplained(Flushing(s, n), k.(sends := k.sends[1..]));
        hide RunFlush;
        UsesOneMore(s, k, n, used, o);
        used := [k.sends[0]] + used;
      }
    }
  }

  lemma UsesNone(s: Session, k: Script, o: Outcome<FlushOutcome>)
    requires o.session == s && o.script == k
    requires if s.fd.txBacklog == [] then o.result == Emptied else o.result == FlushParked && k.sends == []
    ensures Explains(s, k, [], o)
  {
    NothingFlushed(s);
    assert [] + k.sends == k.sends;
  }

  lemma UsesOne(s: Session, k: Script, o: Outcome<FlushOutcome>)
    requires s.fd.txBacklog != [] && k.sends != [] && Stops(k.sends[0])
    requires o == Outcome(if k.sends[0].SendError? then Broken else Blocked, s, k.(sends := k.sends[1..]))
    ensures Explains(s, k, [k.sends[0]], o)
  {
    NothingFlushed(s);
    assert [k.sends[0]] + k.sends[1..] == k.sends;
    assert [k.sends[0]][1..] == [] && Taken([k.sends[0]]) == 0;
  }

  lemma UsesOneMore(s: Session, k: Script, n: nat, used: seq<SendResult>, o: Outcome<FlushOutcome>)
    requires k.sends != [] && k.sends[0].Took? && 0 < n == Min(k.sends[0].n, |s.fd.txBacklog|)
    requires Explains(Flushing(s, n), k.(sends := k.sends[1..]), used, o)
    ensures Explains(s, k, [k.sends[0]] + used, o)
  {
    var all, t := [k.sends[0]] + used, Flushing(s, n);
    assert k.sends == [k.sends[0]] + k.sends[1..] == all + o.script.sends;
    StillOffered(k.sends[0], used, |s.fd.txBacklog|);
    FlushedTwice(s, n, Min(|t.fd.txBacklog|, Taken(used)));
    OneMoreBefore(k.sends[0], used);
    assert Flushing(t, Min(|t.fd.txBacklog|, Taken(used))) == Flushing(s, Min(|s.fd.txBacklog|, Taken(all)));
    hide Taken, Stops, Flushing;
  }

  /** An answer that does not stop the flush, put in front, changes neither the last answer nor what precedes it. */
  lemma OneMoreBefore(first: SendResult, used: seq<SendResult>)
    requires !Stops(first) && forall i :: 0 <= i < |used| - 1 ==> !Stops(used[i])
    ensures var all := [first] + used;
            && (forall i :: 0 <= i < |all| - 1 ==> !Stops(all[i]))
            && all[|all| - 1] == if used == [] then first else used[|used| - 1]
  {
    hide Stops;
  }

  /** Answers are used only while there are bytes to offer. */
  lemma StillOffered(first: SendResult, used: seq<SendResult>, len: nat)
    requires first.Took? && 0 < first.n && 0 < len
    requires forall i :: 0 <= i < |used| ==> Taken(used[..i]) < len - Min(first.n, len)
    ensures Taken([first] + used) == first.n + Taken(used)
    ensures forall i :: 0 <= i < |used| + 1 ==> Taken(([first] + used)[..i]) < len
  {
    var all := [first] + used;
    assert all[1..] == used;
    forall i | 0 < i < |all|
      ensures Taken(all[..i]) < len
    {
      assert all[..i][1..] == used[..i - 1];
    }
  }

  lemma NothingFlushed(s: Session)
    ensures Flushing(s, 0) == s
  {
    assert s.fd.txBacklog[0..] == s.fd.txBacklog && s.history.sent + s.fd.txBacklog[..0] == s.history.sent;
  }

  lemma FlushedTwice(s: Session, n: nat, m: nat)
    requires n + m <= |s.fd.txBacklog|
    ensures Flushing(Flushing(s, n), m) == Flushing(s, n + m)
  {
    var b := s.fd.txBacklog;
    assert b[n..][m..] == b[n + m..];
    assert s.history.sent + b[..n] + b[n..][..m] == s.history.sent + b[..n + m];
  }

  predicate NoErrors(rs: seq<SendResult>) {
    forall i :: 0 <= i < |rs| ==> !rs[i].SendError?
  }

  /** Without an error from the kernel a flush is never broken, and it leaves such a script. */
  lemma FlushUnbroken(s: Session, k: Script)
    requires NoErrors(k.sends)
    ensures var o := RunFlush(s, k);
            && !o.result.Broken? && NoErrors(o.script.sends) && o.script.recvs == k.recvs
            && (o.result.FlushParked? ==> o.script.sends == [])
            && exists n :: 0 <= n <= |s.fd.txBacklog| && o.session == Flushing(s, n)
  {
    hide RunFlush;
    var used := FlushExplained(s, k);
    var o := RunFlush(s, k);
    forall i | 0 <= i < |o.script.sends|
      ensures !o.script.sends[i].SendError?
    {
      assert k.sends[|used| + i] == o.script.sends[i];
    }
    if used != [] {
      assert k.sends[|used| - 1] == used[|used| - 1];
    }
  }

  // ------------------------------------- sending -------------------------------------

  const RECORD_OVERHEAD := HDR_LEN + 2 + TAG_LEN

  /** The bytes a message takes on the wire. */
  function WireLen(m: bytes): nat {
    |m| + RECORD_OVERHEAD * |Split(m)|
  }

  function RecordsLen(records: seq<bytes>): nat {
    if records == [] then 0 else |records[0]| + RECORD_OVERHEAD + RecordsLen(records[1..])
  }

  lemma {:induction false} SplitLen(m: bytes)
    ensures RecordsLen(Split(m)) == WireLen(m)
    decreases |m|
  {
    if m != [] {
      var n := Min(MAX_RECORD_PLAINTEXT, |m|);
      SplitLen(m[n..]);
      assert Split(m)[1..] == Split(m[n..]);
    }
  }

  /** One record that fits the backlog is sealed and queued without asking the kernel anything. */
  lemma RecordQueues(p: Primitives, s: Session, blocking: bool, record: bytes, k: Script)
    requires AeadLaws(p) && s.fd.phase.Active? && s.pending == [] && |record| <= MAX_RECORD_PLAINTEXT
    requires s.fd.phase.keys.tx.counter < U64_MAX
    requires |s.fd.txBacklog| + |record| + RECORD_OVERHEAD <= MAX_WRITE_BACKLOG
    ensures var o := RunRecord(p, s, blocking, record, k);
            && o.result == Returned(0) && o.script == k && o.session.pending == []
            && o.session.fd.phase.Active?
            && o.session.fd.phase.keys.tx.counter == s.fd.phase.keys.tx.counter + 1
            && |o.session.fd.txBacklog| == |s.fd.txBacklog| + |record| + RECORD_OVERHEAD
  {
    DataAlwaysFits(p, s.fd.phase.keys.tx, record);
    var ct := SealWith(p, s.fd.phase.keys.tx, record).value.1;
    assert |Encode(Parsed(s.fd.policySuite.Id(), TYPE_DATA, ct))| == |record| + RECORD_OVERHEAD;
    hide Encode, Nonce, AeadLaws;
  }

  lemma {:induction false} RecordsQueue(p: Primitives, s: Session, blocking: bool, records: seq<bytes>, k: Script)
    requires AeadLaws(p) && s.fd.phase.Active? && s.pending == []
    requires forall i :: 0 <= i < |records| ==> |records[i]| <= MAX_RECORD_PLAINTEXT
    requires s.fd.phase.keys.tx.counter + |records| <= U64_MAX
    requires |s.fd.txBacklog| + RecordsLen(records) <= MAX_WRITE_BACKLOG
    ensures var o := RunRecords(p, s, blocking, records, k);
            o.result == Returned(0) && o.script == k && o.session.fd.phase.Active? && o.session.pending == []
    decreases |records|
  {
    hide AeadLaws, RunRecord;
    if records != [] {
      RecordQueues(p, s, blocking, records[0], k);
      RecordsQueue(p, RunRecord(p, s, blocking, records[0], k).session, blocking, records[1..], k);
    }
  }

  lemma {:induction false} FinishUnbroken(s: Session, blocking: bool, k: Script)
    requires NoErrors(k.sends)
    ensures var o := RunFinish(s, blocking, k);
            && (o.result == Returned(0) || (o.result == Parked && o.script.sends == []))
            && o.session.fd.phase == s.fd.phase && o.script.recvs == k.recvs
    decreases |k.sends|
  {
    hide RunFlush, NoErrors;
    FlushUnbroken(s, k);
    var o := RunFlush(s, k);
    if o.result.Blocked? && blocking {
      FinishUnbroken(o.session, blocking, o.script);
    }
  }

  /**
   A send on an active session of this process is not refused without cause. If the counter has room for its records,
   the backlog has room for their frames and the kernel reports no error, the full length is returned, or the call is
   still inside a kernel send that has not come back; the session stays active and nothing is read.
   */
  lemma SendSucceeds(p: Primitives, s: Session, env: Local, pid: int, epoch: nat, blocking: bool, m: bytes, k: Script)
    requires AeadLaws(p) && s.fd.phase.Active? && s.pending == [] && !Refuses(s.fd, pid, epoch)
    requires s.fd.phase.keys.tx.counter + |Split(m)| <= U64_MAX
    requires |s.fd.txBacklog| + WireLen(m) <= MAX_WRITE_BACKLOG
    requires NoErrors(k.sends)
    ensures var o := RunSend(p, s, env, pid, epoch, blocking, m, k);
            && (o.result == Returned(|m|) || (o.result == Parked && o.script.sends == []))
            && o.session.fd.phase.Active? && o.script.recvs == k.recvs
  {
    hide AeadLaws, RunFlush, RunRecords, RunFinish, WriteStep, NoErrors;
    FlushUnbroken(s, k);
    var o := RunFlush(s, k);
    if !o.result.FlushParked? {
      SplitIsExact(m);
      SplitLen(m);
      hide Split, WireLen, RecordsLen;
      RecordsQueue(p, o.session, blocking, Split(m), o.script);
      var q := RunRecords(p, o.session, blocking, Split(m), o.script);
      FinishUnbroken(q.session, blocking, q.script);
    }
  }

  /** A kernel that takes all it is offered. */
  predicate TakesAll(rs: seq<SendResult>) {
    forall i :: 0 <= i < |rs| ==> rs[i].Took? && rs[i].n >= MAX_WRITE_BACKLOG
  }

  lemma FlushTakenWhole(s: Session, k: Script)
    requires TakesAll(k.sends) && |s.fd.txBacklog| <= MAX_WRITE_BACKLOG
    ensures var o := RunFlush(s, k);
            && TakesAll(o.script.sends) && o.script.recvs == k.recvs && o.session.fd.phase == s.fd.phase
            && o.session.pending == s.pending
            && ((o.result == Emptied && o.session.fd.txBacklog == [])
                || (o.result == FlushParked && o.script.sends == [] && o.session == s))
  {
    if s.fd.txBacklog != [] && k.sends != [] {
      var b := s.fd.txBacklog;
      assert Min(k.sends[0].n, |b|) == |b| && b[|b|..] == [];
    }
  }

  /** A record goes through even when the backlog is full: it is flushed to make room. */
  lemma RecordFlows(p: Primitives, s: Session, blocking: bool, record: bytes, k: Script)
    requires AeadLaws(p) && s.fd.phase.Active? && s.pending == [] && |record| <= MAX_RECORD_PLAINTEXT
    requires s.fd.phase.keys.tx.counter < U64_MAX && |s.fd.txBacklog| <= MAX_WRITE_BACKLOG && TakesAll(k.sends)
    ensures var o := RunRecord(p, s, blocking, record, k);
            && TakesAll(o.script.sends) && o.script.recvs == k.recvs && o.session.fd.phase.Active?
            && ((o.result == Parked && o.script.sends == [])
                || (&& o.result == Returned(0) && o.session.pending == []
                    && o.session.fd.phase.keys.tx.counter == s.fd.phase.keys.tx.counter + 1
                    && |o.session.fd.txBacklog| <= MAX_WRITE_BACKLOG))
  {
    DataAlwaysFits(p, s.fd.phase.keys.tx, record);
    var ct := SealWith(p, s.fd.phase.keys.tx, record).value.1;
    assert |Encode(Parsed(s.fd.policySuite.Id(), TYPE_DATA, ct))| == |record| + RECORD_OVERHEAD;
    hide Encode, Nonce, AeadLaws, TakesAll, RunFlush;
    FlushTakenWhole(Sealed(p, s, record), k);
  }

  lemma {:induction false} RecordsFlow(p: Primitives, s: Session, blocking: bool, records: seq<bytes>, k: Script)
    requires AeadLaws(p) && s.fd.phase.Active? && s.pending == []
    requires forall i :: 0 <= i < |records| ==> |records[i]| <= MAX_RECORD_PLAINTEXT
    requires s.fd.phase.keys.tx.counter + |records| <= U64_MAX
    requires |s.fd.txBacklog| <= MAX_WRITE_BACKLOG && TakesAll(k.sends)
    ensures var o := RunRecords(p, s, blocking, records, k);
            && TakesAll(o.script.sends) && o.script.recvs == k.recvs && o.session.fd.phase.Active?
            && ((o.result == Parked && o.script.sends == [])
                || (o.result == Returned(0) && |o.session.fd.txBacklog| <= MAX_WRITE_BACKLOG))
    decreases |records|
  {
    hide AeadLaws, RunRecord, TakesAll;
    if records != [] {
      RecordFlows(p, s, blocking, records[0], k);
      var o := RunRecord(p, s, blocking, records[0], k);
      if o.result.Returned? {
        RecordsFlow(p, o.session, blocking, records[1..], o.script);
      }
    }
  }

  /**
   A message of any length, on an active session of this process whose counter has room for its records, goes through
   while the kernel takes what it is offered: the full length is returned, with nothing left behind, or the call is
   still inside a kernel send that has not come back.
   */
  lemma LongSendSucceeds(p: Primitives, s: Session, env: Local, pid: int, epoch: nat, blocking: bool, m: bytes,
                         k: Script)
    requires AeadLaws(p) && s.fd.phase.Active? && s.pending == [] && !Refuses(s.fd, pid, epoch) && m != []
    requires s.fd.phase.keys.tx.counter + |Split(m)| <= U64_MAX
    requires |s.fd.txBacklog| <= MAX_WRITE_BACKLOG && TakesAll(k.sends)
    ensures var o := RunSend(p, s, env, pid, epoch, blocking, m, k);
            && ((o.result == Returned(|m|) && o.session.fd.txBacklog == [])
                || (o.result == Parked && o.script.sends == []))
            && o.session.fd.phase.Active? && o.script.recvs == k.recvs
  {
    hide AeadLaws, RunFlush, RunRecords, WriteStep, TakesAll;
    FlushTakenWhole(s, k);
    var o := RunFlush(s, k);
    if o.result.Emptied? {
      SplitIsExact(m);
      hide Split;
      RecordsFlow(p, o.session, blocking, Split(m), o.script);
      var q := RunRecords(p, o.session, blocking, Split(m), o.script);
      if q.result.Returned? {
        FlushTakenWhole(q.session, q.script);
      }
    }
  }

  /** Only would-blocks to read. */
  predicate NothingYet(rs: seq<RecvResult>) {
    forall i :: 0 <= i < |rs| ==> rs[i].RecvWouldBlock?
  }

  lemma {:induction false} LoopWaits(p: Primitives, s: Session, env: Local, blocking: bool, k: Script)
    requires InHandshake(s.fd) && NoErrors(k.sends) && NothingYet(k.recvs)
    ensures var o := WriteLoop(p, s, env, blocking, k);
            && (o.result == ReadyParked || (o.result == NotReady(EAGAIN) && !blocking))
            && o.session.fd.phase == s.fd.phase && o.session.fd.rxWire == s.fd.rxWire
    decreases |k.sends| + |k.recvs|
  {
    hide RunFlush, NoErrors;
    FlushUnbroken(s, k);
    var o := WriteStep(p, s, env, blocking, k);
    if o.result.None? {
      LoopWaits(p, o.session, env, blocking, o.script);
    }
  }

  /**
   Waiting does not fail a handshake: as long as the kernel reports no error and has nothing to read, a send leaves the
   session in the phase it is in, and reports that it would block, or, on a blocking socket, does not return yet.
   */
  lemma HandshakeWaits(p: Primitives, s: Session, env: Local, pid: int, epoch: nat, blocking: bool, m: bytes, k: Script)
    requires InHandshake(s.fd) && !Refuses(s.fd, pid, epoch) && NoErrors(k.sends) && NothingYet(k.recvs)
    ensures var o := RunSend(p, s, env, pid, epoch, blocking, m, k);
            && (o.result == Parked || (o.result == Error(EAGAIN) && !blocking))
            && o.session.fd.phase == s.fd.phase && o.session.fd.rxWire == s.fd.rxWire
  {
    hide RunFlush, NoErrors, WriteLoop, RunSendAll, NothingYet;
    FlushUnbroken(s, k);
    var o := RunFlush(s, k);
    if !o.result.FlushParked? {
      LoopWaits(p, o.session, env, blocking, o.script);
    }
  }

  /**
   A send during the handshake goes on once the peer's hello is there: when the kernel takes what is queued and the
   next bytes complete a hello that is accepted, the session is active and the send proceeds, with no further read.
   */
  lemma HandshakeCompletes(p: Primitives, s: Session, env: Local, pid: int, epoch: nat, blocking: bool, m: bytes,
                           k: Script)
    requires InHandshake(s.fd) && !Refuses(s.fd, pid, epoch) && m != []
    requires RunFlush(s, k).result.Emptied? && k.recvs != [] && k.recvs[0].Arrived?
    requires var t := Pulling(RunFlush(s, k).session, k.recvs[0].chunk);
             && |t.fd.rxWire| <= MAX_WIRE_RX_BUFFER && PopFrame(t.fd.rxWire).Popped?
             && Judge(p, t.fd, PopFrame(t.fd.rxWire).frame, env).Establish?
    ensures var o := RunFlush(s, k);
            var t := Driven(p, Pulling(o.session, k.recvs[0].chunk), env);
            && t.fd.phase.Active?
            && RunSend(p, s, env, pid, epoch, blocking, m, k)
               == RunSendAll(p, t, blocking, m, o.script.(recvs := k.recvs[1..]))
  {
    hide PopFrame, Judge, RunSendAll, RunFlush, WriteLoop, Driven;
    FlushKeepsPhase(s, k);
    var o := RunFlush(s, k);
    assert o.session.fd.txBacklog == [] by { var _ := FlushExplained(s, k); }
    ActiveAfterHello(p, o.session, env, blocking, o.script);
  }

  lemma ActiveAfterHello(p: Primitives, s: Session, env: Local, blocking: bool, k: Script)
    requires InHandshake(s.fd) && s.fd.txBacklog == [] && k.recvs != [] && k.recvs[0].Arrived?
    requires var t := Pulling(s, k.recvs[0].chunk);
             && |t.fd.rxWire| <= MAX_WIRE_RX_BUFFER && PopFrame(t.fd.rxWire).Popped?
             && Judge(p, t.fd, PopFrame(t.fd.rxWire).frame, env).Establish?
    ensures var t := Driven(p, Pulling(s, k.recvs[0].chunk), env);
            && t.fd.phase.Active?
            && WriteLoop(p, s, env, blocking, k) == Outcome(Ready, t, k.(recvs := k.recvs[1..]))
  {
    hide PopFrame, Judge, Stream;
    var t := Driven(p, Pulling(s, k.recvs[0].chunk), env);
    assert RunFlush(s, k) == Outcome(Emptied, s, k);
    assert WriteStep(p, s, env, blocking, k) == Outcome(None, t, k.(recvs := k.recvs[1..]));
  }

  lemma FlushKeepsPhase(s: Session, k: Script)
    ensures RunFlush(s, k).session.fd.phase == s.fd.phase
    decreases |k.sends|
  {
  }

  // ------------------------------------- receiving -------------------------------------

  /** The data an active session can open from the bytes it holds. */
  function Held(p: Primitives, s: Session): Drained
    requires s.fd.phase.Active?
  {
    Drain(p, s.fd.phase.keys.rx, s.fd.policySuite.Id(), s.fd.rxWire)
  }

  /** What opening those bytes leaves, when nothing but the front part of a frame remains. */
  predicate OpenedUp(s: Session, d: Drained, t: Session)
    requires s.fd.phase.Active?
  {
    && t.fd == s.fd.(phase := Active(s.fd.phase.keys.(rx := d.next)), rxWire := d.leftover,
                     rxPlain := s.fd.rxPlain + Concat(d.plaintexts))
    && t.pending == s.pending && t.history == s.history.(received := t.history.received)
  }

  lemma OpenedUpFirst(p: Primitives, s: Session, d: Drained, t: Session)
    requires CanOpen(p, s.fd) && OpenedUp(Opened(p, s), d, t)
    ensures var m := OpenWith(p, s.fd.phase.keys.rx, PopFrame(s.fd.rxWire).frame.payload).value.1;
            OpenedUp(s, d.(plaintexts := [m] + d.plaintexts), t)
  {
    hide PopFrame, OpenWith;
    var m := OpenWith(p, s.fd.phase.keys.rx, PopFrame(s.fd.rxWire).frame.payload).value.1;
    var ms := [m] + d.plaintexts;
    assert ms[1..] == d.plaintexts;
    assert s.fd.rxPlain + m + Concat(d.plaintexts) == s.fd.rxPlain + Concat(ms);
  }

  lemma OpenIsAStep(p: Primitives, s: Session)
    requires Lawful(p) && Inv(p, s) && CanOpen(p, s.fd)
    ensures Inv(p, Opened(p, s)) && Opened(p, s).fd.phase.Active?
    ensures |Opened(p, s).fd.rxWire| < |s.fd.rxWire|
  {
    hide Inv, Lawful, OpenWith;
    StepKeepsInv(p, s, Act(s.fd.ownerPid, Open));
  }

  /**
   Opening yields exactly the plaintexts of the complete data frames, in order, and keeps the rest of the bytes; it
   closes the session exactly when what follows them is a bad header or a frame that is no next record of the peer.
   */
  lemma {:induction false} OpensWhatDrains(p: Primitives, s: Session)
    requires Lawful(p) && Inv(p, s) && s.fd.phase.Active?
    ensures var d, t := Held(p, s), Opening(p, s);
            && Inv(p, t)
            && (if PopFrame(d.leftover).NoFrame? then OpenedUp(s, d, t)
                else t.fd == Closed(s.fd) && t.history == s.history.(received := t.history.received))
    decreases |s.fd.rxWire|
  {
    hide Inv, Lawful, PopFrame, OpenWith, OpenedUp, Opened, Opening;
    OpeningUnfolds(p, s);
    match PopFrame(s.fd.rxWire)
    case NoFrame =>
      NothingOpened(s);
    case Malformed =>
      StepKeepsInv(p, s, Act(s.fd.ownerPid, Fail));
    case Popped(f, rest) =>
      if CanOpen(p, s.fd) {
        OpenIsAStep(p, s);
        OpensWhatDrains(p, Opened(p, s));
        OpenedDrains(p, s);
        if PopFrame(Held(p, s).leftover).NoFrame? {
          OpenedUpFirst(p, s, Held(p, Opened(p, s)), Opening(p, s));
        }
      } else {
        CannotOpenStops(p, s);
        StepKeepsInv(p, s, Act(s.fd.ownerPid, Fail));
      }
  }

  lemma NothingOpened(s: Session)
    requires s.fd.phase.Active?
    ensures OpenedUp(s, Drained([], s.fd.phase.keys.rx, s.fd.rxWire), s)
  {
  }

  lemma OpenedDrains(p: Primitives, s: Session)
    requires CanOpen(p, s.fd)
    ensures var t := Opened(p, s);
            var m := OpenWith(p, s.fd.phase.keys.rx, PopFrame(s.fd.rxWire).frame.payload).value.1;
            && t.fd.phase.Active? && Closed(t.fd) == Closed(s.fd)
            && t.history == s.history.(received := t.history.received)
            && Held(p, s) == Held(p, t).(plaintexts := [m] + Held(p, t).plaintexts)
  {
    hide PopFrame, OpenWith;
  }

  /** The plaintext buffer has room, so a frame that is not opened is one that does not drain. */
  lemma CannotOpenStops(p: Primitives, s: Session)
    requires Lawful(p) && Inv(p, s) && s.fd.phase.Active? && PopFrame(s.fd.rxWire).Popped? && !CanOpen(p, s.fd)
    ensures Held(p, s) == Drained([], s.fd.phase.keys.rx, s.fd.rxWire)
  {
    var f := PopFrame(s.fd.rxWire).frame;
    if OpenWith(p, s.fd.phase.keys.rx, f.payload).Ok? {
      PlainNeverOverflows(p, s);
    }
    hide PopFrame, OpenWith, Inv, Lawful;
  }

  /** The state and the report of a receive that finds nothing to hand over, by the kernel's next answer. */
  predicate Waited(p: Primitives, t: Session, env: Local, blocking: bool, len: nat, k: Script,
                   o: Outcome<CallResult>) {
    if k.recvs == [] then o == Outcome(Parked, t, k)
    else
      var rest := k.(recvs := k.recvs[1..]);
      match k.recvs[0]
      case EndOfStream => o == Outcome(Returned(0), t, rest)
      case RecvError(code) => o == Outcome(Error(OtherErrno(code)), t, rest)
      case RecvWouldBlock =>
        if blocking then o == RunServe(p, t, env, blocking, len, rest) else o == Outcome(Error(EAGAIN), t, rest)
      case Arrived(chunk) =>
        if |t.fd.rxWire| + |chunk| <= MAX_WIRE_RX_BUFFER
        then o == RunServe(p, Pulling(t, chunk), env, blocking, len, rest)
        else o == Outcome(Error(EPIPE), Failing(t), rest)
  }

  /**
   A receive on an active session of this process with no plaintext waiting. If the bytes it holds do not decode, the
   session is closed and nothing is handed over. If they decode to something, that is what is handed over, from the
   front and as much as fits, without a look at the socket. Only if they decode to nothing is the socket asked, and
   then the next answer decides; no answer but an overflow closes the session.
   */
  lemma ReceiveDelivers(p: Primitives, s: Session, env: Local, pid: int, epoch: nat, blocking: bool, len: nat,
                        k: Script)
    requires Lawful(p) && Inv(p, s) && s.fd.phase.Active? && !Refuses(s.fd, pid, epoch)
    requires s.fd.rxPlain == [] && len > 0
    ensures var d := Held(p, s);
            var text, o, t := Concat(d.plaintexts), RunRecv(p, s, env, pid, epoch, blocking, len, k), Opening(p, s);
            if !PopFrame(d.leftover).NoFrame? then
              && o.result == Error(EPIPE) && o.script == k
              && o.session.fd == Closed(s.fd) && o.session.history.delivered == s.history.delivered
            else if text != [] then
              && o.result == Returned(Min(len, |text|)) && o.script == k
              && o.session == Delivering(t, len) && OpenedUp(s, d, t) && t.fd.rxPlain == text
            else OpenedUp(s, d, t) && Waited(p, t, env, blocking, len, k, o)
  {
    hide Inv, Lawful, PopFrame, Opening, Drain;
    OpensWhatDrains(p, s);
    var d, t := Held(p, s), Opening(p, s);
    if PopFrame(d.leftover).NoFrame? {
      var text := Concat(d.plaintexts);
      hide Concat;
      assert t.fd.rxPlain == s.fd.rxPlain + text == text;
      if text != [] {
        assert ReadStep(p, s, env, blocking, k) == Outcome(None, t, k);
        assert RunAwait(p, s, env, blocking, k) == RunAwait(p, t, env, blocking, k);
      } else {
        WaitingAsks(p, s, t, env, blocking, len, k);
      }
    }
  }

  lemma WaitingAsks(p: Primitives, s: Session, t: Session, env: Local, blocking: bool, len: nat, k: Script)
    requires s.fd.phase.Active? && s.fd.rxPlain == [] && t == Opening(p, s) && t.fd.phase.Active? && t.fd.rxPlain == []
    ensures Waited(p, t, env, blocking, len, k, RunServe(p, s, env, blocking, len, k))
  {
    hide Opening;
  }

  // ---------------------------------- honest connections ----------------------------------

  /** The bytes a stretch of answers brings. */
  function Arrivals(rs: seq<RecvResult>): bytes {
    if rs == [] then [] else (if rs[0].Arrived? then rs[0].chunk else []) + Arrivals(rs[1..])
  }

  /** A connection, and a script that brings the bytes in flight, or the first of them, in order. */
  ghost predicate Carried(p: Primitives, a: Session, b: Session, inFlight: bytes, k: Script) {
    Connected(p, a, b, inFlight) && Arrivals(k.recvs) <= inFlight
  }

  /** Nothing but the bytes in flight, to the last one. */
  predicate AllOf(rs: seq<RecvResult>, inFlight: bytes) {
    Arrivals(rs) == inFlight && forall i :: 0 <= i < |rs| ==> rs[i].Arrived?
  }

  predicate SameOwner(x: Fd, y: Fd) {
    x.ownerPid == y.ownerPid && x.configEpoch == y.configEpoch
  }

  lemma HonestOpen(p: Primitives, a: Session, b: Session, inFlight: bytes)
    requires Lawful(p) && Connected(p, a, b, inFlight) && CanOpen(p, b.fd)
    ensures Connected(p, a, Opened(p, b), inFlight)
  {
    hide Inv, Lawful, OpenWith, PopFrame;
    OpenIsAStep(p, b);
  }

  lemma HonestCanOpen(p: Primitives, a: Session, b: Session, inFlight: bytes)
    requires Lawful(p) && Connected(p, a, b, inFlight)
    ensures PopFrame(b.fd.rxWire).NoFrame? || (PopFrame(b.fd.rxWire).Popped? && CanOpen(p, b.fd))
  {
    HonestFrameOpens(p, a, b, inFlight);
    if PopFrame(b.fd.rxWire).Popped? {
      PlainNeverOverflows(p, b);
    }
    hide Inv, Lawful, OpenWith, PopFrame;
  }

  /** What an honest peer sent is always opened, down to the last complete frame. */
  lemma {:induction false} HonestOpening(p: Primitives, a: Session, b: Session, inFlight: bytes)
    requires Lawful(p) && Connected(p, a, b, inFlight)
    ensures var t := Opening(p, b);
            && Connected(p, a, t, inFlight) && PopFrame(t.fd.rxWire).NoFrame?
            && t.history.delivered == b.history.delivered && t.history.pulled == b.history.pulled
            && SameOwner(t.fd, b.fd)
    decreases |b.fd.rxWire|
  {
    hide Connected, Lawful, PopFrame, Opening;
    OpeningUnfolds(p, b);
    HonestCanOpen(p, a, b, inFlight);
    if CanOpen(p, b.fd) && PopFrame(b.fd.rxWire).Popped? {
      HonestOpen(p, a, b, inFlight);
      ConnectedInv(p, a, b, inFlight);
      OpenIsAStep(p, b);
      HonestOpening(p, a, Opened(p, b), inFlight);
    }
  }

  lemma ConnectedInv(p: Primitives, a: Session, b: Session, inFlight: bytes)
    requires Connected(p, a, b, inFlight)
    ensures Inv(p, a) && Inv(p, b) && a.fd.phase.Active? && b.fd.phase.Active?
    ensures a.history.sent == b.history.pulled + inFlight
  {
    hide Inv;
  }

  /** An honest peer leaves room: what is held when more is asked for is less than one frame. */
  lemma HonestFits(p: Primitives, a: Session, b: Session, inFlight: bytes)
    requires Connected(p, a, b, inFlight) && Quiet(b.fd)
    ensures |b.fd.rxWire| < MAX_HONEST_FRAME
  {
    ConnectedInv(p, a, b, inFlight);
    SentIsGrammatical(p, a);
    SendersAreModest(p, a);
    hide Inv, Quiet, Stream, FramesOut, Modest;
    assert b.history.pulled <= a.history.sent <= Stream(FramesOut(a));
    QuietHoldsLittle(p, b, FramesOut(a));
  }

  lemma PullIsAStep(p: Primitives, s: Session, chunk: Chunk)
    requires Lawful(p) && Inv(p, s) && !s.fd.phase.Failed? && Quiet(s.fd)
    requires |s.fd.rxWire| + |chunk| <= MAX_WIRE_RX_BUFFER
    ensures Inv(p, Pulling(s, chunk))
  {
    hide Inv, Lawful, Quiet;
    StepKeepsInv(p, s, Act(s.fd.ownerPid, Pull(chunk)));
  }

  lemma FirstArrives(rs: seq<RecvResult>, inFlight: bytes)
    requires rs != [] && rs[0].Arrived? && Arrivals(rs) <= inFlight
    ensures var chunk := rs[0].chunk;
            && |chunk| <= |inFlight| && inFlight == chunk + inFlight[|chunk|..]
            && Arrivals(rs[1..]) <= inFlight[|chunk|..]
            && (AllOf(rs, inFlight) ==> AllOf(rs[1..], inFlight[|chunk|..]))
  {
    var chunk := rs[0].chunk;
    assert Arrivals(rs)[|chunk|..] == Arrivals(rs[1..]);
    assert Arrivals(rs)[..|chunk|] == chunk;
  }

  /** A read from an honest peer fits the buffer, and the connection goes on with the rest in flight. */
  lemma HonestPull(p: Primitives, a: Session, b: Session, inFlight: bytes, k: Script)
    requires Lawful(p) && Carried(p, a, b, inFlight, k) && Quiet(b.fd) && k.recvs != [] && k.recvs[0].Arrived?
    ensures var chunk := k.recvs[0].chunk;
            && |b.fd.rxWire| + |chunk| <= MAX_WIRE_RX_BUFFER && |chunk| <= |inFlight|
            && Carried(p, a, Pulling(b, chunk), inFlight[|chunk|..], k.(recvs := k.recvs[1..]))
            && (AllOf(k.recvs, inFlight) ==> AllOf(k.recvs[1..], inFlight[|chunk|..]))
  {
    hide Inv, Lawful, Quiet, Arrivals, AllOf;
    var chunk := k.recvs[0].chunk;
    HonestFits(p, a, b, inFlight);
    FirstArrives(k.recvs, inFlight);
    PullIsAStep(p, b, chunk);
    assert b.history.pulled + chunk + inFlight[|chunk|..] == b.history.pulled + inFlight;
  }

  /** One round of the receive loop with an honest peer. */
  lemma HonestRound(p: Primitives, a: Session, b: Session, inFlight: bytes, env: Local, blocking: bool, k: Script)
    returns (rest: bytes)
    requires Lawful(p) && Carried(p, a, b, inFlight, k) && b.fd.rxPlain == []
    ensures var o := ReadStep(p, b, env, blocking, k);
            && Carried(p, a, o.session, rest, o.script)
            && o.session.history.delivered == b.history.delivered && SameOwner(o.session.fd, b.fd)
            && o.result != Some(Error(EPIPE))
            && (o.result == Some(Parked) ==> o.script.recvs == [] && Quiet(o.session.fd))
            && (AllOf(k.recvs, inFlight) ==>
                  AllOf(o.script.recvs, rest) && (o.result.None? || o.result == Some(Parked)))
  {
    hide Connected, Lawful, PopFrame, Opening, Arrivals, RunPullForRead, Inv, AllOf;
    HonestOpening(p, a, b, inFlight);
    ConnectedInv(p, a, b, inFlight);
    var t := Opening(p, b);
    ConnectedInv(p, a, t, inFlight);
    rest := inFlight;
    if t.fd.rxPlain == [] {
      rest := HonestAsk(p, a, t, inFlight, blocking, k);
    }
  }

  lemma HonestAsk(p: Primitives, a: Session, b: Session, inFlight: bytes, blocking: bool, k: Script)
    returns (rest: bytes)
    requires Lawful(p) && Carried(p, a, b, inFlight, k) && Quiet(b.fd)
    ensures var o := RunPullForRead(b, blocking, k);
            && Carried(p, a, o.session, rest, o.script)
            && o.session.history.delivered == b.history.delivered && SameOwner(o.session.fd, b.fd)
            && o.result != Some(Error(EPIPE))
            && (o.result == Some(Parked) ==> o.script.recvs == [] && Quiet(o.session.fd))
            && (AllOf(k.recvs, inFlight) ==>
                  AllOf(o.script.recvs, rest) && (o.result.None? || o.result == Some(Parked)))
  {
    hide Connected, Lawful, Quiet, Arrivals, AllOf;
    rest := inFlight;
    if k.recvs != [] {
      if k.recvs[0].Arrived? {
        HonestPull(p, a, b, inFlight, k);
        rest := inFlight[|k.recvs[0].chunk|..];
      } else {
        NothingArrives(k.recvs);
      }
    }
  }

  lemma NothingArrives(rs: seq<RecvResult>)
    requires rs != [] && !rs[0].Arrived?
    ensures Arrivals(rs) == Arrivals(rs[1..])
    ensures forall inFlight :: !AllOf(rs, inFlight)
  {
  }

  /** The receive loop with an honest peer. */
  lemma {:induction false} HonestWait(p: Primitives, a: Session, b: Session, inFlight: bytes, env: Local,
                                      blocking: bool, k: Script) returns (rest: bytes)
    requires Lawful(p) && Carried(p, a, b, inFlight, k)
    ensures var o := RunAwait(p, b, env, blocking, k);
            && Carried(p, a, o.session, rest, o.script)
            && o.session.history.delivered == b.history.delivered && SameOwner(o.session.fd, b.fd)
            && o.result != Some(Error(EPIPE))
            && (o.result == Some(Parked) ==> o.script.recvs == [] && Quiet(o.session.fd))
            && (AllOf(k.recvs, inFlight) ==>
                  AllOf(o.script.recvs, rest) && (o.result.None? || o.result == Some(Parked)))
    decreases |k.recvs|, b.fd.rxPlain == []
  {
    hide Carried, Lawful, ReadStep, AllOf, Quiet;
    rest := inFlight;
    if b.fd.rxPlain == [] {
      rest := HonestRound(p, a, b, inFlight, env, blocking, k);
      var o := ReadStep(p, b, env, blocking, k);
      if o.result.None? {
        rest := HonestWait(p, a, o.session, rest, env, blocking, o.script);
      }
    }
  }

  /**
   Between honest ends no receive closes the session or is refused: whatever part of the bytes in flight arrives, and
   in whatever pieces, the two ends stay connected, and what is handed over is the next part of what was sealed.
   */
  lemma HonestReceive(p: Primitives, a: Session, b: Session, inFlight: bytes, env: Local, epoch: nat,
                      blocking: bool, len: nat, k: Script) returns (rest: bytes)
    requires Lawful(p) && Carried(p, a, b, inFlight, k) && !Refuses(b.fd, b.fd.ownerPid, epoch)
    ensures var o := RunRecv(p, b, env, b.fd.ownerPid, epoch, blocking, len, k);
            && Carried(p, a, o.session, rest, o.script) && o.session.fd.phase.Active?
            && o.result != Error(EPIPE)
            && b.history.delivered <= o.session.history.delivered <= Concat(Plaintexts(DataSealed(a)))
            && SameOwner(o.session.fd, b.fd)
            && (AllOf(k.recvs, inFlight) ==> AllOf(o.script.recvs, rest))
  {
    hide Connected, Lawful, RunAwait, DataSealed, Concat, Plaintexts, AllOf;
    rest := inFlight;
    if len > 0 {
      rest := HonestWait(p, a, b, inFlight, env, blocking, k);
      var o := RunAwait(p, b, env, blocking, k);
      if o.result.None? {
        HonestDelivery(p, a, o.session, rest, len);
      }
    }
    DeliveredSoFar(p, a, RunRecv(p, b, env, b.fd.ownerPid, epoch, blocking, len, k).session, rest);
  }

  lemma DeliveredSoFar(p: Primitives, a: Session, b: Session, inFlight: bytes)
    requires Lawful(p) && Connected(p, a, b, inFlight)
    ensures b.fd.phase.Active? && b.history.delivered <= Concat(Plaintexts(DataSealed(a)))
  {
    hide Inv, AeadLaws, ExchangeLaws, SignatureLaws, DataSealed, Plaintexts, Drain, Concat, OnTheWay;
    StreamConserved(p, a, b, inFlight);
    var tail := Concat(Drain(p, b.fd.phase.keys.rx, b.fd.policySuite.Id(), OnTheWay(a, b, inFlight)).plaintexts);
    assert b.history.delivered + b.fd.rxPlain + tail == b.history.delivered + (b.fd.rxPlain + tail);
  }

  lemma HonestDelivery(p: Primitives, a: Session, b: Session, inFlight: bytes, len: nat)
    requires Lawful(p) && Connected(p, a, b, inFlight) && b.fd.rxPlain != [] && len > 0
    ensures Connected(p, a, Delivering(b, len), inFlight)
  {
    hide Inv, Lawful;
    StepKeepsInv(p, b, Act(b.fd.ownerPid, Deliver(Min(len, |b.fd.rxPlain|))));
  }

  /** What is left to hand over when an honest peer's bytes have all been read and opened: nothing. */
  lemma AllReadIsAllDelivered(p: Primitives, a: Session, b: Session)
    requires Lawful(p) && Connected(p, a, b, []) && Quiet(b.fd) && a.fd.txBacklog == [] && a.pending == []
    ensures b.history.delivered == Concat(Plaintexts(DataSealed(a)))
  {
    hide Inv, AeadLaws, ExchangeLaws, SignatureLaws, DataSealed, Plaintexts, PopFrame;
    StreamConserved(p, a, b, []);
    assert OnTheWay(a, b, []) == b.fd.rxWire;
    assert b.history.delivered + [] + [] == b.history.delivered;
  }

  /**
   Between honest ends everything sealed is handed over. While something the sender has sealed and sent is not yet
   delivered, a receive to which the bytes in flight all arrive returns some of it: a nonempty next part.
   */
  lemma HonestProgress(p: Primitives, a: Session, b: Session, inFlight: bytes, env: Local, epoch: nat,
                       blocking: bool, len: nat, k: Script)
    requires Lawful(p) && Carried(p, a, b, inFlight, k) && !Refuses(b.fd, b.fd.ownerPid, epoch) && len > 0
    requires a.fd.txBacklog == [] && a.pending == [] && AllOf(k.recvs, inFlight)
    requires b.history.delivered != Concat(Plaintexts(DataSealed(a)))
    ensures var o := RunRecv(p, b, env, b.fd.ownerPid, epoch, blocking, len, k);
            && o.result.Returned? && 0 < o.result.n <= len
            && b.history.delivered < o.session.history.delivered <= Concat(Plaintexts(DataSealed(a)))
            && |o.session.history.delivered| == |b.history.delivered| + o.result.n
  {
    hide Connected, Lawful, RunAwait, DataSealed, Concat, Plaintexts, AllOf;
    HonestWaitEnds(p, a, b, inFlight, env, blocking, k);
    var _ := HonestWait(p, a, b, inFlight, env, blocking, k);
    var _ := HonestReceive(p, a, b, inFlight, env, epoch, blocking, len, k);
  }

  /** The session after `n` receives into buffers of `len` bytes. */
  function RunReceives(p: Primitives, s: Session, env: Local, blocking: bool, len: nat, k: Script, n: nat)
    : Session
    decreases n
  {
    if n == 0 then s
    else
      var o := RunRecv(p, s, env, s.fd.ownerPid, s.fd.configEpoch, blocking, len, k);
      RunReceives(p, o.session, env, blocking, len, o.script, n - 1)
  }

  /**
   Between honest ends everything sealed is delivered: when all the bytes the sender framed have been sent, and those
   in flight arrive, in whatever pieces, repeated receives into a buffer of any size hand over exactly the rest.
   */
  lemma {:induction false} HonestDeliversAll(p: Primitives, a: Session, b: Session, inFlight: bytes, env: Local,
                                             blocking: bool, len: nat, k: Script) returns (n: nat)
    requires Lawful(p) && Carried(p, a, b, inFlight, k) && len > 0
    requires a.fd.txBacklog == [] && a.pending == [] && AllOf(k.recvs, inFlight)
    ensures var t := RunReceives(p, b, env, blocking, len, k, n);
            t.fd.phase.Active? && t.history.delivered == Concat(Plaintexts(DataSealed(a)))
    decreases |Concat(Plaintexts(DataSealed(a)))| - |b.history.delivered|
  {
    hide Connected, Lawful, RunRecv, DataSealed, Concat, Plaintexts, AllOf;
    ConnectedInv(p, a, b, inFlight);
    DeliveredSoFar(p, a, b, inFlight);
    if b.history.delivered == Concat(Plaintexts(DataSealed(a))) {
      n := 0;
    } else {
      var epoch := b.fd.configEpoch;
      HonestProgress(p, a, b, inFlight, env, epoch, blocking, len, k);
      var rest := HonestReceive(p, a, b, inFlight, env, epoch, blocking, len, k);
      var o := RunRecv(p, b, env, b.fd.ownerPid, epoch, blocking, len, k);
      n := HonestDeliversAll(p, a, o.session, rest, env, blocking, len, o.script);
      n := n + 1;
    }
  }

  lemma HonestWaitEnds(p: Primitives, a: Session, b: Session, inFlight: bytes, env: Local, blocking: bool, k: Script)
    requires Lawful(p) && Carried(p, a, b, inFlight, k)
    requires a.fd.txBacklog == [] && a.pending == [] && AllOf(k.recvs, inFlight)
    requires b.history.delivered != Concat(Plaintexts(DataSealed(a)))
    ensures RunAwait(p, b, env, blocking, k).result.None?
  {
    hide Connected, Lawful, RunAwait, DataSealed, Concat, Plaintexts, Arrivals, Quiet;
    var rest := HonestWait(p, a, b, inFlight, env, blocking, k);
    var o := RunAwait(p, b, env, blocking, k);
    if o.result == Some(Parked) {
      NoMoreArrivals(o.script.recvs);
      AllReadIsAllDelivered(p, a, o.session);
    }
  }

  lemma NoMoreArrivals(rs: seq<RecvResult>)
    requires rs == []
    ensures Arrivals(rs) == []
  {
  }
}
