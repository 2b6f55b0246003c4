/**
 What each intercepted call does, as a function of the session it finds and of what the
 kernel is going to answer. The methods of `Interceptor` are proved to do exactly this;
 `Service` says what a caller gets out of it.
 */
module Calls {
  import opened Bytes
  import opened Framing
  import opened Crypto
  import opened Handshake
  import opened Session

  datatype Errno = EAGAIN | EPIPE | EIO | EMSGSIZE | EFAULT | OtherErrno(code: int)

  datatype SendResult = Took(n: nat) | SendWouldBlock | SendError
  datatype RecvResult = Arrived(chunk: Chunk) | EndOfStream | RecvWouldBlock | RecvError(code: int)

  /** What the next calls on the real socket will return. A call past the end of a script never returns. */
  datatype Script = Script(sends: seq<SendResult>, recvs: seq<RecvResult>)

  datatype FlushOutcome = Emptied | Blocked | Broken | FlushParked
  datatype PullOutcome = Got | Eof | Again | PullError(code: int) | Overflow | PullParked
  datatype WriteReady = Ready | NotReady(errno: Errno) | ReadyParked
  datatype CallResult = Returned(n: nat) | Error(errno: Errno) | Parked

  /** What an operation reports, the session it leaves, and what is left of the script. */
  datatype Outcome<R> = Outcome(result: R, session: Session, script: Script)

  // ----------------------------- single changes of a session -----------------------------

  /** `fail_closed`. */
  function Failing(s: Session): Session {
    s.(fd := Closed(s.fd), pending := [])
  }

  function Flushing(s: Session, n: nat): Session
    requires n <= |s.fd.txBacklog|
  {
    s.(fd := s.fd.(txBacklog := s.fd.txBacklog[n..]),
       history := s.history.(sent := s.history.sent + s.fd.txBacklog[..n]))
  }

  function Pulling(s: Session, chunk: bytes): Session {
    s.(fd := s.fd.(rxWire := s.fd.rxWire + chunk), history := s.history.(pulled := s.history.pulled + chunk))
  }

  function Queueing(s: Session): Session {
    s.(fd := s.fd.(txBacklog := s.fd.txBacklog + s.pending), pending := [])
  }

  /** The application takes the first `n` waiting bytes, or all of them. */
  function Delivering(s: Session, m: nat): (t: Session) {
    var n := Min(m, |s.fd.rxPlain|);
    s.(fd := s.fd.(rxPlain := s.fd.rxPlain[n..]),
       history := s.history.(delivered := s.history.delivered + s.fd.rxPlain[..n]))
  }

  /** What a handshake frame does to a session. */
  function Driven(p: Primitives, s: Session, env: Local): (t: Session) {
    match PopFrame(s.fd.rxWire)
    case NoFrame => s
    case Malformed => Failing(s)
    case Popped(f, rest) =>
      var v := Judge(p, s.fd, f, env);
      if v.Establish? then Established(s, f, rest, v) else Failing(s)
  }

  /** Pop and open every complete data frame; the first that cannot be opened closes the session. */
  function Opening(p: Primitives, s: Session): (t: Session)
    decreases |s.fd.rxWire|
  {
    match PopFrame(s.fd.rxWire)
    case NoFrame => s
    case Malformed => Failing(s)
    case Popped(_, _) => if CanOpen(p, s.fd) then Opening(p, Opened(p, s)) else Failing(s)
  }

  lemma OpeningUnfolds(p: Primitives, s: Session)
    ensures Opening(p, s) == match PopFrame(s.fd.rxWire)
                             case NoFrame => s
                             case Malformed => Failing(s)
                             case Popped(_, _) => if CanOpen(p, s.fd) then Opening(p, Opened(p, s)) else Failing(s)
  {
  }

  // ---------------------------------- socket traffic ----------------------------------

  /** `flush_backlog`. */
  function RunFlush(s: Session, k: Script): (o: Outcome<FlushOutcome>)
    ensures o.script.recvs == k.recvs && |o.script.sends| <= |k.sends|
    ensures o.result.Blocked? || o.result.Broken? ==> |o.script.sends| < |k.sends|
    decreases |k.sends|
  {
    if s.fd.txBacklog == [] then Outcome(Emptied, s, k)
    else if k.sends == [] then Outcome(FlushParked, s, k)
    else
      var rest := k.(sends := k.sends[1..]);
      match k.sends[0]
      case SendWouldBlock => Outcome(Blocked, s, rest)
      case SendError => Outcome(Broken, s, rest)
      case Took(m) =>
        var n := Min(m, |s.fd.txBacklog|);
        if n == 0 then Outcome(Blocked, s, rest) else RunFlush(Flushing(s, n), rest)
  }

  /** `pull_wire`. */
  function RunPull(s: Session, k: Script): (o: Outcome<PullOutcome>)
    ensures o.script.sends == k.sends
    ensures o.result.PullParked? <==> k.recvs == []
    ensures o.script.recvs == if k.recvs == [] then [] else k.recvs[1..]
  {
    if k.recvs == [] then Outcome(PullParked, s, k)
    else
      var rest := k.(recvs := k.recvs[1..]);
      match k.recvs[0]
      case Arrived(chunk) =>
        if |s.fd.rxWire| + |chunk| <= MAX_WIRE_RX_BUFFER then Outcome(Got, Pulling(s, chunk), rest)
        else Outcome(Overflow, s, rest)
      case EndOfStream => Outcome(Eof, s, rest)
      case RecvWouldBlock => Outcome(Again, s, rest)
      case RecvError(e) => Outcome(PullError(e), s, rest)
  }

  // ----------------------------------- overlay_send -----------------------------------

  /** The receiving half of a round of the handshake loop; no result when the loop goes on. */
  function PullStep(p: Primitives, s: Session, env: Local, blocking: bool, k: Script)
    : (o: Outcome<Option<WriteReady>>)
    ensures o.script.sends == k.sends && |o.script.recvs| <= |k.recvs|
    ensures o.result.None? ==> |o.script.recvs| < |k.recvs|
  {
    var o := RunPull(s, k);
    match o.result
    case Got => Outcome(None, Driven(p, o.session, env), o.script)
    case Eof => Outcome(Some(NotReady(EPIPE)), Failing(o.session), o.script)
    case Again => Outcome(if blocking then None else Some(NotReady(EAGAIN)), o.session, o.script)
    case PullError(code) => Outcome(Some(NotReady(OtherErrno(code))), Failing(o.session), o.script)
    case Overflow => Outcome(Some(NotReady(EPIPE)), Failing(o.session), o.script)
    case PullParked => Outcome(Some(ReadyParked), o.session, o.script)
  }

  /** One round of that loop: whatever is queued must go out first. */
  function WriteStep(p: Primitives, s: Session, env: Local, blocking: bool, k: Script)
    : (o: Outcome<Option<WriteReady>>)
    ensures |o.script.sends| <= |k.sends| && |o.script.recvs| <= |k.recvs|
    ensures o.result.None? ==> |o.script.sends| + |o.script.recvs| < |k.sends| + |k.recvs|
  {
    var o := RunFlush(s, k);
    match o.result
    case Emptied => PullStep(p, o.session, env, blocking, o.script)
    case Blocked => Outcome(if blocking then None else Some(NotReady(EAGAIN)), o.session, o.script)
    case Broken => Outcome(Some(NotReady(EIO)), Failing(o.session), o.script)
    case FlushParked => Outcome(Some(ReadyParked), o.session, o.script)
  }

  function WriteLoop(p: Primitives, s: Session, env: Local, blocking: bool, k: Script): (o: Outcome<WriteReady>)
    decreases |k.sends| + |k.recvs|
  {
    if s.fd.phase.Active? then Outcome(Ready, s, k)
    else if s.fd.phase.Failed? then Outcome(NotReady(EPIPE), s, k)
    else
      var o := WriteStep(p, s, env, blocking, k);
      if o.result.Some? then Outcome(o.result.value, o.session, o.script)
      else WriteLoop(p, o.session, env, blocking, o.script)
  }

  /** `drive_until_active_for_write`. */
  function RunDriveForWrite(p: Primitives, s: Session, env: Local, blocking: bool, k: Script)
    : (o: Outcome<WriteReady>)
  {
    var o := RunFlush(s, k);
    match o.result
    case FlushParked => Outcome(ReadyParked, o.session, o.script)
    case Broken => Outcome(NotReady(EIO), Failing(o.session), o.script)
    case _ => WriteLoop(p, o.session, env, blocking, o.script)
  }

  predicate HasRoom(s: Session) {
    |s.fd.txBacklog| + |s.pending| <= MAX_WRITE_BACKLOG
  }

  /** `append_or_flush` of the pending frame. */
  function RunQueue(s: Session, blocking: bool, k: Script): (o: Outcome<CallResult>) {
    if HasRoom(s) then Outcome(Returned(0), Queueing(s), k)
    else
      var o := RunFlush(s, k);
      match o.result
      case FlushParked => Outcome(Parked, o.session, o.script)
      case Broken => Outcome(Error(EIO), Failing(o.session), o.script)
      case _ =>
        if o.result.Blocked? && !blocking then Outcome(Error(EAGAIN), o.session, o.script)
        else if HasRoom(o.session) then Outcome(Returned(0), Queueing(o.session), o.script)
        else Outcome(Error(EMSGSIZE), o.session, o.script)
  }

  /** One record: seal, frame and queue, or fail closed. */
  function RunRecord(p: Primitives, s: Session, blocking: bool, record: bytes, k: Script): (o: Outcome<CallResult>) {
    if !s.fd.phase.Active? then Outcome(Error(EPIPE), Failing(s), k)
    else if SealWith(p, s.fd.phase.keys.tx, record).Err? then Outcome(Error(EIO), Failing(s), k)
    else if !CanSeal(p, s.fd, record) then Outcome(Error(EMSGSIZE), Failing(s), k)
    else
      var o := RunQueue(Sealed(p, s, record), blocking, k);
      if o.result.Error? then o.(session := Failing(o.session)) else o
  }

  function RunRecords(p: Primitives, s: Session, blocking: bool, records: seq<bytes>, k: Script)
    : (o: Outcome<CallResult>)
    decreases |records|
  {
    if records == [] then Outcome(Returned(0), s, k)
    else
      var o := RunRecord(p, s, blocking, records[0], k);
      if o.result.Returned? then RunRecords(p, o.session, blocking, records[1..], o.script) else o
  }

  lemma RecordsUnfold(p: Primitives, s: Session, blocking: bool, record: bytes, rest: seq<bytes>, k: Script)
    ensures RunRecords(p, s, blocking, [record] + rest, k)
         == var o := RunRecord(p, s, blocking, record, k);
            if o.result.Returned? then RunRecords(p, o.session, blocking, rest, o.script) else o
  {
    hide RunRecord;
    assert ([record] + rest)[0] == record && ([record] + rest)[1..] == rest;
  }

  lemma NoRecords(p: Primitives, s: Session, blocking: bool, k: Script)
    ensures RunRecords(p, s, blocking, [], k) == Outcome(Returned(0), s, k)
  {
  }

  /** The flush that ends a send, repeated on a blocking socket. */
  function RunFinish(s: Session, blocking: bool, k: Script): (o: Outcome<CallResult>)
    decreases |k.sends|
  {
    var o := RunFlush(s, k);
    match o.result
    case Emptied => Outcome(Returned(0), o.session, o.script)
    case Blocked =>
      if blocking then RunFinish(o.session, blocking, o.script) else Outcome(Returned(0), o.session, o.script)
    case Broken => Outcome(Error(EIO), Failing(o.session), o.script)
    case FlushParked => Outcome(Parked, o.session, o.script)
  }

  /** A message cut into records of at most 64 KiB. */
  function Split(m: bytes): (records: seq<bytes>)
    decreases |m|
  {
    if m == [] then []
    else
      var n := Min(MAX_RECORD_PLAINTEXT, |m|);
      [m[..n]] + Split(m[n..])
  }

  /** The records are nonempty, within the limit, and together the message. */
  lemma {:induction false} SplitIsExact(m: bytes)
    ensures Concat(Split(m)) == m
    ensures forall i :: 0 <= i < |Split(m)| ==> 1 <= |Split(m)[i]| <= MAX_RECORD_PLAINTEXT
    decreases |m|
  {
    if m != [] {
      var n := Min(MAX_RECORD_PLAINTEXT, |m|);
      SplitIsExact(m[n..]);
      assert Split(m)[1..] == Split(m[n..]);
      assert m == m[..n] + m[n..];
    }
  }

  function RunSendAll(p: Primitives, s: Session, blocking: bool, plaintext: bytes, k: Script)
    : (o: Outcome<CallResult>)
  {
    var o := RunRecords(p, s, blocking, Split(plaintext), k);
    if !o.result.Returned? then o
    else
      var q := RunFinish(o.session, blocking, o.script);
      if q.result.Returned? then q.(result := Returned(|plaintext|)) else q
  }

  /** `inherited_after_fork`, then `fail_if_stale_idle_config`. */
  predicate Refuses(fd: Fd, pid: int, epoch: nat) {
    pid != fd.ownerPid || (fd.configEpoch != epoch && Idle(fd))
  }

  function Refused(s: Session, pid: int, epoch: nat): Session {
    if pid != s.fd.ownerPid then Failing(s) else s.(fd := Closed(s.fd).(configEpoch := epoch))
  }

  /** `overlay_send`. */
  function RunSend(p: Primitives, s: Session, env: Local, pid: int, epoch: nat, blocking: bool, plaintext: bytes,
                   k: Script): (o: Outcome<CallResult>) {
    if Refuses(s.fd, pid, epoch) then Outcome(Error(EPIPE), Refused(s, pid, epoch), k)
    else
      var o := RunDriveForWrite(p, s, env, blocking, k);
      match o.result
      case ReadyParked => Outcome(Parked, o.session, o.script)
      case NotReady(e) => Outcome(Error(e), o.session, o.script)
      case Ready =>
        if plaintext == [] then Outcome(Returned(0), o.session, o.script)
        else RunSendAll(p, o.session, blocking, plaintext, o.script)
  }

  // ----------------------------------- overlay_recv -----------------------------------

  /** The handshake part of a receive: flush, drive, flush; true when parked in the kernel. */
  function RunDriveForRead(p: Primitives, s: Session, env: Local, k: Script): (o: Outcome<bool>)
    ensures o.script.recvs == k.recvs && |o.script.sends| <= |k.sends|
  {
    var o := RunFlush(s, k);
    if o.result.FlushParked? then Outcome(true, o.session, o.script)
    else
      var q := RunFlush(Driven(p, o.session, env), o.script);
      Outcome(q.result.FlushParked?, q.session, q.script)
  }

  /** The receiving part of a round of the receive loop; no result when the loop goes on. */
  function RunPullForRead(s: Session, blocking: bool, k: Script): (o: Outcome<Option<CallResult>>)
    ensures |o.script.recvs| <= |k.recvs| && (o.result.None? ==> |o.script.recvs| < |k.recvs|)
  {
    var o := RunPull(s, k);
    match o.result
    case Got => Outcome(None, o.session, o.script)
    case Eof => Outcome(Some(Returned(0)), o.session, o.script)
    case Again => Outcome(if blocking then None else Some(Error(EAGAIN)), o.session, o.script)
    case PullError(code) => Outcome(Some(Error(OtherErrno(code))), o.session, o.script)
    case Overflow => Outcome(Some(Error(EPIPE)), Failing(o.session), o.script)
    case PullParked => Outcome(Some(Parked), o.session, o.script)
  }

  /** What a round does once the handshake has had its turn. */
  function ReadOpen(p: Primitives, s: Session, blocking: bool, k: Script): (o: Outcome<Option<CallResult>>)
    ensures |o.script.recvs| <= |k.recvs|
    ensures o.result.None? ==> o.session.fd.rxPlain != [] || |o.script.recvs| < |k.recvs|
  {
    var t := if s.fd.phase.Active? then Opening(p, s) else s;
    if t.fd.phase.Failed? then Outcome(Some(Error(EPIPE)), t, k)
    else if t.fd.rxPlain != [] then Outcome(None, t, k)
    else RunPullForRead(t, blocking, k)
  }

  /** One round of the receive loop with no plaintext waiting; no result when the loop goes on. */
  function ReadStep(p: Primitives, s: Session, env: Local, blocking: bool, k: Script)
    : (o: Outcome<Option<CallResult>>)
    ensures |o.script.recvs| <= |k.recvs|
    ensures o.result.None? ==> o.session.fd.rxPlain != [] || |o.script.recvs| < |k.recvs|
  {
    if !InHandshake(s.fd) then ReadOpen(p, s, blocking, k)
    else
      var d := RunDriveForRead(p, s, env, k);
      if d.result then Outcome(Some(Parked), d.session, d.script) else ReadOpen(p, d.session, blocking, d.script)
  }

  /** The receive loop: rounds until there is plaintext to hand over, or a result without any. */
  function RunAwait(p: Primitives, s: Session, env: Local, blocking: bool, k: Script)
    : (o: Outcome<Option<CallResult>>)
    ensures o.result.None? ==> o.session.fd.rxPlain != []
    decreases |k.recvs|, s.fd.rxPlain == []
  {
    if s.fd.rxPlain != [] then Outcome(None, s, k)
    else
      var o := ReadStep(p, s, env, blocking, k);
      if o.result.Some? then o else RunAwait(p, o.session, env, blocking, o.script)
  }

  /** Wait for plaintext, and hand over what fits. */
  function RunServe(p: Primitives, s: Session, env: Local, blocking: bool, len: nat, k: Script)
    : (o: Outcome<CallResult>)
  {
    var o := RunAwait(p, s, env, blocking, k);
    if o.result.Some? then Outcome(o.result.value, o.session, o.script)
    else Outcome(Returned(Min(len, |o.session.fd.rxPlain|)), Delivering(o.session, len), o.script)
  }

  /** `overlay_recv` into a buffer of `len` bytes. */
  function RunRecv(p: Primitives, s: Session, env: Local, pid: int, epoch: nat, blocking: bool, len: nat, k: Script)
    : (o: Outcome<CallResult>)
  {
    if len == 0 then Outcome(Returned(0), s, k)
    else if Refuses(s.fd, pid, epoch) then Outcome(Error(EPIPE), Refused(s, pid, epoch), k)
    else RunServe(p, s, env, blocking, len, k)
  }
}
