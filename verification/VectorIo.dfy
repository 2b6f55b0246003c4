/** Vectored calls: `iov_total`, `gather_iov`, `scatter_iov` and the calls built on them. */
module VectorIo {
  import opened Bytes
  import opened Crypto
  import opened Session
  import opened Invariants
  import opened Framing
  import opened Guarantees
  import opened Calls
  import opened Interceptor

  const MAX_IOV_COPY := 16 * 1024 * 1024

  /** One entry of an I/O vector: a null base with a claimed length, or a buffer. */
  datatype Iovec = Null(len: u64) | At(buf: array<byte>)

  function Len(v: Iovec): nat {
    if v.Null? then v.len else v.buf.Length
  }

  function Total(iov: seq<Iovec>): (n: nat) {
    if iov == [] then 0 else Total(iov[..|iov| - 1]) + Len(iov[|iov| - 1])
  }

  lemma {:induction false} TotalMonotone(iov: seq<Iovec>, i: nat)
    requires i <= |iov|
    ensures Total(iov[..i]) <= Total(iov)
    decreases |iov|
  {
    if i < |iov| {
      assert iov[..|iov| - 1][..i] == iov[..i];
      TotalMonotone(iov[..|iov| - 1], i);
    } else {
      assert iov[..i] == iov;
    }
  }

  /** `iov_total`: the sum, or EMSGSIZE exactly when it is over the limit; the running sum never passes 2^64. */
  method IovTotal(iov: seq<Iovec>) returns (r: Result<nat, Errno>)
    requires forall v <- iov :: Len(v) <= U64_MAX
    ensures r == if Total(iov) <= MAX_IOV_COPY then Ok(Total(iov)) else Err(EMSGSIZE)
  {
    var total := 0;
    var i := 0;
    assert iov[..0] == [];
    while i < |iov|
      invariant 0 <= i <= |iov| && total == Total(iov[..i]) <= MAX_IOV_COPY
    {
      assert iov[..i + 1][..i] == iov[..i];
      TotalMonotone(iov, i + 1);
      if total + Len(iov[i]) > U64_MAX {
        return Err(EMSGSIZE);
      }
      total := total + Len(iov[i]);
      if total > MAX_IOV_COPY {
        return Err(EMSGSIZE);
      }
      i := i + 1;
    }
    assert iov[..i] == iov;
    r := Ok(total);
  }

  /** An entry that claims bytes it does not have. */
  predicate Bad(v: Iovec) {
    v.Null? && v.len > 0
  }

  function Buffers(iov: seq<Iovec>): (bs: set<array<byte>>) {
    set i | 0 <= i < |iov| && iov[i].At? :: iov[i].buf
  }

  /** The bytes behind each entry. */
  function Pieces(iov: seq<Iovec>): (ps: seq<bytes>)
    reads Buffers(iov)
    ensures |ps| == |iov|
    ensures forall i :: 0 <= i < |iov| ==> ps[i] == if iov[i].At? then iov[i].buf[..] else []
  {
    seq(|iov|, i requires 0 <= i < |iov| reads Buffers(iov) => if iov[i].At? then iov[i].buf[..] else [])
  }

  /** The memory behind an I/O vector, end to end. */
  function Contents(iov: seq<Iovec>): (all: bytes)
    reads Buffers(iov)
  {
    Concat(Pieces(iov))
  }

  lemma TotalSnoc(iov: seq<Iovec>, i: nat)
    requires i < |iov|
    ensures Total(iov[..i + 1]) == Total(iov[..i]) + Len(iov[i])
  {
    assert iov[..i + 1][..i] == iov[..i];
  }

  lemma PieceSnoc(ps: seq<bytes>, i: nat)
    requires i < |ps|
    ensures Concat(ps[..i + 1]) == Concat(ps[..i]) + ps[i]
  {
    assert ps[..i + 1] == ps[..i] + [ps[i]];
    ConcatSnoc(ps[..i], ps[i]);
  }

  /** `gather_iov`. */
  method GatherIov(iov: seq<Iovec>) returns (r: Result<bytes, Errno>)
    requires forall v <- iov :: Len(v) <= U64_MAX
    ensures Total(iov) > MAX_IOV_COPY ==> r == Err(EMSGSIZE)
    ensures Total(iov) <= MAX_IOV_COPY ==>
              r == if exists v :: v in iov && Bad(v) then Err(EFAULT) else Ok(Contents(iov))
  {
    hide Total, Gathering, Concat;
    var total := IovTotal(iov);
    if total.Err? {
      return Err(total.error);
    }
    var out: bytes := [];
    GatheringStarts(iov, Pieces(iov));
    var i := 0;
    while i < |iov|
      invariant 0 <= i <= |iov| && Gathering(iov, Pieces(iov), i, out)
    {
      if iov[i].Null? && iov[i].len > 0 {
        assert iov[i] in iov && Bad(iov[i]);
        return Err(EFAULT);
      }
      GatheringGoesOn(iov, Pieces(iov), i, out);
      out := out + (if iov[i].At? then iov[i].buf[..] else []);
      i := i + 1;
    }
    GatheringEnds(iov, Pieces(iov), out);
    r := Ok(out);
  }

  /** Where the loop stands: the entries before `i` were good, and these are their bytes. */
  predicate Gathering(iov: seq<Iovec>, ps: seq<bytes>, i: nat, out: bytes) {
    i <= |iov| == |ps| && out == Concat(ps[..i]) && forall j :: 0 <= j < i ==> !Bad(iov[j])
  }

  lemma GatheringStarts(iov: seq<Iovec>, ps: seq<bytes>)
    requires |ps| == |iov|
    ensures Gathering(iov, ps, 0, [])
  {
    assert ps[..0] == [];
  }

  lemma GatheringGoesOn(iov: seq<Iovec>, ps: seq<bytes>, i: nat, out: bytes)
    requires Gathering(iov, ps, i, out) && i < |iov| && !Bad(iov[i])
    ensures Gathering(iov, ps, i + 1, out + ps[i])
  {
    hide Concat;
    PieceSnoc(ps, i);
  }

  lemma GatheringEnds(iov: seq<Iovec>, ps: seq<bytes>, out: bytes)
    requires Gathering(iov, ps, |iov|, out)
    ensures out == Concat(ps) && !exists v :: v in iov && Bad(v)
  {
    hide Concat;
    assert ps[..|iov|] == ps;
  }

  method CopyInto(buf: array<byte>, src: bytes)
    requires |src| <= buf.Length
    modifies buf
    ensures buf[..] == src + old(buf[..])[|src|..]
  {
    var i := 0;
    while i < |src|
      invariant 0 <= i <= |src|
      invariant buf[..i] == src[..i] && buf[i..] == old(buf[..])[i..]
    {
      buf[i] := src[i];
      i := i + 1;
    }
    assert buf[..] == buf[..i] + buf[i..];
  }

  predicate Disjoint(iov: seq<Iovec>) {
    forall i, j :: 0 <= i < j < |iov| && iov[i].At? && iov[j].At? ==> iov[i].buf != iov[j].buf
  }

  /** A bad entry is met before `n` bytes have been placed. */
  ghost predicate Faults(iov: seq<Iovec>, n: nat) {
    exists i :: 0 <= i < |iov| && Bad(iov[i]) && Total(iov[..i]) < n
  }

  /** The first `i` pieces hold the first `copied` bytes of the data and their old tail; the others are untouched. */
  predicate Progress(was: seq<bytes>, now: seq<bytes>, i: nat, copied: nat, data: bytes) {
    && i <= |was| == |now| && copied <= |data| && copied <= |Concat(was[..i])|
    && (copied < |data| ==> copied == |Concat(was[..i])|)
    && Concat(now[..i]) == data[..copied] + Concat(was[..i])[copied..]
    && now[i..] == was[i..]
  }

  lemma ProgressStep(was: seq<bytes>, now: seq<bytes>, i: nat, copied: nat, data: bytes, amt: nat)
    requires i < |was| && Progress(was, now, i, copied, data)
    requires copied < |data| && amt == Min(|was[i]|, |data| - copied)
    ensures Progress(was, now[i := data[copied..copied + amt] + was[i][amt..]], i + 1, copied + amt, data)
  {
    var piece := data[copied..copied + amt] + was[i][amt..];
    var next := now[i := piece];
    PieceSnoc(was, i);
    PieceSnoc(next, i);
    assert next[..i] == now[..i];
    assert next[i + 1..] == now[i..][1..] == was[i..][1..] == was[i + 1..];
    hide Concat;
    var front := Concat(was[..i]);
    assert (front + was[i])[copied + amt..] == was[i][amt..];
    assert data[..copied] + data[copied..copied + amt] == data[..copied + amt];
  }

  lemma ProgressEnd(was: seq<bytes>, now: seq<bytes>, i: nat, data: bytes)
    requires Progress(was, now, i, |data|, data)
    ensures |data| <= |Concat(was)| && Concat(now) == data + Concat(was)[|data|..]
  {
    hide Concat;
    ConcatAppend(was[..i], was[i..]);
    ConcatAppend(now[..i], now[i..]);
    assert was == was[..i] + was[i..] && now == now[..i] + now[i..];
    var front, back := Concat(was[..i]), Concat(was[i..]);
    assert (front + back)[|data|..] == front[|data|..] + back;
    assert data + front[|data|..] + back == data + (front[|data|..] + back);
  }

  lemma ProgressStart(was: seq<bytes>, data: bytes)
    ensures Progress(was, was, 0, 0, data)
  {
    assert was[..0] == [];
  }

  lemma ProgressNext(was: seq<bytes>, now: seq<bytes>, i: nat, copied: nat, data: bytes)
    requires Progress(was, now, i, copied, data) && i < |was|
    ensures |now| == |was| && now[i] == was[i]
  {
    hide Concat;
    assert now[i] == now[i..][0] == was[i..][0] == was[i];
  }

  /** Copy what fits of the remaining data into one entry. */
  method FillEntry(iov: seq<Iovec>, i: nat, data: bytes, copied: nat) returns (amt: nat)
    requires Disjoint(iov) && i < |iov| && !Bad(iov[i]) && copied <= |data|
    modifies Buffers(iov)
    ensures amt == Min(Len(iov[i]), |data| - copied) && Len(iov[i]) == |old(Pieces(iov))[i]|
    ensures Pieces(iov) == old(Pieces(iov))[i := data[copied..copied + amt] + old(Pieces(iov))[i][amt..]]
  {
    amt := Min(Len(iov[i]), |data| - copied);
    ghost var was := Pieces(iov);
    if iov[i].At? {
      CopyInto(iov[i].buf, data[copied..copied + amt]);
      assert forall j :: 0 <= j < |iov| && j != i ==> Pieces(iov)[j] == was[j];
    } else {
      assert data[copied..copied + amt] + was[i][amt..] == [];
    }
  }

  /** `scatter_iov`: none, or the error. */
  method ScatterIov(iov: seq<Iovec>, data: bytes) returns (r: Option<Errno>)
    requires Disjoint(iov) && |data| <= Total(iov)
    modifies Buffers(iov)
    ensures r == if Faults(iov, |data|) then Some(EFAULT) else None
    ensures r.None? ==> |data| <= |old(Contents(iov))| && Contents(iov) == data + old(Contents(iov))[|data|..]
  {
    hide Concat, Placing, Disjoint, Total, Pieces, Faults, Buffers;
    ghost var was := Pieces(iov);
    var copied := 0;
    var i := 0;
    PlacingStarts(iov, was, data);
    while i < |iov| && copied < |data|
      invariant 0 <= i <= |iov| && 0 <= copied <= |data|
      invariant Placing(iov, was, Pieces(iov), i, copied, data)
    {
      if iov[i].Null? && iov[i].len > 0 {
        PlacingFaults(iov, was, Pieces(iov), i, copied, data);
        return Some(EFAULT);
      }
      ghost var now := Pieces(iov);
      var amt := FillEntry(iov, i, data, copied);
      PlacingGoesOn(iov, was, now, i, copied, data, amt);
      copied := copied + amt;
      i := i + 1;
    }
    Scattered(iov, was, Pieces(iov), i, copied, data);
    r := None;
  }

  /** Where the loop stands: the entries before `i` were good and took what they could. */
  predicate Placing(iov: seq<Iovec>, was: seq<bytes>, now: seq<bytes>, i: nat, copied: nat, data: bytes) {
    && i <= |iov| == |was| && copied == Min(|data|, Total(iov[..i]))
    && Progress(was, now, i, copied, data)
    && forall j :: 0 <= j < i ==> !Bad(iov[j])
  }

  lemma PlacingStarts(iov: seq<Iovec>, was: seq<bytes>, data: bytes)
    requires |iov| == |was|
    ensures Placing(iov, was, was, 0, 0, data)
  {
    hide Progress, Total;
    ProgressStart(was, data);
    TotalOfNone(iov[..0]);
  }

  lemma PlacingFaults(iov: seq<Iovec>, was: seq<bytes>, now: seq<bytes>, i: nat, copied: nat, data: bytes)
    requires Placing(iov, was, now, i, copied, data) && i < |iov| && copied < |data| && Bad(iov[i])
    ensures Faults(iov, |data|)
  {
    hide Progress, Total, Faults;
    FaultsAt(iov, i, |data|);
  }

  lemma PlacingGoesOn(iov: seq<Iovec>, was: seq<bytes>, now: seq<bytes>, i: nat, copied: nat, data: bytes, amt: nat)
    requires Placing(iov, was, now, i, copied, data) && i < |iov| && copied < |data| && !Bad(iov[i])
    requires |now| == |was| && Len(iov[i]) == |now[i]| && amt == Min(Len(iov[i]), |data| - copied)
    ensures Placing(iov, was, now[i := data[copied..copied + amt] + now[i][amt..]], i + 1, copied + amt, data)
  {
    hide Progress, Total;
    TotalSnoc(iov, i);
    ProgressNext(was, now, i, copied, data);
    ProgressStep(was, now, i, copied, data, amt);
  }

  /** Where the loop ends: everything is placed, and no bad entry was in the way. */
  lemma Scattered(iov: seq<Iovec>, was: seq<bytes>, now: seq<bytes>, i: nat, copied: nat, data: bytes)
    requires Placing(iov, was, now, i, copied, data) && |data| <= Total(iov)
    requires i == |iov| || copied == |data|
    ensures !Faults(iov, |data|)
    ensures |data| <= |Concat(was)| && Concat(now) == data + Concat(was)[|data|..]
  {
    hide Concat, Progress, Total, Faults;
    if i == |iov| {
      assert iov[..i] == iov;
    }
    ProgressEnd(was, now, i, data);
    PlacedInTime(iov, i, |data|);
  }

  lemma FaultsAt(iov: seq<Iovec>, i: nat, n: nat)
    requires i < |iov| && Bad(iov[i]) && Total(iov[..i]) < n
    ensures Faults(iov, n)
  {
  }

  lemma TotalOfNone(iov: seq<Iovec>)
    requires iov == []
    ensures Total(iov) == 0
  {
  }

  /** Once the data is placed, bad entries further on do no harm. */
  lemma PlacedInTime(iov: seq<Iovec>, i: nat, n: nat)
    requires i <= |iov| && Total(iov[..i]) >= n && forall j :: 0 <= j < i ==> !Bad(iov[j])
    ensures !Faults(iov, n)
  {
    forall j | i <= j < |iov|
      ensures Total(iov[..j]) >= n
    {
      TotalMonotone(iov[..j], i);
      assert iov[..j][..i] == iov[..i];
    }
  }

  // ----------------------------------- the calls -----------------------------------

  /** The vector can be gathered: no over-long total and no entry without its bytes. */
  predicate Gatherable(iov: seq<Iovec>) {
    Total(iov) <= MAX_IOV_COPY && forall v <- iov :: !Bad(v)
  }

  /** `overlay_write_iov`: one `overlay_send` of the concatenation, or an error before anything happens. */
  method OverlayWriteIov(st: FdState, k: Kernel, env: Local, pid: int, epoch: nat, blocking: bool, iov: seq<Iovec>)
    returns (r: CallResult)
    requires forall v <- iov :: Len(v) <= U64_MAX
    requires st.Valid() && Rested(st.Value()) && st.at.pending == []
    modifies st, st.metrics, k
    ensures st.Valid() && Rested(st.Value()) && OnlySending(old(st.at), st.at)
    ensures !r.Parked? ==> st.at.pending == []
    ensures !Gatherable(iov) ==>
              && r == Error(if Total(iov) > MAX_IOV_COPY then EMSGSIZE else EFAULT)
              && unchanged(st) && unchanged(st.metrics) && unchanged(k)
    ensures Gatherable(iov) ==>
              Outcome(r, st.at, k.Left())
              == RunSend(st.prims, old(st.at), env, pid, epoch, blocking, Contents(iov), old(k.Left()))
    ensures SealedText(st.at) <= SealedText(old(st.at)) + Split(Contents(iov))
    ensures r.Returned? ==>
              && r.n == |Contents(iov)| <= MAX_IOV_COPY && st.phase.Active?
              && SealedText(st.at) == SealedText(old(st.at)) + Split(Contents(iov))
              && (blocking && Contents(iov) != [] ==> st.txBacklog == [])
              && (Contents(iov) != [] ==> st.txBacklog == [] || |k.sends| < |old(k.sends)|)
    ensures Gatherable(iov) && r.Error? ==>
              || st.phase.Failed?
              || (InHandshake(st.Value()) && SealedText(st.at) == SealedText(old(st.at)) && r.errno == EAGAIN
                && !blocking)
    ensures Gatherable(iov) && r.Error? && old(st.phase).Active? ==> st.phase.Failed?
    ensures Gatherable(iov) && (pid != old(st.ownerPid) || old(st.phase).Failed?) ==>
              r == Error(EPIPE) && st.phase.Failed? && st.at.history == old(st.at).history && unchanged(k)
    ensures AskedQuietly(old(k.asked), k.asked)
    ensures st.GaugeFrom(old(st.metrics.activeSessions), old(st.countedActive))
  {
    hide Concat, Total, Split, SealedText, Lawful, Inv, After, PopFrame, DataReceived, DataSealed, RunSend;
    var data := GatherIov(iov);
    if data.Err? {
      return Error(data.error);
    }
    GatheredFits(iov);
    assert data.value == Contents(iov);
    ghost var pieces := Pieces(iov);
    r := st.OverlaySend(k, env, pid, epoch, blocking, data.value);
    assert forall i :: 0 <= i < |iov| && iov[i].At? ==> iov[i].buf[..] == old(iov[i].buf[..]);
    assert Pieces(iov) == pieces;
    assert data.value == Contents(iov);
  }

  lemma GatheredFits(iov: seq<Iovec>)
    requires Total(iov) <= MAX_IOV_COPY
    ensures |Contents(iov)| <= MAX_IOV_COPY
  {
    ContentsWithin(iov, |iov|);
    assert iov[..|iov|] == iov && Pieces(iov)[..|iov|] == Pieces(iov);
  }

  lemma {:induction false} ContentsWithin(iov: seq<Iovec>, i: nat)
    requires i <= |iov|
    ensures |Concat(Pieces(iov)[..i])| <= Total(iov[..i])
  {
    if i > 0 {
      ContentsWithin(iov, i - 1);
      PieceSnoc(Pieces(iov), i - 1);
      TotalSnoc(iov, i - 1);
    }
  }

  /**
   Where a vectored read leaves things, given what had been delivered and was in
   memory before and after. The bytes taken land across the buffers in order; they
   are taken and not handed over exactly when a null entry is met before all of them
   are placed.
   */
  ghost predicate Landed(iov: seq<Iovec>, r: CallResult, before: bytes, after: bytes, was: bytes, now: bytes) {
    && before <= after
    && var n := |after| - |before|;
    && n <= Total(iov)
    && if n == 0 then (r.Returned? ==> r.n == 0) && now == was
       else if Faults(iov, n) then r == Error(EFAULT)
       else r == Returned(n) && n <= |was| == |now| && after == before + now[..n] && now[n..] == was[n..]
  }

  /** There is something to read into, and it is within the limit. */
  predicate Readable(iov: seq<Iovec>) {
    0 < Total(iov) <= MAX_IOV_COPY
  }

  lemma ScatteredLands(iov: seq<Iovec>, data: bytes, before: bytes, was: bytes, now: bytes)
    requires data != [] && |data| <= Total(iov)
    requires !Faults(iov, |data|) ==> |data| <= |was| && now == data + was[|data|..]
    ensures var r := if Faults(iov, |data|) then Error(EFAULT) else Returned(|data|);
            Landed(iov, r, before, before + data, was, now)
  {
    hide Faults, Total;
  }

  /** `overlay_read_iov`: one `overlay_recv` of the total length, scattered. */
  method OverlayReadIov(st: FdState, k: Kernel, env: Local, pid: int, epoch: nat, blocking: bool, iov: seq<Iovec>)
    returns (r: CallResult)
    requires forall v <- iov :: Len(v) <= U64_MAX
    requires Disjoint(iov)
    requires st.Valid() && Rested(st.Value()) && st.at.pending == []
    modifies st, st.metrics, k, Buffers(iov)
    ensures st.Valid() && FdState.OnlyReceiving(old(st.at), st.at)
    ensures !r.Parked? ==> Rested(st.Value()) && st.at.pending == []
    ensures Total(iov) > MAX_IOV_COPY ==> r == Error(EMSGSIZE) && st.at == old(st.at) && unchanged(k)
    ensures Total(iov) == 0 ==> r == Returned(0) && st.at == old(st.at) && unchanged(k)
    ensures Readable(iov) ==>
              var o := RunRecv(st.prims, old(st.at), env, pid, epoch, blocking, Total(iov), old(k.Left()));
              && st.at == o.session && k.Left() == o.script
              && r == if o.result.Returned? && Faults(iov, o.result.n) then Error(EFAULT) else o.result
    ensures Landed(iov, r, old(st.at).history.delivered, st.at.history.delivered, old(Contents(iov)), Contents(iov))
    ensures r.Returned? && r.n > 0 ==> r.n == Total(iov) || st.rxPlain == []
    ensures r == Returned(0) ==> Total(iov) == 0 || EndOfStream in old(k.recvs)
    ensures Readable(iov) && !r.Parked? && InHandshake(st.Value()) ==>
              st.txBacklog == [] || |k.sends| < |old(k.sends)|
    ensures Readable(iov) && (pid != old(st.ownerPid) || old(st.phase).Failed?) ==>
              r == Error(EPIPE) && st.phase.Failed? && st.at.history == old(st.at).history && unchanged(k)
    ensures Readable(iov) && pid == old(st.ownerPid) && old(st.rxPlain) != [] ==>
              && st.at == Delivering(old(st.at), Total(iov)) && unchanged(k)
              && var n := Min(Total(iov), |old(st.rxPlain)|);
              && r == if Faults(iov, n) then Error(EFAULT) else Returned(n)
    ensures AskedQuietly(old(k.asked), k.asked)
    ensures st.GaugeFrom(old(st.metrics.activeSessions), old(st.countedActive))
  {
    hide Concat, Total, Faults, Landed, Lawful, Inv, After, PopFrame, DataReceived, DataSealed, Pieces, AskedQuietly,
         Quiet, CanOpen, CanSeal, Judge, Established, Sealed, Opened, Disjoint, RunRecv;
    NothingLanded(iov, Returned(0), st.at.history.delivered, Contents(iov));
    var total := IovTotal(iov);
    if total.Err? {
      NothingLanded(iov, Error(total.error), st.at.history.delivered, Contents(iov));
      NothingAsked(k.asked);
      return Error(total.error);
    }
    if total.value == 0 {
      NothingAsked(k.asked);
      return Returned(0);
    }
    var data;
    ghost var pieces := Pieces(iov);
    r, data := RecvBytes(st, k, env, pid, epoch, blocking, total.value);
    assert forall i :: 0 <= i < |iov| && iov[i].At? ==> iov[i].buf[..] == old(iov[i].buf[..]);
    assert Pieces(iov) == pieces;
    assert Contents(iov) == old(Contents(iov));
    if r.Returned? && r.n > 0 {
      r := Deposit(iov, data, old(st.at).history.delivered);
    } else {
      NoBytesNoFault(iov);
      assert st.at.history.delivered == old(st.at).history.delivered;
      NothingLanded(iov, r, st.at.history.delivered, Contents(iov));
    }
  }

  /** The `overlay_recv` that `overlay_read_iov` makes into a buffer of its own, and the bytes it got. */
  method RecvBytes(st: FdState, k: Kernel, env: Local, pid: int, epoch: nat, blocking: bool, total: nat)
    returns (r: CallResult, data: bytes)
    requires total > 0 && st.Valid() && Rested(st.Value()) && st.at.pending == []
    modifies st, st.metrics, k
    ensures st.Valid() && FdState.OnlyReceiving(old(st.at), st.at)
    ensures !r.Parked? ==> Rested(st.Value()) && st.at.pending == []
    ensures Outcome(r, st.at, k.Left())
         == RunRecv(st.prims, old(st.at), env, pid, epoch, blocking, total, old(k.Left()))
    ensures st.at.history.delivered == old(st.at).history.delivered + data && |data| <= total
    ensures data == [] || r == Returned(|data|)
    ensures r.Returned? ==> r.n == |data|
    ensures data != [] ==> |data| == total || st.rxPlain == []
    ensures r == Returned(0) ==> EndOfStream in old(k.recvs)
    ensures !r.Parked? && InHandshake(st.Value()) ==> st.txBacklog == [] || |k.sends| < |old(k.sends)|
    ensures pid != old(st.ownerPid) || old(st.phase).Failed? ==>
              r == Error(EPIPE) && st.phase.Failed? && st.at.history == old(st.at).history && unchanged(k)
    ensures pid == old(st.ownerPid) && old(st.rxPlain) != [] ==>
              && r == Returned(Min(total, |old(st.rxPlain)|))
              && st.at == Delivering(old(st.at), total) && unchanged(k)
    ensures AskedQuietly(old(k.asked), k.asked)
    ensures st.GaugeFrom(old(st.metrics.activeSessions), old(st.countedActive))
  {
    hide Lawful, Inv, After, PopFrame, DataReceived, DataSealed, AskedQuietly, Quiet, CanOpen, CanSeal, Judge,
         Established, Sealed, Opened, RunRecv;
    var tmp := new byte[total](_ => 0);
    r := st.OverlayRecv(k, env, pid, epoch, blocking, tmp);
    data := if r.Returned? then tmp[..r.n] else [];
  }

  /** What `overlay_read_iov` does with the bytes it got. */
  method Deposit(iov: seq<Iovec>, data: bytes, ghost before: bytes) returns (r: CallResult)
    requires Disjoint(iov) && 0 < |data| <= Total(iov)
    modifies Buffers(iov)
    ensures r == if Faults(iov, |data|) then Error(EFAULT) else Returned(|data|)
    ensures Landed(iov, r, before, before + data, old(Contents(iov)), Contents(iov))
  {
    hide Concat, Total, Faults, Landed, Pieces, Disjoint;
    var fault := ScatterIov(iov, data);
    ScatteredLands(iov, data, before, old(Contents(iov)), Contents(iov));
    r := if fault.Some? then Error(fault.value) else Returned(|data|);
  }

  lemma NoBytesNoFault(iov: seq<Iovec>)
    ensures !Faults(iov, 0)
  {
  }

  lemma NothingLanded(iov: seq<Iovec>, r: CallResult, delivered: bytes, memory: bytes)
    requires r.Returned? ==> r.n == 0
    ensures Landed(iov, r, delivered, delivered, memory, memory)
  {
    hide Faults;
  }

  /** A null entry in first place loses whatever is read. */
  lemma NullEntryFaults(n: nat)
    requires n > 0
    ensures Faults([Null(1)], n)
  {
    var iov := [Null(1)];
    assert Bad(iov[0]) && Total(iov[..0]) == 0;
  }

  /** A call that loses a byte: it leaves the session, and the application gets an error instead. */
  method ReadIntoNull(st: FdState, k: Kernel, env: Local, epoch: nat, blocking: bool) returns (r: CallResult)
    requires st.Valid() && Rested(st.Value()) && st.at.pending == [] && st.rxPlain != []
    modifies st, st.metrics, k
    ensures r == Error(EFAULT)
    ensures st.Valid() && st.rxPlain == old(st.rxPlain)[1..]
    ensures st.at.history.delivered == old(st.at).history.delivered + old(st.rxPlain)[..1]
  {
    hide Lawful, Inv, After, PopFrame, Landed, Faults, Quiet;
    var iov := [Null(1)];
    NullEntryFaults(1);
    assert Total(iov) == 1 by { assert iov[..0] == []; }
    assert Buffers(iov) == {};
    r := OverlayReadIov(st, k, env, st.ownerPid, epoch, blocking, iov);
  }

  /** A vector can be read into without loss, however many bytes there turn out to be, exactly when no entry is bad. */
  lemma NeverFaultsExactly(iov: seq<Iovec>)
    ensures (forall n :: 1 <= n <= Total(iov) ==> !Faults(iov, n)) <==> (forall v <- iov :: !Bad(v))
  {
    hide Total;
    if forall n :: 1 <= n <= Total(iov) ==> !Faults(iov, n) {
      forall i | 0 <= i < |iov|
        ensures !Bad(iov[i])
      {
        TotalSnoc(iov, i);
        TotalMonotone(iov, i + 1);
        if Bad(iov[i]) {
          FaultsAt(iov, i, Total(iov[..i]) + 1);
        }
      }
    }
  }
}
