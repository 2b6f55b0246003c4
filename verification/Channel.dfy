/** Two ends of one connection over a channel that loses, alters and reorders nothing. */
module Channel {
  import opened Bytes
  import opened Framing
  import opened Crypto
  import opened Handshake
  import opened Session
  import opened Invariants

  // ----------------------------------- decoding -----------------------------------

  datatype Drained = Drained(plaintexts: seq<bytes>, next: Direction, leftover: bytes)

  /** What a receiver at `d` gets out of a stretch of wire bytes, and where it stops. */
  function Drain(p: Primitives, d: Direction, suiteId: byte, w: bytes): (r: Drained)
    decreases |w|
  {
    match PopFrame(w)
    case Popped(f, rest) =>
      if f.tag == TYPE_DATA && f.suiteId == suiteId && OpenWith(p, d, f.payload).Ok? then
        var (d1, m) := OpenWith(p, d, f.payload).value;
        var tail := Drain(p, d1, suiteId, rest);
        tail.(plaintexts := [m] + tail.plaintexts)
      else Drained([], d, w)
    case _ => Drained([], d, w)
  }

  /** Records sealed in order under one key, from a given counter on. */
  predicate SealedFrom(p: Primitives, k: Key, start: nat, records: seq<Record>) {
    && start + |records| <= U64_MAX
    && forall i :: 0 <= i < |records| ==>
         && Fits(records[i].ciphertext)
         && records[i].ciphertext == p.seal(k, Nonce(start + i), records[i].plaintext)
  }

  lemma DrainOne(p: Primitives, d: Direction, suiteId: byte, ct: bytes, rest: bytes)
    requires Fits(ct) && OpenWith(p, d, ct).Ok?
    ensures var tail := Drain(p, OpenWith(p, d, ct).value.0, suiteId, rest);
            Drain(p, d, suiteId, Encode(Parsed(suiteId, TYPE_DATA, ct)) + rest)
            == tail.(plaintexts := [OpenWith(p, d, ct).value.1] + tail.plaintexts)
  {
    PopEncode(Parsed(suiteId, TYPE_DATA, ct), rest);
    hide Encode, PopFrame, OpenWith;
  }

  lemma TailViews(suiteId: byte, records: seq<Record>)
    requires records != []
    ensures DataFrames(suiteId, Ciphertexts(records)) != []
    ensures DataFrames(suiteId, Ciphertexts(records))[0] == Parsed(suiteId, TYPE_DATA, records[0].ciphertext)
    ensures DataFrames(suiteId, Ciphertexts(records))[1..] == DataFrames(suiteId, Ciphertexts(records[1..]))
    ensures Plaintexts(records) == [records[0].plaintext] + Plaintexts(records[1..])
  {
  }

  lemma SealedTail(p: Primitives, k: Key, start: nat, records: seq<Record>)
    requires AeadLaws(p) && SealedFrom(p, k, start, records) && records != []
    ensures SealedFrom(p, k, start + 1, records[1..])
    ensures start < U64_MAX && Fits(records[0].ciphertext)
    ensures OpenWith(p, Direction(k, start), records[0].ciphertext)
              == Ok((Direction(k, start + 1), records[0].plaintext))
  {
    hide Nonce;
    var r, rest := records[0], records[1..];
    forall i | 0 <= i < |rest|
      ensures Fits(rest[i].ciphertext) && rest[i].ciphertext == p.seal(k, Nonce(start + 1 + i), rest[i].plaintext)
    {
      assert rest[i] == records[i + 1];
    }
    assert r.ciphertext == p.seal(k, Nonce(start + 0), r.plaintext);
    assert p.open(k, Nonce(start), r.ciphertext) == Some(r.plaintext);
  }

  lemma DrainNothing(p: Primitives, d: Direction, suiteId: byte)
    ensures Drain(p, d, suiteId, []) == Drained([], d, [])
  {
    hide PopFrame, OpenWith;
    EmptyHasNoFrame();
  }

  lemma {:induction false} DrainSealed(p: Primitives, k: Key, start: nat, suiteId: byte, records: seq<Record>)
    requires AeadLaws(p) && SealedFrom(p, k, start, records)
    ensures Drain(p, Direction(k, start), suiteId, Stream(DataFrames(suiteId, Ciphertexts(records))))
         == Drained(Plaintexts(records), Direction(k, start + |records|), [])
    decreases |records|
  {
    var fs := DataFrames(suiteId, Ciphertexts(records));
    if records == [] {
      DrainNothing(p, Direction(k, start), suiteId);
      hide Drain, SealedFrom, AeadLaws;
      assert fs == [] && Plaintexts(records) == [] && Stream(fs) == [];
    } else {
      hide Encode, PopFrame, Drain, Stream, DataFrames, Ciphertexts, Plaintexts, SealedFrom, AeadLaws, OpenWith, Fits,
           Nonce;
      TailViews(suiteId, records);
      StreamCons(fs);
      SealedTail(p, k, start, records);
      DrainOne(p, Direction(k, start), suiteId, records[0].ciphertext, Stream(fs[1..]));
      DrainSealed(p, k, start + 1, suiteId, records[1..]);
    }
  }

  // --------------------------------- the connection ---------------------------------

  /** Both ends are active, and the bytes `a` sent arrive at `b` in order or are in flight. */
  ghost predicate Wired(p: Primitives, a: Session, b: Session, inFlight: bytes) {
    && Inv(p, a) && Inv(p, b)
    && a.fd.phase.Active? && b.fd.phase.Active?
    && a.history.sent == b.history.pulled + inFlight
  }

  /** Wired, and `b` reads under the key `a` writes under. */
  ghost predicate Joined(p: Primitives, a: Session, b: Session, inFlight: bytes) {
    Wired(p, a, b, inFlight) && b.history.link.value.rx == a.history.link.value.tx
  }

  /** Joined, under one policy. */
  ghost predicate Connected(p: Primitives, a: Session, b: Session, inFlight: bytes) {
    Joined(p, a, b, inFlight) && a.fd.policySuite == b.fd.policySuite
  }

  /** The bytes on the way from `a`'s application to `b`'s receive path. */
  function OnTheWay(a: Session, b: Session, inFlight: bytes): bytes {
    b.fd.rxWire + inFlight + a.fd.txBacklog + a.pending
  }

  lemma FramesFit(p: Primitives, s: Session)
    requires Inv(p, s) && s.history.link.Some?
    ensures AllFit(FramesOut(s)) && AllFit(FramesIn(s))
  {
    hide WriterEphemeral, Encode, PopFrame, Stream, Concat, Nonce;
  }

  lemma WireEquation(a: Session, b: Session, inFlight: bytes)
    requires WireOut(a) && WireIn(b) && !a.fd.phase.Failed? && !b.fd.phase.Failed?
    requires a.history.sent == b.history.pulled + inFlight
    ensures Stream(FramesIn(b)) + OnTheWay(a, b, inFlight) == Stream(FramesOut(a))
  {
    hide FramesIn, FramesOut, Stream;
    var got := Stream(FramesIn(b));
    assert got + OnTheWay(a, b, inFlight) == (got + b.fd.rxWire) + inFlight + a.fd.txBacklog + a.pending;
  }

  /** What the receiver has accepted is a front part of what the sender framed; the rest is on the way. */
  lemma FramesInOrder(p: Primitives, a: Session, b: Session, inFlight: bytes)
    requires Wired(p, a, b, inFlight)
    ensures FramesIn(b) <= FramesOut(a)
    ensures OnTheWay(a, b, inFlight) == Stream(FramesOut(a)[|FramesIn(b)|..])
    ensures AllFit(FramesOut(a))
  {
    hide Bounded, Unstarted, Numbered, Undowngraded, PlainOut, RecordsFit, Introduced, FramesIn, FramesOut, Stream,
         WireIn, WireOut, OnTheWay;
    FramesFit(p, a);
    FramesFit(p, b);
    WireEquation(a, b, inFlight);
    FramesUnique(FramesIn(b), OnTheWay(a, b, inFlight), FramesOut(a));
  }

  /** The records of `a` that `b` has not received yet. */
  function Outstanding(a: Session, b: Session): (rest: seq<Record>) {
    if |b.history.received| <= |a.history.sealed| then a.history.sealed[|b.history.received|..] else []
  }

  /** Ciphertext sequences can be read off the frames that carry them. */
  lemma {:induction false} CarriedInOrder(id: byte, f: Parsed, received: seq<Record>, g: Parsed, sealed: seq<Record>)
    requires [f] + DataFrames(id, Ciphertexts(received)) <= [g] + DataFrames(id, Ciphertexts(sealed))
    ensures |received| <= |sealed|
    ensures forall i :: 0 <= i < |received| ==> received[i].ciphertext == sealed[i].ciphertext
    ensures ([g] + DataFrames(id, Ciphertexts(sealed)))[1 + |received|..]
              == DataFrames(id, Ciphertexts(sealed[|received|..]))
  {
    var fs, gs := [f] + DataFrames(id, Ciphertexts(received)), [g] + DataFrames(id, Ciphertexts(sealed));
    forall i | 0 <= i < |received|
      ensures received[i].ciphertext == sealed[i].ciphertext
    {
      assert fs[i + 1] == gs[i + 1];
    }
  }

  /** A record opened under the key and counter it was sealed under is the record sealed. */
  lemma SameRecord(p: Primitives, k: Key, n: u64, r: Record, q: Record)
    requires AeadLaws(p)
    requires r.ciphertext == p.seal(k, Nonce(n), r.plaintext)
    requires p.open(k, Nonce(n), q.ciphertext) == Some(q.plaintext)
    requires r.ciphertext == q.ciphertext
    ensures r == q
  {
    hide Nonce;
    assert p.open(k, Nonce(n), p.seal(k, Nonce(n), r.plaintext)) == Some(r.plaintext);
  }

  /** The part of the invariant that concerns one direction of an active session. */
  lemma ActiveFacts(p: Primitives, s: Session)
    requires Inv(p, s) && s.fd.phase.Active?
    ensures s.history.link.Some? && s.history.helloOut.Some? && s.history.helloIn.Some?
    ensures var tx, rx := s.history.link.value.tx, s.history.link.value.rx;
            && Confirmations(tx) <= |s.history.sealed| <= U64_MAX
            && Confirmations(rx) <= |s.history.received| <= U64_MAX
            && DataSealed(s) == s.history.sealed[Confirmations(tx)..]
            && DataReceived(s) == s.history.received[Confirmations(rx)..]
            && s.fd.phase.keys.tx == Direction(tx, |s.history.sealed|)
            && s.fd.phase.keys.rx == Direction(rx, |s.history.received|)
  {
    hide Bounded, Unstarted, Undowngraded, PlainOut, RecordsFit, Introduced, WireIn, WireOut, WriterEphemeral, Stream,
         Nonce;
  }

  /** The records received, confirmation aside, are the first records sealed, byte for byte. */
  lemma RecordsInOrder(p: Primitives, a: Session, b: Session, inFlight: bytes)
    requires AeadLaws(p) && Connected(p, a, b, inFlight)
    ensures |b.history.received| <= |a.history.sealed|
    ensures DataReceived(b) <= DataSealed(a)
    ensures FramesOut(a)[|FramesIn(b)|..] == DataFrames(a.fd.policySuite.Id(), Ciphertexts(Outstanding(a, b)))
    ensures DataSealed(a) == DataReceived(b) + Outstanding(a, b)
  {
    hide Bounded, Unstarted, Linked, Undowngraded, PlainOut, RecordsFit, Introduced, WireIn, WireOut, Stream,
         AeadLaws, OnTheWay, DataFrames, Ciphertexts, DataSealed, DataReceived, AllFit, Nonce;
    FramesInOrder(p, a, b, inFlight);
    ActiveFacts(p, a);
    ActiveFacts(p, b);
    var id, k := a.fd.policySuite.Id(), a.history.link.value.tx;
    var c := Confirmations(k);
    var sealed, received := DataSealed(a), DataReceived(b);
    assert FramesIn(b) == [b.history.helloIn.value] + DataFrames(id, Ciphertexts(received));
    assert FramesOut(a) == [a.history.helloOut.value] + DataFrames(id, Ciphertexts(sealed));
    CarriedInOrder(id, b.history.helloIn.value, received, a.history.helloOut.value, sealed);
    forall i | 0 <= i < |received|
      ensures received[i] == sealed[i]
    {
      SameRecord(p, k, i + c, a.history.sealed[i + c], b.history.received[i + c]);
    }
    assert sealed[|received|..] == Outstanding(a, b);
  }

  lemma OutstandingSealed(p: Primitives, a: Session, b: Session)
    requires Numbered(p, a) && RecordsFit(a) && a.history.link.Some?
    requires |b.history.received| <= |a.history.sealed|
    ensures SealedFrom(p, a.history.link.value.tx, |b.history.received|, Outstanding(a, b))
  {
    hide Nonce;
  }

  lemma WhatWasSealed(received: seq<Record>, rest: seq<Record>, delivered: bytes, waiting: bytes)
    requires Concat(Plaintexts(received)) == delivered + waiting
    ensures Concat(Plaintexts(received + rest)) == delivered + waiting + Concat(Plaintexts(rest))
  {
    ConcatAppend(Plaintexts(received), Plaintexts(rest));
    assert Plaintexts(received + rest) == Plaintexts(received) + Plaintexts(rest);
  }

  /**
   Stream conservation. Whatever the sizes of the partial sends and receives so far,
   what was delivered, what waits as plaintext and what decodes from the bytes still
   on the way is exactly the plaintext sealed, and the two counters meet at the end.
   */
  lemma StreamConserved(p: Primitives, a: Session, b: Session, inFlight: bytes)
    requires AeadLaws(p) && Connected(p, a, b, inFlight)
    ensures var rest := Drain(p, b.fd.phase.keys.rx, b.fd.policySuite.Id(), OnTheWay(a, b, inFlight));
            && b.history.delivered + b.fd.rxPlain + Concat(rest.plaintexts) == Concat(Plaintexts(DataSealed(a)))
            && rest.leftover == []
            && rest.next == a.fd.phase.keys.tx
  {
    hide Bounded, Unstarted, Numbered, Linked, Undowngraded, RecordsFit, Introduced, WireIn, WireOut, Stream,
         AeadLaws, OnTheWay, DataFrames, Ciphertexts, DataSealed, DataReceived, AllFit, Nonce, Drain, Concat,
         Plaintexts, FramesOut, FramesIn, SealedFrom;
    FramesInOrder(p, a, b, inFlight);
    RecordsInOrder(p, a, b, inFlight);
    ActiveFacts(p, a);
    ActiveFacts(p, b);
    OutstandingSealed(p, a, b);
    DrainSealed(p, a.history.link.value.tx, |b.history.received|, a.fd.policySuite.Id(), Outstanding(a, b));
    WhatWasSealed(DataReceived(b), Outstanding(a, b), b.history.delivered, b.fd.rxPlain);
  }

  lemma EmptyHasNoFrame()
    ensures PopFrame([]).NoFrame?
  {
  }

  /** An honest sender's frames are never refused: a complete frame in the buffer can always be opened. */
  lemma HonestFrameOpens(p: Primitives, a: Session, b: Session, inFlight: bytes)
    requires AeadLaws(p) && Connected(p, a, b, inFlight)
    ensures !PopFrame(b.fd.rxWire).Malformed?
    ensures PopFrame(b.fd.rxWire).Popped? ==>
              var f := PopFrame(b.fd.rxWire).frame;
              && f.tag == TYPE_DATA && f.suiteId == b.fd.policySuite.Id()
              && OpenWith(p, b.fd.phase.keys.rx, f.payload).Ok?
  {
    hide Bounded, Unstarted, Numbered, Linked, Undowngraded, RecordsFit, Introduced, WireIn, WireOut, Stream, AeadLaws,
         DataSealed, DataReceived, Nonce, Drain, PlainOut, FramesOut, FramesIn, SealedFrom, PopFrame, Encode, OpenWith;
    FramesInOrder(p, a, b, inFlight);
    RecordsInOrder(p, a, b, inFlight);
    ActiveFacts(p, a);
    ActiveFacts(p, b);
    OutstandingSealed(p, a, b);
    var fs, rest := FramesOut(a)[|FramesIn(b)|..], Outstanding(a, b);
    var more := inFlight + a.fd.txBacklog + a.pending;
    assert b.fd.rxWire + more == OnTheWay(a, b, inFlight);
    PartialFrame(b.fd.rxWire, more, fs);
    EmptyHasNoFrame();
    if fs != [] {
      SealedTail(p, a.history.link.value.tx, |b.history.received|, rest);
    }
  }

  // ------------------------------ an honest peer's volume ------------------------------

  /** The longest frame a sender produces: a full record and its tag. */
  const MAX_HONEST_FRAME := HDR_LEN + 2 + MAX_RECORD_PLAINTEXT + TAG_LEN

  predicate Modest(fs: seq<Parsed>) {
    forall i :: 0 <= i < |fs| ==> |fs[i].payload| <= MAX_RECORD_PLAINTEXT + TAG_LEN
  }

  lemma SendersAreModest(p: Primitives, s: Session)
    requires Inv(p, s)
    ensures Modest(FramesOut(s))
  {
    hide Bounded, Unstarted, Undowngraded, PlainOut, WireIn, WireOut, WriterEphemeral, Stream, Nonce;
  }

  lemma ReadsFit(p: Primitives, s: Session)
    requires Inv(p, s) && !s.fd.phase.Failed?
    ensures AllFit(FramesIn(s))
  {
    if s.history.link.Some? {
      FramesFit(p, s);
    } else {
      hide Bounded, Undowngraded, PlainOut, WireIn, WireOut, WriterEphemeral, Stream, Nonce;
    }
  }

  /** When a receiver asks the kernel for more of such a stream, it holds less than one frame. */
  lemma QuietHoldsLittle(p: Primitives, b: Session, fs: seq<Parsed>)
    requires Inv(p, b) && !b.fd.phase.Failed? && Quiet(b.fd)
    requires Modest(fs) && b.history.pulled <= Stream(fs)
    ensures |b.fd.rxWire| < MAX_HONEST_FRAME
  {
    hide Bounded, Unstarted, Numbered, Linked, Undowngraded, PlainOut, RecordsFit, Introduced, WireOut, Stream,
         FramesIn, PopFrame, Encode;
    ReadsFit(p, b);
    var more := Stream(fs)[|b.history.pulled|..];
    assert Stream(FramesIn(b)) + (b.fd.rxWire + more) == Stream(fs);
    FramesUnique(FramesIn(b), b.fd.rxWire + more, fs);
    PartialFrame(b.fd.rxWire, more, fs[|FramesIn(b)|..]);
  }

  lemma WireGrowsOnlyByPulls(p: Primitives, s: Session, a: Act)
    requires Enabled(p, s, a)
    ensures s.history.pulled <= Step(p, s, a).history.pulled
    ensures !a.event.Pull? ==> |Step(p, s, a).fd.rxWire| <= |s.fd.rxWire|
    ensures a.event.Pull? ==> |Step(p, s, a).fd.rxWire| <= |s.fd.rxWire| + PULL_LEN
  {
    hide Judge, OpenWith, SealWith, Stream;
  }

  /**
   With an honest peer the receive buffer stays below one record plus one read,
   far from the 16 MiB limit, in every state of every run.
   */
  lemma {:induction false} HonestWireBounded(p: Primitives, b: Session, acts: seq<Act>, a: Session)
    requires Lawful(p) && Inv(p, b) && b.fd.rxWire == [] && Inv(p, a)
    requires After(p, b, acts).Some? && After(p, b, acts).value.history.pulled <= Stream(FramesOut(a))
    ensures |After(p, b, acts).value.fd.rxWire| <= MAX_HONEST_FRAME - 1 + PULL_LEN
    decreases |acts|
  {
    if acts != [] {
      var before, last := acts[..|acts| - 1], acts[|acts| - 1];
      var u := After(p, b, before).value;
      WireGrowsOnlyByPulls(p, u, last);
      HonestWireBounded(p, b, before, a);
      if last.event.Pull? {
        ReachableInv(p, b, before);
        SendersAreModest(p, a);
        hide Inv, Lawful, Step, Stream, FramesOut;
        QuietHoldsLittle(p, u, FramesOut(a));
      }
    }
  }

  // -------------------------------- whole frames at once --------------------------------

  /** The kernel took the whole backlog. */
  function Flushed(s: Session): Session {
    s.(fd := s.fd.(txBacklog := []), history := s.history.(sent := s.history.sent + s.fd.txBacklog))
  }

  /** The kernel handed over these bytes. */
  function Pulled(s: Session, wire: bytes): Session {
    s.(fd := s.fd.(rxWire := s.fd.rxWire + wire), history := s.history.(pulled := s.history.pulled + wire))
  }

  lemma FlushAll(p: Primitives, s: Session)
    requires s.fd.txBacklog != []
    ensures var act := Act(s.fd.ownerPid, Flush(|s.fd.txBacklog|));
      Enabled(p, s, act) && Step(p, s, act) == Flushed(s)
  {
    hide Judge, PopFrame, CanOpen, CanSeal;
  }

  /** A frame that arrives whole is pulled in one piece and can be popped. */
  lemma PullFrame(p: Primitives, s: Session, f: Parsed)
    requires !s.fd.phase.Failed? && s.fd.rxWire == [] && s.fd.rxPlain == []
    requires |f.payload| <= PULL_LEN - HDR_LEN - 2
    ensures var wire: bytes := Encode(f);
      && 1 <= |wire| <= PULL_LEN
      && Enabled(p, s, Act(s.fd.ownerPid, Pull(wire)))
      && Step(p, s, Act(s.fd.ownerPid, Pull(wire))) == Pulled(s, wire)
      && Pulled(s, wire).fd.rxWire == wire && PopFrame(wire) == Popped(f, [])
  {
    hide PopFrame, Encode, Judge, CanOpen, CanSeal, Established, Sealed, Opened;
    PopEncode(f, []);
    EmptyHasNoFrame();
    assert Encode(f) + [] == Encode(f) && [] + Encode(f) == Encode(f);
  }
}
