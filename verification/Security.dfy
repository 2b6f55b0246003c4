/** What holds of every run of the network, whatever the adversary delivers. */
module Security {
  import opened Bytes
  import opened Framing
  import opened Crypto
  import opened Handshake
  import opened Session
  import opened Invariants
  import opened Network

  // ---------------------------------- prefix safety ----------------------------------

  /** Two sessions that write under each other's reading keys. */
  predicate Peers(s: Session, t: Session) {
    && s.history.link.Some? && t.history.link.Some?
    && t.history.link.value == Link(s.history.link.value.rx, s.history.link.value.tx)
  }

  lemma ReceivedFromOwner(p: Primitives, w: World, sid: Sid, peer: Sid, i: nat)
    requires Good(p, w) && sid in w.sessions && i < |w.sessions[sid].history.received|
    requires w.sessions[sid].history.link.Some?
    requires (w.sessions[sid].history.link.value.rx, 0) in w.seals
              && w.seals[(w.sessions[sid].history.link.value.rx, 0)].owner == peer
    ensures Owned(w, peer) && w.sessions[peer].history.link.Some?
    ensures w.sessions[peer].history.link.value.tx == w.sessions[sid].history.link.value.rx
    ensures i < |w.sessions[peer].history.sealed|
              && w.sessions[peer].history.sealed[i] == w.sessions[sid].history.received[i]
  {
    hide Inv;
    var k := w.sessions[sid].history.link.value.rx;
    assert EntryOk(w, k, 0);
    assert ReceivedOk(w, sid, i);
    assert EntryOk(w, k, i);
    KeyNamesOwner(p, w, w.seals[(k, i)].owner, peer);
  }

  /** Every record received came from one owner, in the order sealed. */
  lemma ReceivedFromOneOwner(p: Primitives, w: World, sid: Sid, peer: Sid)
    requires Good(p, w) && sid in w.sessions && w.sessions[sid].history.received != []
    requires w.sessions[sid].history.link.Some?
    requires (w.sessions[sid].history.link.value.rx, 0) in w.seals
              && w.seals[(w.sessions[sid].history.link.value.rx, 0)].owner == peer
    ensures Owned(w, peer) && w.sessions[peer].history.link.Some?
    ensures w.sessions[peer].history.link.value.tx == w.sessions[sid].history.link.value.rx
    ensures w.sessions[sid].history.received <= w.sessions[peer].history.sealed
  {
    hide Good;
    var received := w.sessions[sid].history.received;
    ReceivedFromOwner(p, w, sid, peer, |received| - 1);
    forall i | 0 <= i < |received|
      ensures w.sessions[peer].history.sealed[i] == received[i]
    {
      ReceivedFromOwner(p, w, sid, peer, i);
    }
  }

  lemma ConcatOfPrefix(a: seq<Record>, b: seq<Record>)
    requires a <= b
    ensures Concat(Plaintexts(a)) <= Concat(Plaintexts(b))
  {
    assert Plaintexts(b) == Plaintexts(a) + Plaintexts(b[|a|..]);
    ConcatAppend(Plaintexts(a), Plaintexts(b[|a|..]));
  }

  /** The received data is a front part of the data sealed by the session's one peer. */
  lemma DataFromPeer(p: Primitives, s: Session, t: Session)
    requires Inv(p, s) && Inv(p, t) && s.history.link.Some? && t.history.link.Some?
    requires t.history.link.value.tx == s.history.link.value.rx
    requires s.history.received <= t.history.sealed
    ensures Peers(s, t)
    ensures s.history.delivered <= Concat(Plaintexts(DataSealed(t)))
  {
    hide Bounded, Unstarted, Numbered, Undowngraded, WireIn, WireOut, RecordsFit, Introduced, WriterEphemeral,
         Plaintexts, Concat;
    assert DataReceived(s) <= DataSealed(t);
    ConcatOfPrefix(DataReceived(s), DataSealed(t));
  }

  lemma NothingFromNothing(p: Primitives, s: Session)
    requires Inv(p, s) && s.history.received == []
    ensures s.history.delivered == []
  {
    hide Bounded, Unstarted, Numbered, Undowngraded, WireIn, WireOut, RecordsFit, Introduced, WriterEphemeral;
    assert DataReceived(s) == [];
    assert Plaintexts(DataReceived(s)) == [];
  }

  /**
   Prefix safety. For every interleaving of calls in every process, and for any bytes
   put on the wire, what an application has been given is a prefix of what the one
   peer holding the mirrored keys sealed for this session; without such a peer it has
   been given nothing.
   */
  lemma PrefixSafety(p: Primitives, pid: int, acts: seq<WorldAct>, sid: Sid) returns (peer: Sid)
    requires Lawful(p) && Run(p, pid, acts).Some? && sid in Run(p, pid, acts).value.sessions
    ensures var w := Run(p, pid, acts).value;
            var s := w.sessions[sid];
            || s.history.delivered == []
            || (Owned(w, peer) && Peers(s, w.sessions[peer])
                && s.history.delivered <= Concat(Plaintexts(DataSealed(w.sessions[peer]))))
  {
    RunIsGood(p, pid, acts);
    var w := Run(p, pid, acts).value;
    var s := w.sessions[sid];
    peer := sid;
    assert Inv(p, s);
    if s.history.received == [] {
      NothingFromNothing(p, s);
    } else {
      assert ReceivedOk(w, sid, 0);
      peer := w.seals[(s.history.link.value.rx, 0)].owner;
      ReceivedFromOneOwner(p, w, sid, peer);
      assert Inv(p, w.sessions[peer]);
      hide Run, Inv, Distinct, LogSound, ReceivedLogged, Lawful, Concat, Plaintexts;
      DataFromPeer(p, s, w.sessions[peer]);
    }
  }

  /** A session has at most one peer, and no two sessions read what one peer writes. */
  lemma PeersAreUnique(p: Primitives, pid: int, acts: seq<WorldAct>, a: Sid, b: Sid, c: Sid)
    requires Lawful(p) && Run(p, pid, acts).Some?
    requires var w := Run(p, pid, acts).value;
             Owned(w, a) && Owned(w, b) && Owned(w, c)
             && Peers(w.sessions[a], w.sessions[b]) && Peers(w.sessions[a], w.sessions[c])
    ensures b == c
  {
    RunIsGood(p, pid, acts);
    hide Run, Inv, LogSound, ReceivedLogged;
    KeyNamesOwner(p, Run(p, pid, acts).value, b, c);
  }

  // --------------------------------- nonce uniqueness ---------------------------------

  /** The key and counter an act seals under, if it seals. */
  ghost function SealedBy(p: Primitives, w: World, a: WorldAct): (pair: Option<(Key, nat)>)
    requires Possible(p, w, a)
  {
    if a.Do? then
      var s, t := w.sessions[a.sid], Step(p, w.sessions[a.sid], Act(a.sid.pid, a.event));
      if t.history.link.Some? && |t.history.sealed| > |s.history.sealed|
      then Some((t.history.link.value.tx, |s.history.sealed|)) else None
    else None
  }

  lemma CountersFit(p: Primitives, s: Session)
    requires Inv(p, s)
    ensures |s.history.sealed| <= U64_MAX
  {
    hide Bounded, Unstarted, Linked, Undowngraded, WireIn, WireOut, PlainOut, RecordsFit, Introduced, Nonce;
  }

  lemma SealIsLogged(p: Primitives, w: World, a: WorldAct)
    requires Lawful(p) && Good(p, w) && Possible(p, w, a)
    ensures w.seals.Keys <= Next(p, w, a).seals.Keys
    ensures SealedBy(p, w, a).Some? ==>
              && SealedBy(p, w, a).value.1 <= U64_MAX
              && SealedBy(p, w, a).value !in w.seals && SealedBy(p, w, a).value in Next(p, w, a).seals
  {
    hide Inv, Distinct, LogSound, ReceivedLogged, Lawful, Step, Connect, Adopt, Inherited, NewSignings, Ideal;
    if SealedBy(p, w, a).Some? {
      var s := w.sessions[a.sid];
      assert Inv(p, s);
      StepKeepsInv(p, s, Act(a.sid.pid, a.event));
      CountersFit(p, Step(p, s, Act(a.sid.pid, a.event)));
      NonceNeverReused(p, w, a.sid, a.event);
    }
  }

  lemma {:induction false} RunPrefix(p: Primitives, pid: int, acts: seq<WorldAct>, i: nat)
    requires Run(p, pid, acts).Some? && i <= |acts|
    ensures Run(p, pid, acts[..i]).Some?
    ensures i < |acts| ==> Possible(p, Run(p, pid, acts[..i]).value, acts[i])
    ensures i < |acts| ==> Run(p, pid, acts[..i + 1]) == Some(Next(p, Run(p, pid, acts[..i]).value, acts[i]))
    decreases |acts|
  {
    hide Possible, Next;
    if i < |acts| {
      var before := acts[..|acts| - 1];
      assert before[..i] == acts[..i];
      if i + 1 < |acts| {
        assert before[..i + 1] == acts[..i + 1];
        assert before[i] == acts[i];
      } else {
        assert acts[..i + 1] == acts;
      }
      RunPrefix(p, pid, before, i);
    } else {
      assert acts[..i] == acts;
    }
  }

  lemma {:induction false} LogOnlyGrows(p: Primitives, pid: int, acts: seq<WorldAct>, i: nat, j: nat)
    requires Lawful(p) && Run(p, pid, acts).Some? && i <= j <= |acts|
    ensures Run(p, pid, acts[..i]).Some? && Run(p, pid, acts[..j]).Some?
    ensures Run(p, pid, acts[..i]).value.seals.Keys <= Run(p, pid, acts[..j]).value.seals.Keys
    decreases j - i
  {
    hide Possible, Next, Good, Run, Lawful;
    RunPrefix(p, pid, acts, i);
    RunPrefix(p, pid, acts, j);
    if i < j {
      RunPrefix(p, pid, acts, j - 1);
      RunIsGood(p, pid, acts[..j - 1]);
      SealIsLogged(p, Run(p, pid, acts[..j - 1]).value, acts[j - 1]);
      LogOnlyGrows(p, pid, acts, i, j - 1);
    }
  }

  /**
   No key and nonce pair is used twice, in any process of the run, forked ones included
   (section 8 of NIST SP 800-38D).
   */
  lemma NonceUniqueness(p: Primitives, pid: int, acts: seq<WorldAct>, i: nat, j: nat)
    requires Lawful(p) && Run(p, pid, acts).Some? && i < j < |acts|
    ensures Run(p, pid, acts[..i]).Some? && Possible(p, Run(p, pid, acts[..i]).value, acts[i])
    ensures Run(p, pid, acts[..j]).Some? && Possible(p, Run(p, pid, acts[..j]).value, acts[j])
    ensures var first := SealedBy(p, Run(p, pid, acts[..i]).value, acts[i]);
            var second := SealedBy(p, Run(p, pid, acts[..j]).value, acts[j]);
            first.Some? && second.Some? ==>
              && first.value.1 <= U64_MAX && second.value.1 <= U64_MAX
              && (first.value.0, Nonce(first.value.1)) != (second.value.0, Nonce(second.value.1))
  {
    RunPrefix(p, pid, acts, i);
    RunPrefix(p, pid, acts, j);
    RunIsGood(p, pid, acts[..i]);
    RunIsGood(p, pid, acts[..j]);
    LogOnlyGrows(p, pid, acts, i + 1, j);
    hide Possible, Next, Good, Run, Lawful, Nonce, SealedBy;
    SealIsLogged(p, Run(p, pid, acts[..i]).value, acts[i]);
    SealIsLogged(p, Run(p, pid, acts[..j]).value, acts[j]);
    var first, second := SealedBy(p, Run(p, pid, acts[..i]).value, acts[i]),
      SealedBy(p, Run(p, pid, acts[..j]).value, acts[j]);
    if first.Some? && second.Some? && Nonce(first.value.1) == Nonce(second.value.1) {
      NonceInjective(first.value.1, second.value.1);
    }
  }

  /** A state inherited by a forked process never sends, takes, seals, opens or delivers anything there. */
  lemma {:induction false} InheritedIsInert(p: Primitives, pid: int, acts: seq<WorldAct>, i: nat, sid: Sid)
    requires Run(p, pid, acts).Some? && i <= |acts|
    requires Run(p, pid, acts[..i]).Some? && sid in Run(p, pid, acts[..i]).value.sessions
    requires Lawful(p) && !Owned(Run(p, pid, acts[..i]).value, sid)
    ensures var u, w := Run(p, pid, acts[..i]).value, Run(p, pid, acts).value;
            sid in w.sessions && !Owned(w, sid) && w.sessions[sid].history == u.sessions[sid].history
    decreases |acts|
  {
    if i == |acts| {
      assert acts[..i] == acts;
    } else {
      var before, last := acts[..|acts| - 1], acts[|acts| - 1];
      assert before[..i] == acts[..i];
      InheritedIsInert(p, pid, before, i, sid);
      RunIsGood(p, pid, before);
      hide Lawful, Distinct, LogSound, ReceivedLogged, Inv;
      InertStep(p, Run(p, pid, before).value, last, sid);
    }
  }

  lemma InertStep(p: Primitives, w: World, a: WorldAct, sid: Sid)
    requires Locals(p, w) && Possible(p, w, a) && sid in w.sessions && !Owned(w, sid)
    ensures var v := Next(p, w, a);
            sid in v.sessions && !Owned(v, sid) && v.sessions[sid].history == w.sessions[sid].history
  {
    hide Connect, Adopt, NewSignings, NewSeals, Ideal, PopFrame, Judge, Inv;
  }
}
