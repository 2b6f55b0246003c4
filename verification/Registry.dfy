/**
 The descriptor registry under threads: the global map lock, the lock of each descriptor's
 state, the configuration lock, the reference-counted states and the gauge of active sessions.
 Every thread stands at a point of one of the interposed calls or of the reloader; a move takes
 one thread on. Nothing is assumed about the order in which threads move.
 */
module Registry {
  import opened Bytes

  datatype Lock = RegistryLock | StateLock(id: nat) | ConfigLock

  datatype Stage = Pending | Live | Dead

  /** What the gauge and the reloader read of a descriptor's state. */
  datatype Cell = Cell(stage: Stage, counted: bool, idle: bool, epoch: nat)

  /** Where a thread is. A `Wait` point wants a lock; the next point holds it. */
  datatype Point =
    | Outside
    // ensure_tracked
    | EnsureWait(fd: int) | EnsureHold(fd: int) | EnsureProbe(fd: int)
    | EnsurePolicyWait(fd: int) | EnsurePolicyHold(fd: int)
    | InsertWait(fd: int) | InsertHold(fd: int) | InsertPolicyWait(fd: int) | InsertPolicyHold(fd: int)
    // lookup, then overlay_send or overlay_recv
    | LookWait(fd: int) | LookHold(fd: int)
    | StateWait(id: nat) | InState(id: nat) | InIo(id: nat)
    | IdentityWait(id: nat) | IdentityHold(id: nat)
    | Dropping(id: nat)
    // connect
    | ConnectIo(fd: int) | BuildWait(fd: int) | BuildHold(fd: int)
    | PublishWait(fd: int, cell: Cell) | PublishHold(fd: int, cell: Cell)
    // close
    | CloseWait(fd: int) | CloseHold(fd: int) | CloseDrop(fd: int, id: nat) | CloseIo(fd: int)
    // handle_config_change
    | ReloadWait | ReloadHold | SnapshotWait(epoch: nat) | SnapshotHold(epoch: nat)
    | Retiring(epoch: nat, ids: seq<nat>) | RetiringIn(epoch: nat, id: nat, ids: seq<nat>)

  function Holds(p: Point): set<Lock> {
    match p
    case EnsureHold(_) => {RegistryLock}
    case EnsurePolicyHold(_) => {ConfigLock}
    case InsertHold(_) => {RegistryLock}
    case InsertPolicyWait(_) => {RegistryLock}
    case InsertPolicyHold(_) => {RegistryLock, ConfigLock}
    case LookHold(_) => {RegistryLock}
    case InState(id) => {StateLock(id)}
    case InIo(id) => {StateLock(id)}
    case IdentityWait(id) => {StateLock(id)}
    case IdentityHold(id) => {StateLock(id), ConfigLock}
    case BuildHold(_) => {ConfigLock}
    case PublishHold(_, _) => {RegistryLock}
    case CloseHold(_) => {RegistryLock}
    case ReloadHold => {ConfigLock}
    case SnapshotHold(_) => {RegistryLock}
    case RetiringIn(_, id, _) => {StateLock(id)}
    case _ => {}
  }

  function Wants(p: Point): Option<Lock> {
    match p
    case EnsureWait(_) => Some(RegistryLock)
    case EnsurePolicyWait(_) => Some(ConfigLock)
    case InsertWait(_) => Some(RegistryLock)
    case InsertPolicyWait(_) => Some(ConfigLock)
    case LookWait(_) => Some(RegistryLock)
    case StateWait(id) => Some(StateLock(id))
    case IdentityWait(_) => Some(ConfigLock)
    case BuildWait(_) => Some(ConfigLock)
    case PublishWait(_, _) => Some(RegistryLock)
    case CloseWait(_) => Some(RegistryLock)
    case ReloadWait => Some(ConfigLock)
    case SnapshotWait(_) => Some(RegistryLock)
    case _ => None
  }

  /** The states a thread keeps alive through references of its own. */
  function Refs(p: Point): set<nat> {
    match p
    case StateWait(id) => {id}
    case InState(id) => {id}
    case InIo(id) => {id}
    case IdentityWait(id) => {id}
    case IdentityHold(id) => {id}
    case Dropping(id) => {id}
    case CloseDrop(_, id) => {id}
    case Retiring(_, ids) => set id | id in ids
    case RetiringIn(_, id, ids) => {id} + set i | i in ids
    case _ => {}
  }

  /** In a real socket call, which may block. */
  predicate DoingIo(p: Point) {
    p.InIo? || p.CloseIo? || p.EnsureProbe? || p.ConnectIo?
  }

  datatype System = System(
    threads: map<nat, Point>, registry: map<int, nat>, cells: map<nat, Cell>, gauge: int, next: nat, epoch: nat)

  // ------------------------------------- moves -------------------------------------

  /** What stops the thread at `p` from taking `l` while another thread is at `q`: the
      configuration lock is shared by readers, every other lock is exclusive. Whether a reader
      may go past a queued writer is left open, so what is kept is kept under either policy. */
  predicate Bars(q: Point, p: Point, l: Lock) {
    l in Holds(q) && (l.ConfigLock? ==> p.ReloadWait? || q.ReloadHold?)
  }

  predicate Free(s: System, t: nat, p: Point, l: Lock) {
    forall u :: u in s.threads && u != t ==> !Bars(s.threads[u], p, l)
  }

  predicate Registered(registry: map<int, nat>, id: nat) {
    exists fd :: fd in registry && registry[fd] == id
  }

  /** Nobody can reach the state any more. */
  predicate Unreachable(threads: map<nat, Point>, registry: map<int, nat>, id: nat) {
    !Registered(registry, id) && forall t :: t in threads ==> id !in Refs(threads[t])
  }

  function Goto(s: System, t: nat, p: Point): System {
    s.(threads := s.threads[t := p])
  }

  /** A reference to `id` has just gone; the last one drops the state. */
  function DropIfLast(s: System, id: nat): System {
    if Unreachable(s.threads, s.registry, id) && id in s.cells
    then s.(cells := s.cells - {id}, gauge := if s.cells[id].counted then s.gauge - 1 else s.gauge)
    else s
  }

  /** `fail_closed` on a state. */
  function FailCell(s: System, id: nat): System
    requires id in s.cells
  {
    s.(cells := s.cells[id := s.cells[id].(stage := Dead, counted := false, idle := true)],
       gauge := if s.cells[id].counted then s.gauge - 1 else s.gauge)
  }

  /** `activate` on a state. */
  function ActivateCell(s: System, id: nat): System
    requires id in s.cells
  {
    s.(cells := s.cells[id := s.cells[id].(stage := Live, counted := true)],
       gauge := if s.cells[id].counted then s.gauge else s.gauge + 1)
  }

  /** The retirement rule of the reloader and of every send and receive. */
  function RetireCell(s: System, id: nat, epoch: nat): System
    requires id in s.cells
  {
    if s.cells[id].epoch != epoch && s.cells[id].idle then
      var failed := FailCell(s, id);
      failed.(cells := failed.cells[id := failed.cells[id].(epoch := epoch)])
    else s
  }

  /** Put a new state under a descriptor. */
  function Insert(s: System, fd: int, cell: Cell): System {
    s.(registry := s.registry[fd := s.next], cells := s.cells[s.next := cell], next := s.next + 1)
  }

  datatype Move =
    | Begin(p: Point)                     // a call starts
    | Acquire                             // the wanted lock is taken
    | Proceed                             // on to the next point
    | Probed(stream: bool)                // the socket type came back
    | Built(stage: Stage, idle: bool)     // a new state was made from the policy
    | ToIo | ToIdentity                   // inside overlay_send and overlay_recv
    | Activate | Fail | Retire | Touch(idle: bool)
    | Snapshot(ids: seq<nat>)             // the registered states, in some order

  /** The point reached by taking the wanted lock. */
  function Taken(p: Point): Point {
    match p
    case EnsureWait(fd) => EnsureHold(fd)
    case EnsurePolicyWait(fd) => EnsurePolicyHold(fd)
    case InsertWait(fd) => InsertHold(fd)
    case InsertPolicyWait(fd) => InsertPolicyHold(fd)
    case LookWait(fd) => LookHold(fd)
    case StateWait(id) => InState(id)
    case IdentityWait(id) => IdentityHold(id)
    case BuildWait(fd) => BuildHold(fd)
    case PublishWait(fd, cell) => PublishHold(fd, cell)
    case CloseWait(fd) => CloseHold(fd)
    case ReloadWait => ReloadHold
    case SnapshotWait(epoch) => SnapshotHold(epoch)
    case _ => p
  }

  predicate Proceeds(p: Point) {
    || p.EnsureHold? || p.EnsurePolicyHold? || p.InsertHold? || p.LookHold? || p.IdentityHold? || p.InIo?
    || p.InState? || p.Dropping? || p.ConnectIo? || p.BuildHold? || p.PublishHold? || p.CloseHold?
    || p.CloseDrop? || p.CloseIo? || p.ReloadHold? || p.Retiring? || p.RetiringIn?
  }

  ghost predicate Can(s: System, t: nat, m: Move) {
    t in s.threads &&
    var p := s.threads[t];
    match m
    case Begin(q) => p.Outside? && (q.EnsureWait? || q.ConnectIo? || q.CloseWait? || q.ReloadWait?)
    case Acquire => Wants(p).Some? && Free(s, t, p, Wants(p).value)
    case Proceed => Proceeds(p)
    case Probed(_) => p.EnsureProbe?
    case Built(stage, _) => (p.InsertPolicyHold? || p.BuildHold?) && !stage.Live?
    case ToIo => p.InState?
    case ToIdentity => p.InState?
    case Activate => p.InState? && p.id in s.cells && s.cells[p.id].stage.Pending?
    case Fail => p.InState? && p.id in s.cells
    case Retire => p.InState? && p.id in s.cells
    case Touch(_) => p.InState? && p.id in s.cells
    case Snapshot(ids) => p.SnapshotHold? && forall id :: id in ids <==> Registered(s.registry, id)
  }

  /** What a thread does next at its point. `connect` may read the configuration again. */
  function Onward(s: System, t: nat, p: Point): System {
    match p
    case EnsureHold(fd) => Goto(s, t, if fd in s.registry then LookWait(fd) else EnsureProbe(fd))
    case EnsurePolicyHold(fd) => Goto(s, t, InsertWait(fd))
    case InsertHold(fd) => Goto(s, t, if fd in s.registry then LookWait(fd) else InsertPolicyWait(fd))
    case LookHold(fd) => Goto(s, t, if fd in s.registry then StateWait(s.registry[fd]) else Outside)
    case IdentityHold(id) => Goto(s, t, InState(id))
    case InIo(id) => Goto(s, t, InState(id))
    case InState(id) => Goto(s, t, Dropping(id))
    case Dropping(id) => DropIfLast(Goto(s, t, Outside), id)
    case ConnectIo(fd) => Goto(s, t, BuildWait(fd))
    case BuildHold(fd) => Goto(s, t, BuildWait(fd))
    case PublishHold(fd, cell) =>
      var inserted := Goto(Insert(s, fd, cell), t, Outside);
      if fd in s.registry then DropIfLast(inserted, s.registry[fd]) else inserted
    case CloseHold(fd) =>
      if fd in s.registry then Goto(s.(registry := s.registry - {fd}), t, CloseDrop(fd, s.registry[fd]))
      else Goto(s, t, CloseIo(fd))
    case CloseDrop(fd, id) => DropIfLast(Goto(s, t, CloseIo(fd)), id)
    case CloseIo(fd) => Goto(s, t, Outside)
    case ReloadHold => Goto(s.(epoch := s.epoch + 1), t, SnapshotWait(s.epoch + 1))
    case Retiring(epoch, ids) =>
      if ids == [] then Goto(s, t, Outside)
      else if Free(s, t, p, StateLock(ids[0])) then Goto(s, t, RetiringIn(epoch, ids[0], ids[1..]))
      else DropIfLast(Goto(s, t, Retiring(epoch, ids[1..])), ids[0])
    case RetiringIn(epoch, id, ids) =>
      var retired := if id in s.cells then RetireCell(s, id, epoch) else s;
      DropIfLast(Goto(retired, t, Retiring(epoch, ids)), id)
    case _ => s
  }

  ghost function Next(s: System, t: nat, m: Move): System
    requires Can(s, t, m)
  {
    var p := s.threads[t];
    match m
    case Begin(q) => Goto(s, t, q)
    case Acquire => Goto(s, t, Taken(p))
    case Proceed => Onward(s, t, p)
    case Probed(stream) => Goto(s, t, if stream then EnsurePolicyWait(p.fd) else Outside)
    case Built(stage, idle) =>
      var cell := Cell(stage, false, idle, s.epoch);
      if p.BuildHold? then Goto(s, t, PublishWait(p.fd, cell)) else Goto(Insert(s, p.fd, cell), t, LookWait(p.fd))
    case ToIo => Goto(s, t, InIo(p.id))
    case ToIdentity => Goto(s, t, IdentityWait(p.id))
    case Activate => ActivateCell(s, p.id)
    case Fail => FailCell(s, p.id)
    case Retire => RetireCell(s, p.id, s.epoch)
    case Touch(idle) => s.(cells := s.cells[p.id := s.cells[p.id].(idle := idle)])
    case Snapshot(ids) => Goto(s, t, Retiring(p.epoch, ids))
  }

  // ----------------------------------- invariant -----------------------------------

  /** No two threads hold the same lock, except as readers of the configuration. */
  ghost predicate Exclusive(threads: map<nat, Point>) {
    forall t, u :: t in threads && u in threads && t != u ==> Apart(threads[t], threads[u])
  }

  ghost predicate Apart(p: Point, q: Point) {
    forall l :: l in Holds(p) && l in Holds(q) ==> l.ConfigLock? && !p.ReloadHold? && !q.ReloadHold?
  }

  /** Every reference, the registry's and the threads', leads to a state that exists. */
  ghost predicate Alive(s: System) {
    && (forall fd :: fd in s.registry ==> s.registry[fd] in s.cells)
    && (forall t, id :: t in s.threads && id in Refs(s.threads[t]) ==> id in s.cells)
  }

  /** Every state that exists can still be reached, `except` aside. */
  ghost predicate Kept(s: System, except: set<nat>) {
    forall id :: id in s.cells && id !in except ==> !Unreachable(s.threads, s.registry, id)
  }

  function LiveIds(cells: map<nat, Cell>): set<nat> {
    set id | id in cells && cells[id].stage.Live?
  }

  /** A state is counted exactly while it is live, and the gauge is the count. */
  ghost predicate Exact(s: System) {
    && (forall id :: id in s.cells ==> (s.cells[id].counted <==> s.cells[id].stage.Live?))
    && s.gauge == |LiveIds(s.cells)|
  }

  ghost predicate BelowNext(s: System) {
    forall id :: id in s.cells ==> id < s.next
  }

  /** A state still in its builder's hands has not been activated. */
  ghost predicate Unborn(threads: map<nat, Point>) {
    forall t :: t in threads && (threads[t].PublishWait? || threads[t].PublishHold?)
      ==> !threads[t].cell.counted && !threads[t].cell.stage.Live?
  }

  predicate Inserting(p: Point, fd: int) {
    (p.InsertPolicyWait? || p.InsertPolicyHold?) && p.fd == fd
  }

  /** A thread about to insert has seen, under the lock it still holds, that the entry is vacant. */
  ghost predicate Vacant(threads: map<nat, Point>, registry: map<int, nat>) {
    forall t, fd :: t in threads && Inserting(threads[t], fd) ==> fd !in registry
  }

  ghost predicate Orderly(s: System) {
    Exclusive(s.threads) && Alive(s) && Kept(s, {}) && Exact(s) && BelowNext(s) && Unborn(s.threads)
      && Vacant(s.threads, s.registry)
  }

  // ------------------------------ every move keeps it ------------------------------

  /** A thread may walk on while it holds on to nothing new but what was free. */
  ghost predicate Permitted(s: System, t: nat, p: Point) {
    t in s.threads && forall l :: l in Holds(p) ==>
      var q := s.threads[t];
      if l in Holds(q) then l.ConfigLock? ==> (p.ReloadHold? <==> q.ReloadHold?)
      else Free(s, t, q, l) && (l.ConfigLock? ==> (p.ReloadHold? <==> q.ReloadWait?))
  }

  lemma GotoExclusive(s: System, t: nat, p: Point)
    requires Exclusive(s.threads) && Permitted(s, t, p)
    ensures Exclusive(Goto(s, t, p).threads)
  {
    hide Holds, Refs, Wants;
    var v := Goto(s, t, p);
    forall a, b | a in v.threads && b in v.threads && a != b
      ensures Apart(v.threads[a], v.threads[b])
    {
      if a == t {
        ApartFromOthers(s, t, p, b);
      } else if b == t {
        ApartFromOthers(s, t, p, a);
      } else {
        assert Apart(s.threads[a], s.threads[b]);
      }
    }
  }

  lemma ApartFromOthers(s: System, t: nat, p: Point, u: nat)
    requires Exclusive(s.threads) && Permitted(s, t, p) && u in s.threads && u != t
    ensures Apart(p, s.threads[u]) && Apart(s.threads[u], p)
  {
    hide Holds, Refs, Wants;
    var q := s.threads[t];
    assert Apart(q, s.threads[u]);
    forall l | l in Holds(p) && l in Holds(s.threads[u])
      ensures l.ConfigLock? && !p.ReloadHold? && !s.threads[u].ReloadHold?
    {
      if l !in Holds(q) {
        assert !Bars(s.threads[u], q, l);
      }
    }
  }

  /** A walk whose references all exist, and which lets go of `gone` at most. */
  lemma GotoKeeps(s: System, t: nat, p: Point, gone: set<nat>)
    requires Alive(s) && Kept(s, {}) && t in s.threads
    requires forall id :: id in Refs(p) ==> id in s.cells
    requires forall id :: id in Refs(s.threads[t]) ==> id in Refs(p) || id in gone || Registered(s.registry, id)
    ensures Alive(Goto(s, t, p)) && Kept(Goto(s, t, p), gone)
  {
    hide Holds, Refs, Wants;
    var v := Goto(s, t, p);
    forall id | id in v.cells && id !in gone
      ensures !Unreachable(v.threads, v.registry, id)
    {
      assert !Unreachable(s.threads, s.registry, id);
      if !Registered(s.registry, id) {
        var u :| u in s.threads && id in Refs(s.threads[u]);
        assert u in v.threads && id in Refs(v.threads[u]);
      }
    }
  }

  lemma LiveIdsRemove(cells: map<nat, Cell>, id: nat)
    requires id in cells
    ensures |LiveIds(cells - {id})| == |LiveIds(cells)| - if cells[id].stage.Live? then 1 else 0
  {
    assert LiveIds(cells - {id}) == LiveIds(cells) - {id};
  }

  lemma LiveIdsUpdate(cells: map<nat, Cell>, id: nat, cell: Cell)
    ensures |LiveIds(cells[id := cell])|
         == |LiveIds(cells)| - (if id in cells && cells[id].stage.Live? then 1 else 0)
           + (if cell.stage.Live? then 1 else 0)
  {
    var rest := LiveIds(cells) - {id};
    assert LiveIds(cells[id := cell]) == if cell.stage.Live? then rest + {id} else rest;
    assert id in LiveIds(cells) <==> id in cells && cells[id].stage.Live?;
  }

  /** Dropping the last reference drops the state and its share of the gauge. */
  lemma DropKeeps(s: System, id: nat)
    requires Alive(s) && Kept(s, {id}) && Exact(s) && BelowNext(s) && Unborn(s.threads)
              && Vacant(s.threads, s.registry) && Exclusive(s.threads)
    ensures Orderly(DropIfLast(s, id))
  {
    hide Holds, Refs, Wants;
    var v := DropIfLast(s, id);
    if Unreachable(s.threads, s.registry, id) && id in s.cells {
      LiveIdsRemove(s.cells, id);
      assert forall i :: i in v.cells ==>
        (Unreachable(v.threads, v.registry, i) <==> Unreachable(s.threads, s.registry, i));
    }
  }

  /** Changing one state in place. */
  lemma SetCellKeeps(s: System, id: nat, cell: Cell, gauge: int)
    requires Orderly(s) && id in s.cells && (cell.counted <==> cell.stage.Live?)
    requires gauge == s.gauge - (if s.cells[id].counted then 1 else 0) + (if cell.counted then 1 else 0)
    ensures Orderly(s.(cells := s.cells[id := cell], gauge := gauge))
  {
    hide Holds, Refs, Wants, Exclusive, Unborn, Vacant, Unreachable, LiveIds;
    LiveIdsUpdate(s.cells, id, cell);
  }

  /** A new state under a descriptor; the state it displaces may have lost its last reference. */
  lemma InsertKeeps(s: System, fd: int, cell: Cell)
    requires Orderly(s) && !cell.counted && !cell.stage.Live?
    requires forall t :: t in s.threads ==> !Inserting(s.threads[t], fd)
    ensures var v := Insert(s, fd, cell);
      && Exclusive(v.threads) && Alive(v) && Exact(v) && BelowNext(v) && Unborn(v.threads)
           && Vacant(v.threads, v.registry)
      && Kept(v, if fd in s.registry then {s.registry[fd]} else {})
  {
    hide Holds, Refs, Wants;
    var v := Insert(s, fd, cell);
    LiveIdsUpdate(s.cells, s.next, cell);
    var gone := if fd in s.registry then {s.registry[fd]} else {};
    forall id | id in v.cells && id !in gone
      ensures !Unreachable(v.threads, v.registry, id)
    {
      if id == s.next {
        assert v.registry[fd] == id;
      } else {
        assert !Unreachable(s.threads, s.registry, id);
        if Registered(s.registry, id) {
          var f :| f in s.registry && s.registry[f] == id;
          assert f in v.registry && v.registry[f] == id;
        }
      }
    }
  }

  /** Most points only walk on. */
  lemma WalkKeeps(s: System, t: nat, p: Point)
    requires Orderly(s) && t in s.threads && Permitted(s, t, p)
    requires forall id :: id in Refs(p) ==> id in s.cells
    requires forall id :: id in Refs(s.threads[t]) ==> id in Refs(p) || Registered(s.registry, id)
    requires (p.PublishWait? || p.PublishHold?) ==> !p.cell.counted && !p.cell.stage.Live?
    requires forall fd :: Inserting(p, fd) ==> fd !in s.registry
    ensures Orderly(Goto(s, t, p))
  {
    hide Holds, Refs, Wants, Permitted, Exclusive, Alive, Kept, LiveIds;
    GotoExclusive(s, t, p);
    GotoKeeps(s, t, p, {});
  }

  /** Letting go of one reference. */
  lemma LetGoKeeps(s: System, t: nat, p: Point, id: nat)
    requires Orderly(s) && t in s.threads && Permitted(s, t, p)
    requires forall i :: i in Refs(p) ==> i in s.cells
    requires forall i :: i in Refs(s.threads[t]) ==> i in Refs(p) || i == id
    requires !p.PublishWait? && !p.PublishHold? && forall fd :: !Inserting(p, fd)
    ensures Orderly(DropIfLast(Goto(s, t, p), id))
  {
    hide Holds, Refs, Wants, Permitted, Exclusive, Alive, Kept, LiveIds, DropIfLast;
    GotoExclusive(s, t, p);
    GotoKeeps(s, t, p, {id});
    DropKeeps(Goto(s, t, p), id);
  }

  lemma RetireKeeps(s: System, id: nat, epoch: nat)
    requires Orderly(s) && id in s.cells
    ensures Orderly(RetireCell(s, id, epoch))
    ensures var v := RetireCell(s, id, epoch);
            v.threads == s.threads && v.registry == s.registry && v.cells.Keys == s.cells.Keys
  {
    hide Exclusive, Alive, Kept, BelowNext, Unborn, Vacant, LiveIds;
    var v := RetireCell(s, id, epoch);
    if v != s {
      SetCellKeeps(s, id, v.cells[id], v.gauge);
      assert v == s.(cells := s.cells[id := v.cells[id]], gauge := v.gauge);
    }
  }

  lemma OneHolder(s: System, t: nat, u: nat, l: Lock)
    requires Exclusive(s.threads) && t in s.threads && u in s.threads && !l.ConfigLock?
    requires l in Holds(s.threads[t]) && l in Holds(s.threads[u])
    ensures t == u
  {
    hide Holds;
    assert t != u ==> Apart(s.threads[t], s.threads[u]);
  }

  lemma NobodyElseInserts(s: System, t: nat)
    requires Exclusive(s.threads) && t in s.threads && RegistryLock in Holds(s.threads[t])
    ensures forall u, fd :: u in s.threads && u != t ==> !Inserting(s.threads[u], fd)
  {
    forall u | u in s.threads && RegistryLock in Holds(s.threads[u])
      ensures u == t
    {
      OneHolder(s, t, u, RegistryLock);
    }
    assert forall p: Point, fd :: Inserting(p, fd) ==> RegistryLock in Holds(p);
  }

  lemma PublishKeeps(s: System, t: nat, p: Point, fd: int, cell: Cell)
    requires Orderly(s) && t in s.threads && Refs(s.threads[t]) == {} && Refs(p) == {} && Holds(p) == {}
    requires !p.PublishWait? && !p.PublishHold? && !cell.counted && !cell.stage.Live?
    requires RegistryLock in Holds(s.threads[t])
    ensures var v := Goto(Insert(s, fd, cell), t, p);
      Orderly(if fd in s.registry then DropIfLast(v, s.registry[fd]) else v)
  {
    hide Refs, Wants, Exclusive, Alive, Kept, LiveIds, DropIfLast, Bars, Free;
    var w := Goto(s, t, p);
    WalkKeeps(s, t, p);
    NobodyElseInserts(s, t);
    InsertKeeps(w, fd, cell);
    assert Goto(Insert(s, fd, cell), t, p) == Insert(w, fd, cell);
    if fd in s.registry {
      DropKeeps(Insert(w, fd, cell), s.registry[fd]);
    }
  }

  /** `close` takes the registry's reference with it. */
  lemma UnregisterKeeps(s: System, t: nat, fd: int)
    requires Orderly(s) && t in s.threads && s.threads[t] == CloseHold(fd) && fd in s.registry
    ensures Orderly(Onward(s, t, CloseHold(fd)))
  {
    hide Kept, LiveIds, Free, Bars, Wants, Unreachable;
    var p := CloseDrop(fd, s.registry[fd]);
    var v := Goto(s.(registry := s.registry - {fd}), t, p);
    assert Exclusive(v.threads) by {
      GotoExclusive(s, t, p);
      assert v.threads == Goto(s, t, p).threads;
    }
    hide Exclusive, Holds;
    UnregisteredStaysReachable(s, t, fd);
  }

  lemma UnregisteredStaysReachable(s: System, t: nat, fd: int)
    requires Orderly(s) && t in s.threads && s.threads[t] == CloseHold(fd) && fd in s.registry
    ensures Kept(Goto(s.(registry := s.registry - {fd}), t, CloseDrop(fd, s.registry[fd])), {})
  {
    hide Holds, Wants, Exact, Exclusive;
    var v := Goto(s.(registry := s.registry - {fd}), t, CloseDrop(fd, s.registry[fd]));
    forall id | id in v.cells
      ensures !Unreachable(v.threads, v.registry, id)
    {
      assert !Unreachable(s.threads, s.registry, id);
      if id == s.registry[fd] {
        assert id in Refs(v.threads[t]);
      } else if Registered(s.registry, id) {
        var f :| f in s.registry && s.registry[f] == id;
        assert f in v.registry && v.registry[f] == id;
      } else {
        var u :| u in s.threads && id in Refs(s.threads[u]);
        assert id in Refs(v.threads[u]);
      }
    }
  }

  lemma RetiringKeeps(s: System, t: nat, epoch: nat, ids: seq<nat>)
    requires Orderly(s) && t in s.threads && s.threads[t] == Retiring(epoch, ids)
    ensures Orderly(Onward(s, t, s.threads[t]))
  {
    hide Exclusive, Alive, Kept, Exact, BelowNext, Unborn, Vacant, DropIfLast, Wants, Free, RetireCell;
    RefsAreAlive(s, t);
    if ids == [] {
      WalkKeeps(s, t, Outside);
    } else {
      var next, last := RetiringIn(epoch, ids[0], ids[1..]), Retiring(epoch, ids[1..]);
      RetiringRefs(epoch, ids);
      if Free(s, t, s.threads[t], StateLock(ids[0])) {
        assert Permitted(s, t, next);
        hide Refs, Holds;
        WalkKeeps(s, t, next);
      } else {
        assert Permitted(s, t, last);
        hide Refs, Holds;
        LetGoKeeps(s, t, last, ids[0]);
      }
    }
  }

  lemma RetiringRefs(epoch: nat, ids: seq<nat>)
    requires ids != []
    ensures Refs(Retiring(epoch, ids)) == Refs(RetiringIn(epoch, ids[0], ids[1..]))
              == {ids[0]} + Refs(Retiring(epoch, ids[1..]))
  {
    assert ids == [ids[0]] + ids[1..];
  }

  lemma RefsAreAlive(s: System, t: nat)
    requires Alive(s) && t in s.threads
    ensures forall id :: id in Refs(s.threads[t]) ==> id in s.cells
  {
    hide Refs;
  }

  lemma RetiringInKeeps(s: System, t: nat, epoch: nat, id: nat, ids: seq<nat>)
    requires Orderly(s) && t in s.threads && s.threads[t] == RetiringIn(epoch, id, ids)
    ensures Orderly(Onward(s, t, s.threads[t]))
  {
    hide Exclusive, Kept, Exact, BelowNext, Unborn, DropIfLast, Wants, RetireCell;
    assert id in Refs(s.threads[t]);
    RetireKeeps(s, id, epoch);
    LetGoKeeps(RetireCell(s, id, epoch), t, Retiring(epoch, ids), id);
  }

  lemma TrackingKeepsOrder(s: System, t: nat)
    requires Orderly(s) && t in s.threads
    requires var p := s.threads[t]; p.EnsureHold? || p.EnsurePolicyHold? || p.InsertHold? || p.LookHold?
    ensures Orderly(Onward(s, t, s.threads[t]))
  {
    hide Exclusive, Kept, Exact, BelowNext, DropIfLast, Wants, RetireCell, LiveIds, Insert, Unborn, Vacant, Free;
    match s.threads[t] {
      case EnsureHold(fd) => WalkKeeps(s, t, if fd in s.registry then LookWait(fd) else EnsureProbe(fd));
      case EnsurePolicyHold(fd) => WalkKeeps(s, t, InsertWait(fd));
      case InsertHold(fd) => WalkKeeps(s, t, if fd in s.registry then LookWait(fd) else InsertPolicyWait(fd));
      case LookHold(fd) => WalkKeeps(s, t, if fd in s.registry then StateWait(s.registry[fd]) else Outside);
    }
  }

  lemma UsingKeepsOrder(s: System, t: nat)
    requires Orderly(s) && t in s.threads
    requires var p := s.threads[t];
             p.IdentityHold? || p.InIo? || p.InState? || p.Dropping? || p.ConnectIo? || p.BuildHold?
    ensures Orderly(Onward(s, t, s.threads[t]))
  {
    hide Exclusive, Alive, Kept, Exact, BelowNext, DropIfLast, Wants, RetireCell, LiveIds, Insert, Unborn, Vacant, Free;
    RefsAreAlive(s, t);
    match s.threads[t] {
      case IdentityHold(id) => WalkKeeps(s, t, InState(id));
      case InIo(id) => WalkKeeps(s, t, InState(id));
      case InState(id) => WalkKeeps(s, t, Dropping(id));
      case Dropping(id) => LetGoKeeps(s, t, Outside, id);
      case ConnectIo(fd) => WalkKeeps(s, t, BuildWait(fd));
      case BuildHold(fd) => WalkKeeps(s, t, BuildWait(fd));
    }
  }

  lemma ProceedKeepsOrder(s: System, t: nat)
    requires Orderly(s) && Can(s, t, Proceed)
    ensures Orderly(Next(s, t, Proceed))
  {
    hide Orderly, Onward, Proceeds;
    OnwardKeepsOrder(s, t);
  }

  lemma OnwardKeepsOrder(s: System, t: nat)
    requires Orderly(s) && t in s.threads && Proceeds(s.threads[t])
    ensures Orderly(Onward(s, t, s.threads[t]))
  {
    hide Exclusive, Kept, Exact, BelowNext, DropIfLast, Wants, RetireCell, LiveIds, Insert, Free;
    match s.threads[t] {
      case PublishHold(fd, cell) => PublishKeeps(s, t, Outside, fd, cell);
      case CloseHold(fd) =>
        if fd in s.registry { UnregisterKeeps(s, t, fd); } else { WalkKeeps(s, t, CloseIo(fd)); }
      case CloseDrop(fd, id) => LetGoKeeps(s, t, CloseIo(fd), id);
      case CloseIo(fd) => WalkKeeps(s, t, Outside);
      case ReloadHold => EpochKeeps(s, t);
      case Retiring(epoch, ids) => RetiringKeeps(s, t, epoch, ids);
      case RetiringIn(epoch, id, ids) => RetiringInKeeps(s, t, epoch, id, ids);
      case EnsureHold(_) => TrackingKeepsOrder(s, t);
      case EnsurePolicyHold(_) => TrackingKeepsOrder(s, t);
      case InsertHold(_) => TrackingKeepsOrder(s, t);
      case LookHold(_) => TrackingKeepsOrder(s, t);
      case _ => UsingKeepsOrder(s, t);
    }
  }

  lemma EpochKeeps(s: System, t: nat)
    requires Orderly(s) && t in s.threads && s.threads[t].ReloadHold?
    ensures Orderly(Onward(s, t, s.threads[t]))
  {
    hide Exclusive, Alive, Kept, Exact, BelowNext, Unborn, Vacant, Wants, Free, Bars;
    WalkKeeps(s, t, SnapshotWait(s.epoch + 1));
    AnyEpochWillDo(Goto(s, t, SnapshotWait(s.epoch + 1)), s.epoch + 1);
  }

  lemma AnyEpochWillDo(s: System, epoch: nat)
    requires Orderly(s)
    ensures Orderly(s.(epoch := epoch))
  {
    hide Holds, Refs, Wants, LiveIds, Exclusive, Unborn, Vacant, Unreachable;
  }

  lemma TakenIsLawful(s: System, t: nat)
    requires t in s.threads && Can(s, t, Acquire)
    ensures var p := s.threads[t]; Permitted(s, t, Taken(p)) && Refs(Taken(p)) == Refs(p)
  {
    hide Free;
  }

  lemma AcquireKeepsOrder(s: System, t: nat)
    requires Orderly(s) && Can(s, t, Acquire)
    ensures Orderly(Next(s, t, Acquire))
  {
    hide Exclusive, Kept, Exact, BelowNext, LiveIds, Holds, Refs, Permitted, Free;
    TakenIsLawful(s, t);
    WalkKeeps(s, t, Taken(s.threads[t]));
  }

  lemma BuiltKeepsOrder(s: System, t: nat, stage: Stage, idle: bool)
    requires Orderly(s) && Can(s, t, Built(stage, idle))
    ensures Orderly(Next(s, t, Built(stage, idle)))
  {
    hide Exclusive, Kept, BelowNext, LiveIds, Wants, Free, DropIfLast;
    var cell := Cell(stage, false, idle, s.epoch);
    var p := s.threads[t];
    if p.BuildHold? {
      WalkKeeps(s, t, PublishWait(p.fd, cell));
    } else {
      assert Inserting(p, p.fd);
      PublishKeeps(s, t, LookWait(p.fd), p.fd, cell);
    }
  }

  lemma NextKeepsOrder(s: System, t: nat, m: Move)
    requires Orderly(s) && Can(s, t, m)
    ensures Orderly(Next(s, t, m))
  {
    hide Orderly, Can, Next;
    match m {
      case Acquire => AcquireKeepsOrder(s, t);
      case Proceed => ProceedKeepsOrder(s, t);
      case Built(stage, idle) => BuiltKeepsOrder(s, t, stage, idle);
      case Activate => CellMoveKeepsOrder(s, t, m);
      case Fail => CellMoveKeepsOrder(s, t, m);
      case Retire => CellMoveKeepsOrder(s, t, m);
      case Touch(_) => CellMoveKeepsOrder(s, t, m);
      case _ => WalkMoveKeepsOrder(s, t, m);
    }
  }

  lemma WalkMoveKeepsOrder(s: System, t: nat, m: Move)
    requires Orderly(s) && Can(s, t, m) && (m.Begin? || m.Probed? || m.ToIo? || m.ToIdentity? || m.Snapshot?)
    ensures Orderly(Next(s, t, m))
  {
    hide Exclusive, Kept, Exact, Unborn, Vacant, BelowNext, LiveIds, Onward, Wants, Free, Insert, DropIfLast;
    var p := s.threads[t];
    match m {
      case Begin(q) => WalkKeeps(s, t, q);
      case Probed(stream) => WalkKeeps(s, t, if stream then EnsurePolicyWait(p.fd) else Outside);
      case ToIo => WalkKeeps(s, t, InIo(p.id));
      case ToIdentity => WalkKeeps(s, t, IdentityWait(p.id));
      case Snapshot(ids) =>
        assert forall id :: id in Refs(Retiring(p.epoch, ids)) ==> Registered(s.registry, id);
        WalkKeeps(s, t, Retiring(p.epoch, ids));
    }
  }

  lemma CellMoveKeepsOrder(s: System, t: nat, m: Move)
    requires Orderly(s) && Can(s, t, m) && (m.Activate? || m.Fail? || m.Retire? || m.Touch?)
    ensures Orderly(Next(s, t, m))
  {
    hide Exclusive, Kept, Alive, Unborn, Vacant, BelowNext, LiveIds, Onward, Wants, Free, Holds, Refs;
    var id := s.threads[t].id;
    match m {
      case Activate => SetCellKeeps(s, id, s.cells[id].(stage := Live, counted := true), s.gauge + 1);
      case Fail => SetCellKeeps(s, id, FailCell(s, id).cells[id], FailCell(s, id).gauge);
      case Retire => RetireKeeps(s, id, s.epoch);
      case Touch(idle) => SetCellKeeps(s, id, s.cells[id].(idle := idle), s.gauge);
    }
  }

  // ---------------------------------- every run ------------------------------------

  ghost predicate Initial(s: System) {
    && (forall t :: t in s.threads ==> s.threads[t].Outside?)
    && s.registry == map[] && s.cells == map[] && s.gauge == 0
  }

  /** `v` is reached from `s` by these moves of these threads. */
  ghost predicate Reaches(s: System, moves: seq<(nat, Move)>, v: System)
    decreases |moves|
  {
    if moves == [] then v == s
    else Can(s, moves[0].0, moves[0].1) && Reaches(Next(s, moves[0].0, moves[0].1), moves[1..], v)
  }

  lemma {:induction false} RunKeepsOrder(s: System, moves: seq<(nat, Move)>, v: System)
    requires Orderly(s) && Reaches(s, moves, v)
    ensures Orderly(v)
    decreases |moves|
  {
    hide Orderly, Can, Next;
    if moves != [] {
      NextKeepsOrder(s, moves[0].0, moves[0].1);
      RunKeepsOrder(Next(s, moves[0].0, moves[0].1), moves[1..], v);
    }
  }

  lemma InitialOrder(s: System)
    requires Initial(s)
    ensures Orderly(s)
  {
    assert LiveIds(s.cells) == {};
  }

  /** However the threads interleave, the gauge is the number of live sessions, each counted
      once, and a session exists exactly as long as the registry or some thread refers to it. */
  lemma GaugeIsExact(s: System, moves: seq<(nat, Move)>, v: System)
    requires Initial(s) && Reaches(s, moves, v)
    ensures v.gauge == |set id | id in v.cells && v.cells[id].stage.Live?|
    ensures forall id :: id in v.cells ==> (v.cells[id].counted <==> v.cells[id].stage.Live?)
    ensures forall id :: id in v.cells <==>
              (Registered(v.registry, id) || exists t :: t in v.threads && id in Refs(v.threads[t]))
  {
    hide Can, Next, Refs, Holds, Wants;
    InitialOrder(s);
    RunKeepsOrder(s, moves, v);
    assert LiveIds(v.cells) == set id | id in v.cells && v.cells[id].stage.Live?;
    forall id | id in v.cells
      ensures Registered(v.registry, id) || exists t :: t in v.threads && id in Refs(v.threads[t])
    {
      assert !Unreachable(v.threads, v.registry, id);
    }
  }

  /** Once every session is closed and every call has returned, the gauge is back to zero. */
  lemma GaugeReturnsToZero(s: System, moves: seq<(nat, Move)>, v: System)
    requires Initial(s) && Reaches(s, moves, v)
    requires v.registry == map[] && forall t :: t in v.threads ==> v.threads[t].Outside?
    ensures v.gauge == 0 && v.cells == map[]
  {
    hide Can, Next, Holds, Wants, Reaches;
    GaugeIsExact(s, moves, v);
    assert forall id :: id !in v.cells;
  }

  // ------------------------------------- locks -------------------------------------

  /** `t` cannot go on before `u` does: `u` holds what `t` wants, or `u` is the writer that
      readers of the configuration queue behind. */
  predicate WaitsFor(s: System, t: nat, u: nat) {
    && t in s.threads && u in s.threads && Wants(s.threads[t]).Some?
    && var l := Wants(s.threads[t]).value;
       l in Holds(s.threads[u]) || (l.ConfigLock? && s.threads[u].ReloadWait? && !s.threads[t].ReloadWait?)
  }

  function Level(p: Point): nat {
    match Wants(p)
    case None => 0
    case Some(ConfigLock) => if p.ReloadWait? then 1 else 2
    case Some(RegistryLock) => 3
    case Some(StateLock(_)) => 4
  }

  lemma WaitsDescend(s: System, t: nat, u: nat)
    requires WaitsFor(s, t, u)
    ensures Level(s.threads[u]) < Level(s.threads[t])
  {
    hide Refs;
    var l := Wants(s.threads[t]).value;
    match l {
      case ConfigLock =>
      case RegistryLock => assert Level(s.threads[t]) == 3;
      case StateLock(_) => assert Level(s.threads[t]) == 4;
    }
  }

  ghost predicate WaitChain(s: System, path: seq<nat>) {
    forall i :: 0 <= i < |path| - 1 ==> WaitsFor(s, path[i], path[i + 1])
  }

  lemma {:induction false} ChainDescends(s: System, path: seq<nat>, i: nat)
    requires WaitChain(s, path) && i < |path| && |path| > 1
    ensures path[0] in s.threads && path[i] in s.threads
    ensures Level(s.threads[path[i]]) + i <= Level(s.threads[path[0]])
  {
    hide Level, Holds, Wants;
    if i == 0 {
      assert WaitsFor(s, path[0], path[1]);
    } else {
      ChainDescends(s, path, i - 1);
      assert WaitsFor(s, path[i - 1], path[i - 1 + 1]);
      WaitsDescend(s, path[i - 1], path[i]);
    }
  }

  /** In no state, reachable or not, do threads wait for each other in a circle, nor does
      a thread wait for itself; and no chain of waiting is longer than five threads. */
  lemma NoDeadlock(s: System, path: seq<nat>)
    requires |path| > 1 && WaitChain(s, path)
    ensures path[0] != path[|path| - 1]
    ensures |path| <= 5
  {
    ChainDescends(s, path, |path| - 1);
  }

  /** A thread in a socket call holds no lock but the one of its own state; a thread waiting for
      a state holds nothing; and nobody ever holds two states. */
  lemma LockDiscipline(p: Point)
    ensures DoingIo(p) ==> RegistryLock !in Holds(p) && ConfigLock !in Holds(p)
    ensures Wants(p).Some? && Wants(p).value.StateLock? ==> Holds(p) == {}
    ensures forall i, j :: StateLock(i) in Holds(p) && StateLock(j) in Holds(p) ==> i == j
    ensures forall i :: StateLock(i) in Holds(p) ==> RegistryLock !in Holds(p) && i in Refs(p)
  {
  }

  /** The registered states in some order. */
  lemma {:induction false} Listing(registry: map<int, nat>) returns (ids: seq<nat>)
    ensures forall id :: id in ids <==> Registered(registry, id)
    decreases |registry|
  {
    if fd :| fd in registry {
      var rest := registry - {fd};
      assert rest.Keys == registry.Keys - {fd};
      var tail := Listing(rest);
      ids := [registry[fd]] + tail;
      forall id
        ensures id in ids <==> Registered(registry, id)
      {
        assert id in ids <==> id == registry[fd] || id in tail;
        if Registered(registry, id) && id != registry[fd] {
          var f :| f in registry && registry[f] == id;
          assert f in rest && rest[f] == id;
        }
        if id in tail {
          var f :| f in rest && rest[f] == id;
          assert f in registry && registry[f] == id;
        }
      }
    } else {
      ids := [];
    }
  }

  /** A thread in the middle of a call that wants no lock has a move. */
  lemma UnblockedMoves(s: System, t: nat) returns (m: Move)
    requires t in s.threads && !s.threads[t].Outside? && Wants(s.threads[t]).None?
    ensures Can(s, t, m) && !m.Begin?
  {
    hide Holds, Refs, Free;
    match s.threads[t] {
      case EnsureProbe(_) => m := Probed(false);
      case InsertPolicyHold(_) => m := Built(Dead, true);
      case SnapshotHold(_) =>
        var ids := Listing(s.registry);
        m := Snapshot(ids);
      case _ => m := Proceed;
    }
  }

  /** Whoever holds a lock is inside a call; a holder of the registry or of the configuration is
      in no socket call and wants no state. */
  lemma HoldersAreBusy(p: Point, l: Lock)
    requires l in Holds(p)
    ensures !p.Outside?
    ensures !l.StateLock? ==> !DoingIo(p) && (Wants(p).Some? ==> !Wants(p).value.StateLock?)
  {
  }

  /** Whenever a thread is in a call, the call can be taken further: by the thread itself, or by
      one that stands in its way. And when it waits for the registry or the configuration, as
      `close` and `lookup` do, the one to move is not in a socket call. A lock is only taken by a
      thread that waits for nobody, so no reader goes past a queued writer. */
  lemma {:induction false} SomeoneMoves(s: System, t: nat) returns (u: nat, m: Move)
    requires t in s.threads && !s.threads[t].Outside?
    ensures u in s.threads && Can(s, u, m) && !m.Begin?
    ensures m.Acquire? ==> forall b :: !WaitsFor(s, u, b)
    ensures Wants(s.threads[t]).None? ==> u == t
    ensures Wants(s.threads[t]).Some? && !Wants(s.threads[t]).value.StateLock? ==> !DoingIo(s.threads[u])
    decreases Level(s.threads[t])
  {
    hide Holds, Refs, Level;
    var p := s.threads[t];
    if Wants(p).None? {
      u := t;
      m := UnblockedMoves(s, t);
    } else if b :| WaitsFor(s, t, b) {
      WaitsDescend(s, t, b);
      BlockersAreBusy(s, t, b);
      u, m := SomeoneMoves(s, b);
    } else {
      u := t;
      m := Acquire;
      assert forall b :: b in s.threads && Bars(s.threads[b], p, Wants(p).value) ==> WaitsFor(s, t, b);
    }
  }

  /** Whoever is waited for is inside a call, and on the way to the registry or the configuration it
      is in no socket call and wants no state. */
  lemma BlockersAreBusy(s: System, t: nat, b: nat)
    requires WaitsFor(s, t, b)
    ensures !s.threads[b].Outside?
    ensures !Wants(s.threads[t]).value.StateLock? ==>
              && !DoingIo(s.threads[b])
              && (Wants(s.threads[b]).Some? ==> !Wants(s.threads[b]).value.StateLock?)
  {
    hide Holds, Refs;
    var l := Wants(s.threads[t]).value;
    if l in Holds(s.threads[b]) {
      HoldersAreBusy(s.threads[b], l);
    }
  }

  /** The most moves its holder still makes before it gives the registry up. */
  function RegistryMoves(p: Point): nat {
    match p
    case InsertHold(_) => 3
    case InsertPolicyWait(_) => 2
    case InsertPolicyHold(_) => 1
    case _ => if RegistryLock in Holds(p) then 1 else 0
  }

  /** The registry is held for three moves at most: each move of its holder gives it up or
      brings giving it up closer. */
  lemma RegistryIsHeldBriefly(s: System, t: nat, m: Move)
    requires Can(s, t, m) && RegistryLock in Holds(s.threads[t])
    ensures t in Next(s, t, m).threads
    ensures RegistryMoves(Next(s, t, m).threads[t]) < RegistryMoves(s.threads[t]) <= 3
    ensures RegistryMoves(Next(s, t, m).threads[t]) == 0 <==> RegistryLock !in Holds(Next(s, t, m).threads[t])
  {
    hide Free, Refs, Unreachable, Onward, DropIfLast, Registered;
    if m.Proceed? {
      HolderLetsGo(s, t, s.threads[t]);
    }
  }

  lemma HolderLetsGo(s: System, t: nat, p: Point)
    requires RegistryLock in Holds(p) && Proceeds(p)
    ensures var v := Onward(s, t, p); t in v.threads && RegistryMoves(v.threads[t]) < RegistryMoves(p)
    ensures var v := Onward(s, t, p); RegistryMoves(v.threads[t]) == 0 <==> RegistryLock !in Holds(v.threads[t])
  {
    hide Free, Refs, Unreachable, Wants, RetireCell, Registered;
    assert forall v: System, id :: DropIfLast(v, id).threads == v.threads;
    hide DropIfLast;
  }

  lemma OthersStayOnward(s: System, t: nat, p: Point, u: nat)
    requires u in s.threads && u != t
    ensures var v := Onward(s, t, p); u in v.threads && v.threads[u] == s.threads[u]
  {
    hide Free, Refs, Unreachable, Holds, Wants;
    assert forall v: System, id :: DropIfLast(v, id).threads == v.threads;
  }

  /** A move touches no other thread. */
  lemma OthersStay(s: System, t: nat, m: Move, u: nat)
    requires Can(s, t, m) && u in s.threads && u != t
    ensures u in Next(s, t, m).threads && Next(s, t, m).threads[u] == s.threads[u]
  {
    hide Free, Refs, Unreachable, Holds, Wants, Onward, Taken;
    OthersStayOnward(s, t, s.threads[t], u);
  }

  /** A state one thread refers to survives whatever the others do, `close` included; and one
      it has locked keeps its contents. */
  lemma StateInUseIsSafe(s: System, t: nat, m: Move, u: nat, id: nat)
    requires Orderly(s) && t in s.threads && Can(s, t, m) && u in s.threads && u != t && id in Refs(s.threads[u])
    ensures id in Next(s, t, m).cells
    ensures StateLock(id) in Holds(s.threads[u]) ==> Next(s, t, m).cells[id] == s.cells[id]
  {
    hide Next, Can, Holds, Refs;
    NextKeepsOrder(s, t, m);
    OthersStay(s, t, m, u);
    if StateLock(id) in Holds(s.threads[u]) {
      OnlyTheHolderWrites(s, t, m, id);
      if StateLock(id) in Holds(s.threads[t]) {
        OneHolder(s, t, u, StateLock(id));
      }
    }
  }

  /** Only the thread that holds a state's lock changes the state. */
  lemma OnlyTheHolderWrites(s: System, t: nat, m: Move, id: nat)
    requires Orderly(s) && Can(s, t, m) && id in s.cells && id in Next(s, t, m).cells
    ensures Next(s, t, m).cells[id] != s.cells[id] ==> StateLock(id) in Holds(s.threads[t])
  {
    hide Free, Refs, Unreachable, Exclusive, Alive, Kept, Exact, Unborn, Vacant;
  }

  // ------------------------------ what the moves are for ------------------------------

  /** The move by which `close` takes a descriptor's entry out of the map. */
  predicate Vacates(p: Point, m: Move, fd: int) {
    m.Proceed? && p == CloseHold(fd)
  }

  /** The state a move puts under a descriptor: by `connect` at any time, by `ensure_tracked` if there is none. */
  function Fills(p: Point, m: Move, fd: int, epoch: nat): Option<Cell> {
    if m.Proceed? && p.PublishHold? && p.fd == fd then Some(p.cell)
    else if m.Built? && p == InsertPolicyHold(fd) then Some(Cell(m.stage, false, m.idle, epoch))
    else None
  }

  /** Under each descriptor: `close` leaves nothing, `connect` and tracking a new state that no one else refers to,
      tracking only where nothing was; every other move leaves the entry alone. */
  lemma EntryChanges(s: System, t: nat, m: Move, fd: int)
    requires Orderly(s) && Can(s, t, m)
    ensures var v, p := Next(s, t, m), s.threads[t];
            if Vacates(p, m, fd) then fd !in v.registry
            else if Fills(p, m, fd, s.epoch).Some? then
              && fd in v.registry && v.registry[fd] !in s.cells
              && v.registry[fd] in v.cells && v.cells[v.registry[fd]] == Fills(p, m, fd, s.epoch).value
              && (m.Built? ==> fd !in s.registry)
            else (fd in v.registry <==> fd in s.registry) && (fd in s.registry ==> v.registry[fd] == s.registry[fd])
  {
    hide Free, Refs, Exclusive, Kept, Exact, Unborn, Holds, Wants, Taken;
    assert m.Built? && s.threads[t] == InsertPolicyHold(fd) ==> Inserting(s.threads[t], fd);
  }

  /** No move of the run puts a state under the descriptor. */
  ghost predicate NeverFills(s: System, moves: seq<(nat, Move)>, fd: int)
    decreases |moves|
  {
    moves != [] && Can(s, moves[0].0, moves[0].1) ==>
      && Fills(s.threads[moves[0].0], moves[0].1, fd, s.epoch).None?
      && NeverFills(Next(s, moves[0].0, moves[0].1), moves[1..], fd)
  }

  /** A closed descriptor stays unknown, whatever the other threads do, until it is connected or tracked again. */
  lemma {:induction false} ClosedStaysClosed(s: System, moves: seq<(nat, Move)>, v: System, fd: int)
    requires Orderly(s) && Reaches(s, moves, v) && fd !in s.registry && NeverFills(s, moves, fd)
    ensures fd !in v.registry
    decreases |moves|
  {
    hide Orderly, Can, Next, Fills;
    if moves != [] {
      EntryChanges(s, moves[0].0, moves[0].1, fd);
      NextKeepsOrder(s, moves[0].0, moves[0].1);
      ClosedStaysClosed(Next(s, moves[0].0, moves[0].1), moves[1..], v, fd);
    }
  }

  /** A lookup waits for the state that is registered at that moment, or comes back empty-handed. */
  lemma LookupFinds(s: System, t: nat, fd: int)
    requires Can(s, t, Proceed) && s.threads[t] == LookHold(fd)
    ensures var v := Next(s, t, Proceed);
            v == s.(threads := s.threads[t := if fd in s.registry then StateWait(s.registry[fd]) else Outside])
  {
  }

  /** The configuration that the thread at `p` holds a state up to. */
  function Against(s: System, p: Point): nat {
    if p.RetiringIn? then p.epoch else s.epoch
  }

  /** Whether the thread at `p` makes the state follow the configuration with this move. */
  predicate Retires(p: Point, m: Move, id: nat) {
    (m.Retire? && p == InState(id)) || (m.Proceed? && p.RetiringIn? && p.id == id)
  }

  /** What a move does to a state that is there before and after it: a retirement closes it exactly if it is idle
      under an older configuration, only a pending one is activated, and a dead one stays dead. */
  lemma CellChanges(s: System, t: nat, m: Move, id: nat)
    requires Orderly(s) && Can(s, t, m) && id in s.cells && id in Next(s, t, m).cells
    ensures var c, d, p := s.cells[id], Next(s, t, m).cells[id], s.threads[t];
            && (c.stage.Dead? ==> d.stage.Dead?)
            && (d.stage.Live? && !c.stage.Live? ==> m.Activate? && p == InState(id) && c.stage.Pending?)
            && (Retires(p, m, id) ==>
                  d == if c.idle && c.epoch != Against(s, p) then Cell(Dead, false, true, Against(s, p)) else c)
            && (d.stage.Dead? && !c.stage.Dead? ==> (m.Fail? && p == InState(id)) || Retires(p, m, id))
            && (d.epoch != c.epoch ==> Retires(p, m, id))
  {
    hide Free, Refs, Unreachable, Exclusive, Alive, Kept, Exact, Unborn, Vacant, Wants, Holds, Onward, Taken;
    if m.Proceed? {
      OnwardCells(s, t, s.threads[t], id);
    }
  }

  lemma OnwardCells(s: System, t: nat, p: Point, id: nat)
    requires BelowNext(s) && id in s.cells && id in Onward(s, t, p).cells
    ensures Onward(s, t, p).cells[id]
         == if p.RetiringIn? && p.id == id && s.cells[id].idle && s.cells[id].epoch != p.epoch
            then Cell(Dead, false, true, p.epoch) else s.cells[id]
  {
    hide Free, Unreachable, Registered;
  }

  /** Tracking looks a descriptor up only once it is in the map, and probes or inserts only where it is not. */
  lemma TrackingEnds(s: System, t: nat, m: Move, fd: int)
    requires Orderly(s) && Can(s, t, m)
    ensures var v := Next(s, t, m);
            && t in v.threads
            && (v.threads[t] == LookWait(fd) && s.threads[t] != LookWait(fd) ==> fd in v.registry)
            && (v.threads[t] == EnsureProbe(fd) && s.threads[t] != EnsureProbe(fd) ==> fd !in v.registry)
            && (Inserting(v.threads[t], fd) ==> fd !in v.registry)
  {
    hide Free, Refs, Exclusive, Kept, Exact, Unborn, Holds, Wants, Registered, Onward, Taken;
    NextKeepsOrder(s, t, m);
    if m.Proceed? {
      OnwardTracks(s, t, s.threads[t], fd);
    } else if m.Acquire? {
      TakenTracks(s.threads[t], fd);
    }
  }

  lemma OnwardTracks(s: System, t: nat, p: Point, fd: int)
    requires t in s.threads
    ensures var v := Onward(s, t, p);
            && t in v.threads
            && (v.threads[t] == LookWait(fd) ==> s.threads[t] == LookWait(fd) || fd in v.registry)
            && (v.threads[t] == EnsureProbe(fd) ==> s.threads[t] == EnsureProbe(fd) || fd !in v.registry)
  {
    hide Free, Unreachable, RetireCell, Insert;
  }

  lemma TakenTracks(p: Point, fd: int)
    ensures Taken(p) == LookWait(fd) || Taken(p) == EnsureProbe(fd) ==> Taken(p) == p
  {
  }

  /** A reload starts a new configuration, and only a reload does. */
  lemma EpochAdvances(s: System, t: nat, m: Move)
    requires Can(s, t, m)
    ensures var v := Next(s, t, m);
            if m.Proceed? && s.threads[t].ReloadHold?
            then v == s.(epoch := s.epoch + 1, threads := s.threads[t := SnapshotWait(s.epoch + 1)])
            else v.epoch == s.epoch
  {
    hide Free, Refs, Holds, Wants, Registered;
  }

  /** The sweep of the reloader visits its states one by one: it takes a state's lock exactly when no one else has it,
      and otherwise leaves that state to the thread that does, without waiting. */
  lemma SweepVisits(s: System, t: nat, epoch: nat, id: nat, ids: seq<nat>)
    requires Can(s, t, Proceed)
    ensures s.threads[t] == Retiring(epoch, [id] + ids) ==>
              Next(s, t, Proceed).threads
              == s.threads[t := if exists u :: u in s.threads && u != t && StateLock(id) in Holds(s.threads[u])
                                then Retiring(epoch, ids) else RetiringIn(epoch, id, ids)]
    ensures s.threads[t] == RetiringIn(epoch, id, ids) ==>
              Next(s, t, Proceed).threads == s.threads[t := Retiring(epoch, ids)]
    ensures s.threads[t] == Retiring(epoch, []) ==> Next(s, t, Proceed).threads == s.threads[t := Outside]
  {
    hide Refs, Holds, Wants, Registered, Unreachable;
    assert ([id] + ids)[0] == id && ([id] + ids)[1..] == ids;
  }
}
