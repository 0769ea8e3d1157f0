/**
 * The whole fleet: etcd, any number of processes each running a NodeLease over an EtcdLeaseStore, and the
 * ids handed out so far. A step is one call's request, landing, answer or failure, a mint, a crash, an
 * expiry, or a floor lift; wall clocks are arbitrary parameters of the steps that read them.
 */
module LeaseProtocol {
  import opened Wrappers
  import opened SnowflakeCodec
  import opened SnowflakeGenerators
  import opened NodeLeases
  import opened LeaseKeyspace

  // Where the store stands in the one operation its process has outstanding. `*Sent` has a transaction in flight.
  datatype StoreOp =
    | Quiet
    | LeaseForClaim
    | Snapshot(leaseId: nat)
    | Claiming(leaseId: nat, free: map<int, NodeEntry>)
    | ClaimSent(txn: Txn, nowMs: int, free: map<int, NodeEntry>)
    | ReadoptSent(txn: Txn, nowMs: int, claimFloorMs: Option<int>)
    | RejectRead(nodeId: int, generation: nat)
    | RejectSent(txn: Txn)
    | RenewRead(renewal: RenewRequest)
    | RenewAlive(leaseId: nat, txn: Txn)
    | RenewSent(txn: Txn)
    | ReleaseRead(request: ReleaseRequest)
    | ReleaseSent(txn: Txn)

  datatype Process = Process(lease: Lease, pending: Option<nat>, store: StoreOp)

  datatype Tenure = Tenure(nodeId: int, claimFloorMs: Option<int>, leaseId: nat)

  // An id that was handed out, and the generation it was minted under; 0 for ids older than this keyspace.
  datatype Emission = Emission(id: Fields, generation: nat)

  datatype Fleet = Fleet(
    etcd: Etcd,
    procs: map<nat, Process>,
    nextPid: nat,
    // Transactions whose caller is gone or gave up, and which may still land.
    orphans: set<Txn>,
    // History: which process each etcd lease was granted to, every claim that ever succeeded, every id.
    leaseOwner: map<nat, nat>,
    tenures: map<nat, Tenure>,
    emitted: seq<Emission>)

  // What becomes of the transaction of a call that failed without an answer.
  datatype Fate = AlreadyLanded | Never | Late

  datatype Step =
    | Spawn
    | Crash(pid: nat)
    | Generate(pid: nat, after: Lease, issued: Option<Fields>)
    | Drain(pid: nat)
    | BeginAcquire(pid: nat)
    | UsePending(pid: nat)
    | GrantLease(pid: nat, leaseId: nat)
    | TakeSnapshot(pid: nat, own: Option<int>, nowMs: int, ttlMs: nat)
    | SendClaim(pid: nat, nodeId: int, nowMs: int, ttlMs: nat)
    | ReportExhausted(pid: nat)
    | ReadForReject(pid: nat)
    | BeginRenew(pid: nat)
    | ReadForRenew(pid: nat, nowMs: int, ttlMs: nat)
    | KeepAlive(pid: nat)
    | BeginRelease(pid: nat)
    | ReadForRelease(pid: nat)
    | Land(pid: nat, maxFloorAheadMs: int)
    | Fail(pid: nat, fate: Fate)
    | LandOrphan(txn: Txn)
    | ExpireLease(leaseId: nat)
    | LiftChunk(chunk: set<int>, nowMs: int)
    | MarkInitialized

  predicate HasTxn(op: StoreOp) {
    op.ClaimSent? || op.ReadoptSent? || op.RejectSent? || op.RenewSent? || op.ReleaseSent?
  }

  // ---------------------------------------------------------------- the steps

  // A transaction reaches etcd. A claim that succeeds opens a tenure named by its revision.
  function Landed(s: Fleet, t: Txn): Fleet {
    s.(etcd := Apply(s.etcd, t),
       tenures := if t.ClaimTxn? && Succeeds(s.etcd, t)
                  then s.tenures[s.etcd.revision + 1 := Tenure(t.nodeId, t.claimFloorMs, t.leaseId)] else s.tenures)
  }

  function With(s: Fleet, pid: nat, p: Process): Fleet {
    s.(procs := s.procs[pid := p])
  }

  // The acquire got this grant: it is confirmed, so the lease id is no longer pending.
  function Granted(p: Process, g: Grant, maxFloorAheadMs: int): Process {
    var lease := AcquireAnswered(p.lease, Answered(Some(g)), maxFloorAheadMs);
    Process(lease, None, if lease.operation.RejectOp? then RejectRead(g.nodeId, g.generation) else Quiet)
  }

  function AcquireThrew(p: Process, pending: Option<nat>): Process {
    Process(AcquireAnswered(p.lease, Threw, 0), pending, Quiet)
  }

  // The answer to the transaction `p` has in flight, landing on `e`.
  function Settled(p: Process, e: Etcd, maxFloorAheadMs: int): Process
    requires HasTxn(p.store) && (p.store.RenewSent? ==> p.lease.held.Some?)
  {
    var won := Succeeds(e, p.store.txn);
    match p.store
    case ClaimSent(txn, nowMs, free) =>
      if !txn.ClaimTxn? || txn.leaseId !in e.leases then AcquireThrew(p, None)
      else if won
      then Granted(p, Grant(txn.nodeId, e.revision + 1, txn.claimFloorMs, txn.ceilingMs, nowMs), maxFloorAheadMs)
      else p.(store := Claiming(txn.leaseId, free))
    case ReadoptSent(txn, nowMs, claimFloorMs) =>
      if won && txn.RaiseTxn?
      then Granted(p, Grant(txn.nodeId, txn.generation, claimFloorMs, txn.ceilingMs, nowMs), maxFloorAheadMs)
      else AcquireThrew(p, p.pending)
    case RenewSent(txn) =>
      p.(lease := RenewAnswered(p.lease, Answered(if won && txn.RaiseTxn? then Some(txn.ceilingMs) else None)),
         store := Quiet)
    case _ => p.(lease := p.lease.(operation := NoOperation), store := Quiet)
  }

  function Failed(p: Process): Process
    requires p.lease.operation.RenewOp? ==> p.lease.held.Some?
  {
    match p.lease.operation
    case AcquireOp => AcquireThrew(p, p.pending)
    case RenewOp => p.(lease := RenewAnswered(p.lease, Threw), store := Quiet)
    case _ => p.(lease := p.lease.(operation := NoOperation), store := Quiet)
  }

  predicate OwnedUnder(e: Etcd, nodeId: int, leaseId: nat) {
    EntryOf(e, nodeId).owner.Some? && EntryOf(e, nodeId).owner.value.leaseId == leaseId
  }

  function FreeNodes(e: Etcd): map<int, NodeEntry> {
    map n: int | LEASED_NODE_MIN <= n <= LEASED_NODE_MAX && EntryOf(e, n).owner.None? :: EntryOf(e, n)
  }

  // A node already owned under the pending lease is taken over; otherwise the free nodes are tried.
  function Snapshotted(p: Process, e: Etcd, leaseId: nat, own: Option<int>, nowMs: int, ttlMs: nat): Process
    requires own.Some? ==> EntryOf(e, own.value).owner.Some?
  {
    match own
    case Some(n) =>
      var entry := EntryOf(e, n);
      p.(store := ReadoptSent(RaiseFor(n, entry, entry.owner.value.generation, nowMs, ttlMs), nowMs,
                              entry.owner.value.claimFloorMs))
    case None => p.(store := Claiming(leaseId, FreeNodes(e)))
  }

  function ReadForRenewal(p: Process, e: Etcd, nowMs: int, ttlMs: nat): Process
    requires p.store.RenewRead? && p.lease.held.Some?
  {
    var request := p.store.renewal;
    var entry := EntryOf(e, request.nodeId);
    if !IsHeldBy(entry, request.generation)
    then p.(lease := RenewAnswered(p.lease, Answered(None)), store := Quiet)
    else p.(store := RenewAlive(entry.owner.value.leaseId,
                                RaiseFor(request.nodeId, entry, request.generation, Max(nowMs, request.lastMs), ttlMs)))
  }

  // Both kinds of release read the node first; one that has changed hands needs nothing more.
  function ReadForDrop(
    p: Process, e: Etcd, nodeId: int, generation: nat, lastMs: Option<int>, sent: Txn -> StoreOp): Process
  {
    var entry := EntryOf(e, nodeId);
    if !IsHeldBy(entry, generation) then p.(lease := p.lease.(operation := NoOperation), store := Quiet)
    else p.(store := sent(DropFor(nodeId, entry.owner.value, lastMs)))
  }

  function ReleaseStarted(p: Process): Process {
    var lease := ReleaseBegun(p.lease);
    if !p.lease.operation.NoOperation? || p.lease.held.None? then p.(lease := lease)
    else
      var t := p.lease.held.value;
      Process(lease, p.pending, ReleaseRead(ReleaseRequest(t.mint.nodeId, t.generation,
                                                         if t.mint.lastMs == 0 then None else Some(t.mint.lastMs))))
  }

  function InFlight(op: StoreOp): set<Txn> {
    if HasTxn(op) then {op.txn} else {}
  }

  // A lease is refused unless a whole fence margin fits strictly inside its TTL.
  predicate IsTtl(ttlMs: int) {
    1 < ttlMs
  }

  // Steps that only move one process, without writing to etcd.
  ghost predicate MovesTo(s: Fleet, step: Step, pid: nat, p: Process, p': Process) {
    match step
    case Generate(_, after, issued) => Generates(p.lease, after, issued) && p' == p.(lease := after)
    case Drain(_) => p' == p.(lease := p.lease.(draining := true))
    case BeginAcquire(_) => MayAcquire(p.lease) && p' == p.(lease := AcquireBegun(p.lease), store := LeaseForClaim)
    case UsePending(_) =>
      && p.store.LeaseForClaim? && p.pending.Some? && p.pending.value in s.etcd.leases
      && p' == p.(store := Snapshot(p.pending.value))
    case TakeSnapshot(_, own, nowMs, ttlMs) =>
      && p.store.Snapshot? && s.etcd.initialized && IsTtl(ttlMs)
      && (own.Some? ==> OwnedUnder(s.etcd, own.value, p.store.leaseId))
      && (own.None? ==> forall n :: n in s.etcd.nodes ==> !OwnedUnder(s.etcd, n, p.store.leaseId))
      && p' == Snapshotted(p, s.etcd, p.store.leaseId, own, nowMs, ttlMs)
    case SendClaim(_, n, nowMs, ttlMs) =>
      && p.store.Claiming? && n in p.store.free && IsTtl(ttlMs)
      && var txn := ClaimFor(n, p.store.free[n], p.store.leaseId, nowMs, ttlMs);
         p' == p.(store := ClaimSent(txn, nowMs, p.store.free - {n}))
    case ReportExhausted(_) =>
      && p.store.Claiming? && p.store.free == map[]
      && p' == Process(AcquireAnswered(p.lease, Answered(None), 0), None, Quiet)
    case ReadForReject(_) =>
      && p.store.RejectRead?
      && p' == ReadForDrop(p, s.etcd, p.store.nodeId, p.store.generation, None, txn => RejectSent(txn))
    case BeginRenew(_) =>
      && p.lease.held.Some? && p.lease.operation.NoOperation?
      && var t := p.lease.held.value;
         p' == p.(lease := p.lease.(operation := RenewOp),
                  store := RenewRead(RenewRequest(t.mint.nodeId, t.generation, t.mint.lastMs)))
    case ReadForRenew(_, nowMs, ttlMs) =>
      p.store.RenewRead? && p.lease.held.Some? && IsTtl(ttlMs) && p' == ReadForRenewal(p, s.etcd, nowMs, ttlMs)
    case KeepAlive(_) =>
      && p.store.RenewAlive? && p.lease.held.Some?
      && p' == if p.store.leaseId in s.etcd.leases then p.(store := RenewSent(p.store.txn))
               else p.(lease := RenewAnswered(p.lease, Answered(None)), store := Quiet)
    case BeginRelease(_) => p' == ReleaseStarted(p)
    case ReadForRelease(_) =>
      && p.store.ReleaseRead?
      && var r := p.store.request;
         p' == ReadForDrop(p, s.etcd, r.nodeId, r.generation, r.lastMs, txn => ReleaseSent(txn))
    case _ => false
  }

  // A step of one process on its own: it hands out nothing, and writes nothing to etcd.
  predicate IsProcessMove(step: Step) {
    || step.Drain? || step.BeginAcquire? || step.UsePending? || step.TakeSnapshot? || step.SendClaim?
    || step.ReportExhausted? || step.ReadForReject? || step.BeginRenew? || step.ReadForRenew? || step.KeepAlive?
    || step.BeginRelease? || step.ReadForRelease?
  }

  ghost predicate Next(s: Fleet, step: Step, s': Fleet) {
    if IsProcessMove(step) then
      && step.pid in s.procs && step.pid in s'.procs
      && MovesTo(s, step, step.pid, s.procs[step.pid], s'.procs[step.pid])
      && s' == With(s, step.pid, s'.procs[step.pid])
    else
      match step
      case Spawn => s' == s.(procs := s.procs[s.nextPid := Process(FRESH_LEASE, None, Quiet)], nextPid := s.nextPid + 1)
      case Crash(pid) =>
        && pid in s.procs
        && s' == s.(procs := s.procs - {pid}, orphans := s.orphans + InFlight(s.procs[pid].store))
      case Generate(pid, _, issued) =>
        && pid in s.procs && pid in s'.procs && MovesTo(s, step, pid, s.procs[pid], s'.procs[pid])
        && s' == With(s, pid, s'.procs[pid]).(
                   emitted := if issued.Some? && s.procs[pid].lease.held.Some?
                              then s.emitted + [Emission(issued.value, s.procs[pid].lease.held.value.generation)]
                              else s.emitted)
      case GrantLease(pid, leaseId) =>
        && pid in s.procs && leaseId !in s.leaseOwner
        && var p := s.procs[pid];
           && p.store.LeaseForClaim? && (p.pending.Some? ==> p.pending.value !in s.etcd.leases)
           && s' == With(s, pid, p.(pending := Some(leaseId), store := Snapshot(leaseId))).(
                      leaseOwner := s.leaseOwner[leaseId := pid],
                      etcd := s.etcd.(leases := s.etcd.leases + {leaseId}))
      case Land(pid, maxFloorAheadMs) =>
        && pid in s.procs && HasTxn(s.procs[pid].store)
        && (s.procs[pid].store.RenewSent? ==> s.procs[pid].lease.held.Some?)
        && s' == With(Landed(s, s.procs[pid].store.txn), pid, Settled(s.procs[pid], s.etcd, maxFloorAheadMs))
      case Fail(pid, fate) =>
        && pid in s.procs && !s.procs[pid].store.Quiet?
        && (s.procs[pid].lease.operation.RenewOp? ==> s.procs[pid].lease.held.Some?)
        && var p := s.procs[pid];
           var after := if HasTxn(p.store) && fate.AlreadyLanded? then Landed(s, p.store.txn)
                        else if HasTxn(p.store) && fate.Late? then s.(orphans := s.orphans + {p.store.txn})
                        else s;
           s' == With(after, pid, Failed(p))
      case LandOrphan(txn) => txn in s.orphans && s' == Landed(s, txn).(orphans := s.orphans - {txn})
      case ExpireLease(leaseId) => s' == s.(etcd := Expire(s.etcd, leaseId))
      case LiftChunk(chunk, nowMs) => MayLift(s.etcd, chunk) && s' == s.(etcd := Lift(s.etcd, chunk, nowMs))
      case MarkInitialized => s' == s.(etcd := s.etcd.(initialized := true, revision := s.etcd.revision + 1))
      case _ => false
  }

  // ---------------------------------------------------------------- what uniqueness asks of a raise

  // The transaction that reaches etcd in this step, if one does.
  function Lands(s: Fleet, step: Step): Option<Txn> {
    match step
    case Land(pid, _) => if pid in s.procs && HasTxn(s.procs[pid].store) then Some(s.procs[pid].store.txn) else None
    case Fail(pid, fate) =>
      if fate.AlreadyLanded? && pid in s.procs && HasTxn(s.procs[pid].store) then Some(s.procs[pid].store.txn) else None
    case LandOrphan(txn) => Some(txn)
    case _ => None
  }

  // A raise goes through only if it leaves the floor at or above all that its generation may still stamp
  // or has stamped.
  ghost predicate KeepsCover(s: Fleet, t: Txn) {
    t.RaiseTxn? && Succeeds(s.etcd, t) ==>
      && (forall pid :: pid in s.procs && s.procs[pid].lease.held.Some?
                        && s.procs[pid].lease.held.value.generation == t.generation ==>
                          s.procs[pid].lease.held.value.leaseUntilMs <= t.ceilingMs)
      && (forall e :: e in s.emitted && e.generation == t.generation ==> e.id.tsMs <= t.ceilingMs)
  }

  ghost predicate Guarded(s: Fleet, step: Step) {
    Lands(s, step).Some? ==> KeepsCover(s, Lands(s, step).value)
  }

  // What etcd itself could check: a raise that goes through does not bring the floor down.
  predicate NotLower(s: Fleet, step: Step) {
    Lands(s, step).Some? && Lands(s, step).value.RaiseTxn? && Succeeds(s.etcd, Lands(s, step).value) ==>
      OrZero(FloorOf(EntryOf(s.etcd, Lands(s, step).value.nodeId))) <= Lands(s, step).value.ceilingMs
  }

  // What the store relies on instead: a raise whose caller lives on, and may raise again, has either landed
  // by the time the caller saw it fail or never will. Any other call may land arbitrarily late.
  predicate Prompt(s: Fleet, step: Step) {
    step.Fail? && step.fate.Late? && step.pid in s.procs && HasTxn(s.procs[step.pid].store) ==>
      !s.procs[step.pid].store.txn.RaiseTxn?
  }

  // ---------------------------------------------------------------- the invariant

  // Everything stamped or reserved under `generation` of the node is covered: by the floor, and by the
  // floor each later tenure of the node claimed above.
  ghost predicate Covered(s: Fleet, nodeId: int, generation: nat, ms: int) {
    && EntryOf(s.etcd, nodeId).floor.Some? && ms <= EntryOf(s.etcd, nodeId).floor.value.ms
    && forall g :: g in s.tenures && generation < g && s.tenures[g].nodeId == nodeId ==>
                     s.tenures[g].claimFloorMs.Some? && ms <= s.tenures[g].claimFloorMs.value
  }

  ghost predicate EtcdOk(s: Fleet) {
    && (forall n :: n in s.etcd.nodes ==>
          var entry := s.etcd.nodes[n];
          && (entry.floor.Some? ==> 0 < entry.floor.value.modRevision <= s.etcd.revision)
          && (entry.owner.Some? ==>
                && var o := entry.owner.value;
                   && entry.floor.Some? && OrZero(o.claimFloorMs) <= entry.floor.value.ms && o.generation in s.tenures
                   && s.tenures[o.generation] == Tenure(n, o.claimFloorMs, o.leaseId)
                   && forall g :: g in s.tenures && s.tenures[g].nodeId == n ==> g <= o.generation))
    && (forall g :: g in s.tenures ==>
          0 < g <= s.etcd.revision && s.tenures[g].leaseId in s.leaseOwner && Leasable(s.tenures[g].nodeId))
    && (forall l :: l in s.leaseOwner ==> s.leaseOwner[l] < s.nextPid)
    && (forall pid :: pid in s.procs ==> pid < s.nextPid)
  }

  ghost predicate EmissionOk(s: Fleet, e: Emission) {
    && Covered(s, e.id.nodeId, e.generation, e.id.tsMs)
    && (e.generation != 0 ==>
          && e.generation in s.tenures && s.tenures[e.generation].nodeId == e.id.nodeId
          && OrZero(s.tenures[e.generation].claimFloorMs) < e.id.tsMs)
  }

  ghost predicate EmittedOk(s: Fleet) {
    && (forall i :: 0 <= i < |s.emitted| ==> EmissionOk(s, s.emitted[i]))
    && (forall i, j :: 0 <= i < j < |s.emitted| ==> s.emitted[i].id != s.emitted[j].id)
  }

  // No id of the generation is later than (ts, sequence).
  ghost predicate EmittedUpTo(s: Fleet, generation: nat, ts: int, sequence: int) {
    forall e :: e in s.emitted && e.generation == generation ==> !StampBefore(ts, sequence, e.id.tsMs, e.id.sequence)
  }

  ghost predicate NoneEmitted(s: Fleet, generation: nat) {
    forall e :: e in s.emitted ==> e.generation != generation
  }

  ghost predicate NoneEmittedAbove(s: Fleet, generation: nat, ms: int) {
    forall e :: e in s.emitted && e.generation == generation ==> e.id.tsMs <= ms
  }

  // A claim or a candidate entry that still matches the floor's revision read the current floor.
  ghost predicate ReadCurrent(s: Fleet, nodeId: int, modRevision: nat, floorMs: Option<int>) {
    && modRevision <= s.etcd.revision
    && (ModRevisionOf(EntryOf(s.etcd, nodeId)) == modRevision ==> FloorOf(EntryOf(s.etcd, nodeId)) == floorMs)
  }

  ghost predicate TxnOk(s: Fleet, t: Txn) {
    match t
    case ClaimTxn(n, mod, leaseId, claimFloorMs, ceilingMs) =>
      && leaseId in s.leaseOwner && Leasable(n)
      && OrZero(claimFloorMs) <= ceilingMs && ReadCurrent(s, n, mod, claimFloorMs)
    case RaiseTxn(n, g, ceilingMs) =>
      g in s.tenures && s.tenures[g].nodeId == n && OrZero(s.tenures[g].claimFloorMs) <= ceilingMs
    case DropTxn(n, g, floorMs) =>
      && g in s.tenures && s.tenures[g].nodeId == n
      && OrZero(s.tenures[g].claimFloorMs) <= floorMs && NoneEmittedAbove(s, g, floorMs)
  }

  // The generation was claimed by this process, and its lease id will not be used again.
  ghost predicate Mine(s: Fleet, pid: nat, p: Process, g: nat, nodeId: int) {
    && g in s.tenures && s.tenures[g].nodeId == nodeId
    && s.tenures[g].leaseId in s.leaseOwner && s.leaseOwner[s.tenures[g].leaseId] == pid
    && p.pending != Some(s.tenures[g].leaseId)
  }

  ghost predicate HeldOk(s: Fleet, pid: nat, p: Process, t: Tenancy) {
    && Mine(s, pid, p, t.generation, t.mint.nodeId)
    && Covered(s, t.mint.nodeId, t.generation, t.leaseUntilMs)
    && OrZero(s.tenures[t.generation].claimFloorMs) <= t.mint.floorMs
    && EmittedUpTo(s, t.generation, t.mint.lastMs, t.mint.sequence)
  }

  ghost predicate CandidatesOk(s: Fleet, free: map<int, NodeEntry>) {
    forall n :: n in free ==> Leasable(n) && ReadCurrent(s, n, ModRevisionOf(free[n]), FloorOf(free[n]))
  }

  predicate Touches(t: Txn, g: nat) {
    !t.ClaimTxn? && t.generation == g
  }

  // The generation a process acts for, while it holds it or winds it up.
  ghost predicate Carries(p: Process, g: nat) {
    || (p.lease.held.Some? && p.lease.held.value.generation == g)
    || (HasTxn(p.store) && Touches(p.store.txn, g))
    || (p.store.RejectRead? && p.store.generation == g)
    || (p.store.ReleaseRead? && p.store.request.generation == g)
  }

  ghost predicate StoreOk(s: Fleet, pid: nat, p: Process) {
    match p.store
    case Quiet => p.lease.operation.NoOperation?
    case LeaseForClaim => p.lease.operation.AcquireOp?
    case Snapshot(leaseId) => p.lease.operation.AcquireOp? && p.pending == Some(leaseId)
    case Claiming(leaseId, free) =>
      p.lease.operation.AcquireOp? && p.pending == Some(leaseId) && CandidatesOk(s, free)
    case ClaimSent(txn, _, free) =>
      && p.lease.operation.AcquireOp? && CandidatesOk(s, free)
      && txn.ClaimTxn? && p.pending == Some(txn.leaseId) && TxnOk(s, txn)
    case ReadoptSent(txn, _, claimFloorMs) =>
      && p.lease.operation.AcquireOp? && txn.RaiseTxn? && TxnOk(s, txn)
      && p.pending == Some(s.tenures[txn.generation].leaseId)
      && claimFloorMs == s.tenures[txn.generation].claimFloorMs
    case RejectRead(n, g) =>
      p.lease.operation == RejectOp(n, g) && Mine(s, pid, p, g, n) && NoneEmitted(s, g)
    case RejectSent(txn) =>
      p.lease.operation.RejectOp? && txn.DropTxn? && TxnOk(s, txn) && Mine(s, pid, p, txn.generation, txn.nodeId)
    case RenewRead(r) =>
      && p.lease.operation.RenewOp? && p.lease.held.Some?
      && r.generation == p.lease.held.value.generation && r.nodeId == p.lease.held.value.mint.nodeId
    case RenewAlive(_, txn) =>
      && p.lease.operation.RenewOp? && p.lease.held.Some? && txn.RaiseTxn? && TxnOk(s, txn)
      && txn.generation == p.lease.held.value.generation
    case RenewSent(txn) =>
      && p.lease.operation.RenewOp? && p.lease.held.Some? && txn.RaiseTxn? && TxnOk(s, txn)
      && txn.generation == p.lease.held.value.generation
    case ReleaseRead(r) =>
      && p.lease.operation.ReleaseOp? && Mine(s, pid, p, r.generation, r.nodeId)
      && NoneEmittedAbove(s, r.generation, OrZero(r.lastMs))
    case ReleaseSent(txn) =>
      p.lease.operation.ReleaseOp? && txn.DropTxn? && TxnOk(s, txn) && Mine(s, pid, p, txn.generation, txn.nodeId)
  }

  ghost predicate ProcOk(s: Fleet, pid: nat, p: Process) {
    && (p.lease.held.Some? <==> p.lease.phase == Held)
    && (p.lease.held.Some? ==> p.lease.operation.NoOperation? || p.lease.operation.RenewOp?)
    && (p.lease.held.Some? ==> HeldOk(s, pid, p, p.lease.held.value))
    && (p.pending.Some? ==>
          && p.pending.value in s.leaseOwner && s.leaseOwner[p.pending.value] == pid
          && forall g :: g in s.tenures && s.tenures[g].leaseId == p.pending.value ==> NoneEmitted(s, g))
    && StoreOk(s, pid, p)
    // A drop left behind is of a generation given up.
    && forall t, g :: t in s.orphans && t.DropTxn? && Touches(t, g) && g in s.tenures
                      && s.tenures[g].leaseId in s.leaseOwner && s.leaseOwner[s.tenures[g].leaseId] == pid ==>
                        !Carries(p, g) && p.pending != Some(s.tenures[g].leaseId)
  }

  ghost predicate OrphansOk(s: Fleet) {
    forall t :: t in s.orphans ==> TxnOk(s, t)
  }

  ghost predicate Inv(s: Fleet) {
    && EtcdOk(s)
    && EmittedOk(s)
    && OrphansOk(s)
    && forall pid :: pid in s.procs ==> ProcOk(s, pid, s.procs[pid])
  }

  // A keyspace nobody holds, whose floors cover every id ever stamped on its nodes.
  ghost predicate Init(s: Fleet) {
    && s.procs == map[] && s.orphans == {} && s.leaseOwner == map[] && s.tenures == map[]
    && (forall n :: n in s.etcd.nodes ==>
          && s.etcd.nodes[n].owner.None?
          && (s.etcd.nodes[n].floor.Some? ==> 0 < s.etcd.nodes[n].floor.value.modRevision <= s.etcd.revision))
    && (forall e :: e in s.emitted ==>
          && e.generation == 0 && EntryOf(s.etcd, e.id.nodeId).floor.Some?
          && e.id.tsMs <= EntryOf(s.etcd, e.id.nodeId).floor.value.ms)
    && (forall i, j :: 0 <= i < j < |s.emitted| ==> s.emitted[i].id != s.emitted[j].id)
  }

  lemma InitInv(s: Fleet)
    requires Init(s)
    ensures Inv(s)
  {
  }
}
