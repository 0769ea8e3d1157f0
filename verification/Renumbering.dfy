/**
 * Nothing in the protocol depends on the numbers a keyspace gives its revisions, only on which of them are
 * equal. A fleet on a keyspace that counts from low numbers moves as one whose keyspace counts on from
 * high ones, as long as nobody acts for a generation the low numbers have still to reach.
 */
module Renumbering {
  import opened Wrappers
  import opened SnowflakeCodec
  import opened NodeLeases
  import opened LeaseKeyspace
  import opened LeaseProtocol
  import opened LeaseInvariant
  import opened LeaseSafety
  import opened LeasePrompt

  // Revisions above `from` are `up` higher; the leases in `dead` are gone and so are the claims made under them.
  datatype Shift = Shift(from: nat, up: nat, dead: set<nat>)

  function Gen(k: Shift, g: nat): nat {
    if g <= k.from then g else g + k.up
  }

  // Floor keys of the keyspace are all written in the numbers it counts in; 0 is a key that is not there.
  function Mod(k: Shift, m: nat): nat {
    if m == 0 then 0 else m + k.up
  }

  function OwnerUp(k: Shift, o: Owner): Owner {
    o.(generation := Gen(k, o.generation))
  }

  function FloorUp(k: Shift, f: Floor): Floor {
    f.(modRevision := Mod(k, f.modRevision))
  }

  function EntryUp(k: Shift, entry: NodeEntry): NodeEntry {
    NodeEntry(if entry.owner.Some? then Some(OwnerUp(k, entry.owner.value)) else None,
              if entry.floor.Some? then Some(FloorUp(k, entry.floor.value)) else None)
  }

  function EtcdUp(k: Shift, e: Etcd): Etcd {
    e.(revision := e.revision + k.up, nodes := map n | n in e.nodes :: EntryUp(k, e.nodes[n]))
  }

  function TxnUp(k: Shift, t: Txn): Txn {
    match t
    case ClaimTxn(n, mod, leaseId, claimFloorMs, ceilingMs) =>
      ClaimTxn(n, Mod(k, mod), leaseId, claimFloorMs, ceilingMs)
    case RaiseTxn(n, g, ceilingMs) => RaiseTxn(n, Gen(k, g), ceilingMs)
    case DropTxn(n, g, floorMs) => DropTxn(n, Gen(k, g), floorMs)
  }

  // ---------------------------------------------------------------- what corresponds to what

  predicate IsDead(k: Shift, t: Txn) {
    t.ClaimTxn? && t.leaseId in k.dead
  }

  // A dead claim corresponds to any claim under its lease: neither can succeed.
  predicate TxnSim(k: Shift, t: Txn, t': Txn) {
    if IsDead(k, t) then t'.ClaimTxn? && t'.leaseId == t.leaseId else t' == TxnUp(k, t)
  }

  ghost predicate FreeSim(k: Shift, leaseId: nat, free: map<int, NodeEntry>, free': map<int, NodeEntry>) {
    && free'.Keys == free.Keys
    && (leaseId !in k.dead ==> forall n :: n in free ==> free'[n] == EntryUp(k, free[n]))
  }

  predicate LeaseSim(k: Shift, l: Lease, l': Lease) {
    && l'.phase == l.phase && l'.draining == l.draining && l'.retiredLastMs == l.retiredLastMs
    && (l'.operation == l.operation || (l'.operation.RejectOp? && l.operation.RejectOp?))
    && l'.held == if l.held.Some? then Some(l.held.value.(generation := Gen(k, l.held.value.generation))) else None
  }

  ghost predicate StoreSim(k: Shift, a: StoreOp, b: StoreOp) {
    match a
    case Quiet => b == a
    case LeaseForClaim => b == a
    case Snapshot(_) => b == a
    case Claiming(leaseId, free) => b.Claiming? && b.leaseId == leaseId && FreeSim(k, leaseId, free, b.free)
    case ClaimSent(txn, nowMs, free) =>
      && txn.ClaimTxn? && b.ClaimSent? && TxnSim(k, txn, b.txn) && b.nowMs == nowMs
      && FreeSim(k, txn.leaseId, free, b.free)
    case ReadoptSent(txn, nowMs, claimFloorMs) => txn.RaiseTxn? && b == ReadoptSent(TxnUp(k, txn), nowMs, claimFloorMs)
    case RejectRead(n, g) => b == RejectRead(n, Gen(k, g))
    case RejectSent(txn) => txn.DropTxn? && b == RejectSent(TxnUp(k, txn))
    case RenewRead(r) => b == RenewRead(r.(generation := Gen(k, r.generation)))
    case RenewAlive(leaseId, txn) => txn.RaiseTxn? && b == RenewAlive(leaseId, TxnUp(k, txn))
    case RenewSent(txn) => txn.RaiseTxn? && b == RenewSent(TxnUp(k, txn))
    case ReleaseRead(r) => b == ReleaseRead(r.(generation := Gen(k, r.generation)))
    case ReleaseSent(txn) => txn.DropTxn? && b == ReleaseSent(TxnUp(k, txn))
  }

  ghost predicate ProcSim(k: Shift, p: Process, q: Process) {
    LeaseSim(k, p.lease, q.lease) && q.pending == p.pending && StoreSim(k, p.store, q.store)
  }

  // The keyspace counts on from `from`, and nothing is left of the dead leases.
  ghost predicate EtcdSim(k: Shift, e: Etcd, e': Etcd) {
    e' == EtcdUp(k, e) && k.from <= e.revision && k.dead !! e.leases
  }

  ghost predicate OrphansSim(k: Shift, orphans: set<Txn>, orphans': set<Txn>) {
    forall t :: t in orphans && !IsDead(k, t) ==> TxnUp(k, t) in orphans'
  }

  ghost predicate SameIds(a: seq<Emission>, b: seq<Emission>) {
    |a| == |b| && forall i :: 0 <= i < |a| ==> a[i].id == b[i].id
  }

  ghost predicate FleetSim(k: Shift, u: Fleet, r: Fleet) {
    && EtcdSim(k, u.etcd, r.etcd) && k.dead <= u.leaseOwner.Keys && r.leaseOwner == u.leaseOwner
    && r.nextPid == u.nextPid && r.procs.Keys == u.procs.Keys
    && (forall pid :: pid in u.procs ==> ProcSim(k, u.procs[pid], r.procs[pid]))
    && OrphansSim(k, u.orphans, r.orphans) && SameIds(u.emitted, r.emitted)
  }

  // ---------------------------------------------------------------- the keyspace

  lemma EntryUpOf(k: Shift, e: Etcd, n: int)
    ensures EntryOf(EtcdUp(k, e), n) == EntryUp(k, EntryOf(e, n))
  {
  }

  lemma SucceedsAlike(k: Shift, e: Etcd, e': Etcd, t: Txn, t': Txn)
    requires EtcdSim(k, e, e') && TxnSim(k, t, t')
    ensures Succeeds(e', t') == Succeeds(e, t)
    ensures IsDead(k, t) ==> !Succeeds(e, t)
  {
    EntryUpOf(k, e, t.nodeId);
  }

  lemma ApplyAlike(k: Shift, e: Etcd, e': Etcd, t: Txn, t': Txn)
    requires EtcdSim(k, e, e') && TxnSim(k, t, t')
    ensures EtcdSim(k, Apply(e, t), Apply(e', t'))
  {
    SucceedsAlike(k, e, e', t, t');
    if Succeeds(e, t) {
      EntryUpOf(k, e, t.nodeId);
      assert Written(e', t') == EntryUp(k, Written(e, t));
      assert Apply(e', t').nodes == EtcdUp(k, Apply(e, t)).nodes;
    }
  }

  lemma ExpireAlike(k: Shift, e: Etcd, e': Etcd, leaseId: nat)
    requires EtcdSim(k, e, e')
    ensures EtcdSim(k, Expire(e, leaseId), Expire(e', leaseId))
  {
    var gone, gone' := Expire(e, leaseId), Expire(e', leaseId);
    forall n | n in e.nodes ensures gone'.nodes[n] == EntryUp(k, gone.nodes[n]) {
      assert e'.nodes[n] == EntryUp(k, e.nodes[n]);
    }
    assert gone'.nodes == EtcdUp(k, gone).nodes;
  }

  lemma LiftedEntryAlike(k: Shift, e: Etcd, e': Etcd, chunk: set<int>, nowMs: int, n: int)
    requires EtcdSim(k, e, e') && n in Lift(e, chunk, nowMs).nodes
    ensures n in Lift(e', chunk, nowMs).nodes
    ensures Lift(e', chunk, nowMs).nodes[n] == EntryUp(k, Lift(e, chunk, nowMs).nodes[n])
  {
    EntryUpOf(k, e, n);
  }

  lemma LiftAlike(k: Shift, e: Etcd, e': Etcd, chunk: set<int>, nowMs: int)
    requires EtcdSim(k, e, e') && MayLift(e, chunk)
    ensures MayLift(e', chunk) && EtcdSim(k, Lift(e, chunk, nowMs), Lift(e', chunk, nowMs))
  {
    forall n | n in chunk ensures EntryOf(e', n).owner.None? {
      EntryUpOf(k, e, n);
    }
    var up, up' := Lift(e, chunk, nowMs).nodes, Lift(e', chunk, nowMs).nodes;
    forall n | n in up ensures n in up' && up'[n] == EntryUp(k, up[n]) {
      LiftedEntryAlike(k, e, e', chunk, nowMs, n);
    }
    assert up'.Keys == up.Keys;
    assert up' == EtcdUp(k, Lift(e, chunk, nowMs)).nodes;
  }

  // ---------------------------------------------------------------- the moves of one process

  // What a process step sees of the two keyspaces.
  ghost predicate Seen(k: Shift, u: Fleet, r: Fleet) {
    EtcdSim(k, u.etcd, r.etcd) && forall n :: EntryOf(r.etcd, n) == EntryUp(k, EntryOf(u.etcd, n))
  }

  // The same step, with the lease it leaves renumbered.
  function StepUp(k: Shift, step: Step, q: Lease): Step {
    if step.Generate? then step.(after := q) else step
  }

  lemma AcquireMoveAlike(k: Shift, u: Fleet, r: Fleet, step: Step, p: Process, p': Process, q: Process)
    returns (q': Process)
    requires step.BeginAcquire? || step.UsePending? || step.ReportExhausted? || step.Drain?
    requires Seen(k, u, r) && ProcSim(k, p, q) && MovesTo(u, step, step.pid, p, p')
    ensures MovesTo(r, step, step.pid, q, q') && ProcSim(k, p', q')
  {
    match step
    case BeginAcquire(_) => q' := q.(lease := AcquireBegun(q.lease), store := LeaseForClaim);
    case UsePending(_) => q' := q.(store := Snapshot(q.pending.value));
    case ReportExhausted(_) => q' := Process(AcquireAnswered(q.lease, Answered(None), 0), None, Quiet);
    case Drain(_) => q' := q.(lease := q.lease.(draining := true));
  }

  lemma FreeAlike(k: Shift, u: Fleet, r: Fleet)
    requires Seen(k, u, r)
    ensures FreeNodes(r.etcd).Keys == FreeNodes(u.etcd).Keys
    ensures forall n :: n in FreeNodes(u.etcd) ==> FreeNodes(r.etcd)[n] == EntryUp(k, FreeNodes(u.etcd)[n])
  {
  }

  lemma SnapshotAlike(k: Shift, u: Fleet, r: Fleet, step: Step, p: Process, p': Process, q: Process)
    returns (q': Process)
    requires step.TakeSnapshot? && Seen(k, u, r) && ProcSim(k, p, q) && MovesTo(u, step, step.pid, p, p')
    ensures MovesTo(r, step, step.pid, q, q') && ProcSim(k, p', q')
  {
    FreeAlike(k, u, r);
    forall n ensures OwnedUnder(r.etcd, n, p.store.leaseId) == OwnedUnder(u.etcd, n, p.store.leaseId) {
      assert EntryOf(r.etcd, n) == EntryUp(k, EntryOf(u.etcd, n));
    }
    q' := Snapshotted(q, r.etcd, q.store.leaseId, step.own, step.nowMs, step.ttlMs);
  }

  lemma SendClaimAlike(k: Shift, u: Fleet, r: Fleet, step: Step, p: Process, p': Process, q: Process)
    returns (q': Process)
    requires step.SendClaim? && ProcSim(k, p, q) && MovesTo(u, step, step.pid, p, p')
    ensures MovesTo(r, step, step.pid, q, q') && ProcSim(k, p', q')
  {
    var n := step.nodeId;
    var txn := ClaimFor(n, q.store.free[n], q.store.leaseId, step.nowMs, step.ttlMs);
    q' := q.(store := ClaimSent(txn, step.nowMs, q.store.free - {n}));
  }

  lemma RenewMoveAlike(k: Shift, u: Fleet, r: Fleet, step: Step, p: Process, p': Process, q: Process)
    returns (q': Process)
    requires step.BeginRenew? || step.ReadForRenew? || step.KeepAlive?
    requires Seen(k, u, r) && ProcSim(k, p, q) && MovesTo(u, step, step.pid, p, p')
    ensures MovesTo(r, step, step.pid, q, q') && ProcSim(k, p', q')
  {
    match step
    case BeginRenew(_) =>
      var t := q.lease.held.value;
      q' := q.(lease := q.lease.(operation := RenewOp),
               store := RenewRead(RenewRequest(t.mint.nodeId, t.generation, t.mint.lastMs)));
    case ReadForRenew(_, nowMs, ttlMs) => q' := ReadForRenewal(q, r.etcd, nowMs, ttlMs);
    case KeepAlive(_) =>
      q' := if q.store.leaseId in r.etcd.leases then q.(store := RenewSent(q.store.txn))
            else q.(lease := RenewAnswered(q.lease, Answered(None)), store := Quiet);
  }

  lemma DropMoveAlike(k: Shift, u: Fleet, r: Fleet, step: Step, p: Process, p': Process, q: Process)
    returns (q': Process)
    requires step.ReadForReject? || step.BeginRelease? || step.ReadForRelease?
    requires Seen(k, u, r) && ProcSim(k, p, q) && MovesTo(u, step, step.pid, p, p')
    ensures MovesTo(r, step, step.pid, q, q') && ProcSim(k, p', q')
  {
    match step
    case ReadForReject(_) =>
      q' := ReadForDrop(q, r.etcd, q.store.nodeId, q.store.generation, None, txn => RejectSent(txn));
    case BeginRelease(_) => q' := ReleaseStarted(q);
    case ReadForRelease(_) =>
      var request := q.store.request;
      q' := ReadForDrop(q, r.etcd, request.nodeId, request.generation, request.lastMs, txn => ReleaseSent(txn));
  }

  lemma MoveAlike(k: Shift, u: Fleet, r: Fleet, step: Step, p: Process, p': Process, q: Process) returns (q': Process)
    requires Seen(k, u, r) && ProcSim(k, p, q) && IsProcessMove(step) && MovesTo(u, step, step.pid, p, p')
    ensures MovesTo(r, step, step.pid, q, q') && ProcSim(k, p', q')
  {
    if step.TakeSnapshot? {
      q' := SnapshotAlike(k, u, r, step, p, p', q);
    } else if step.SendClaim? {
      q' := SendClaimAlike(k, u, r, step, p, p', q);
    } else if step.BeginRenew? || step.ReadForRenew? || step.KeepAlive? {
      q' := RenewMoveAlike(k, u, r, step, p, p', q);
    } else if step.ReadForReject? || step.BeginRelease? || step.ReadForRelease? {
      q' := DropMoveAlike(k, u, r, step, p, p', q);
    } else {
      q' := AcquireMoveAlike(k, u, r, step, p, p', q);
    }
  }

  lemma GeneratesAlike(k: Shift, l: Lease, l': Lease, issued: Option<Fields>, m: Lease) returns (m': Lease)
    requires LeaseSim(k, l, m) && Generates(l, l', issued)
    ensures Generates(m, m', issued) && LeaseSim(k, l', m')
  {
    m' := if m.held.None? then m else m.(held := Some(m.held.value.(mint := l'.held.value.mint)));
  }

  // ---------------------------------------------------------------- answers

  lemma ClaimSettlesAlike(k: Shift, e: Etcd, e': Etcd, p: Process, q: Process, maxFloorAheadMs: int)
    requires EtcdSim(k, e, e') && ProcSim(k, p, q) && p.store.ClaimSent?
    ensures ProcSim(k, Settled(p, e, maxFloorAheadMs), Settled(q, e', maxFloorAheadMs))
  {
    SucceedsAlike(k, e, e', p.store.txn, q.store.txn);
  }

  lemma ReadoptSettlesAlike(k: Shift, e: Etcd, e': Etcd, p: Process, q: Process, maxFloorAheadMs: int)
    requires EtcdSim(k, e, e') && ProcSim(k, p, q) && p.store.ReadoptSent?
    ensures ProcSim(k, Settled(p, e, maxFloorAheadMs), Settled(q, e', maxFloorAheadMs))
  {
    SucceedsAlike(k, e, e', p.store.txn, q.store.txn);
  }

  lemma SettlesAlike(k: Shift, e: Etcd, e': Etcd, p: Process, q: Process, maxFloorAheadMs: int)
    requires EtcdSim(k, e, e') && ProcSim(k, p, q) && HasTxn(p.store) && (p.store.RenewSent? ==> p.lease.held.Some?)
    ensures HasTxn(q.store) && (q.store.RenewSent? ==> q.lease.held.Some?)
    ensures ProcSim(k, Settled(p, e, maxFloorAheadMs), Settled(q, e', maxFloorAheadMs))
  {
    if p.store.ClaimSent? {
      ClaimSettlesAlike(k, e, e', p, q, maxFloorAheadMs);
    } else if p.store.ReadoptSent? {
      ReadoptSettlesAlike(k, e, e', p, q, maxFloorAheadMs);
    } else {
      SucceedsAlike(k, e, e', p.store.txn, q.store.txn);
    }
  }

  lemma FailsAlike(k: Shift, p: Process, q: Process)
    requires ProcSim(k, p, q) && !p.store.Quiet? && (p.lease.operation.RenewOp? ==> p.lease.held.Some?)
    ensures !q.store.Quiet? && (q.lease.operation.RenewOp? ==> q.lease.held.Some?)
    ensures ProcSim(k, Failed(p), Failed(q))
  {
  }

  // ---------------------------------------------------------------- the steps of the fleet

  // `r'` is where the renumbered fleet gets by the same step, or stays.
  ghost predicate Mirrors(k: Shift, u': Fleet, r: Fleet, r': Fleet) {
    FleetSim(k, u', r') && (r' == r || exists step :: Next(r, step, r') && Prompt(r, step))
  }

  lemma SimSeen(k: Shift, u: Fleet, r: Fleet)
    requires EtcdSim(k, u.etcd, r.etcd)
    ensures Seen(k, u, r)
  {
    forall n ensures EntryOf(r.etcd, n) == EntryUp(k, EntryOf(u.etcd, n)) {
      EntryUpOf(k, u.etcd, n);
    }
  }

  lemma ReplacedSim(k: Shift, u: Fleet, r: Fleet, pid: nat, p: Process, q: Process)
    requires FleetSim(k, u, r) && pid in u.procs && ProcSim(k, p, q)
    ensures FleetSim(k, With(u, pid, p), With(r, pid, q))
  {
  }

  lemma LandedSim(k: Shift, u: Fleet, r: Fleet, t: Txn, t': Txn)
    requires FleetSim(k, u, r) && TxnSim(k, t, t')
    ensures FleetSim(k, Landed(u, t), Landed(r, t'))
  {
    ApplyAlike(k, u.etcd, r.etcd, t, t');
  }

  lemma MoveIs(s: Fleet, step: Step, s': Fleet)
    requires Next(s, step, s') && IsProcessMove(step)
    ensures step.pid in s.procs && step.pid in s'.procs && s' == With(s, step.pid, s'.procs[step.pid])
    ensures MovesTo(s, step, step.pid, s.procs[step.pid], s'.procs[step.pid])
  {
  }

  lemma MovedMirrors(k: Shift, u: Fleet, step: Step, p': Process, r: Fleet) returns (r': Fleet)
    requires IsProcessMove(step) && step.pid in u.procs && FleetSim(k, u, r)
    requires MovesTo(u, step, step.pid, u.procs[step.pid], p')
    ensures Mirrors(k, With(u, step.pid, p'), r, r')
  {
    SimSeen(k, u, r);
    var q' := MoveAlike(k, u, r, step, u.procs[step.pid], p', r.procs[step.pid]);
    ReplacedSim(k, u, r, step.pid, p', q');
    r' := With(r, step.pid, q');
    MovesNext(r, step, q');
  }

  lemma MoveMirrors(k: Shift, u: Fleet, step: Step, u': Fleet, r: Fleet) returns (r': Fleet)
    requires FleetSim(k, u, r) && Next(u, step, u') && IsProcessMove(step)
    ensures Mirrors(k, u', r, r')
  {
    MoveIs(u, step, u');
    r' := MovedMirrors(k, u, step, u'.procs[step.pid], r);
  }

  lemma MovesNext(r: Fleet, step: Step, q': Process)
    requires IsProcessMove(step) && step.pid in r.procs && MovesTo(r, step, step.pid, r.procs[step.pid], q')
    ensures Next(r, step, With(r, step.pid, q')) && Prompt(r, step)
  {
  }

  lemma GenerateMirrors(k: Shift, u: Fleet, step: Step, u': Fleet, r: Fleet) returns (r': Fleet)
    requires FleetSim(k, u, r) && Next(u, step, u') && step.Generate?
    ensures Mirrors(k, u', r, r')
  {
    var pid := step.pid;
    var l := GeneratesAlike(k, u.procs[pid].lease, u'.procs[pid].lease, step.issued, r.procs[pid].lease);
    var up := step.(after := l);
    r' := Generated(r, up);
    GeneratedNext(r, up);
  }

  function Generated(r: Fleet, step: Step): Fleet
    requires step.Generate? && step.pid in r.procs
  {
    var q := r.procs[step.pid];
    With(r, step.pid, q.(lease := step.after)).(
      emitted := if step.issued.Some? && q.lease.held.Some?
                 then r.emitted + [Emission(step.issued.value, q.lease.held.value.generation)] else r.emitted)
  }

  lemma GeneratedNext(r: Fleet, step: Step)
    requires step.Generate? && step.pid in r.procs && Generates(r.procs[step.pid].lease, step.after, step.issued)
    ensures Next(r, step, Generated(r, step)) && Prompt(r, step)
  {
  }

  lemma GrantMirrors(k: Shift, u: Fleet, step: Step, u': Fleet, r: Fleet) returns (r': Fleet)
    requires FleetSim(k, u, r) && Next(u, step, u') && step.GrantLease?
    ensures Mirrors(k, u', r, r')
  {
    var q := r.procs[step.pid];
    r' := With(r, step.pid, q.(pending := Some(step.leaseId), store := Snapshot(step.leaseId))).(
            leaseOwner := r.leaseOwner[step.leaseId := step.pid],
            etcd := r.etcd.(leases := r.etcd.leases + {step.leaseId}));
    assert Next(r, step, r') && Prompt(r, step);
  }

  lemma LandMirrors(k: Shift, u: Fleet, step: Step, u': Fleet, r: Fleet) returns (r': Fleet)
    requires FleetSim(k, u, r) && Next(u, step, u') && step.Land?
    ensures Mirrors(k, u', r, r')
  {
    var p, q := u.procs[step.pid], r.procs[step.pid];
    var p', q' := Settled(p, u.etcd, step.maxFloorAheadMs), Settled(q, r.etcd, step.maxFloorAheadMs);
    SettlesAlike(k, u.etcd, r.etcd, p, q, step.maxFloorAheadMs);
    LandedSim(k, u, r, p.store.txn, q.store.txn);
    ReplacedSim(k, Landed(u, p.store.txn), Landed(r, q.store.txn), step.pid, p', q');
    r' := With(Landed(r, q.store.txn), step.pid, q');
    assert Next(r, step, r') && Prompt(r, step);
  }

  lemma OrphanedAlike(k: Shift, u: Fleet, r: Fleet, t: Txn, t': Txn)
    requires OrphansSim(k, u.orphans, r.orphans) && TxnSim(k, t, t')
    ensures OrphansSim(k, u.orphans + {t}, r.orphans + {t'})
  {
  }

  // What has become of the transaction of a failed call.
  function AfterFailing(s: Fleet, op: StoreOp, fate: Fate): Fleet {
    if HasTxn(op) && fate.AlreadyLanded? then Landed(s, op.txn)
    else if HasTxn(op) && fate.Late? then s.(orphans := s.orphans + {op.txn})
    else s
  }

  lemma FatesAlike(k: Shift, u: Fleet, r: Fleet, a: StoreOp, b: StoreOp, fate: Fate)
    requires FleetSim(k, u, r) && StoreSim(k, a, b)
    ensures FleetSim(k, AfterFailing(u, a, fate), AfterFailing(r, b, fate))
  {
    if HasTxn(a) && fate.AlreadyLanded? {
      LandedSim(k, u, r, a.txn, b.txn);
    } else if HasTxn(a) && fate.Late? {
      OrphanedAlike(k, u, r, a.txn, b.txn);
    }
  }

  lemma FailIs(s: Fleet, step: Step, s': Fleet)
    requires Next(s, step, s') && step.Fail?
    ensures step.pid in s.procs && !s.procs[step.pid].store.Quiet?
    ensures var p := s.procs[step.pid];
            && (p.lease.operation.RenewOp? ==> p.lease.held.Some?)
            && s' == With(AfterFailing(s, p.store, step.fate), step.pid, Failed(p))
  {
  }

  lemma FailsNext(r: Fleet, step: Step)
    requires step.Fail? && step.pid in r.procs && !r.procs[step.pid].store.Quiet?
    requires var q := r.procs[step.pid]; q.lease.operation.RenewOp? ==> q.lease.held.Some?
    ensures var q := r.procs[step.pid];
            Next(r, step, With(AfterFailing(r, q.store, step.fate), step.pid, Failed(q)))
  {
  }

  lemma FailMirrors(k: Shift, u: Fleet, step: Step, u': Fleet, r: Fleet) returns (r': Fleet)
    requires FleetSim(k, u, r) && Next(u, step, u') && Prompt(u, step) && step.Fail?
    ensures Mirrors(k, u', r, r')
  {
    FailIs(u, step, u');
    var p, q := u.procs[step.pid], r.procs[step.pid];
    FailsAlike(k, p, q);
    FatesAlike(k, u, r, p.store, q.store, step.fate);
    var after := AfterFailing(r, q.store, step.fate);
    ReplacedSim(k, AfterFailing(u, p.store, step.fate), after, step.pid, Failed(p), Failed(q));
    r' := With(after, step.pid, Failed(q));
    FailsNext(r, step);
    assert Prompt(r, step);
  }

  lemma CrashMirrors(k: Shift, u: Fleet, step: Step, u': Fleet, r: Fleet) returns (r': Fleet)
    requires FleetSim(k, u, r) && Next(u, step, u') && step.Crash?
    ensures Mirrors(k, u', r, r')
  {
    var p, q := u.procs[step.pid], r.procs[step.pid];
    r' := r.(procs := r.procs - {step.pid}, orphans := r.orphans + InFlight(q.store));
    if HasTxn(p.store) {
      OrphanedAlike(k, u, r, p.store.txn, q.store.txn);
    }
    assert Next(r, step, r') && Prompt(r, step);
  }

  lemma TxnUpInjective(k: Shift, t: Txn, t': Txn)
    requires TxnUp(k, t) == TxnUp(k, t')
    ensures t == t'
  {
  }

  lemma FewerOrphansSim(k: Shift, u: Fleet, r: Fleet, t: Txn)
    requires FleetSim(k, u, r)
    ensures FleetSim(k, u.(orphans := u.orphans - {t}), r.(orphans := r.orphans - {TxnUp(k, t)}))
  {
    forall o | o in u.orphans - {t} && !IsDead(k, o) ensures TxnUp(k, o) in r.orphans - {TxnUp(k, t)} {
      if TxnUp(k, o) == TxnUp(k, t) {
        TxnUpInjective(k, o, t);
      }
    }
  }

  lemma OrphanLandsMirrored(k: Shift, u: Fleet, t: Txn, r: Fleet) returns (r': Fleet)
    requires FleetSim(k, u, r) && t in u.orphans
    ensures Mirrors(k, Landed(u, t).(orphans := u.orphans - {t}), r, r')
  {
    if IsDead(k, t) {
      SucceedsAlike(k, u.etcd, r.etcd, t, t);
      r' := r;
    } else {
      var up := LandOrphan(TxnUp(k, t));
      LandedSim(k, u, r, t, TxnUp(k, t));
      FewerOrphansSim(k, Landed(u, t), Landed(r, TxnUp(k, t)), t);
      r' := Landed(r, TxnUp(k, t)).(orphans := r.orphans - {TxnUp(k, t)});
      assert Next(r, up, r') && Prompt(r, up);
    }
  }

  lemma OrphanMirrors(k: Shift, u: Fleet, step: Step, u': Fleet, r: Fleet) returns (r': Fleet)
    requires FleetSim(k, u, r) && Next(u, step, u') && step.LandOrphan?
    ensures Mirrors(k, u', r, r')
  {
    r' := OrphanLandsMirrored(k, u, step.txn, r);
  }

  lemma LiftMirrored(k: Shift, u: Fleet, chunk: set<int>, nowMs: int, r: Fleet) returns (r': Fleet)
    requires FleetSim(k, u, r) && MayLift(u.etcd, chunk)
    ensures Mirrors(k, u.(etcd := Lift(u.etcd, chunk, nowMs)), r, r')
  {
    LiftAlike(k, u.etcd, r.etcd, chunk, nowMs);
    r' := r.(etcd := Lift(r.etcd, chunk, nowMs));
    assert Next(r, LiftChunk(chunk, nowMs), r') && Prompt(r, LiftChunk(chunk, nowMs));
  }

  lemma MarkMirrored(k: Shift, u: Fleet, r: Fleet) returns (r': Fleet)
    requires FleetSim(k, u, r)
    ensures Mirrors(k, u.(etcd := u.etcd.(initialized := true, revision := u.etcd.revision + 1)), r, r')
  {
    r' := r.(etcd := r.etcd.(initialized := true, revision := r.etcd.revision + 1));
    assert Next(r, MarkInitialized, r') && Prompt(r, MarkInitialized);
  }

  lemma LiftMirrors(k: Shift, u: Fleet, step: Step, u': Fleet, r: Fleet) returns (r': Fleet)
    requires FleetSim(k, u, r) && Next(u, step, u') && (step.LiftChunk? || step.MarkInitialized?)
    ensures Mirrors(k, u', r, r')
  {
    if step.LiftChunk? {
      r' := LiftMirrored(k, u, step.chunk, step.nowMs, r);
    } else {
      r' := MarkMirrored(k, u, r);
    }
  }

  lemma KeyspaceMirrors(k: Shift, u: Fleet, step: Step, u': Fleet, r: Fleet) returns (r': Fleet)
    requires FleetSim(k, u, r) && Next(u, step, u') && (step.ExpireLease? || step.Spawn?)
    ensures Mirrors(k, u', r, r')
  {
    if step.ExpireLease? {
      ExpireAlike(k, u.etcd, r.etcd, step.leaseId);
      r' := r.(etcd := Expire(r.etcd, step.leaseId));
    } else {
      r' := r.(procs := r.procs[r.nextPid := Process(FRESH_LEASE, None, Quiet)], nextPid := r.nextPid + 1);
    }
    assert Next(r, step, r') && Prompt(r, step);
  }

  lemma ActorMirrors(k: Shift, u: Fleet, step: Step, u': Fleet, r: Fleet) returns (r': Fleet)
    requires FleetSim(k, u, r) && Next(u, step, u') && Prompt(u, step)
    requires step.Generate? || step.GrantLease? || step.Land? || step.Fail?
    ensures Mirrors(k, u', r, r')
  {
    if step.Generate? {
      r' := GenerateMirrors(k, u, step, u', r);
    } else if step.GrantLease? {
      r' := GrantMirrors(k, u, step, u', r);
    } else if step.Land? {
      r' := LandMirrors(k, u, step, u', r);
    } else {
      r' := FailMirrors(k, u, step, u', r);
    }
  }

  lemma OtherMirrors(k: Shift, u: Fleet, step: Step, u': Fleet, r: Fleet) returns (r': Fleet)
    requires FleetSim(k, u, r) && Next(u, step, u')
    requires !IsProcessMove(step) && !step.Generate? && !step.GrantLease? && !step.Land? && !step.Fail?
    ensures Mirrors(k, u', r, r')
  {
    if step.Crash? {
      r' := CrashMirrors(k, u, step, u', r);
    } else if step.LandOrphan? {
      r' := OrphanMirrors(k, u, step, u', r);
    } else if step.LiftChunk? || step.MarkInitialized? {
      r' := LiftMirrors(k, u, step, u', r);
    } else {
      r' := KeyspaceMirrors(k, u, step, u', r);
    }
  }

  /** Every step of the fleet is a step of the renumbered fleet, or changes nothing there. */
  lemma StepMirrors(k: Shift, u: Fleet, step: Step, u': Fleet, r: Fleet) returns (r': Fleet)
    requires FleetSim(k, u, r) && Next(u, step, u') && Prompt(u, step)
    ensures Mirrors(k, u', r, r')
  {
    if IsProcessMove(step) {
      r' := MoveMirrors(k, u, step, u', r);
    } else if step.Generate? || step.GrantLease? || step.Land? || step.Fail? {
      r' := ActorMirrors(k, u, step, u', r);
    } else {
      r' := OtherMirrors(k, u, step, u', r);
    }
  }

  lemma MirrorStaysSound(k: Shift, u': Fleet, r: Fleet, r': Fleet)
    requires Sound(r) && Mirrors(k, u', r, r')
    ensures Sound(r')
  {
    if r' != r {
      var step :| Next(r, step, r') && Prompt(r, step);
      PromptStepKeepsSound(r, step, r');
    }
  }

  lemma {:induction false} ChainMirrors(k: Shift, states: seq<Fleet>, steps: seq<Step>, r: Fleet, i: nat)
    returns (r': Fleet)
    requires IsChain(states, steps) && IsPrompt(states, steps) && FleetSim(k, states[0], r) && Sound(r) && i < |states|
    ensures FleetSim(k, states[i], r') && Sound(r')
  {
    if i == 0 {
      r' := r;
    } else {
      var r1 := ChainMirrors(k, states, steps, r, i - 1);
      r' := StepMirrors(k, states[i - 1], steps[i - 1], states[i], r1);
      MirrorStaysSound(k, states[i], r1, r');
    }
  }

  /** So a fleet that a sound one mirrors never repeats an id, on whatever prompt run. */
  lemma MirroredRunsStayDistinct(k: Shift, states: seq<Fleet>, steps: seq<Step>, r: Fleet, i: nat)
    requires IsChain(states, steps) && IsPrompt(states, steps) && FleetSim(k, states[0], r) && Sound(r) && i < |states|
    ensures AllDistinct(states[i].emitted)
  {
    var r' := ChainMirrors(k, states, steps, r, i);
    InvDistinct(r');
  }
}
