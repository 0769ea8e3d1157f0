/** The invariant of the fleet survives every step. */
module LeaseInvariant {
  import opened Wrappers
  import opened SnowflakeCodec
  import opened SnowflakeGenerators
  import opened NodeLeases
  import opened LeaseKeyspace
  import opened LeaseProtocol

  // ---------------------------------------------------------------- a changed keyspace

  // `s'` differs from `s` in etcd, and perhaps in tenures claimed or leases granted since.
  ghost predicate KeyspaceMoved(s: Fleet, s': Fleet) {
    && s' == s.(etcd := s'.etcd, tenures := s'.tenures, leaseOwner := s'.leaseOwner)
    && s.etcd.revision <= s'.etcd.revision
    && (forall g :: g in s.tenures ==> g in s'.tenures && s'.tenures[g] == s.tenures[g])
    && (forall g :: g in s'.tenures && g !in s.tenures ==> s.etcd.revision < g <= s'.etcd.revision)
    && (forall l :: l in s.leaseOwner ==> l in s'.leaseOwner && s'.leaseOwner[l] == s.leaseOwner[l])
  }

  ghost predicate CandidatesKept(s: Fleet, s': Fleet) {
    forall n, mod, floor :: Leasable(n) && ReadCurrent(s, n, mod, floor) ==> ReadCurrent(s', n, mod, floor)
  }

  // A transaction in flight from some process, about to be sent by one, or left behind.
  predicate Holds(op: StoreOp, t: Txn) {
    (HasTxn(op) && op.txn == t) || (op.RenewAlive? && op.txn == t)
  }

  ghost predicate InPlay(s: Fleet, t: Txn) {
    t in s.orphans || exists pid :: pid in s.procs && Holds(s.procs[pid].store, t)
  }

  ghost predicate HeldCovered(s: Fleet, p: Process) {
    p.lease.held.Some? ==>
      var t := p.lease.held.value; Covered(s, t.mint.nodeId, t.generation, t.leaseUntilMs)
  }

  lemma ProcKept(s: Fleet, s': Fleet, pid: nat, p: Process)
    requires KeyspaceMoved(s, s') && CandidatesKept(s, s') && EtcdOk(s) && EmittedOk(s) && OrphansOk(s)
    requires ProcOk(s, pid, p) && HeldCovered(s', p)
    requires forall t :: Holds(p.store, t) && TxnOk(s, t) ==> TxnOk(s', t)
    ensures ProcOk(s', pid, p)
  {
    assert forall e :: e in s.emitted && e.generation != 0 ==> e.generation in s.tenures;
    assert forall t, g :: t in s.orphans && Touches(t, g) ==> g in s.tenures;
  }

  lemma KeyspaceInv(s: Fleet, s': Fleet)
    requires Inv(s) && KeyspaceMoved(s, s') && CandidatesKept(s, s') && EtcdOk(s')
    requires forall i :: 0 <= i < |s.emitted| ==> EmissionOk(s', s.emitted[i])
    requires forall t :: InPlay(s, t) && TxnOk(s, t) ==> TxnOk(s', t)
    requires forall pid :: pid in s.procs ==> HeldCovered(s', s.procs[pid])
    ensures Inv(s')
  {
    forall pid | pid in s'.procs ensures ProcOk(s', pid, s'.procs[pid]) {
      assert forall t :: Holds(s.procs[pid].store, t) ==> InPlay(s, t);
      ProcKept(s, s', pid, s.procs[pid]);
    }
    assert forall t :: t in s.orphans ==> InPlay(s, t);
  }

  // ---------------------------------------------------------------- landing a transaction

  lemma LandedMoves(s: Fleet, t: Txn)
    requires Inv(s) && TxnOk(s, t)
    ensures KeyspaceMoved(s, Landed(s, t)) && CandidatesKept(s, Landed(s, t)) && EtcdOk(Landed(s, t))
  {
    var s' := Landed(s, t);
    if t.ClaimTxn? && Succeeds(s.etcd, t) {
      assert forall g :: g in s.tenures ==> g <= s.etcd.revision;
    }
  }

  // A claim found the floor it read, so everything earlier lies at or below the floor it starts above.
  lemma ClaimCovers(s: Fleet, t: Txn, nodeId: int, generation: nat, ms: int)
    requires Inv(s) && TxnOk(s, t) && t.ClaimTxn? && Covered(s, nodeId, generation, ms)
    ensures Covered(Landed(s, t), nodeId, generation, ms)
  {
  }

  // A generation that stamps on the node: one that claimed it, or 0 for ids older than the keyspace.
  ghost predicate StampsOn(s: Fleet, generation: nat, nodeId: int) {
    generation == 0 || (generation in s.tenures && s.tenures[generation].nodeId == nodeId)
  }

  // A raise leaves the floor over its own generation, and never below what it claimed above.
  lemma RaiseCovers(s: Fleet, t: Txn, nodeId: int, generation: nat, ms: int)
    requires Inv(s) && TxnOk(s, t) && t.RaiseTxn? && Covered(s, nodeId, generation, ms)
    requires generation == t.generation && Succeeds(s.etcd, t) ==> ms <= t.ceilingMs
    requires StampsOn(s, generation, nodeId)
    ensures Covered(Landed(s, t), nodeId, generation, ms)
  {
    if Succeeds(s.etcd, t) && nodeId == t.nodeId && generation != t.generation {
      assert s.etcd.nodes[nodeId].owner.value.generation == t.generation;
      assert generation < t.generation && t.generation in s.tenures;
    }
  }

  // A drop brings the floor down no further than the claim floor, which covers every earlier tenure.
  lemma DropCovers(s: Fleet, t: Txn, nodeId: int, generation: nat, ms: int)
    requires Inv(s) && TxnOk(s, t) && t.DropTxn? && Covered(s, nodeId, generation, ms)
    requires generation == t.generation ==> ms <= t.floorMs
    requires StampsOn(s, generation, nodeId)
    ensures Covered(Landed(s, t), nodeId, generation, ms)
  {
    if Succeeds(s.etcd, t) && nodeId == t.nodeId && generation != t.generation {
      assert s.etcd.nodes[nodeId].owner.value.generation == t.generation;
      assert generation < t.generation && t.generation in s.tenures;
    }
  }

  // The process an etcd lease was granted to, and so the only one that acts under its tenures.
  ghost predicate ActsFor(s: Fleet, pid: nat, g: nat) {
    && g in s.tenures && s.tenures[g].leaseId in s.leaseOwner && s.leaseOwner[s.tenures[g].leaseId] == pid
  }

  lemma TxnKept(s: Fleet, t: Txn, u: Txn)
    requires Inv(s) && TxnOk(s, t) && TxnOk(s, u)
    ensures TxnOk(Landed(s, t), u)
  {
    LandedMoves(s, t);
  }

  lemma HeldKept(s: Fleet, t: Txn, pid: nat)
    requires Inv(s) && InPlay(s, t) && TxnOk(s, t) && KeepsCover(s, t) && pid in s.procs
    ensures HeldCovered(Landed(s, t), s.procs[pid])
  {
    var p := s.procs[pid];
    assert ProcOk(s, pid, p);
    if p.lease.held.Some? {
      var h := p.lease.held.value;
      match t
      case ClaimTxn(_, _, _, _, _) => ClaimCovers(s, t, h.mint.nodeId, h.generation, h.leaseUntilMs);
      case RaiseTxn(_, _, _) => RaiseCovers(s, t, h.mint.nodeId, h.generation, h.leaseUntilMs);
      case DropTxn(_, g, _) =>
        DropIsUnheld(s, t, pid);
        DropCovers(s, t, h.mint.nodeId, h.generation, h.leaseUntilMs);
    }
  }

  // Nobody holds the generation a drop is sent for.
  lemma DropIsUnheld(s: Fleet, t: Txn, pid: nat)
    requires Inv(s) && InPlay(s, t) && t.DropTxn? && TxnOk(s, t) && pid in s.procs
    ensures !(s.procs[pid].lease.held.Some? && s.procs[pid].lease.held.value.generation == t.generation)
  {
    assert Touches(t, t.generation);
    assert ProcOk(s, pid, s.procs[pid]);
    if t !in s.orphans {
      var q :| q in s.procs && Holds(s.procs[q].store, t);
      assert ProcOk(s, q, s.procs[q]);
    }
  }

  lemma EmissionKept(s: Fleet, t: Txn, e: Emission)
    requires Inv(s) && TxnOk(s, t) && KeepsCover(s, t) && e in s.emitted
    ensures EmissionOk(Landed(s, t), e)
  {
    assert EmissionOk(s, e);
    LandedMoves(s, t);
    match t
    case ClaimTxn(_, _, _, _, _) => ClaimCovers(s, t, e.id.nodeId, e.generation, e.id.tsMs);
    case RaiseTxn(_, _, _) => RaiseCovers(s, t, e.id.nodeId, e.generation, e.id.tsMs);
    case DropTxn(_, _, _) => DropCovers(s, t, e.id.nodeId, e.generation, e.id.tsMs);
  }

  lemma InPlayOk(s: Fleet, t: Txn)
    requires Inv(s) && InPlay(s, t)
    ensures TxnOk(s, t)
  {
    if t !in s.orphans {
      var q :| q in s.procs && Holds(s.procs[q].store, t);
      assert ProcOk(s, q, s.procs[q]);
    }
  }

  // The invariant already covers a transaction that lands while its caller still waits for the answer.
  lemma LandedInv(s: Fleet, t: Txn)
    requires Inv(s) && InPlay(s, t) && KeepsCover(s, t)
    ensures Inv(Landed(s, t))
  {
    InPlayOk(s, t);
    LandedMoves(s, t);
    forall u | InPlay(s, u) && TxnOk(s, u) ensures TxnOk(Landed(s, t), u) {
      TxnKept(s, t, u);
    }
    forall i | 0 <= i < |s.emitted| ensures EmissionOk(Landed(s, t), s.emitted[i]) {
      EmissionKept(s, t, s.emitted[i]);
    }
    forall pid | pid in s.procs ensures HeldCovered(Landed(s, t), s.procs[pid]) {
      HeldKept(s, t, pid);
    }
    KeyspaceInv(s, Landed(s, t));
  }

  // ---------------------------------------------------------------- the other keyspace steps

  lemma ExpiredInv(s: Fleet, leaseId: nat)
    requires Inv(s)
    ensures Inv(s.(etcd := Expire(s.etcd, leaseId)))
  {
    var s' := s.(etcd := Expire(s.etcd, leaseId));
    forall n ensures EntryOf(s'.etcd, n).floor == EntryOf(s.etcd, n).floor {
    }
    KeyspaceInv(s, s');
  }

  // A lift only raises floors, and only of nodes nobody holds.
  lemma LiftMoves(s: Fleet, chunk: set<int>, nowMs: int, s': Fleet)
    requires EtcdOk(s) && MayLift(s.etcd, chunk) && s' == s.(etcd := Lift(s.etcd, chunk, nowMs))
    ensures EtcdOk(s') && KeyspaceMoved(s, s') && CandidatesKept(s, s')
  {
    forall n ensures EntryOf(s'.etcd, n) == EntryOf(s.etcd, n) || n in chunk {
      LiftAt(s.etcd, chunk, nowMs, n);
    }
    forall n | n in chunk ensures n in s'.etcd.nodes && ModRevisionOf(EntryOf(s'.etcd, n)) == s'.etcd.revision {
      LiftAt(s.etcd, chunk, nowMs, n);
    }
    forall n | n in s'.etcd.nodes && n !in chunk ensures n in s.etcd.nodes && s'.etcd.nodes[n] == s.etcd.nodes[n] {
      LiftAt(s.etcd, chunk, nowMs, n);
    }
  }

  lemma LiftedInv(s: Fleet, chunk: set<int>, nowMs: int)
    requires Inv(s) && MayLift(s.etcd, chunk)
    ensures Inv(s.(etcd := Lift(s.etcd, chunk, nowMs)))
  {
    var s' := s.(etcd := Lift(s.etcd, chunk, nowMs));
    LiftMoves(s, chunk, nowMs, s');
    forall t | TxnOk(s, t) ensures TxnOk(s', t) {
      LiftAt(s.etcd, chunk, nowMs, t.nodeId);
    }
    forall n, g, ms | Covered(s, n, g, ms) ensures Covered(s', n, g, ms) {
      LiftAt(s.etcd, chunk, nowMs, n);
    }
    CoveredInv(s, s');
  }

  // When every transaction and every cover is kept, so is the invariant.
  lemma CoveredInv(s: Fleet, s': Fleet)
    requires Inv(s) && KeyspaceMoved(s, s') && CandidatesKept(s, s') && EtcdOk(s')
    requires forall t :: TxnOk(s, t) ==> TxnOk(s', t)
    requires forall n, g, ms :: Covered(s, n, g, ms) ==> Covered(s', n, g, ms)
    ensures Inv(s')
  {
    forall i | 0 <= i < |s.emitted| ensures EmissionOk(s', s.emitted[i]) {
      assert EmissionOk(s, s.emitted[i]);
    }
    forall pid | pid in s.procs ensures HeldCovered(s', s.procs[pid]) {
      assert ProcOk(s, pid, s.procs[pid]);
    }
    KeyspaceInv(s, s');
  }

  lemma MarkedInv(s: Fleet)
    requires Inv(s)
    ensures Inv(s.(etcd := s.etcd.(initialized := true, revision := s.etcd.revision + 1)))
  {
    KeyspaceInv(s, s.(etcd := s.etcd.(initialized := true, revision := s.etcd.revision + 1)));
  }

  // ---------------------------------------------------------------- steps of one process

  lemma ProcSame(s: Fleet, s': Fleet, pid: nat, p: Process)
    requires ProcOk(s, pid, p)
    requires s' == s.(procs := s'.procs, nextPid := s'.nextPid)
    ensures ProcOk(s', pid, p)
  {
  }

  lemma ReplacedInv(s: Fleet, pid: nat, p: Process)
    requires Inv(s) && pid in s.procs && ProcOk(s, pid, p)
    ensures Inv(With(s, pid, p))
  {
    var s' := With(s, pid, p);
    forall q | q in s'.procs ensures ProcOk(s', q, s'.procs[q]) {
      ProcSame(s, s', q, if q == pid then p else s.procs[q]);
    }
  }

  // An id is new: later than its own tenure's ids, above every earlier tenure, below every later one.
  lemma IssuedIsNew(s: Fleet, pid: nat, after: Lease, id: Fields)
    requires Inv(s) && pid in s.procs && Generates(s.procs[pid].lease, after, Some(id))
    ensures EmissionOk(s, Emission(id, s.procs[pid].lease.held.value.generation))
    ensures forall e :: e in s.emitted ==> e.id != id
  {
    var p := s.procs[pid];
    assert ProcOk(s, pid, p);
    var t := p.lease.held.value;
    forall e | e in s.emitted ensures e.id != id {
      assert EmissionOk(s, e);
    }
  }

  // Emissions of one generation say nothing about transactions of another, nor about claims and raises.
  lemma TxnKeptByEmission(s: Fleet, s': Fleet, e: Emission, t: Txn)
    requires s' == s.(procs := s'.procs, emitted := s.emitted + [e]) && TxnOk(s, t)
    requires t.DropTxn? ==> t.generation != e.generation
    ensures TxnOk(s', t)
  {
  }

  // The process that acts for another generation is not concerned.
  lemma EmittedElsewhere(s: Fleet, s': Fleet, e: Emission, q: nat, p: Process)
    requires s' == s.(procs := s'.procs, emitted := s.emitted + [e])
    requires ProcOk(s, q, p) && e.generation in s.tenures && !ActsFor(s, q, e.generation)
    ensures ProcOk(s', q, p)
  {
    forall t | Holds(p.store, t) && TxnOk(s, t) ensures TxnOk(s', t) {
      TxnKeptByEmission(s, s', e, t);
    }
  }

  lemma EmittedHere(s: Fleet, s': Fleet, e: Emission, pid: nat, p: Process)
    requires s' == s.(procs := s'.procs, emitted := s.emitted + [e])
    requires ProcOk(s, pid, p) && p.lease.held.Some? && p.lease.held.value.generation == e.generation
    requires !StampBefore(p.lease.held.value.mint.lastMs, p.lease.held.value.mint.sequence, e.id.tsMs, e.id.sequence)
    ensures ProcOk(s', pid, p)
  {
    forall t | Holds(p.store, t) && TxnOk(s, t) ensures TxnOk(s', t) {
      TxnKeptByEmission(s, s', e, t);
    }
  }

  // The mint of a held lease moved forward; nothing else about the process changed.
  lemma MintedProc(s: Fleet, pid: nat, p: Process, after: Lease, issued: Option<Fields>)
    requires ProcOk(s, pid, p) && Generates(p.lease, after, issued)
    ensures ProcOk(s, pid, p.(lease := after))
  {
    if p.lease.held.Some? {
      var t, t' := p.lease.held.value, after.held.value;
      forall e | e in s.emitted && e.generation == t.generation
        ensures !StampBefore(t'.mint.lastMs, t'.mint.sequence, e.id.tsMs, e.id.sequence)
      {
      }
      assert HeldOk(s, pid, p.(lease := after), t');
      assert forall g :: Carries(p.(lease := after), g) ==> Carries(p, g);
    }
  }

  lemma OneMoreEmitted(s: Fleet, s': Fleet, e: Emission)
    requires EmittedOk(s) && s' == s.(procs := s'.procs, emitted := s.emitted + [e]) && EmissionOk(s', e)
    requires forall d :: d in s.emitted ==> d.id != e.id
    ensures EmittedOk(s')
  {
    forall i | 0 <= i < |s.emitted| ensures EmissionOk(s', s.emitted[i]) && s.emitted[i].id != e.id {
      assert EmissionOk(s, s.emitted[i]) && s.emitted[i] in s.emitted;
    }
  }

  lemma OrphansKeptByEmission(s: Fleet, s': Fleet, pid: nat, e: Emission)
    requires Inv(s) && s' == s.(procs := s'.procs, emitted := s.emitted + [e])
    requires pid in s.procs && Carries(s.procs[pid], e.generation) && ActsFor(s, pid, e.generation)
    ensures OrphansOk(s')
  {
    assert ProcOk(s, pid, s.procs[pid]);
    forall t | t in s.orphans ensures TxnOk(s', t) {
      if t.DropTxn? { assert Touches(t, t.generation); }
      TxnKeptByEmission(s, s', e, t);
    }
  }

  lemma IssuedInv(s: Fleet, step: Step, s': Fleet)
    requires Inv(s) && step.Generate? && step.issued.Some? && Next(s, step, s')
    requires ProcOk(s, step.pid, s'.procs[step.pid])
    requires forall g :: Carries(s'.procs[step.pid], g) ==> Carries(s.procs[step.pid], g)
    ensures Inv(s')
  {
    var Generate(pid, after, issued) := step;
    var p, p' := s.procs[pid], s'.procs[pid];
    var e := Emission(issued.value, p.lease.held.value.generation);
    IssuedIsNew(s, pid, after, issued.value);
    OneMoreEmitted(s, s', e);
    OrphansKeptByEmission(s, s', pid, e);
    forall q | q in s'.procs ensures ProcOk(s', q, s'.procs[q]) {
      if q == pid {
        EmittedHere(s, s', e, pid, p');
      } else {
        assert ProcOk(s, q, s.procs[q]);
        EmittedElsewhere(s, s', e, q, s.procs[q]);
      }
    }
  }

  lemma GeneratedInv(s: Fleet, step: Step, s': Fleet)
    requires Inv(s) && step.Generate? && Next(s, step, s')
    ensures Inv(s')
  {
    var Generate(pid, after, issued) := step;
    assert ProcOk(s, pid, s.procs[pid]);
    MintedProc(s, pid, s.procs[pid], after, issued);
    if issued.None? {
      ReplacedInv(s, pid, s'.procs[pid]);
    } else {
      IssuedInv(s, step, s');
    }
  }

  // A grant under a generation claimed by this process, with nothing minted yet.
  lemma GrantedProc(s: Fleet, pid: nat, p: Process, g: Grant, maxFloorAheadMs: int)
    requires ProcOk(s, pid, p) && p.lease.operation.AcquireOp?
    requires Mine(s, pid, p.(pending := None), g.generation, g.nodeId) && NoneEmitted(s, g.generation)
    requires OrZero(s.tenures[g.generation].claimFloorMs) <= OrZero(g.floorMs)
    requires Covered(s, g.nodeId, g.generation, g.leaseUntilMs)
    requires forall t :: t in s.orphans && t.DropTxn? ==> !Touches(t, g.generation)
    ensures ProcOk(s, pid, Granted(p, g, maxFloorAheadMs))
  {
  }

  lemma AcquiringProc(s: Fleet, step: Step, pid: nat, p: Process, p': Process)
    requires Inv(s) && ProcOk(s, pid, p) && MovesTo(s, step, pid, p, p')
    requires step.BeginAcquire? || step.UsePending? || step.ReportExhausted?
    ensures ProcOk(s, pid, p')
  {
  }

  lemma SendingClaimProc(s: Fleet, step: Step, pid: nat, p: Process, p': Process)
    requires Inv(s) && ProcOk(s, pid, p) && MovesTo(s, step, pid, p, p')
    requires step.SendClaim?
    ensures ProcOk(s, pid, p')
  {
  }

  lemma SnapshotProc(s: Fleet, step: Step, pid: nat, p: Process, p': Process)
    requires Inv(s) && ProcOk(s, pid, p) && MovesTo(s, step, pid, p, p')
    requires step.TakeSnapshot?
    ensures ProcOk(s, pid, p')
  {
  }

  lemma RenewingProc(s: Fleet, step: Step, pid: nat, p: Process, p': Process)
    requires Inv(s) && ProcOk(s, pid, p) && MovesTo(s, step, pid, p, p')
    requires step.Drain? || step.BeginRenew?
    ensures ProcOk(s, pid, p')
  {
  }

  lemma KeepingAliveProc(s: Fleet, step: Step, pid: nat, p: Process, p': Process)
    requires Inv(s) && ProcOk(s, pid, p) && MovesTo(s, step, pid, p, p')
    requires step.KeepAlive?
    ensures ProcOk(s, pid, p')
  {
  }

  lemma ReadForRenewProc(s: Fleet, step: Step, pid: nat, p: Process, p': Process)
    requires Inv(s) && ProcOk(s, pid, p) && MovesTo(s, step, pid, p, p')
    requires step.ReadForRenew?
    ensures ProcOk(s, pid, p')
  {
  }

  lemma ReleasingProc(s: Fleet, step: Step, pid: nat, p: Process, p': Process)
    requires Inv(s) && ProcOk(s, pid, p) && MovesTo(s, step, pid, p, p')
    requires step.BeginRelease?
    ensures ProcOk(s, pid, p')
  {
  }

  lemma RejectingProc(s: Fleet, step: Step, pid: nat, p: Process, p': Process)
    requires Inv(s) && ProcOk(s, pid, p) && MovesTo(s, step, pid, p, p')
    requires step.ReadForReject?
    ensures ProcOk(s, pid, p')
  {
  }

  lemma DroppingProc(s: Fleet, step: Step, pid: nat, p: Process, p': Process)
    requires Inv(s) && ProcOk(s, pid, p) && MovesTo(s, step, pid, p, p')
    requires step.ReadForRelease?
    ensures ProcOk(s, pid, p')
  {
  }

  lemma AcquireSideProc(s: Fleet, step: Step, pid: nat, p: Process, p': Process)
    requires Inv(s) && ProcOk(s, pid, p) && MovesTo(s, step, pid, p, p')
    requires step.BeginAcquire? || step.UsePending? || step.TakeSnapshot? || step.SendClaim? || step.ReportExhausted?
    ensures ProcOk(s, pid, p')
  {
    if step.TakeSnapshot? {
      SnapshotProc(s, step, pid, p, p');
    } else if step.SendClaim? {
      SendingClaimProc(s, step, pid, p, p');
    } else {
      AcquiringProc(s, step, pid, p, p');
    }
  }

  lemma HolderSideProc(s: Fleet, step: Step, pid: nat, p: Process, p': Process)
    requires Inv(s) && ProcOk(s, pid, p) && MovesTo(s, step, pid, p, p')
    requires step.Drain? || step.BeginRenew? || step.KeepAlive? || step.ReadForRenew? || step.BeginRelease?
             || step.ReadForReject? || step.ReadForRelease?
    ensures ProcOk(s, pid, p')
  {
    if step.ReadForRenew? {
      ReadForRenewProc(s, step, pid, p, p');
    } else if step.BeginRelease? {
      ReleasingProc(s, step, pid, p, p');
    } else if step.ReadForReject? {
      RejectingProc(s, step, pid, p, p');
    } else if step.ReadForRelease? {
      DroppingProc(s, step, pid, p, p');
    } else if step.KeepAlive? {
      KeepingAliveProc(s, step, pid, p, p');
    } else {
      RenewingProc(s, step, pid, p, p');
    }
  }

  // ---------------------------------------------------------------- answers and failures

  // After the transaction of `pid` has landed, everything known of the process still holds.
  lemma LandedProc(s: Fleet, pid: nat)
    requires Inv(s) && pid in s.procs && HasTxn(s.procs[pid].store) && KeepsCover(s, s.procs[pid].store.txn)
    ensures Inv(Landed(s, s.procs[pid].store.txn))
    ensures ProcOk(s, pid, s.procs[pid]) && ProcOk(Landed(s, s.procs[pid].store.txn), pid, s.procs[pid])
  {
    var t := s.procs[pid].store.txn;
    assert InPlay(s, t);
    LandedInv(s, t);
    assert Landed(s, t).procs[pid] == s.procs[pid];
  }

  // A generation that has just been claimed is one nobody has minted under or left a transaction for.
  lemma ClaimedIsFresh(s: Fleet, t: Txn, g: nat)
    requires Inv(s) && s.etcd.revision < g
    ensures NoneEmitted(Landed(s, t), g)
    ensures forall u :: u in s.orphans ==> !Touches(u, g)
  {
    assert forall e :: e in s.emitted ==> EmissionOk(s, e);
    assert forall u :: u in s.orphans ==> TxnOk(s, u);
  }

  lemma ClaimWonProc(s: Fleet, pid: nat, p: Process, maxFloorAheadMs: int)
    requires Inv(s) && p.store.ClaimSent? && ProcOk(s, pid, p) && ProcOk(Landed(s, p.store.txn), pid, p)
    requires Succeeds(s.etcd, p.store.txn)
    ensures ProcOk(Landed(s, p.store.txn), pid, Settled(p, s.etcd, maxFloorAheadMs))
  {
    var t := p.store.txn;
    var g := Grant(t.nodeId, s.etcd.revision + 1, t.claimFloorMs, t.ceilingMs, p.store.nowMs);
    ClaimedIsFresh(s, t, g.generation);
    assert Covered(Landed(s, t), g.nodeId, g.generation, g.leaseUntilMs);
    GrantedProc(Landed(s, t), pid, p, g, maxFloorAheadMs);
  }

  lemma ClaimLostProc(s: Fleet, pid: nat, p: Process, maxFloorAheadMs: int)
    requires p.store.ClaimSent? && ProcOk(s, pid, p)
    requires !Succeeds(s.etcd, p.store.txn)
    ensures ProcOk(s, pid, Settled(p, s.etcd, maxFloorAheadMs))
  {
  }

  lemma ReadoptSettledProc(s: Fleet, pid: nat, p: Process, maxFloorAheadMs: int)
    requires p.store.ReadoptSent? && ProcOk(s, pid, p) && ProcOk(Landed(s, p.store.txn), pid, p)
    requires EtcdOk(s)
    ensures ProcOk(Landed(s, p.store.txn), pid, Settled(p, s.etcd, maxFloorAheadMs))
  {
    var t := p.store.txn;
    if Succeeds(s.etcd, t) {
      var g := Grant(t.nodeId, t.generation, p.store.claimFloorMs, t.ceilingMs, p.store.nowMs);
      GrantedProc(Landed(s, t), pid, p, g, maxFloorAheadMs);
    }
  }

  lemma RenewSettledProc(s: Fleet, pid: nat, p: Process, maxFloorAheadMs: int)
    requires p.store.RenewSent? && ProcOk(s, pid, p) && ProcOk(Landed(s, p.store.txn), pid, p)
    requires EtcdOk(s) && p.lease.held.Some?
    ensures ProcOk(Landed(s, p.store.txn), pid, Settled(p, s.etcd, maxFloorAheadMs))
  {
  }

  lemma DropSettledProc(s: Fleet, pid: nat, p: Process, maxFloorAheadMs: int)
    requires (p.store.RejectSent? || p.store.ReleaseSent?) && ProcOk(Landed(s, p.store.txn), pid, p)
    ensures ProcOk(Landed(s, p.store.txn), pid, Settled(p, s.etcd, maxFloorAheadMs))
  {
  }

  lemma ClaimSettledProc(s: Fleet, pid: nat, p: Process, maxFloorAheadMs: int)
    requires Inv(s) && ProcOk(s, pid, p) && p.store.ClaimSent? && ProcOk(Landed(s, p.store.txn), pid, p)
    ensures ProcOk(Landed(s, p.store.txn), pid, Settled(p, s.etcd, maxFloorAheadMs))
  {
    if Succeeds(s.etcd, p.store.txn) {
      ClaimWonProc(s, pid, p, maxFloorAheadMs);
    } else {
      ClaimLostProc(s, pid, p, maxFloorAheadMs);
    }
  }

  lemma SettledProc(s: Fleet, pid: nat, p: Process, maxFloorAheadMs: int)
    requires Inv(s) && ProcOk(s, pid, p) && HasTxn(p.store) && ProcOk(Landed(s, p.store.txn), pid, p)
    requires p.store.RenewSent? ==> p.lease.held.Some?
    ensures ProcOk(Landed(s, p.store.txn), pid, Settled(p, s.etcd, maxFloorAheadMs))
  {
    match p.store
    case ClaimSent(_, _, _) => ClaimSettledProc(s, pid, p, maxFloorAheadMs);
    case ReadoptSent(_, _, _) => ReadoptSettledProc(s, pid, p, maxFloorAheadMs);
    case RenewSent(_) => RenewSettledProc(s, pid, p, maxFloorAheadMs);
    case _ => DropSettledProc(s, pid, p, maxFloorAheadMs);
  }

  lemma LandInv(s: Fleet, step: Step, s': Fleet)
    requires Inv(s) && step.Land? && Next(s, step, s') && Guarded(s, step)
    ensures Inv(s')
  {
    var Land(pid, maxFloorAheadMs) := step;
    LandedProc(s, pid);
    SettledProc(s, pid, s.procs[pid], maxFloorAheadMs);
    ReplacedInv(Landed(s, s.procs[pid].store.txn), pid, Settled(s.procs[pid], s.etcd, maxFloorAheadMs));
  }

  lemma FailedProc(s: Fleet, pid: nat, p: Process)
    requires ProcOk(s, pid, p) && !p.store.Quiet?
    ensures ProcOk(s, pid, Failed(p))
    ensures forall g :: Carries(Failed(p), g) ==> Carries(p, g)
  {
  }

  // ---------------------------------------------------------------- transactions left behind

  // What a live process must promise about a transaction that may still land.
  ghost predicate GivenUp(s: Fleet, t: Txn, q: nat, p: Process) {
    forall g :: t.DropTxn? && Touches(t, g) && ActsFor(s, q, g) ==>
                  !Carries(p, g) && p.pending != Some(s.tenures[g].leaseId)
  }

  lemma ProcWithOrphan(s: Fleet, s': Fleet, t: Txn, q: nat, p: Process)
    requires s' == s.(procs := s'.procs, orphans := s.orphans + {t})
    requires ProcOk(s, q, p) && GivenUp(s, t, q, p)
    ensures ProcOk(s', q, p)
  {
  }

  lemma OrphanedInv(s: Fleet, t: Txn, s': Fleet)
    requires Inv(s) && InPlay(s, t)
    requires s' == s.(procs := s'.procs, orphans := s.orphans + {t}) && s'.procs.Keys <= s.procs.Keys
    requires forall q :: q in s'.procs ==> ProcOk(s, q, s'.procs[q]) && GivenUp(s, t, q, s'.procs[q])
    ensures Inv(s')
  {
    InPlayOk(s, t);
    forall q | q in s'.procs ensures ProcOk(s', q, s'.procs[q]) {
      ProcWithOrphan(s, s', t, q, s'.procs[q]);
    }
    assert forall u :: u in s'.orphans ==> TxnOk(s, u);
    assert forall u :: TxnOk(s, u) ==> TxnOk(s', u);
  }

  lemma FewerProcsInv(s: Fleet, pid: nat)
    requires Inv(s)
    ensures Inv(s.(procs := s.procs - {pid}))
  {
    var s' := s.(procs := s.procs - {pid});
    forall q | q in s'.procs ensures ProcOk(s', q, s'.procs[q]) {
      ProcSame(s, s', q, s.procs[q]);
    }
  }

  lemma CrashInv(s: Fleet, step: Step, s': Fleet)
    requires Inv(s) && step.Crash? && Next(s, step, s')
    ensures Inv(s')
  {
    var pid := step.pid;
    var p := s.procs[pid];
    if HasTxn(p.store) {
      var t := p.store.txn;
      assert InPlay(s, t) && ProcOk(s, pid, p);
      forall q | q in s'.procs ensures ProcOk(s, q, s'.procs[q]) && GivenUp(s, t, q, s'.procs[q]) {
        OnlyOneActs(s, pid, q);
      }
      OrphanedInv(s, t, s');
    } else {
      assert s.orphans + {} == s.orphans;
      FewerProcsInv(s, pid);
    }
  }

  // The transaction a process has in flight is of a generation no other process acts for.
  lemma OnlyOneActs(s: Fleet, pid: nat, q: nat)
    requires Inv(s) && pid in s.procs && q in s.procs && pid != q && HasTxn(s.procs[pid].store)
    ensures ProcOk(s, q, s.procs[q])
    ensures forall g :: Touches(s.procs[pid].store.txn, g) ==> ActsFor(s, pid, g) && !ActsFor(s, q, g)
  {
    assert ProcOk(s, pid, s.procs[pid]) && ProcOk(s, q, s.procs[q]);
  }

  lemma FailedLateInv(s: Fleet, pid: nat, s': Fleet)
    requires Inv(s) && pid in s.procs && HasTxn(s.procs[pid].store)
    requires s' == With(s.(orphans := s.orphans + {s.procs[pid].store.txn}), pid, Failed(s.procs[pid]))
    requires s.procs[pid].lease.operation.RenewOp? ==> s.procs[pid].lease.held.Some?
    ensures Inv(s')
  {
    var p := s.procs[pid];
    var t := p.store.txn;
    assert InPlay(s, t) && ProcOk(s, pid, p);
    FailedProc(s, pid, p);
    forall q | q in s'.procs ensures ProcOk(s, q, s'.procs[q]) && GivenUp(s, t, q, s'.procs[q]) {
      if q != pid {
        OnlyOneActs(s, pid, q);
      } else {
        FailedDropIsGivenUp(s, pid, p);
      }
    }
    OrphanedInv(s, t, s');
  }

  lemma FailedDropIsGivenUp(s: Fleet, pid: nat, p: Process)
    requires ProcOk(s, pid, p) && HasTxn(p.store)
    ensures GivenUp(s, p.store.txn, pid, Failed(p))
  {
  }

  lemma FailedAfterLandingInv(s: Fleet, pid: nat)
    requires Inv(s) && pid in s.procs && HasTxn(s.procs[pid].store) && KeepsCover(s, s.procs[pid].store.txn)
    requires s.procs[pid].lease.operation.RenewOp? ==> s.procs[pid].lease.held.Some?
    ensures Inv(With(Landed(s, s.procs[pid].store.txn), pid, Failed(s.procs[pid])))
  {
    var p := s.procs[pid];
    LandedProc(s, pid);
    FailedProc(Landed(s, p.store.txn), pid, p);
    ReplacedInv(Landed(s, p.store.txn), pid, Failed(p));
  }

  lemma FailedForGoodInv(s: Fleet, pid: nat)
    requires Inv(s) && pid in s.procs && !s.procs[pid].store.Quiet?
    requires s.procs[pid].lease.operation.RenewOp? ==> s.procs[pid].lease.held.Some?
    ensures Inv(With(s, pid, Failed(s.procs[pid])))
  {
    assert ProcOk(s, pid, s.procs[pid]);
    FailedProc(s, pid, s.procs[pid]);
    ReplacedInv(s, pid, Failed(s.procs[pid]));
  }

  lemma FailInv(s: Fleet, step: Step, s': Fleet)
    requires Inv(s) && step.Fail? && Next(s, step, s') && Guarded(s, step)
    ensures Inv(s')
  {
    var Fail(pid, fate) := step;
    if HasTxn(s.procs[pid].store) && fate.Late? {
      FailedLateInv(s, pid, s');
    } else if HasTxn(s.procs[pid].store) && fate.AlreadyLanded? {
      FailedAfterLandingInv(s, pid);
    } else {
      FailedForGoodInv(s, pid);
    }
  }

  lemma LandOrphanInv(s: Fleet, step: Step, s': Fleet)
    requires Inv(s) && step.LandOrphan? && Next(s, step, s') && Guarded(s, step)
    ensures Inv(s')
  {
    LandedInv(s, step.txn);
    FewerOrphansInv(Landed(s, step.txn), step.txn);
  }

  lemma FewerOrphansInv(s: Fleet, t: Txn)
    requires Inv(s)
    ensures Inv(s.(orphans := s.orphans - {t}))
  {
    var s' := s.(orphans := s.orphans - {t});
    assert forall u :: TxnOk(s, u) ==> TxnOk(s', u);
    forall q | q in s'.procs ensures ProcOk(s', q, s'.procs[q]) {
      assert ProcOk(s, q, s.procs[q]);
    }
  }

  lemma SpawnInv(s: Fleet, step: Step, s': Fleet)
    requires Inv(s) && step.Spawn? && Next(s, step, s')
    ensures Inv(s')
  {
    forall q | q in s'.procs ensures ProcOk(s', q, s'.procs[q]) {
      if q != s.nextPid {
        ProcSame(s, s', q, s.procs[q]);
      }
    }
  }

  lemma FreshLeaseProc(s: Fleet, pid: nat, p: Process, leaseId: nat)
    requires EtcdOk(s) && OrphansOk(s) && ProcOk(s, pid, p) && p.store.LeaseForClaim?
    requires leaseId in s.leaseOwner && s.leaseOwner[leaseId] == pid
    requires forall g :: g in s.tenures ==> s.tenures[g].leaseId != leaseId
    ensures ProcOk(s, pid, p.(pending := Some(leaseId), store := Snapshot(leaseId)))
  {
    assert forall t, g :: t in s.orphans && Touches(t, g) ==> TxnOk(s, t);
  }

  lemma GrantLeaseInv(s: Fleet, step: Step, s': Fleet)
    requires Inv(s) && step.GrantLease? && Next(s, step, s')
    ensures Inv(s')
  {
    var GrantLease(pid, leaseId) := step;
    var mid := s.(leaseOwner := s.leaseOwner[leaseId := pid], etcd := s.etcd.(leases := s.etcd.leases + {leaseId}));
    LeaseGrantedInv(s, pid, leaseId);
    var p := s.procs[pid];
    assert ProcOk(mid, pid, mid.procs[pid]);
    FreshLeaseProc(mid, pid, p, leaseId);
    ReplacedInv(mid, pid, p.(pending := Some(leaseId), store := Snapshot(leaseId)));
  }

  lemma LeaseGrantedInv(s: Fleet, pid: nat, leaseId: nat)
    requires Inv(s) && pid in s.procs && leaseId !in s.leaseOwner
    ensures Inv(s.(leaseOwner := s.leaseOwner[leaseId := pid], etcd := s.etcd.(leases := s.etcd.leases + {leaseId})))
  {
    KeyspaceInv(s, s.(leaseOwner := s.leaseOwner[leaseId := pid],
      etcd := s.etcd.(leases := s.etcd.leases + {leaseId})));
  }

  // ---------------------------------------------------------------- every step

  lemma ProcessMoveInv(s: Fleet, step: Step, s': Fleet)
    requires Inv(s) && IsProcessMove(step) && Next(s, step, s')
    ensures Inv(s')
  {
    var pid := step.pid;
    var p, p' := s.procs[pid], s'.procs[pid];
    assert ProcOk(s, pid, p);
    if step.BeginAcquire? || step.UsePending? || step.TakeSnapshot? || step.SendClaim? || step.ReportExhausted? {
      AcquireSideProc(s, step, pid, p, p');
    } else {
      HolderSideProc(s, step, pid, p, p');
    }
    ReplacedInv(s, pid, p');
  }

  lemma LiftStepInv(s: Fleet, step: Step, s': Fleet)
    requires Inv(s) && Next(s, step, s') && (step.LiftChunk? || step.MarkInitialized?)
    ensures Inv(s')
  {
    if step.LiftChunk? {
      LiftedInv(s, step.chunk, step.nowMs);
    } else {
      MarkedInv(s);
    }
  }

  lemma KeyspaceStepInv(s: Fleet, step: Step, s': Fleet)
    requires Inv(s) && Next(s, step, s')
    requires step.ExpireLease? || step.LiftChunk? || step.MarkInitialized?
    ensures Inv(s')
  {
    if step.ExpireLease? {
      ExpiredInv(s, step.leaseId);
    } else {
      LiftStepInv(s, step, s');
    }
  }

  lemma ProcessStepInv(s: Fleet, step: Step, s': Fleet)
    requires Inv(s) && Next(s, step, s') && Guarded(s, step)
    requires step.Generate? || step.GrantLease? || step.Land? || step.Fail?
    ensures Inv(s')
  {
    if step.Generate? {
      GeneratedInv(s, step, s');
    } else if step.GrantLease? {
      GrantLeaseInv(s, step, s');
    } else if step.Land? {
      LandInv(s, step, s');
    } else {
      FailInv(s, step, s');
    }
  }

  lemma FleetStepInv(s: Fleet, step: Step, s': Fleet)
    requires Inv(s) && Next(s, step, s') && Guarded(s, step)
    requires step.Spawn? || step.Crash? || step.LandOrphan?
    ensures Inv(s')
  {
    if step.Spawn? {
      SpawnInv(s, step, s');
    } else if step.Crash? {
      CrashInv(s, step, s');
    } else {
      LandOrphanInv(s, step, s');
    }
  }

  lemma NextInv(s: Fleet, step: Step, s': Fleet)
    requires Inv(s) && Next(s, step, s') && Guarded(s, step)
    ensures Inv(s')
  {
    if IsProcessMove(step) {
      ProcessMoveInv(s, step, s');
    } else if step.ExpireLease? || step.LiftChunk? || step.MarkInitialized? {
      KeyspaceStepInv(s, step, s');
    } else if step.Spawn? || step.Crash? || step.LandOrphan? {
      FleetStepInv(s, step, s');
    } else {
      ProcessStepInv(s, step, s');
    }
  }

  // ---------------------------------------------------------------- what a step does to the keyspace

  // All a step can do to etcd and the tenures.
  ghost predicate EtcdStepped(s: Fleet, step: Step, s': Fleet) {
    if Lands(s, step).Some? then
      s'.etcd == Apply(s.etcd, Lands(s, step).value) && s'.tenures == Landed(s, Lands(s, step).value).tenures
    else
      && s'.tenures == s.tenures
      && if step.ExpireLease? then s'.etcd == Expire(s.etcd, step.leaseId)
         else if step.LiftChunk? then MayLift(s.etcd, step.chunk) && s'.etcd == Lift(s.etcd, step.chunk, step.nowMs)
         else NodesKept(s, s')
  }

  ghost predicate NodesKept(s: Fleet, s': Fleet) {
    && s'.etcd.nodes == s.etcd.nodes && s.etcd.revision <= s'.etcd.revision
    && forall l :: l in s'.etcd.leases ==> l in s.etcd.leases || l !in s.leaseOwner
  }

  lemma ProcessStepKeepsEtcd(s: Fleet, step: Step, s': Fleet)
    requires Next(s, step, s') && (IsProcessMove(step) || step.Generate?)
    ensures s'.etcd == s.etcd && s'.tenures == s.tenures && s'.leaseOwner == s.leaseOwner
  {
  }

  lemma LandingSteps(s: Fleet, step: Step, s': Fleet)
    requires Next(s, step, s') && Lands(s, step).Some?
    ensures EtcdStepped(s, step, s') && InPlay(s, Lands(s, step).value)
  {
    assert step.LandOrphan? || Holds(s.procs[step.pid].store, Lands(s, step).value);
  }

  lemma StepMovesEtcd(s: Fleet, step: Step, s': Fleet)
    requires Next(s, step, s')
    ensures EtcdStepped(s, step, s')
    ensures Lands(s, step).Some? ==> InPlay(s, Lands(s, step).value)
  {
    if Lands(s, step).Some? {
      LandingSteps(s, step, s');
    } else if IsProcessMove(step) || step.Generate? {
      ProcessStepKeepsEtcd(s, step, s');
    }
  }
}
