/**
 * The fleet in real time. etcd keeps a lease for its TTL from the moment it grants or renews it; a process
 * reads its anchor before it asks. A holder whose clock keeps pace stops before its lease can lapse.
 */
module LeaseTiming {
  import opened Wrappers
  import opened NodeLeases
  import opened LeaseKeyspace
  import opened LeaseProtocol
  import opened LeaseInvariant

  // An id handed out: the tenure it was minted under, and when.
  datatype Issue = Issue(nodeId: int, generation: nat, atMs: int)

  // `expiresAt` is the end etcd last gave a lease, `lapsedAt` when it ran out, and the anchors are the real
  // time at which a process read its clocks for the operation in hand and for the lease it holds.
  datatype Timed = Timed(
    fleet: Fleet,
    nowMs: int,
    expiresAt: map<nat, int>,
    lapsedAt: map<nat, int>,
    anchor: map<nat, int>,
    heldAnchor: map<nat, int>,
    issues: seq<Issue>)

  // When a step happens, and the end etcd gives the lease it grants or keeps alive, if it does.
  datatype Tick = Tick(nowMs: int, untilMs: int)

  // The lease this step grants or keeps alive.
  function Extends(s: Fleet, step: Step): Option<nat> {
    match step
    case GrantLease(_, leaseId) => Some(leaseId)
    case UsePending(pid) => if pid in s.procs then s.procs[pid].pending else None
    case KeepAlive(pid) =>
      if pid in s.procs && s.procs[pid].store.RenewAlive? && s.procs[pid].store.leaseId in s.etcd.leases
      then Some(s.procs[pid].store.leaseId) else None
    case _ => None
  }

  // The process that reads its clocks for a new operation.
  predicate Anchors(step: Step) {
    step.BeginAcquire? || step.BeginRenew?
  }

  // The answer that makes a grant or a renewed ceiling take effect.
  predicate TakesHold(s: Fleet, step: Step) {
    && step.Land? && step.pid in s.procs
    && var store := s.procs[step.pid].store;
       (store.ClaimSent? || store.ReadoptSent? || store.RenewSent?) && Succeeds(s.etcd, store.txn)
  }

  // Whether the process it was granted to still acts under the lease.
  ghost predicate InUse(s: Fleet, leaseId: nat) {
    exists pid :: pid in s.procs && UsesLease(s, s.procs[pid], leaseId)
  }

  ghost predicate UsesLease(s: Fleet, p: Process, leaseId: nat) {
    || p.pending == Some(leaseId)
    || (p.lease.held.Some? && p.lease.held.value.generation in s.tenures
        && s.tenures[p.lease.held.value.generation].leaseId == leaseId)
  }

  ghost predicate TimedNext(ttlMs: nat, t: Timed, step: Step, tick: Tick, t': Timed) {
    && Next(t.fleet, step, t'.fleet) && t.nowMs <= tick.nowMs
    // A lease goes when it runs out, or when it is revoked after its process is done with it.
    && (step.ExpireLease? ==> Lapses(t, step.leaseId, tick.nowMs) || !InUse(t.fleet, step.leaseId))
    // etcd counts the TTL from when it hears of the request, and does not shorten a lease.
    && (Extends(t.fleet, step).Some? ==>
          && tick.nowMs + ttlMs <= tick.untilMs
          && (Extends(t.fleet, step).value in t.expiresAt ==>
             t.expiresAt[Extends(t.fleet, step).value] <= tick.untilMs))
    && t' == Timed(
               t'.fleet, tick.nowMs,
               if Extends(t.fleet, step).Some? then t.expiresAt[Extends(t.fleet, step).value := tick.untilMs]
               else t.expiresAt,
               if step.ExpireLease? && Lapses(t, step.leaseId, tick.nowMs) && step.leaseId !in t.lapsedAt
               then t.lapsedAt[step.leaseId := tick.nowMs] else t.lapsedAt,
               if Anchors(step) then t.anchor[step.pid := tick.nowMs] else t.anchor,
               if TakesHold(t.fleet, step) && step.pid in t.anchor
               then t.heldAnchor[step.pid := t.anchor[step.pid]] else t.heldAnchor,
               t.issues + IssuedBy(t.fleet, step, tick.nowMs))
  }

  function IssuedBy(s: Fleet, step: Step, nowMs: int): seq<Issue> {
    if step.Generate? && step.issued.Some? && step.pid in s.procs && s.procs[step.pid].lease.held.Some?
    then [Issue(step.issued.value.nodeId, s.procs[step.pid].lease.held.value.generation, nowMs)] else []
  }

  predicate Lapses(t: Timed, leaseId: nat, nowMs: int) {
    leaseId in t.expiresAt && t.expiresAt[leaseId] <= nowMs
  }

  // What an open fence shows of a holder whose clock kept pace: the TTL since its anchor is not over, by
  // the margin, when it hands out an id.
  predicate Paced(ttlMs: nat, marginMs: nat, t: Timed, step: Step, tick: Tick) {
    step.Generate? && step.issued.Some? && step.pid in t.heldAnchor ==>
      tick.nowMs < t.heldAnchor[step.pid] + ttlMs - marginMs
  }

  // ---------------------------------------------------------------- the invariant

  // etcd keeps the lease for at least a TTL past the anchor.
  ghost predicate Backed(ttlMs: nat, t: Timed, leaseId: nat, anchors: map<nat, int>, pid: nat) {
    leaseId in t.expiresAt && pid in anchors && anchors[pid] + ttlMs <= t.expiresAt[leaseId]
  }

  ghost predicate OpTimed(ttlMs: nat, t: Timed, pid: nat, p: Process) {
    match p.store
    case Snapshot(leaseId) => Backed(ttlMs, t, leaseId, t.anchor, pid)
    case Claiming(leaseId, _) => Backed(ttlMs, t, leaseId, t.anchor, pid)
    case ClaimSent(txn, _, _) => txn.ClaimTxn? && Backed(ttlMs, t, txn.leaseId, t.anchor, pid)
    case ReadoptSent(txn, _, _) => p.pending.Some? && Backed(ttlMs, t, p.pending.value, t.anchor, pid)
    case LeaseForClaim => pid in t.anchor && t.anchor[pid] <= t.nowMs
    case RenewRead(_) => pid in t.anchor && t.anchor[pid] <= t.nowMs
    case RenewAlive(leaseId, txn) =>
      && pid in t.anchor && t.anchor[pid] <= t.nowMs && txn.RaiseTxn?
      && txn.generation in t.fleet.tenures && leaseId == t.fleet.tenures[txn.generation].leaseId
    case RenewSent(txn) =>
      && txn.RaiseTxn? && txn.generation in t.fleet.tenures
      && Backed(ttlMs, t, t.fleet.tenures[txn.generation].leaseId, t.anchor, pid)
    case _ => true
  }

  // A held node is owned in etcd under the holder's generation until its lease has run out and is gone.
  ghost predicate HeldTimed(ttlMs: nat, t: Timed, pid: nat, tenancy: Tenancy) {
    && tenancy.generation in t.fleet.tenures
    && var leaseId := t.fleet.tenures[tenancy.generation].leaseId;
       && Backed(ttlMs, t, leaseId, t.heldAnchor, pid)
       && (|| IsHeldBy(EntryOf(t.fleet.etcd, tenancy.mint.nodeId), tenancy.generation)
           || (leaseId !in t.fleet.etcd.leases && Lapses(t, leaseId, t.nowMs)))
  }

  ghost predicate TimedInv(ttlMs: nat, t: Timed) {
    && Inv(t.fleet)
    && forall pid :: pid in t.fleet.procs ==> ProcTimed(ttlMs, t, pid, t.fleet.procs[pid])
  }

  ghost predicate ProcTimed(ttlMs: nat, t: Timed, pid: nat, p: Process) {
    && OpTimed(ttlMs, t, pid, p)
    && (p.lease.held.Some? ==> HeldTimed(ttlMs, t, pid, p.lease.held.value))
  }

  // ---------------------------------------------------------------- what a step leaves alone

  lemma TenuresKept(s: Fleet, step: Step, s': Fleet, g: nat)
    requires EtcdOk(s) && EtcdStepped(s, step, s') && g in s.tenures
    ensures g in s'.tenures && s'.tenures[g] == s.tenures[g]
  {
    assert g <= s.etcd.revision;
  }

  lemma LeaseStaysGone(s: Fleet, step: Step, s': Fleet, leaseId: nat)
    requires EtcdStepped(s, step, s') && leaseId !in s.etcd.leases && leaseId in s.leaseOwner
    ensures leaseId !in s'.etcd.leases
  {
  }

  // No one drops a node that is still held.
  ghost predicate DropsUnheld(s: Fleet, step: Step) {
    Lands(s, step).Some? && Lands(s, step).value.DropTxn? ==>
      forall pid :: pid in s.procs && s.procs[pid].lease.held.Some? ==>
                      s.procs[pid].lease.held.value.generation != Lands(s, step).value.generation
  }

  lemma StepDropsUnheld(s: Fleet, step: Step)
    requires Inv(s) && (Lands(s, step).Some? ==> InPlay(s, Lands(s, step).value))
    ensures DropsUnheld(s, step)
  {
    if Lands(s, step).Some? && Lands(s, step).value.DropTxn? {
      var txn := Lands(s, step).value;
      InPlayOk(s, txn);
      forall pid | pid in s.procs && s.procs[pid].lease.held.Some?
        ensures s.procs[pid].lease.held.value.generation != txn.generation
      {
        DropIsUnheld(s, txn, pid);
      }
    }
  }

  // Only the end of its lease takes a node from a holder.
  lemma OwnerKept(s: Fleet, step: Step, s': Fleet, h: Tenancy)
    requires EtcdOk(s) && EtcdStepped(s, step, s')
    requires Lands(s, step).Some? && Lands(s, step).value.DropTxn? ==> h.generation != Lands(s, step).value.generation
    requires IsHeldBy(EntryOf(s.etcd, h.mint.nodeId), h.generation) && h.generation in s.tenures
    requires step.ExpireLease? ==> step.leaseId != s.tenures[h.generation].leaseId
    ensures IsHeldBy(EntryOf(s'.etcd, h.mint.nodeId), h.generation)
  {
    if step.LiftChunk? {
      LiftAt(s.etcd, step.chunk, step.nowMs, h.mint.nodeId);
    }
  }

  // ---------------------------------------------------------------- what a step does to the times

  // Ends only move out, and no other process's anchors change.
  ghost predicate TimesMoved(ttlMs: nat, t: Timed, step: Step, t': Timed) {
    && t.nowMs <= t'.nowMs
    && (forall l :: l in t.expiresAt ==> l in t'.expiresAt && t.expiresAt[l] <= t'.expiresAt[l])
    && (forall l :: l in t.expiresAt && l !in t.fleet.etcd.leases && l in t.fleet.leaseOwner ==>
          t'.expiresAt[l] == t.expiresAt[l])
    && (step.ExpireLease? ==> Lapses(t', step.leaseId, t'.nowMs) || !InUse(t.fleet, step.leaseId))
    && (Extends(t.fleet, step).Some? ==>
          && Extends(t.fleet, step).value in t'.expiresAt
          && t'.nowMs + ttlMs <= t'.expiresAt[Extends(t.fleet, step).value])
    && (Anchors(step) ==> step.pid in t'.anchor && t'.anchor[step.pid] == t'.nowMs)
    && (TakesHold(t.fleet, step) && step.pid in t.anchor ==>
          step.pid in t'.heldAnchor && t'.heldAnchor[step.pid] == t.anchor[step.pid])
    && (forall q :: q in t.anchor && !(Anchors(step) && step.pid == q) ==>
          q in t'.anchor && t'.anchor[q] == t.anchor[q])
    && (forall q :: q in t.heldAnchor && !(TakesHold(t.fleet, step) && step.pid == q) ==>
          q in t'.heldAnchor && t'.heldAnchor[q] == t.heldAnchor[q])
  }

  lemma StepMovesTimes(ttlMs: nat, t: Timed, step: Step, tick: Tick, t': Timed)
    requires TimedNext(ttlMs, t, step, tick, t')
    ensures TimesMoved(ttlMs, t, step, t')
  {
  }

  // What is known of any step, without its definition.
  ghost predicate Moved(ttlMs: nat, t: Timed, step: Step, t': Timed) {
    && EtcdOk(t.fleet) && EtcdStepped(t.fleet, step, t'.fleet) && DropsUnheld(t.fleet, step)
    && TimesMoved(ttlMs, t, step, t')
  }

  // A tenancy that the process held before, under the anchor it had, is timed after the step as before.
  lemma HeldKept(ttlMs: nat, t: Timed, step: Step, t': Timed, pid: nat)
    requires Moved(ttlMs, t, step, t') && pid in t.fleet.procs
    requires ProcOk(t.fleet, pid, t.fleet.procs[pid]) && ProcTimed(ttlMs, t, pid, t.fleet.procs[pid])
    requires t.fleet.procs[pid].lease.held.Some? && !(TakesHold(t.fleet, step) && step.pid == pid)
    ensures HeldTimed(ttlMs, t', pid, t.fleet.procs[pid].lease.held.value)
  {
    var p := t.fleet.procs[pid];
    var h := p.lease.held.value;
    TenuresKept(t.fleet, step, t'.fleet, h.generation);
    var leaseId := t.fleet.tenures[h.generation].leaseId;
    assert UsesLease(t.fleet, p, leaseId);
    if !IsHeldBy(EntryOf(t.fleet.etcd, h.mint.nodeId), h.generation) {
      LeaseStaysGone(t.fleet, step, t'.fleet, leaseId);
    } else if !(step.ExpireLease? && step.leaseId == leaseId) {
      OwnerKept(t.fleet, step, t'.fleet, h);
    }
  }

  lemma OpKept(ttlMs: nat, t: Timed, step: Step, t': Timed, pid: nat, p: Process)
    requires EtcdOk(t.fleet) && OpTimed(ttlMs, t, pid, p)
    requires EtcdStepped(t.fleet, step, t'.fleet) && TimesMoved(ttlMs, t, step, t')
    requires !(Anchors(step) && step.pid == pid)
    ensures OpTimed(ttlMs, t', pid, p)
  {
    if p.store.RenewAlive? || p.store.RenewSent? {
      TenuresKept(t.fleet, step, t'.fleet, p.store.txn.generation);
    }
  }

  // ---------------------------------------------------------------- the process that moves

  // From `p` to `p'` the process holds what it held, or nothing.
  predicate HoldsNothingNew(p: Process, p': Process) {
    p'.lease.held.Some? ==>
      && p.lease.held.Some? && p'.lease.held.value.generation == p.lease.held.value.generation
      && p'.lease.held.value.mint.nodeId == p.lease.held.value.mint.nodeId
  }

  lemma MoveHoldsNothingNew(s: Fleet, step: Step, pid: nat, p: Process, p': Process)
    requires MovesTo(s, step, pid, p, p')
    ensures HoldsNothingNew(p, p')
  {
  }

  // The etcd lease behind the transaction a renew is about to send is that of the tenure held.
  lemma ReadForRenewTimed(ttlMs: nat, t: Timed, step: Step, p: Process, p': Process, t': Timed)
    requires EtcdOk(t.fleet) && step.ReadForRenew? && MovesTo(t.fleet, step, step.pid, p, p')
    requires OpTimed(ttlMs, t, step.pid, p) && TimesMoved(ttlMs, t, step, t') && t'.fleet.tenures == t.fleet.tenures
    ensures OpTimed(ttlMs, t', step.pid, p')
  {
  }

  lemma AcquireOpTimed(ttlMs: nat, t: Timed, step: Step, t': Timed, p: Process, p': Process)
    requires step.BeginAcquire? || step.UsePending? || step.TakeSnapshot? || step.SendClaim?
    requires step.pid in t.fleet.procs && p == t.fleet.procs[step.pid]
    requires MovesTo(t.fleet, step, step.pid, p, p') && StoreOk(t.fleet, step.pid, p)
    requires t'.fleet.tenures == t.fleet.tenures && TimesMoved(ttlMs, t, step, t') && OpTimed(ttlMs, t, step.pid, p)
    ensures OpTimed(ttlMs, t', step.pid, p')
  {
  }

  lemma RenewOpTimed(ttlMs: nat, t: Timed, step: Step, t': Timed, p: Process, p': Process)
    requires step.BeginRenew? || step.KeepAlive?
    requires step.pid in t.fleet.procs && p == t.fleet.procs[step.pid] && MovesTo(t.fleet, step, step.pid, p, p')
    requires t'.fleet.tenures == t.fleet.tenures && TimesMoved(ttlMs, t, step, t') && OpTimed(ttlMs, t, step.pid, p)
    ensures OpTimed(ttlMs, t', step.pid, p')
  {
  }

  // The other moves end the operation, wind the node up, or leave the operation where it was.
  predicate WindsDown(p: Process, p': Process) {
    || p' == p.(lease := p'.lease)
    || p'.store.Quiet? || p'.store.RejectSent? || p'.store.ReleaseRead? || p'.store.ReleaseSent?
  }

  lemma MoveWindsDown(s: Fleet, step: Step, p: Process, p': Process)
    requires step.Drain? || step.ReportExhausted? || step.ReadForReject? || step.BeginRelease? || step.ReadForRelease?
    requires MovesTo(s, step, step.pid, p, p')
    ensures WindsDown(p, p')
  {
  }

  lemma WindingDownTimed(ttlMs: nat, t: Timed, step: Step, t': Timed, pid: nat, p: Process, p': Process)
    requires WindsDown(p, p') && !Anchors(step) && EtcdOk(t.fleet) && OpTimed(ttlMs, t, pid, p)
    requires EtcdStepped(t.fleet, step, t'.fleet) && TimesMoved(ttlMs, t, step, t')
    ensures OpTimed(ttlMs, t', pid, p')
  {
    if p' == p.(lease := p'.lease) {
      OpKept(ttlMs, t, step, t', pid, p);
    }
  }

  lemma MoveOpTimed(ttlMs: nat, t: Timed, step: Step, t': Timed, p: Process, p': Process)
    requires IsProcessMove(step) && step.pid in t.fleet.procs && p == t.fleet.procs[step.pid]
    requires MovesTo(t.fleet, step, step.pid, p, p') && EtcdOk(t.fleet) && StoreOk(t.fleet, step.pid, p)
    requires t'.fleet.tenures == t.fleet.tenures && EtcdStepped(t.fleet, step, t'.fleet)
    requires TimesMoved(ttlMs, t, step, t') && OpTimed(ttlMs, t, step.pid, p)
    ensures OpTimed(ttlMs, t', step.pid, p')
  {
    if step.ReadForRenew? {
      ReadForRenewTimed(ttlMs, t, step, p, p', t');
    } else if step.BeginRenew? || step.KeepAlive? {
      RenewOpTimed(ttlMs, t, step, t', p, p');
    } else if step.BeginAcquire? || step.UsePending? || step.TakeSnapshot? || step.SendClaim? {
      AcquireOpTimed(ttlMs, t, step, t', p, p');
    } else {
      MoveWindsDown(t.fleet, step, p, p');
      WindingDownTimed(ttlMs, t, step, t', step.pid, p, p');
    }
  }

  // ---------------------------------------------------------------- the answer to a transaction

  ghost predicate LandedTimed(ttlMs: nat, t: Timed, step: Step, t': Timed, p: Process, p': Process)
    requires step.Land?
  {
    && OpTimed(ttlMs, t', step.pid, p')
    && if TakesHold(t.fleet, step) then p'.lease.held.Some? ==> HeldTimed(ttlMs, t', step.pid, p'.lease.held.value)
       else HoldsNothingNew(p, p')
  }

  ghost predicate Landing(ttlMs: nat, t: Timed, step: Step, t': Timed, p: Process) {
    && EtcdOk(t.fleet) && step.Land? && step.pid in t.fleet.procs && p == t.fleet.procs[step.pid]
    && HasTxn(p.store) && (p.store.RenewSent? ==> p.lease.held.Some?)
    && t'.fleet.etcd == Apply(t.fleet.etcd, p.store.txn) && t'.fleet.tenures == Landed(t.fleet, p.store.txn).tenures
    && TimesMoved(ttlMs, t, step, t') && OpTimed(ttlMs, t, step.pid, p) && ProcOk(t.fleet, step.pid, p)
  }

  // A won claim is owned under the lease it was made under.
  lemma ClaimLandsTimed(ttlMs: nat, t: Timed, step: Step, t': Timed, p: Process)
    requires Landing(ttlMs, t, step, t', p) && p.store.ClaimSent?
    ensures LandedTimed(ttlMs, t, step, t', p, Settled(p, t.fleet.etcd, step.maxFloorAheadMs))
  {
  }

  // A raise that went through shows that the node is still owned under the tenure's lease.
  lemma ReadoptLandsTimed(ttlMs: nat, t: Timed, step: Step, t': Timed, p: Process)
    requires Landing(ttlMs, t, step, t', p) && p.store.ReadoptSent?
    ensures LandedTimed(ttlMs, t, step, t', p, Settled(p, t.fleet.etcd, step.maxFloorAheadMs))
  {
  }

  lemma RenewLandsTimed(ttlMs: nat, t: Timed, step: Step, t': Timed, p: Process)
    requires Landing(ttlMs, t, step, t', p) && p.store.RenewSent?
    ensures LandedTimed(ttlMs, t, step, t', p, Settled(p, t.fleet.etcd, step.maxFloorAheadMs))
  {
  }

  lemma LandTimed(ttlMs: nat, t: Timed, step: Step, t': Timed, p: Process)
    requires Landing(ttlMs, t, step, t', p)
    ensures LandedTimed(ttlMs, t, step, t', p, Settled(p, t.fleet.etcd, step.maxFloorAheadMs))
  {
    if p.store.ClaimSent? {
      ClaimLandsTimed(ttlMs, t, step, t', p);
    } else if p.store.ReadoptSent? {
      ReadoptLandsTimed(ttlMs, t, step, t', p);
    } else if p.store.RenewSent? {
      RenewLandsTimed(ttlMs, t, step, t', p);
    }
  }

  // ---------------------------------------------------------------- every step

  lemma HeldMoved(ttlMs: nat, t: Timed, step: Step, t': Timed, pid: nat, p': Process)
    requires Moved(ttlMs, t, step, t') && pid in t.fleet.procs
    requires ProcOk(t.fleet, pid, t.fleet.procs[pid]) && ProcTimed(ttlMs, t, pid, t.fleet.procs[pid])
    requires HoldsNothingNew(t.fleet.procs[pid], p') && !(TakesHold(t.fleet, step) && step.pid == pid)
    ensures p'.lease.held.Some? ==> HeldTimed(ttlMs, t', pid, p'.lease.held.value)
  {
    if p'.lease.held.Some? {
      HeldKept(ttlMs, t, step, t', pid);
    }
  }

  lemma BystanderTimed(ttlMs: nat, t: Timed, step: Step, t': Timed, pid: nat)
    requires Moved(ttlMs, t, step, t') && pid in t.fleet.procs
    requires ProcOk(t.fleet, pid, t.fleet.procs[pid]) && ProcTimed(ttlMs, t, pid, t.fleet.procs[pid])
    requires !(TakesHold(t.fleet, step) && step.pid == pid) && !(Anchors(step) && step.pid == pid)
    ensures ProcTimed(ttlMs, t', pid, t.fleet.procs[pid])
  {
    OpKept(ttlMs, t, step, t', pid, t.fleet.procs[pid]);
    HeldMoved(ttlMs, t, step, t', pid, t.fleet.procs[pid]);
  }

  predicate IsActorStep(step: Step) {
    IsProcessMove(step) || step.Generate? || step.GrantLease? || step.Land? || step.Fail?
  }

  // What a step of one process makes of it.
  ghost predicate ActorMoved(s: Fleet, step: Step, p: Process, p': Process) {
    if step.Land? then
      && HasTxn(p.store) && (p.store.RenewSent? ==> p.lease.held.Some?)
      && p' == Settled(p, s.etcd, step.maxFloorAheadMs)
    else
      && HoldsNothingNew(p, p')
      && (IsProcessMove(step) ==> MovesTo(s, step, step.pid, p, p'))
      && (step.Generate? ==> p' == p.(lease := p'.lease))
      && (step.GrantLease? ==> p.store.LeaseForClaim? && p'.store == Snapshot(step.leaseId))
      && (step.Fail? ==> p'.store == Quiet)
  }

  // What a step makes of any process.
  ghost predicate ProcMoved(s: Fleet, step: Step, s': Fleet, pid: nat)
    requires pid in s'.procs
  {
    if IsActorStep(step) && pid == step.pid then
      && pid in s.procs && ActorMoved(s, step, s.procs[pid], s'.procs[pid])
      && (IsProcessMove(step) ==> s'.tenures == s.tenures)
    else if pid in s.procs && !(step.Spawn? && pid == s.nextPid) then s'.procs[pid] == s.procs[pid]
    else s'.procs[pid] == Process(FRESH_LEASE, None, Quiet)
  }

  lemma ActorMoves(s: Fleet, step: Step, s': Fleet)
    requires Next(s, step, s') && IsActorStep(step)
    ensures step.pid in s'.procs && ProcMoved(s, step, s', step.pid)
  {
    if IsProcessMove(step) {
      MoveHoldsNothingNew(s, step, step.pid, s.procs[step.pid], s'.procs[step.pid]);
    }
  }

  lemma StepMovesProcs(s: Fleet, step: Step, s': Fleet, pid: nat)
    requires Next(s, step, s') && pid in s'.procs
    ensures ProcMoved(s, step, s', pid)
  {
    if IsActorStep(step) && pid == step.pid {
      ActorMoves(s, step, s');
    }
  }

  lemma GrantTimed(ttlMs: nat, t: Timed, step: Step, t': Timed, p: Process, p': Process)
    requires step.GrantLease? && TimesMoved(ttlMs, t, step, t') && OpTimed(ttlMs, t, step.pid, p)
    requires p.store.LeaseForClaim? && p'.store == Snapshot(step.leaseId)
    ensures OpTimed(ttlMs, t', step.pid, p')
  {
  }

  lemma ActorOpTimed(ttlMs: nat, t: Timed, step: Step, t': Timed, p: Process, p': Process)
    requires EtcdOk(t.fleet) && EtcdStepped(t.fleet, step, t'.fleet) && TimesMoved(ttlMs, t, step, t')
    requires IsActorStep(step) && !step.Land? && step.pid in t.fleet.procs && p == t.fleet.procs[step.pid]
    requires ActorMoved(t.fleet, step, p, p') && (IsProcessMove(step) ==> t'.fleet.tenures == t.fleet.tenures)
    requires StoreOk(t.fleet, step.pid, p) && OpTimed(ttlMs, t, step.pid, p)
    ensures OpTimed(ttlMs, t', step.pid, p')
  {
    if IsProcessMove(step) {
      MoveOpTimed(ttlMs, t, step, t', p, p');
    } else if step.Generate? {
      OpKept(ttlMs, t, step, t', step.pid, p);
    } else if step.GrantLease? {
      GrantTimed(ttlMs, t, step, t', p, p');
    }
  }

  lemma LandedStaysTimed(ttlMs: nat, t: Timed, step: Step, t': Timed, p: Process, p': Process)
    requires Moved(ttlMs, t, step, t') && step.Land? && step.pid in t.fleet.procs
    requires p == t.fleet.procs[step.pid] && ProcOk(t.fleet, step.pid, p) && ProcTimed(ttlMs, t, step.pid, p)
    requires ActorMoved(t.fleet, step, p, p')
    ensures ProcTimed(ttlMs, t', step.pid, p')
  {
    LandTimed(ttlMs, t, step, t', p);
    if !TakesHold(t.fleet, step) {
      HeldMoved(ttlMs, t, step, t', step.pid, p');
    }
  }

  lemma ActorStaysTimed(ttlMs: nat, t: Timed, step: Step, t': Timed, p: Process, p': Process)
    requires Moved(ttlMs, t, step, t') && IsActorStep(step) && !step.Land? && step.pid in t.fleet.procs
    requires p == t.fleet.procs[step.pid] && ProcOk(t.fleet, step.pid, p) && ProcTimed(ttlMs, t, step.pid, p)
    requires ActorMoved(t.fleet, step, p, p') && (IsProcessMove(step) ==> t'.fleet.tenures == t.fleet.tenures)
    ensures ProcTimed(ttlMs, t', step.pid, p')
  {
    ActorOpTimed(ttlMs, t, step, t', p, p');
    HeldMoved(ttlMs, t, step, t', step.pid, p');
  }

  lemma OwnStepStaysTimed(ttlMs: nat, t: Timed, step: Step, t': Timed, p: Process, p': Process)
    requires Moved(ttlMs, t, step, t') && IsActorStep(step) && step.pid in t.fleet.procs
    requires p == t.fleet.procs[step.pid] && ProcOk(t.fleet, step.pid, p) && ProcTimed(ttlMs, t, step.pid, p)
    requires ActorMoved(t.fleet, step, p, p') && (IsProcessMove(step) ==> t'.fleet.tenures == t.fleet.tenures)
    ensures ProcTimed(ttlMs, t', step.pid, p')
  {
    if step.Land? {
      LandedStaysTimed(ttlMs, t, step, t', p, p');
    } else {
      ActorStaysTimed(ttlMs, t, step, t', p, p');
    }
  }

  lemma ProcStaysTimed(ttlMs: nat, t: Timed, step: Step, t': Timed, pid: nat)
    requires Moved(ttlMs, t, step, t') && pid in t'.fleet.procs && ProcMoved(t.fleet, step, t'.fleet, pid)
    requires pid in t.fleet.procs ==>
               ProcOk(t.fleet, pid, t.fleet.procs[pid]) && ProcTimed(ttlMs, t, pid, t.fleet.procs[pid])
    ensures ProcTimed(ttlMs, t', pid, t'.fleet.procs[pid])
  {
    if IsActorStep(step) && pid == step.pid {
      OwnStepStaysTimed(ttlMs, t, step, t', t.fleet.procs[pid], t'.fleet.procs[pid]);
    } else if pid in t.fleet.procs && !(step.Spawn? && pid == t.fleet.nextPid) {
      BystanderTimed(ttlMs, t, step, t', pid);
    }
  }

  lemma StepMoves(ttlMs: nat, t: Timed, step: Step, tick: Tick, t': Timed)
    requires Inv(t.fleet) && TimedNext(ttlMs, t, step, tick, t')
    ensures Moved(ttlMs, t, step, t')
    ensures forall pid :: pid in t'.fleet.procs ==> ProcMoved(t.fleet, step, t'.fleet, pid)
  {
    StepMovesEtcd(t.fleet, step, t'.fleet);
    StepMovesTimes(ttlMs, t, step, tick, t');
    StepDropsUnheld(t.fleet, step);
    forall pid | pid in t'.fleet.procs ensures ProcMoved(t.fleet, step, t'.fleet, pid) {
      StepMovesProcs(t.fleet, step, t'.fleet, pid);
    }
  }

  /** A holder's lease is kept for a TTL past the anchor it goes by, and until then the node is its own. */
  lemma TimedNextInv(ttlMs: nat, t: Timed, step: Step, tick: Tick, t': Timed)
    requires TimedInv(ttlMs, t) && TimedNext(ttlMs, t, step, tick, t') && Guarded(t.fleet, step)
    ensures TimedInv(ttlMs, t')
  {
    NextInv(t.fleet, step, t'.fleet);
    StepMoves(ttlMs, t, step, tick, t');
    forall pid | pid in t'.fleet.procs ensures ProcTimed(ttlMs, t', pid, t'.fleet.procs[pid]) {
      ProcStaysTimed(ttlMs, t, step, t', pid);
    }
  }

  // ---------------------------------------------------------------- runs

  // A run from a lifted keyspace with no process in it.
  ghost predicate TimedStart(t: Timed) {
    Init(t.fleet) && t.issues == [] && t.expiresAt == map[] && t.lapsedAt == map[]
  }

  ghost predicate IsTimedRun(ttlMs: nat, ts: seq<Timed>, steps: seq<Step>, ticks: seq<Tick>) {
    && |ts| == |steps| + 1 == |ticks| + 1 && TimedStart(ts[0])
    && forall i :: 0 <= i < |steps| ==>
                     TimedNext(ttlMs, ts[i], steps[i], ticks[i], ts[i + 1]) && Guarded(ts[i].fleet, steps[i])
  }

  ghost predicate IsPaced(ttlMs: nat, marginMs: nat, ts: seq<Timed>, steps: seq<Step>, ticks: seq<Tick>)
    requires |ts| == |steps| + 1 == |ticks| + 1
  {
    forall i :: 0 <= i < |steps| ==> Paced(ttlMs, marginMs, ts[i], steps[i], ticks[i])
  }

  /** Until a TTL past its anchor, a holder is the owner of its node in etcd, and so the only one. */
  lemma HolderOwnsItsNode(ttlMs: nat, t: Timed, pid: nat)
    requires TimedInv(ttlMs, t) && pid in t.fleet.procs && t.fleet.procs[pid].lease.held.Some?
    requires pid in t.heldAnchor && t.nowMs < t.heldAnchor[pid] + ttlMs
    ensures var h := t.fleet.procs[pid].lease.held.value;
            && IsHeldBy(EntryOf(t.fleet.etcd, h.mint.nodeId), h.generation)
            && h.generation in t.fleet.tenures && t.fleet.tenures[h.generation].leaseId in t.expiresAt
            && t.heldAnchor[pid] + ttlMs <= t.expiresAt[t.fleet.tenures[h.generation].leaseId]
  {
    assert ProcTimed(ttlMs, t, pid, t.fleet.procs[pid]);
  }

  lemma OneHolderInTime(ttlMs: nat, t: Timed, pid: nat, q: nat)
    requires TimedInv(ttlMs, t) && pid in t.fleet.procs && q in t.fleet.procs
    requires t.fleet.procs[pid].lease.held.Some? && t.fleet.procs[q].lease.held.Some?
    requires t.fleet.procs[pid].lease.held.value.mint.nodeId == t.fleet.procs[q].lease.held.value.mint.nodeId
    requires pid in t.heldAnchor && t.nowMs < t.heldAnchor[pid] + ttlMs
    requires q in t.heldAnchor && t.nowMs < t.heldAnchor[q] + ttlMs
    ensures pid == q
  {
    HolderOwnsItsNode(ttlMs, t, pid);
    HolderOwnsItsNode(ttlMs, t, q);
    assert ProcOk(t.fleet, pid, t.fleet.procs[pid]) && ProcOk(t.fleet, q, t.fleet.procs[q]);
  }

  // Every id was handed out under a known tenure, by the margin before the end its lease then had.
  ghost predicate IssueOk(marginMs: nat, t: Timed, issue: Issue) {
    && issue.generation in t.fleet.tenures && t.fleet.tenures[issue.generation].nodeId == issue.nodeId
    && issue.atMs <= t.nowMs
    && var leaseId := t.fleet.tenures[issue.generation].leaseId;
       && leaseId in t.expiresAt && issue.atMs + marginMs < t.expiresAt[leaseId]
       && (leaseId in t.lapsedAt ==> issue.atMs + marginMs < t.lapsedAt[leaseId])
  }

  // Ends are of leases that were granted, and a lease that ran out is gone for good.
  ghost predicate LapsesOk(t: Timed) {
    && (forall l :: l in t.expiresAt ==> l in t.fleet.leaseOwner)
    && forall l :: l in t.lapsedAt ==>
         l in t.expiresAt && l !in t.fleet.etcd.leases && t.expiresAt[l] <= t.lapsedAt[l] <= t.nowMs
  }

  // Only a lease that is there is extended, and only an end that has come is a lapse.
  ghost predicate LapsesMoved(t: Timed, step: Step, t': Timed) {
    && t.nowMs <= t'.nowMs
    && (forall l :: l in t.fleet.leaseOwner ==> l in t'.fleet.leaseOwner)
    && (forall l :: l in t'.expiresAt ==> l in t.expiresAt || l in t'.fleet.leaseOwner)
    && (forall l :: l in t'.lapsedAt ==>
          if l in t.lapsedAt then t'.lapsedAt[l] == t.lapsedAt[l]
          else
            && l in t.expiresAt && l in t'.expiresAt && t'.expiresAt[l] == t.expiresAt[l] <= t'.nowMs == t'.lapsedAt[l]
            && l !in t'.fleet.etcd.leases)
  }

  lemma LeaseOwnersKept(s: Fleet, step: Step, s': Fleet)
    requires Next(s, step, s')
    ensures forall l :: l in s.leaseOwner ==> l in s'.leaseOwner
    ensures step.ExpireLease? ==> step.leaseId !in s'.etcd.leases
  {
    if IsProcessMove(step) || step.Generate? {
      ProcessStepKeepsEtcd(s, step, s');
    }
  }

  lemma StepMovesLapses(ttlMs: nat, t: Timed, step: Step, tick: Tick, t': Timed)
    requires TimedNext(ttlMs, t, step, tick, t')
    requires Extends(t.fleet, step).Some? ==> Extends(t.fleet, step).value in t'.fleet.leaseOwner
    ensures LapsesMoved(t, step, t')
  {
    LeaseOwnersKept(t.fleet, step, t'.fleet);
  }

  lemma ExtendedIsGranted(ttlMs: nat, t: Timed, step: Step, tick: Tick, t': Timed)
    requires TimedInv(ttlMs, t) && TimedNext(ttlMs, t, step, tick, t') && Extends(t.fleet, step).Some?
    ensures Extends(t.fleet, step).value in t'.fleet.leaseOwner
  {
    if !step.GrantLease? {
      var pid := step.pid;
      assert ProcOk(t.fleet, pid, t.fleet.procs[pid]) && ProcTimed(ttlMs, t, pid, t.fleet.procs[pid]);
    }
  }

  lemma LapsesKept(ttlMs: nat, t: Timed, step: Step, t': Timed)
    requires EtcdStepped(t.fleet, step, t'.fleet) && TimesMoved(ttlMs, t, step, t')
    requires LapsesMoved(t, step, t') && LapsesOk(t)
    ensures LapsesOk(t')
  {
    forall l | l in t'.lapsedAt ensures l !in t'.fleet.etcd.leases && t'.expiresAt[l] <= t'.lapsedAt[l] <= t'.nowMs {
      if l in t.lapsedAt {
        LeaseStaysGone(t.fleet, step, t'.fleet, l);
      }
    }
  }

  ghost predicate IssuesOk(marginMs: nat, t: Timed) {
    && (forall k :: 0 <= k < |t.issues| ==> IssueOk(marginMs, t, t.issues[k]))
    && forall i, j :: 0 <= i < j < |t.issues| && t.issues[i].nodeId == t.issues[j].nodeId ==>
                        t.issues[i].generation <= t.issues[j].generation
  }

  lemma IssueKept(ttlMs: nat, marginMs: nat, t: Timed, step: Step, t': Timed, issue: Issue)
    requires Moved(ttlMs, t, step, t') && LapsesMoved(t, step, t') && IssueOk(marginMs, t, issue)
    ensures IssueOk(marginMs, t', issue)
  {
    TenuresKept(t.fleet, step, t'.fleet, issue.generation);
  }

  // An id that leaves on time leaves under the newest tenure of its node, whose lease is not over.
  lemma IssuedInTime(ttlMs: nat, marginMs: nat, t: Timed, step: Step, tick: Tick, issue: Issue)
    requires TimedInv(ttlMs, t) && LapsesOk(t) && t.nowMs <= tick.nowMs && Paced(ttlMs, marginMs, t, step, tick)
    requires IssuedBy(t.fleet, step, tick.nowMs) == [issue] && step.pid in t.fleet.procs
    requires issue.nodeId == t.fleet.procs[step.pid].lease.held.value.mint.nodeId
    ensures IssueOk(marginMs, t.(nowMs := tick.nowMs), issue)
    ensures forall g :: g in t.fleet.tenures && t.fleet.tenures[g].nodeId == issue.nodeId ==> g <= issue.generation
  {
    var p := t.fleet.procs[step.pid];
    assert ProcTimed(ttlMs, t, step.pid, p) && ProcOk(t.fleet, step.pid, p);
    HolderOwnsItsNode(ttlMs, t, step.pid);
  }

  ghost predicate PacedInv(ttlMs: nat, marginMs: nat, t: Timed) {
    TimedInv(ttlMs, t) && LapsesOk(t) && IssuesOk(marginMs, t)
  }

  // What a step adds to the ids handed out.
  lemma StepIssues(ttlMs: nat, t: Timed, step: Step, tick: Tick, t': Timed)
    requires TimedNext(ttlMs, t, step, tick, t')
    ensures t'.issues == t.issues + IssuedBy(t.fleet, step, tick.nowMs) && t'.nowMs == tick.nowMs
    ensures IssuedBy(t.fleet, step, tick.nowMs) != [] ==>
              && step.pid in t.fleet.procs && t.fleet.procs[step.pid].lease.held.Some?
              && t'.fleet.tenures == t.fleet.tenures && t'.expiresAt == t.expiresAt && t'.lapsedAt == t.lapsedAt
              && step.issued.value.nodeId == t.fleet.procs[step.pid].lease.held.value.mint.nodeId
  {
  }

  lemma IssuesKept(ttlMs: nat, marginMs: nat, t: Timed, step: Step, tick: Tick, t': Timed)
    requires PacedInv(ttlMs, marginMs, t) && Paced(ttlMs, marginMs, t, step, tick)
    requires t'.issues == t.issues + IssuedBy(t.fleet, step, tick.nowMs) && t.nowMs <= t'.nowMs == tick.nowMs
    requires forall k :: 0 <= k < |t.issues| ==> IssueOk(marginMs, t', t.issues[k])
    requires IssuedBy(t.fleet, step, tick.nowMs) != [] ==>
               && step.pid in t.fleet.procs && t.fleet.procs[step.pid].lease.held.Some?
               && t'.fleet.tenures == t.fleet.tenures && t'.expiresAt == t.expiresAt && t'.lapsedAt == t.lapsedAt
               && step.issued.value.nodeId == t.fleet.procs[step.pid].lease.held.value.mint.nodeId
    ensures IssuesOk(marginMs, t')
  {
    var more := IssuedBy(t.fleet, step, tick.nowMs);
    if more != [] {
      IssuedInTime(ttlMs, marginMs, t, step, tick, more[0]);
      assert IssueOk(marginMs, t', more[0]);
    }
  }

  lemma PacedNextInv(ttlMs: nat, marginMs: nat, t: Timed, step: Step, tick: Tick, t': Timed)
    requires PacedInv(ttlMs, marginMs, t) && TimedNext(ttlMs, t, step, tick, t')
    requires Guarded(t.fleet, step) && Paced(ttlMs, marginMs, t, step, tick)
    ensures PacedInv(ttlMs, marginMs, t')
  {
    TimedNextInv(ttlMs, t, step, tick, t');
    StepMoves(ttlMs, t, step, tick, t');
    if Extends(t.fleet, step).Some? {
      ExtendedIsGranted(ttlMs, t, step, tick, t');
    }
    StepMovesLapses(ttlMs, t, step, tick, t');
    LapsesKept(ttlMs, t, step, t');
    forall k | 0 <= k < |t.issues| ensures IssueOk(marginMs, t', t.issues[k]) {
      IssueKept(ttlMs, marginMs, t, step, t', t.issues[k]);
    }
    StepIssues(ttlMs, t, step, tick, t');
    IssuesKept(ttlMs, marginMs, t, step, tick, t');
  }

  lemma StartIsPaced(ttlMs: nat, marginMs: nat, t: Timed)
    requires TimedStart(t)
    ensures PacedInv(ttlMs, marginMs, t)
  {
    InitInv(t.fleet);
  }

  lemma PacedStepOfRun(
    ttlMs: nat, marginMs: nat, ts: seq<Timed>, steps: seq<Step>, ticks: seq<Tick>, i: nat)
    requires IsTimedRun(ttlMs, ts, steps, ticks) && IsPaced(ttlMs, marginMs, ts, steps, ticks)
    requires i < |steps| && PacedInv(ttlMs, marginMs, ts[i])
    ensures PacedInv(ttlMs, marginMs, ts[i + 1])
  {
    PacedNextInv(ttlMs, marginMs, ts[i], steps[i], ticks[i], ts[i + 1]);
  }

  lemma {:induction false} PacedRunInv(
    ttlMs: nat, marginMs: nat, ts: seq<Timed>, steps: seq<Step>, ticks: seq<Tick>, k: nat)
    requires IsTimedRun(ttlMs, ts, steps, ticks) && IsPaced(ttlMs, marginMs, ts, steps, ticks) && k < |ts|
    ensures PacedInv(ttlMs, marginMs, ts[k])
  {
    if k == 0 {
      StartIsPaced(ttlMs, marginMs, ts[0]);
    } else {
      PacedRunInv(ttlMs, marginMs, ts, steps, ticks, k - 1);
      PacedStepOfRun(ttlMs, marginMs, ts, steps, ticks, k - 1);
    }
  }

  /**
   * With one clock that keeps pace, no id leaves under a lease that has run out: each is out by the margin
   * before the end its lease was last given, and before the moment etcd let it lapse.
   */
  lemma IdsPrecedeTheLapse(
    ttlMs: nat, marginMs: nat, ts: seq<Timed>, steps: seq<Step>, ticks: seq<Tick>, k: nat, i: nat)
    requires IsTimedRun(ttlMs, ts, steps, ticks) && IsPaced(ttlMs, marginMs, ts, steps, ticks)
    requires k < |ts| && i < |ts[k].issues|
    ensures var issue := ts[k].issues[i];
            && issue.generation in ts[k].fleet.tenures
            && var leaseId := ts[k].fleet.tenures[issue.generation].leaseId;
               && leaseId in ts[k].expiresAt && issue.atMs + marginMs < ts[k].expiresAt[leaseId]
               && (leaseId in ts[k].lapsedAt ==> issue.atMs + marginMs < ts[k].lapsedAt[leaseId])
  {
    PacedRunInv(ttlMs, marginMs, ts, steps, ticks, k);
    assert IssueOk(marginMs, ts[k], ts[k].issues[i]);
  }

  // And the tenures of a node do not overlap in real time: once a later holder has handed out an id, no
  // earlier one does.
  lemma TenuresDoNotInterleave(
    ttlMs: nat, marginMs: nat, ts: seq<Timed>, steps: seq<Step>, ticks: seq<Tick>, k: nat, i: nat, j: nat)
    requires IsTimedRun(ttlMs, ts, steps, ticks) && IsPaced(ttlMs, marginMs, ts, steps, ticks)
    requires k < |ts| && i < j < |ts[k].issues| && ts[k].issues[i].nodeId == ts[k].issues[j].nodeId
    ensures ts[k].issues[i].generation <= ts[k].issues[j].generation
  {
    PacedRunInv(ttlMs, marginMs, ts, steps, ticks, k);
  }
}
