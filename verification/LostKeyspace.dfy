/**
 * Losing a keyspace altogether: every key and lease gone, revisions counting from wherever the new volume
 * starts, and a lift. Until the marker is back nobody claims, while old holders mint, renew and fail.
 */
module LostKeyspace {
  import opened Wrappers
  import opened LeaseKeyspace
  import opened LeaseProtocol
  import opened LeaseInvariant
  import opened LeaseSafety
  import opened LeasePrompt
  import opened FleetRuns
  import opened LiftSafety
  import opened Renumbering

  ghost predicate Wiped(s: Fleet, w: Fleet) {
    w == s.(etcd := Etcd(w.etcd.revision, false, None, {}, map[]))
  }

  // A prompt run from `w` to `s`, whose last step sets the marker.
  ghost predicate AdriftTo(w: Fleet, s: Fleet) {
    exists states: seq<Fleet>, steps: seq<Step> ::
      && IsChain(states, steps) && IsPrompt(states, steps) && states[0] == w && states[|steps|] == s
      && forall i :: 0 <= i < |steps| ==> !states[i].etcd.initialized
  }

  // Nobody acts for a generation above the revision: no holder, no release under way, no raise or drop in play.
  ghost predicate NoneAbove(s: Fleet, revision: nat) {
    && (forall pid, g: nat :: pid in s.procs && Carries(s.procs[pid], g) ==> g <= revision)
    && forall t :: t in s.orphans && !t.ClaimTxn? ==> t.generation <= revision
  }

  // ---------------------------------------------------------------- adrift

  ghost predicate NoOwners(e: Etcd) {
    forall n :: EntryOf(e, n).owner.None?
  }

  ghost predicate FloorsWritten(e: Etcd) {
    forall n :: EntryOf(e, n).floor.Some? ==> 0 < EntryOf(e, n).floor.value.modRevision <= e.revision
  }

  predicate ClaimsUnder(dead: set<nat>, op: StoreOp) {
    && (op.Claiming? ==> op.leaseId in dead)
    && ((HasTxn(op) || op.RenewAlive?) && op.txn.ClaimTxn? ==> op.txn.leaseId in dead)
  }

  // All claims made are under leases that are gone.
  ghost predicate ClaimsDead(dead: set<nat>, u: Fleet) {
    && dead !! u.etcd.leases && dead <= u.leaseOwner.Keys
    && (forall t :: t in u.orphans && t.ClaimTxn? ==> t.leaseId in dead)
    && forall pid :: pid in u.procs ==> ClaimsUnder(dead, u.procs[pid].store)
  }

  // The fleet adrift moves as one that kept its floors and lost only its owner keys and leases.
  ghost predicate Adrift(dead: set<nat>, u: Fleet, r: Fleet) {
    && u == r.(etcd := u.etcd) && r.etcd.leases == u.etcd.leases
    && NoOwners(u.etcd) && NoOwners(r.etcd) && FloorsWritten(u.etcd) && ClaimsDead(dead, u)
  }

  function Emptied(e: Etcd): Etcd {
    e.(leases := {}, nodes := map n | n in e.nodes :: e.nodes[n].(owner := None))
  }

  lemma EmptiedEntry(e: Etcd, n: int)
    ensures EntryOf(Emptied(e), n) == EntryOf(e, n).(owner := None)
  {
  }

  lemma EmptiedInv(s: Fleet)
    requires Inv(s)
    ensures Inv(s.(etcd := Emptied(s.etcd)))
  {
    var s' := s.(etcd := Emptied(s.etcd));
    forall n ensures EntryOf(s'.etcd, n).floor == EntryOf(s.etcd, n).floor {
      EmptiedEntry(s.etcd, n);
    }
    KeyspaceInv(s, s');
  }

  lemma UnownedIsSound(s: Fleet, s': Fleet)
    requires Sound(s) && Inv(s') && s' == s.(etcd := s'.etcd) && NoOwners(s'.etcd)
    ensures Sound(s')
  {
    forall t | InPlay(s', t) ensures Current(s'.etcd, t) {
      assert EntryOf(s'.etcd, t.nodeId).owner.None?;
    }
    assert forall pid, g :: ActsFor(s', pid, g) ==> ActsFor(s, pid, g);
  }

  lemma LossIsAdrift(s: Fleet, w: Fleet) returns (r: Fleet)
    requires Sound(s) && Wiped(s, w)
    ensures Adrift(s.leaseOwner.Keys, w, r) && Sound(r)
  {
    r := s.(etcd := Emptied(s.etcd));
    EmptiedInv(s);
    forall n ensures EntryOf(r.etcd, n).owner.None? {
      EmptiedEntry(s.etcd, n);
    }
    UnownedIsSound(s, r);
    forall pid | pid in w.procs ensures ClaimsUnder(s.leaseOwner.Keys, w.procs[pid].store) {
      assert ProcOk(s, pid, s.procs[pid]);
    }
  }

  // ---------------------------------------------------------------- a step adrift

  // With nobody owning a node and every claim dead, no transaction goes through.
  lemma NothingSucceeds(dead: set<nat>, e: Etcd, t: Txn)
    requires NoOwners(e) && dead !! e.leases && (t.ClaimTxn? ==> t.leaseId in dead)
    ensures !Succeeds(e, t)
  {
    assert EntryOf(e, t.nodeId).owner.None?;
  }

  ghost predicate Drifts(dead: set<nat>, u': Fleet, r: Fleet, r': Fleet) {
    Adrift(dead, u', r') && (r' == r || exists step :: Next(r, step, r') && Prompt(r, step))
  }

  // A process finds its node unowned, whichever of the two keyspaces it looks at.
  lemma MoveAlikeAdrift(dead: set<nat>, u: Fleet, r: Fleet, step: Step, p: Process, p': Process)
    requires IsProcessMove(step) && !u.etcd.initialized && MovesTo(u, step, step.pid, p, p')
    requires r.etcd.leases == u.etcd.leases && NoOwners(u.etcd) && NoOwners(r.etcd) && ClaimsUnder(dead, p.store)
    ensures MovesTo(r, step, step.pid, p, p') && ClaimsUnder(dead, p'.store)
  {
    if step.ReadForReject? || step.ReadForRenew? || step.ReadForRelease? {
      var n := if step.ReadForReject? then p.store.nodeId else if step.ReadForRenew? then p.store.renewal.nodeId
               else p.store.request.nodeId;
      assert EntryOf(u.etcd, n).owner.None? && EntryOf(r.etcd, n).owner.None?;
    }
  }

  lemma ReplacedAdrift(dead: set<nat>, u: Fleet, r: Fleet, pid: nat, p: Process)
    requires Adrift(dead, u, r) && pid in u.procs && ClaimsUnder(dead, p.store)
    ensures Adrift(dead, With(u, pid, p), With(r, pid, p))
  {
  }

  lemma MoveDrifts(dead: set<nat>, u: Fleet, step: Step, u': Fleet, r: Fleet) returns (r': Fleet)
    requires Adrift(dead, u, r) && !u.etcd.initialized && Next(u, step, u') && IsProcessMove(step)
    ensures Drifts(dead, u', r, r')
  {
    var p' := u'.procs[step.pid];
    MoveAlikeAdrift(dead, u, r, step, u.procs[step.pid], p');
    ReplacedAdrift(dead, u, r, step.pid, p');
    r' := With(r, step.pid, p');
    MovesNext(r, step, p');
  }

  lemma LandDrifts(dead: set<nat>, u: Fleet, step: Step, u': Fleet, r: Fleet) returns (r': Fleet)
    requires Adrift(dead, u, r) && Next(u, step, u') && step.Land?
    ensures Drifts(dead, u', r, r')
  {
    var p := u.procs[step.pid];
    NothingSucceeds(dead, u.etcd, p.store.txn);
    NothingSucceeds(dead, r.etcd, p.store.txn);
    var p' := Settled(p, r.etcd, step.maxFloorAheadMs);
    assert p' == Settled(p, u.etcd, step.maxFloorAheadMs);
    ReplacedAdrift(dead, u, r, step.pid, p');
    r' := With(r, step.pid, p');
    assert Next(r, step, r') && Prompt(r, step);
  }

  lemma FailDrifts(dead: set<nat>, u: Fleet, step: Step, u': Fleet, r: Fleet) returns (r': Fleet)
    requires Adrift(dead, u, r) && Next(u, step, u') && Prompt(u, step) && step.Fail?
    ensures Drifts(dead, u', r, r')
  {
    var p := u.procs[step.pid];
    if HasTxn(p.store) {
      NothingSucceeds(dead, u.etcd, p.store.txn);
      NothingSucceeds(dead, r.etcd, p.store.txn);
    }
    r' := With(AfterFailing(r, p.store, step.fate), step.pid, Failed(p));
    ReplacedAdrift(dead, AfterFailing(u, p.store, step.fate), AfterFailing(r, p.store, step.fate), step.pid, Failed(p));
    assert Next(r, step, r') && Prompt(r, step);
  }

  lemma GrantDrifts(dead: set<nat>, u: Fleet, step: Step, u': Fleet, r: Fleet) returns (r': Fleet)
    requires Adrift(dead, u, r) && Next(u, step, u') && step.GrantLease?
    ensures Drifts(dead, u', r, r')
  {
    r' := u'.(etcd := r.etcd.(leases := u'.etcd.leases));
    assert forall n :: EntryOf(u'.etcd, n) == EntryOf(u.etcd, n) && EntryOf(r'.etcd, n) == EntryOf(r.etcd, n);
    assert Next(r, step, r') && Prompt(r, step);
  }

  lemma GenerateDrifts(dead: set<nat>, u: Fleet, step: Step, u': Fleet, r: Fleet) returns (r': Fleet)
    requires Adrift(dead, u, r) && Next(u, step, u') && (step.Generate? || step.Spawn? || step.Crash?)
    ensures Drifts(dead, u', r, r')
  {
    r' := u'.(etcd := r.etcd);
    assert Next(r, step, r') && Prompt(r, step);
  }

  lemma OrphanDrifts(dead: set<nat>, u: Fleet, step: Step, u': Fleet, r: Fleet) returns (r': Fleet)
    requires Adrift(dead, u, r) && Next(u, step, u') && step.LandOrphan?
    ensures Drifts(dead, u', r, r')
  {
    NothingSucceeds(dead, u.etcd, step.txn);
    NothingSucceeds(dead, r.etcd, step.txn);
    r' := u'.(etcd := r.etcd);
    assert Next(r, step, r') && Prompt(r, step);
  }

  lemma ExpireDrifts(dead: set<nat>, u: Fleet, step: Step, u': Fleet, r: Fleet) returns (r': Fleet)
    requires Adrift(dead, u, r) && Next(u, step, u') && step.ExpireLease?
    ensures Drifts(dead, u', r, r')
  {
    r' := r.(etcd := Expire(r.etcd, step.leaseId));
    forall n ensures EntryOf(u'.etcd, n) == EntryOf(u.etcd, n) && EntryOf(r'.etcd, n) == EntryOf(r.etcd, n) {
    }
    assert Next(r, step, r') && Prompt(r, step);
  }

  // A chunk of the lift, and the marker, are written to the new volume alone.
  lemma LiftDrifts(dead: set<nat>, u: Fleet, step: Step, u': Fleet, r: Fleet)
    requires Adrift(dead, u, r) && Next(u, step, u') && (step.LiftChunk? || step.MarkInitialized?)
    ensures Adrift(dead, u', r)
  {
    forall n ensures EntryOf(u'.etcd, n).owner.None? &&
                     (EntryOf(u'.etcd, n).floor.Some? ==>
                        0 < EntryOf(u'.etcd, n).floor.value.modRevision <= u'.etcd.revision)
    {
      if step.LiftChunk? {
        LiftAt(u.etcd, step.chunk, step.nowMs, n);
      } else {
        assert EntryOf(u'.etcd, n) == EntryOf(u.etcd, n);
      }
    }
  }

  lemma StepDrifts(dead: set<nat>, u: Fleet, step: Step, u': Fleet, r: Fleet) returns (r': Fleet)
    requires Adrift(dead, u, r) && !u.etcd.initialized && Next(u, step, u') && Prompt(u, step)
    ensures Drifts(dead, u', r, r')
  {
    if IsProcessMove(step) {
      r' := MoveDrifts(dead, u, step, u', r);
    } else if step.Land? {
      r' := LandDrifts(dead, u, step, u', r);
    } else if step.Fail? {
      r' := FailDrifts(dead, u, step, u', r);
    } else if step.GrantLease? {
      r' := GrantDrifts(dead, u, step, u', r);
    } else if step.Generate? || step.Spawn? || step.Crash? {
      r' := GenerateDrifts(dead, u, step, u', r);
    } else if step.LandOrphan? {
      r' := OrphanDrifts(dead, u, step, u', r);
    } else if step.ExpireLease? {
      r' := ExpireDrifts(dead, u, step, u', r);
    } else {
      LiftDrifts(dead, u, step, u', r);
      r' := r;
    }
  }

  lemma {:induction false} ChainDrifts(dead: set<nat>, states: seq<Fleet>, steps: seq<Step>, r: Fleet, i: nat)
    returns (r': Fleet)
    requires IsChain(states, steps) && IsPrompt(states, steps) && Adrift(dead, states[0], r) && Sound(r) && i < |states|
    requires forall j :: 0 <= j < |steps| ==> !states[j].etcd.initialized
    ensures Adrift(dead, states[i], r') && Sound(r')
  {
    if i == 0 {
      r' := r;
    } else {
      var r1 := ChainDrifts(dead, states, steps, r, i - 1);
      r' := StepDrifts(dead, states[i - 1], steps[i - 1], states[i], r1);
      DriftStaysSound(dead, states[i], r1, r');
    }
  }

  lemma DriftStaysSound(dead: set<nat>, u': Fleet, r: Fleet, r': Fleet)
    requires Sound(r) && Drifts(dead, u', r, r')
    ensures Sound(r')
  {
    if r' != r {
      var step :| Next(r, step, r') && Prompt(r, step);
      PromptStepKeepsSound(r, step, r');
    }
  }

  // ---------------------------------------------------------------- the marker is back

  // The new volume's numbers, counted on from where the fleet that kept its floors has got to.
  function ShiftTo(u: Fleet, r: Fleet, dead: set<nat>): Shift {
    Shift(u.etcd.revision, r.etcd.revision, dead)
  }

  lemma UpIsRelifted(k: Shift, u: Fleet, r: Fleet)
    requires Adrift(k.dead, u, r) && AllFree(u.etcd) && k == ShiftTo(u, r, k.dead)
    ensures Relifted(r, r.(etcd := EtcdUp(k, u.etcd)))
  {
    var e := EtcdUp(k, u.etcd);
    forall n ensures EntryOf(e, n) == EntryUp(k, EntryOf(u.etcd, n)) {
      EntryUpOf(k, u.etcd, n);
    }
    forall n | EntryOf(e, n).floor.Some? ensures IsNewer(r.etcd, e, EntryOf(e, n).floor.value) {
      assert EntryOf(u.etcd, n).floor.Some?;
    }
  }

  lemma UpIsSound(k: Shift, u: Fleet, r: Fleet)
    requires Adrift(k.dead, u, r) && Sound(r) && AllFree(u.etcd) && k == ShiftTo(u, r, k.dead)
    requires StampedBelow(u, u.etcd) && CeilingsBelow(u, u.etcd)
    ensures Sound(r.(etcd := EtcdUp(k, u.etcd)))
  {
    var r' := r.(etcd := EtcdUp(k, u.etcd));
    forall n ensures EntryOf(r'.etcd, n) == EntryUp(k, EntryOf(u.etcd, n)) {
      EntryUpOf(k, u.etcd, n);
    }
    UpIsRelifted(k, u, r);
    assert forall n :: FloorMs(r'.etcd, n) == FloorMs(u.etcd, n);
    LiftKeepsInv(r, r');
    UnownedIsSound(r, r');
  }

  // Whoever acts for no generation above `from` is its own renumbering.
  lemma ProcIsItself(k: Shift, s: Fleet, pid: nat, p: Process)
    requires ProcOk(s, pid, p) && ClaimsUnder(k.dead, p.store) && forall g: nat :: Carries(p, g) ==> g <= k.from
    ensures ProcSim(k, p, p)
  {
    if p.lease.held.Some? {
      assert Carries(p, p.lease.held.value.generation);
    }
    match p.store
    case ReadoptSent(txn, _, _) => assert Carries(p, txn.generation);
    case RejectRead(n, g) => assert Carries(p, g);
    case RejectSent(txn) => assert Carries(p, txn.generation);
    case RenewSent(txn) => assert Carries(p, txn.generation);
    case ReleaseRead(r) => assert Carries(p, r.generation);
    case ReleaseSent(txn) => assert Carries(p, txn.generation);
    case _ =>
  }

  lemma UpSims(k: Shift, u: Fleet, r: Fleet)
    requires Adrift(k.dead, u, r) && Inv(r) && k == ShiftTo(u, r, k.dead) && NoneAbove(u, u.etcd.revision)
    ensures FleetSim(k, u, r.(etcd := EtcdUp(k, u.etcd)))
  {
    forall pid | pid in u.procs ensures ProcSim(k, u.procs[pid], r.procs[pid]) {
      assert ProcOk(r, pid, r.procs[pid]);
      ProcIsItself(k, r, pid, u.procs[pid]);
    }
  }

  /**
   * A keyspace lost whole and lifted on a new volume, with whatever its old holders did in the meantime, is
   * safe if nothing was or can be stamped above the floors, and nobody acts for a generation that the new
   * revisions have still to reach.
   */
  lemma LiftedVolumeIsSafe(s: Fleet, w: Fleet, s': Fleet, end: Fleet)
    requires Sound(s) && Wiped(s, w) && AdriftTo(w, s') && AllFree(s'.etcd)
    requires StampedBelow(s', s'.etcd) && CeilingsBelow(s', s'.etcd) && NoneAbove(s', s'.etcd.revision)
    requires Follows(PromptRun, s', end)
    ensures AllDistinct(end.emitted)
  {
    var r := DriftsHome(s, w, s');
    var k := ShiftTo(s', r, s.leaseOwner.Keys);
    UpIsSound(k, s', r);
    UpSims(k, s', r);
    var states, steps :| IsChain(states, steps) && states[0] == s' && states[|steps|] == end
      && StepsOk(PromptRun, states, steps);
    MirroredRunsStayDistinct(k, states, steps, r.(etcd := EtcdUp(k, s'.etcd)), |steps|);
  }

  // The fleet that kept its floors, at the time the marker is back.
  lemma DriftsHome(s: Fleet, w: Fleet, s': Fleet) returns (r: Fleet)
    requires Sound(s) && Wiped(s, w) && AdriftTo(w, s')
    ensures Adrift(s.leaseOwner.Keys, s', r) && Sound(r)
  {
    var r0 := LossIsAdrift(s, w);
    var states: seq<Fleet>, steps: seq<Step> :|
      && IsChain(states, steps) && IsPrompt(states, steps) && states[0] == w && states[|steps|] == s'
      && forall i :: 0 <= i < |steps| ==> !states[i].etcd.initialized;
    r := ChainDrifts(s.leaseOwner.Keys, states, steps, r0, |steps|);
  }
}
