/**
 * Lifting a keyspace under a fleet that outlived its owner keys: processes that still believe in their nodes,
 * transactions still on their way, tenures nobody can look up any more. Revisions go on from where they were.
 */
module LiftSafety {
  import opened Wrappers
  import opened LeaseKeyspace
  import opened LeaseProtocol
  import opened LeaseInvariant
  import opened LeaseSafety
  import opened FleetRuns

  // Nobody holds a node, and every leasable one has a floor.
  ghost predicate AllFree(e: Etcd) {
    && e.initialized && (forall n :: EntryOf(e, n).owner.None?)
    && forall n :: Leasable(n) ==> EntryOf(e, n).floor.Some?
  }

  // Every key was lost, and every leasable node has a floor again, written by a later revision.
  ghost predicate Relifted(s: Fleet, s': Fleet) {
    && s' == s.(etcd := s'.etcd) && s.etcd.revision <= s'.etcd.revision && AllFree(s'.etcd)
    && (forall n :: EntryOf(s'.etcd, n).floor.Some? ==> IsNewer(s.etcd, s'.etcd, EntryOf(s'.etcd, n).floor.value))
  }

  predicate IsNewer(e: Etcd, e': Etcd, floor: Floor) {
    e.revision < floor.modRevision <= e'.revision
  }

  function FloorMs(e: Etcd, nodeId: int): int {
    OrZero(FloorOf(EntryOf(e, nodeId)))
  }

  // Nothing was stamped above the floors of `e`.
  ghost predicate StampedBelow(s: Fleet, e: Etcd) {
    forall d :: d in s.emitted ==> Leasable(d.id.nodeId) && d.id.tsMs <= FloorMs(e, d.id.nodeId)
  }

  // And no holder may still stamp above them.
  ghost predicate CeilingsBelow(s: Fleet, e: Etcd) {
    forall pid :: pid in s.procs && s.procs[pid].lease.held.Some? ==>
                    s.procs[pid].lease.held.value.leaseUntilMs <= FloorMs(e, s.procs[pid].lease.held.value.mint.nodeId)
  }

  lemma ReliftedCovers(s: Fleet, s': Fleet, nodeId: int, generation: nat, ms: int)
    requires Relifted(s, s') && Covered(s, nodeId, generation, ms) && Leasable(nodeId) && ms <= FloorMs(s'.etcd, nodeId)
    ensures Covered(s', nodeId, generation, ms)
  {
  }

  lemma ReliftedMoves(s: Fleet, s': Fleet)
    requires Inv(s) && Relifted(s, s')
    ensures KeyspaceMoved(s, s') && CandidatesKept(s, s') && EtcdOk(s')
  {
    forall n | Leasable(n) ensures IsNewer(s.etcd, s'.etcd, EntryOf(s'.etcd, n).floor.value) {
      assert EntryOf(s'.etcd, n).floor.Some?;
    }
    forall n | n in s'.etcd.nodes && s'.etcd.nodes[n].floor.Some?
      ensures IsNewer(s.etcd, s'.etcd, s'.etcd.nodes[n].floor.value)
    {
      assert EntryOf(s'.etcd, n).floor.Some?;
    }
    assert forall n :: n in s'.etcd.nodes ==> EntryOf(s'.etcd, n).owner.None?;
  }

  /**
   * The lift re-establishes what uniqueness needs, with processes, half-done operations and transactions on
   * their way left exactly as they are, if no old holder can stamp above the floors.
   */
  lemma LiftKeepsInv(s: Fleet, s': Fleet)
    requires Inv(s) && Relifted(s, s') && StampedBelow(s, s'.etcd) && CeilingsBelow(s, s'.etcd)
    ensures Inv(s')
  {
    ReliftedMoves(s, s');
    forall i | 0 <= i < |s.emitted| ensures EmissionOk(s', s.emitted[i]) {
      var e := s.emitted[i];
      assert EmissionOk(s, e);
      ReliftedCovers(s, s', e.id.nodeId, e.generation, e.id.tsMs);
    }
    forall pid | pid in s.procs ensures HeldCovered(s', s.procs[pid]) {
      assert ProcOk(s, pid, s.procs[pid]);
      if s.procs[pid].lease.held.Some? {
        var t := s.procs[pid].lease.held.value;
        ReliftedCovers(s, s', t.mint.nodeId, t.generation, t.leaseUntilMs);
      }
    }
    forall t | InPlay(s, t) && TxnOk(s, t) ensures TxnOk(s', t) {
      ReliftedTxn(s, s', t);
    }
    KeyspaceInv(s, s');
  }

  lemma ReliftedTxn(s: Fleet, s': Fleet, t: Txn)
    requires Inv(s) && Relifted(s, s') && CandidatesKept(s, s') && TxnOk(s, t)
    ensures TxnOk(s', t)
  {
  }

  // A newcomer would start below what this holder may still stamp.
  lemma FloorBelowHolderReissues(rules: Rules, s: Fleet, pid: nat) returns (end: Fleet)
    requires Hosts(s) && AllFree(s.etcd) && pid in s.procs && s.procs[pid].lease.held.Some?
    requires var t := s.procs[pid].lease.held.value;
             MayStamp(s.procs[pid], t.leaseUntilMs) && FloorMs(s.etcd, t.mint.nodeId) < t.leaseUntilMs
    ensures Follows(rules, s, end) && !AllDistinct(end.emitted)
  {
    var t := s.procs[pid].lease.held.value;
    Starts(rules, s);
    var s1 := Mints(rules, s, s, pid, t.leaseUntilMs);
    assert EntryOf(s.etcd, t.mint.nodeId).owner.None?;
    end := NewcomerStamps(rules, s, s1, t.mint.nodeId, t.leaseUntilMs, TTL_MS);
    assert end.emitted[|s.emitted|] == s1.emitted[|s.emitted|];
    assert end.emitted[|s.emitted|].id == end.emitted[|s.emitted| + 1].id;
  }

  /**
   * Exactly when such a lift is safe. With nothing stamped above the floors yet, and every holder that could
   * outlive the lift short of its ceiling, no id is ever repeated after it if and only if no ceiling is
   * above its node's floor: what waiting out the TTL of every replica is for.
   */
  lemma LiftIsSafeIffNoCeilingAbove(s: Fleet, s': Fleet)
    requires Inv(s) && Relifted(s, s') && StampedBelow(s, s'.etcd)
    requires forall pid :: pid in s.procs && s.procs[pid].lease.held.Some? ==>
               MayStamp(s.procs[pid], s.procs[pid].lease.held.value.leaseUntilMs)
    ensures (forall end :: Follows(GuardedRun, s', end) ==> AllDistinct(end.emitted)) <==> CeilingsBelow(s, s'.etcd)
  {
    if CeilingsBelow(s, s'.etcd) {
      LiftKeepsInv(s, s');
      forall end | Follows(GuardedRun, s', end) ensures AllDistinct(end.emitted) {
        CoveredStaysDistinct(s', end);
      }
    } else {
      var pid :|
        && pid in s.procs && s.procs[pid].lease.held.Some?
        && var t := s.procs[pid].lease.held.value; FloorMs(s'.etcd, t.mint.nodeId) < t.leaseUntilMs;
      assert forall n, l: nat :: OwnedUnder(s'.etcd, n, l) ==> EntryOf(s'.etcd, n).owner.Some?;
      var end := FloorBelowHolderReissues(GuardedRun, s', pid);
    }
  }
}
