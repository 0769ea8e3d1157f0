/**
 * The etcd keyspace of the leases: each node has a floor key and, while it is held, an owner key that goes
 * when its etcd lease does. etcd is a linearizable map with a revision that strictly increases at every
 * write; a transaction is a guard and the puts and deletes it performs when the guard holds.
 */
module LeaseKeyspace {
  import opened Wrappers

  const LEASED_NODE_MIN: int := 1
  const LEASED_NODE_MAX: int := 254

  // `generation` is the revision that created the owner key, so each claim of a node has one of its own.
  datatype Owner = Owner(generation: nat, leaseId: nat, claimFloorMs: Option<int>)

  datatype Floor = Floor(ms: int, modRevision: nat)

  datatype NodeEntry = NodeEntry(owner: Option<Owner>, floor: Option<Floor>)

  // `initialized` and `emptySinceMs` are the two keys the floor lift writes besides the floors.
  datatype Etcd = Etcd(
    revision: nat, initialized: bool, emptySinceMs: Option<int>, leases: set<nat>, nodes: map<int, NodeEntry>)

  predicate Leasable(nodeId: int) {
    LEASED_NODE_MIN <= nodeId <= LEASED_NODE_MAX
  }

  function EntryOf(e: Etcd, nodeId: int): NodeEntry {
    if nodeId in e.nodes then e.nodes[nodeId] else NodeEntry(None, None)
  }

  function FloorOf(entry: NodeEntry): Option<int> {
    if entry.floor.Some? then Some(entry.floor.value.ms) else None
  }

  // A compare against a key that does not exist sees revision 0.
  function ModRevisionOf(entry: NodeEntry): nat {
    if entry.floor.Some? then entry.floor.value.modRevision else 0
  }

  // What an unheld node guarantees its next holder, and a held node guarantees the one after.
  function Base(entry: NodeEntry): int {
    if entry.owner.Some? then OrZero(entry.owner.value.claimFloorMs) else OrZero(FloorOf(entry))
  }

  predicate IsHeldBy(entry: NodeEntry, generation: nat) {
    entry.owner.Some? && entry.owner.value.generation == generation
  }

  datatype Txn =
    | ClaimTxn(nodeId: int, floorModRevision: nat, leaseId: nat, claimFloorMs: Option<int>, ceilingMs: int)
    | RaiseTxn(nodeId: int, generation: nat, ceilingMs: int)
    | DropTxn(nodeId: int, generation: nat, floorMs: int)

  // ---------------------------------------------------------------- the transactions a store builds

  // The ceiling starts above the clock and above the floor that was read.
  function ClaimFor(nodeId: int, entry: NodeEntry, leaseId: nat, nowMs: int, ttlMs: int): Txn {
    ClaimTxn(nodeId, ModRevisionOf(entry), leaseId, FloorOf(entry), Max(nowMs, OrZero(FloorOf(entry))) + ttlMs)
  }

  // A renew keeps what the floor already reserves, wherever the wall clock has gone.
  function RaiseFor(nodeId: int, entry: NodeEntry, generation: nat, stampedMs: int, ttlMs: int): Txn {
    RaiseTxn(nodeId, generation, Max(OrZero(FloorOf(entry)), stampedMs + ttlMs))
  }

  // A release gives back what was reserved and not stamped, down to where the claim started.
  function DropFor(nodeId: int, owner: Owner, lastMs: Option<int>): Txn {
    DropTxn(nodeId, owner.generation, Max(OrZero(owner.claimFloorMs), OrZero(lastMs)))
  }

  // ---------------------------------------------------------------- what etcd does with them

  predicate Succeeds(e: Etcd, t: Txn) {
    var entry := EntryOf(e, t.nodeId);
    match t
    case ClaimTxn(_, mod, leaseId, _, _) => entry.owner.None? && ModRevisionOf(entry) == mod && leaseId in e.leases
    case RaiseTxn(_, generation, _) => IsHeldBy(entry, generation)
    case DropTxn(_, generation, _) => IsHeldBy(entry, generation)
  }

  function Written(e: Etcd, t: Txn): NodeEntry {
    var revision := e.revision + 1;
    match t
    case ClaimTxn(_, _, leaseId, claimFloorMs, ceilingMs) =>
      NodeEntry(Some(Owner(revision, leaseId, claimFloorMs)), Some(Floor(ceilingMs, revision)))
    case RaiseTxn(_, _, ceilingMs) => NodeEntry(EntryOf(e, t.nodeId).owner, Some(Floor(ceilingMs, revision)))
    case DropTxn(_, _, floorMs) => NodeEntry(None, Some(Floor(floorMs, revision)))
  }

  function Apply(e: Etcd, t: Txn): Etcd {
    if Succeeds(e, t) then e.(revision := e.revision + 1, nodes := e.nodes[t.nodeId := Written(e, t)]) else e
  }

  // Expiry or revocation deletes every key attached to the lease.
  function Expire(e: Etcd, leaseId: nat): Etcd {
    e.(revision := e.revision + 1, leases := e.leases - {leaseId},
       nodes := map n | n in e.nodes ::
                  if e.nodes[n].owner.Some? && e.nodes[n].owner.value.leaseId == leaseId
                  then e.nodes[n].(owner := None) else e.nodes[n])
  }

  // One transaction of the floor lift: every node of the chunk is unheld, and no floor comes down.
  predicate MayLift(e: Etcd, chunk: set<int>) {
    forall n :: n in chunk ==> EntryOf(e, n).owner.None?
  }

  function Lift(e: Etcd, chunk: set<int>, nowMs: int): Etcd {
    e.(revision := e.revision + 1,
       nodes := e.nodes + map n | n in chunk ::
                  NodeEntry(EntryOf(e, n).owner,
                    Some(Floor(Max(OrZero(FloorOf(EntryOf(e, n))), nowMs), e.revision + 1))))
  }

  // A lift never lowers a floor, and leaves every other node and every owner alone.
  lemma LiftAt(e: Etcd, chunk: set<int>, nowMs: int, n: int)
    requires MayLift(e, chunk)
    ensures var before, after := EntryOf(e, n), EntryOf(Lift(e, chunk, nowMs), n);
            if n in chunk then
              && after.owner.None? && after.floor.Some? && after.floor.value.modRevision == e.revision + 1
              && nowMs <= after.floor.value.ms && OrZero(FloorOf(before)) <= after.floor.value.ms
            else after == before
  {
  }
}
