/**
 * The floor lift: raises every node's floor to an instant no id was stamped after, in chunks, and then
 * marks the keyspace initialized. Other clients write between its calls, and it may stop between chunks.
 */
module FloorLift {
  import opened Wrappers
  import opened LeaseKeyspace
  import opened EtcdLeaseStores
  import opened LeaseProtocol
  import opened LeaseInvariant

  const NODES_PER_TXN: nat := 50

  datatype LiftOutcome =
    | Lifted(floorMs: int)
    | AlreadyInitialized
    | NodesHeld
    | Settling(remainingMs: int)
    | Conflict
    | StoreFailed

  // What the rest of the fleet does to any keyspace: it never takes a base back, and a floor key whose
  // revision did not move has not been written.
  ghost predicate Steadfast(e: Etcd, e': Etcd) {
    && e.revision <= e'.revision && (RevisionsOk(e) ==> RevisionsOk(e'))
    && forall n {:trigger EntryOf(e', n)} ::
      && Base(EntryOf(e, n)) <= Base(EntryOf(e', n))
      && (ModRevisionOf(EntryOf(e', n)) == ModRevisionOf(EntryOf(e, n)) ==> EntryOf(e', n).floor == EntryOf(e, n).floor)
      && ModRevisionOf(EntryOf(e, n)) <= ModRevisionOf(EntryOf(e', n))
  }

  // The guards of one chunk: no node is held, and no floor was written since it was read.
  predicate ChunkMatches(e: Etcd, chunk: map<int, NodeEntry>) {
    forall n :: n in chunk ==>
      EntryOf(e, n).owner.None? && ModRevisionOf(EntryOf(e, n)) == ModRevisionOf(chunk[n])
  }

  // Its puts: the floor that was read, raised to `nowMs`.
  function ChunkWritten(e: Etcd, chunk: map<int, NodeEntry>, nowMs: int): Etcd {
    e.(revision := e.revision + 1,
       nodes := e.nodes + map n | n in chunk ::
                  NodeEntry(None, Some(Floor(Max(OrZero(FloorOf(chunk[n])), nowMs), e.revision + 1))))
  }

  // An entry that still matches its floor's revision was read from the current floor.
  ghost predicate ReadFrom(e: Etcd, chunk: map<int, NodeEntry>) {
    forall n :: n in chunk && ModRevisionOf(EntryOf(e, n)) == ModRevisionOf(chunk[n]) ==>
                  FloorOf(EntryOf(e, n)) == FloorOf(chunk[n])
  }

  // A chunk that matches is one lift step of the fleet: no floor comes down, no held node is touched.
  lemma ChunkIsLift(e: Etcd, chunk: map<int, NodeEntry>, nowMs: int)
    requires ChunkMatches(e, chunk) && ReadFrom(e, chunk)
    ensures MayLift(e, chunk.Keys) && ChunkWritten(e, chunk, nowMs) == Lift(e, chunk.Keys, nowMs)
  {
  }

  lemma ChunkLifts(e: Etcd, chunk: map<int, NodeEntry>, nowMs: int, n: int)
    requires ChunkMatches(e, chunk) && ReadFrom(e, chunk)
    ensures Base(EntryOf(e, n)) <= Base(EntryOf(ChunkWritten(e, chunk, nowMs), n))
    ensures n in chunk ==> nowMs <= Base(EntryOf(ChunkWritten(e, chunk, nowMs), n))
    ensures EntryOf(e, n).owner.Some? ==> EntryOf(ChunkWritten(e, chunk, nowMs), n) == EntryOf(e, n)
  {
    ChunkIsLift(e, chunk, nowMs);
    LiftAt(e, chunk.Keys, nowMs, n);
  }

  lemma ChunkMoves(e: Etcd, chunk: map<int, NodeEntry>, nowMs: int)
    requires ChunkMatches(e, chunk) && ReadFrom(e, chunk) && RevisionsOk(e)
    ensures var e' := ChunkWritten(e, chunk, nowMs);
            && OnlyRisen(e, e') && RevisionsOk(e')
            && (forall n :: n in chunk ==> IsLifted(EntryOf(e', n), nowMs, e.revision))
            && (forall n :: EntryOf(e', n).owner == EntryOf(e, n).owner)
            && (forall n :: n !in chunk ==> EntryOf(e', n) == EntryOf(e, n))
  {
    forall n ensures && Base(EntryOf(e, n)) <= Base(EntryOf(ChunkWritten(e, chunk, nowMs), n))
                     && (n in chunk ==> IsLifted(EntryOf(ChunkWritten(e, chunk, nowMs), n), nowMs, e.revision))
    {
      ChunkLifts(e, chunk, nowMs, n);
    }
  }

  // The floor keys of nodes `from` on are as they were read, or have a newer revision.
  ghost predicate Remembered(e: Etcd, read: Etcd, from: int) {
    forall n :: from <= n ==>
      && ModRevisionOf(EntryOf(read, n)) <= ModRevisionOf(EntryOf(e, n))
      && (ModRevisionOf(EntryOf(e, n)) == ModRevisionOf(EntryOf(read, n)) ==>
         EntryOf(e, n).floor == EntryOf(read, n).floor)
  }

  // No node's base fell, and no floor key went back to an older revision.
  ghost predicate OnlyRisen(e: Etcd, e': Etcd) {
    && e.revision <= e'.revision
    && forall n ::
      && Base(EntryOf(e, n)) <= Base(EntryOf(e', n))
      && ModRevisionOf(EntryOf(e, n)) <= ModRevisionOf(EntryOf(e', n))
  }

  ghost predicate RevisionsOk(e: Etcd) {
    forall n :: ModRevisionOf(EntryOf(e, n)) <= e.revision
  }

  // The node's next holder starts at `nowMs` or above, and its floor is newer than `revision`.
  predicate IsLifted(entry: NodeEntry, nowMs: int, revision: nat) {
    nowMs <= Base(entry) && revision < ModRevisionOf(entry)
  }

  ghost predicate AllLifted(e: Etcd, below: int, nowMs: int, revision: nat) {
    forall n :: LEASED_NODE_MIN <= n < below && Leasable(n) ==> IsLifted(EntryOf(e, n), nowMs, revision)
  }

  lemma SameNodesRevisionsOk(e: Etcd, e': Etcd)
    requires RevisionsOk(e) && e'.nodes == e.nodes && e.revision <= e'.revision
    ensures RevisionsOk(e')
  {
    assert forall n :: EntryOf(e', n) == EntryOf(e, n);
  }

  class FloorLifter {
    const client: EtcdClient

    constructor (client: EtcdClient)
      ensures this.client == client
    {
      this.client := client;
    }

    ghost predicate Valid()
      reads this, client
    {
      client.Valid() && RevisionsOk(client.state) && forall i, e :: Steadfast(e, client.others(i, e))
    }

    // Other clients write, and undo nothing the lift relies on.
    method Interfere(ghost read: Etcd, ghost from: int)
      requires Valid()
      modifies client`state, client`calls
      ensures Valid() && OnlyRisen(old(client.state), client.state)
      ensures Remembered(old(client.state), read, from) ==> Remembered(client.state, read, from)
      ensures client.calls == old(client.calls) + 1
      ensures client.state == client.others(old(client.calls), old(client.state))
    {
      client.Interfere();
      assert Steadfast(old(client.state), client.state);
    }

    // A write that leaves every owner key alone.
    method Write(e: Etcd)
      requires Valid() && client.state.revision <= e.revision && RevisionsOk(e) && e.leases == client.state.leases
      requires forall n :: EntryOf(e, n).owner == EntryOf(client.state, n).owner
      modifies client`state
      ensures Valid() && client.state == e
    {
      ghost var before := client.state;
      forall n, l: nat | OwnedBy(e, n, l)
        ensures OwnedBy(before, n, l) && EntryOf(e, n).owner == EntryOf(before, n).owner
      {
        assert EntryOf(e, n).owner == EntryOf(before, n).owner;
      }
      client.state := e;
    }

    // The nodes low..high as they were read.
    static function ChunkOf(read: Etcd, low: int, high: int): map<int, NodeEntry> {
      map n | low <= n < high :: EntryOf(read, n)
    }

    method WriteChunk(low: int, high: int, nowMs: int, read: Etcd)
      requires Valid() && Remembered(client.state, read, low) && low <= high
      requires ChunkMatches(client.state, ChunkOf(read, low, high))
      modifies client`state
      ensures Valid() && OnlyRisen(old(client.state), client.state) && Remembered(client.state, read, high)
      ensures forall n :: low <= n < high ==> IsLifted(EntryOf(client.state, n), nowMs, old(client.state).revision)
    {
      ChunkMoves(client.state, ChunkOf(read, low, high), nowMs);
      Write(ChunkWritten(client.state, ChunkOf(read, low, high), nowMs));
    }

    // The node is held, or its floor was written since it was read.
    predicate HasMoved(read: Etcd, e: Etcd, n: int) {
      EntryOf(e, n).owner.Some? || ModRevisionOf(EntryOf(e, n)) != ModRevisionOf(EntryOf(read, n))
    }

    // One transaction of the lift, over the nodes low..high; None when its outcome is unknown.
    method LiftChunk(low: int, high: int, nowMs: int, read: Etcd) returns (lifted: Option<bool>)
      requires Valid() && Remembered(client.state, read, low) && low <= high
      modifies client`state, client`calls
      ensures Valid() && OnlyRisen(old(client.state), client.state)
      ensures lifted == Some(true) ==>
                && Remembered(client.state, read, high)
                && forall n :: low <= n < high ==> IsLifted(EntryOf(client.state, n), nowMs, old(client.state).revision)
      ensures lifted == Some(false) ==> client.state == client.others(old(client.calls), old(client.state))
      ensures lifted == Some(false) ==> exists n :: low <= n < high && HasMoved(read, client.state, n)
      ensures old(client.calls) < client.calls && (lifted.None? ==> client.Faulted(old(client.calls)))
    {
      Interfere(read, low);
      if client.faults(client.calls).LostRequest? {
        return None;
      }
      var matches := ChunkMatches(client.state, ChunkOf(read, low, high));
      if matches {
        WriteChunk(low, high, nowMs, read);
      } else {
        ghost var n :| n in ChunkOf(read, low, high) && !(EntryOf(client.state, n).owner.None?
                         && ModRevisionOf(EntryOf(client.state, n)) == ModRevisionOf(ChunkOf(read, low, high)[n]));
        assert HasMoved(read, client.state, n);
      }
      return if client.faults(client.calls).Delivered? then Some(matches) else None;
    }

    // The chunks one after another, up to the last node.
    method LiftAll(nowMs: int, read: Etcd) returns (r: Option<LiftOutcome>)
      requires Valid() && Remembered(client.state, read, LEASED_NODE_MIN)
      modifies client`state, client`calls
      ensures Valid() && OnlyRisen(old(client.state), client.state)
      ensures r.None? ==> AllLifted(client.state, LEASED_NODE_MAX + 1, nowMs, old(client.state).revision)
      ensures r.Some? ==> r.value.StoreFailed? || r.value.Conflict?
      ensures r == Some(Conflict) ==> exists n :: Leasable(n) && HasMoved(read, client.state, n)
      ensures old(client.calls) <= client.calls && (r == Some(StoreFailed) ==> client.Faulted(old(client.calls)))
    {
      var low := LEASED_NODE_MIN;
      while low <= LEASED_NODE_MAX
        invariant LEASED_NODE_MIN <= low <= LEASED_NODE_MAX + 1 && old(client.calls) <= client.calls
        invariant Valid() && OnlyRisen(old(client.state), client.state) && Remembered(client.state, read, low)
        invariant AllLifted(client.state, low, nowMs, old(client.state).revision)
      {
        var high := if low + NODES_PER_TXN <= LEASED_NODE_MAX then low + NODES_PER_TXN else LEASED_NODE_MAX + 1;
        var lifted := LiftChunk(low, high, nowMs, read);
        if lifted.None? {
          return Some(StoreFailed);
        }
        if !lifted.value {
          assert lifted == Some(false);
          ghost var n :| low <= n < high && HasMoved(read, client.state, n);
          assert Leasable(n) && HasMoved(read, client.state, n);
          return Some(Conflict);
        }
        low := high;
      }
      return None;
    }

    method MarkInitialized(ghost read: Etcd) returns (ok: bool)
      requires Valid()
      modifies client`state, client`calls
      ensures Valid() && OnlyRisen(old(client.state), client.state)
      ensures ok ==> client.state.initialized && client.state.emptySinceMs.None?
      ensures old(client.calls) < client.calls && (!ok ==> client.Faulted(old(client.calls)))
    {
      Interfere(read, LEASED_NODE_MAX + 1);
      if !client.faults(client.calls).LostRequest? {
        var marked := client.state.(initialized := true, emptySinceMs := None, revision := client.state.revision + 1);
        SameNodesRevisionsOk(client.state, marked);
        Write(marked);
      }
      return client.faults(client.calls).Delivered?;
    }

    // Nothing was written: the keyspace is what the first read found.
    ghost predicate FoundOnly(calls: nat, was: Etcd)
      reads this, client
    {
      client.state == client.others(calls, was)
    }

    /**
     * On success every leasable node's next holder starts at `nowMs` or above, its floor is written anew,
     * and the keyspace is marked; with a settle time, the keyspace was at some point between, `settled`, on
     * record as empty for that long. Whatever the outcome, and wherever it stops, nothing has fallen.
     */
    method LiftFloors(nowMs: int, onlyIfUninitialized: bool, settleMs: Option<int>)
      returns (r: LiftOutcome, ghost settled: Option<Etcd>)
      requires Valid()
      modifies client`state, client`calls
      ensures Valid() && OnlyRisen(old(client.state), client.state)
      ensures r.Lifted? ==> r.floorMs == nowMs && client.state.initialized && client.state.emptySinceMs.None?
      ensures r.Lifted? ==> AllLifted(client.state, LEASED_NODE_MAX + 1, nowMs, old(client.state).revision)
      ensures r.Lifted? && settleMs.Some? && 0 < settleMs.value ==>
                && settled.Some? && settled.value.emptySinceMs.Some?
                && settled.value.emptySinceMs.value + settleMs.value <= nowMs
                && OnlyRisen(old(client.state), settled.value) && OnlyRisen(settled.value, client.state)
      // It waits for what is left of the settle time since the recorded instant, or for all of it.
      ensures r.Settling? ==>
                var found := client.others(old(client.calls), old(client.state));
                settleMs.Some? && 0 < r.remainingMs && client.state.emptySinceMs.Some?
                && r.remainingMs == SettleLeft(client.others(old(client.calls) + 1, found), nowMs, settleMs.value)
      // Each refusal is true, and the first two leave the keyspace as it was found.
      ensures r.AlreadyInitialized? ==>
                onlyIfUninitialized && client.state.initialized && FoundOnly(old(client.calls), old(client.state))
      ensures r.NodesHeld? ==>
                && FoundOnly(old(client.calls), old(client.state))
                && exists n :: Leasable(n) && EntryOf(client.state, n).owner.Some?
      ensures r.Conflict? ==>
                var read := client.others(old(client.calls), old(client.state));
                exists n :: Leasable(n) && HasMoved(read, client.state, n)
      ensures r.StoreFailed? ==> client.Faulted(old(client.calls))
      // A marked keyspace is left alone if so asked, and one with a held node always.
      ensures var found := client.others(old(client.calls), old(client.state));
              (onlyIfUninitialized && found.initialized)
              || (exists n :: Leasable(n) && EntryOf(found, n).owner.Some?) ==>
                !r.Lifted? && client.state == found
    {
      settled := None;
      Interfere(client.state, 0);
      if !client.faults(client.calls).Delivered? {
        return StoreFailed, settled;
      }
      var read := client.state;
      if read.initialized && onlyIfUninitialized {
        return AlreadyInitialized, settled;
      }
      if exists n :: LEASED_NODE_MIN <= n <= LEASED_NODE_MAX && EntryOf(read, n).owner.Some? {
        return NodesHeld, settled;
      }
      if settleMs.Some? && settleMs.value > 0 {
        var refusal := RequireSettled(nowMs, settleMs.value, read);
        if refusal.Some? {
          return refusal.value, settled;
        }
        settled := Some(client.state);
      }
      var stopped := LiftAll(nowMs, read);
      if stopped.Some? {
        return stopped.value, settled;
      }
      var marked := MarkInitialized(read);
      return if marked then Lifted(nowMs) else StoreFailed, settled;
    }

    // What is left of the settle time when the keyspace `e` is seen at `nowMs`.
    function SettleLeft(e: Etcd, nowMs: int, settleMs: int): int {
      if e.emptySinceMs.Some? then e.emptySinceMs.value + settleMs - nowMs else settleMs
    }

    // Refuses until `settleMs` after the instant recorded when a lift first found the keyspace unmarked.
    method RequireSettled(nowMs: int, settleMs: int, ghost read: Etcd) returns (refusal: Option<LiftOutcome>)
      requires Valid() && 0 < settleMs && Remembered(client.state, read, LEASED_NODE_MIN)
      modifies client`state, client`calls
      ensures Valid() && OnlyRisen(old(client.state), client.state)
      ensures Remembered(client.state, read, LEASED_NODE_MIN)
      ensures refusal.Some? ==> refusal.value.StoreFailed? || (refusal.value.Settling? && 0 < refusal.value.remainingMs)
      ensures refusal.Some? && refusal.value.Settling? ==>
                var seen := client.others(old(client.calls), old(client.state));
                client.state.emptySinceMs.Some? && refusal.value.remainingMs == SettleLeft(seen, nowMs, settleMs)
      ensures old(client.calls) < client.calls && (refusal == Some(StoreFailed) ==> client.Faulted(old(client.calls)))
      ensures refusal.None? ==>
                client.state.emptySinceMs.Some? && client.state.emptySinceMs.value + settleMs <= nowMs
    {
      Interfere(read, LEASED_NODE_MIN);
      if !client.faults(client.calls).Delivered? {
        return Some(StoreFailed);
      }
      if client.state.emptySinceMs.Some? {
        var remainingMs := client.state.emptySinceMs.value + settleMs - nowMs;
        return if remainingMs > 0 then Some(Settling(remainingMs)) else None;
      }
      Interfere(read, LEASED_NODE_MIN);
      if !client.faults(client.calls).LostRequest? && client.state.emptySinceMs.None? {
        var recorded := client.state.(emptySinceMs := Some(nowMs), revision := client.state.revision + 1);
        SameNodesRevisionsOk(client.state, recorded);
        Write(recorded);
      }
      return Some(if client.faults(client.calls).Delivered? then Settling(settleMs) else StoreFailed);
    }
  }

  // ---------------------------------------------------------------- the fleet keeps what the lift relies on

  lemma LandedIsSteadfast(s: Fleet, t: Txn)
    requires Inv(s) && InPlay(s, t)
    ensures Steadfast(s.etcd, Landed(s, t).etcd)
  {
    InPlayOk(s, t);
  }

  lemma LiftIsSteadfast(s: Fleet, chunk: set<int>, nowMs: int)
    requires Inv(s) && MayLift(s.etcd, chunk)
    ensures Steadfast(s.etcd, Lift(s.etcd, chunk, nowMs))
  {
    forall n ensures && Base(EntryOf(s.etcd, n)) <= Base(EntryOf(Lift(s.etcd, chunk, nowMs), n))
                     && (n in chunk ==> ModRevisionOf(EntryOf(Lift(s.etcd, chunk, nowMs), n)) == s.etcd.revision + 1)
    {
      LiftAt(s.etcd, chunk, nowMs, n);
    }
  }

  lemma ExpiryIsSteadfast(s: Fleet, leaseId: nat)
    requires Inv(s)
    ensures Steadfast(s.etcd, Expire(s.etcd, leaseId))
  {
  }

  lemma SameNodesSteadfast(e: Etcd, e': Etcd)
    requires e'.nodes == e.nodes && e.revision <= e'.revision
    ensures Steadfast(e, e')
  {
    assert forall n :: EntryOf(e', n) == EntryOf(e, n);
  }

  // No step of any process, crash, expiry or late landing ever takes a node's base back.
  lemma EveryStepIsSteadfast(s: Fleet, step: Step, s': Fleet)
    requires Inv(s) && Next(s, step, s')
    ensures Steadfast(s.etcd, s'.etcd)
  {
    StepMovesEtcd(s, step, s');
    if Lands(s, step).Some? {
      LandedIsSteadfast(s, Lands(s, step).value);
    } else if step.LiftChunk? {
      LiftIsSteadfast(s, step.chunk, step.nowMs);
    } else if step.ExpireLease? {
      ExpiryIsSteadfast(s, step.leaseId);
    } else {
      SameNodesSteadfast(s.etcd, s'.etcd);
    }
  }
}
