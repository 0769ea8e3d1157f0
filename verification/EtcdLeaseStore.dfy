/**
 * The etcd-backed lease store. Other clients write to the keyspace before every call, a call may fail with
 * an unknown outcome, and an acquire retried after one must find the node it may already have claimed.
 */
module EtcdLeaseStores {
  import opened Wrappers
  import opened NodeLeases
  import opened LeaseKeyspace

  predicate OwnedBy(e: Etcd, n: int, leaseId: nat) {
    EntryOf(e, n).owner.Some? && EntryOf(e, n).owner.value.leaseId == leaseId
  }

  // What other clients may do between two of our calls, when the lease ids from `first` on are ours: they
  // create no owner under a lease of ours, every owner they create has a newer revision, and a node we
  // own keeps its floor while we own it. They may let a lease of ours lapse, but not bring one back.
  ghost predicate Foreign(e: Etcd, e': Etcd, first: nat) {
    && e.revision <= e'.revision
    && (forall n {:trigger EntryOf(e', n)} :: ForeignAt(e, e', first, n))
    && forall l: nat :: first <= l ==> KeepsLease(e, e', l)
  }

  ghost predicate ForeignAt(e: Etcd, e': Etcd, first: nat, n: int) {
    var was, now := EntryOf(e, n), EntryOf(e', n);
    now.owner.Some? ==>
      if now.owner != was.owner then
        e.revision < now.owner.value.generation <= e'.revision && now.owner.value.leaseId < first
      else
        first <= now.owner.value.leaseId ==>
          now.floor == was.floor && (now.owner.value.leaseId in e.leases ==> now.owner.value.leaseId in e'.leases)
  }

  // A lease that is gone stays gone, and while it lives the nodes owned under it keep their owner key.
  ghost predicate KeepsLease(e: Etcd, e': Etcd, leaseId: nat) {
    leaseId in e'.leases ==>
      leaseId in e.leases && forall n :: OwnedBy(e, n, leaseId) ==> EntryOf(e', n).owner == EntryOf(e, n).owner
  }

  ghost predicate KeepsLeases(e: Etcd, e': Etcd, first: nat, next: nat) {
    forall l: nat :: first <= l < next ==> KeepsLease(e, e', l)
  }

  lemma KeepsLeasesOn(e: Etcd, mid: Etcd, e': Etcd, first: nat, next: nat)
    requires KeepsLeases(e, mid, first, next) && KeepsLeases(mid, e', first, next)
    ensures KeepsLeases(e, e', first, next)
  {
    forall l: nat | first <= l < next ensures KeepsLease(e, e', l) {
      assert KeepsLease(e, mid, l) && KeepsLease(mid, e', l);
      forall n | OwnedBy(e, n, l) && l in e'.leases ensures EntryOf(e', n).owner == EntryOf(e, n).owner {
        assert OwnedBy(mid, n, l);
      }
    }
  }

  lemma GoneStaysGone(e: Etcd, e': Etcd, first: nat, next: nat, leaseId: nat)
    requires KeepsLeases(e, e', first, next) && first <= leaseId < next && leaseId !in e.leases
    ensures leaseId !in e'.leases
  {
    assert KeepsLease(e, e', leaseId);
  }

  // A claim goes under the pending lease for as long as that lives, and under a new one only after that.
  ghost predicate ClaimsUnder(
    was: Option<nat>, lease: Option<nat>, e: Etcd, e': Etcd, first: nat, next: nat)
  {
    && KeepsLeases(e, e', first, next)
    && (lease.Some? && lease != was ==>
          next <= lease.value && (was.Some? ==> first <= was.value < next && was.value !in e'.leases))
  }

  lemma ClaimsUnderOn(
    was: Option<nat>, lease: Option<nat>, e: Etcd, mid: Etcd, e': Etcd, first: nat, next: nat, next': nat)
    requires ClaimsUnder(was, lease, e, mid, first, next) && KeepsLeases(mid, e', first, next') && next <= next'
    ensures ClaimsUnder(was, lease, e, e', first, next)
  {
    KeepsLeasesOn(e, mid, e', first, next);
    if lease.Some? && lease != was && was.Some? {
      GoneStaysGone(mid, e', first, next, was.value);
    }
  }

  // Nothing is owned under our leases that was not before.
  ghost predicate GainsNone(e: Etcd, e': Etcd, first: nat) {
    forall n, l: nat :: OwnedBy(e', n, l) && first <= l ==> OwnedBy(e, n, l)
  }

  lemma ForeignGainsNone(e: Etcd, e': Etcd, first: nat)
    requires Foreign(e, e', first)
    ensures GainsNone(e, e', first)
  {
    forall n, l: nat | OwnedBy(e', n, l) && first <= l ensures OwnedBy(e, n, l) {
      assert ForeignAt(e, e', first, n);
    }
  }

  // A claim takes a free node and a raise leaves the owner key; only a drop gives a node up.
  lemma ApplyKeepsLeases(e: Etcd, t: Txn, first: nat, next: nat)
    requires !t.DropTxn?
    ensures KeepsLeases(e, Apply(e, t), first, next)
  {
    forall l: nat ensures KeepsLease(e, Apply(e, t), l) {
      forall n | OwnedBy(e, n, l) ensures EntryOf(Apply(e, t), n).owner == EntryOf(e, n).owner {
      }
    }
  }

  // No owner is newer than the keyspace, each of our leases owns at most one node and none once it is gone,
  // and the leases from `next` on own none.
  ghost predicate OneNodePerLease(e: Etcd, first: nat, next: nat) {
    && (forall n, l: nat :: OwnedBy(e, n, l) ==> EntryOf(e, n).owner.value.generation <= e.revision && l < next)
    && (forall n, l: nat :: OwnedBy(e, n, l) && first <= l ==> Leasable(n) && l in e.leases)
    && (forall n, m, l: nat :: OwnedBy(e, n, l) && OwnedBy(e, m, l) && first <= l ==> n == m)
  }

  lemma ForeignKeepsOneNode(e: Etcd, e': Etcd, first: nat, next: nat)
    requires OneNodePerLease(e, first, next) && Foreign(e, e', first) && first <= next
    ensures OneNodePerLease(e', first, next)
  {
    forall n, l: nat | OwnedBy(e', n, l) && first <= l ensures OwnedBy(e, n, l) && l in e'.leases {
      assert ForeignAt(e, e', first, n);
      assert OwnedBy(e, n, l);
    }
    forall n, l: nat | OwnedBy(e', n, l) ensures EntryOf(e', n).owner.value.generation <= e'.revision && l < next {
      assert ForeignAt(e, e', first, n);
      if EntryOf(e', n).owner == EntryOf(e, n).owner { assert OwnedBy(e, n, l); }
    }
  }

  lemma ForeignClaimsNone(e: Etcd, e': Etcd, first: nat, leaseId: nat)
    requires Foreign(e, e', first) && first <= leaseId && forall n :: !OwnedBy(e, n, leaseId)
    ensures forall n :: !OwnedBy(e', n, leaseId)
  {
    forall n ensures !OwnedBy(e', n, leaseId) {
      assert ForeignAt(e, e', first, n);
      assert !OwnedBy(e, n, leaseId);
    }
  }

  lemma ApplyKeepsOneNode(e: Etcd, t: Txn, first: nat, next: nat)
    requires OneNodePerLease(e, first, next)
    requires t.ClaimTxn? ==> Leasable(t.nodeId) && t.leaseId < next && forall n :: !OwnedBy(e, n, t.leaseId)
    ensures OneNodePerLease(Apply(e, t), first, next)
  {
    var e' := Apply(e, t);
    forall n, l: nat | OwnedBy(e', n, l)
      ensures if n != t.nodeId || !Succeeds(e, t) || !t.ClaimTxn? then OwnedBy(e, n, l) else l == t.leaseId
    {
    }
    forall n, l: nat | OwnedBy(e', n, l) ensures EntryOf(e', n).owner.value.generation <= e'.revision && l < next {
    }
  }

  lemma ExpireKeepsOneNode(e: Etcd, leaseId: nat, first: nat, next: nat)
    requires OneNodePerLease(e, first, next)
    ensures OneNodePerLease(Expire(e, leaseId), first, next)
    ensures forall n :: EntryOf(Expire(e, leaseId), n).owner.Some? ==> EntryOf(Expire(e, leaseId), n) == EntryOf(e, n)
  {
    var e' := Expire(e, leaseId);
    forall n, l: nat | OwnedBy(e', n, l) ensures OwnedBy(e, n, l) && EntryOf(e', n) == EntryOf(e, n) {
    }
  }

  lemma GrantKeepsLeases(e: Etcd, mid: Etcd, id: nat, first: nat)
    requires KeepsLeases(e, mid, first, id)
    ensures KeepsLeases(e, mid.(leases := mid.leases + {id}), first, id)
  {
    var granted := mid.(leases := mid.leases + {id});
    forall l: nat | first <= l < id ensures KeepsLease(mid, granted, l) {
    }
    KeepsLeasesOn(e, mid, granted, first, id);
  }

  lemma ExpireKeepsLeases(e: Etcd, leaseId: nat, first: nat, next: nat)
    ensures KeepsLeases(e, Expire(e, leaseId), first, next)
  {
    forall l: nat ensures KeepsLease(e, Expire(e, leaseId), l) {
      forall n | OwnedBy(e, n, l) && l != leaseId ensures EntryOf(Expire(e, leaseId), n).owner == EntryOf(e, n).owner {
      }
    }
  }

  datatype Fault = Delivered | LostRequest | LostReply

  datatype TxnReply = Unknown | LeaseInvalid | Replied(succeeded: bool, revision: nat)

  datatype Exchange = Exchange(txn: Txn, reply: TxnReply)

  /** One process's connection. `others(i, e)` is what the rest of the fleet makes of `e` before call i. */
  class EtcdClient {
    var state: Etcd
    var calls: nat
    var nextLease: nat
    // Every transaction asked for, with its reply.
    ghost var log: seq<Exchange>
    const firstLease: nat
    const others: (nat, Etcd) -> Etcd
    const faults: nat -> Fault
    const wallMs: nat -> int

    ghost predicate Valid()
      reads this
    {
      && (forall i, e :: Foreign(e, others(i, e), firstLease))
      && firstLease <= nextLease && OneNodePerLease(state, firstLease, nextLease)
    }

    // Some call since then was lost, or its reply was.
    ghost predicate Faulted(since: nat)
      reads this
    {
      exists i :: since < i <= calls && !faults(i).Delivered?
    }

    method Interfere()
      requires Valid()
      modifies this`state, this`calls
      ensures Valid() && calls == old(calls) + 1 && state == others(old(calls), old(state))
      ensures Foreign(old(state), state, firstLease)
    {
      ForeignKeepsOneNode(state, others(calls, state), firstLease, nextLease);
      state := others(calls, state);
      calls := calls + 1;
    }

    // The local wall clock; another instant after every call.
    method NowMs() returns (ms: int)
      modifies this`calls
      ensures ms == wallMs(old(calls)) && calls == old(calls) + 1
    {
      ms := wallMs(calls);
      calls := calls + 1;
    }

    // A consistent read of the keyspace, or nothing.
    method Range() returns (r: Option<Etcd>)
      requires Valid()
      modifies this`state, this`calls
      ensures Valid() && state == others(old(calls), old(state)) && (r.Some? ==> r.value == state)
      ensures Foreign(old(state), state, firstLease)
      ensures old(calls) < calls && (r.None? ==> Faulted(old(calls)))
    {
      Interfere();
      return if faults(calls).Delivered? then Some(state) else None;
    }

    method LeaseGrant() returns (r: Option<nat>)
      requires Valid()
      modifies this`state, this`calls, this`nextLease
      ensures Valid() && old(nextLease) <= nextLease
      ensures r.Some? ==> old(nextLease) <= r.value < nextLease && r.value in state.leases
      ensures KeepsLeases(old(state), state, firstLease, old(nextLease)) && GainsNone(old(state), state, firstLease)
      ensures old(calls) < calls && (r.None? ==> Faulted(old(calls)))
    {
      Interfere();
      ForeignGainsNone(old(state), state, firstLease);
      if faults(calls).LostRequest? {
        return None;
      }
      var id := nextLease;
      nextLease := nextLease + 1;
      ghost var before := state;
      GrantKeepsLeases(old(state), state, id, firstLease);
      state := state.(leases := state.leases + {id});
      assert forall n, l: nat :: OwnedBy(state, n, l) ==> OwnedBy(before, n, l);
      return if faults(calls).Delivered? then Some(id) else None;
    }

    method LeaseKeepAlive(leaseId: nat) returns (r: Option<bool>)
      requires Valid()
      modifies this`state, this`calls
      ensures Valid() && Foreign(old(state), state, firstLease)
      ensures KeepsLeases(old(state), state, firstLease, nextLease)
      ensures r.Some? ==> r.value == (leaseId in state.leases)
      ensures old(calls) < calls && (r.None? ==> Faulted(old(calls)))
    {
      Interfere();
      return if faults(calls).Delivered? then Some(leaseId in state.leases) else None;
    }

    // Deletes the lease and its keys; nobody depends on the answer.
    method LeaseRevoke(leaseId: nat)
      requires Valid()
      modifies this`state, this`calls
      ensures Valid() && old(state).revision <= state.revision
      ensures KeepsLeases(old(state), state, firstLease, nextLease) && GainsNone(old(state), state, firstLease)
      ensures old(calls) < calls && (leaseId !in state.leases || Faulted(old(calls)))
      ensures forall n :: EntryOf(state, n).owner.Some? ==>
                            EntryOf(state, n).owner == EntryOf(old(state), n).owner
                            || EntryOf(state, n).owner.value.generation > old(state).revision
    {
      Interfere();
      ForeignGainsNone(old(state), state, firstLease);
      if !faults(calls).LostRequest? {
        ExpireKeepsOneNode(state, leaseId, firstLease, nextLease);
        ExpireKeepsLeases(state, leaseId, firstLease, nextLease);
        KeepsLeasesOn(old(state), state, Expire(state, leaseId), firstLease, nextLease);
        state := Expire(state, leaseId);
      }
    }

    // A transaction whose reply is lost has been applied or never will be.
    method Transact(t: Txn) returns (r: TxnReply)
      requires Valid()
      requires t.ClaimTxn? ==>
                 Leasable(t.nodeId) && firstLease <= t.leaseId < nextLease && forall n :: !OwnedBy(state, n, t.leaseId)
      modifies this`state, this`calls, this`log
      ensures log == old(log) + [Exchange(t, r)]
      ensures Valid() && old(calls) < calls
      ensures t.ClaimTxn? && (r.LeaseInvalid? || (r.Replied? && !r.succeeded)) ==>
                forall n :: !OwnedBy(state, n, t.leaseId)
      ensures r.Replied? && r.succeeded ==>
                exists e :: Foreign(old(state), e, firstLease) && Succeeds(e, t) && state == Apply(e, t)
      ensures !t.DropTxn? ==> KeepsLeases(old(state), state, firstLease, nextLease)
      ensures r.Replied? ==> r.revision == state.revision
      ensures r.Unknown? ==> Faulted(old(calls))
      ensures r.LeaseInvalid? ==> t.ClaimTxn? && t.leaseId !in state.leases
      ensures r.Replied? && !r.succeeded ==> Foreign(old(state), state, firstLease) && !Succeeds(state, t)
    {
      Interfere();
      if t.ClaimTxn? {
        ForeignClaimsNone(old(state), state, firstLease, t.leaseId);
      }
      if faults(calls).LostRequest? {
        r := Unknown;
      } else if t.ClaimTxn? && t.leaseId !in state.leases {
        r := if faults(calls).Delivered? then LeaseInvalid else Unknown;
      } else {
        var succeeded := Succeeds(state, t);
        ApplyKeepsOneNode(state, t, firstLease, nextLease);
        if !t.DropTxn? {
          ApplyKeepsLeases(state, t, firstLease, nextLease);
          KeepsLeasesOn(old(state), state, Apply(state, t), firstLease, nextLease);
        }
        state := Apply(state, t);
        r := if faults(calls).Delivered? then Replied(succeeded, state.revision) else Unknown;
      }
      log := log + [Exchange(t, r)];
    }
  }

  // ---------------------------------------------------------------- free nodes, the one idle longest first

  datatype Candidate = Candidate(nodeId: int, entry: NodeEntry)

  predicate IdleLonger(a: Candidate, b: Candidate) {
    || ModRevisionOf(a.entry) < ModRevisionOf(b.entry)
    || (ModRevisionOf(a.entry) == ModRevisionOf(b.entry) && a.nodeId < b.nodeId)
  }

  ghost predicate InIdleOrder(free: seq<Candidate>) {
    forall i, j :: 0 <= i < j < |free| ==> IdleLonger(free[i], free[j])
  }

  // The free nodes among LEASED_NODE_MIN..below, each once, as the snapshot shows them.
  ghost predicate FreeBelow(e: Etcd, free: seq<Candidate>, below: int) {
    && InIdleOrder(free)
    && (forall c :: c in free <==>
          LEASED_NODE_MIN <= c.nodeId < below && EntryOf(e, c.nodeId).owner.None? && c.entry == EntryOf(e, c.nodeId))
  }

  // `free` with `c` put in at `i`, where it is idle for less time than all before and longer than all after.
  lemma InsertedInOrder(free: seq<Candidate>, i: nat, c: Candidate)
    requires InIdleOrder(free) && i <= |free|
    requires forall j :: 0 <= j < i ==> IdleLonger(free[j], c)
    requires forall j :: i <= j < |free| ==> IdleLonger(c, free[j])
    ensures InIdleOrder(free[..i] + [c] + free[i..])
    ensures forall d :: d in free[..i] + [c] + free[i..] <==> d in free || d == c
  {
    assert free == free[..i] + free[i..];
  }

  method InsertIdle(free: seq<Candidate>, c: Candidate) returns (r: seq<Candidate>)
    requires InIdleOrder(free) && forall d :: d in free ==> d.nodeId != c.nodeId
    ensures InIdleOrder(r) && forall d :: d in r <==> d in free || d == c
  {
    var i := |free|;
    while i > 0 && IdleLonger(c, free[i - 1])
      invariant 0 <= i <= |free|
      invariant forall j :: i <= j < |free| ==> IdleLonger(c, free[j])
    {
      i := i - 1;
    }
    if i > 0 {
      assert free[i - 1] in free && IdleLonger(free[i - 1], c);
    }
    InsertedInOrder(free, i, c);
    return free[..i] + [c] + free[i..];
  }

  method FreeOldestFirst(e: Etcd) returns (free: seq<Candidate>)
    ensures FreeBelow(e, free, LEASED_NODE_MAX + 1)
    // The floor written longest ago comes first; a node without a floor, before all others; ties by node id.
    ensures forall i, j :: 0 <= i < j < |free| ==>
              match (free[i].entry.floor, free[j].entry.floor)
              case (Some(a), Some(b)) =>
                a.modRevision < b.modRevision || (a.modRevision == b.modRevision && free[i].nodeId < free[j].nodeId)
              case (None, Some(b)) => b.modRevision > 0 || free[i].nodeId < free[j].nodeId
              case (Some(a), None) => a.modRevision == 0 && free[i].nodeId < free[j].nodeId
              case (None, None) => free[i].nodeId < free[j].nodeId
  {
    free := [];
    for n := LEASED_NODE_MIN to LEASED_NODE_MAX + 1
      invariant FreeBelow(e, free, n)
    {
      if EntryOf(e, n).owner.None? {
        free := InsertIdle(free, Candidate(n, EntryOf(e, n)));
      }
    }
  }

  // ---------------------------------------------------------------- the store

  // The node is owned under this generation and lease, and its floor is the ceiling just confirmed.
  ghost predicate Confirmed(e: Etcd, g: Grant, leaseId: nat) {
    && OwnedBy(e, g.nodeId, leaseId) && EntryOf(e, g.nodeId).owner.value.generation == g.generation
    && EntryOf(e, g.nodeId).owner.value.claimFloorMs == g.floorMs
    && FloorOf(EntryOf(e, g.nodeId)) == Some(g.leaseUntilMs)
  }

  predicate Distinct(free: seq<Candidate>) {
    forall i, j :: 0 <= i < j < |free| ==> free[i].nodeId != free[j].nodeId
  }

  function Without(free: seq<Candidate>, i: nat): seq<Candidate>
    requires i < |free|
  {
    free[..i] + free[i + 1..]
  }

  // Every candidate is still free or was refused, and each at most once.
  ghost predicate Tried(candidates: seq<Candidate>, free: seq<Candidate>, refused: seq<int>) {
    && Distinct(free)
    && (forall c :: c in free ==> c in candidates && c.nodeId !in refused)
    && (forall i, j :: 0 <= i < j < |refused| ==> refused[i] != refused[j])
    && (forall c :: c in candidates ==> c in free || c.nodeId in refused)
    && (forall n :: n in refused ==> exists c :: c in candidates && c.nodeId == n)
  }

  lemma TriedOneMore(candidates: seq<Candidate>, free: seq<Candidate>, i: nat, refused: seq<int>)
    requires Tried(candidates, free, refused) && i < |free|
    ensures Tried(candidates, Without(free, i), refused + [free[i].nodeId])
  {
    var left := Without(free, i);
    assert free == free[..i] + [free[i]] + free[i + 1..];
    assert free[i] in candidates;
    forall c | c in left ensures c in free && c.nodeId != free[i].nodeId {
    }
  }

  class EtcdLeaseStore {
    const client: EtcdClient
    // The draws that spread claimants out once they have lost the oldest node.
    const draws: nat -> nat
    // The lease of an acquire that has not answered yet. The next one looks for a node owned under it.
    var pendingLeaseId: Option<nat>

    ghost predicate Valid()
      reads this, client
    {
      && client.Valid()
      && (pendingLeaseId.Some? ==> client.firstLease <= pendingLeaseId.value < client.nextLease)
    }

    // What a failed attempt leaves for its retry: the lease, unless nothing is owned under it.
    ghost predicate Retained(leaseId: nat)
      reads this, client
    {
      pendingLeaseId == Some(leaseId) || (pendingLeaseId.None? && forall n :: !OwnedBy(client.state, n, leaseId))
    }

    // An attempt under the lease fails only for a fault on the way, or because the lease is gone.
    ghost predicate FailedTruly(since: nat, leaseId: nat)
      reads this, client
    {
      client.Faulted(since) || leaseId !in client.state.leases
    }

    constructor (client: EtcdClient, draws: nat -> nat)
      requires client.Valid()
      ensures Valid() && this.client == client && pendingLeaseId.None?
    {
      this.client, this.draws, pendingLeaseId := client, draws, None;
    }

    method LeaseForClaim() returns (r: Option<nat>)
      requires Valid()
      modifies this, client
      ensures Valid() && pendingLeaseId == if r.Some? then r else old(pendingLeaseId)
      ensures old(client.nextLease) <= client.nextLease && (r.Some? ==> r.value in client.state.leases)
      ensures ClaimsUnder(
                old(pendingLeaseId), r, old(client.state), client.state, client.firstLease, old(client.nextLease))
      ensures GainsNone(old(client.state), client.state, client.firstLease)
      ensures old(client.calls) < client.calls && (r.None? ==> client.Faulted(old(client.calls)))
    {
      if pendingLeaseId.Some? {
        var alive := client.LeaseKeepAlive(pendingLeaseId.value);
        ForeignGainsNone(old(client.state), client.state, client.firstLease);
        if alive.None? {
          return None;
        }
        if alive.value {
          return pendingLeaseId;
        }
      }
      ghost var before := client.state;
      r := client.LeaseGrant();
      KeepsLeasesOn(old(client.state), before, client.state, client.firstLease, old(client.nextLease));
      if r.Some? && pendingLeaseId.Some? {
        GoneStaysGone(before, client.state, client.firstLease, old(client.nextLease), pendingLeaseId.value);
      }
      if r.Some? {
        pendingLeaseId := r;
      }
    }

    // Claims one free node; the answer is None when another claimant got there first.
    method Claim(c: Candidate, leaseId: nat, ttlMs: nat) returns (r: Answer<Option<Grant>>)
      requires Valid() && pendingLeaseId == Some(leaseId) && Leasable(c.nodeId)
      requires forall n :: !OwnedBy(client.state, n, leaseId)
      modifies this, client`state, client`calls, client`log
      ensures Valid() && KeepsLeases(old(client.state), client.state, client.firstLease, client.nextLease)
      ensures r.Threw? ==> Retained(leaseId) && FailedTruly(old(client.calls), leaseId)
      ensures old(client.calls) < client.calls
      ensures r.Answered? ==> pendingLeaseId == Some(leaseId)
      ensures r == Answered(None) ==> forall n :: !OwnedBy(client.state, n, leaseId)
      // It is refused only if the node is taken, its floor was written since it was read, or the lease is gone.
      ensures r == Answered(None) ==>
                var entry := EntryOf(client.state, c.nodeId);
                entry.owner.Some? || ModRevisionOf(entry) != ModRevisionOf(c.entry) || leaseId !in client.state.leases
      ensures r.Answered? && r.value.Some? ==>
                && Confirmed(client.state, r.value.value, leaseId) && r.value.value.nodeId == c.nodeId
                && r.value.value.nowMs == client.wallMs(old(client.calls)) && r.value.value.floorMs == FloorOf(c.entry)
                && r.value.value.leaseUntilMs == Max(r.value.value.nowMs, OrZero(FloorOf(c.entry))) + ttlMs
    {
      var nowMs := client.NowMs();
      var txn := ClaimFor(c.nodeId, c.entry, leaseId, nowMs, ttlMs);
      var reply := client.Transact(txn);
      match reply {
        case Unknown =>
          return Threw;
        case LeaseInvalid =>
          pendingLeaseId := None;
          return Threw;
        case Replied(succeeded, revision) =>
          return Answered(
            if succeeded then Some(Grant(c.nodeId, revision, txn.claimFloorMs, txn.ceilingMs, nowMs)) else None);
      }
    }

    // Takes over the node already claimed under the pending lease, with its ceiling raised as a renew would.
    method Readopt(nodeId: int, entry: NodeEntry, leaseId: nat, ttlMs: nat) returns (r: Answer<Option<Grant>>)
      requires Valid() && pendingLeaseId == Some(leaseId)
      requires OwnedBy(client.state, nodeId, leaseId) && entry == EntryOf(client.state, nodeId)
      modifies client`state, client`calls, client`log
      ensures Valid() && r != Answered(None)
      ensures KeepsLeases(old(client.state), client.state, client.firstLease, client.nextLease)
      ensures r.Answered? && r.value.Some? ==>
                && Confirmed(client.state, r.value.value, leaseId) && r.value.value.nodeId == nodeId
                && r.value.value.generation == entry.owner.value.generation
                && r.value.value.nowMs == client.wallMs(old(client.calls))
                && r.value.value.leaseUntilMs == Max(OrZero(FloorOf(entry)), r.value.value.nowMs + ttlMs)
      ensures old(client.calls) < client.calls && (r.Threw? ==> FailedTruly(old(client.calls), leaseId))
    {
      var owner := entry.owner.value;
      var nowMs := client.NowMs();
      var txn := RaiseFor(nodeId, entry, owner.generation, nowMs, ttlMs);
      ghost var before := client.state;
      var reply := client.Transact(txn);
      if reply.Replied? && reply.succeeded {
        ghost var e :| Foreign(before, e, client.firstLease) && Succeeds(e, txn) && client.state == Apply(e, txn);
        assert ForeignAt(before, e, client.firstLease, nodeId) && OwnedBy(before, nodeId, leaseId);
        return Answered(Some(Grant(nodeId, owner.generation, owner.claimFloorMs, txn.ceilingMs, nowMs)));
      }
      assert OwnedBy(before, nodeId, leaseId) && KeepsLease(before, client.state, leaseId);
      return Threw;
    }

    /**
     * Claims a free node, the one idle longest first, or takes over the one a previous attempt claimed.
     * `lease` is the lease it claimed under, `read` the snapshot it worked from and `refused` the nodes
     * whose claim etcd refused.
     */
    method Acquire(ttlMs: nat)
      returns (r: Answer<Option<Grant>>, ghost lease: Option<nat>, ghost read: Option<Etcd>, ghost refused: seq<int>)
      requires Valid()
      modifies this, client
      ensures Valid() && old(client.nextLease) <= client.nextLease
      ensures ClaimsUnder(
                old(pendingLeaseId), lease, old(client.state), client.state, client.firstLease, old(client.nextLease))
      ensures r.Answered? ==> pendingLeaseId.None? && lease.Some? && read.Some?
      ensures r.Threw? ==> if lease.None? then pendingLeaseId == old(pendingLeaseId) else Retained(lease.value)
      // Nothing is claimed or reported off a keyspace without its marker: the attempt throws.
      ensures read.Some? ==> read.value.initialized
      ensures read.None? ==> r.Threw? && refused == [] && GainsNone(old(client.state), client.state, client.firstLease)
      // It throws only for that, for a fault on the way, or because the lease is gone.
      ensures r.Threw? ==>
                || client.Faulted(old(client.calls)) || (read.None? && !client.state.initialized)
                || (lease.Some? && lease.value !in client.state.leases)
      ensures r == Answered(None) ==> lease.value !in client.state.leases || client.Faulted(old(client.calls))
      ensures r.Answered? && r.value.Some? ==> r.value.value.nowMs + ttlMs <= r.value.value.leaseUntilMs
      // A first claim that goes through is of the free node whose floor was written longest ago.
      ensures r.Answered? && r.value.Some? && refused == [] && (forall n :: !OwnedBy(read.value, n, lease.value)) ==>
                var e, won := read.value, r.value.value.nodeId;
                forall n :: Leasable(n) && EntryOf(e, n).owner.None? ==>
                              ModRevisionOf(EntryOf(e, won)) <= ModRevisionOf(EntryOf(e, n))
      ensures r.Answered? && r.value.Some? ==>
                && client.firstLease <= lease.value && Confirmed(client.state, r.value.value, lease.value)
                && forall m :: OwnedBy(client.state, m, lease.value) ==> m == r.value.value.nodeId
      // Exhaustion is reported only when every free node was tried, once, and refused.
      ensures r == Answered(None) ==>
                && (forall n :: n in refused <==> Leasable(n) && EntryOf(read.value, n).owner.None?)
                && (forall i, j :: 0 <= i < j < |refused| ==> refused[i] != refused[j])
                && (forall n :: !OwnedBy(read.value, n, lease.value))
                && forall n :: !OwnedBy(client.state, n, lease.value)
      // A node already owned under the lease is the only one the attempt can end up with.
      ensures read.Some? ==>
                lease.Some? && forall n :: OwnedBy(read.value, n, lease.value) ==> OnlyOutcome(r, read.value, n)
      ensures read.Some? ==> KeepsLeases(old(client.state), read.value, client.firstLease, old(client.nextLease))
    {
      ghost var first, next, start := client.firstLease, client.nextLease, client.state;
      lease, read, refused := None, None, [];
      var claimed := LeaseForClaim();
      if claimed.None? {
        return Threw, lease, read, refused;
      }
      lease := claimed;
      var leaseId := claimed.value;
      ghost var was, before := old(pendingLeaseId), client.state;
      var snapshot := client.Range();
      ForeignGainsNone(before, client.state, first);
      ClaimsUnderOn(was, lease, start, before, client.state, first, next, client.nextLease);
      if snapshot.None? || !snapshot.value.initialized {
        return Threw, lease, None, refused;
      }
      read := snapshot;
      r, refused := ClaimFrom(snapshot.value, leaseId, ttlMs);
      ClaimsUnderOn(was, lease, start, read.value, client.state, first, next, client.nextLease);
    }

    // The attempt from its snapshot on.
    method ClaimFrom(e: Etcd, leaseId: nat, ttlMs: nat) returns (r: Answer<Option<Grant>>, ghost refused: seq<int>)
      requires Valid() && pendingLeaseId == Some(leaseId) && client.state == e
      modifies this, client`state, client`calls, client`log
      ensures Valid() && KeepsLeases(e, client.state, client.firstLease, client.nextLease)
      ensures if r.Threw? then Retained(leaseId) && FailedTruly(old(client.calls), leaseId) else pendingLeaseId.None?
      ensures old(client.calls) <= client.calls
      ensures r.Answered? && r.value.Some? ==>
                && Confirmed(client.state, r.value.value, leaseId)
                && r.value.value.nowMs + ttlMs <= r.value.value.leaseUntilMs
      ensures r == Answered(None) ==>
                && (forall n :: n in refused <==> Leasable(n) && EntryOf(e, n).owner.None?)
                && (forall i, j :: 0 <= i < j < |refused| ==> refused[i] != refused[j])
                && (forall n :: !OwnedBy(e, n, leaseId)) && (forall n :: !OwnedBy(client.state, n, leaseId))
                && (leaseId !in client.state.leases || client.Faulted(old(client.calls)))
      ensures forall n :: OwnedBy(e, n, leaseId) ==> OnlyOutcome(r, e, n)
      ensures r.Answered? && r.value.Some? && refused == [] && (forall n :: !OwnedBy(e, n, leaseId)) ==>
                forall n :: Leasable(n) && EntryOf(e, n).owner.None? ==>
                              ModRevisionOf(EntryOf(e, r.value.value.nodeId)) <= ModRevisionOf(EntryOf(e, n))
    {
      refused := [];
      var own := FindOwned(e, leaseId);
      if own.Some? {
        assert forall m :: OwnedBy(client.state, m, leaseId) ==> m == own.value;
        r := Readopt(own.value, EntryOf(e, own.value), leaseId, ttlMs);
        if r.Answered? {
          pendingLeaseId := None;
        }
        return;
      }
      var free := FreeOldestFirst(e);
      FirstIsOldest(e, free);
      r, refused := ClaimAny(free, leaseId, ttlMs);
      if r == Answered(None) {
        RefusedAreFree(e, free, refused);
        ghost var after := client.state;
        client.LeaseRevoke(leaseId);
        KeepsLeasesOn(e, after, client.state, client.firstLease, client.nextLease);
      }
    }

    /**
     * Two attempts in a row. A node the first may have claimed before it failed is the node the second
     * answers with, at the same generation, unless the lease it was claimed under is gone and nothing is
     * owned under it any more. An answer never leaves a node behind.
     */
    method AcquireAgain(ttlMs: nat)
      returns (r: Answer<Option<Grant>>, ghost mid: Etcd, ghost lease: Option<nat>, ghost lease': Option<nat>)
      requires Valid()
      modifies this, client
      ensures Valid()
      ensures lease.Some? && r.Answered? && r.value.Some? ==>
                forall n :: OwnedBy(mid, n, lease.value) ==>
                              FoundAgain(mid, client.state, lease.value, lease', r.value.value, n)
      ensures lease.Some? && r == Answered(None) ==>
                forall n :: OwnedBy(mid, n, lease.value) ==> forall m :: !OwnedBy(client.state, m, lease.value)
    {
      ghost var read, refused;
      r, lease, read, refused := Acquire(ttlMs);
      mid, lease' := client.state, lease;
      if r.Threw? {
        ghost var next := client.nextLease;
        r, lease', read, refused := Acquire(ttlMs);
        if lease.Some? && r.Answered? && r.value.Some? {
          forall n | OwnedBy(mid, n, lease.value)
            ensures FoundAgain(mid, client.state, lease.value, lease', r.value.value, n)
          {
            assert client.firstLease <= lease.value < next && KeepsLease(mid, client.state, lease.value);
            assert lease.value in client.state.leases ==> OwnedBy(client.state, n, lease.value);
          }
        }
      }
    }

    // Tries the candidates until one claim wins: the oldest first, and then in the order of the draws.
    method ClaimAny(candidates: seq<Candidate>, leaseId: nat, ttlMs: nat)
      returns (r: Answer<Option<Grant>>, ghost refused: seq<int>)
      requires Valid() && pendingLeaseId == Some(leaseId) && Distinct(candidates)
      requires forall c :: c in candidates ==> Leasable(c.nodeId)
      requires forall n :: !OwnedBy(client.state, n, leaseId)
      modifies this, client`state, client`calls, client`log
      ensures Valid() && KeepsLeases(old(client.state), client.state, client.firstLease, client.nextLease)
      ensures if r.Threw? then Retained(leaseId) && FailedTruly(old(client.calls), leaseId) else pendingLeaseId.None?
      ensures old(client.calls) <= client.calls
      ensures r.Answered? && r.value.Some? ==>
                && Confirmed(client.state, r.value.value, leaseId)
                && r.value.value.nowMs + ttlMs <= r.value.value.leaseUntilMs
                && (refused == [] ==> |candidates| > 0 && r.value.value.nodeId == candidates[0].nodeId)
      ensures r == Answered(None) ==> Tried(candidates, [], refused) && forall n :: !OwnedBy(client.state, n, leaseId)
      ensures |refused| > 0 ==> |candidates| > 0 && refused[0] == candidates[0].nodeId
    {
      var free, next := candidates, 0;
      refused := [];
      while |free| > 0
        invariant Valid() && pendingLeaseId == Some(leaseId) && (|free| > 0 ==> 0 <= next < |free|)
        invariant old(client.calls) <= client.calls
        invariant KeepsLeases(old(client.state), client.state, client.firstLease, client.nextLease)
        invariant if refused == [] then free == candidates && next == 0
                  else |candidates| > 0 && refused[0] == candidates[0].nodeId
        invariant forall n :: !OwnedBy(client.state, n, leaseId)
        invariant Tried(candidates, free, refused)
        decreases |free|
      {
        var candidate := free[next];
        ghost var before := client.state;
        r := Claim(candidate, leaseId, ttlMs);
        KeepsLeasesOn(old(client.state), before, client.state, client.firstLease, client.nextLease);
        if r.Threw? {
          return;
        }
        if r.value.Some? {
          pendingLeaseId := None;
          return;
        }
        TriedOneMore(candidates, free, next, refused);
        free, refused := Without(free, next), refused + [candidate.nodeId];
        next := if |free| > 0 then draws(client.calls) % |free| else 0;
      }
      pendingLeaseId := None;
      return Answered(None), refused;
    }

    // The node the attempt takes over when it does not fail: this one, at the generation it was claimed at.
    ghost predicate OnlyOutcome(r: Answer<Option<Grant>>, read: Etcd, n: int) {
      r.Answered? ==>
        && r.value.Some? && r.value.value.nodeId == n
        && EntryOf(read, n).owner.Some? && r.value.value.generation == EntryOf(read, n).owner.value.generation
    }

    // `g` is the node owned under the first attempt's lease, or that lease is gone and owns nothing.
    ghost predicate FoundAgain(mid: Etcd, e: Etcd, leaseId: nat, lease': Option<nat>, g: Grant, n: int)
      requires OwnedBy(mid, n, leaseId)
    {
      if leaseId in e.leases then
        lease' == Some(leaseId) && g.nodeId == n && g.generation == EntryOf(mid, n).owner.value.generation
      else
        forall m :: !OwnedBy(e, m, leaseId)
    }

    lemma FirstIsOldest(e: Etcd, free: seq<Candidate>)
      requires FreeBelow(e, free, LEASED_NODE_MAX + 1)
      ensures free != [] ==>
                forall n :: Leasable(n) && EntryOf(e, n).owner.None? ==>
                              ModRevisionOf(EntryOf(e, free[0].nodeId)) <= ModRevisionOf(EntryOf(e, n))
    {
      forall n | free != [] && Leasable(n) && EntryOf(e, n).owner.None?
        ensures ModRevisionOf(EntryOf(e, free[0].nodeId)) <= ModRevisionOf(EntryOf(e, n))
      {
        assert Candidate(n, EntryOf(e, n)) in free && free[0] in free;
      }
    }

    lemma RefusedAreFree(e: Etcd, free: seq<Candidate>, refused: seq<int>)
      requires FreeBelow(e, free, LEASED_NODE_MAX + 1) && Tried(free, [], refused)
      ensures forall n :: n in refused <==> Leasable(n) && EntryOf(e, n).owner.None?
    {
      forall n | Leasable(n) && EntryOf(e, n).owner.None? ensures n in refused {
        assert Candidate(n, EntryOf(e, n)) in free;
      }
    }

    // The first node, if any, owned under the lease.
    method FindOwned(e: Etcd, leaseId: nat) returns (own: Option<int>)
      ensures own.Some? ==> OwnedBy(e, own.value, leaseId)
      ensures own.None? ==> forall n :: Leasable(n) ==> !OwnedBy(e, n, leaseId)
    {
      for n := LEASED_NODE_MIN to LEASED_NODE_MAX + 1
        invariant forall m :: LEASED_NODE_MIN <= m < n ==> !OwnedBy(e, m, leaseId)
      {
        if OwnedBy(e, n, leaseId) {
          return Some(n);
        }
      }
      return None;
    }

    /**
     * Keeps the lease alive and raises the ceiling. The ceiling confirmed is the floor etcd now holds; it is
     * a TTL past every id already stamped and past the wall clock, and never below the floor of the same
     * tenure. Null is answered only once the node has passed to another generation or the etcd lease is gone,
     * and it throws only for a fault.
     */
    method Renew(request: RenewRequest, ttlMs: nat) returns (r: Answer<Option<int>>)
      requires Valid() && request.generation <= client.state.revision
      modifies client
      ensures Valid()
      ensures r.Answered? && r.value.Some? ==>
                && IsHeldBy(EntryOf(client.state, request.nodeId), request.generation)
                && FloorOf(EntryOf(client.state, request.nodeId)) == r.value
                && request.lastMs + ttlMs <= r.value.value && client.wallMs(old(client.calls)) + ttlMs <= r.value.value
      ensures r.Answered? && r.value.Some? && OursBy(old(client.state), request.nodeId, request.generation) ==>
                r.value.value == Max(OrZero(FloorOf(EntryOf(old(client.state), request.nodeId))),
                                     Max(client.wallMs(old(client.calls)), request.lastMs) + ttlMs)
      ensures r.Threw? ==> client.Faulted(old(client.calls))
      ensures r == Answered(None) ==>
                var entry := EntryOf(client.state, request.nodeId);
                IsHeldBy(entry, request.generation) ==> entry.owner.value.leaseId !in client.state.leases
    {
      var nowMs := client.NowMs();
      var snapshot := client.Range();
      if snapshot.None? {
        return Threw;
      }
      var entry := EntryOf(snapshot.value, request.nodeId);
      assert ForeignAt(old(client.state), client.state, client.firstLease, request.nodeId);
      if !IsHeldBy(entry, request.generation) {
        return Answered(None);
      }
      ghost var read := client.state;
      var alive := client.LeaseKeepAlive(entry.owner.value.leaseId);
      if alive.None? {
        return Threw;
      }
      assert OwnedBy(read, request.nodeId, entry.owner.value.leaseId);
      assert ForeignAt(read, client.state, client.firstLease, request.nodeId);
      if !alive.value {
        return Answered(None);
      }
      var txn := RaiseFor(request.nodeId, entry, request.generation, Max(nowMs, request.lastMs), ttlMs);
      var reply := client.Transact(txn);
      if !reply.Replied? {
        return Threw;
      }
      return Answered(if reply.succeeded then Some(txn.ceilingMs) else None);
    }

    ghost predicate OursBy(e: Etcd, nodeId: int, generation: nat) {
      IsHeldBy(EntryOf(e, nodeId), generation) && client.firstLease <= EntryOf(e, nodeId).owner.value.leaseId
    }

    /**
     * Gives the node up. Once this returns normally the generation owns nothing; `sent` is the transaction
     * it asked for, which brings the floor down to what was stamped but never below the claim floor.
     */
    method Release(request: ReleaseRequest) returns (r: Answer<()>, ghost sent: Option<Txn>)
      requires Valid() && request.generation <= client.state.revision
      modifies client
      ensures Valid()
      ensures r.Answered? ==> !IsHeldBy(EntryOf(client.state, request.nodeId), request.generation)
      ensures r.Threw? ==> client.Faulted(old(client.calls))
      ensures sent.Some? && OursBy(old(client.state), request.nodeId, request.generation) ==>
                var owner := EntryOf(old(client.state), request.nodeId).owner.value;
                sent.value == DropTxn(request.nodeId, request.generation,
                                      Max(OrZero(owner.claimFloorMs), OrZero(request.lastMs)))
      // Nothing is asked for only of a node already lost; otherwise the drop was asked for, and answered.
      ensures r.Answered? ==>
                if sent.None? then
                  client.log == old(client.log) && Foreign(old(client.state), client.state, client.firstLease)
                else
                  exists reply: TxnReply ::
                    reply.Replied? && client.log == old(client.log) + [Exchange(sent.value, reply)]
    {
      sent := None;
      var snapshot := client.Range();
      if snapshot.None? {
        return Threw, sent;
      }
      var entry := EntryOf(snapshot.value, request.nodeId);
      assert ForeignAt(old(client.state), client.state, client.firstLease, request.nodeId);
      if !IsHeldBy(entry, request.generation) {
        return Answered(()), sent;
      }
      var txn := DropFor(request.nodeId, entry.owner.value, request.lastMs);
      sent := Some(txn);
      assert OwnedBy(client.state, request.nodeId, entry.owner.value.leaseId);
      var reply := client.Transact(txn);
      if !reply.Replied? {
        return Threw, sent;
      }
      assert !IsHeldBy(EntryOf(client.state, request.nodeId), request.generation);
      client.LeaseRevoke(entry.owner.value.leaseId);
      return Answered(()), sent;
    }
  }
}
