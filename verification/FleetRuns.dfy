/** Building runs of the fleet one step at a time: a newcomer on a free node, a holder stamping an id. */
module FleetRuns {
  import opened Wrappers
  import opened SnowflakeCodec
  import opened SnowflakeGenerators
  import opened NodeLeases
  import opened LeaseKeyspace
  import opened LeaseProtocol
  import opened LeaseSafety

  // ---------------------------------------------------------------- runs, one step at a time

  // What the steps of a run keep to besides the protocol.
  datatype Rules = AnyRun | PromptRun | GuardedRun

  ghost predicate Allows(rules: Rules, s: Fleet, step: Step) {
    && (rules.PromptRun? || rules.GuardedRun? ==> Prompt(s, step))
    && (rules.GuardedRun? ==> Guarded(s, step))
  }

  ghost predicate StepsOk(rules: Rules, states: seq<Fleet>, steps: seq<Step>)
    requires |states| == |steps| + 1
  {
    forall i :: 0 <= i < |steps| ==> Allows(rules, states[i], steps[i])
  }

  // A run under these rules leads from `base` to `s`.
  ghost predicate Follows(rules: Rules, base: Fleet, s: Fleet) {
    exists states, steps ::
      IsChain(states, steps) && states[0] == base && states[|steps|] == s && StepsOk(rules, states, steps)
  }

  lemma Starts(rules: Rules, s: Fleet)
    ensures Follows(rules, s, s)
  {
    var none: seq<Step> := [];
    assert IsChain([s], none) && [s][0] == s && [s][|none|] == s && StepsOk(rules, [s], none);
  }

  lemma Reach(rules: Rules, base: Fleet, s: Fleet, step: Step, s': Fleet)
    requires Follows(rules, base, s) && Next(s, step, s')
    requires Allows(rules, s, step)
    ensures Follows(rules, base, s')
  {
    var states, steps :|
      IsChain(states, steps) && states[0] == base && states[|steps|] == s && StepsOk(rules, states, steps);
    var states', steps' := states + [s'], steps + [step];
    forall i | 0 <= i < |steps'|
      ensures Next(states'[i], steps'[i], states'[i + 1]) && Allows(rules, states'[i], steps'[i])
    {
      if i == |steps| {
        assert states'[i] == s;
      } else {
        assert Next(states[i], steps[i], states[i + 1]);
      }
    }
    assert IsChain(states', steps') && states'[0] == base && states'[|steps'|] == s';
    assert StepsOk(rules, states', steps');
  }

  lemma Move(rules: Rules, base: Fleet, s: Fleet, step: Step, pid: nat, p: Process)
    requires Follows(rules, base, s) && pid in s.procs && MovesTo(s, step, pid, s.procs[pid], p)
    requires || step.BeginAcquire? || step.TakeSnapshot? || step.SendClaim?
             || step.BeginRenew? || step.ReadForRenew? || step.KeepAlive?
    requires step.pid == pid
    ensures Follows(rules, base, With(s, pid, p))
  {
    Reach(rules, base, s, step, With(s, pid, p));
  }

  // ---------------------------------------------------------------- a newcomer on a free node

  // The lease TTL the service runs with unless told otherwise.
  const TTL_MS: nat := 300_000

  function Holding(generation: nat, nodeId: int, floorMs: int, lastMs: int, untilMs: int): Process {
    var tenancy := Tenancy(generation, Mint(nodeId, floorMs, lastMs, 0), untilMs);
    Process(Lease(Held, Some(tenancy), false, NoOperation, 0), None, Quiet)
  }

  function Opened(leaseId: nat): Process {
    Process(AcquireBegun(FRESH_LEASE), Some(leaseId), Snapshot(leaseId))
  }

  function WithLease(s: Fleet, pid: nat, leaseId: nat): Fleet {
    s.(procs := s.procs[pid := Opened(leaseId)], nextPid := pid + 1,
       leaseOwner := s.leaseOwner[leaseId := pid], etcd := s.etcd.(leases := s.etcd.leases + {leaseId}))
  }

  // A new process starts to acquire, and is granted an etcd lease.
  lemma Opens(rules: Rules, base: Fleet, s: Fleet, leaseId: nat)
    requires Follows(rules, base, s) && s.nextPid !in s.procs && leaseId !in s.leaseOwner
    ensures Follows(rules, base, WithLease(s, s.nextPid, leaseId))
  {
    var pid := s.nextPid;
    var s1 := s.(procs := s.procs[pid := Process(FRESH_LEASE, None, Quiet)], nextPid := pid + 1);
    Reach(rules, base, s, Spawn, s1);
    var p1 := Process(AcquireBegun(FRESH_LEASE), None, LeaseForClaim);
    Move(rules, base, s1, BeginAcquire(pid), pid, p1);
    IsGranted(rules, base, s, With(s1, pid, p1), leaseId);
  }

  lemma IsGranted(rules: Rules, base: Fleet, s: Fleet, s2: Fleet, leaseId: nat)
    requires Follows(rules, base, s2) && leaseId !in s.leaseOwner
    requires var p1 := Process(AcquireBegun(FRESH_LEASE), None, LeaseForClaim);
             s2 == s.(procs := s.procs[s.nextPid := p1], nextPid := s.nextPid + 1)
    ensures Follows(rules, base, WithLease(s, s.nextPid, leaseId))
  {
    var s' := WithLease(s, s.nextPid, leaseId);
    assert s'.procs == s2.procs[s.nextPid := Opened(leaseId)];
    Reach(rules, base, s2, GrantLease(s.nextPid, leaseId), s');
  }

  predicate MayClaim(s: Fleet, pid: nat, leaseId: nat, nodeId: int, nowMs: int) {
    && s.etcd.initialized && pid in s.procs && s.procs[pid] == Opened(leaseId)
    && leaseId in s.etcd.leases && Leasable(nodeId) && EntryOf(s.etcd, nodeId).owner.None?
    && (forall n :: n in s.etcd.nodes ==> !OwnedUnder(s.etcd, n, leaseId))
    && OrZero(FloorOf(EntryOf(s.etcd, nodeId))) <= nowMs && FloorAt(s, nodeId) < MAX_TIMESTAMP_MS
  }

  // What a new generator on the node is floored at.
  function FloorAt(s: Fleet, nodeId: int): int {
    Max(OrZero(FloorOf(EntryOf(s.etcd, nodeId))), 0)
  }

  function ClaimInFlight(e: Etcd, leaseId: nat, nodeId: int, nowMs: int, ttlMs: nat): Process {
    Opened(leaseId).(
      store := ClaimSent(ClaimFor(nodeId, EntryOf(e, nodeId), leaseId, nowMs, ttlMs), nowMs, FreeNodes(e) - {nodeId}))
  }

  lemma SendsClaim(rules: Rules, base: Fleet, s: Fleet, pid: nat, leaseId: nat, nodeId: int, nowMs: int, ttlMs: nat)
    requires Follows(rules, base, s) && MayClaim(s, pid, leaseId, nodeId, nowMs) && IsTtl(ttlMs)
    ensures Follows(rules, base, With(s, pid, ClaimInFlight(s.etcd, leaseId, nodeId, nowMs, ttlMs)))
  {
    var p1 := Opened(leaseId).(store := Claiming(leaseId, FreeNodes(s.etcd)));
    var s1 := With(s, pid, p1);
    Move(rules, base, s, TakeSnapshot(pid, None, nowMs, ttlMs), pid, p1);
    var p2 := ClaimInFlight(s.etcd, leaseId, nodeId, nowMs, ttlMs);
    assert p1.store.free[nodeId] == EntryOf(s.etcd, nodeId);
    Move(rules, base, s1, SendClaim(pid, nodeId, nowMs, ttlMs), pid, p2);
    assert With(s1, pid, p2) == With(s, pid, p2);
  }

  // It claims the node.
  lemma Claims(rules: Rules, base: Fleet, s: Fleet, pid: nat, leaseId: nat, nodeId: int, nowMs: int, ttlMs: nat)
    returns (s': Fleet)
    requires Follows(rules, base, s) && MayClaim(s, pid, leaseId, nodeId, nowMs) && IsTtl(ttlMs)
    ensures Follows(rules, base, s')
    ensures s'.orphans == s.orphans && s'.emitted == s.emitted && s'.nextPid == s.nextPid
            && s'.leaseOwner == s.leaseOwner
    ensures s'.procs == s.procs[pid := Holding(s.etcd.revision + 1, nodeId, FloorAt(s, nodeId), 0, nowMs + ttlMs)]
    ensures s'.etcd == Apply(s.etcd, ClaimFor(nodeId, EntryOf(s.etcd, nodeId), leaseId, nowMs, ttlMs))
    ensures Succeeds(s.etcd, ClaimFor(nodeId, EntryOf(s.etcd, nodeId), leaseId, nowMs, ttlMs))
  {
    var p := ClaimInFlight(s.etcd, leaseId, nodeId, nowMs, ttlMs);
    var sent := With(s, pid, p);
    SendsClaim(rules, base, s, pid, leaseId, nodeId, nowMs, ttlMs);
    s' := With(Landed(sent, p.store.txn), pid, Settled(p, sent.etcd, 0));
    Reach(rules, base, sent, Land(pid, 0), s');
    assert s'.procs == s.procs[pid := s'.procs[pid]];
  }

  // A holder that has not reached `ms`, and may.
  predicate MayStamp(p: Process, ms: int) {
    && p.lease.held.Some?
    && var t := p.lease.held.value;
       && t.mint.floorMs < ms <= t.leaseUntilMs && t.mint.lastMs < ms && MIN_TIMESTAMP_MS <= ms <= MAX_TIMESTAMP_MS
       && Leasable(t.mint.nodeId)
  }

  lemma Mints(rules: Rules, base: Fleet, s: Fleet, pid: nat, ms: int) returns (s': Fleet)
    requires Follows(rules, base, s) && pid in s.procs && MayStamp(s.procs[pid], ms)
    ensures Follows(rules, base, s')
    ensures var t := s.procs[pid].lease.held.value;
            && s' == s.(procs := s'.procs,
               emitted := s.emitted + [Emission(Fields(ms, t.mint.nodeId, 0), t.generation)])
            && s'.procs.Keys == s.procs.Keys && forall q :: q in s.procs && q != pid ==> s'.procs[q] == s.procs[q]
  {
    var lease := s.procs[pid].lease;
    var t := lease.held.value;
    var after := lease.(held := Some(t.(mint := t.mint.(lastMs := ms, sequence := 0))));
    s' := With(s, pid, s.procs[pid].(lease := after)).(
            emitted := s.emitted + [Emission(Fields(ms, t.mint.nodeId, 0), t.generation)]);
    Reach(rules, base, s, Generate(pid, after, Some(Fields(ms, t.mint.nodeId, 0))), s');
  }

  // Enough of the invariant to start a newcomer; it outlives the damage.
  ghost predicate Hosts(s: Fleet) {
    && (forall pid :: pid in s.procs ==> pid < s.nextPid)
    && (forall n, l: nat :: OwnedUnder(s.etcd, n, l) ==> l in s.leaseOwner)
  }

  // A newcomer opens an etcd lease that owns nothing.
  lemma NewcomerOpens(rules: Rules, base: Fleet, s: Fleet) returns (leaseId: nat)
    requires Follows(rules, base, s) && Hosts(s)
    ensures Follows(rules, base, WithLease(s, s.nextPid, leaseId)) && s.nextPid !in s.procs
    ensures forall n :: n in s.etcd.nodes ==> !OwnedUnder(WithLease(s, s.nextPid, leaseId).etcd, n, leaseId)
  {
    leaseId := FreshNat(s.leaseOwner.Keys);
    Opens(rules, base, s, leaseId);
    forall n | n in s.etcd.nodes ensures !OwnedUnder(WithLease(s, s.nextPid, leaseId).etcd, n, leaseId) {
      assert !OwnedUnder(s.etcd, n, leaseId);
    }
  }

  lemma ClaimKeepsOwnersKnown(s: Fleet, s': Fleet, t: Txn)
    requires (forall n, l: nat :: OwnedUnder(s.etcd, n, l) ==> l in s.leaseOwner)
    requires t.ClaimTxn? && t.leaseId in s.leaseOwner && s'.etcd == Apply(s.etcd, t) && s'.leaseOwner == s.leaseOwner
    ensures forall n, l: nat :: OwnedUnder(s'.etcd, n, l) ==> l in s'.leaseOwner
  {
    forall n, l: nat | OwnedUnder(s'.etcd, n, l) ensures l in s'.leaseOwner {
      assert n == t.nodeId || OwnedUnder(s.etcd, n, l);
    }
  }

  lemma LeaseKeepsOwnersKnown(s: Fleet, pid: nat, leaseId: nat)
    requires Hosts(s)
    ensures var s1 := WithLease(s, pid, leaseId); forall n, l: nat :: OwnedUnder(s1.etcd, n, l) ==> l in s1.leaseOwner
  {
    var s1 := WithLease(s, pid, leaseId);
    forall n, l: nat | OwnedUnder(s1.etcd, n, l) ensures l in s1.leaseOwner {
      assert OwnedUnder(s.etcd, n, l);
    }
  }

  lemma ClaimedEntry(s: Fleet, leaseId: nat, nodeId: int, nowMs: int, ttlMs: nat)
    requires Succeeds(s.etcd, ClaimFor(nodeId, EntryOf(s.etcd, nodeId), leaseId, nowMs, ttlMs))
    requires OrZero(FloorOf(EntryOf(s.etcd, nodeId))) <= nowMs
    ensures var e := Apply(s.etcd, ClaimFor(nodeId, EntryOf(s.etcd, nodeId), leaseId, nowMs, ttlMs));
            && IsHeldBy(EntryOf(e, nodeId), s.etcd.revision + 1)
            && EntryOf(e, nodeId).owner.value.leaseId == leaseId && e.leases == s.etcd.leases
            && FloorOf(EntryOf(e, nodeId)) == Some(nowMs + ttlMs) && e.initialized == s.etcd.initialized
            && OrZero(EntryOf(e, nodeId).owner.value.claimFloorMs) == OrZero(FloorOf(EntryOf(s.etcd, nodeId)))
  {
  }

  // It claims a free node at the instant `nowMs`, no earlier than the floor.
  lemma NewcomerClaims(rules: Rules, base: Fleet, s: Fleet, nodeId: int, nowMs: int, ttlMs: nat) returns (s': Fleet)
    requires Follows(rules, base, s) && Hosts(s) && s.etcd.initialized && Leasable(nodeId)
    requires EntryOf(s.etcd, nodeId).owner.None? && FloorAt(s, nodeId) <= nowMs
    requires FloorAt(s, nodeId) < MAX_TIMESTAMP_MS && IsTtl(ttlMs)
    ensures Follows(rules, base, s') && s'.emitted == s.emitted && s.nextPid !in s.procs && s'.orphans == s.orphans
    ensures s'.procs
            == s.procs[s.nextPid := Holding(s.etcd.revision + 1, nodeId, FloorAt(s, nodeId), 0, nowMs + ttlMs)]
    ensures Hosts(s') && s'.etcd.initialized
    ensures var entry := EntryOf(s'.etcd, nodeId);
            && IsHeldBy(entry, s.etcd.revision + 1) && entry.owner.value.leaseId in s'.etcd.leases
            && FloorOf(entry) == Some(nowMs + ttlMs) && OrZero(entry.owner.value.claimFloorMs) <= nowMs
  {
    var leaseId := NewcomerOpens(rules, base, s);
    var s1 := WithLease(s, s.nextPid, leaseId);
    LeaseKeepsOwnersKnown(s, s.nextPid, leaseId);
    s' := Claims(rules, base, s1, s.nextPid, leaseId, nodeId, nowMs, ttlMs);
    ClaimedEntry(s1, leaseId, nodeId, nowMs, ttlMs);
    ClaimKeepsOwnersKnown(s1, s', ClaimFor(nodeId, EntryOf(s1.etcd, nodeId), leaseId, nowMs, ttlMs));
  }

  // And stamps `ms` there.
  lemma NewcomerStamps(rules: Rules, base: Fleet, s: Fleet, nodeId: int, ms: int, ttlMs: nat) returns (s': Fleet)
    requires Follows(rules, base, s) && Hosts(s) && s.etcd.initialized && Leasable(nodeId)
    requires EntryOf(s.etcd, nodeId).owner.None? && FloorAt(s, nodeId) < ms
    requires MIN_TIMESTAMP_MS <= ms <= MAX_TIMESTAMP_MS && IsTtl(ttlMs)
    ensures Follows(rules, base, s')
    ensures |s'.emitted| == |s.emitted| + 1 && s.emitted <= s'.emitted
    ensures s'.emitted[|s.emitted|].id == Fields(ms, nodeId, 0)
  {
    var s1 := NewcomerClaims(rules, base, s, nodeId, ms, ttlMs);
    s' := Mints(rules, base, s1, s.nextPid, ms);
  }

  // From a sound state, guarded runs never repeat an id.
  lemma CoveredStaysDistinct(s: Fleet, s': Fleet)
    requires Inv(s) && Follows(GuardedRun, s, s')
    ensures AllDistinct(s'.emitted)
  {
    var states, steps :| IsChain(states, steps) && states[0] == s && states[|steps|] == s'
      && StepsOk(GuardedRun, states, steps);
    ChainInv(states, steps, |steps|);
    InvDistinct(s');
  }
}
