/**
 * What a raise that lands late can do. While its caller lives on with a ceiling it has not reached, the
 * raise is harmless exactly when it does not take the floor below that ceiling; and the store does send
 * raises that can.
 */
module LateRaise {
  import opened Wrappers
  import opened SnowflakeCodec
  import opened NodeLeases
  import opened LeaseKeyspace
  import opened LeaseProtocol
  import opened LeaseInvariant
  import opened LeaseSafety
  import opened FleetRuns

  // ---------------------------------------------------------------- a floor below a live ceiling

  lemma LosesNode(rules: Rules, base: Fleet, s: Fleet, nodeId: int, leaseId: nat) returns (s': Fleet)
    requires Follows(rules, base, s) && Hosts(s) && OwnedUnder(s.etcd, nodeId, leaseId)
    ensures Follows(rules, base, s') && Hosts(s') && s'.etcd.initialized && s'.emitted == s.emitted
    ensures EntryOf(s'.etcd, nodeId) == EntryOf(s.etcd, nodeId).(owner := None)
  {
    var s1 := s.(etcd := s.etcd.(initialized := true, revision := s.etcd.revision + 1));
    Reach(rules, base, s, MarkInitialized, s1);
    s' := s1.(etcd := Expire(s1.etcd, leaseId));
    Reach(rules, base, s1, ExpireLease(leaseId), s');
    forall n, l: nat | OwnedUnder(s'.etcd, n, l) ensures OwnedUnder(s.etcd, n, l) {
    }
  }

  /**
   * A floor below the ceiling of a holder that may still reach it ends in a duplicate id: the holder stamps
   * its ceiling, loses the node, and whoever claims the node next stamps the same.
   */
  lemma FloorBelowCeilingReissues(rules: Rules, base: Fleet, s: Fleet, pid: nat, leaseId: nat) returns (s': Fleet)
    requires Follows(rules, base, s) && Hosts(s) && pid in s.procs && s.procs[pid].lease.held.Some?
    requires var t := s.procs[pid].lease.held.value;
             && MayStamp(s.procs[pid], t.leaseUntilMs) && OwnedUnder(s.etcd, t.mint.nodeId, leaseId)
             && FloorAt(s, t.mint.nodeId) < t.leaseUntilMs
    ensures Follows(rules, base, s') && !AllDistinct(s'.emitted)
  {
    var t := s.procs[pid].lease.held.value;
    var s1 := Mints(rules, base, s, pid, t.leaseUntilMs);
    assert forall n, l: nat :: OwnedUnder(s1.etcd, n, l) ==> OwnedUnder(s.etcd, n, l);
    var s2 := LosesNode(rules, base, s1, t.mint.nodeId, leaseId);
    s' := NewcomerStamps(rules, base, s2, t.mint.nodeId, t.leaseUntilMs, TTL_MS);
    assert s'.emitted[|s.emitted|] == s1.emitted[|s.emitted|];
    assert s'.emitted[|s.emitted|].id == s'.emitted[|s.emitted| + 1].id;
  }

  // ---------------------------------------------------------------- exactly when a late raise is harmless

  // Only the process the generation was granted to holds it, and it has stamped nothing past its last stamp.
  lemma NotBelowCeilingKeepsCover(s: Fleet, t: Txn, pid: nat)
    requires Inv(s) && t.RaiseTxn? && pid in s.procs && s.procs[pid].lease.held.Some?
    requires s.procs[pid].lease.held.value.generation == t.generation
    requires s.procs[pid].lease.held.value.mint.lastMs <= s.procs[pid].lease.held.value.leaseUntilMs <= t.ceilingMs
    ensures KeepsCover(s, t)
  {
    assert ProcOk(s, pid, s.procs[pid]);
    forall q | q in s.procs && s.procs[q].lease.held.Some? && s.procs[q].lease.held.value.generation == t.generation
      ensures q == pid
    {
      assert ProcOk(s, q, s.procs[q]);
    }
  }

  /**
   * A raise lands while its holder lives on with a ceiling it has not reached. Every prompt and guarded
   * continuation hands out distinct ids exactly when the raise does not go below that ceiling.
   */
  lemma LateRaiseIsHarmlessIffNotBelowCeiling(s: Fleet, t: Txn, pid: nat)
    requires Inv(s) && InPlay(s, t) && t.RaiseTxn? && Succeeds(s.etcd, t)
    requires pid in s.procs && s.procs[pid].lease.held.Some? && s.procs[pid].lease.held.value.generation == t.generation
    requires MayStamp(s.procs[pid], s.procs[pid].lease.held.value.leaseUntilMs)
    ensures (forall s' :: Follows(GuardedRun, Landed(s, t), s') ==> AllDistinct(s'.emitted))
            <==> s.procs[pid].lease.held.value.leaseUntilMs <= t.ceilingMs
  {
    var until := s.procs[pid].lease.held.value.leaseUntilMs;
    if until <= t.ceilingMs {
      NotBelowCeilingKeepsCover(s, t, pid);
      LandedInv(s, t);
      forall s' | Follows(GuardedRun, Landed(s, t), s') ensures AllDistinct(s'.emitted) {
        CoveredStaysDistinct(Landed(s, t), s');
      }
    } else {
      var s' := LateRaiseReissues(s, t, pid);
    }
  }

  lemma LandedHosts(s: Fleet, t: Txn)
    requires Inv(s) && t.RaiseTxn? && Succeeds(s.etcd, t)
    ensures Hosts(Landed(s, t))
            && OwnedUnder(Landed(s, t).etcd, t.nodeId, EntryOf(s.etcd, t.nodeId).owner.value.leaseId)
    ensures FloorAt(Landed(s, t), t.nodeId) == Max(t.ceilingMs, 0)
  {
    forall n, l: nat | OwnedUnder(Landed(s, t).etcd, n, l) ensures l in s.leaseOwner {
      assert OwnedUnder(s.etcd, n, l) && n in s.etcd.nodes;
    }
  }

  lemma LateRaiseReissues(s: Fleet, t: Txn, pid: nat) returns (s': Fleet)
    requires Inv(s) && InPlay(s, t) && t.RaiseTxn? && Succeeds(s.etcd, t)
    requires pid in s.procs && s.procs[pid].lease.held.Some? && s.procs[pid].lease.held.value.generation == t.generation
    requires MayStamp(s.procs[pid], s.procs[pid].lease.held.value.leaseUntilMs)
    requires t.ceilingMs < s.procs[pid].lease.held.value.leaseUntilMs
    ensures Follows(GuardedRun, Landed(s, t), s') && !AllDistinct(s'.emitted)
  {
    var s1 := Landed(s, t);
    Starts(GuardedRun, s1);
    LandedHosts(s, t);
    assert ProcOk(s, pid, s.procs[pid]);
    InPlayOk(s, t);
    s' := FloorBelowCeilingReissues(GuardedRun, s1, s1, pid, EntryOf(s.etcd, t.nodeId).owner.value.leaseId);
  }

  // ---------------------------------------------------------------- the store does send such raises

  const NODE: int := 1
  // The wall clock the first holder claims at, and its first ceiling.
  const T: int := MIN_TIMESTAMP_MS
  const CEILING_MS: int := T + TTL_MS

  function EmptyFleet(): Fleet {
    Fleet(Etcd(0, true, None, {}, map[]), map[], 0, {}, map[], map[], [])
  }

  function ClaimedNode(): NodeEntry {
    NodeEntry(Some(Owner(1, 0, None)), Some(Floor(CEILING_MS, 1)))
  }

  lemma FirstHolder() returns (s: Fleet)
    ensures Follows(AnyRun, EmptyFleet(), s) && s.etcd.initialized && s.nextPid == 1 && s.emitted == []
    ensures s.leaseOwner == map[0 := 0] && s.orphans == {} && s.procs == map[0 := Holding(1, NODE, 0, 0, CEILING_MS)]
    ensures s.etcd.revision == 1 && s.etcd.leases == {0} && s.etcd.nodes == map[NODE := ClaimedNode()]
  {
    Starts(AnyRun, EmptyFleet());
    Opens(AnyRun, EmptyFleet(), EmptyFleet(), 0);
    s := Claims(AnyRun, EmptyFleet(), WithLease(EmptyFleet(), 0, 0), 0, 0, NODE, T, TTL_MS);
  }

  function RaiseTo(untilMs: int): Txn {
    RaiseTxn(NODE, 1, untilMs)
  }

  // The holder reads its node at wall clock `nowMs`, keeps its lease alive and has a raise in flight.
  function Renewing(nowMs: int): Process {
    var p := Holding(1, NODE, 0, 0, CEILING_MS);
    p.(lease := p.lease.(operation := RenewOp), store := RenewSent(RaiseTo(nowMs + TTL_MS)))
  }

  ghost predicate HeldOnly(s: Fleet) {
    && 0 in s.procs && s.procs[0] == Holding(1, NODE, 0, 0, CEILING_MS)
    && EntryOf(s.etcd, NODE) == ClaimedNode() && s.etcd.leases == {0}
  }

  lemma Renews(s: Fleet, nowMs: int)
    requires Follows(AnyRun, EmptyFleet(), s) && HeldOnly(s) && T <= nowMs
    ensures Follows(AnyRun, EmptyFleet(), With(s, 0, Renewing(nowMs)))
  {
    var p := s.procs[0];
    var p1 := p.(lease := p.lease.(operation := RenewOp), store := RenewRead(RenewRequest(NODE, 1, 0)));
    var s1 := With(s, 0, p1);
    Move(AnyRun, EmptyFleet(), s, BeginRenew(0), 0, p1);
    var p2 := p1.(store := RenewAlive(0, RaiseTo(nowMs + TTL_MS)));
    var s2 := With(s1, 0, p2);
    Move(AnyRun, EmptyFleet(), s1, ReadForRenew(0, nowMs, TTL_MS), 0, p2);
    Move(AnyRun, EmptyFleet(), s2, KeepAlive(0), 0, Renewing(nowMs));
    assert With(s2, 0, Renewing(nowMs)) == With(s, 0, Renewing(nowMs));
  }

  // Its renew a millisecond later fails without an answer; the one after that goes through.
  lemma SecondRenewWins() returns (s: Fleet)
    ensures Follows(AnyRun, EmptyFleet(), s) && Hosts(s)
    ensures RaiseTo(CEILING_MS + 1) in s.orphans && Succeeds(s.etcd, RaiseTo(CEILING_MS + 1))
    ensures 0 in s.procs && s.procs[0] == Holding(1, NODE, 0, 0, CEILING_MS + 2)
  {
    var s0 := FirstHolder();
    Renews(s0, T + 1);
    var s1 := With(s0, 0, Renewing(T + 1));
    var s2 := s0.(orphans := {RaiseTo(CEILING_MS + 1)});
    assert s2 == With(s1.(orphans := s1.orphans + {RaiseTo(CEILING_MS + 1)}), 0, Failed(s1.procs[0]));
    Reach(AnyRun, EmptyFleet(), s1, Fail(0, Late), s2);
    s := RenewsAgain(s2);
  }

  lemma RenewsAgain(s2: Fleet) returns (s: Fleet)
    requires Follows(AnyRun, EmptyFleet(), s2) && HeldOnly(s2) && s2.orphans == {RaiseTo(CEILING_MS + 1)}
    requires s2.etcd.nodes == map[NODE := ClaimedNode()] && s2.leaseOwner == map[0 := 0]
    requires s2.nextPid == 1 && s2.procs.Keys == {0}
    ensures Follows(AnyRun, EmptyFleet(), s) && Hosts(s)
    ensures RaiseTo(CEILING_MS + 1) in s.orphans && Succeeds(s.etcd, RaiseTo(CEILING_MS + 1))
    ensures 0 in s.procs && s.procs[0] == Holding(1, NODE, 0, 0, CEILING_MS + 2)
  {
    Renews(s2, T + 2);
    var s3 := With(s2, 0, Renewing(T + 2));
    s := With(Landed(s3, RaiseTo(CEILING_MS + 2)), 0, Settled(s3.procs[0], s3.etcd, 0));
    Reach(AnyRun, EmptyFleet(), s3, Land(0, 0), s);
  }

  /** A run of the store's own calls in which one raise lands late, and two processes hand out the same id. */
  lemma LateRaiseIssuesAnIdTwice()
    ensures exists states: seq<Fleet>, steps: seq<Step> :: IsRun(states, steps) && !AllDistinct(states[|steps|].emitted)
  {
    var s := SecondRenewWins();
    var t := RaiseTo(CEILING_MS + 1);
    var s1 := Landed(s, t).(orphans := s.orphans - {t});
    Reach(AnyRun, EmptyFleet(), s, LandOrphan(t), s1);
    assert forall n, l: nat :: OwnedUnder(s1.etcd, n, l) ==> OwnedUnder(s.etcd, n, l);
    var s2 := FloorBelowCeilingReissues(AnyRun, EmptyFleet(), s1, 0, EntryOf(s.etcd, NODE).owner.value.leaseId);
    var states: seq<Fleet>, steps: seq<Step> :|
      IsChain(states, steps) && states[0] == EmptyFleet() && states[|steps|] == s2 && StepsOk(AnyRun, states, steps);
    assert IsRun(states, steps) && !AllDistinct(states[|steps|].emitted);
  }
}
