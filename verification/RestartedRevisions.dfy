/**
 * A generation is a revision of the keyspace that granted it. Where a new volume counts revisions from the
 * start, whoever still acts for a generation the count has yet to reach takes the claim that reaches it for
 * its own. This module builds those runs, and so makes the condition for lifting a new volume exact.
 */
module RestartedRevisions {
  import opened Wrappers
  import opened SnowflakeCodec
  import opened NodeLeases
  import opened LeaseKeyspace
  import opened LeaseProtocol
  import opened LeaseInvariant
  import opened LeaseSafety
  import opened LeasePrompt
  import opened FleetRuns
  import opened LiftSafety
  import opened LostKeyspace

  // ---------------------------------------------------------------- up to a generation

  // Other writes count the revision up; here, lifts setting the marker again.
  lemma {:induction false} Climbs(base: Fleet, s: Fleet, revision: nat)
    requires Follows(PromptRun, base, s) && s.etcd.initialized && s.etcd.revision <= revision
    ensures Follows(PromptRun, base, s.(etcd := s.etcd.(revision := revision)))
    decreases revision - s.etcd.revision
  {
    if s.etcd.revision < revision {
      var s1 := s.(etcd := s.etcd.(initialized := true, revision := s.etcd.revision + 1));
      Reach(PromptRun, base, s, MarkInitialized, s1);
      Climbs(base, s1, revision);
    } else {
      assert s.(etcd := s.etcd.(revision := revision)) == s;
    }
  }

  // A fleet on a lifted volume: what the builders below start from.
  ghost predicate Stage(s: Fleet, nodeId: int, atMs: int) {
    && Hosts(s) && AllFree(s.etcd) && Leasable(nodeId)
    && FloorMs(s.etcd, nodeId) <= atMs && MIN_TIMESTAMP_MS <= atMs < MAX_TIMESTAMP_MS
  }

  // The node is the newcomer's, under the generation wished for.
  ghost predicate ClaimedAt(s: Fleet, s': Fleet, generation: nat, nodeId: int, atMs: int) {
    && Hosts(s') && s'.etcd.initialized && s.nextPid !in s.procs
    && s'.orphans == s.orphans && s'.emitted == s.emitted
    && s'.procs == s.procs[s.nextPid := Holding(generation, nodeId, FloorAt(s, nodeId), 0, atMs + TTL_MS)]
    && var entry := EntryOf(s'.etcd, nodeId);
       && IsHeldBy(entry, generation) && entry.owner.value.leaseId in s'.etcd.leases
       && FloorOf(entry) == Some(atMs + TTL_MS) && OrZero(entry.owner.value.claimFloorMs) <= atMs
  }

  lemma ClaimsAt(base: Fleet, s: Fleet, generation: nat, nodeId: int, atMs: int) returns (s': Fleet)
    requires Follows(PromptRun, base, s) && Stage(s, nodeId, atMs) && s.etcd.revision < generation
    ensures Follows(PromptRun, base, s') && ClaimedAt(s, s', generation, nodeId, atMs)
  {
    var s1 := s.(etcd := s.etcd.(revision := generation - 1));
    Climbs(base, s, generation - 1);
    assert EntryOf(s1.etcd, nodeId) == EntryOf(s.etcd, nodeId);
    assert forall n, l: nat :: OwnedUnder(s1.etcd, n, l) ==> OwnedUnder(s.etcd, n, l);
    s' := NewcomerClaims(PromptRun, base, s1, nodeId, atMs, TTL_MS);
  }

  // It stamps the next millisecond.
  ghost predicate StampedAt(s: Fleet, s': Fleet, generation: nat, nodeId: int, atMs: int) {
    && Hosts(s') && s'.etcd.initialized && s'.orphans == s.orphans
    && (forall pid :: pid in s.procs ==> pid in s'.procs && s'.procs[pid] == s.procs[pid])
    && |s'.emitted| > 0 && s'.emitted[|s'.emitted| - 1].id == Fields(atMs + 1, nodeId, 0)
    && var entry := EntryOf(s'.etcd, nodeId);
       && IsHeldBy(entry, generation) && FloorOf(entry) == Some(atMs + TTL_MS)
       && OrZero(entry.owner.value.claimFloorMs) <= atMs
  }

  lemma ClaimsAndStampsAt(base: Fleet, s: Fleet, generation: nat, nodeId: int, atMs: int) returns (s': Fleet)
    requires Follows(PromptRun, base, s) && Stage(s, nodeId, atMs) && s.etcd.revision < generation
    ensures Follows(PromptRun, base, s') && StampedAt(s, s', generation, nodeId, atMs)
  {
    var s1 := ClaimsAt(base, s, generation, nodeId, atMs);
    s' := Mints(PromptRun, base, s1, s.nextPid, atMs + 1);
    assert forall n, l: nat :: OwnedUnder(s'.etcd, n, l) ==> OwnedUnder(s1.etcd, n, l);
  }

  // The floor has come down below a stamp: once the node is lost, the next holder stamps the same.
  lemma FloorBelowStampReissues(base: Fleet, s: Fleet, nodeId: int, ms: int, i: nat) returns (end: Fleet)
    requires Follows(PromptRun, base, s) && Hosts(s) && s.etcd.initialized && Leasable(nodeId)
    requires i < |s.emitted| && s.emitted[i].id == Fields(ms, nodeId, 0)
    requires FloorAt(s, nodeId) < ms && MIN_TIMESTAMP_MS <= ms <= MAX_TIMESTAMP_MS
    ensures Follows(PromptRun, base, end) && !AllDistinct(end.emitted)
  {
    var owner := EntryOf(s.etcd, nodeId).owner;
    var leaseId: nat := if owner.Some? then owner.value.leaseId else 0;
    var s1 := s.(etcd := Expire(s.etcd, leaseId));
    Reach(PromptRun, base, s, ExpireLease(leaseId), s1);
    assert EntryOf(s1.etcd, nodeId) == EntryOf(s.etcd, nodeId).(owner := None);
    forall n, l: nat | OwnedUnder(s1.etcd, n, l) ensures OwnedUnder(s.etcd, n, l) {
    }
    end := NewcomerStamps(PromptRun, base, s1, nodeId, ms, TTL_MS);
    assert end.emitted[i].id == end.emitted[|s.emitted|].id;
  }

  // ---------------------------------------------------------------- an old holder

  // A process that holds its node and has nothing under way.
  predicate Rests(p: Process, t: Tenancy) {
    p.lease.held == Some(t) && p.lease.operation.NoOperation? && p.store.Quiet?
  }

  function RaiseOf(t: Tenancy, nowMs: int): Txn {
    RaiseTxn(t.mint.nodeId, t.generation, nowMs + TTL_MS)
  }

  function InRenewal(p: Process, t: Tenancy, nowMs: int): Process {
    p.(lease := p.lease.(operation := RenewOp), store := RenewSent(RaiseOf(t, nowMs)))
  }

  // The owner it finds has its generation, whoever that is.
  ghost predicate FindsItself(s: Fleet, pid: nat, t: Tenancy, nowMs: int) {
    && pid in s.procs && Rests(s.procs[pid], t) && t.mint.lastMs <= nowMs
    && var entry := EntryOf(s.etcd, t.mint.nodeId);
       && IsHeldBy(entry, t.generation) && entry.owner.value.leaseId in s.etcd.leases
       && FloorMs(s.etcd, t.mint.nodeId) <= nowMs + TTL_MS
  }

  lemma SendsRaise(base: Fleet, s: Fleet, pid: nat, t: Tenancy, nowMs: int)
    requires Follows(PromptRun, base, s) && FindsItself(s, pid, t, nowMs)
    ensures Follows(PromptRun, base, With(s, pid, InRenewal(s.procs[pid], t, nowMs)))
  {
    var p := s.procs[pid];
    var p1 := p.(lease := p.lease.(operation := RenewOp),
                 store := RenewRead(RenewRequest(t.mint.nodeId, t.generation, t.mint.lastMs)));
    Move(PromptRun, base, s, BeginRenew(pid), pid, p1);
    var s1 := With(s, pid, p1);
    var p2 := p1.(store := RenewAlive(EntryOf(s.etcd, t.mint.nodeId).owner.value.leaseId, RaiseOf(t, nowMs)));
    Move(PromptRun, base, s1, ReadForRenew(pid, nowMs, TTL_MS), pid, p2);
    var s2 := With(s1, pid, p2);
    Move(PromptRun, base, s2, KeepAlive(pid), pid, InRenewal(p, t, nowMs));
    assert With(s2, pid, InRenewal(p, t, nowMs)) == With(s, pid, InRenewal(p, t, nowMs));
  }

  // It is told a new ceiling.
  lemma RenewsTo(base: Fleet, s: Fleet, pid: nat, t: Tenancy, nowMs: int) returns (s': Fleet)
    requires Follows(PromptRun, base, s) && FindsItself(s, pid, t, nowMs)
    ensures Follows(PromptRun, base, s') && s'.emitted == s.emitted && pid in s'.procs
    ensures s'.procs[pid].lease.held == Some(t.(leaseUntilMs := nowMs + TTL_MS))
    ensures forall q :: q in s.procs && q != pid ==> q in s'.procs && s'.procs[q] == s.procs[q]
  {
    var p3 := InRenewal(s.procs[pid], t, nowMs);
    var s3 := With(s, pid, p3);
    SendsRaise(base, s, pid, t, nowMs);
    s' := With(Landed(s3, RaiseOf(t, nowMs)), pid, Settled(p3, s3.etcd, 0));
    Reach(PromptRun, base, s3, Land(pid, 0), s');
  }

  // A renew that was under way fails, as it may.
  lemma ComesToRest(s: Fleet, r: Fleet, pid: nat, t: Tenancy) returns (s': Fleet)
    requires Inv(r) && s == r.(etcd := s.etcd) && pid in s.procs && s.procs[pid].lease.held == Some(t)
    ensures Follows(PromptRun, s, s') && pid in s'.procs && s' == With(s, pid, s'.procs[pid])
    ensures Rests(s'.procs[pid], t)
  {
    var p := s.procs[pid];
    assert ProcOk(r, pid, p);
    Starts(PromptRun, s);
    if p.store.Quiet? {
      s' := s;
      assert With(s, pid, p).procs == s.procs;
    } else {
      s' := With(s, pid, Failed(p));
      Reach(PromptRun, s, s, Fail(pid, Never), s');
    }
  }

  // The newcomer stamps what the old holder just did.
  lemma BothStamp(base: Fleet, s4: Fleet, newcomer: nat, ms: int) returns (end: Fleet)
    requires Follows(PromptRun, base, s4) && newcomer in s4.procs && MayStamp(s4.procs[newcomer], ms)
    requires |s4.emitted| > 0
    requires s4.emitted[|s4.emitted| - 1].id == Fields(ms, s4.procs[newcomer].lease.held.value.mint.nodeId, 0)
    ensures Follows(PromptRun, base, end) && !AllDistinct(end.emitted)
  {
    var n := |s4.emitted|;
    end := Mints(PromptRun, base, s4, newcomer, ms);
    assert end.emitted[n - 1].id == end.emitted[n].id;
  }

  /** A newcomer's claim reaches an old holder's generation; the holder renews it as its own, and both stamp. */
  lemma HolderAboveReissues(base: Fleet, s: Fleet, pid: nat, t: Tenancy, atMs: int) returns (end: Fleet)
    requires Follows(PromptRun, base, s) && Stage(s, t.mint.nodeId, atMs) && s.etcd.revision < t.generation
    requires pid in s.procs && Rests(s.procs[pid], t) && t.mint.lastMs <= atMs && t.mint.floorMs <= atMs
    ensures Follows(PromptRun, base, end) && !AllDistinct(end.emitted)
  {
    var s2 := ClaimsAt(base, s, t.generation, t.mint.nodeId, atMs);
    var s3 := RenewsTo(base, s2, pid, t, atMs);
    var s4 := Mints(PromptRun, base, s3, pid, atMs + 1);
    assert s4.emitted[|s.emitted|].id == Fields(atMs + 1, t.mint.nodeId, 0);
    end := BothStamp(base, s4, s.nextPid, atMs + 1);
  }

  // ---------------------------------------------------------------- a raise, a drop or a release under way

  // The floor it leaves.
  function Leaves(t: Txn): int {
    match t
    case ClaimTxn(_, _, _, _, ceilingMs) => ceilingMs
    case RaiseTxn(_, _, ceilingMs) => ceilingMs
    case DropTxn(_, _, floorMs) => floorMs
  }

  // It lands on a claim of its generation, and brings the floor below what was stamped under it.
  lemma LandedBelowReissues(base: Fleet, s2: Fleet, t: Txn, s3: Fleet, atMs: int) returns (end: Fleet)
    requires Follows(PromptRun, base, s3) && Hosts(s2) && s2.etcd.initialized && Leasable(t.nodeId)
    requires !t.ClaimTxn? && Succeeds(s2.etcd, t) && Leaves(t) <= atMs
    requires |s2.emitted| > 0 && s2.emitted[|s2.emitted| - 1].id == Fields(atMs + 1, t.nodeId, 0)
    requires MIN_TIMESTAMP_MS <= atMs < MAX_TIMESTAMP_MS
    requires s3.etcd == Apply(s2.etcd, t) && s3.procs.Keys == s2.procs.Keys && s3.nextPid == s2.nextPid
    requires s3.leaseOwner == s2.leaseOwner && s3.emitted == s2.emitted
    ensures Follows(PromptRun, base, end) && !AllDistinct(end.emitted)
  {
    forall n, l: nat | OwnedUnder(s3.etcd, n, l) ensures OwnedUnder(s2.etcd, n, l) {
    }
    assert forall pid :: pid in s3.procs ==> pid in s2.procs;
    end := FloorBelowStampReissues(base, s3, t.nodeId, atMs + 1, |s2.emitted| - 1);
  }

  lemma OrphanAboveReissues(base: Fleet, s: Fleet, t: Txn, atMs: int) returns (end: Fleet)
    requires Follows(PromptRun, base, s) && Stage(s, t.nodeId, atMs)
    requires t in s.orphans && !t.ClaimTxn? && s.etcd.revision < t.generation && Leaves(t) <= atMs
    ensures Follows(PromptRun, base, end) && !AllDistinct(end.emitted)
  {
    var s2 := ClaimsAndStampsAt(base, s, t.generation, t.nodeId, atMs);
    var s3 := Landed(s2, t).(orphans := s2.orphans - {t});
    Reach(PromptRun, base, s2, LandOrphan(t), s3);
    end := LandedBelowReissues(base, s2, t, s3, atMs);
  }

  // The same with the caller still waiting for the answer.
  lemma SentLandsBelow(base: Fleet, s2: Fleet, pid: nat, t: Txn, atMs: int) returns (end: Fleet)
    requires Follows(PromptRun, base, s2) && Hosts(s2) && s2.etcd.initialized && Leasable(t.nodeId)
    requires pid in s2.procs && HasTxn(s2.procs[pid].store) && s2.procs[pid].store.txn == t
    requires s2.procs[pid].store.RenewSent? ==> s2.procs[pid].lease.held.Some?
    requires !t.ClaimTxn? && Succeeds(s2.etcd, t) && Leaves(t) <= atMs
    requires |s2.emitted| > 0 && s2.emitted[|s2.emitted| - 1].id == Fields(atMs + 1, t.nodeId, 0)
    requires MIN_TIMESTAMP_MS <= atMs < MAX_TIMESTAMP_MS
    ensures Follows(PromptRun, base, end) && !AllDistinct(end.emitted)
  {
    var s3 := With(Landed(s2, t), pid, Settled(s2.procs[pid], s2.etcd, 0));
    Reach(PromptRun, base, s2, Land(pid, 0), s3);
    end := LandedBelowReissues(base, s2, t, s3, atMs);
  }

  lemma SentAboveReissues(base: Fleet, s: Fleet, pid: nat, t: Txn, atMs: int) returns (end: Fleet)
    requires Follows(PromptRun, base, s) && Stage(s, t.nodeId, atMs)
    requires pid in s.procs && HasTxn(s.procs[pid].store) && s.procs[pid].store.txn == t
    requires s.procs[pid].store.RenewSent? ==> s.procs[pid].lease.held.Some?
    requires !t.ClaimTxn? && s.etcd.revision < t.generation && Leaves(t) <= atMs
    ensures Follows(PromptRun, base, end) && !AllDistinct(end.emitted)
  {
    var s2 := ClaimsAndStampsAt(base, s, t.generation, t.nodeId, atMs);
    end := SentLandsBelow(base, s2, pid, t, atMs);
  }

  // A release about to read its node: it finds the newcomer's claim and drops that.
  lemma ReaderAboveReissues(base: Fleet, s: Fleet, pid: nat, g: nat, nodeId: int, lastMs: int, atMs: int)
    returns (end: Fleet)
    requires Follows(PromptRun, base, s) && Stage(s, nodeId, atMs) && pid in s.procs && s.etcd.revision < g
    requires lastMs <= atMs
    requires var store := s.procs[pid].store;
             || store == RejectRead(nodeId, g)
             || (store.ReleaseRead? && store.request.nodeId == nodeId && store.request.generation == g
                 && OrZero(store.request.lastMs) == lastMs)
    ensures Follows(PromptRun, base, end) && !AllDistinct(end.emitted)
  {
    var s2 := ClaimsAndStampsAt(base, s, g, nodeId, atMs);
    var p := s2.procs[pid];
    var owner := EntryOf(s2.etcd, nodeId).owner.value;
    var reject := p.store.RejectRead?;
    var t := DropFor(nodeId, owner, if reject then None else p.store.request.lastMs);
    var s3 := With(s2, pid, p.(store := if reject then RejectSent(t) else ReleaseSent(t)));
    Reach(PromptRun, base, s2, if reject then ReadForReject(pid) else ReadForRelease(pid), s3);
    end := SentLandsBelow(base, s3, pid, t, atMs);
  }

  // ---------------------------------------------------------------- exactly when a new volume is safe

  // Everything a lift or an old process could still write lies before the end of the id space.
  ghost predicate BeforeTheEnd(s: Fleet) {
    && (forall n :: Leasable(n) ==> FloorMs(s.etcd, n) < MAX_TIMESTAMP_MS)
    && (forall t :: InPlay(s, t) ==> Leaves(t) < MAX_TIMESTAMP_MS)
    && forall pid :: pid in s.procs ==> ProcBeforeTheEnd(s.procs[pid])
  }

  predicate ProcBeforeTheEnd(p: Process) {
    && (p.lease.held.Some? ==>
          p.lease.held.value.mint.lastMs < MAX_TIMESTAMP_MS && p.lease.held.value.mint.floorMs < MAX_TIMESTAMP_MS)
    && (p.store.ReleaseRead? ==> OrZero(p.store.request.lastMs) < MAX_TIMESTAMP_MS)
  }

  // An instant from which a newcomer may claim the node and stamp past `ms`.
  function Instant(s: Fleet, nodeId: int, ms: int): int {
    Max(Max(ms, FloorMs(s.etcd, nodeId)), MIN_TIMESTAMP_MS)
  }

  lemma InstantIsStage(s: Fleet, nodeId: int, ms: int)
    requires Hosts(s) && AllFree(s.etcd) && Leasable(nodeId) && BeforeTheEnd(s) && ms < MAX_TIMESTAMP_MS
    ensures Stage(s, nodeId, Instant(s, nodeId, ms)) && ms <= Instant(s, nodeId, ms)
  {
  }

  lemma OrphanAboveIsUnsafe(s: Fleet, r: Fleet, t: Txn) returns (end: Fleet)
    requires Inv(r) && s == r.(etcd := s.etcd) && Hosts(s) && AllFree(s.etcd) && BeforeTheEnd(s)
    requires t in s.orphans && !t.ClaimTxn? && s.etcd.revision < t.generation
    ensures Follows(PromptRun, s, end) && !AllDistinct(end.emitted)
  {
    assert InPlay(s, t) && InPlay(r, t);
    InPlayOk(r, t);
    InstantIsStage(s, t.nodeId, Leaves(t));
    Starts(PromptRun, s);
    end := OrphanAboveReissues(s, s, t, Instant(s, t.nodeId, Leaves(t)));
  }

  lemma HolderAboveIsUnsafe(s: Fleet, r: Fleet, pid: nat) returns (end: Fleet)
    requires Inv(r) && s == r.(etcd := s.etcd) && Hosts(s) && AllFree(s.etcd) && BeforeTheEnd(s)
    requires pid in s.procs && s.procs[pid].lease.held.Some?
    requires s.etcd.revision < s.procs[pid].lease.held.value.generation
    ensures Follows(PromptRun, s, end) && !AllDistinct(end.emitted)
  {
    var t := s.procs[pid].lease.held.value;
    assert ProcOk(r, pid, r.procs[pid]) && ProcBeforeTheEnd(s.procs[pid]);
    var atMs := Instant(s, t.mint.nodeId, Max(t.mint.lastMs, t.mint.floorMs));
    InstantIsStage(s, t.mint.nodeId, Max(t.mint.lastMs, t.mint.floorMs));
    var s1 := ComesToRest(s, r, pid, t);
    assert Stage(s1, t.mint.nodeId, atMs);
    end := HolderAboveReissues(s, s1, pid, t, atMs);
  }

  lemma SenderAboveIsUnsafe(s: Fleet, r: Fleet, pid: nat) returns (end: Fleet)
    requires Inv(r) && s == r.(etcd := s.etcd) && Hosts(s) && AllFree(s.etcd) && BeforeTheEnd(s)
    requires pid in s.procs && HasTxn(s.procs[pid].store) && !s.procs[pid].store.txn.ClaimTxn?
    requires s.etcd.revision < s.procs[pid].store.txn.generation
    ensures Follows(PromptRun, s, end) && !AllDistinct(end.emitted)
  {
    var t := s.procs[pid].store.txn;
    assert Holds(s.procs[pid].store, t);
    assert InPlay(s, t) && InPlay(r, t);
    assert ProcOk(r, pid, r.procs[pid]);
    InPlayOk(r, t);
    InstantIsStage(s, t.nodeId, Leaves(t));
    Starts(PromptRun, s);
    end := SentAboveReissues(s, s, pid, t, Instant(s, t.nodeId, Leaves(t)));
  }

  lemma ReaderAboveIsUnsafe(s: Fleet, r: Fleet, pid: nat, g: nat) returns (end: Fleet)
    requires Inv(r) && s == r.(etcd := s.etcd) && Hosts(s) && AllFree(s.etcd) && BeforeTheEnd(s)
    requires pid in s.procs && s.etcd.revision < g
    requires var store := s.procs[pid].store;
             (store.RejectRead? && store.generation == g) || (store.ReleaseRead? && store.request.generation == g)
    ensures Follows(PromptRun, s, end) && !AllDistinct(end.emitted)
  {
    var store := s.procs[pid].store;
    assert ProcOk(r, pid, r.procs[pid]) && ProcBeforeTheEnd(s.procs[pid]);
    var nodeId := if store.RejectRead? then store.nodeId else store.request.nodeId;
    var lastMs := if store.RejectRead? then 0 else OrZero(store.request.lastMs);
    InstantIsStage(s, nodeId, lastMs);
    Starts(PromptRun, s);
    end := ReaderAboveReissues(s, s, pid, g, nodeId, lastMs, Instant(s, nodeId, lastMs));
  }

  lemma AboveIsUnsafe(s: Fleet, r: Fleet) returns (end: Fleet)
    requires Inv(r) && s == r.(etcd := s.etcd) && Hosts(s) && AllFree(s.etcd) && BeforeTheEnd(s)
    requires !NoneAbove(s, s.etcd.revision)
    ensures Follows(PromptRun, s, end) && !AllDistinct(end.emitted)
  {
    if t :| t in s.orphans && !t.ClaimTxn? && s.etcd.revision < t.generation {
      end := OrphanAboveIsUnsafe(s, r, t);
    } else {
      var pid: nat, g: nat :| pid in s.procs && Carries(s.procs[pid], g) && s.etcd.revision < g;
      var p := s.procs[pid];
      if p.lease.held.Some? && p.lease.held.value.generation == g {
        end := HolderAboveIsUnsafe(s, r, pid);
      } else if HasTxn(p.store) && Touches(p.store.txn, g) {
        end := SenderAboveIsUnsafe(s, r, pid);
      } else {
        end := ReaderAboveIsUnsafe(s, r, pid, g);
      }
    }
  }

  /**
   * Exactly when a lost keyspace may be taken up again. Its old holders may have minted, renewed and failed
   * between the loss, the chunks of the lift and the marker. With nothing stamped above the new floors, no id
   * is ever repeated from there on if and only if no holder's ceiling is above its node's floor, and nobody
   * acts for a generation above the revision the new volume has got to: both can be told before anyone mints.
   */
  lemma NewVolumeIsSafeIff(s: Fleet, w: Fleet, s': Fleet)
    requires Sound(s) && Wiped(s, w) && AdriftTo(w, s') && AllFree(s'.etcd)
    requires StampedBelow(s', s'.etcd) && BeforeTheEnd(s')
    requires forall pid :: pid in s'.procs && OutlivesFloor(s', pid) ==>
                             MayStamp(s'.procs[pid], s'.procs[pid].lease.held.value.leaseUntilMs)
    ensures (forall end :: Follows(PromptRun, s', end) ==> AllDistinct(end.emitted))
            <==> CeilingsBelow(s', s'.etcd) && NoneAbove(s', s'.etcd.revision)
  {
    if CeilingsBelow(s', s'.etcd) && NoneAbove(s', s'.etcd.revision) {
      forall end | Follows(PromptRun, s', end) ensures AllDistinct(end.emitted) {
        LiftedVolumeIsSafe(s, w, s', end);
      }
    } else {
      var r := DriftsHome(s, w, s');
      assert forall n, l: nat :: OwnedUnder(s'.etcd, n, l) ==> EntryOf(s'.etcd, n).owner.Some?;
      if !CeilingsBelow(s', s'.etcd) {
        var pid :| pid in s'.procs && OutlivesFloor(s', pid);
        var end := FloorBelowHolderReissues(PromptRun, s', pid);
      } else {
        var end := AboveIsUnsafe(s', r);
      }
    }
  }

  // The process holds a node with its ceiling above the floor there.
  predicate OutlivesFloor(s: Fleet, pid: nat)
    requires pid in s.procs
  {
    && s.procs[pid].lease.held.Some?
    && var t := s.procs[pid].lease.held.value; FloorMs(s.etcd, t.mint.nodeId) < t.leaseUntilMs
  }
}
