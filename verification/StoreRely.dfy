/**
 * What the lease store relies on of other clients, the rest of the fleet does: each of its steps, a crash or
 * an expiry or a lift included, is one that the store's `Foreign` allows.
 */
module StoreRely {
  import opened Wrappers
  import opened LeaseKeyspace
  import opened LeaseProtocol
  import opened LeaseInvariant
  import opened LeasePrompt
  import opened EtcdLeaseStores

  // The etcd lease a transaction acts under.
  function LeaseOf(s: Fleet, t: Txn): Option<nat> {
    if t.ClaimTxn? then Some(t.leaseId)
    else if t.generation in s.tenures then Some(s.tenures[t.generation].leaseId) else None
  }

  // The step is this process's own call, or the answer to it.
  predicate IsOwnCall(step: Step, pid: nat) {
    (step.Land? || step.Fail? || step.GrantLease?) && step.pid == pid
  }

  // A transaction of the process's own, sent by a call that failed long ago, lands now.
  predicate IsLateLanding(s: Fleet, step: Step, pid: nat) {
    && step.LandOrphan? && LeaseOf(s, step.txn).Some?
    && LeaseOf(s, step.txn).value in s.leaseOwner && s.leaseOwner[LeaseOf(s, step.txn).value] == pid
  }

  // The ids from `first` on are this process's.
  predicate OwnsFrom(s: Fleet, pid: nat, first: nat) {
    forall l :: l in s.leaseOwner && first <= l ==> s.leaseOwner[l] == pid
  }

  lemma SenderOwnsLease(s: Fleet, q: nat)
    requires Inv(s) && q in s.procs && HasTxn(s.procs[q].store)
    ensures var lease := LeaseOf(s, s.procs[q].store.txn);
            lease.Some? && lease.value in s.leaseOwner && s.leaseOwner[lease.value] == q
  {
    assert ProcOk(s, q, s.procs[q]);
  }

  // No transaction under another process's lease touches a node owned under ours.
  lemma TheirTxnAt(s: Fleet, t: Txn, pid: nat, first: nat, n: int)
    requires Inv(s) && TxnOk(s, t) && OwnsFrom(s, pid, first)
    requires var lease := LeaseOf(s, t); lease.Some? && lease.value in s.leaseOwner && s.leaseOwner[lease.value] != pid
    ensures ForeignAt(s.etcd, Apply(s.etcd, t), first, n)
    ensures EntryOf(s.etcd, n).owner.Some? && first <= EntryOf(s.etcd, n).owner.value.leaseId ==>
              EntryOf(Apply(s.etcd, t), n) == EntryOf(s.etcd, n)
  {
    assert LeaseOf(s, t).value < first;
    if EntryOf(s.etcd, n).owner.Some? {
      assert n in s.etcd.nodes;
    }
  }

  lemma TheirTxnIsForeign(s: Fleet, t: Txn, pid: nat, first: nat)
    requires Inv(s) && TxnOk(s, t) && OwnsFrom(s, pid, first)
    requires var lease := LeaseOf(s, t); lease.Some? && lease.value in s.leaseOwner && s.leaseOwner[lease.value] != pid
    ensures Foreign(s.etcd, Apply(s.etcd, t), first)
  {
    var e' := Apply(s.etcd, t);
    forall n ensures ForeignAt(s.etcd, e', first, n) {
      TheirTxnAt(s, t, pid, first, n);
    }
    forall l: nat | first <= l ensures KeepsLease(s.etcd, e', l) {
      forall n | OwnedBy(s.etcd, n, l) ensures EntryOf(e', n).owner == EntryOf(s.etcd, n).owner {
        TheirTxnAt(s, t, pid, first, n);
      }
    }
  }

  // Owned nodes, their floors and the leases are as they were, except that leases of others may be new.
  lemma SameOwnedIsForeign(e: Etcd, e': Etcd, first: nat)
    requires e.revision <= e'.revision && e.leases <= e'.leases
    requires forall n :: EntryOf(e', n).owner == EntryOf(e, n).owner
    requires forall n :: EntryOf(e, n).owner.Some? ==> EntryOf(e', n) == EntryOf(e, n)
    requires forall l: nat :: first <= l && l in e'.leases ==> l in e.leases
    ensures Foreign(e, e', first)
  {
    forall n ensures ForeignAt(e, e', first, n) {
    }
    forall l: nat | first <= l ensures KeepsLease(e, e', l) {
    }
  }

  lemma ExpiryIsForeign(e: Etcd, leaseId: nat, first: nat)
    ensures Foreign(e, Expire(e, leaseId), first)
  {
    forall n ensures ForeignAt(e, Expire(e, leaseId), first, n) {
    }
    forall l: nat ensures KeepsLease(e, Expire(e, leaseId), l) {
      forall n | OwnedBy(e, n, l) && l != leaseId ensures EntryOf(Expire(e, leaseId), n).owner == EntryOf(e, n).owner {
      }
    }
  }

  lemma LiftIsForeign(e: Etcd, chunk: set<int>, nowMs: int, first: nat)
    requires MayLift(e, chunk)
    ensures Foreign(e, Lift(e, chunk, nowMs), first)
  {
    forall n ensures EntryOf(Lift(e, chunk, nowMs), n).owner == EntryOf(e, n).owner
                     && (EntryOf(e, n).owner.Some? ==> EntryOf(Lift(e, chunk, nowMs), n) == EntryOf(e, n))
    {
      LiftAt(e, chunk, nowMs, n);
    }
    SameOwnedIsForeign(e, Lift(e, chunk, nowMs), first);
  }

  lemma OtherLeasesOnly(s: Fleet, step: Step, s': Fleet, pid: nat, first: nat)
    requires Next(s, step, s') && Lands(s, step).None? && !step.ExpireLease? && !step.LiftChunk?
    requires OwnsFrom(s', pid, first) && !IsOwnCall(step, pid)
    ensures s.etcd.leases <= s'.etcd.leases && forall l: nat :: first <= l && l in s'.etcd.leases ==> l in s.etcd.leases
  {
    if step.GrantLease? {
      assert s'.leaseOwner[step.leaseId] == step.pid;
    } else if IsProcessMove(step) || step.Generate? {
      ProcessStepKeepsEtcd(s, step, s');
    }
  }

  lemma QuietStepIsForeign(s: Fleet, step: Step, s': Fleet, pid: nat, first: nat)
    requires Next(s, step, s') && EtcdStepped(s, step, s')
    requires Lands(s, step).None? && !step.ExpireLease? && !step.LiftChunk?
    requires OwnsFrom(s', pid, first) && !IsOwnCall(step, pid)
    ensures Foreign(s.etcd, s'.etcd, first)
  {
    OtherLeasesOnly(s, step, s', pid, first);
    assert forall n :: EntryOf(s'.etcd, n) == EntryOf(s.etcd, n);
    SameOwnedIsForeign(s.etcd, s'.etcd, first);
  }

  lemma OwnersGrow(s: Fleet, step: Step, s': Fleet, pid: nat, first: nat)
    requires Inv(s) && Next(s, step, s') && OwnsFrom(s', pid, first)
    ensures OwnsFrom(s, pid, first)
  {
    forall l | l in s.leaseOwner && first <= l ensures s.leaseOwner[l] == pid {
      OwnersStay(s, step, s', l);
    }
  }

  /**
   * Every step of the fleet other than the process's own calls, and other than one of its own failed
   * transactions landing late, is a step of another client as the store expects it.
   */
  lemma EveryOtherStepIsForeign(s: Fleet, step: Step, s': Fleet, pid: nat, first: nat)
    requires Inv(s) && Next(s, step, s') && OwnsFrom(s', pid, first)
    requires !IsOwnCall(step, pid) && !IsLateLanding(s, step, pid)
    ensures Foreign(s.etcd, s'.etcd, first)
  {
    StepMovesEtcd(s, step, s');
    if Lands(s, step).Some? {
      var t := Lands(s, step).value;
      OwnersGrow(s, step, s', pid, first);
      InPlayOk(s, t);
      if !step.LandOrphan? {
        SenderOwnsLease(s, step.pid);
      }
      TheirTxnIsForeign(s, t, pid, first);
    } else if step.ExpireLease? {
      ExpiryIsForeign(s.etcd, step.leaseId, first);
    } else if step.LiftChunk? {
      LiftIsForeign(s.etcd, step.chunk, step.nowMs, first);
    } else {
      QuietStepIsForeign(s, step, s', pid, first);
    }
  }
}
