/**
 * What the store relies on instead of comparing the floor: when every failed raise of a live caller has
 * landed by the time it fails, or never does, no raise in play is ever below the floor it would replace.
 */
module LeasePrompt {
  import opened Wrappers
  import opened LeaseKeyspace
  import opened LeaseProtocol
  import opened LeaseInvariant
  import opened LeaseSafety

  // The raise would not bring the floor down if it landed now.
  predicate Current(e: Etcd, t: Txn) {
    t.RaiseTxn? && IsHeldBy(EntryOf(e, t.nodeId), t.generation) ==>
      OrZero(FloorOf(EntryOf(e, t.nodeId))) <= t.ceilingMs
  }

  // Every raise in play is current; a raise left behind has no live caller, and is its generation's only one.
  ghost predicate RaisesCurrent(s: Fleet) {
    && (forall t :: InPlay(s, t) ==> Current(s.etcd, t))
    && (forall t, pid :: t in s.orphans && t.RaiseTxn? && pid in s.procs ==> !ActsFor(s, pid, t.generation))
    && (forall t, u ::
          (t in s.orphans && u in s.orphans && t.RaiseTxn? && u.RaiseTxn? && t.generation == u.generation) ==> t == u)
  }

  lemma HolderActs(s: Fleet, pid: nat, t: Txn)
    requires Inv(s) && pid in s.procs && Holds(s.procs[pid].store, t) && t.RaiseTxn?
    ensures ActsFor(s, pid, t.generation)
  {
    assert ProcOk(s, pid, s.procs[pid]);
  }

  // Only one raise per generation is ever in play, so no other raise finds the floor moved under it.
  lemma RaiseIsSole(s: Fleet, t: Txn, u: Txn)
    requires Inv(s) && RaisesCurrent(s) && InPlay(s, t) && InPlay(s, u)
    requires t.RaiseTxn? && u.RaiseTxn? && t.generation == u.generation
    ensures t == u
  {
    if t !in s.orphans || u !in s.orphans {
      var p: nat := if t !in s.orphans then PlayedBy(s, t) else PlayedBy(s, u);
      HolderActs(s, p, if t !in s.orphans then t else u);
      if t !in s.orphans && u !in s.orphans {
        HolderActs(s, PlayedBy(s, u), u);
      }
    }
  }

  ghost function PlayedBy(s: Fleet, t: Txn): (pid: nat)
    requires InPlay(s, t) && t !in s.orphans
    ensures pid in s.procs && Holds(s.procs[pid].store, t)
  {
    var pid :| pid in s.procs && Holds(s.procs[pid].store, t);
    pid
  }

  // A transaction that lands moves no floor under another raise of the node's holder.
  lemma LandedKeepsCurrent(s: Fleet, t: Txn, u: Txn)
    requires Inv(s) && RaisesCurrent(s) && InPlay(s, t) && InPlay(s, u)
    ensures Current(Landed(s, t).etcd, u)
  {
    InPlayOk(s, t);
    InPlayOk(s, u);
    assert Current(s.etcd, u);
    if t.RaiseTxn? && u.RaiseTxn? && t.generation == u.generation {
      RaiseIsSole(s, t, u);
    }
  }

  // Whatever happens to the keyspace in a step, a raise that was in play stays current.
  lemma StepKeepsCurrent(s: Fleet, step: Step, s': Fleet, u: Txn)
    requires Inv(s) && RaisesCurrent(s) && Next(s, step, s') && InPlay(s, u)
    ensures Current(s'.etcd, u)
  {
    StepMovesEtcd(s, step, s');
    if Lands(s, step).Some? {
      LandedKeepsCurrent(s, Lands(s, step).value, u);
    } else {
      assert Current(s.etcd, u);
      KeyspaceKeepsCurrent(s, step, s', u);
    }
  }

  lemma KeyspaceKeepsCurrent(s: Fleet, step: Step, s': Fleet, u: Txn)
    requires Current(s.etcd, u)
    requires if step.ExpireLease? then s'.etcd == Expire(s.etcd, step.leaseId)
             else if step.LiftChunk? then MayLift(s.etcd, step.chunk) && s'.etcd == Lift(s.etcd, step.chunk, step.nowMs)
             else s'.etcd.nodes == s.etcd.nodes
    ensures Current(s'.etcd, u)
  {
    if step.LiftChunk? {
      LiftAt(s.etcd, step.chunk, step.nowMs, u.nodeId);
    }
  }

  // A raise a process builds is made from the floor as it is at the time.
  lemma BuiltRaiseIsCurrent(s: Fleet, step: Step, pid: nat, p: Process, p': Process, u: Txn)
    requires MovesTo(s, step, pid, p, p') && Holds(p'.store, u) && !Holds(p.store, u)
    ensures Current(s.etcd, u)
  {
  }

  // An answer or a failure leaves nothing to send.
  lemma SettledSendsNothing(s: Fleet, step: Step, s': Fleet, u: Txn)
    requires Next(s, step, s') && (step.Land? || step.Fail?) && step.pid in s'.procs
    ensures !Holds(s'.procs[step.pid].store, u)
  {
  }

  lemma NewInPlayIsCurrent(s: Fleet, step: Step, s': Fleet, pid: nat, u: Txn)
    requires Next(s, step, s') && pid in s'.procs && Holds(s'.procs[pid].store, u)
    requires !(pid in s.procs && Holds(s.procs[pid].store, u))
    ensures s'.etcd == s.etcd && Current(s'.etcd, u)
  {
    if step.Land? || step.Fail? {
      SettledSendsNothing(s, step, s', u);
    } else if !step.GrantLease? && !step.Spawn? {
      BuiltRaiseIsCurrent(s, step, pid, s.procs[pid], s'.procs[pid], u);
    }
  }

  // What is left behind was in play.
  lemma OrphansWereInPlay(s: Fleet, step: Step, s': Fleet, u: Txn)
    requires Next(s, step, s') && u in s'.orphans
    ensures InPlay(s, u)
    ensures u !in s.orphans ==>
              (step.Crash? || (step.Fail? && step.fate.Late?)) && HasTxn(s.procs[step.pid].store)
                && u == s.procs[step.pid].store.txn
  {
    if u !in s.orphans {
      assert Holds(s.procs[step.pid].store, u);
    }
  }

  lemma EveryRaiseStaysCurrent(s: Fleet, step: Step, s': Fleet, u: Txn)
    requires Inv(s) && RaisesCurrent(s) && Next(s, step, s') && InPlay(s', u)
    ensures Current(s'.etcd, u)
  {
    if InPlay(s, u) {
      StepKeepsCurrent(s, step, s', u);
    } else {
      if u in s'.orphans {
        OrphansWereInPlay(s, step, s', u);
      } else {
        NewInPlayIsCurrent(s, step, s', PlayedBy(s', u), u);
      }
    }
  }

  lemma TenuresStay(s: Fleet, step: Step, s': Fleet, g: nat)
    requires Next(s, step, s') && g in s.tenures && g <= s.etcd.revision
    ensures g in s'.tenures && s'.tenures[g] == s.tenures[g]
  {
    StepMovesEtcd(s, step, s');
  }

  lemma OwnersStay(s: Fleet, step: Step, s': Fleet, leaseId: nat)
    requires Next(s, step, s') && leaseId in s.leaseOwner
    ensures leaseId in s'.leaseOwner && s'.leaseOwner[leaseId] == s.leaseOwner[leaseId]
  {
    if IsProcessMove(step) || step.Generate? {
      ProcessStepKeepsEtcd(s, step, s');
    }
  }

  lemma NewProcessIsNext(s: Fleet, step: Step, s': Fleet, pid: nat)
    requires Next(s, step, s') && pid in s'.procs
    ensures pid in s.procs || pid == s.nextPid
  {
  }

  // Who acts for an old generation never changes, and a new process acts for none.
  lemma ActorsStay(s: Fleet, step: Step, s': Fleet, pid: nat, g: nat)
    requires Inv(s) && Next(s, step, s') && g in s.tenures && pid in s'.procs && ActsFor(s', pid, g)
    ensures pid in s.procs && ActsFor(s, pid, g)
  {
    TenuresStay(s, step, s', g);
    OwnersStay(s, step, s', s.tenures[g].leaseId);
    NewProcessIsNext(s, step, s', pid);
  }

  lemma NoLiveCallerOfOrphan(s: Fleet, step: Step, s': Fleet, t: Txn, pid: nat)
    requires Inv(s) && RaisesCurrent(s) && Next(s, step, s') && Prompt(s, step)
    requires t in s'.orphans && t.RaiseTxn? && pid in s'.procs
    ensures !ActsFor(s', pid, t.generation)
  {
    OrphansWereInPlay(s, step, s', t);
    InPlayOk(s, t);
    if ActsFor(s', pid, t.generation) {
      ActorsStay(s, step, s', pid, t.generation);
      if t !in s.orphans {
        HolderActs(s, step.pid, t);
      }
    }
  }

  lemma RaisesStayCurrent(s: Fleet, step: Step, s': Fleet)
    requires Inv(s) && RaisesCurrent(s) && Next(s, step, s') && Prompt(s, step)
    ensures RaisesCurrent(s')
  {
    forall u | InPlay(s', u) ensures Current(s'.etcd, u) {
      EveryRaiseStaysCurrent(s, step, s', u);
    }
    forall t, pid | t in s'.orphans && t.RaiseTxn? && pid in s'.procs ensures !ActsFor(s', pid, t.generation) {
      NoLiveCallerOfOrphan(s, step, s', t, pid);
    }
    forall t, u | t in s'.orphans && u in s'.orphans && t.RaiseTxn? && u.RaiseTxn? && t.generation == u.generation
      ensures t == u
    {
      OrphansWereInPlay(s, step, s', t);
      OrphansWereInPlay(s, step, s', u);
      RaiseIsSole(s, t, u);
    }
  }

  lemma PromptIsNotLower(s: Fleet, step: Step, s': Fleet)
    requires RaisesCurrent(s) && Next(s, step, s')
    ensures NotLower(s, step)
  {
    StepMovesEtcd(s, step, s');
  }

  // What prompt runs keep.
  ghost predicate Sound(s: Fleet) {
    Inv(s) && RaisesCurrent(s)
  }

  lemma PromptStepIsGuarded(s: Fleet, step: Step, s': Fleet)
    requires Sound(s) && Next(s, step, s')
    ensures NotLower(s, step) && Guarded(s, step)
  {
    PromptIsNotLower(s, step, s');
    NotLowerGuards(s, step, s');
  }

  lemma PromptStepKeepsSound(s: Fleet, step: Step, s': Fleet)
    requires Sound(s) && Next(s, step, s') && Prompt(s, step)
    ensures Sound(s')
  {
    PromptStepIsGuarded(s, step, s');
    NextInv(s, step, s');
    RaisesStayCurrent(s, step, s');
  }

  lemma StartIsSound(s: Fleet)
    requires Init(s)
    ensures Sound(s)
  {
    InitInv(s);
  }

  lemma {:induction false} PromptChainsStaySound(states: seq<Fleet>, steps: seq<Step>, k: nat)
    requires IsChain(states, steps) && IsPrompt(states, steps) && Sound(states[0]) && k < |states|
    ensures Sound(states[k])
  {
    if k > 0 {
      PromptChainsStaySound(states, steps, k - 1);
      PromptStepKeepsSound(states[k - 1], steps[k - 1], states[k]);
    }
  }

  lemma PromptRunsAreGuarded(states: seq<Fleet>, steps: seq<Step>, k: nat)
    requires IsRun(states, steps) && IsPrompt(states, steps) && k < |states|
    ensures Sound(states[k])
    ensures k < |steps| ==> NotLower(states[k], steps[k]) && Guarded(states[k], steps[k])
  {
    StartIsSound(states[0]);
    PromptChainsStaySound(states, steps, k);
    if k < |steps| {
      PromptStepIsGuarded(states[k], steps[k], states[k + 1]);
    }
  }

  /** With the calls the store makes, promptness of failed raises is enough for uniqueness. */
  lemma PromptRaisesSuffice(states: seq<Fleet>, steps: seq<Step>, k: nat)
    requires IsRun(states, steps) && IsPrompt(states, steps) && k < |states|
    ensures AllDistinct(states[k].emitted)
  {
    PromptRunsAreGuarded(states, steps, k);
    InvDistinct(states[k]);
  }
}
