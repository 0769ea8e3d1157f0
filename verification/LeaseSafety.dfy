/** What the ceiling protocol is for: no id is ever handed out twice, whatever the clocks do. */
module LeaseSafety {
  import opened SnowflakeCodec
  import opened LeaseKeyspace
  import opened LeaseProtocol
  import opened LeaseInvariant

  // `states[i]` to `states[i + 1]` is `steps[i]`.
  ghost predicate IsChain(states: seq<Fleet>, steps: seq<Step>) {
    |states| == |steps| + 1 && forall i :: 0 <= i < |steps| ==> Next(states[i], steps[i], states[i + 1])
  }

  // A run of the fleet from a lifted keyspace.
  ghost predicate IsRun(states: seq<Fleet>, steps: seq<Step>) {
    IsChain(states, steps) && Init(states[0])
  }

  ghost predicate IsGuarded(states: seq<Fleet>, steps: seq<Step>)
    requires |states| == |steps| + 1
  {
    forall i :: 0 <= i < |steps| ==> Guarded(states[i], steps[i])
  }

  ghost predicate IsNotLower(states: seq<Fleet>, steps: seq<Step>)
    requires |states| == |steps| + 1
  {
    forall i :: 0 <= i < |steps| ==> NotLower(states[i], steps[i])
  }

  ghost predicate IsPrompt(states: seq<Fleet>, steps: seq<Step>)
    requires |states| == |steps| + 1
  {
    forall i :: 0 <= i < |steps| ==> Prompt(states[i], steps[i])
  }

  lemma {:induction false} ChainInv(states: seq<Fleet>, steps: seq<Step>, k: nat)
    requires IsChain(states, steps) && IsGuarded(states, steps) && Inv(states[0]) && k < |states|
    ensures Inv(states[k])
  {
    if k > 0 {
      ChainInv(states, steps, k - 1);
      NextInv(states[k - 1], steps[k - 1], states[k]);
    }
  }

  lemma RunInv(states: seq<Fleet>, steps: seq<Step>, k: nat)
    requires IsRun(states, steps) && IsGuarded(states, steps) && k < |states|
    ensures Inv(states[k])
  {
    InitInv(states[0]);
    ChainInv(states, steps, k);
  }

  ghost predicate AllDistinct(emitted: seq<Emission>) {
    forall i, j :: 0 <= i < j < |emitted| ==>
      && emitted[i].id != emitted[j].id
      && (Encode(emitted[i].id).Success? ==> Encode(emitted[i].id) != Encode(emitted[j].id))
  }

  lemma InvDistinct(s: Fleet)
    requires Inv(s)
    ensures AllDistinct(s.emitted)
  {
    forall i, j | 0 <= i < j < |s.emitted| && Encode(s.emitted[i].id).Success?
      ensures Encode(s.emitted[i].id) != Encode(s.emitted[j].id)
    {
      if Encode(s.emitted[i].id) == Encode(s.emitted[j].id) {
        EncodeInjective(s.emitted[i].id, s.emitted[j].id);
      }
    }
  }

  /**
   * Fleet-wide uniqueness. In every run of any number of processes, through lost replies, crashes, expired
   * leases, stale holders, releases and lifts, with any number of raises arriving arbitrarily late, the ids
   * handed out are pairwise distinct, as fields and as the strings that leave the service; provided only
   * that each raise that goes through leaves the floor over its own holder.
   */
  lemma NoIdIsIssuedTwice(states: seq<Fleet>, steps: seq<Step>, k: nat)
    requires IsRun(states, steps) && IsGuarded(states, steps) && k < |states|
    ensures AllDistinct(states[k].emitted)
  {
    RunInv(states, steps, k);
    InvDistinct(states[k]);
  }

  // A raise that does not bring the floor down leaves it over its holder, because the floor was.
  lemma NotLowerGuards(s: Fleet, step: Step, s': Fleet)
    requires Inv(s) && Next(s, step, s') && NotLower(s, step)
    ensures Guarded(s, step)
  {
    if Lands(s, step).Some? && Lands(s, step).value.RaiseTxn? && Succeeds(s.etcd, Lands(s, step).value) {
      var t := Lands(s, step).value;
      assert InPlay(s, t) by {
        assert step.LandOrphan? || Holds(s.procs[step.pid].store, t);
      }
      InPlayOk(s, t);
      forall pid | pid in s.procs && s.procs[pid].lease.held.Some?
                   && s.procs[pid].lease.held.value.generation == t.generation
        ensures s.procs[pid].lease.held.value.leaseUntilMs <= t.ceilingMs
      {
        assert ProcOk(s, pid, s.procs[pid]);
      }
      forall e | e in s.emitted && e.generation == t.generation ensures e.id.tsMs <= t.ceilingMs {
        assert EmissionOk(s, e);
      }
    }
  }

  lemma {:induction false} NotLowerRunsAreGuarded(states: seq<Fleet>, steps: seq<Step>, k: nat)
    requires IsRun(states, steps) && IsNotLower(states, steps) && k < |states|
    ensures Inv(states[k]) && (k < |steps| ==> Guarded(states[k], steps[k]))
  {
    if k == 0 {
      InitInv(states[0]);
    } else {
      NotLowerRunsAreGuarded(states, steps, k - 1);
      NextInv(states[k - 1], steps[k - 1], states[k]);
    }
    if k < |steps| {
      NotLowerGuards(states[k], steps[k], states[k + 1]);
    }
  }

  /**
   * One comparison in the raise would be enough: if no raise that goes through brings the floor down, then
   * no id is handed out twice, however late raises arrive and however many of them.
   */
  lemma ComparingTheFloorSuffices(states: seq<Fleet>, steps: seq<Step>, k: nat)
    requires IsRun(states, steps) && IsNotLower(states, steps) && k < |states|
    ensures AllDistinct(states[k].emitted)
  {
    NotLowerRunsAreGuarded(states, steps, k);
    InvDistinct(states[k]);
  }

  // Tenures of one node stamp in disjoint windows, in the order the node was claimed.
  lemma TenuresStampInOrder(states: seq<Fleet>, steps: seq<Step>, k: nat, a: Emission, b: Emission)
    requires IsRun(states, steps) && IsGuarded(states, steps) && k < |states|
    requires a in states[k].emitted && b in states[k].emitted
    requires a.id.nodeId == b.id.nodeId && a.generation < b.generation
    ensures a.id.tsMs < b.id.tsMs
  {
    RunInv(states, steps, k);
    assert EmissionOk(states[k], a) && EmissionOk(states[k], b);
  }

  // The floor of a node covers the ceiling of every process that still believes it holds the node, under
  // whatever generation, and every timestamp ever handed out on it.
  lemma FloorCoversEveryHolder(states: seq<Fleet>, steps: seq<Step>, k: nat, pid: nat)
    requires IsRun(states, steps) && IsGuarded(states, steps) && k < |states|
    requires pid in states[k].procs && states[k].procs[pid].lease.held.Some?
    ensures var t := states[k].procs[pid].lease.held.value;
            var floor := EntryOf(states[k].etcd, t.mint.nodeId).floor;
            && floor.Some? && t.leaseUntilMs <= floor.value.ms
            && forall e :: e in states[k].emitted && e.id.nodeId == t.mint.nodeId ==> e.id.tsMs <= floor.value.ms
  {
    RunInv(states, steps, k);
    assert ProcOk(states[k], pid, states[k].procs[pid]);
    assert forall e :: e in states[k].emitted ==> EmissionOk(states[k], e);
  }
}
