/**
 * A volume is lifted, a replica claims a node, and the volume is lost. The new one is lifted after the
 * replica's TTL, so no ceiling is above the floors; but the lift takes as many revisions as it did before.
 */
module NewVolumeRun {
  import opened Wrappers
  import opened LeaseKeyspace
  import opened LeaseProtocol
  import opened LeaseInvariant
  import opened LeaseSafety
  import opened LeasePrompt
  import opened FleetRuns
  import opened LateRaise
  import opened LiftSafety
  import opened LostKeyspace
  import opened RestartedRevisions
  import FloorLift

  // ---------------------------------------------------------------- a whole lift

  function Chunk(low: int): set<int> {
    set n: int | low <= n < low + FloorLift.NODES_PER_TXN && Leasable(n)
  }

  function Chunks(low: int): nat
    decreases LEASED_NODE_MAX + FloorLift.NODES_PER_TXN - low
  {
    if low > LEASED_NODE_MAX then 0 else 1 + Chunks(low + FloorLift.NODES_PER_TXN)
  }

  function LiftedFrom(e: Etcd, low: int, nowMs: int): Etcd
    decreases LEASED_NODE_MAX + FloorLift.NODES_PER_TXN - low
  {
    if low > LEASED_NODE_MAX then e else LiftedFrom(Lift(e, Chunk(low), nowMs), low + FloorLift.NODES_PER_TXN, nowMs)
  }

  // Nobody holds a node, and no floor is above the instant of the lift.
  ghost predicate Liftable(e: Etcd, nowMs: int) {
    forall n :: EntryOf(e, n).owner.None? && FloorMs(e, n) <= nowMs
  }

  lemma ChunkLifted(e: Etcd, low: int, nowMs: int)
    requires Liftable(e, nowMs) && 0 <= nowMs
    ensures MayLift(e, Chunk(low)) && Liftable(Lift(e, Chunk(low), nowMs), nowMs)
    ensures forall n :: if n in Chunk(low) then FloorOf(EntryOf(Lift(e, Chunk(low), nowMs), n)) == Some(nowMs)
                        else EntryOf(Lift(e, Chunk(low), nowMs), n) == EntryOf(e, n)
  {
    forall n ensures EntryOf(Lift(e, Chunk(low), nowMs), n).owner.None?
                     && FloorMs(Lift(e, Chunk(low), nowMs), n) <= nowMs
                     && if n in Chunk(low) then FloorOf(EntryOf(Lift(e, Chunk(low), nowMs), n)) == Some(nowMs)
                        else EntryOf(Lift(e, Chunk(low), nowMs), n) == EntryOf(e, n)
    {
      assert EntryOf(e, n).owner.None? && FloorMs(e, n) <= nowMs;
      LiftAt(e, Chunk(low), nowMs, n);
    }
  }

  // Every node from `low` on is at the instant, a revision a chunk later.
  lemma {:induction false} LiftedFromIs(e: Etcd, low: int, nowMs: int)
    requires Liftable(e, nowMs) && 0 <= nowMs
    ensures var e' := LiftedFrom(e, low, nowMs);
            && Liftable(e', nowMs) && e'.revision == e.revision + Chunks(low)
            && e'.initialized == e.initialized && e'.leases == e.leases
            && (forall n :: n < low ==> EntryOf(e', n) == EntryOf(e, n))
            && (forall n :: low <= n && Leasable(n) ==> FloorOf(EntryOf(e', n)) == Some(nowMs))
    decreases LEASED_NODE_MAX + FloorLift.NODES_PER_TXN - low
  {
    if low <= LEASED_NODE_MAX {
      ChunkLifted(e, low, nowMs);
      LiftedFromIs(Lift(e, Chunk(low), nowMs), low + FloorLift.NODES_PER_TXN, nowMs);
    }
  }

  lemma {:induction false} LiftFollows(base: Fleet, s: Fleet, low: int, nowMs: int)
    requires Follows(PromptRun, base, s) && Liftable(s.etcd, nowMs) && 0 <= nowMs
    ensures Follows(PromptRun, base, s.(etcd := LiftedFrom(s.etcd, low, nowMs)))
    decreases LEASED_NODE_MAX + FloorLift.NODES_PER_TXN - low
  {
    if low <= LEASED_NODE_MAX {
      ChunkLifted(s.etcd, low, nowMs);
      var s1 := s.(etcd := Lift(s.etcd, Chunk(low), nowMs));
      Reach(PromptRun, base, s, LiftChunk(Chunk(low), nowMs), s1);
      LiftFollows(base, s1, low + FloorLift.NODES_PER_TXN, nowMs);
    } else {
      assert s.(etcd := LiftedFrom(s.etcd, low, nowMs)) == s;
    }
  }

  // ---------------------------------------------------------------- adrift, one step at a time

  lemma AdriftStarts(w: Fleet)
    ensures AdriftTo(w, w)
  {
    var none: seq<Step> := [];
    assert IsChain([w], none) && IsPrompt([w], none) && [w][0] == w && [w][|none|] == w;
  }

  lemma AdriftGoes(w: Fleet, u: Fleet, step: Step, u': Fleet)
    requires AdriftTo(w, u) && !u.etcd.initialized && Next(u, step, u') && Prompt(u, step)
    ensures AdriftTo(w, u')
  {
    var states: seq<Fleet>, steps: seq<Step> :|
      && IsChain(states, steps) && IsPrompt(states, steps) && states[0] == w && states[|steps|] == u
      && forall i :: 0 <= i < |steps| ==> !states[i].etcd.initialized;
    var states', steps' := states + [u'], steps + [step];
    forall i | 0 <= i < |steps'|
      ensures Next(states'[i], steps'[i], states'[i + 1]) && Prompt(states'[i], steps'[i])
      ensures !states'[i].etcd.initialized
    {
      if i == |steps| {
        assert states'[i] == u;
      } else {
        assert Next(states[i], steps[i], states[i + 1]) && Prompt(states[i], steps[i]);
      }
    }
    assert IsChain(states', steps') && IsPrompt(states', steps') && states'[0] == w && states'[|steps'|] == u';
  }

  lemma {:induction false} LiftDrifts(w: Fleet, u: Fleet, low: int, nowMs: int)
    requires AdriftTo(w, u) && !u.etcd.initialized && Liftable(u.etcd, nowMs) && 0 <= nowMs
    ensures AdriftTo(w, u.(etcd := LiftedFrom(u.etcd, low, nowMs)))
    decreases LEASED_NODE_MAX + FloorLift.NODES_PER_TXN - low
  {
    if low <= LEASED_NODE_MAX {
      ChunkLifted(u.etcd, low, nowMs);
      var u1 := u.(etcd := Lift(u.etcd, Chunk(low), nowMs));
      AdriftGoes(w, u, LiftChunk(Chunk(low), nowMs), u1);
      LiftDrifts(w, u1, low + FloorLift.NODES_PER_TXN, nowMs);
    } else {
      assert u.(etcd := LiftedFrom(u.etcd, low, nowMs)) == u;
    }
  }

  // ---------------------------------------------------------------- the run

  function Marked(e: Etcd): Etcd {
    e.(initialized := true, revision := e.revision + 1)
  }

  // How many revisions a lift takes, with its marker.
  const LIFT_REVISIONS: nat := Chunks(LEASED_NODE_MIN) + 1

  lemma FirstLift() returns (s: Fleet)
    ensures Follows(PromptRun, EmptyFleet(), s) && s == EmptyFleet().(etcd := s.etcd)
    ensures s.etcd.initialized && s.etcd.revision == LIFT_REVISIONS && Liftable(s.etcd, T) && FloorMs(s.etcd, NODE) == T
  {
    var e := EmptyFleet();
    Starts(PromptRun, e);
    LiftedFromIs(e.etcd, LEASED_NODE_MIN, T);
    LiftFollows(e, e, LEASED_NODE_MIN, T);
    var s1 := e.(etcd := LiftedFrom(e.etcd, LEASED_NODE_MIN, T));
    s := s1.(etcd := Marked(s1.etcd));
    Reach(PromptRun, e, s1, MarkInitialized, s);
    assert forall n :: EntryOf(s.etcd, n) == EntryOf(s1.etcd, n);
  }

  // The first claim on the first volume.
  lemma FirstVolume() returns (s: Fleet)
    ensures Follows(PromptRun, EmptyFleet(), s) && Hosts(s)
    ensures s.procs == map[0 := Holding(LIFT_REVISIONS + 1, NODE, T, 0, CEILING_MS)]
    ensures s.orphans == {} && s.emitted == []
  {
    var s1 := FirstLift();
    assert EntryOf(s1.etcd, NODE).owner.None?;
    assert forall n, l: nat :: OwnedUnder(s1.etcd, n, l) ==> EntryOf(s1.etcd, n).owner.Some?;
    s := NewcomerClaims(PromptRun, EmptyFleet(), s1, NODE, T, TTL_MS);
  }

  function NewVolume(s: Fleet): Fleet {
    s.(etcd := Etcd(0, false, None, {}, map[]))
  }

  lemma SecondVolume(s: Fleet) returns (s': Fleet)
    requires Hosts(s)
    ensures AdriftTo(NewVolume(s), s') && s' == s.(etcd := s'.etcd) && Hosts(s') && AllFree(s'.etcd)
    ensures s'.etcd.revision == LIFT_REVISIONS
    ensures forall n :: Leasable(n) ==> FloorMs(s'.etcd, n) == CEILING_MS
  {
    var w := NewVolume(s);
    AdriftStarts(w);
    LiftedFromIs(w.etcd, LEASED_NODE_MIN, CEILING_MS);
    LiftDrifts(w, w, LEASED_NODE_MIN, CEILING_MS);
    var u := w.(etcd := LiftedFrom(w.etcd, LEASED_NODE_MIN, CEILING_MS));
    s' := u.(etcd := Marked(u.etcd));
    AdriftGoes(w, u, MarkInitialized, s');
    assert forall n :: EntryOf(s'.etcd, n) == EntryOf(u.etcd, n);
    assert forall n, l: nat :: OwnedUnder(s'.etcd, n, l) ==> EntryOf(s'.etcd, n).owner.Some?;
  }

  /**
   * A run of the store's own calls, on two volumes one after the other, in which the first claim on the
   * second has the generation of the first claim on the first, and both holders hand out the same id.
   */
  lemma NewVolumeIssuesAnIdTwice()
    ensures exists s, s', end ::
              && Follows(PromptRun, EmptyFleet(), s) && AdriftTo(NewVolume(s), s') && AllFree(s'.etcd)
              && StampedBelow(s', s'.etcd) && CeilingsBelow(s', s'.etcd)
              && Follows(PromptRun, s', end) && !AllDistinct(end.emitted)
  {
    var s := FirstVolume();
    var s' := SecondVolume(s);
    ReachedIsSound(s);
    var r := DriftsHome(s, NewVolume(s), s');
    assert forall t :: !InPlay(s', t);
    assert BeforeTheEnd(s');
    var end := HolderAboveIsUnsafe(s', r, 0);
  }

  lemma ReachedIsSound(s: Fleet)
    requires Follows(PromptRun, EmptyFleet(), s)
    ensures Sound(s)
  {
    var states, steps :| IsChain(states, steps) && states[0] == EmptyFleet() && states[|steps|] == s
      && StepsOk(PromptRun, states, steps);
    StartIsSound(EmptyFleet());
    PromptChainsStaySound(states, steps, |steps|);
  }
}
