/**
 * One process and the node id it holds or wants: the state of its lease, the fence in front of its generator,
 * and the operations on the store. An asynchronous operation is split where it awaits the store, so that ids
 * may be minted while it is in flight.
 */
module NodeLeases {
  import opened Wrappers
  import opened SnowflakeCodec
  import opened SnowflakeGenerators

  datatype Phase = Idle | Acquiring | Held | Lost | Exhausted | Released

  datatype Grant = Grant(nodeId: int, generation: nat, floorMs: Option<int>, leaseUntilMs: int, nowMs: int)

  // A store call either settles with an answer or throws without one.
  datatype Answer<+T> = Threw | Answered(value: T)

  datatype Operation = NoOperation | AcquireOp | RejectOp(nodeId: int, generation: nat) | RenewOp | ReleaseOp

  datatype Tenancy = Tenancy(generation: nat, mint: Mint, leaseUntilMs: int)

  // What a lease looks like from outside, without its clocks.
  datatype Lease = Lease(
    phase: Phase, held: Option<Tenancy>, draining: bool, operation: Operation, retiredLastMs: int)

  const FRESH_LEASE := Lease(Idle, None, false, NoOperation, 0)

  datatype RenewRequest = RenewRequest(nodeId: int, generation: nat, lastMs: int)

  datatype ReleaseRequest = ReleaseRequest(nodeId: int, generation: nat, lastMs: Option<int>)

  // ---------------------------------------------------------------- what each step does to a lease

  predicate MayAcquire(l: Lease) {
    !l.draining && l.phase != Held && l.phase != Released && l.operation.NoOperation?
  }

  function AcquireBegun(l: Lease): Lease {
    l.(phase := Acquiring, operation := AcquireOp)
  }

  predicate FloorTooFarAhead(g: Grant, maxFloorAheadMs: int) {
    g.floorMs.Some? && g.floorMs.value - g.nowMs > maxFloorAheadMs
  }

  function GeneratorFloor(l: Lease, g: Grant): int {
    Max(OrZero(g.floorMs), l.retiredLastMs)
  }

  function AcquireAnswered(l: Lease, answer: Answer<Option<Grant>>, maxFloorAheadMs: int): Lease {
    match answer
    case Threw => l.(operation := NoOperation)
    case Answered(None) => l.(phase := Exhausted, operation := NoOperation)
    case Answered(Some(g)) =>
      if FloorTooFarAhead(g, maxFloorAheadMs) then l.(operation := RejectOp(g.nodeId, g.generation))
      else if !SnowflakeGenerator.Constructible(g.nodeId, Some(GeneratorFloor(l, g))) then l.(operation := NoOperation)
      else l.(phase := Held, operation := NoOperation,
              held := Some(Tenancy(g.generation, Mint(g.nodeId, GeneratorFloor(l, g), 0, 0), g.leaseUntilMs)))
  }

  function Retired(l: Lease, phase: Phase): Lease {
    l.(phase := phase, held := None,
       retiredLastMs := if l.held.Some? then Max(l.retiredLastMs, l.held.value.mint.lastMs) else l.retiredLastMs)
  }

  function RenewAnswered(l: Lease, answer: Answer<Option<int>>): Lease
    requires l.held.Some?
  {
    match answer
    case Threw => l.(operation := NoOperation)
    case Answered(None) => Retired(l, Lost).(operation := NoOperation)
    case Answered(Some(untilMs)) => l.(operation := NoOperation, held := Some(l.held.value.(leaseUntilMs := untilMs)))
  }

  // `release` starts draining even when an overlapping operation makes it throw.
  function ReleaseBegun(l: Lease): Lease {
    if !l.operation.NoOperation? then l.(draining := true)
    else Retired(l, Released).(draining := true, operation := if l.held.Some? then ReleaseOp else NoOperation)
  }

  // Once an acquire is refused for good, by a drain or a release, nothing makes the process acquire again.
  lemma DrainingIsForGood(l: Lease, answer: Answer<Option<Grant>>, renewed: Answer<Option<int>>, maxFloorAheadMs: int)
    ensures !MayAcquire(ReleaseBegun(l)) && ReleaseBegun(l).draining
    ensures l.draining ==>
              && !MayAcquire(l) && AcquireBegun(l).draining && AcquireAnswered(l, answer, maxFloorAheadMs).draining
              && (l.held.Some? ==> RenewAnswered(l, renewed).draining)
  {
  }

  // The generator either stalls in place or moves its stamp strictly forward.
  ghost predicate MintAdvances(m: Mint, m': Mint) {
    && m'.nodeId == m.nodeId && m'.floorMs == m.floorMs
    && (m' == m || StampBefore(m.lastMs, m.sequence, m'.lastMs, m'.sequence))
  }

  // One call of `generate`; `issued` is the id it handed out, if any.
  ghost predicate Generates(l: Lease, l': Lease, issued: Option<Fields>) {
    match l.held
    case None => l' == l && issued.None?
    case Some(t) =>
      && l'.held.Some? && l' == l.(held := Some(t.(mint := l'.held.value.mint)))
      && var m' := l'.held.value.mint;
         && MintAdvances(t.mint, m')
         && (issued.Some? ==>
               && issued.value == Fields(m'.lastMs, m'.nodeId, m'.sequence) && ValidFields(issued.value)
               && StampBefore(t.mint.lastMs, t.mint.sequence, m'.lastMs, m'.sequence)
               && m'.floorMs < m'.lastMs <= t.leaseUntilMs)
  }

  // The last stamp of the held generator, as id fields.
  function StampOf(l: Lease): Fields {
    if l.held.None? then Fields(0, 0, 0)
    else Fields(l.held.value.mint.lastMs, l.held.value.mint.nodeId, l.held.value.mint.sequence)
  }

  // From l to l' the generator stamped `id`, after everything it stamped before and after `was`.
  ghost predicate Stamps(l: Lease, l': Lease, was: Fields, id: string) {
    && l.held.Some? && l'.held.Some?
    && var t, m := l.held.value, l'.held.value.mint;
       && StampBefore(t.mint.lastMs, t.mint.sequence, m.lastMs, m.sequence) && m.floorMs < m.lastMs
       && ValidFields(StampOf(l')) && Encode(StampOf(l')) == Success(id)
       && StampBefore(was.tsMs, was.sequence, m.lastMs, m.sequence)
  }

  // A refusal by the generator: its millisecond is full and the clock stands, or the stamp has no encoding.
  ghost predicate FailsTruly(l: Lease, l': Lease, error: MintError) {
    && l.held.Some? && l'.held.Some?
    && var m, m' := l.held.value.mint, l'.held.value.mint;
       match error
       case ClockStalled(_) => m.sequence == SEQUENCE_COUNT - 1 && m' == m
       case Unencodable => !ValidFields(StampOf(l')) && StampBefore(m.lastMs, m.sequence, m'.lastMs, m'.sequence)
       case LeaseNotHeld => false
  }

  lemma StampIssues(l: Lease, l': Lease, was: Fields, id: string)
    requires Generates(l, l', None) && Stamps(l, l', was, id)
    requires l'.held.value.mint.lastMs <= l'.held.value.leaseUntilMs
    ensures Generates(l, l', Some(StampOf(l')))
  {
  }

  // ---------------------------------------------------------------- the lease object

  datatype Reading = Reading(wallMs: int, monotonicMs: int)

  // A reading taken with the wall clock at instant i and the monotonic clock at i + 1.
  function ReadingAt(history: History, i: nat): Reading {
    Reading(history(i).wallMs, history(i + 1).monotonicMs)
  }

  datatype HeldNode = HeldNode(
    nodeId: int, generation: nat, generator: SnowflakeGenerator, anchor: Reading, leaseUntilMs: int)

  class NodeLease {
    const clock: Clock
    const ttlMs: int
    const fenceMarginMs: int
    const maxFloorAheadMs: int
    var phase: Phase
    var held: Option<HeldNode>
    var draining: bool
    // The overlap flag, and what the suspended operation keeps on its stack.
    var operation: Operation
    var anchor: Reading
    var retiredLastMs: int
    // Where in the clock's history the anchors were read, and the last stamp handed to a caller.
    ghost var operationAnchoredAt: nat
    ghost var heldAnchoredAt: nat
    ghost var issued: Fields

    ghost predicate Valid()
      reads this, clock, Generators()
    {
      && Steady(clock.history) && 0 < fenceMarginMs < ttlMs && 0 <= maxFloorAheadMs && 0 <= retiredLastMs
      && (phase == Held <==> held.Some?)
      && (operation.AcquireOp? || operation.RejectOp? ==> phase == Acquiring)
      && (operation.RenewOp? ==> phase == Held)
      && (operation.ReleaseOp? ==> phase == Released)
      && (operation.AcquireOp? || operation.RenewOp? ==>
            operationAnchoredAt + 2 <= clock.next && anchor == ReadingAt(clock.history, operationAnchoredAt))
      && (held.None? ==> issued.tsMs <= retiredLastMs)
      && (held.Some? ==>
            && var h := held.value;
            && h.generator.clock == clock && h.generator.Valid() && h.generator.nodeId == h.nodeId
            && h.generator.floorMs.Some? && retiredLastMs <= h.generator.floorMs.value
            && heldAnchoredAt + 2 <= clock.next && h.anchor == ReadingAt(clock.history, heldAnchoredAt)
            && (issued.tsMs <= retiredLastMs
                || issued.tsMs < h.generator.lastMs
                || (issued.tsMs == h.generator.lastMs && issued.sequence <= h.generator.sequence)))
    }

    ghost function Generators(): set<object>
      reads this
    {
      if held.Some? then {held.value.generator} else {}
    }

    ghost function View(): Lease
      reads this, Generators()
    {
      Lease(phase,
            if held.None? then None
            else Some(Tenancy(held.value.generation, held.value.generator.View(), held.value.leaseUntilMs)),
            draining, operation, retiredLastMs)
    }

    constructor (clock: Clock, ttlMs: int, fenceMarginMs: int, maxFloorAheadMs: int)
      requires Steady(clock.history) && 0 < fenceMarginMs < ttlMs && 0 <= maxFloorAheadMs
      ensures Valid() && View() == FRESH_LEASE && this.clock == clock
    {
      this.clock, this.ttlMs, this.fenceMarginMs, this.maxFloorAheadMs := clock, ttlMs, fenceMarginMs, maxFloorAheadMs;
      phase, held, draining, operation, retiredLastMs := Idle, None, false, NoOperation, 0;
      issued := Fields(0, 0, 0);
    }

    // Reading the clock disturbs nothing.
    method Read() returns (reading: Reading)
      requires Valid()
      modifies clock
      ensures Valid() && clock.next == old(clock.next) + 2
      ensures reading == ReadingAt(clock.history, old(clock.next))
    {
      var wall := clock.WallMs();
      var monotonic := clock.MonotonicMs();
      reading := Reading(wall, monotonic);
      assert Earlier(clock.next - 2, clock.next);
    }

    // The time half of the fence: neither clock has run the TTL down to the margin, and they agree.
    predicate TimeFenceOpen(anchor: Reading, now: Reading) {
      var monotonicElapsed, wallElapsed := now.monotonicMs - anchor.monotonicMs, now.wallMs - anchor.wallMs;
      Max(monotonicElapsed, wallElapsed) < ttlMs - fenceMarginMs && wallElapsed - monotonicElapsed <= fenceMarginMs
    }

    method Fenced() returns (fenced: bool)
      requires Valid()
      modifies clock
      ensures Valid() && old(clock.next) <= clock.next
      ensures held.None? ==> fenced && clock.next == old(clock.next)
      ensures held.Some? ==>
                clock.next == old(clock.next) + 2 && (!fenced <==> OpenAt(old(clock.next)) && !IsPastCeiling())
    {
      if held.None? {
        return true;
      }
      var now := Read();
      return !TimeFenceOpen(held.value.anchor, now) || held.value.generator.lastMs > held.value.leaseUntilMs;
    }

    // At instant `c` both clocks have run less than the TTL less the margin since the held anchor was read, and
    // the wall clock has run ahead of the monotonic one by no more than the margin.
    ghost predicate OpenAt(c: int)
      reads this
    {
      0 <= c &&
      var monotonicElapsed := clock.history(c + 1).monotonicMs - clock.history(heldAnchoredAt + 1).monotonicMs;
      var wallElapsed := clock.history(c).wallMs - clock.history(heldAnchoredAt).wallMs;
      && monotonicElapsed < ttlMs - fenceMarginMs && wallElapsed < ttlMs - fenceMarginMs
      && wallElapsed <= monotonicElapsed + fenceMarginMs
    }

    // Something is stamped past the ceiling.
    ghost predicate IsPastCeiling()
      requires held.Some?
      reads this, Generators()
    {
      held.value.generator.lastMs > held.value.leaseUntilMs
    }

    // Local clock time since instant `a` is no slower than real time, on one of the two clocks.
    ghost predicate KeepsPace(a: nat, c: nat) {
      || clock.history(c).trueMs - clock.history(a).trueMs <= clock.history(c).wallMs - clock.history(a).wallMs
      || clock.history(c).trueMs - clock.history(a + 1).trueMs
           <= clock.history(c + 1).monotonicMs - clock.history(a + 1).monotonicMs
    }

    // Real time at which the held lease's anchor had been read, and of the last fence check.
    ghost function AnchoredMs(): int
      reads this
    {
      clock.history(heldAnchoredAt + 1).trueMs
    }

    // If either clock kept pace since the anchor, instant `c` is before the end of the TTL by the margin.
    ghost predicate IsInTime(c: nat)
      reads this
    {
      TimePasses(clock.history) && KeepsPace(heldAnchoredAt, c) ==>
        clock.history(c).trueMs < AnchoredMs() + ttlMs - fenceMarginMs
    }

    lemma OpenFenceIsInTime(c: nat)
      requires OpenAt(c)
      ensures IsInTime(c)
    {
      assert Earlier(heldAnchoredAt, heldAnchoredAt + 1);
    }

    // The held generator stamps an id, which is not yet anyone's.
    method Stamp() returns (r: Result<string, MintError>)
      requires Valid() && held.Some?
      modifies clock, held.value.generator
      ensures Valid() && Generates(old(View()), View(), None) && old(clock.next) <= clock.next
      ensures r.Success? ==> Stamps(old(View()), View(), issued, r.value)
      ensures r.Failure? ==> FailsTruly(old(View()), View(), r.error)
    {
      var generator := held.value.generator;
      ghost var before := clock.next;
      r := generator.Generate();
      assert Earlier(before, clock.next);
      DecodeEncode(Fields(generator.lastMs, generator.nodeId, generator.sequence));
    }

    // The second look at the fence, after the stamp: the process may have been frozen in between.
    method HandOut(ghost before: Lease, ghost id: string) returns (unfenced: bool)
      requires Valid() && Generates(before, View(), None) && Stamps(before, View(), issued, id)
      modifies this`issued, clock
      ensures Valid() && View() == old(View()) && issued == if unfenced then StampOf(View()) else old(issued)
      ensures clock.next == old(clock.next) + 2 && (unfenced <==> OpenAt(clock.next - 2) && !IsPastCeiling())
      ensures unfenced ==> Generates(before, View(), Some(issued)) && UnfencedAt(clock.next - 2)
    {
      var fenced := Fenced();
      if fenced {
        return false;
      }
      StampIssues(before, View(), issued, id);
      OpenFenceIsInTime(clock.next - 2);
      issued := StampOf(View());
      return true;
    }

    method StampUnfenced() returns (r: Result<string, MintError>)
      requires Valid() && held.Some?
      modifies this`issued, clock, held.value.generator
      ensures Valid() && Generates(old(View()), View(), if r.Success? then Some(issued) else None)
      ensures r.Failure? ==> if r.error.LeaseNotHeld? then ShutAfterStamping(old(View()))
                             else FailsTruly(old(View()), View(), r.error)
      ensures r.Success? ==> Encode(issued) == Success(r.value) && UnfencedAt(clock.next - 2)
      ensures if r.Success? then StampBefore(old(issued).tsMs, old(issued).sequence, issued.tsMs, issued.sequence)
              else issued == old(issued)
    {
      ghost var before := View();
      r := Stamp();
      if r.Success? {
        var unfenced := HandOut(before, r.value);
        if !unfenced {
          return Failure(LeaseNotHeld);
        }
      }
    }

    // The second look at the fence found it shut, after the stamp had moved on.
    ghost predicate ShutAfterStamping(was: Lease)
      reads this, clock, Generators()
    {
      && was.held.Some? && held.Some? && (!OpenAt(clock.next - 2) || IsPastCeiling())
      && var m, m' := was.held.value.mint, View().held.value.mint;
         StampBefore(m.lastMs, m.sequence, m'.lastMs, m'.sequence)
    }

    // The fence was open at instant `c`.
    ghost predicate UnfencedAt(c: int)
      reads this
    {
      held.Some? && OpenAt(c) && IsInTime(c)
    }

    /**
     * Hands out an id only under a held, unfenced lease, checked before and again after stamping. Ids of
     * one process come out in strictly increasing (ts, sequence) order across every lease it ever held, and
     * each is out, in real time, before the TTL since its anchor is over by the margin, if a clock kept pace.
     */
    method Generate() returns (r: Result<string, MintError>)
      requires Valid()
      modifies this`issued, clock, Generators()
      ensures Valid() && Generates(old(View()), View(), if r.Success? then Some(issued) else None)
      ensures r.Success? ==> Encode(issued) == Success(r.value) && UnfencedAt(clock.next - 2)
      ensures if r.Success? then StampBefore(old(issued).tsMs, old(issued).sequence, issued.tsMs, issued.sequence)
              else issued == old(issued)
      ensures held.None? ==> r == Failure(LeaseNotHeld)
      // A fence shut at the first look stamps nothing; otherwise an id is refused only for what it is.
      ensures old(held).Some? && (!OpenAt(old(clock.next)) || old(IsPastCeiling())) ==>
                r == Failure(LeaseNotHeld) && View() == old(View())
      ensures old(held).Some? && OpenAt(old(clock.next)) && !old(IsPastCeiling()) && r.Failure? ==>
                if r.error.LeaseNotHeld? then ShutAfterStamping(old(View()))
                else FailsTruly(old(View()), View(), r.error)
    {
      ghost var before := View();
      var fenced := Fenced();
      assert View() == before;
      if fenced {
        return Failure(LeaseNotHeld);
      }
      r := StampUnfenced();
    }

    // False when the call is refused: draining, held, released, or overlapping another operation.
    method BeginAcquire() returns (started: bool)
      requires Valid()
      modifies this, clock
      ensures Valid() && started == MayAcquire(old(View()))
      ensures started <==> !old(draining) && old(held).None? && old(phase) != Released && old(operation).NoOperation?
      ensures View() == if started then AcquireBegun(old(View())) else old(View())
      ensures started ==> operationAnchoredAt == old(clock.next) && phase == Acquiring && operation == AcquireOp
    {
      if draining || phase == Held || phase == Released || !operation.NoOperation? {
        return false;
      }
      phase := Acquiring;
      anchor := Read();
      operation, operationAnchoredAt := AcquireOp, clock.next - 2;
      return true;
    }

    // Held only if the result is Some(true); Some(false) still owes the store a release of the rejected node.
    method SettleAcquire(answer: Answer<Option<Grant>>) returns (held': Option<bool>)
      requires Valid() && operation.AcquireOp?
      modifies this, clock
      ensures Valid() && View() == AcquireAnswered(old(View()), answer, maxFloorAheadMs)
      ensures held' == Some(true) <==> held.Some?
      ensures held' == Some(false) <==> operation.RejectOp?
      ensures held.Some? ==> fresh(held.value.generator) && heldAnchoredAt == old(operationAnchoredAt)
      ensures operation.RejectOp? <==>
                && answer.Answered? && answer.value.Some? && answer.value.value.floorMs.Some?
                && maxFloorAheadMs < answer.value.value.floorMs.value - answer.value.value.nowMs
      ensures held.Some? ==>
                && answer.Answered? && answer.value.Some?
                && var g := answer.value.value;
                   && held.value.nodeId == g.nodeId && held.value.generation == g.generation
                   && held.value.leaseUntilMs == g.leaseUntilMs && held.value.anchor == old(anchor)
                   && held.value.generator.floorMs.Some?
                   && var floorMs := held.value.generator.floorMs.value;
                      && OrZero(g.floorMs) <= floorMs && old(retiredLastMs) <= floorMs
                      && (floorMs == OrZero(g.floorMs) || floorMs == old(retiredLastMs))
      ensures phase == if held.Some? then Held else if answer == Answered(None) then Exhausted else Acquiring
      ensures answer.Answered? && answer.value.Some? && held.None? && !operation.RejectOp? ==>
                var g := answer.value.value;
                !(0 <= g.nodeId < NODE_COUNT && 0 <= Max(OrZero(g.floorMs), retiredLastMs) < MAX_TIMESTAMP_MS)
      ensures retiredLastMs == old(retiredLastMs) && draining == old(draining)
    {
      match answer {
        case Threw =>
          operation := NoOperation;
          return None;
        case Answered(None) =>
          phase, operation := Exhausted, NoOperation;
          return None;
        case Answered(Some(grant)) =>
          if FloorTooFarAhead(grant, maxFloorAheadMs) {
            operation := RejectOp(grant.nodeId, grant.generation);
            return Some(false);
          }
          var floorMs := Max(OrZero(grant.floorMs), retiredLastMs);
          if !SnowflakeGenerator.Constructible(grant.nodeId, Some(floorMs)) {
            operation := NoOperation;
            return None;
          }
          var generator := new SnowflakeGenerator(grant.nodeId, clock, Some(floorMs));
          held := Some(HeldNode(grant.nodeId, grant.generation, generator, anchor, grant.leaseUntilMs));
          phase, operation, heldAnchoredAt := Held, NoOperation, operationAnchoredAt;
          return Some(true);
      }
    }

    // The release of a node whose floor was refused has settled, one way or the other.
    method SettleRejection()
      requires Valid() && operation.RejectOp?
      modifies this
      ensures Valid() && View() == old(View()).(operation := NoOperation)
    {
      operation := NoOperation;
    }

    method BeginRenew() returns (request: Option<RenewRequest>)
      requires Valid()
      modifies this, clock
      ensures Valid() && (request.Some? <==> old(held).Some? && old(operation).NoOperation?)
      ensures View() == if request.Some? then old(View()).(operation := RenewOp) else old(View())
      ensures request.Some? ==>
                && operationAnchoredAt == old(clock.next)
                && var t := old(View()).held.value;
                   request.value == RenewRequest(t.mint.nodeId, t.generation, t.mint.lastMs)
    {
      if held.None? || !operation.NoOperation? {
        return None;
      }
      anchor := Read();
      operation, operationAnchoredAt := RenewOp, clock.next - 2;
      return Some(RenewRequest(held.value.nodeId, held.value.generation, held.value.generator.lastMs));
    }

    method SettleRenew(answer: Answer<Option<int>>)
      requires Valid() && operation.RenewOp?
      modifies this
      ensures Valid() && View() == RenewAnswered(old(View()), answer)
      ensures answer.Answered? && answer.value.Some? ==> heldAnchoredAt == old(operationAnchoredAt)
      ensures operation.NoOperation? && draining == old(draining) && old(retiredLastMs) <= retiredLastMs
      ensures match answer
              case Threw => held == old(held) && phase == old(phase)
              case Answered(None) => held.None? && phase == Lost && old(issued).tsMs <= retiredLastMs
              case Answered(Some(untilMs)) =>
                held == Some(old(held).value.(anchor := old(anchor), leaseUntilMs := untilMs)) && phase == old(phase)
    {
      operation := NoOperation;
      match answer {
        case Threw =>
        case Answered(None) =>
          Retire(Lost);
        case Answered(Some(untilMs)) =>
          held := Some(held.value.(anchor := anchor, leaseUntilMs := untilMs));
          heldAnchoredAt := operationAnchoredAt;
      }
    }

    method Drain()
      requires Valid()
      modifies this`draining
      ensures Valid() && View() == old(View()).(draining := true)
    {
      draining := true;
    }

    // The lease is given up first and the request built after, from the last stamp of the generator retired.
    method BeginRelease() returns (request: Option<ReleaseRequest>)
      requires Valid()
      modifies this
      ensures Valid() && View() == ReleaseBegun(old(View()))
      ensures request.Some? <==> old(held).Some? && old(operation).NoOperation?
      ensures draining && (old(operation).NoOperation? ==> held.None? && phase == Released)
      ensures !old(operation).NoOperation? ==> held == old(held) && phase == old(phase) && operation == old(operation)
      ensures request.Some? ==>
                && held.None? && old(issued).tsMs <= retiredLastMs
                && var t := old(View()).held.value;
                   request.value == ReleaseRequest(t.mint.nodeId, t.generation,
                                                   if t.mint.lastMs == 0 then None else Some(t.mint.lastMs))
    {
      draining := true;
      if !operation.NoOperation? {
        return None;
      }
      var was := held;
      Retire(Released);
      if was.None? {
        return None;
      }
      operation := ReleaseOp;
      var lastMs := was.value.generator.lastMs;
      return Some(ReleaseRequest(was.value.nodeId, was.value.generation, if lastMs == 0 then None else Some(lastMs)));
    }

    method SettleRelease()
      requires Valid() && operation.ReleaseOp?
      modifies this
      ensures Valid() && View() == old(View()).(operation := NoOperation)
    {
      operation := NoOperation;
    }

    method Retire(next: Phase)
      requires Valid() && next != Held && operation.NoOperation?
      modifies this`held, this`phase, this`retiredLastMs
      ensures Valid() && View() == Retired(old(View()), next)
      ensures held.None? && phase == next && old(retiredLastMs) <= retiredLastMs && old(issued).tsMs <= retiredLastMs
      ensures old(held).Some? ==> old(View()).held.value.mint.lastMs <= retiredLastMs
    {
      if held.Some? {
        retiredLastMs := Max(retiredLastMs, held.value.generator.lastMs);
      }
      held, phase := None, next;
    }
  }
}
