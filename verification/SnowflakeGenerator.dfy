/**
 * The id generator of one node: a one-way timeline over two clocks, and a sequence within each
 * millisecond. Its stamps only ever go up.
 */
module SnowflakeGenerators {
  import opened Wrappers
  import opened SnowflakeCodec

  const SPIN_DEADLINE_NS: int := 10_000_000
  const SPIN_LOOP_CAP: nat := 40_000
  const NO_STALL: int := -1

  // What the host clocks show at one instant. `trueMs` is real time, which no code reads.
  datatype Sample = Sample(wallMs: int, monotonicMs: int, elapsedNs: int, ghost trueMs: int)

  type History = nat -> Sample

  // The wall clock may do anything; the monotonic one never runs backwards.
  ghost predicate Steady(history: History) {
    forall i: nat, j: nat {:trigger Earlier(i, j)} :: Earlier(i, j) ==> history(i).monotonicMs <= history(j).monotonicMs
  }

  // Later readings are taken later in real time.
  ghost predicate TimePasses(history: History) {
    forall i: nat, j: nat {:trigger Earlier(i, j)} :: Earlier(i, j) ==> history(i).trueMs <= history(j).trueMs
  }

  const NS_PER_MS: int := 1_000_000

  // The system clock: its milliseconds and its nanoseconds are read off one counter.
  ghost predicate Tied(history: History) {
    forall i: nat {:trigger Ticks(history, i)} :: Ticks(history, i)
  }

  predicate Ticks(history: History, i: nat) {
    0 <= history(i).elapsedNs && history(i).monotonicMs == history(i).elapsedNs / NS_PER_MS
  }

  predicate Earlier(i: nat, j: nat) {
    i <= j
  }

  /** The two host clocks. Every reading is taken at a later instant than the one before it. */
  class Clock {
    const history: History
    var next: nat

    constructor (history: History)
      ensures this.history == history && next == 0
    {
      this.history := history;
      next := 0;
    }

    method WallMs() returns (ms: int)
      modifies this
      ensures ms == history(old(next)).wallMs && next == old(next) + 1
    {
      ms := history(next).wallMs;
      next := next + 1;
    }

    method MonotonicMs() returns (ms: int)
      modifies this
      ensures ms == history(old(next)).monotonicMs && next == old(next) + 1
    {
      ms := history(next).monotonicMs;
      next := next + 1;
    }

    method ElapsedNs() returns (ns: int)
      modifies this
      ensures ns == history(old(next)).elapsedNs && next == old(next) + 1
    {
      ns := history(next).elapsedNs;
      next := next + 1;
    }
  }

  // ---------------------------------------------------------------- the timeline

  // `anchorMs` turns a monotonic reading into id time; `offsetMs` is the one-way catch-up with the wall.
  datatype Timeline = Timeline(anchorMs: int, offsetMs: int)

  // The value read when the monotonic clock is sampled at instant i and the wall clock at i + 1.
  function NowAt(t: Timeline, history: History, i: nat): int {
    Max(history(i).monotonicMs + t.anchorMs + t.offsetMs, history(i + 1).wallMs)
  }

  function Advanced(t: Timeline, history: History, i: nat): Timeline {
    t.(offsetMs := NowAt(t, history, i) - (history(i).monotonicMs + t.anchorMs))
  }

  datatype StallReason = Deadline | LoopCap

  datatype Spun = Spun(result: Result<int, StallReason>, timeline: Timeline, next: nat)

  datatype Looked = Looked(verdict: Option<Result<int, StallReason>>, timeline: Timeline, next: nat)

  // One look at the clock for a millisecond later than `ms`; no verdict means look again.
  function Look(t: Timeline, history: History, i: nat, ms: int, deadlineNs: int): Looked {
    var t1 := Advanced(t, history, i);
    if NowAt(t, history, i) > ms then Looked(Some(Success(NowAt(t, history, i))), t1, i + 2)
    else if history(i + 2).elapsedNs <= deadlineNs then Looked(None, t1, i + 3)
    else
      Looked(if NowAt(t1, history, i + 3) <= ms then Some(Failure(Deadline)) else None,
             Advanced(t1, history, i + 3), i + 5)
  }

  // At most `tries` looks.
  function Spin(t: Timeline, history: History, i: nat, tries: nat, ms: int, deadlineNs: int): Spun
    decreases tries
  {
    if tries == 0 then Spun(Failure(LoopCap), t, i)
    else
      var look := Look(t, history, i, ms, deadlineNs);
      if look.verdict.Some? then Spun(look.verdict.value, look.timeline, look.next)
      else Spin(look.timeline, history, look.next, tries - 1, ms, deadlineNs)
  }

  // A spin stays on its timeline, reads the clock at most five times a try, and returns a later millisecond.
  lemma {:induction false} SpinProperties(t: Timeline, history: History, i: nat, tries: nat, ms: int, deadlineNs: int)
    ensures Spin(t, history, i, tries, ms, deadlineNs).timeline.anchorMs == t.anchorMs
    ensures i <= Spin(t, history, i, tries, ms, deadlineNs).next <= i + 5 * tries
    ensures Spin(t, history, i, tries, ms, deadlineNs).result.Success? ==>
              ms < Spin(t, history, i, tries, ms, deadlineNs).result.value
    decreases tries
  {
    var look := Look(t, history, i, ms, deadlineNs);
    if tries > 0 && look.verdict.None? {
      SpinProperties(look.timeline, history, look.next, tries - 1, ms, deadlineNs);
    }
  }

  // A look at the clock: the timeline it starts from and the instant of its first reading.
  datatype LookAt = LookAt(timeline: Timeline, at: nat)

  // The look a spin ends with.
  function LastLook(t: Timeline, history: History, i: nat, tries: nat, ms: int, deadlineNs: int): LookAt
    requires tries > 0
    decreases tries
  {
    var look := Look(t, history, i, ms, deadlineNs);
    if tries == 1 || look.verdict.Some? then LookAt(t, i)
    else LastLook(look.timeline, history, look.next, tries - 1, ms, deadlineNs)
  }

  // The last value of the timeline that a look reads.
  function LastReading(u: LookAt, history: History, ms: int, deadlineNs: int): int {
    if NowAt(u.timeline, history, u.at) > ms || history(u.at + 2).elapsedNs <= deadlineNs
    then NowAt(u.timeline, history, u.at)
    else NowAt(Advanced(u.timeline, history, u.at), history, u.at + 3)
  }

  // The look found the deadline past and `ms` not, and on reading again found `ms` past too.
  predicate RereadIsLate(u: LookAt, history: History, ms: int, deadlineNs: int) {
    && NowAt(u.timeline, history, u.at) <= ms < NowAt(Advanced(u.timeline, history, u.at), history, u.at + 3)
    && deadlineNs < history(u.at + 2).elapsedNs
  }

  // A spin ends where its last look ends, with that look's verdict or for want of another try.
  lemma {:induction false} SpinEndsWithItsLastLook(
    t: Timeline, history: History, i: nat, tries: nat, ms: int, deadlineNs: int)
    requires tries > 0
    ensures var s, u := Spin(t, history, i, tries, ms, deadlineNs), LastLook(t, history, i, tries, ms, deadlineNs);
            var look := Look(u.timeline, history, u.at, ms, deadlineNs);
            && i <= u.at && u.timeline.anchorMs == t.anchorMs
            && s == Spun(if look.verdict.Some? then look.verdict.value else Failure(LoopCap), look.timeline, look.next)
    decreases tries
  {
    var look := Look(t, history, i, ms, deadlineNs);
    if look.verdict.None? {
      assert Spin(look.timeline, history, look.next, 0, ms, deadlineNs).result == Failure(LoopCap);
      if tries > 1 {
        SpinEndsWithItsLastLook(look.timeline, history, look.next, tries - 1, ms, deadlineNs);
      }
    }
  }

  /**
   * A spin that gives up has read the timeline past `ms` all the same exactly when its last look re-read it
   * late; it then always blames the loop cap. A stall for the deadline is never of that kind.
   */
  lemma StallIsSpuriousIffRereadIsLate(
    t: Timeline, history: History, i: nat, tries: nat, ms: int, deadlineNs: int)
    requires tries > 0
    ensures var s, u := Spin(t, history, i, tries, ms, deadlineNs), LastLook(t, history, i, tries, ms, deadlineNs);
            && (s.result.Failure? && ms < LastReading(u, history, ms, deadlineNs) <==>
                  RereadIsLate(u, history, ms, deadlineNs))
            && (RereadIsLate(u, history, ms, deadlineNs) ==> s.result == Failure(LoopCap))
  {
    SpinEndsWithItsLastLook(t, history, i, tries, ms, deadlineNs);
  }

  lemma {:induction false} TimelineCatchesUpOnly(
    t: Timeline, history: History, i: nat, tries: nat, ms: int, deadlineNs: int)
    requires tries > 0
    ensures t.offsetMs <= LastLook(t, history, i, tries, ms, deadlineNs).timeline.offsetMs
    decreases tries
  {
    var look := Look(t, history, i, ms, deadlineNs);
    assert t.offsetMs <= look.timeline.offsetMs;
    if tries > 1 && look.verdict.None? {
      TimelineCatchesUpOnly(look.timeline, history, look.next, tries - 1, ms, deadlineNs);
    }
  }

  // Ten milliseconds of nanoseconds are ten milliseconds: once the deadline is past, so is the millisecond.
  lemma PastTheDeadlineIsPastTheMillisecond(
    t: Timeline, history: History, i: nat, tries: nat, ms: int, startedNs: int)
    requires Steady(history) && Tied(history) && tries > 0 && i > 0
    requires startedNs == history(i - 1).elapsedNs && ms <= history(i - 1).monotonicMs + t.anchorMs + t.offsetMs
    ensures var u := LastLook(t, history, i, tries, ms, startedNs + SPIN_DEADLINE_NS);
            startedNs + SPIN_DEADLINE_NS < history(u.at + 2).elapsedNs ==>
              ms < NowAt(Advanced(u.timeline, history, u.at), history, u.at + 3)
  {
    var u := LastLook(t, history, i, tries, ms, startedNs + SPIN_DEADLINE_NS);
    TimelineCatchesUpOnly(t, history, i, tries, ms, startedNs + SPIN_DEADLINE_NS);
    SpinEndsWithItsLastLook(t, history, i, tries, ms, startedNs + SPIN_DEADLINE_NS);
    assert Ticks(history, i - 1) && Ticks(history, u.at + 2) && Earlier(u.at + 2, u.at + 3);
  }

  /**
   * On the system clock no spin ever gives up for its deadline, and one that gives up for its cap has read
   * the timeline past `ms` exactly when its last look found the deadline past.
   */
  lemma TiedStallIsSpuriousIffDeadlineIsPast(
    t: Timeline, history: History, i: nat, tries: nat, ms: int, startedNs: int)
    requires Steady(history) && Tied(history) && tries > 0 && i > 0
    requires startedNs == history(i - 1).elapsedNs && ms <= history(i - 1).monotonicMs + t.anchorMs + t.offsetMs
    ensures var deadlineNs := startedNs + SPIN_DEADLINE_NS;
            var s, u := Spin(t, history, i, tries, ms, deadlineNs), LastLook(t, history, i, tries, ms, deadlineNs);
            && s.result != Failure(Deadline)
            && (s.result.Failure? ==>
                  (ms < LastReading(u, history, ms, deadlineNs) <==> deadlineNs < history(u.at + 2).elapsedNs))
  {
    PastTheDeadlineIsPastTheMillisecond(t, history, i, tries, ms, startedNs);
    SpinEndsWithItsLastLook(t, history, i, tries, ms, startedNs + SPIN_DEADLINE_NS);
  }

  // Looks at a frozen clock change nothing but their number.
  lemma {:induction false} FrozenSpin(
    t: Timeline, history: History, i: nat, tries: nat, ms: int, deadlineNs: int, sample: Sample)
    requires forall j :: i <= j < i + 3 * tries ==> history(j) == sample
    requires sample.wallMs <= sample.monotonicMs + t.anchorMs + t.offsetMs <= ms && sample.elapsedNs <= deadlineNs
    ensures Spin(t, history, i, tries, ms, deadlineNs) == Spun(Failure(LoopCap), t, i + 3 * tries)
    ensures tries > 0 ==> LastLook(t, history, i, tries, ms, deadlineNs) == LookAt(t, i + 3 * (tries - 1))
    decreases tries
  {
    if tries > 0 {
      assert history(i) == sample && history(i + 1) == sample && history(i + 2) == sample;
      assert Look(t, history, i, ms, deadlineNs) == Looked(None, t, i + 3);
      FrozenSpin(t, history, i + 3, tries - 1, ms, deadlineNs, sample);
    }
  }

  // What a spin from these arguments leaves: its outcome, and `highMs`, the highest reading so far. It gives
  // up on a timeline it has read past `ms` exactly when its last look re-read it late.
  ghost predicate Spins(
    t: Timeline, history: History, i: nat, tries: nat, ms: int, deadlineNs: int, end: Spun, highMs: int)
    requires tries > 0
  {
    && end == Spin(t, history, i, tries, ms, deadlineNs)
    && (end.result.Success? ==> ms < end.result.value == highMs)
    && (end.result.Failure? && ms < highMs <==>
          RereadIsLate(LastLook(t, history, i, tries, ms, deadlineNs), history, ms, deadlineNs))
  }

  // The deadline of a spin counts from the nanoseconds read just before it.
  ghost predicate SpinsPast(
    t: Timeline, history: History, i: nat, tries: nat, ms: int, end: Spun, highMs: int)
  {
    tries > 0 && Spins(t, history, i + 1, tries, ms, history(i).elapsedNs + SPIN_DEADLINE_NS, end, highMs)
  }

  lemma SpinsFromItsLastReading(
    t: Timeline, history: History, i: nat, tries: nat, ms: int, deadlineNs: int, highMs: int)
    requires tries > 0 && highMs == LastReading(LastLook(t, history, i, tries, ms, deadlineNs), history, ms, deadlineNs)
    ensures Spins(t, history, i, tries, ms, deadlineNs, Spin(t, history, i, tries, ms, deadlineNs), highMs)
  {
    SpinEndsWithItsLastLook(t, history, i, tries, ms, deadlineNs);
    StallIsSpuriousIffRereadIsLate(t, history, i, tries, ms, deadlineNs);
  }

  // ---------------------------------------------------------------- the generator

  // (ts, sequence) of one node, in the order ids are minted.
  predicate StampBefore(ts: int, sequence: int, laterTs: int, laterSequence: int) {
    ts < laterTs || (ts == laterTs && sequence < laterSequence)
  }

  datatype MintError =
    | ClockStalled(reason: StallReason)
    | Unencodable
    | LeaseNotHeld

  // What the rest of the system can see of a generator.
  datatype Mint = Mint(nodeId: int, floorMs: int, lastMs: int, sequence: int)

  class SnowflakeGenerator {
    const nodeId: int
    const clock: Clock
    const floorMs: Option<int>
    const originWallMs: int
    const originMonotonicMs: int
    const liftMs: int
    const spinLoopCap: nat
    var lastMs: int
    var sequence: int
    var offsetMs: int
    var stalls: nat
    var stalledAtMs: int
    // No reading of the timeline so far exceeds this, and every later one reaches it.
    ghost var highWaterMs: int

    ghost function Line(): Timeline
      reads this
    {
      Timeline(originWallMs + liftMs - originMonotonicMs, offsetMs)
    }

    ghost predicate Valid()
      reads this, clock
    {
      && Steady(clock.history) && 0 < spinLoopCap
      && 0 <= sequence < SEQUENCE_COUNT && 0 <= lastMs && 0 <= offsetMs && 0 <= liftMs
      && originMonotonicMs <= clock.history(clock.next).monotonicMs
      && (floorMs.Some? ==> floorMs.value < originWallMs + liftMs)
      && originWallMs + liftMs <= highWaterMs
      && highWaterMs <= clock.history(clock.next).monotonicMs + Line().anchorMs + offsetMs
      && (lastMs == 0 || (lastMs <= highWaterMs && OrZero(floorMs) <= lastMs
         && (floorMs.Some? ==> floorMs.value < lastMs)))
    }

    ghost function View(): Mint
      reads this
    {
      Mint(nodeId, OrZero(floorMs), lastMs, sequence)
    }

    static predicate Constructible(nodeId: int, floorMs: Option<int>) {
      && 0 <= nodeId < NODE_COUNT
      && (floorMs.Some? ==> 0 <= floorMs.value < MAX_TIMESTAMP_MS)
    }

    constructor (nodeId: int, clock: Clock, floorMs: Option<int>)
      requires Constructible(nodeId, floorMs) && Steady(clock.history)
      modifies clock
      ensures Valid() && this.clock == clock && clock.next == old(clock.next) + 2
      ensures View() == Mint(nodeId, OrZero(floorMs), 0, 0) && this.floorMs == floorMs && spinLoopCap == SPIN_LOOP_CAP
      ensures var wall := clock.history(old(clock.next)).wallMs;
              highWaterMs == if floorMs.None? then wall else Max(wall, floorMs.value + 1)
      ensures Line() == Timeline(highWaterMs - clock.history(old(clock.next) + 1).monotonicMs, 0)
      ensures stalls == 0 && stalledAtMs == NO_STALL
    {
      this.nodeId := nodeId;
      this.clock := clock;
      this.floorMs := floorMs;
      spinLoopCap := SPIN_LOOP_CAP;
      lastMs, sequence, offsetMs, stalls, stalledAtMs := 0, 0, 0, 0, NO_STALL;
      var wall := clock.WallMs();
      var monotonic := clock.MonotonicMs();
      originWallMs := wall;
      originMonotonicMs := monotonic;
      liftMs := if floorMs.None? then 0 else Max(0, floorMs.value + 1 - wall);
      highWaterMs := wall + if floorMs.None? then 0 else Max(0, floorMs.value + 1 - wall);
      new;
      assert Earlier(clock.next - 1, clock.next);
    }

    method Now() returns (ms: int)
      requires Valid()
      modifies this`offsetMs, this`highWaterMs, clock
      ensures Valid() && clock.next == old(clock.next) + 2
      ensures ms == NowAt(old(Line()), clock.history, old(clock.next))
      ensures Line() == Advanced(old(Line()), clock.history, old(clock.next))
      ensures old(highWaterMs) <= ms == highWaterMs
      // The wall clock just read, or where the monotonic clock puts the timeline if that is further on.
      ensures var wall := clock.history(old(clock.next) + 1).wallMs;
              var line := originWallMs + liftMs + old(offsetMs)
                          + (clock.history(old(clock.next)).monotonicMs - originMonotonicMs);
              wall <= ms && line <= ms && (ms == wall || ms == line)
    {
      var reading := clock.MonotonicMs();
      var monotonic := originWallMs + liftMs + (reading - originMonotonicMs);
      var wall := clock.WallMs();
      var behind := wall - (monotonic + offsetMs);
      if behind > 0 {
        offsetMs := offsetMs + behind;
      }
      ms := monotonic + offsetMs;
      highWaterMs := ms;
      assert Earlier(clock.next - 2, clock.next);
    }

    method ElapsedNs() returns (ns: int)
      requires Valid()
      modifies clock
      ensures Valid() && ns == clock.history(old(clock.next)).elapsedNs && clock.next == old(clock.next) + 1
    {
      ns := clock.ElapsedNs();
      assert Earlier(clock.next - 1, clock.next);
    }

    function SpinTries(ms: int): (tries: nat)
      reads this
      ensures 0 < spinLoopCap ==> 0 < tries
    {
      if stalledAtMs == ms then 1 else spinLoopCap
    }

    method LookPast(ms: int, deadlineNs: int) returns (r: Option<Result<int, StallReason>>)
      requires Valid()
      modifies this`offsetMs, this`highWaterMs, clock
      ensures Valid() && old(highWaterMs) <= highWaterMs && old(clock.next) < clock.next
      ensures Look(old(Line()), clock.history, old(clock.next), ms, deadlineNs) == Looked(r, Line(), clock.next)
      ensures r.Some? && r.value.Success? ==> ms < r.value.value
      ensures highWaterMs == LastReading(LookAt(old(Line()), old(clock.next)), clock.history, ms, deadlineNs)
    {
      var tsMs := Now();
      if tsMs > ms {
        return Some(Success(tsMs));
      }
      var elapsed := ElapsedNs();
      if elapsed > deadlineNs {
        var again := Now();
        if again <= ms {
          return Some(Failure(Deadline));
        }
      }
      return None;
    }

    // The loop of the spin: at most `cap` looks at the clock.
    method SpinUpTo(cap: nat, ms: int, deadlineNs: int) returns (r: Result<int, StallReason>)
      requires Valid() && 0 < cap
      modifies this`offsetMs, this`highWaterMs, clock
      ensures Valid() && old(highWaterMs) <= highWaterMs && old(clock.next) <= clock.next
      ensures Spin(old(Line()), clock.history, old(clock.next), cap, ms, deadlineNs) == Spun(r, Line(), clock.next)
      ensures highWaterMs == LastReading(LastLook(old(Line()), clock.history, old(clock.next), cap, ms, deadlineNs),
                                         clock.history, ms, deadlineNs)
    {
      ghost var whole := Spin(Line(), clock.history, clock.next, cap, ms, deadlineNs);
      ghost var last := LastLook(Line(), clock.history, clock.next, cap, ms, deadlineNs);
      for i := 0 to cap
        invariant Valid() && old(highWaterMs) <= highWaterMs && old(clock.next) <= clock.next
        invariant Spin(Line(), clock.history, clock.next, cap - i, ms, deadlineNs) == whole
        invariant if i < cap then LastLook(Line(), clock.history, clock.next, cap - i, ms, deadlineNs) == last
                  else highWaterMs == LastReading(last, clock.history, ms, deadlineNs)
      {
        var verdict := LookPast(ms, deadlineNs);
        if verdict.Some? {
          return verdict.value;
        }
      }
      return Failure(LoopCap);
    }

    // Remembers whether the last spin gave up, and where.
    method Settle(ms: int, gaveUp: bool)
      requires Valid()
      modifies this`stalls, this`stalledAtMs
      ensures Valid() && Line() == old(Line())
      ensures stalls == old(stalls) + (if gaveUp then 1 else 0) && stalledAtMs == (if gaveUp then ms else NO_STALL)
    {
      if gaveUp {
        stalledAtMs, stalls := ms, stalls + 1;
      } else {
        stalledAtMs := NO_STALL;
      }
    }

    // On the system clock, what SpinPast is about to do at a millisecond already reached.
    lemma SystemClockStalls(ms: int)
      requires Valid() && Tied(clock.history) && ms <= highWaterMs
      ensures var deadlineNs := clock.history(clock.next).elapsedNs + SPIN_DEADLINE_NS;
              var s := Spin(Line(), clock.history, clock.next + 1, SpinTries(ms), ms, deadlineNs);
              var u := LastLook(Line(), clock.history, clock.next + 1, SpinTries(ms), ms, deadlineNs);
              && s.result != Failure(Deadline)
              && (s.result.Failure? ==>
                    (ms < LastReading(u, clock.history, ms, deadlineNs)
                     <==> deadlineNs < clock.history(u.at + 2).elapsedNs))
    {
      TiedStallIsSpuriousIffDeadlineIsPast(
        Line(), clock.history, clock.next + 1, SpinTries(ms), ms, clock.history(clock.next).elapsedNs);
    }

    method SpinPast(ms: int) returns (r: Result<int, StallReason>)
      requires Valid()
      modifies this`offsetMs, this`highWaterMs, this`stalls, this`stalledAtMs, clock
      ensures Valid() && old(highWaterMs) <= highWaterMs && old(clock.next) < clock.next
      ensures SpinsPast(old(Line()), clock.history, old(clock.next), old(SpinTries(ms)), ms,
                        Spun(r, Line(), clock.next), highWaterMs)
      ensures stalls == old(stalls) + (if r.Failure? then 1 else 0)
              && stalledAtMs == (if r.Failure? then ms else NO_STALL)
    {
      var cap := SpinTries(ms);
      var startedNs := ElapsedNs();
      ghost var t, i := Line(), clock.next;
      r := SpinUpTo(cap, ms, startedNs + SPIN_DEADLINE_NS);
      SpinsFromItsLastReading(t, clock.history, i, cap, ms, startedNs + SPIN_DEADLINE_NS, highWaterMs);
      Settle(ms, r.Failure?);
    }

    // The millisecond to stamp after `tsMs` was read, with the sequence moved on to go with it.
    method Advance(tsMs: int) returns (r: Result<int, StallReason>)
      requires Valid() && highWaterMs == tsMs
      modifies this`sequence, this`offsetMs, this`highWaterMs, this`stalls, this`stalledAtMs, clock
      ensures Valid() && old(highWaterMs) <= highWaterMs && old(clock.next) <= clock.next
      ensures tsMs > lastMs ==> r == Success(tsMs) && sequence == 0
      ensures tsMs <= lastMs && old(sequence) < SEQUENCE_COUNT - 1 ==>
                r == Success(lastMs) && sequence == old(sequence) + 1
      ensures if tsMs <= lastMs && old(sequence) == SEQUENCE_COUNT - 1 then
                && sequence == (if r.Success? then 0 else old(sequence))
                && SpinsPast(old(Line()), clock.history, old(clock.next), old(SpinTries(lastMs)), lastMs,
                             Spun(r, Line(), clock.next), highWaterMs)
              else highWaterMs == tsMs
      ensures stalls == old(stalls) + (if r.Failure? then 1 else 0) && (r.Failure? ==> stalledAtMs == lastMs)
    {
      if tsMs > lastMs {
        sequence := 0;
        return Success(tsMs);
      }
      if sequence < SEQUENCE_COUNT - 1 {
        sequence := sequence + 1;
        return Success(lastMs);
      }
      r := SpinPast(lastMs);
      if r.Success? {
        sequence := 0;
      }
    }

    /**
     * Mints one id. The stamp (lastMs, sequence) strictly increases on every call that does not stall,
     * and a stall leaves it alone, so no stamp is ever reused even when the encoding is refused. It is never
     * behind the wall clock that the mint read, nor behind its own timeline.
     */
    method Generate() returns (r: Result<string, MintError>)
      requires Valid()
      modifies this, clock
      ensures Valid() && old(highWaterMs) <= highWaterMs && old(clock.next) < clock.next
      ensures var now := NowAt(old(Line()), clock.history, old(clock.next));
              if now > old(lastMs) then lastMs == now && sequence == 0
              else if old(sequence) < SEQUENCE_COUNT - 1 then lastMs == old(lastMs) && sequence == old(sequence) + 1
              else if r.Failure? && r.error.ClockStalled? then lastMs == old(lastMs) && sequence == old(sequence)
              else lastMs == highWaterMs > old(lastMs) && sequence == 0
      ensures clock.history(old(clock.next) + 1).wallMs <= lastMs
      ensures originWallMs + liftMs + old(offsetMs)
              + (clock.history(old(clock.next)).monotonicMs - originMonotonicMs) <= lastMs
      ensures r.Failure? && r.error.ClockStalled? ==>
                && old(sequence) == SEQUENCE_COUNT - 1
                && NowAt(old(Line()), clock.history, old(clock.next)) <= old(lastMs)
                && stalls == old(stalls) + 1 && stalledAtMs == lastMs
                && SpinsPast(Advanced(old(Line()), clock.history, old(clock.next)), clock.history, old(clock.next) + 2,
                             old(SpinTries(lastMs)), lastMs,
                             Spun(Failure(r.error.reason), Line(), clock.next), highWaterMs)
      ensures !(r.Failure? && r.error.ClockStalled?) ==>
                && StampBefore(old(lastMs), old(sequence), lastMs, sequence)
                && stalls == old(stalls)
                && r == match Encode(Fields(lastMs, nodeId, sequence))
                        case Success(id) => Success(id)
                        case Failure(_) => Failure(Unencodable)
      ensures r.Success? ==> OrZero(floorMs) < lastMs
      ensures r.Failure? ==> !r.error.LeaseNotHeld?
    {
      var tsMs := Now();
      var stamp := Advance(tsMs);
      if stamp.Failure? {
        return Failure(ClockStalled(stamp.error));
      }
      lastMs := stamp.value;
      var encoded := Encode(Fields(lastMs, nodeId, sequence));
      return match encoded case Success(id) => Success(id) case Failure(_) => Failure(Unencodable);
    }
  }

  // One counter that stands still through the whole first spin of the run below and comes back, eleven
  // milliseconds on, in the middle of the one look of the second.
  const FROZEN: nat := 3 * SPIN_LOOP_CAP + 6

  function ThawingClocks(): History {
    i => if i < FROZEN then Sample(100, 0, 0, 0) else Sample(100, 11, 11 * NS_PER_MS, 11)
  }

  lemma ThawingClocksAreASystemClock()
    ensures Steady(ThawingClocks()) && Tied(ThawingClocks())
  {
  }

  lemma FrozenThroughout(end: Spun, highMs: int)
    requires Spins(Timeline(100, 0), ThawingClocks(), 3, SPIN_LOOP_CAP, 100, SPIN_DEADLINE_NS, end, highMs)
    ensures end == Spun(Failure(LoopCap), Timeline(100, 0), FROZEN - 3)
  {
    var cap: nat := SPIN_LOOP_CAP;
    FrozenSpin(Timeline(100, 0), ThawingClocks(), 3, cap, 100, SPIN_DEADLINE_NS, Sample(100, 0, 0, 0));
  }

  lemma ThawedOnTheLastTry(end: Spun, highMs: int)
    requires Spins(Timeline(100, 0), ThawingClocks(), FROZEN - 2, 1, 100, SPIN_DEADLINE_NS, end, highMs)
    ensures end.result == Failure(LoopCap) && 100 < highMs
  {
    StallIsSpuriousIffRereadIsLate(Timeline(100, 0), ThawingClocks(), FROZEN - 2, 1, 100, SPIN_DEADLINE_NS);
  }

  method FrozenGenerator() returns (generator: SnowflakeGenerator)
    ensures fresh(generator) && fresh(generator.clock) && generator.Valid() && generator.clock.next == 2
    ensures generator.clock.history == ThawingClocks() && generator.Line() == Timeline(100, 0)
    ensures generator.spinLoopCap == SPIN_LOOP_CAP && generator.stalledAtMs == NO_STALL
  {
    var clock := new Clock(ThawingClocks());
    ThawingClocksAreASystemClock();
    generator := new SnowflakeGenerator(0, clock, None);
  }

  method StallFrozen() returns (generator: SnowflakeGenerator, first: Result<int, StallReason>)
    ensures fresh(generator) && fresh(generator.clock) && generator.Valid()
    ensures generator.clock.history == ThawingClocks() && generator.Line() == Timeline(100, 0)
    ensures generator.clock.next == FROZEN - 3 && generator.stalledAtMs == 100 && first == Failure(LoopCap)
  {
    generator := FrozenGenerator();
    first := generator.SpinPast(100);
    FrozenThroughout(Spun(first, generator.Line(), generator.clock.next), generator.highWaterMs);
  }

  // The re-read is there so that a mint about to succeed is not refused. It does not help on the last try:
  // a generator that stalled once at a millisecond has one try left there, and gives up on a live clock.
  method LiveClockIsRefused()
    returns (generator: SnowflakeGenerator, first: Result<int, StallReason>, second: Result<int, StallReason>)
    ensures fresh(generator) && generator.Valid() && generator.clock.history == ThawingClocks()
    ensures first == Failure(LoopCap) && second == Failure(LoopCap) && 100 < generator.highWaterMs
  {
    generator, first := StallFrozen();
    second := generator.SpinPast(100);
    ThawedOnTheLastTry(Spun(second, generator.Line(), generator.clock.next), generator.highWaterMs);
  }
}
