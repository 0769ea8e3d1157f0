/**
 * One key of the stale-while-revalidate cache: an entry and a leased lock in Redis, and any number of
 * callers at any stage of a lookup. Any of them may die at any point.
 */
module SwrCache {
  import opened Wrappers

  datatype Policy = Policy(softTtlMs: nat, staleWindowMs: nat, jitterMs: nat, leaseMs: nat, waitMs: nat)

  // Values are named by the rebuild that produced them.
  datatype Entry = Entry(value: nat, freshUntil: int, storedAt: int, expiresAt: int)

  datatype Lock = Lock(token: nat, expiresAt: int)

  datatype Caller =
    | Looking
    | Acquiring
    | Holding(token: nat, leaseUntil: int)
    | Rebuilt(token: nat, leaseUntil: int, value: nat, freshUntil: int)
    | Releasing(token: nat, leaseUntil: int)
    | Waiting
    | ReadingThrough

  datatype Source = FromFresh | FromStale | FromRebuild

  datatype Served = Served(value: nat, at: int, source: Source, storedAt: int)

  datatype World = World(
    now: int,
    entry: Option<Entry>,
    lock: Option<Lock>,
    nextToken: nat,
    // When each rebuild returned its value, who is doing what, and every answer given.
    rebuilt: map<nat, int>,
    callers: map<nat, Caller>,
    served: seq<Served>)

  datatype Step =
    | Pass(ms: nat)
    | Evict
    | Arrive(c: nat)
    | AnswerHit(c: nat)
    | Miss(c: nat)
    | Acquire(c: nat)
    | AcquireUnanswered(c: nat)
    | FindHeld(c: nat)
    | AnswerFilled(c: nat)
    | Rebuild(c: nat, value: nat, together: set<nat>)
    | Store(c: nat, jitter: nat)
    | SkipStore(c: nat)
    | Release(c: nat)
    | AnswerWaiter(c: nat)
    | GiveUpWaiting(c: nat)
    | ReadThrough(together: set<nat>, value: nat)
    | Leave(c: nat)

  // Redis never answers with a key past its time to live.
  predicate Live(w: World) {
    w.entry.Some? && w.now < w.entry.value.expiresAt
  }

  predicate IsFresh(e: Entry, now: int) {
    now < e.freshUntil
  }

  predicate Locked(w: World) {
    w.lock.Some? && w.now < w.lock.value.expiresAt
  }

  function HardTtlMs(p: Policy, jitter: nat): nat {
    p.softTtlMs + p.staleWindowMs + jitter
  }

  function With(w: World, c: nat, x: Caller): World {
    w.(callers := w.callers[c := x])
  }

  function Answer(w: World, e: Entry): World {
    w.(served := w.served + [Served(e.value, w.now, if IsFresh(e, w.now) then FromFresh else FromStale, e.storedAt)])
  }

  function AnswerRebuilt(w: World, value: nat): World {
    w.(served := w.served + [Served(value, w.now, FromRebuild, w.now)])
  }

  predicate Joins(w: World, together: set<nat>) {
    forall c :: c in together ==> c in w.callers && w.callers[c].ReadingThrough?
  }

  // Compare, then delete.
  function Released(w: World, token: nat): Option<Lock> {
    if Locked(w) && w.lock.value.token == token then None else w.lock
  }

  ghost predicate Next(p: Policy, w: World, step: Step, w': World) {
    match step
    case Pass(ms) => w' == w.(now := w.now + ms)
    case Evict => w' == w.(entry := None)
    case Arrive(c) => c !in w.callers && w' == With(w, c, Looking)
    // A stale hit is answered at once, and the caller goes on to refresh behind it.
    case AnswerHit(c) =>
      && c in w.callers && w.callers[c].Looking? && Live(w)
      && w' == (var answered := Answer(w, w.entry.value);
                if IsFresh(w.entry.value, w.now) then answered.(callers := w.callers - {c})
                else With(answered, c, Acquiring))
    // No entry, or one that does not decode.
    case Miss(c) => c in w.callers && w.callers[c].Looking? && w' == With(w, c, Acquiring)
    case Acquire(c) =>
      && c in w.callers && w.callers[c].Acquiring? && !Locked(w)
      && w' == With(w, c, Holding(w.nextToken, w.now + p.leaseMs)).(
                 lock := Some(Lock(w.nextToken, w.now + p.leaseMs)), nextToken := w.nextToken + 1)
    // The lock is taken, but the caller never hears of it.
    case AcquireUnanswered(c) =>
      && c in w.callers && w.callers[c].Acquiring? && !Locked(w)
      && w' == With(w, c, ReadingThrough).(lock := Some(Lock(w.nextToken, w.now + p.leaseMs)),
         nextToken := w.nextToken + 1)
    case FindHeld(c) => c in w.callers && w.callers[c].Acquiring? && Locked(w) && w' == With(w, c, Waiting)
    case AnswerFilled(c) =>
      && c in w.callers && w.callers[c].Holding? && Live(w) && IsFresh(w.entry.value, w.now)
      && w' == With(Answer(w, w.entry.value), c, Releasing(w.callers[c].token, w.callers[c].leaseUntil))
    // Callers of the process that are reading through join the holder's read.
    case Rebuild(c, value, together) =>
      && c in w.callers && w.callers[c].Holding? && value !in w.rebuilt && Joins(w, together)
      && w' == AnswerRebuilt(w, value).(
                 callers := (w.callers - together)[
                   c := Rebuilt(w.callers[c].token, w.callers[c].leaseUntil, value, w.now + p.softTtlMs)],
                 rebuilt := w.rebuilt[value := w.now])
    case Store(c, jitter) =>
      && c in w.callers && w.callers[c].Rebuilt? && (jitter < p.jitterMs || jitter == 0)
      && var x := w.callers[c];
         w' == With(w, c, Releasing(x.token, x.leaseUntil)).(
                 entry := Some(Entry(x.value, x.freshUntil, w.now, w.now + HardTtlMs(p, jitter))))
    // Nothing is written for a value that is not there, and the cache may refuse the write.
    case SkipStore(c) =>
      && c in w.callers && w.callers[c].Rebuilt?
      && w' == With(w, c, Releasing(w.callers[c].token, w.callers[c].leaseUntil))
    case Release(c) =>
      && c in w.callers && w.callers[c].Releasing?
      && w' == w.(lock := Released(w, w.callers[c].token), callers := w.callers - {c})
    case AnswerWaiter(c) =>
      && c in w.callers && w.callers[c].Waiting? && Live(w)
      && w' == Answer(w, w.entry.value).(callers := w.callers - {c})
    case GiveUpWaiting(c) =>
      c in w.callers && (w.callers[c].Waiting? || w.callers[c].Looking? || w.callers[c].Acquiring?)
        && w' == With(w, c, ReadingThrough)
    // Callers of one process that arrive while a read is running share its result.
    case ReadThrough(together, value) =>
      && value !in w.rebuilt && Joins(w, together)
      && w' == AnswerRebuilt(w, value).(rebuilt := w.rebuilt[value := w.now], callers := w.callers - together)
    case Leave(c) => c in w.callers && w' == w.(callers := w.callers - {c})
  }

  // ---------------------------------------------------------------- what every step keeps

  function MaxAgeMs(p: Policy): nat {
    p.softTtlMs + p.staleWindowMs + p.jitterMs
  }

  // A value somebody rebuilt, not before it was rebuilt; from Redis, within the age its source allows.
  predicate ServedOk(p: Policy, rebuilt: map<nat, int>, s: Served) {
    && s.value in rebuilt && rebuilt[s.value] <= s.storedAt <= s.at
    && (s.source.FromFresh? ==> s.at - s.storedAt < p.softTtlMs)
    && (s.source.FromStale? ==> s.at - s.storedAt < MaxAgeMs(p))
  }

  predicate EntryOk(p: Policy, w: World, e: Entry) {
    && e.value in w.rebuilt && w.rebuilt[e.value] <= e.storedAt <= w.now
    && e.freshUntil <= e.storedAt + p.softTtlMs && e.expiresAt <= e.storedAt + MaxAgeMs(p)
  }

  predicate HasToken(x: Caller) {
    x.Holding? || x.Rebuilt? || x.Releasing?
  }

  // While its lease runs, a holder's token is the one in the lock.
  predicate CallerOk(p: Policy, w: World, x: Caller) {
    && (HasToken(x) ==> x.token < w.nextToken && (w.now < x.leaseUntil ==> w.lock == Some(Lock(x.token, x.leaseUntil))))
    && (x.Rebuilt? ==>
          && x.value in w.rebuilt && w.rebuilt[x.value] <= w.now
          && x.freshUntil == w.rebuilt[x.value] + p.softTtlMs)
  }

  predicate SameToken(x: Caller, y: Caller) {
    HasToken(x) && HasToken(y) && x.token == y.token
  }

  ghost predicate ValuesOk(p: Policy, w: World) {
    && (w.entry.Some? ==> EntryOk(p, w, w.entry.value))
    && forall i :: 0 <= i < |w.served| ==> ServedOk(p, w.rebuilt, w.served[i])
  }

  ghost predicate CallersOk(p: Policy, w: World) {
    && (w.lock.Some? ==> w.lock.value.token < w.nextToken)
    && (forall c :: c in w.callers ==> CallerOk(p, w, w.callers[c]))
    && (forall c, d :: c in w.callers && d in w.callers && SameToken(w.callers[c], w.callers[d]) ==> c == d)
  }

  ghost predicate Inv(p: Policy, w: World) {
    ValuesOk(p, w) && CallersOk(p, w)
  }

  lemma NextKeepsValues(p: Policy, w: World, step: Step, w': World)
    requires Inv(p, w) && Next(p, w, step, w')
    ensures ValuesOk(p, w')
  {
    assert step.Store? ==> CallerOk(p, w, w.callers[step.c]);
    forall i | 0 <= i < |w'.served| ensures ServedOk(p, w'.rebuilt, w'.served[i]) {
      if i < |w.served| {
        assert w'.served[i] == w.served[i];
      }
    }
  }

  // A caller the step does not move.
  lemma NextKeepsOther(p: Policy, w: World, step: Step, w': World, d: nat)
    requires Inv(p, w) && Next(p, w, step, w') && d in w.callers && d in w'.callers && w'.callers[d] == w.callers[d]
    ensures CallerOk(p, w', w.callers[d])
  {
    assert CallerOk(p, w, w.callers[d]);
    if step.Release? {
      assert step.c != d && !SameToken(w.callers[step.c], w.callers[d]);
    }
  }

  lemma NextKeepsMoved(p: Policy, w: World, step: Step, w': World, d: nat)
    requires Inv(p, w) && Next(p, w, step, w') && d in w'.callers && !(d in w.callers && w'.callers[d] == w.callers[d])
    ensures CallerOk(p, w', w'.callers[d])
    ensures HasToken(w'.callers[d]) ==>
              (d in w.callers && SameToken(w.callers[d], w'.callers[d])) || w'.callers[d].token == w.nextToken
  {
    assert d in w.callers ==> CallerOk(p, w, w.callers[d]);
  }

  // Tokens are carried over from before, or are the next one.
  lemma TokensFrom(p: Policy, w: World, step: Step, w': World, d: nat)
    requires Inv(p, w) && Next(p, w, step, w') && d in w'.callers && HasToken(w'.callers[d])
    ensures || (d in w.callers && SameToken(w.callers[d], w'.callers[d]))
            || (step == Acquire(d) && w'.callers[d].token == w.nextToken)
  {
  }

  lemma NextKeepsCallers(p: Policy, w: World, step: Step, w': World)
    requires Inv(p, w) && Next(p, w, step, w')
    ensures CallersOk(p, w')
  {
    forall c | c in w'.callers ensures CallerOk(p, w', w'.callers[c]) {
      if c in w.callers && w'.callers[c] == w.callers[c] {
        NextKeepsOther(p, w, step, w', c);
      } else {
        NextKeepsMoved(p, w, step, w', c);
      }
    }
    forall c, d | c in w'.callers && d in w'.callers && SameToken(w'.callers[c], w'.callers[d]) ensures c == d {
      TokensFrom(p, w, step, w', c);
      TokensFrom(p, w, step, w', d);
      assert c in w.callers ==> CallerOk(p, w, w.callers[c]);
      assert d in w.callers ==> CallerOk(p, w, w.callers[d]);
    }
  }

  lemma NextKeepsInv(p: Policy, w: World, step: Step, w': World)
    requires Inv(p, w) && Next(p, w, step, w')
    ensures Inv(p, w')
  {
    NextKeepsValues(p, w, step, w');
    NextKeepsCallers(p, w, step, w');
  }

  ghost predicate IsRun(p: Policy, worlds: seq<World>, steps: seq<Step>) {
    && |worlds| == |steps| + 1 && worlds[0] == World(worlds[0].now, None, None, 0, map[], map[], [])
    && forall i :: 0 <= i < |steps| ==> Next(p, worlds[i], steps[i], worlds[i + 1])
  }

  lemma {:induction false} RunKeepsInv(p: Policy, worlds: seq<World>, steps: seq<Step>, k: nat)
    requires IsRun(p, worlds, steps) && k < |worlds|
    ensures Inv(p, worlds[k])
  {
    if k > 0 {
      RunKeepsInv(p, worlds, steps, k - 1);
      NextKeepsInv(p, worlds[k - 1], steps[k - 1], worlds[k]);
    }
  }

  /**
   * Every answer is a value some rebuild of the key returned. One served from Redis was stored less than
   * soft TTL, stale window and jitter ago, and less than the soft TTL ago if it was served as fresh.
   */
  lemma AnswersAreRebuiltAndRecent(p: Policy, worlds: seq<World>, steps: seq<Step>, k: nat, s: Served)
    requires IsRun(p, worlds, steps) && k < |worlds| && s in worlds[k].served
    ensures s.value in worlds[k].rebuilt && worlds[k].rebuilt[s.value] <= s.storedAt
    ensures s.source.FromFresh? ==> s.at - s.storedAt < p.softTtlMs
    ensures s.source.FromStale? ==> s.at - s.storedAt < MaxAgeMs(p)
  {
    RunKeepsInv(p, worlds, steps, k);
  }

  // The entry was not stored anew, nor evicted, in steps i to k.
  predicate Undisturbed(steps: seq<Step>, i: nat, k: nat)
    requires i <= k <= |steps|
  {
    forall j :: i <= j < k ==> !steps[j].Evict? && !steps[j].Store?
  }

  // A value stored stays fresh for the soft TTL from its rebuild, and answers for the soft TTL and the stale
  // window from when it was stored, unless it is replaced or evicted.
  lemma StoredAnswersThroughItsWindow(p: Policy, worlds: seq<World>, steps: seq<Step>, i: nat, k: nat)
    requires IsRun(p, worlds, steps) && i < k <= |steps| && steps[i].Store? && Undisturbed(steps, i + 1, k)
    requires worlds[k].now < worlds[i].now + p.softTtlMs + p.staleWindowMs
    ensures steps[i].c in worlds[i].callers && worlds[i].callers[steps[i].c].Rebuilt? && Live(worlds[k])
    ensures var value, e := worlds[i].callers[steps[i].c].value, worlds[k].entry.value;
            && e.value == value && e.storedAt == worlds[i].now && value in worlds[i].rebuilt
            && (IsFresh(e, worlds[k].now) <==> worlds[k].now - worlds[i].rebuilt[value] < p.softTtlMs)
  {
    EntryStays(p, worlds, steps, i + 1, k);
    RunKeepsInv(p, worlds, steps, i);
    assert Next(p, worlds[i], steps[i], worlds[i + 1]);
    assert CallerOk(p, worlds[i], worlds[i].callers[steps[i].c]);
  }

  lemma {:induction false} EntryStays(p: Policy, worlds: seq<World>, steps: seq<Step>, i: nat, k: nat)
    requires IsRun(p, worlds, steps) && i <= k <= |steps| && Undisturbed(steps, i, k)
    ensures worlds[k].entry == worlds[i].entry
  {
    if i < k {
      EntryStays(p, worlds, steps, i, k - 1);
      assert Next(p, worlds[k - 1], steps[k - 1], worlds[k]);
    }
  }

  /** Two holders never both have a running lease. */
  lemma OneHolderPerLease(p: Policy, worlds: seq<World>, steps: seq<Step>, k: nat, c: nat, d: nat)
    requires IsRun(p, worlds, steps) && k < |worlds| && c in worlds[k].callers && d in worlds[k].callers
    requires HasToken(worlds[k].callers[c]) && worlds[k].now < worlds[k].callers[c].leaseUntil
    requires HasToken(worlds[k].callers[d]) && worlds[k].now < worlds[k].callers[d].leaseUntil
    ensures c == d
  {
    RunKeepsInv(p, worlds, steps, k);
    assert CallerOk(p, worlds[k], worlds[k].callers[c]) && CallerOk(p, worlds[k], worlds[k].callers[d]);
  }

  /**
   * An expired holder's release never frees a later holder's lock: a lock that is in force goes only by
   * the release of the caller that took it.
   */
  lemma OnlyTheHolderFreesItsLock(p: Policy, worlds: seq<World>, steps: seq<Step>, k: nat, d: nat)
    requires IsRun(p, worlds, steps) && k < |steps| && d in worlds[k].callers
    requires HasToken(worlds[k].callers[d]) && worlds[k].now < worlds[k].callers[d].leaseUntil
    ensures worlds[k + 1].lock == worlds[k].lock || steps[k] == Release(d)
  {
    RunKeepsInv(p, worlds, steps, k);
    assert Next(p, worlds[k], steps[k], worlds[k + 1]);
    assert CallerOk(p, worlds[k], worlds[k].callers[d]);
  }

  // ---------------------------------------------------------------- the waiter's polling loop

  const POLL_INTERVAL_MS: int := 25

  datatype Poll = Hit(value: nat) | Undecodable | Absent | Unreachable

  datatype Sleep = Sleep(start: int, ms: int)

  // At poll i the key answers `polls(i)` and the lock `held(i)`, at `clock(i)`; a sleep lasts at least as
  // long as it was asked to.
  ghost predicate SleepsInFull(deadline: int, clock: nat -> int) {
    forall i: nat :: clock(i) < deadline ==> clock(i) + PauseMs(deadline - clock(i)) <= clock(i + 1)
  }

  function PauseMs(remaining: int): int {
    if remaining < POLL_INTERVAL_MS then remaining else POLL_INTERVAL_MS
  }

  /**
   * A waiter stops at a value, at an outage, when the lock is gone, or at its deadline, whichever is first,
   * and never sleeps past the deadline.
   */
  method WaitForEnvelope(start: int, waitMs: nat, polls: nat -> Poll, held: nat -> bool, clock: nat -> int)
    returns (found: Option<nat>, sleeps: seq<Sleep>)
    requires SleepsInFull(start + waitMs, clock)
    ensures var n := |sleeps|;
            && (found.Some? <==> polls(n).Hit?) && (found.Some? ==> polls(n) == Hit(found.value))
            && (polls(n).Absent? && held(n) ==> start + waitMs <= clock(n))
    ensures forall i :: 0 <= i < |sleeps| ==> polls(i).Absent? && held(i) && clock(i) < start + waitMs
    ensures forall i :: 0 <= i < |sleeps| ==>
              sleeps[i].start == clock(i) && 0 < sleeps[i].ms && sleeps[i].start + sleeps[i].ms <= start + waitMs
    // Each sleep is one polling interval, or what is left until the deadline if that is less.
    ensures forall i :: 0 <= i < |sleeps| ==>
              sleeps[i].ms == POLL_INTERVAL_MS
              || (sleeps[i].ms < POLL_INTERVAL_MS && sleeps[i].start + sleeps[i].ms == start + waitMs)
  {
    var deadline := start + waitMs;
    sleeps := [];
    while true
      invariant forall i :: 0 <= i < |sleeps| ==> polls(i).Absent? && held(i) && clock(i) < deadline
      invariant forall i :: 0 <= i < |sleeps| ==>
                  sleeps[i].start == clock(i) && 0 < sleeps[i].ms && sleeps[i].start + sleeps[i].ms <= deadline
      invariant forall i :: 0 <= i < |sleeps| ==>
                  sleeps[i].ms == POLL_INTERVAL_MS
                  || (sleeps[i].ms < POLL_INTERVAL_MS && sleeps[i].start + sleeps[i].ms == deadline)
      decreases deadline - clock(|sleeps|)
    {
      var n := |sleeps|;
      match polls(n) {
        case Unreachable => return None, sleeps;
        case Undecodable => return None, sleeps;
        case Hit(value) => return Some(value), sleeps;
        case Absent =>
      }
      if !held(n) {
        return None, sleeps;
      }
      var remaining := deadline - clock(n);
      if remaining <= 0 {
        return None, sleeps;
      }
      sleeps := sleeps + [Sleep(clock(n), PauseMs(remaining))];
    }
  }
}
