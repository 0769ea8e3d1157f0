/**
 * One event on its way to one consumer: the outbox row, the main queue, the dead-letter queue, the inbox
 * claim and the effect, with the relay, the router, a replay and the sweeps all interleaved and crashing.
 */
module MessageDelivery {
  import opened Wrappers

  datatype Row = NotAppended | Unpublished | Published | Swept

  datatype JobState = Pending | Completed | Failed

  // `since`: the instant the queue counts the job's age from, when it was added or last failed.
  datatype Job = Job(state: JobState, since: int)

  // A worker at a job: its transaction may commit after the job was given to another, or removed.
  datatype Work = Work(since: int, done: bool)

  // A replay has read the entry, looked the claim up, cleared the stale job, added the new one.
  datatype Replay =
    | Idle
    | EntryRead(entry: int)
    | LookedUp(entry: int, at: int)
    | Cleared(entry: int, at: int)
    | Added(entry: int)

  datatype Message = Message(
    now: int,
    occurredAt: int,
    row: Row,
    publishing: bool,
    main: Option<Job>,
    workers: map<nat, Work>,
    // The dead-letter entry, as the stamp of the failure that wrote it, and the router's half-done move.
    dead: Option<int>,
    routing: Option<int>,
    replay: Replay,
    claim: Option<int>,
    // History: when the effect committed, each time it did.
    applied: seq<int>)

  datatype Step =
    | Pass(ms: nat)
    | Append
    | Publish
    | MarkPublished
    | RelayCrash
    | Deliver(worker: nat)
    | Process(worker: nat, effectSucceeds: bool)
    | Settle(worker: nat, state: JobState)
    | Die(worker: nat)
    | Rerun
    | AgeOut
    | RouteRemove
    | RouteAdd
    | RouteCrash
    | ReplayRead
    | ReplayLookup(force: bool)
    | ReplayClear
    | ReplayAdd
    | ReplayDrop
    | ReplayStop
    | SweepInbox
    | SweepOutbox

  // Adding a job whose id is still known is silently ignored.
  function AddJob(main: Option<Job>, job: Job): Option<Job> {
    if main.Some? then main else Some(job)
  }

  // One transaction for the claim and the effect; a claim already there makes it a duplicate.
  function Processed(s: Message, worker: nat, effectSucceeds: bool): Message
    requires worker in s.workers
  {
    var done := s.(workers := s.workers[worker := s.workers[worker].(done := true)]);
    if s.claim.Some? then done
    else if effectSucceeds then done.(claim := Some(s.now), applied := s.applied + [s.now])
    else s
  }

  predicate BornInsideWindow(s: Message, retentionMs: int) {
    s.now - s.occurredAt <= retentionMs
  }

  predicate Next(retentionMs: int, s: Message, step: Step, s': Message) {
    match step
    case Pass(ms) => s' == s.(now := s.now + ms)
    case Append => s.row.NotAppended? && s' == s.(row := Unpublished, occurredAt := s.now)
    // The relay holds the row's lock from here until it marks the row or dies.
    case Publish =>
      s.row.Unpublished? && !s.publishing && s' == s.(publishing := true, main := AddJob(s.main, Job(Pending, s.now)))
    case MarkPublished => s.publishing && s' == s.(publishing := false, row := Published)
    case RelayCrash => s.publishing && s' == s.(publishing := false)
    case Deliver(w) =>
      && w !in s.workers && s.main.Some? && s.main.value.state.Pending?
      && s' == s.(workers := s.workers[w := Work(s.main.value.since, false)])
    case Process(w, effectSucceeds) => w in s.workers && s' == Processed(s, w, effectSucceeds)
    // Completed only once processed or found a duplicate; otherwise it failed, to be tried again or for good.
    case Settle(w, state) =>
      && w in s.workers && s.main.Some? && s.main.value == Job(Pending, s.workers[w].since)
      && (state.Completed? ==> s.workers[w].done)
      && s' == s.(workers := s.workers - {w},
                  main := Some(Job(state, if state.Completed? then s.workers[w].since else s.now)))
    case Die(w) => w in s.workers && s' == s.(workers := s.workers - {w})
    case Rerun => s.main.Some? && s.main.value.state.Failed? && s' == s.(main := Some(s.main.value.(state := Pending)))
    case AgeOut => s.main.Some? && !s.main.value.state.Pending? && s' == s.(main := None)
    case RouteRemove =>
      && s.main.Some? && s.main.value.state.Failed? && s.routing.None?
      && s' == s.(routing := Some(s.now), dead := None)
    case RouteAdd => s.routing.Some? && s' == s.(routing := None, dead := if s.dead.Some? then s.dead else s.routing)
    case RouteCrash => s.routing.Some? && s' == s.(routing := None)
    case ReplayRead => s.replay.Idle? && s.dead.Some? && s' == s.(replay := EntryRead(s.dead.value))
    // The guard: never past a claim, and past the window only by force.
    case ReplayLookup(force) =>
      && s.replay.EntryRead? && s.claim.None? && (BornInsideWindow(s, retentionMs) || force)
      && s' == s.(replay := LookedUp(s.replay.entry, s.now))
    case ReplayClear => s.replay.LookedUp? && s' == s.(main := None, replay := Cleared(s.replay.entry, s.replay.at))
    case ReplayAdd =>
      s.replay.Cleared? && s' == s.(main := AddJob(s.main, Job(Pending, s.now)), replay := Added(s.replay.entry))
    case ReplayDrop =>
      s.replay.Added? && s' == s.(replay := Idle, dead := if s.dead == Some(s.replay.entry) then None else s.dead)
    case ReplayStop => !s.replay.Idle? && s' == s.(replay := Idle)
    case SweepInbox => s.claim.Some? && s.claim.value < s.now - retentionMs && s' == s.(claim := None)
    case SweepOutbox => s.row.Published? && s' == s.(row := Swept)
  }

  predicate Init(s: Message) {
    && s.row.NotAppended? && !s.publishing && s.main.None? && s.dead.None? && s.routing.None?
    && s.replay.Idle? && s.claim.None? && s.applied == [] && s.workers == map[]
  }

  // ---------------------------------------------------------------- what a run keeps to

  // How late the queue may hear of a job again once its effect has committed: from a relay publishing the
  // row again, by the row's age; from a worker whose job fails after all; from a replay, by its lookup's age.
  datatype Lags = Lags(republishMs: nat, failureMs: nat, replayMs: nat)

  function Longest(lags: Lags): nat {
    Max(lags.republishMs, Max(lags.failureMs, lags.replayMs))
  }

  // What the queue is relied on for: nothing is processed later than the horizon of its job.
  predicate Confined(horizonMs: nat, s: Message, step: Step) {
    step.Process? && step.worker in s.workers ==> s.now <= s.workers[step.worker].since + horizonMs
  }

  predicate Timely(lags: Lags, s: Message, step: Step) {
    s.applied != [] ==>
      && (step.Publish? ==> s.now <= s.occurredAt + lags.republishMs)
      && (step.Settle? && !step.state.Completed? ==> s.now <= s.applied[0] + lags.failureMs)
      && (step.ReplayAdd? && s.replay.Cleared? ==> s.now <= s.replay.at + lags.replayMs)
  }

  predicate Unforced(step: Step) {
    step.ReplayLookup? ==> !step.force
  }

  // A failed job may age out only once its event is applied, still to be published, or a dead letter that
  // no replay is about to drop; and the router keeps off a dead letter that a replay has read.
  predicate Careful(s: Message, step: Step) {
    s.applied != [] ||
    (&& (step.AgeOut? ==>
           || (s.row.Unpublished? && !s.publishing)
           || (s.dead.Some? && !(s.replay.Added? && s.dead == Some(s.replay.entry))))
     && (step.RouteRemove? ==> !s.replay.EntryRead? && !s.replay.LookedUp?))
  }

  datatype Rules = AnyRun | Timed(horizonMs: nat, lags: Lags) | CarefulRun

  predicate Allows(rules: Rules, s: Message, step: Step) {
    match rules
    case AnyRun => true
    case Timed(horizonMs, lags) => Confined(horizonMs, s, step) && Timely(lags, s, step) && Unforced(step)
    case CarefulRun => Careful(s, step)
  }

  ghost predicate IsChain(rules: Rules, retentionMs: nat, states: seq<Message>, steps: seq<Step>) {
    && |states| == |steps| + 1
    && forall i :: 0 <= i < |steps| ==>
                     Next(retentionMs, states[i], steps[i], states[i + 1]) && Allows(rules, states[i], steps[i])
  }

  ghost predicate IsRun(rules: Rules, retentionMs: nat, states: seq<Message>, steps: seq<Step>) {
    IsChain(rules, retentionMs, states, steps) && Init(states[0])
  }

  // ---------------------------------------------------------------- exactly once

  // Once the effect is applied, its claim outlives every job there is and every job there may yet be.
  predicate OnceInv(retentionMs: nat, lags: Lags, s: Message) {
    && (s.row.NotAppended? ==>
          s.applied == [] && s.main.None? && s.workers == map[] && s.replay.Idle? && s.dead.None? && s.routing.None?)
    && (s.publishing ==> s.row.Unpublished?)
    && (!s.row.NotAppended? ==> s.occurredAt <= s.now)
    && |s.applied| <= 1
    && (s.claim.Some? ==> s.applied == [s.claim.value])
    && (s.main.Some? ==> s.main.value.since <= s.now)
    && (forall w :: w in s.workers ==> s.workers[w].since <= s.now)
    && (s.replay.LookedUp? || s.replay.Cleared? ==> s.replay.at <= s.now)
    && (s.applied != [] ==>
          && s.occurredAt <= s.applied[0] <= s.now
          && (s.claim.None? ==> s.applied[0] < s.now - retentionMs)
          && (s.main.Some? ==> s.main.value.since <= s.applied[0] + Longest(lags))
          && (forall w :: w in s.workers ==> s.workers[w].since <= s.applied[0] + Longest(lags))
          && (s.replay.LookedUp? || s.replay.Cleared? ==> s.replay.at <= s.applied[0]))
  }

  // The key to the guard: for an event born inside the window, having no claim means it was never applied.
  lemma UnclaimedInsideWindowIsUnapplied(retentionMs: nat, lags: Lags, s: Message)
    requires OnceInv(retentionMs, lags, s) && s.claim.None? && BornInsideWindow(s, retentionMs)
    ensures s.applied == []
  {
  }

  // A claim gone means that every job older than the horizon is out of reach.
  lemma ProcessKeepsOnce(retentionMs: nat, horizonMs: nat, lags: Lags, s: Message, step: Step, s': Message)
    requires horizonMs + Longest(lags) <= retentionMs && OnceInv(retentionMs, lags, s)
    requires step.Process? && Next(retentionMs, s, step, s') && Confined(horizonMs, s, step)
    ensures OnceInv(retentionMs, lags, s')
  {
    if s.claim.None? && s.applied != [] {
      assert false;
    }
  }

  lemma QueueKeepsOnce(retentionMs: nat, lags: Lags, s: Message, step: Step, s': Message)
    requires OnceInv(retentionMs, lags, s) && Next(retentionMs, s, step, s') && Timely(lags, s, step)
    requires step.Publish? || step.Deliver? || step.Settle? || step.Die? || step.Rerun?
    ensures OnceInv(retentionMs, lags, s')
  {
  }

  lemma OutboxKeepsOnce(retentionMs: nat, lags: Lags, s: Message, step: Step, s': Message)
    requires OnceInv(retentionMs, lags, s) && Next(retentionMs, s, step, s')
    requires || step.Pass? || step.Append? || step.MarkPublished? || step.RelayCrash?
             || step.SweepInbox? || step.SweepOutbox?
    ensures OnceInv(retentionMs, lags, s')
  {
  }

  lemma RoutingKeepsOnce(retentionMs: nat, lags: Lags, s: Message, step: Step, s': Message)
    requires OnceInv(retentionMs, lags, s) && Next(retentionMs, s, step, s')
    requires step.AgeOut? || step.RouteRemove? || step.RouteAdd? || step.RouteCrash?
    ensures OnceInv(retentionMs, lags, s')
  {
  }

  lemma ReplayKeepsOnce(retentionMs: nat, lags: Lags, s: Message, step: Step, s': Message)
    requires OnceInv(retentionMs, lags, s) && Next(retentionMs, s, step, s') && Timely(lags, s, step) && Unforced(step)
    requires || step.ReplayRead? || step.ReplayLookup? || step.ReplayClear?
             || step.ReplayAdd? || step.ReplayDrop? || step.ReplayStop?
    ensures OnceInv(retentionMs, lags, s')
  {
    if step.ReplayLookup? {
      UnclaimedInsideWindowIsUnapplied(retentionMs, lags, s);
    }
  }

  lemma NextKeepsOnce(retentionMs: nat, horizonMs: nat, lags: Lags, s: Message, step: Step, s': Message)
    requires horizonMs + Longest(lags) <= retentionMs && OnceInv(retentionMs, lags, s)
    requires Next(retentionMs, s, step, s') && Allows(Timed(horizonMs, lags), s, step)
    ensures OnceInv(retentionMs, lags, s')
  {
    if step.Process? {
      ProcessKeepsOnce(retentionMs, horizonMs, lags, s, step, s');
    } else if step.Publish? || step.Deliver? || step.Settle? || step.Die? || step.Rerun? {
      QueueKeepsOnce(retentionMs, lags, s, step, s');
    } else if step.AgeOut? || step.RouteRemove? || step.RouteAdd? || step.RouteCrash? {
      RoutingKeepsOnce(retentionMs, lags, s, step, s');
    } else if step.Pass? || step.Append? || step.MarkPublished? || step.RelayCrash? || step.SweepInbox?
              || step.SweepOutbox? {
      OutboxKeepsOnce(retentionMs, lags, s, step, s');
    } else {
      ReplayKeepsOnce(retentionMs, lags, s, step, s');
    }
  }

  lemma {:induction false} ChainKeepsOnce(
    retentionMs: nat, horizonMs: nat, lags: Lags, states: seq<Message>, steps: seq<Step>, k: nat)
    requires horizonMs + Longest(lags) <= retentionMs && k < |states|
    requires IsChain(Timed(horizonMs, lags), retentionMs, states, steps) && OnceInv(retentionMs, lags, states[0])
    ensures OnceInv(retentionMs, lags, states[k])
  {
    if k > 0 {
      ChainKeepsOnce(retentionMs, horizonMs, lags, states, steps, k - 1);
      NextKeepsOnce(retentionMs, horizonMs, lags, states[k - 1], steps[k - 1], states[k]);
    }
  }

  /**
   * Exactly-once effect. Through redeliveries, crashes, re-runs, dead-lettering, sweeps of the inbox and
   * unforced replays at any time, the effect of a message commits at most once, if the retention covers the
   * horizon and the longest lag on top of it.
   */
  lemma AppliedAtMostOnce(
    retentionMs: nat, horizonMs: nat, lags: Lags, states: seq<Message>, steps: seq<Step>, k: nat)
    requires horizonMs + Longest(lags) <= retentionMs
    requires IsRun(Timed(horizonMs, lags), retentionMs, states, steps) && k < |states|
    ensures |states[k].applied| <= 1
    ensures states[k].claim.Some? ==> states[k].applied == [states[k].claim.value]
  {
    ChainKeepsOnce(retentionMs, horizonMs, lags, states, steps, k);
  }

  // ---------------------------------------------------------------- no event is lost

  predicate Landed(s: Message) {
    s.main.Some? || s.dead.Some? || s.applied != []
  }

  // In the outbox still to be published, in the queue or its failed set, a dead letter, or applied.
  predicate Somewhere(s: Message) {
    s.row.NotAppended? || s.row.Unpublished? || Landed(s)
  }

  predicate Histories(s: Message) {
    && (s.row.NotAppended? ==> s.main.None? && s.replay.Idle? && s.dead.None? && s.routing.None?)
    && (s.publishing ==> s.row.Unpublished?) && (s.routing.Some? ==> s.dead.None?)
    && (s.main.Some? && s.main.value.state.Completed? ==> s.applied != [])
    && (s.claim.Some? ==> s.applied != []) && (forall w :: w in s.workers && s.workers[w].done ==> s.applied != [])
  }

  // The event is somewhere, and neither a replay nor the relay is about to take it from there.
  predicate Kept(s: Message) {
    s.applied != [] || s.row.NotAppended? ||
    (&& (s.replay.EntryRead? || s.replay.LookedUp? ==> s.dead.Some?)
     && (|| s.main.Some? || (s.row.Unpublished? && !s.publishing)
         || (s.dead.Some? && !(s.replay.Added? && s.dead == Some(s.replay.entry)))))
  }

  predicate LossInv(s: Message) {
    Histories(s) && Kept(s)
  }

  lemma NextKeepsHistories(retentionMs: nat, s: Message, step: Step, s': Message)
    requires Histories(s) && Next(retentionMs, s, step, s')
    ensures Histories(s')
  {
  }

  lemma NextKeepsLoss(retentionMs: nat, s: Message, step: Step, s': Message)
    requires LossInv(s) && Next(retentionMs, s, step, s') && Careful(s, step)
    ensures LossInv(s')
  {
    NextKeepsHistories(retentionMs, s, step, s');
  }

  lemma {:induction false} ChainKeepsLoss(retentionMs: nat, states: seq<Message>, steps: seq<Step>, k: nat)
    requires IsChain(CarefulRun, retentionMs, states, steps) && LossInv(states[0]) && k < |states|
    ensures LossInv(states[k])
  {
    if k > 0 {
      ChainKeepsLoss(retentionMs, states, steps, k - 1);
      NextKeepsLoss(retentionMs, states[k - 1], steps[k - 1], states[k]);
    }
  }

  /**
   * No committed event is lost: at every moment it is unpublished in the outbox, on the main queue or in
   * its failed set, a dead letter, or already applied.
   */
  lemma NoEventIsLost(retentionMs: nat, states: seq<Message>, steps: seq<Step>, k: nat)
    requires IsRun(CarefulRun, retentionMs, states, steps) && k < |states|
    ensures Somewhere(states[k])
  {
    ChainKeepsLoss(retentionMs, states, steps, k);
  }
}
