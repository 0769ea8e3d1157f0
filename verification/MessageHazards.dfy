/**
 * The delivery guarantees are exact: whenever a condition they rest on is missing there is a run in which
 * the guarantee fails, and this module builds it.
 */
module MessageHazards {
  import opened Wrappers
  import opened QueueOptions
  import opened MessageDelivery

  // A run under these rules leads from `base` to `s`.
  ghost predicate Leads(rules: Rules, r: nat, base: Message, s: Message) {
    exists states, steps ::
      IsChain(rules, r, states, steps) && states[0] == base && states[|steps|] == s
  }

  ghost predicate Reachable(rules: Rules, r: nat, s: Message) {
    exists base :: Init(base) && Leads(rules, r, base, s)
  }

  lemma LeadsToItself(rules: Rules, r: nat, s: Message)
    ensures Leads(rules, r, s, s)
  {
    var none: seq<Step> := [];
    assert IsChain(rules, r, [s], none) && [s][0] == s && [s][|none|] == s;
  }

  lemma Go(rules: Rules, r: nat, base: Message, s: Message, step: Step, s': Message)
    requires Leads(rules, r, base, s) && Next(r, s, step, s') && Allows(rules, s, step)
    ensures Leads(rules, r, base, s')
  {
    var states, steps :| IsChain(rules, r, states, steps) && states[0] == base && states[|steps|] == s;
    var states', steps' := states + [s'], steps + [step];
    forall i | 0 <= i < |steps'|
      ensures Next(r, states'[i], steps'[i], states'[i + 1]) && Allows(rules, states'[i], steps'[i])
    {
      if i == |steps| {
        assert states'[i] == s;
      } else {
        assert Next(r, states[i], steps[i], states[i + 1]);
      }
    }
    assert IsChain(rules, r, states', steps') && states'[0] == base && states'[|steps'|] == s';
  }

  // ---------------------------------------------------------------- applied twice

  const FRESH: Message := Message(0, 0, NotAppended, false, None, map[], None, None, Idle, None, [])

  // Applied at instant 0 by the relay's job, which worker 0 has yet to settle; the row is not yet marked.
  const APPLIED: Message :=
    FRESH.(row := Unpublished, publishing := true, main := Some(Job(Pending, 0)), workers := map[0 := Work(0, true)],
           claim := Some(0), applied := [0])

  lemma AppliedOnce(rules: Rules, r: nat)
    requires rules.Timed?
    ensures Leads(rules, r, FRESH, APPLIED)
  {
    LeadsToItself(rules, r, FRESH);
    var s1 := FRESH.(row := Unpublished);
    Go(rules, r, FRESH, FRESH, Append, s1);
    var s2 := s1.(publishing := true, main := Some(Job(Pending, 0)));
    Go(rules, r, FRESH, s1, Publish, s2);
    var s3 := s2.(workers := map[0 := Work(0, false)]);
    Go(rules, r, FRESH, s2, Deliver(0), s3);
    Go(rules, r, FRESH, s3, Process(0, true), APPLIED);
  }

  // The relay marks the row or dies, and the worker's job settles at `ms`.
  function SettledAt(ms: nat, state: JobState, marked: bool): Message {
    FRESH.(now := ms, row := if marked then Published else Unpublished,
           main := Some(Job(state, if state.Completed? then 0 else ms)), claim := Some(0), applied := [0])
  }

  lemma Settles(rules: Rules, r: nat, ms: nat, state: JobState, marked: bool)
    requires rules.Timed? && (state.Completed? || ms <= rules.lags.failureMs)
    ensures Leads(rules, r, FRESH, SettledAt(ms, state, marked))
  {
    AppliedOnce(rules, r);
    var s1 := APPLIED.(publishing := false, row := if marked then Published else Unpublished);
    Go(rules, r, FRESH, APPLIED, if marked then MarkPublished else RelayCrash, s1);
    var s2 := s1.(now := ms);
    Go(rules, r, FRESH, s1, Pass(ms), s2);
    assert s2.workers - {0} == map[];
    Go(rules, r, FRESH, s2, Settle(0, state), SettledAt(ms, state, marked));
  }

  // A pending job, with no claim in its way, is processed like a new one.
  lemma AppliesAgain(rules: Rules, r: nat, base: Message, s: Message) returns (s': Message)
    requires Leads(rules, r, base, s) && rules.Timed? && s.main.Some? && s.main.value.state.Pending?
    requires s.claim.None? && s.now <= s.main.value.since + rules.horizonMs
    ensures Leads(rules, r, base, s') && s'.applied == s.applied + [s.now]
  {
    var w := FreshNat(s.workers.Keys);
    var s1 := s.(workers := s.workers[w := Work(s.main.value.since, false)]);
    Go(rules, r, base, s, Deliver(w), s1);
    s' := Processed(s1, w, true);
    Go(rules, r, base, s1, Process(w, true), s');
  }

  // Time passes until the claim has outlived the retention, the sweep takes it, and the pending job is run.
  lemma SweptAndAppliedAgain(rules: Rules, r: nat, s: Message)
    requires Leads(rules, r, FRESH, s) && rules.Timed? && s.claim == Some(0) && s.applied == [0] && 0 <= s.now
    requires s.main.Some? && s.main.value.state.Pending? && s.now == s.main.value.since
    requires r < s.now + rules.horizonMs
    ensures exists s' :: Leads(rules, r, FRESH, s') && |s'.applied| == 2
  {
    var wait := if r < s.now then 0 else r + 1 - s.now;
    var s1 := s.(now := s.now + wait);
    Go(rules, r, FRESH, s, Pass(wait), s1);
    var s2 := s1.(claim := None);
    Go(rules, r, FRESH, s1, SweepInbox, s2);
    var s' := AppliesAgain(rules, r, FRESH, s2);
  }

  /** A worker commits and dies, the job is failed as stalled, and a person runs it again within the week. */
  lemma FailedJobAppliesTwice(r: nat, horizonMs: nat, lags: Lags)
    requires r < horizonMs + lags.failureMs
    ensures exists s :: Leads(Timed(horizonMs, lags), r, FRESH, s) && |s.applied| == 2
  {
    var rules, ms := Timed(horizonMs, lags), lags.failureMs;
    Settles(rules, r, ms, Failed, true);
    var s1 := SettledAt(ms, Failed, true).(main := Some(Job(Pending, ms)));
    Go(rules, r, FRESH, SettledAt(ms, Failed, true), Rerun, s1);
    SweptAndAppliedAgain(rules, r, s1);
  }

  /** A relay dies between the publish and the mark, and comes back when the job is long gone. */
  lemma LateRelayAppliesTwice(r: nat, horizonMs: nat, lags: Lags)
    requires r < horizonMs + lags.republishMs
    ensures exists s :: Leads(Timed(horizonMs, lags), r, FRESH, s) && |s.applied| == 2
  {
    var rules, ms := Timed(horizonMs, lags), lags.republishMs;
    Settles(rules, r, ms, Completed, false);
    var s1 := SettledAt(ms, Completed, false).(main := None);
    Go(rules, r, FRESH, SettledAt(ms, Completed, false), AgeOut, s1);
    var s2 := s1.(publishing := true, main := Some(Job(Pending, ms)));
    Go(rules, r, FRESH, s1, Publish, s2);
    SweptAndAppliedAgain(rules, r, s2);
  }

  // Failed at instant 0 without effect, dead-lettered, and looked up by a replay.
  const LOOKED_UP: Message :=
    FRESH.(row := Published, main := Some(Job(Failed, 0)), dead := Some(0), replay := LookedUp(0, 0))

  lemma FailsAtOnce(rules: Rules, r: nat)
    requires rules.Timed?
    ensures Leads(rules, r, FRESH, FRESH.(row := Published, main := Some(Job(Failed, 0))))
  {
    LeadsToItself(rules, r, FRESH);
    var s1 := FRESH.(row := Unpublished);
    Go(rules, r, FRESH, FRESH, Append, s1);
    var s2 := s1.(publishing := true, main := Some(Job(Pending, 0)));
    Go(rules, r, FRESH, s1, Publish, s2);
    var s3 := s2.(publishing := false, row := Published);
    Go(rules, r, FRESH, s2, MarkPublished, s3);
    var s4 := s3.(workers := map[0 := Work(0, false)]);
    Go(rules, r, FRESH, s3, Deliver(0), s4);
    assert s4.workers - {0} == map[];
    Go(rules, r, FRESH, s4, Settle(0, Failed), s3.(main := Some(Job(Failed, 0))));
  }

  lemma FailedAndLookedUp(rules: Rules, r: nat)
    requires rules.Timed?
    ensures Leads(rules, r, FRESH, LOOKED_UP)
  {
    FailsAtOnce(rules, r);
    var s1 := FRESH.(row := Published, main := Some(Job(Failed, 0)));
    var s2 := s1.(routing := Some(0));
    Go(rules, r, FRESH, s1, RouteRemove, s2);
    var s3 := s1.(dead := Some(0));
    Go(rules, r, FRESH, s2, RouteAdd, s3);
    var s4 := s3.(replay := EntryRead(0));
    Go(rules, r, FRESH, s3, ReplayRead, s4);
    Go(rules, r, FRESH, s4, ReplayLookup(false), LOOKED_UP);
  }

  // A person runs the failed job again after the lookup, and it completes.
  lemma RerunAfterLookup(rules: Rules, r: nat)
    requires rules.Timed?
    ensures Leads(rules, r, FRESH, LOOKED_UP.(main := Some(Job(Completed, 0)), claim := Some(0), applied := [0]))
  {
    FailedAndLookedUp(rules, r);
    var s1 := LOOKED_UP.(main := Some(Job(Pending, 0)));
    Go(rules, r, FRESH, LOOKED_UP, Rerun, s1);
    var s2 := s1.(workers := map[0 := Work(0, false)]);
    Go(rules, r, FRESH, s1, Deliver(0), s2);
    var s3 := s1.(workers := map[0 := Work(0, true)], claim := Some(0), applied := [0]);
    Go(rules, r, FRESH, s2, Process(0, true), s3);
    assert s3.workers - {0} == map[];
    Go(rules, r, FRESH, s3, Settle(0, Completed),
       LOOKED_UP.(main := Some(Job(Completed, 0)), claim := Some(0), applied := [0]));
  }

  /** A replay looks the claim up, the failed job is run again by hand, and then the replay goes on. */
  lemma SlowReplayAppliesTwice(r: nat, horizonMs: nat, lags: Lags)
    requires r < horizonMs + lags.replayMs
    ensures exists s :: Leads(Timed(horizonMs, lags), r, FRESH, s) && |s.applied| == 2
  {
    var rules, ms := Timed(horizonMs, lags), lags.replayMs;
    RerunAfterLookup(rules, r);
    var s0 := LOOKED_UP.(main := Some(Job(Completed, 0)), claim := Some(0), applied := [0]);
    var s1 := s0.(main := None, replay := Cleared(0, 0));
    Go(rules, r, FRESH, s0, ReplayClear, s1);
    var s2 := s1.(now := ms);
    Go(rules, r, FRESH, s1, Pass(ms), s2);
    var s3 := s2.(main := Some(Job(Pending, ms)), replay := Added(0));
    Go(rules, r, FRESH, s2, ReplayAdd, s3);
    SweptAndAppliedAgain(rules, r, s3);
  }

  /**
   * The retention that exactly-once needs, exactly: the horizon and the longest lag on top of it. With less
   * there is a run, within the horizon and the lags, that applies the effect twice.
   */
  lemma AppliedTwiceIffRetentionIsShort(r: nat, horizonMs: nat, lags: Lags)
    ensures (exists s :: Reachable(Timed(horizonMs, lags), r, s) && 2 <= |s.applied|) <==> r < horizonMs + Longest(lags)
  {
    var rules := Timed(horizonMs, lags);
    if r < horizonMs + Longest(lags) {
      if Longest(lags) == lags.republishMs {
        LateRelayAppliesTwice(r, horizonMs, lags);
      } else if Longest(lags) == lags.failureMs {
        FailedJobAppliesTwice(r, horizonMs, lags);
      } else {
        SlowReplayAppliesTwice(r, horizonMs, lags);
      }
      var s :| Leads(rules, r, FRESH, s) && |s.applied| == 2;
      assert Reachable(rules, r, s) && 2 <= |s.applied|;
    } else {
      forall s | Reachable(rules, r, s) ensures |s.applied| <= 1 {
        var base :| Init(base) && Leads(rules, r, base, s);
        var states, steps :| IsChain(rules, r, states, steps) && states[0] == base && states[|steps|] == s;
        AppliedAtMostOnce(r, horizonMs, lags, states, steps, |steps|);
      }
    }
  }

  /**
   * What the boot check is worth. It accepts a retention equal to the failed jobs' own; that covers the
   * horizon and no lag at all, so with any lag its minimum lets an effect be applied twice.
   */
  lemma BootMinimumLeavesNoRoom(lags: Lags)
    requires 0 < Longest(lags)
    ensures ClearsRedeliveryHorizon(MIN_INBOX_RETENTION_DAYS)
    ensures exists s :: Reachable(Timed(HorizonMs(), lags), MIN_INBOX_RETENTION_DAYS * DAY_MS, s) && 2 <= |s.applied|
  {
    BootCheck(MIN_INBOX_RETENTION_DAYS);
    AppliedTwiceIffRetentionIsShort(MIN_INBOX_RETENTION_DAYS * DAY_MS, HorizonMs(), lags);
  }

  // Each day above the minimum is a day of lag.
  lemma DaysAboveTheMinimumAreRoom(days: nat, lags: Lags)
    requires ClearsRedeliveryHorizon(days)
    ensures (exists s :: Reachable(Timed(HorizonMs(), lags), days * DAY_MS, s) && 2 <= |s.applied|)
            <==> (days - MIN_INBOX_RETENTION_DAYS) * DAY_MS < Longest(lags)
  {
    BootCheck(days);
    AppliedTwiceIffRetentionIsShort(days * DAY_MS, HorizonMs(), lags);
  }

  // ---------------------------------------------------------------- forcing a replay

  /**
   * Force overrides the age, and is safe exactly when the effect was never applied: if it was, the run can
   * go on, unforced and within every bound, to a second application, and if not, no run can.
   */
  lemma ForceIsSafeIffNeverApplied(r: nat, horizonMs: nat, lags: Lags, s: Message, s': Message)
    requires horizonMs + Longest(lags) <= r && OnceInv(r, lags, s) && Next(r, s, ReplayLookup(true), s')
    ensures (forall t :: Leads(Timed(horizonMs, lags), r, s', t) ==> |t.applied| <= 1) <==> s.applied == []
  {
    var rules := Timed(horizonMs, lags);
    if s.applied == [] {
      forall t | Leads(rules, r, s', t) ensures |t.applied| <= 1 {
        var states, steps :| IsChain(rules, r, states, steps) && states[0] == s' && states[|steps|] == t;
        ChainKeepsOnce(r, horizonMs, lags, states, steps, |steps|);
      }
    } else {
      LeadsToItself(rules, r, s');
      var s1 := s'.(main := None, replay := Cleared(s'.replay.entry, s'.replay.at));
      Go(rules, r, s', s', ReplayClear, s1);
      var s2 := s1.(main := Some(Job(Pending, s.now)), replay := Added(s'.replay.entry));
      Go(rules, r, s', s1, ReplayAdd, s2);
      var t := AppliesAgain(rules, r, s', s2);
      assert |t.applied| == 2;
    }
  }

  // Such a message gets there within every bound: it fails after its commit, is dead-lettered, and loses
  // its claim to the sweep.
  lemma DeadThoughApplied(rules: Rules, r: nat) returns (s: Message)
    requires rules.Timed?
    ensures Leads(rules, r, FRESH, s) && s == SettledAt(0, Failed, true).(dead := Some(0))
  {
    Settles(rules, r, 0, Failed, true);
    s := SettledAt(0, Failed, true);
    var s1 := s.(routing := Some(0));
    Go(rules, r, FRESH, s, RouteRemove, s1);
    s := s.(dead := Some(0));
    Go(rules, r, FRESH, s1, RouteAdd, s);
  }

  lemma ForgottenButRead(rules: Rules, r: nat) returns (s: Message)
    requires rules.Timed?
    ensures Leads(rules, r, FRESH, s) && s.replay == EntryRead(0) && s.claim.None? && s.applied == [0]
  {
    s := DeadThoughApplied(rules, r);
    var s1 := s.(now := r + 1);
    Go(rules, r, FRESH, s, Pass(r + 1), s1);
    var s2 := s1.(claim := None);
    Go(rules, r, FRESH, s1, SweepInbox, s2);
    s := s2.(replay := EntryRead(0));
    Go(rules, r, FRESH, s2, ReplayRead, s);
  }

  lemma ForcedReplayAppliesTwice(r: nat, horizonMs: nat, lags: Lags)
    requires horizonMs + Longest(lags) <= r
    ensures exists s, s', t ::
              && Reachable(Timed(horizonMs, lags), r, s) && Next(r, s, ReplayLookup(true), s')
              && Leads(Timed(horizonMs, lags), r, s', t) && 2 <= |t.applied|
  {
    var rules := Timed(horizonMs, lags);
    var s := ForgottenButRead(rules, r);
    assert Reachable(rules, r, s);
    var states, steps :| IsChain(rules, r, states, steps) && states[0] == FRESH && states[|steps|] == s;
    ChainKeepsOnce(r, horizonMs, lags, states, steps, |steps|);
    var s' := s.(replay := LookedUp(0, s.now));
    assert Next(r, s, ReplayLookup(true), s');
    ForceIsSafeIffNeverApplied(r, horizonMs, lags, s, s');
    var t :| Leads(rules, r, s', t) && |t.applied| > 1;
  }

  // ---------------------------------------------------------------- losing an event

  ghost predicate MayLose(r: nat, s: Message) {
    exists t :: Leads(CarefulRun, r, s, t) && !Somewhere(t)
  }

  // A publish in progress is marked, and so the outbox lets go of the event.
  lemma LetsGo(r: nat, base: Message, s: Message) returns (t: Message)
    requires Leads(CarefulRun, r, base, s) && !s.row.NotAppended? && (s.publishing ==> s.row.Unpublished?)
    requires s.row.Unpublished? ==> s.publishing || s.main.Some?
    ensures Leads(CarefulRun, r, base, t) && t == s.(row := t.row, publishing := t.publishing)
    ensures t.row.Published? || t.row.Swept?
  {
    t := s;
    if t.row.Unpublished? {
      if !t.publishing {
        t := s.(publishing := true);
        Go(CarefulRun, r, base, s, Publish, t);
      }
      var marked := t.(publishing := false, row := Published);
      Go(CarefulRun, r, base, t, MarkPublished, marked);
      t := marked;
    }
  }

  lemma CarelessAgeOutLoses(r: nat, s: Message, s': Message)
    requires LossInv(s) && Next(r, s, AgeOut, s') && !Careful(s, AgeOut)
    ensures MayLose(r, s')
  {
    LeadsToItself(CarefulRun, r, s');
    var t := LetsGo(r, s', s');
    if t.dead.Some? {
      var dropped := t.(replay := Idle, dead := None);
      Go(CarefulRun, r, s', t, ReplayDrop, dropped);
      assert !Somewhere(dropped);
    } else {
      assert !Somewhere(t);
    }
  }

  lemma CarelessRouteLoses(r: nat, s: Message, s': Message)
    requires LossInv(s) && Next(r, s, RouteRemove, s') && !Careful(s, RouteRemove)
    ensures MayLose(r, s')
  {
    LeadsToItself(CarefulRun, r, s');
    var t := LetsGo(r, s', s');
    if t.replay.EntryRead? {
      var looked := t.(replay := LookedUp(t.replay.entry, t.now));
      Go(CarefulRun, r, s', t, ReplayLookup(true), looked);
      t := looked;
    }
    var cleared := t.(main := None, replay := Cleared(t.replay.entry, t.replay.at));
    Go(CarefulRun, r, s', t, ReplayClear, cleared);
    assert !Somewhere(cleared);
  }

  /**
   * The care that keeps every event is exact: a step out of a kept state is careful if and only if no
   * careful run from there on, with crashes anywhere, has the event nowhere.
   */
  lemma CarefulIffNeverLost(r: nat, s: Message, step: Step, s': Message)
    requires LossInv(s) && Next(r, s, step, s')
    ensures Careful(s, step) <==> !MayLose(r, s')
  {
    if Careful(s, step) {
      NextKeepsLoss(r, s, step, s');
      forall t | Leads(CarefulRun, r, s', t) ensures Somewhere(t) {
        var states, steps :| IsChain(CarefulRun, r, states, steps) && states[0] == s' && states[|steps|] == t;
        ChainKeepsLoss(r, states, steps, |steps|);
      }
    } else if step.AgeOut? {
      CarelessAgeOutLoses(r, s, s');
    } else {
      CarelessRouteLoses(r, s, s');
    }
  }

  /** A replay and the router moving the same message at once lose it, from a state that runs do reach. */
  lemma ReplayWhileRoutingLoses(r: nat, horizonMs: nat, lags: Lags)
    ensures exists s, s' :: Reachable(Timed(horizonMs, lags), r, s) && Next(r, s, RouteRemove, s') && MayLose(r, s')
  {
    var rules := Timed(horizonMs, lags);
    FailedAndLookedUp(rules, r);
    var s' := LOOKED_UP.(routing := Some(0), dead := None);
    assert Reachable(rules, r, LOOKED_UP) && Next(r, LOOKED_UP, RouteRemove, s');
    CarefulIffNeverLost(r, LOOKED_UP, RouteRemove, s');
  }
}
