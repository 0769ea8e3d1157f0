/** The operator's replay of dead letters: a paging loop over a queue that shrinks under it. */
module DeadLetterReplay {
  import opened Wrappers
  import MD = MessageDelivery

  // `slot` is the job id, unique in the queue; a well-formed entry's slot is derived from its message id.
  datatype DeadLetter = DeadLetter(slot: nat, wellFormed: bool, occurredAt: Option<int>, failedAt: int)

  datatype Lookup = Unreachable | NoClaim | ClaimedAt(ms: int)

  // What the world answers while one entry is handled.
  datatype Weather = Weather(lookup: Lookup, nowMs: int, held: bool, addFails: bool)

  datatype Options = Options(dryRun: bool, force: bool, retentionMs: int)

  datatype Reason = Malformed | AlreadyApplied | TooOld | StillHeld | Threw

  datatype Outcome = Replayed | Previewed(forced: bool) | Skipped(reason: Reason)

  predicate IsOld(e: DeadLetter, w: Weather, o: Options) {
    e.occurredAt.None? || w.nowMs - e.occurredAt.value > o.retentionMs
  }

  // What is to become of one entry.
  function Judge(e: DeadLetter, w: Weather, o: Options): Outcome {
    if !e.wellFormed then Skipped(Malformed)
    else if w.lookup.Unreachable? then Skipped(Threw)
    else if w.lookup.ClaimedAt? then Skipped(AlreadyApplied)
    else if IsOld(e, w, o) && !o.force then Skipped(TooOld)
    else if o.dryRun then Previewed(IsOld(e, w, o) && o.force)
    else if w.held then Skipped(StillHeld)
    else if w.addFails then Skipped(Threw)
    else Replayed
  }

  // The entry says when its event occurred, and that was no longer ago than the inbox keeps claims.
  predicate OccurredWithin(e: DeadLetter, nowMs: int, retentionMs: int) {
    e.occurredAt.Some? && nowMs - retentionMs <= e.occurredAt.value
  }

  // The three branches: force never gets past a claim, and only force gets past the window.
  lemma GuardBranches(e: DeadLetter, w: Weather, o: Options)
    ensures var may := e.wellFormed && w.lookup.NoClaim? && (OccurredWithin(e, w.nowMs, o.retentionMs) || o.force);
            && (Judge(e, w, o).Previewed? <==> may && o.dryRun)
            && (Judge(e, w, o).Replayed? <==> may && !o.dryRun && !w.held && !w.addFails)
            && (Judge(e, w, o) == Skipped(StillHeld) <==> may && !o.dryRun && w.held)
            && (Judge(e, w, o) == Skipped(Threw) <==>
                  || (e.wellFormed && w.lookup.Unreachable?)
                  || (may && !o.dryRun && !w.held && w.addFails))
    ensures Judge(e, w, o) == Skipped(Malformed) <==> !e.wellFormed
    ensures Judge(e, w, o) == Skipped(AlreadyApplied) <==> e.wellFormed && w.lookup.ClaimedAt?
    ensures Judge(e, w, o) == Skipped(TooOld) <==>
              e.wellFormed && w.lookup.NoClaim? && !OccurredWithin(e, w.nowMs, o.retentionMs) && !o.force
    ensures Judge(e, w, o).Previewed? ==> (Judge(e, w, o).forced <==> !OccurredWithin(e, w.nowMs, o.retentionMs))
    ensures Judge(e, w, o) != Judge(e, w, o.(force := !o.force)) ==>
              w.lookup.NoClaim? && !OccurredWithin(e, w.nowMs, o.retentionMs)
  {
  }

  // The entry and the world are those of a message: its event's birth, its claim, the time.
  predicate Sees(e: DeadLetter, w: Weather, s: MD.Message) {
    && e.wellFormed && e.occurredAt == Some(s.occurredAt) && w.nowMs == s.now
    && w.lookup == if s.claim.Some? then ClaimedAt(s.claim.value) else NoClaim
  }

  // The guard is the lookup step of the message's own history.
  lemma GuardIsTheLookup(e: DeadLetter, w: Weather, o: Options, s: MD.Message, s': MD.Message)
    requires Sees(e, w, s) && s.replay.EntryRead? && s' == s.(replay := MD.LookedUp(s.replay.entry, s.now))
    ensures Judge(e, w, o.(dryRun := true)).Previewed? <==> MD.Next(o.retentionMs, s, MD.ReplayLookup(o.force), s')
    ensures Actionable(Judge(e, w, o)) && !o.force ==> MD.BornInsideWindow(s, o.retentionMs)
  {
  }

  /** At any moment of a run, what an unforced replay puts back, or would, was never applied. */
  lemma UnforcedReplayIsUnapplied(e: DeadLetter, w: Weather, o: Options, horizonMs: nat, lags: MD.Lags,
                                  states: seq<MD.Message>, steps: seq<MD.Step>, k: nat)
    requires horizonMs + MD.Longest(lags) <= o.retentionMs && k < |states|
    requires MD.IsRun(MD.Timed(horizonMs, lags), o.retentionMs, states, steps) && Sees(e, w, states[k])
    requires !o.force && Actionable(Judge(e, w, o))
    ensures states[k].applied == []
  {
    MD.ChainKeepsOnce(o.retentionMs, horizonMs, lags, states, steps, k);
    MD.UnclaimedInsideWindowIsUnapplied(o.retentionMs, lags, states[k]);
  }

  predicate Actionable(r: Outcome) {
    r.Replayed? || r.Previewed?
  }

  // ---------------------------------------------------------------- the simple form: one scan, left to right

  ghost function Handled(entries: seq<DeadLetter>, weather: nat -> Weather, o: Options, limit: int): nat
    ensures Handled(entries, weather, o, limit) <= |entries|
  {
    if limit <= 0 || entries == [] then 0
    else
      var r := Judge(entries[0], weather(entries[0].slot), o);
      1 + Handled(entries[1..], weather, o, if Actionable(r) then limit - 1 else limit)
  }

  ghost function Outcomes(entries: seq<DeadLetter>, weather: nat -> Weather, o: Options): (r: seq<Outcome>)
    ensures |r| == |entries|
  {
    seq(|entries|, i requires 0 <= i < |entries| => Judge(entries[i], weather(entries[i].slot), o))
  }

  ghost function Kept(entries: seq<DeadLetter>, weather: nat -> Weather, o: Options): seq<DeadLetter> {
    if entries == [] then []
    else
      var last := entries[|entries| - 1];
      Kept(entries[..|entries| - 1], weather, o) + if Judge(last, weather(last.slot), o).Replayed? then [] else [last]
  }

  ghost function Actions(entries: seq<DeadLetter>, weather: nat -> Weather, o: Options): nat {
    if entries == [] then 0
    else
      var last := entries[|entries| - 1];
      Actions(entries[..|entries| - 1], weather, o) + if Actionable(Judge(last, weather(last.slot), o)) then 1 else 0
  }

  predicate DistinctSlots(entries: seq<DeadLetter>) {
    forall i, j :: 0 <= i < j < |entries| ==> entries[i].slot != entries[j].slot
  }

  lemma {:induction false} KeptAppend(done: seq<DeadLetter>, e: DeadLetter, weather: nat -> Weather, o: Options)
    ensures var r := Judge(e, weather(e.slot), o);
            && Kept(done + [e], weather, o) == Kept(done, weather, o) + (if r.Replayed? then [] else [e])
            && Actions(done + [e], weather, o) == Actions(done, weather, o) + (if Actionable(r) then 1 else 0)
            && Outcomes(done + [e], weather, o) == Outcomes(done, weather, o) + [r]
  {
    var all := done + [e];
    assert all[..|all| - 1] == done && all[|all| - 1] == e;
  }

  lemma {:induction false} KeptIn(done: seq<DeadLetter>, weather: nat -> Weather, o: Options)
    ensures forall e :: e in Kept(done, weather, o) ==> e in done
  {
    if done != [] {
      KeptIn(done[..|done| - 1], weather, o);
    }
  }

  lemma OneMoreScanned(was: seq<DeadLetter>, n: nat, weather: nat -> Weather, o: Options)
    requires n < |was|
    ensures var r, kept := Judge(was[n], weather(was[n].slot), o), Kept(was[..n], weather, o);
            && Kept(was[..n + 1], weather, o) == (if r.Replayed? then kept else kept + [was[n]])
            && Actions(was[..n + 1], weather, o) == Actions(was[..n], weather, o) + (if Actionable(r) then 1 else 0)
            && Outcomes(was[..n + 1], weather, o) == Outcomes(was[..n], weather, o) + [r]
  {
    KeptAppend(was[..n], was[n], weather, o);
    assert was[..n + 1] == was[..n] + [was[n]];
    assert Kept(was[..n], weather, o) + [] == Kept(was[..n], weather, o);
  }

  // Those replayed of the first `n` entries are jobs of the main queue again.
  ghost predicate Requeued(main: map<nat, bool>, was: seq<DeadLetter>, n: nat, weather: nat -> Weather, o: Options)
    requires n <= |was|
  {
    forall i :: 0 <= i < n && Judge(was[i], weather(was[i].slot), o).Replayed? ==>
                  was[i].slot in main && main[was[i].slot]
  }

  lemma OneMoreRequeued(before: map<nat, bool>, after: map<nat, bool>, was: seq<DeadLetter>, n: nat,
                        weather: nat -> Weather, o: Options)
    requires n < |was| && DistinctSlots(was) && Requeued(before, was, n, weather, o)
    requires var slot := was[n].slot;
             if Judge(was[n], weather(slot), o).Replayed? then after == before[slot := true]
             else after == before || after == before - {slot}
    ensures Requeued(after, was, n + 1, weather, o)
  {
  }

  // The entry at the cursor leaves the queue, or is stepped over.
  lemma AtCursor(kept: seq<DeadLetter>, was: seq<DeadLetter>, n: nat)
    requires n < |was|
    ensures var all := kept + was[n..];
            && all[|kept|] == was[n]
            && all[..|kept|] + all[|kept| + 1..] == kept + was[n + 1..]
            && all == (kept + [was[n]]) + was[n + 1..]
  {
    assert was[n..] == [was[n]] + was[n + 1..];
  }

  lemma ScansOn(before: seq<DeadLetter>, after: seq<DeadLetter>, was: seq<DeadLetter>, n: nat,
                weather: nat -> Weather, o: Options)
    requires n < |was| && before == Kept(was[..n], weather, o) + was[n..]
    requires var at := |Kept(was[..n], weather, o)|;
             after == if Judge(was[n], weather(was[n].slot), o).Replayed? then before[..at] + before[at + 1..]
                      else before
    ensures after == Kept(was[..n + 1], weather, o) + was[n + 1..]
  {
    AtCursor(Kept(was[..n], weather, o), was, n);
    OneMoreScanned(was, n, weather, o);
  }

  // Where the scan stops: at the end of the queue, or right at the entry that makes the limit.
  lemma {:induction false} ActionsPrepend(e: DeadLetter, rest: seq<DeadLetter>, weather: nat -> Weather, o: Options)
    ensures Actions([e] + rest, weather, o)
            == Actions(rest, weather, o) + if Actionable(Judge(e, weather(e.slot), o)) then 1 else 0
  {
    if rest == [] {
      assert [e] + rest == [] + [e];
      KeptAppend([], e, weather, o);
    } else {
      var n := |rest| - 1;
      ActionsPrepend(e, rest[..n], weather, o);
      assert [e] + rest == ([e] + rest[..n]) + [rest[n]] && rest == rest[..n] + [rest[n]];
      KeptAppend([e] + rest[..n], rest[n], weather, o);
      KeptAppend(rest[..n], rest[n], weather, o);
    }
  }

  lemma {:induction false} HandledIs(entries: seq<DeadLetter>, n: nat, weather: nat -> Weather, o: Options, limit: int)
    requires n <= |entries| && Actions(entries[..n], weather, o) <= limit
    requires forall m :: 0 <= m < n ==> Actions(entries[..m], weather, o) < limit
    requires n == |entries| || Actions(entries[..n], weather, o) >= limit
    ensures Handled(entries, weather, o, limit) == n
    decreases |entries|
  {
    if n > 0 {
      assert entries[..0] == [] && Actions(entries[..0], weather, o) < limit;
      var rest := entries[1..];
      var acts := if Actionable(Judge(entries[0], weather(entries[0].slot), o)) then 1 else 0;
      forall m | 1 <= m <= |entries|
        ensures Actions(entries[..m], weather, o) == Actions(rest[..m - 1], weather, o) + acts
      {
        assert entries[..m] == [entries[0]] + rest[..m - 1];
        ActionsPrepend(entries[0], rest[..m - 1], weather, o);
      }
      forall m | 0 <= m < n - 1 ensures Actions(rest[..m], weather, o) < limit - acts {
        assert Actions(entries[..m + 1], weather, o) < limit;
      }
      HandledIs(rest, n - 1, weather, o, limit - acts);
    } else {
      assert entries[..0] == [];
    }
  }

  // ---------------------------------------------------------------- the paging loop

  // The loop's variables: what it did, the slots it has seen, and how many entries it left in the queue.
  datatype Progress = Progress(outcomes: seq<Outcome>, seen: set<nat>, cursor: nat, actionable: nat)

  datatype Summary = Summary(replayed: nat, skipped: nat, outcomes: seq<Outcome>)

  function CountReplayed(outcomes: seq<Outcome>): (n: nat)
    ensures n <= |outcomes|
  {
    if outcomes == [] then 0
    else CountReplayed(outcomes[..|outcomes| - 1]) + if outcomes[|outcomes| - 1].Replayed? then 1 else 0
  }

  // Every entry handled is either kept or counted as replayed.
  lemma {:induction false} KeptOrReplayed(done: seq<DeadLetter>, weather: nat -> Weather, o: Options)
    ensures |Kept(done, weather, o)| + CountReplayed(Outcomes(done, weather, o)) == |done|
  {
    if done != [] {
      var rest := done[..|done| - 1];
      KeptOrReplayed(rest, weather, o);
      assert Outcomes(done, weather, o)[..|done| - 1] == Outcomes(rest, weather, o);
    }
  }

  class DeadLetterQueue {
    var entries: seq<DeadLetter>
    // The main queue's jobs: whether each was put there by a replay.
    var main: map<nat, bool>
    const weather: nat -> Weather

    constructor (entries: seq<DeadLetter>, main: map<nat, bool>, weather: nat -> Weather)
      ensures this.entries == entries && this.main == main && this.weather == weather
    {
      this.entries, this.main, this.weather := entries, main, weather;
    }

    // The loop has scanned the first `n` entries: what it kept of them sits ahead of the cursor, in order.
    ghost predicate Scanned(was: seq<DeadLetter>, n: nat, o: Options, limit: int, p: Progress)
      reads this
    {
      && n <= |was| && DistinctSlots(was)
      && p.cursor == |Kept(was[..n], weather, o)| && entries == Kept(was[..n], weather, o) + was[n..]
      && p.outcomes == Outcomes(was[..n], weather, o) && p.actionable == Actions(was[..n], weather, o)
      && (forall slot :: slot in p.seen ==> exists i :: 0 <= i < n && was[i].slot == slot)
      && (n > 0 ==> p.actionable <= limit) && (forall m :: 0 <= m < n ==> Actions(was[..m], weather, o) < limit)
    }

    method GetJobs(start: nat, count: nat) returns (page: seq<DeadLetter>)
      ensures page == if start <= |entries|
              then entries[start..][..if count < |entries| - start then count else |entries| - start] else []
    {
      if start >= |entries| {
        return [];
      }
      var n := if count < |entries| - start then count else |entries| - start;
      return entries[start..][..n];
    }

    // Removes the entry unless a fresher failure has replaced it.
    method Remove(at: nat, failedAt: int)
      requires at < |entries|
      modifies this`entries
      ensures entries
              == if old(entries)[at].failedAt == failedAt then old(entries)[..at] + old(entries)[at + 1..]
                 else old(entries)
    {
      if entries[at].failedAt == failedAt {
        entries := entries[..at] + entries[at + 1..];
      }
    }

    // One entry, which is the one at `at` in the queue. The new job is on the main queue before the entry goes.
    method ReplayOne(e: DeadLetter, at: nat, o: Options) returns (r: Outcome)
      requires at < |entries| && entries[at] == e
      modifies this
      ensures r == Judge(e, weather(e.slot), o)
      // Without force nothing goes back, or would, whose event occurred before the inbox's retention began.
      ensures Actionable(r) && !o.force ==> OccurredWithin(e, weather(e.slot).nowMs, o.retentionMs)
      ensures r == Skipped(TooOld) ==> !o.force && !OccurredWithin(e, weather(e.slot).nowMs, o.retentionMs)
      ensures entries == if r.Replayed? then old(entries)[..at] + old(entries)[at + 1..] else old(entries)
      ensures r.Replayed? ==> main == old(main)[e.slot := true]
      ensures !r.Replayed? ==> main == old(main) || (r == Skipped(Threw) && main == old(main) - {e.slot})
    {
      var w := weather(e.slot);
      if !e.wellFormed {
        return Skipped(Malformed);
      }
      if w.lookup.Unreachable? {
        return Skipped(Threw);
      }
      if w.lookup.ClaimedAt? {
        return Skipped(AlreadyApplied);
      }
      var old_ := IsOld(e, w, o);
      if old_ && !o.force {
        return Skipped(TooOld);
      }
      if o.dryRun {
        return Previewed(o.force && old_);
      }
      if w.held {
        return Skipped(StillHeld);
      }
      main := main - {e.slot};
      if w.addFails {
        return Skipped(Threw);
      }
      main := main[e.slot := true];
      Remove(at, e.failedAt);
      return Replayed;
    }

    // Entries not handled yet start right at the cursor.
    method NextPage(p: Progress, limit: int, o: Options, ghost was: seq<DeadLetter>, ghost n: nat)
      returns (page: seq<DeadLetter>)
      requires Scanned(was, n, o, limit, p) && 0 < limit
      ensures n + |page| <= |was| && (|page| < limit ==> n + |page| == |was|)
      ensures forall i :: 0 <= i < |page| ==> page[i] == was[n + i]
    {
      page := GetJobs(p.cursor, limit);
      assert entries[p.cursor..] == was[n..];
    }

    // Replays or keeps the entry at the cursor; what is kept of the scan so far sits ahead of the next one.
    method ReplayNext(job: DeadLetter, o: Options, limit: int, p: Progress, ghost was: seq<DeadLetter>, ghost n: nat)
      returns (r: Outcome)
      requires Scanned(was, n, o, limit, p) && n < |was| && job == was[n]
      modifies this
      ensures r == Judge(job, weather(job.slot), o)
      ensures entries == Kept(was[..n + 1], weather, o) + was[n + 1..]
      ensures |Kept(was[..n + 1], weather, o)| == p.cursor + if r.Replayed? then 0 else 1
      ensures Outcomes(was[..n + 1], weather, o) == p.outcomes + [r]
      ensures Actions(was[..n + 1], weather, o) == p.actionable + if Actionable(r) then 1 else 0
      ensures if r.Replayed? then main == old(main)[job.slot := true]
              else main == old(main) || main == old(main) - {job.slot}
    {
      r := ReplayOne(job, p.cursor, o);
      OneMoreScanned(was, n, weather, o);
      ScansOn(old(entries), entries, was, n, weather, o);
    }

    // The next entry of the page. One seen before would be passed over.
    method Handle(job: DeadLetter, o: Options, limit: int, p: Progress, ghost was: seq<DeadLetter>, ghost n: nat)
      returns (p': Progress)
      requires Scanned(was, n, o, limit, p) && p.actionable < limit && n < |was| && job == was[n]
      requires Requeued(main, was, n, weather, o)
      modifies this
      ensures Requeued(main, was, n + 1, weather, o)
      ensures Scanned(was, n + 1, o, limit, p') && |p'.outcomes| == |p.outcomes| + 1
    {
      p' := p;
      if job.slot !in p.seen {
        var outcome := ReplayNext(job, o, limit, p, was, n);
        OneMoreRequeued(old(main), main, was, n, weather, o);
        p' := p.(seen := p.seen + {job.slot}, outcomes := p.outcomes + [outcome]);
        if outcome.Replayed? {
          p' := p'.(actionable := p.actionable + 1);
        } else {
          p' := p'.(cursor := p.cursor + 1);
          if outcome.Previewed? {
            p' := p'.(actionable := p.actionable + 1);
          }
        }
      }
    }

    method HandlePage(
      page: seq<DeadLetter>, o: Options, limit: int, p: Progress, ghost was: seq<DeadLetter>, ghost n: nat)
      returns (p': Progress, ghost n': nat)
      requires Scanned(was, n, o, limit, p) && p.actionable < limit && n + |page| <= |was|
      requires Requeued(main, was, n, weather, o)
      requires forall i :: 0 <= i < |page| ==> page[i] == was[n + i]
      modifies this
      ensures n' <= |was| && Requeued(main, was, n', weather, o)
      ensures Scanned(was, n', o, limit, p') && n' - n == |p'.outcomes| - |p.outcomes|
      ensures n' == n + |page| || (n' > n && p'.actionable >= limit)
    {
      p', n' := p, n;
      var i := 0;
      while i < |page| && p'.actionable < limit
        invariant 0 <= i <= |page| && n' == n + i && |p'.outcomes| == |p.outcomes| + i
        invariant Scanned(was, n', o, limit, p') && Requeued(main, was, n', weather, o)
      {
        p' := Handle(page[i], o, limit, p', was, n');
        n', i := n' + 1, i + 1;
      }
    }

    lemma ScanStops(was: seq<DeadLetter>, n: nat, o: Options, limit: int, p: Progress)
      requires Scanned(was, n, o, limit, p) && (n == |was| || p.actionable >= limit) && (limit <= 0 ==> n == 0)
      ensures Handled(was, weather, o, limit) == n
    {
      assert was[..0] == [];
      if limit > 0 {
        HandledIs(was, n, weather, o, limit);
      }
    }

    /**
     * Pages of `limit`, a cursor over what is left behind, and entries leaving the queue on the way amount
     * to one scan from the left: each entry is handled once, the scan stops right at `limit` actionable
     * ones, and exactly the replayed entries are gone.
     */
    method ReplayDeadLetters(limit: int, o: Options) returns (s: Summary)
      requires DistinctSlots(entries)
      modifies this
      ensures var n := Handled(old(entries), weather, o, limit);
              && s.outcomes == Outcomes(old(entries)[..n], weather, o)
              && entries == Kept(old(entries)[..n], weather, o) + old(entries)[n..]
              && Requeued(main, old(entries), n, weather, o)
      ensures s.replayed + s.skipped == |s.outcomes| && |entries| == |old(entries)| - s.replayed
    {
      ghost var was := entries;
      ghost var n: nat := 0;
      assert was[..0] == [];
      var p := Progress([], {}, 0, 0);
      var more := true;
      while more && p.actionable < limit
        invariant Scanned(was, n, o, limit, p) && (limit <= 0 ==> n == 0) && Requeued(main, was, n, weather, o)
        invariant !more ==> n == |was| || p.actionable >= limit
        decreases more, |was| - n
      {
        var page := NextPage(p, limit, o, was, n);
        var handledBefore := |p.outcomes|;
        p, n := HandlePage(page, o, limit, p, was, n);
        if |page| < limit || |p.outcomes| == handledBefore {
          more := false;
        }
      }
      ScanStops(was, n, o, limit, p);
      KeptOrReplayed(was[..n], weather, o);
      var replayed := CountReplayed(p.outcomes);
      return Summary(replayed, |p.outcomes| - replayed, p.outcomes);
    }
  }
}
