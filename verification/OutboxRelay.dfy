/** One tick of the relay: which rows it takes, which it publishes and marks, and which it charges. */
module OutboxRelays {

  const MAX_REFUSALS_PER_TICK: nat := 3

  datatype OutboxRow = OutboxRow(id: nat, routed: bool, published: bool, attempts: nat)

  // The positions a tick published, was refused, and had no route for.
  datatype Tick = Tick(sent: set<nat>, refused: set<nat>, unrouted: set<nat>)

  predicate Eligible(rows: seq<OutboxRow>, locked: nat -> bool, routed: bool, i: nat)
    requires i < |rows|
  {
    rows[i].routed == routed && !rows[i].published && !locked(rows[i].id)
  }

  // The first `limit` eligible positions, in order.
  ghost predicate Selects(rows: seq<OutboxRow>, locked: nat -> bool, routed: bool, limit: nat, picked: seq<nat>) {
    && |picked| <= limit
    && (forall k :: 0 <= k < |picked| ==> picked[k] < |rows| && Eligible(rows, locked, routed, picked[k]))
    && (forall j, k :: 0 <= j < k < |picked| ==> picked[j] < picked[k])
    && (forall i :: 0 <= i < |rows| && Eligible(rows, locked, routed, i) ==>
          i in picked || (|picked| == limit && forall k :: 0 <= k < |picked| ==> picked[k] < i))
  }

  function Charged(row: OutboxRow): OutboxRow {
    row.(attempts := row.attempts + 1)
  }

  // What a tick makes of a row: marked exactly if it was published, charged if it was at fault itself. A
  // refusal is the row's fault only when the queue took something else in the same tick.
  function RowAfter(row: OutboxRow, i: nat, t: Tick): OutboxRow {
    if i in t.sent then row.(published := true)
    else if i in t.unrouted || (i in t.refused && t.sent != {}) then Charged(row)
    else row
  }

  function RowsAfter(rows: seq<OutboxRow>, t: Tick): (r: seq<OutboxRow>)
    ensures |r| == |rows|
  {
    seq(|rows|, i requires 0 <= i < |rows| => RowAfter(rows[i], i, t))
  }

  // A row is marked exactly if it was sent, for nothing, and charged once if it had no route; one the tick did
  // not take up is as it was, and so is every routed one of a tick that got nothing through.
  predicate IsLedgered(was: OutboxRow, now: OutboxRow, i: nat, t: Tick) {
    && now.id == was.id && now.routed == was.routed && (now.published <==> was.published || i in t.sent)
    && (i in t.sent ==> now.attempts == was.attempts)
    && (i in t.unrouted ==> now.attempts == was.attempts + 1 && !now.published)
    && (i !in t.sent && i !in t.refused && i !in t.unrouted ==> now == was)
    && (t.sent == {} && i !in t.unrouted ==> now == was)
  }

  // The tick took up only rows that were unpublished and not locked by another relay.
  ghost predicate IsLedger(was: seq<OutboxRow>, now: seq<OutboxRow>, locked: nat -> bool, t: Tick) {
    && |was| == |now| && (forall i :: 0 <= i < |was| ==> IsLedgered(was[i], now[i], i, t))
    && (forall i :: i in t.sent || i in t.refused || i in t.unrouted ==>
          i < |was| && !was[i].published && !locked(was[i].id))
  }

  lemma NoTickIsLedger(rows: seq<OutboxRow>, locked: nat -> bool)
    ensures IsLedger(rows, rows, locked, Tick({}, {}, {}))
  {
  }

  lemma TicksAreLedgers(rows: seq<OutboxRow>, locked: nat -> bool, accepts: nat -> bool, routed: seq<nat>,
                        stray: seq<nat>, limit: nat, t: Tick)
    requires Selects(rows, locked, true, limit, routed) && Selects(rows, locked, false, limit - |routed|, stray)
    requires Answers(rows, accepts, routed, stray, t)
    ensures IsLedger(rows, RowsAfter(rows, t), locked, t)
  {
    forall i | i in t.sent || i in t.refused || i in t.unrouted
      ensures i < |rows| && !rows[i].published && !locked(rows[i].id) && (i in t.unrouted <==> !rows[i].routed)
    {
      assert i in t.unrouted ==> i in Positions(stray);
    }
  }

  function IdsOf(rows: seq<OutboxRow>, picked: set<nat>): set<nat> {
    set i | i in picked && i < |rows| :: rows[i].id
  }

  lemma NoneSent(rows: seq<OutboxRow>)
    ensures RowsAfter(rows, Tick({}, {}, {})) == rows && IdsOf(rows, {}) == {}
  {
  }

  lemma OneMoreSent(rows: seq<OutboxRow>, sent: set<nat>, i: nat)
    requires i < |rows| && i !in sent
    ensures RowsAfter(rows, Tick(sent + {i}, {}, {}))
            == RowsAfter(rows, Tick(sent, {}, {}))[i := RowsAfter(rows, Tick(sent, {}, {}))[i].(published := true)]
    ensures IdsOf(rows, sent + {i}) == IdsOf(rows, sent) + {rows[i].id}
    ensures RowsAfter(rows, Tick(sent, {}, {}))[i] == rows[i]
  {
  }

  predicate InTick(t: Tick, i: nat) {
    i in t.sent || i in t.refused
  }

  function ChargedRows(rows: seq<OutboxRow>, picked: set<nat>): (r: seq<OutboxRow>)
    ensures |r| == |rows|
  {
    seq(|rows|, i requires 0 <= i < |rows| => if i in picked then Charged(rows[i]) else rows[i])
  }

  function Positions(picked: seq<nat>): set<nat> {
    set i | i in picked
  }

  // The first `k` of the picked rows were tried, each once, and no others.
  ghost predicate Tried(picked: seq<nat>, k: nat, t: Tick) {
    && k <= |picked| && (forall i, j :: 0 <= i < j < |picked| ==> picked[i] != picked[j])
    && (forall j {:trigger picked[j]} :: 0 <= j < |picked| ==> (InTick(t, picked[j]) <==> j < k))
    && (forall i {:trigger InTick(t, i)} :: InTick(t, i) ==> i in picked)
  }

  lemma OneMoreTried(picked: seq<nat>, k: nat, t: Tick, t': Tick)
    requires Tried(picked, k, t) && k < |picked|
    requires t' == t.(sent := t.sent + {picked[k]}) || t' == t.(refused := t.refused + {picked[k]})
    ensures Tried(picked, k + 1, t')
  {
    assert forall i :: InTick(t', i) <==> InTick(t, i) || i == picked[k];
  }

  // Every routed row it tried was sent or refused as the queue answered; it tried all of them, and then
  // took up the strays, unless it was refused too often.
  ghost predicate Answers(rows: seq<OutboxRow>, accepts: nat -> bool, routed: seq<nat>, stray: seq<nat>, t: Tick) {
    && (forall i :: i in t.sent ==> i in routed && i < |rows| && accepts(rows[i].id))
    && (forall i :: i in t.refused ==> i in routed && i < |rows| && !accepts(rows[i].id))
    && |t.refused| <= MAX_REFUSALS_PER_TICK
    && if |t.refused| < MAX_REFUSALS_PER_TICK
       then t.unrouted == Positions(stray) && forall i :: i in routed ==> i in t.sent || i in t.refused
       else t.unrouted == {}
  }

  lemma TriedAnswers(rows: seq<OutboxRow>, locked: nat -> bool, accepts: nat -> bool, routed: seq<nat>, k: nat,
                     stray: seq<nat>, limit: nat, t: Tick)
    requires Selects(rows, locked, true, limit, routed) && Selects(rows, locked, false, limit - |routed|, stray)
    requires Tried(routed, k, t) && (|t.refused| < MAX_REFUSALS_PER_TICK ==> k == |routed|)
    requires t.unrouted == {} && |t.refused| <= MAX_REFUSALS_PER_TICK
    requires forall i :: i in t.sent ==> i < |rows| && accepts(rows[i].id)
    requires forall i :: i in t.refused ==> i < |rows| && !accepts(rows[i].id)
    ensures Answers(rows, accepts, routed, stray,
                    if |t.refused| < MAX_REFUSALS_PER_TICK then t.(unrouted := Positions(stray)) else t)
    ensures Positions(stray) !! t.sent && Positions(stray) !! t.refused
    ensures forall i :: i in Positions(stray) ==> i < |rows|
  {
    forall i | i in t.sent || i in t.refused ensures i in routed && rows[i].routed {
      assert InTick(t, i);
    }
    forall i | i in Positions(stray) ensures i < |rows| && !rows[i].routed {
    }
  }

  /**
   * A routed row is charged an attempt exactly when it was refused in a tick that got something through;
   * an outage, in which the queue takes nothing, charges none.
   */
  lemma ChargedOnlyOnProof(rows: seq<OutboxRow>, locked: nat -> bool, accepts: nat -> bool, routed: seq<nat>,
                           stray: seq<nat>, limit: nat, t: Tick, i: nat)
    requires Selects(rows, locked, false, limit, stray) && Answers(rows, accepts, routed, stray, t)
    requires i < |rows| && rows[i].routed
    ensures RowsAfter(rows, t)[i].attempts == rows[i].attempts + 1 <==> i in t.refused && exists j :: j in t.sent
    ensures (forall id :: !accepts(id)) ==> RowsAfter(rows, t)[i] == rows[i]
  {
    assert t.sent != {} ==> exists j :: j in t.sent;
    assert i !in Positions(stray);
    assert i in t.sent ==> accepts(rows[i].id);
  }

  class OutboxRelay {
    // Oldest first, ids breaking ties.
    var rows: seq<OutboxRow>
    var jobs: set<nat>
    const connected: bool
    const locked: nat -> bool
    const accepts: nat -> bool

    constructor (rows: seq<OutboxRow>, jobs: set<nat>, connected: bool, locked: nat -> bool, accepts: nat -> bool)
      ensures this.rows == rows && this.jobs == jobs
      ensures this.connected == connected && this.locked == locked && this.accepts == accepts
    {
      this.rows, this.jobs, this.connected, this.locked, this.accepts := rows, jobs, connected, locked, accepts;
    }

    method LockUnpublished(routed: bool, limit: nat) returns (picked: seq<nat>)
      ensures Selects(rows, locked, routed, limit, picked)
    {
      picked := [];
      var i := 0;
      while i < |rows| && |picked| < limit
        invariant 0 <= i <= |rows| && |picked| <= limit
        invariant forall k :: 0 <= k < |picked| ==> picked[k] < i && Eligible(rows, locked, routed, picked[k])
        invariant forall j, k :: 0 <= j < k < |picked| ==> picked[j] < picked[k]
        invariant forall j :: 0 <= j < i && Eligible(rows, locked, routed, j) ==> j in picked
      {
        if rows[i].routed == routed && !rows[i].published && !locked(rows[i].id) {
          picked := picked + [i];
        }
        i := i + 1;
      }
    }

    method Publish(i: nat) returns (ok: bool)
      requires i < |rows|
      modifies this`jobs
      ensures ok == accepts(rows[i].id)
      ensures jobs == if ok then old(jobs) + {rows[i].id} else old(jobs)
    {
      ok := accepts(rows[i].id);
      if ok {
        jobs := jobs + {rows[i].id};
      }
    }

    // So far: the rows sent are marked and on the queue, the others as they were.
    ghost predicate Marked(was: seq<OutboxRow>, jobsWere: set<nat>, t: Tick)
      reads this
    {
      && t.unrouted == {} && t.sent !! t.refused && |t.refused| <= MAX_REFUSALS_PER_TICK
      && (forall i :: i in t.sent ==> i < |was| && accepts(was[i].id))
      && (forall i :: i in t.refused ==> i < |was| && !accepts(was[i].id))
      && rows == RowsAfter(was, Tick(t.sent, {}, {})) && jobs == jobsWere + IdsOf(was, t.sent)
    }

    method PublishOne(i: nat, t: Tick, ghost was: seq<OutboxRow>, ghost jobsWere: set<nat>) returns (t': Tick)
      requires Marked(was, jobsWere, t) && i < |was| && i !in t.sent && i !in t.refused
      requires |t.refused| < MAX_REFUSALS_PER_TICK
      modifies this`rows, this`jobs
      ensures Marked(was, jobsWere, t')
      ensures t' == if accepts(was[i].id) then t.(sent := t.sent + {i}) else t.(refused := t.refused + {i})
    {
      OneMoreSent(was, t.sent, i);
      var ok := Publish(i);
      if ok {
        rows := rows[i := rows[i].(published := true)];
        t' := t.(sent := t.sent + {i});
      } else {
        t' := t.(refused := t.refused + {i});
      }
    }

    ghost predicate Publishing(routed: seq<nat>, k: nat, was: seq<OutboxRow>, jobsWere: set<nat>, t: Tick)
      reads this
    {
      && Tried(routed, k, t) && Marked(was, jobsWere, t)
      && (forall j :: 0 <= j < |routed| ==> routed[j] < |was|)
    }

    method PublishNext(routed: seq<nat>, k: nat, t: Tick, ghost was: seq<OutboxRow>, ghost jobsWere: set<nat>)
      returns (t': Tick)
      requires Publishing(routed, k, was, jobsWere, t) && k < |routed| && |t.refused| < MAX_REFUSALS_PER_TICK
      modifies this`rows, this`jobs
      ensures Publishing(routed, k + 1, was, jobsWere, t')
    {
      assert !InTick(t, routed[k]);
      t' := PublishOne(routed[k], t, was, jobsWere);
      OneMoreTried(routed, k, t, t');
    }

    // Publishes the routed rows in order until too many are refused; marks each as it goes.
    method PublishAll(routed: seq<nat>, ghost was: seq<OutboxRow>) returns (t: Tick, k: nat)
      requires Publishing(routed, 0, was, jobs, Tick({}, {}, {}))
      modifies this`rows, this`jobs
      ensures Publishing(routed, k, was, old(jobs), t) && (|t.refused| < MAX_REFUSALS_PER_TICK ==> k == |routed|)
    {
      t, k := Tick({}, {}, {}), 0;
      while k < |routed| && |t.refused| < MAX_REFUSALS_PER_TICK
        invariant k <= |routed| && Publishing(routed, k, was, old(jobs), t)
      {
        t := PublishNext(routed, k, t, was, old(jobs));
        k := k + 1;
      }
    }

    method Charge(picked: set<nat>)
      requires forall i :: i in picked ==> i < |rows|
      modifies this`rows
      ensures rows == ChargedRows(old(rows), picked)
    {
      ghost var was := rows;
      var rest := picked;
      while rest != {}
        invariant rest <= picked && rows == ChargedRows(was, picked - rest)
        decreases rest
      {
        var i :| i in rest;
        rest := rest - {i};
        rows := rows[i := Charged(rows[i])];
      }
      assert picked - {} == picked;
    }

    // Strays go uncharged only in a tick that ended early; a refusal is charged once something got through.
    method ChargeTick(t: Tick, stray: set<nat>, ghost was: seq<OutboxRow>) returns (t': Tick)
      requires rows == RowsAfter(was, Tick(t.sent, {}, {})) && t.unrouted == {} && t.sent !! t.refused
      requires stray !! t.sent && stray !! t.refused
      requires forall i :: i in t.refused || i in stray ==> i < |was|
      modifies this`rows
      ensures t' == if |t.refused| < MAX_REFUSALS_PER_TICK then t.(unrouted := stray) else t
      ensures rows == RowsAfter(was, t')
    {
      t' := t;
      if |t.refused| < MAX_REFUSALS_PER_TICK {
        t' := t.(unrouted := stray);
        Charge(stray);
      }
      if t.sent != {} {
        Charge(t.refused);
      }
    }

    lemma Begins(was: seq<OutboxRow>, limit: nat, routed: seq<nat>)
      requires rows == was && Selects(was, locked, true, limit, routed)
      ensures Publishing(routed, 0, was, jobs, Tick({}, {}, {}))
    {
      NoneSent(was);
    }

    /**
     * Exactly the rows the queue took are marked; rows without a route never displace routed ones; with
     * fewer than three refusals every routed row of the batch was tried.
     */
    method RunOnce(batchSize: nat)
      returns (published: nat, failed: nat, ghost t: Tick, ghost routed: seq<nat>, ghost stray: seq<nat>)
      modifies this
      ensures connected ==>
                && Selects(old(rows), locked, true, batchSize, routed)
                && Selects(old(rows), locked, false, batchSize - |routed|, stray)
                && Answers(old(rows), accepts, routed, stray, t)
      ensures !connected ==> t == Tick({}, {}, {})
      ensures rows == RowsAfter(old(rows), t) && jobs == old(jobs) + IdsOf(old(rows), t.sent)
      ensures published == |t.sent| && failed == |t.refused| + |t.unrouted|
      ensures IsLedger(old(rows), rows, locked, t)
    {
      ghost var was := rows;
      NoneSent(was);
      NoTickIsLedger(was, locked);
      if !connected {
        return 0, 0, Tick({}, {}, {}), [], [];
      }
      var picked := LockUnpublished(true, batchSize);
      var left := LockUnpublished(false, batchSize - |picked|);
      Begins(was, batchSize, picked);
      var tick, k := PublishAll(picked, was);
      TriedAnswers(was, locked, accepts, picked, k, left, batchSize, tick);
      tick := ChargeTick(tick, Positions(left), was);
      TicksAreLedgers(was, locked, accepts, picked, left, batchSize, tick);
      return |tick.sent|, |tick.refused| + |tick.unrouted|, tick, picked, left;
    }
  }
}
