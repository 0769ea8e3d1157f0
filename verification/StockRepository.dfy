/**
 * The repository's statements inside one transaction, under READ COMMITTED: between two statements other
 * transactions commit, and only rows this transaction has locked stay as they are.
 */
module StockRepositories {
  import opened Wrappers
  import opened ReservationFence
  import opened StockTables
  import opened LockOrder

  // What other transactions may make of the stock rows: rows are never deleted, and every write to a row
  // bumps its version.
  ghost predicate Keeps(before: map<Id, Stock>, after: map<Id, Stock>) {
    forall v :: v in before ==> v in after && (after[v] == before[v] || before[v].version < after[v].version)
  }

  /** Every command keeps it, so an equal version means an equal row. */
  lemma EveryWriteBumpsTheVersion(t: Tables, c: Command)
    ensures Keeps(t.stock, Run(t, c).0.stock)
  {
  }

  // The rows a transaction has written are those its plan needs, moved from what is committed.
  ghost predicate RowsMoved(committed: map<Id, Stock>, written: map<Id, Stock>, p: Plan) {
    && (forall k :: k in p.need ==>
          k.order == p.order && k.variant in committed && MayMove(p.move, p.need[k], committed[k.variant]))
    && (forall v :: v in written <==> Key(p.order, v) in p.need)
    && (forall v :: v in written ==> written[v] == Moved(p.move, p.need[Key(p.order, v)], committed[v]))
  }

  lemma RowsMovedIsCarry(committed: map<Id, Stock>, written: map<Id, Stock>, p: Plan)
    requires RowsMoved(committed, written, p)
    ensures committed + written == MovedStock(committed, p)
    ensures forall k :: k in p.need ==> Covers(committed, p, k)
  {
    forall v | v in written ensures v in committed {
      assert Key(p.order, v) in p.need;
    }
  }

  lemma RowsMovedOneMore(committed: map<Id, Stock>, written: map<Id, Stock>, p: Plan, v: Id, quantity: int)
    requires RowsMoved(committed, written, p) && v !in written && v in committed
    requires MayMove(p.move, quantity, committed[v])
    ensures RowsMoved(committed, written[v := Moved(p.move, quantity, committed[v])],
                      p.(need := p.need[Key(p.order, v) := quantity]))
  {
  }

  lemma RowsMovedStill(committed: map<Id, Stock>, committed': map<Id, Stock>, written: map<Id, Stock>, p: Plan)
    requires RowsMoved(committed, written, p)
    requires forall v :: v in written ==> v in committed' && (v in committed ==> committed'[v] == committed[v])
    ensures RowsMoved(committed', written, p)
  {
    forall k | k in p.need ensures k.variant in committed' && committed'[k.variant] == committed[k.variant] {
      assert k == Key(p.order, k.variant);
    }
  }

  lemma LinesMovedOneMore(before: map<Key, Line>, p: Plan, k: Key, quantity: int)
    ensures MovedLines(before, p.(need := p.need[k := quantity]))
            == MovedLines(before, p)[k := Line(quantity, LineAfter(p.move))]
  {
  }

  datatype CasReply = Won | Lost | Broken

  class Transaction {
    // The stock rows as others have committed them, the rows written here, and the rows locked here.
    var committed: map<Id, Stock>
    var written: map<Id, Stock>
    var locked: set<Id>
    // The lines of the order; its header lock keeps every other writer of them out.
    var lines: map<Key, Line>
    var statements: nat
    // What has been written so far, as a plan for the order.
    ghost var plan: Plan
    // The rows there were when it began; rows are never deleted.
    ghost const atBegin: set<Id>
    const others: (nat, map<Id, Stock>) -> map<Id, Stock>
    const expired: nat -> bool

    constructor (stock: map<Id, Stock>, lines: map<Key, Line>, others: (nat, map<Id, Stock>) -> map<Id, Stock>,
                 expired: nat -> bool, ghost plan: Plan)
      requires (forall i, rows :: Keeps(rows, others(i, rows))) && plan.need == map[]
      ensures Valid() && committed == stock && written == map[] && this.lines == lines
      ensures this.plan == plan && atBegin == stock.Keys && this.expired == expired
    {
      committed, written, locked, this.lines, statements := stock, map[], {}, lines, 0;
      this.others, this.expired, this.plan, atBegin := others, expired, plan, stock.Keys;
    }

    ghost predicate Valid()
      reads this
    {
      && (forall i, rows :: Keeps(rows, others(i, rows)))
      && written.Keys <= locked <= committed.Keys && atBegin <= committed.Keys
      && RowsMoved(committed, written, plan)
    }

    // The rows as the transaction's own statements see them.
    function Rows(): map<Id, Stock>
      reads this
    {
      committed + written
    }

    // A statement of this transaction finds its time up.
    ghost predicate RunsOutOfTime() {
      exists i: nat :: expired(i)
    }

    // Others commit. A locked row is not among what they write.
    method Interleave()
      requires Valid()
      modifies this`committed, this`statements
      ensures Valid() && statements == old(statements) + 1 && Keeps(old(committed), committed)
      ensures forall v :: v in locked ==> committed[v] == old(committed)[v]
    {
      var now := others(statements, committed);
      assert Keeps(committed, now);
      committed := map v | v in now :: if v in locked then committed[v] else now[v];
      statements := statements + 1;
      RowsMovedStill(old(committed), committed, written, plan);
    }

    // False once the transaction's time is up.
    method Limit() returns (ok: bool)
      modifies this`statements
      ensures ok == !expired(old(statements)) && statements == old(statements) + 1
    {
      ok := !expired(statements);
      statements := statements + 1;
    }

    method SelectForUpdate(v: Id) returns (row: Option<Stock>)
      requires Valid()
      modifies this`committed, this`statements, this`locked
      ensures Valid() && Keeps(old(committed), committed)
      ensures forall u :: u in old(locked) ==> u in locked && committed[u] == old(committed)[u]
      ensures row == if v in committed then Some(Rows()[v]) else None
      ensures row.Some? ==> v in locked
    {
      Interleave();
      if v !in committed {
        return None;
      }
      locked := locked + {v};
      return Some(Rows()[v]);
    }

    method Select(v: Id) returns (row: Option<Stock>)
      requires Valid()
      modifies this`committed, this`statements
      ensures Valid() && Keeps(old(committed), committed)
      ensures forall u :: u in locked ==> committed[u] == old(committed)[u]
      ensures row == if v in committed then Some(Rows()[v]) else None
    {
      Interleave();
      return if v in committed then Some(Rows()[v]) else None;
    }

    // UPDATE ... WHERE variant_id = v, for a row not written yet. False when a constraint refuses it.
    method Update(move: Move, quantity: int, v: Id) returns (ok: bool)
      requires Valid() && v in committed && v !in written && move == plan.move
      requires move.Reserving? ==> v in locked && quantity <= Available(committed[v])
      modifies this`committed, this`statements, this`locked, this`written, this`plan
      ensures Valid() && Keeps(old(committed), committed)
      ensures forall u :: u in old(locked) ==> u in locked && committed[u] == old(committed)[u]
      ensures ok == RowOk(Moved(move, quantity, committed[v]))
      ensures plan == if ok then old(plan).(need := old(plan).need[Key(plan.order, v) := quantity]) else old(plan)
    {
      Interleave();
      var row := Moved(move, quantity, committed[v]);
      ok := RowOk(row);
      if ok {
        Write(move, quantity, v);
      }
    }

    // The compare-and-swap: the WHERE clause is judged, and the sum is taken, on the row as it is now.
    method UpdateIf(version: int, quantity: int, order: Id, v: Id) returns (r: CasReply)
      requires Valid() && v in committed && v !in written && plan.move.Reserving?
      modifies this`committed, this`statements, this`locked, this`written, this`plan
      ensures Valid() && Keeps(old(committed), committed)
      ensures forall u :: u in old(locked) ==> u in locked && committed[u] == old(committed)[u]
      ensures var row := committed[v];
              if row.version != version || Available(row) < quantity || Key(order, v) in lines then r.Lost?
              else if RowOk(Moved(Reserving, quantity, row)) then r.Won? else r.Broken?
      ensures plan == if r.Won? then old(plan).(need := old(plan).need[Key(plan.order, v) := quantity]) else old(plan)
      ensures !r.Won? ==> written == old(written)
    {
      Interleave();
      var row := committed[v];
      if row.version != version || Available(row) < quantity || Key(order, v) in lines {
        return Lost;
      }
      if !RowOk(Moved(Reserving, quantity, row)) {
        return Broken;
      }
      Write(Reserving, quantity, v);
      return Won;
    }

    method Write(move: Move, quantity: int, v: Id)
      requires Valid() && v in committed && v !in written && move == plan.move && MayMove(move, quantity, committed[v])
      modifies this`locked, this`written, this`plan
      ensures Valid() && locked == old(locked) + {v}
      ensures written == old(written)[v := Moved(move, quantity, committed[v])]
      ensures plan == old(plan).(need := old(plan).need[Key(plan.order, v) := quantity])
    {
      RowsMovedOneMore(committed, written, plan, v, quantity);
      locked := locked + {v};
      written := written[v := Moved(move, quantity, committed[v])];
      plan := plan.(need := plan.need[Key(plan.order, v) := quantity]);
    }

    method InsertHold(order: Id, v: Id, quantity: int)
      modifies this`lines
      ensures lines == if Key(order, v) in old(lines) then old(lines)
                       else old(lines)[Key(order, v) := Line(quantity, LineHeld)]
    {
      if Key(order, v) !in lines {
        lines := lines[Key(order, v) := Line(quantity, LineHeld)];
      }
    }
  }

  datatype ReserveResult =
    | Reserved
    | TooFew(variant: Id, requested: int, available: int)
    | Contended(variant: Id)
    | TimedOut
    | ConstraintBroken

  datatype Hold = TookHold | AlreadyHeld | NoHold(failure: ReserveResult)

  function HoldPlan(order: Id, before: map<Key, Line>, lines: seq<ReservationLine>): Plan {
    Plan(order, Reserving, Unheld(before, FirstQuantities(order, lines)), Header(Held, None))
  }

  datatype LostCas = LostCas(readVersion: int, foundVersion: int)

  class StockRepository {
    const maxRetries: int

    // The lines are held: each row they needed is locked and moved, once, from its committed value.
    ghost predicate Holding(tx: Transaction, order: Id, before: map<Key, Line>, lines: seq<ReservationLine>)
      reads tx
    {
      tx.Valid() && tx.plan == HoldPlan(order, before, lines) && tx.lines == MovedLines(before, tx.plan)
    }

    ghost predicate HoldingFirst(
      tx: Transaction, order: Id, before: map<Key, Line>, lines: seq<ReservationLine>, i: int)
      reads tx
    {
      0 <= i <= |lines| && Holding(tx, order, before, lines[..i])
    }

    lemma NextOfFirst(lines: seq<ReservationLine>, i: nat)
      requires i <= |lines|
      ensures if i == |lines| then lines[..i] == lines else lines[..i + 1] == lines[..i] + [lines[i]]
    {
    }

    ghost predicate IsTruthful(tx: Transaction, order: Id, before: map<Key, Line>, l: ReservationLine, r: ReserveResult)
      reads tx
    {
      IsTrueOf(tx.committed, tx.RunsOutOfTime(), order, before, l, r)
    }

    // A refusal is true of the committed row: too few only when there are, contention and a broken constraint
    // only when there are enough, and a timeout only when time ran out.
    static predicate IsTrueOf(stock: map<Id, Stock>, late: bool, order: Id, before: map<Key, Line>, l: ReservationLine,
                              r: ReserveResult)
    {
      match r
      case Reserved => false
      case TooFew(v, requested, available) =>
        && v == l.variant && requested == l.quantity
        && if v in stock then Key(order, v) !in before && available == Available(stock[v]) < requested
           else available == 0
      case Contended(v) => v == l.variant && IsThere(stock, order, before, l)
      case TimedOut => late
      case ConstraintBroken =>
        IsThere(stock, order, before, l) && !RowOk(Moved(Reserving, l.quantity, stock[l.variant]))
    }

    // The line is not held, and there is enough to hold it.
    static predicate IsThere(stock: map<Id, Stock>, order: Id, before: map<Key, Line>, l: ReservationLine) {
      Key(order, l.variant) !in before && l.variant in stock && l.quantity <= Available(stock[l.variant])
    }

    // Of the lines refused, one is refused for a true reason, in the quantity its variant was named in first.
    static predicate Refused(stock: map<Id, Stock>, late: bool, order: Id, before: map<Key, Line>,
                             lines: seq<ReservationLine>, r: ReserveResult)
    {
      exists l :: l in lines && IsTrueOf(stock, late, order, before, l, r)
                  && (Key(order, l.variant) in before || r.TimedOut? || Asks(order, lines, l))
    }

    ghost predicate Refuses(tx: Transaction, order: Id, before: map<Key, Line>, lines: seq<ReservationLine>,
                            r: ReserveResult)
      reads tx
    {
      Refused(tx.committed, tx.RunsOutOfTime(), order, before, lines, r)
    }

    // Others have written the row once for every compare-and-swap that may be lost, and once more.
    predicate Overtaken(was: map<Id, Stock>, now: map<Id, Stock>, v: Id) {
      v in was ==> v in now && was[v].version + Max(0, maxRetries + 1) <= now[v].version
    }

    static predicate Asks(order: Id, lines: seq<ReservationLine>, l: ReservationLine) {
      var need, k := FirstQuantities(order, lines), Key(order, l.variant);
      k in need && need[k] == l.quantity
    }

    // Line i is the one its variant is held under when no line before it named it.
    lemma {:induction false} AsksAtFirst(order: Id, lines: seq<ReservationLine>, i: nat)
      requires i < |lines| && Key(order, lines[i].variant) !in FirstQuantities(order, lines[..i])
      ensures Asks(order, lines, lines[i])
    {
      FirstNamedCounts(order, lines[..i]);
      FirstNamedCounts(order, lines);
      forall j | 0 <= j < i ensures lines[j].variant != lines[i].variant {
        assert lines[..i][j] == lines[j];
      }
      assert NamesFirst(lines, i);
    }

    // A line is already held exactly when it was before, or an earlier line named its variant.
    lemma HeldAlready(order: Id, before: map<Key, Line>, done: seq<ReservationLine>, l: ReservationLine)
      ensures var p, k := HoldPlan(order, before, done), Key(order, l.variant);
              && (k in MovedLines(before, p) <==> k in before || k in p.need)
              && (k in MovedLines(before, p) ==> HoldPlan(order, before, done + [l]) == p)
    {
      FirstQuantitiesAppend(order, done, l);
    }

    // The line is held already, or none of those done names its variant.
    predicate IsNew(order: Id, before: map<Key, Line>, done: seq<ReservationLine>, l: ReservationLine) {
      Key(order, l.variant) in before || Key(order, l.variant) !in FirstQuantities(order, done)
    }

    lemma NewUnlessHeld(order: Id, before: map<Key, Line>, done: seq<ReservationLine>, l: ReservationLine)
      ensures var p, k := HoldPlan(order, before, done), Key(order, l.variant);
              IsNew(order, before, done, l) <==> k !in p.need
    {
    }

    lemma HeldOneMore(order: Id, before: map<Key, Line>, done: seq<ReservationLine>, l: ReservationLine)
      requires Key(order, l.variant) !in MovedLines(before, HoldPlan(order, before, done))
      ensures var p, k := HoldPlan(order, before, done), Key(order, l.variant);
              var p' := HoldPlan(order, before, done + [l]);
              && p' == p.(need := p.need[k := l.quantity])
              && MovedLines(before, p') == MovedLines(before, p)[k := Line(l.quantity, LineHeld)]
    {
      FirstQuantitiesAppend(order, done, l);
      var p := HoldPlan(order, before, done);
      var p' := p.(need := p.need[Key(order, l.variant) := l.quantity]);
      assert HoldPlan(order, before, done + [l]).need == p'.need;
      LinesMovedOneMore(before, p, Key(order, l.variant), l.quantity);
    }

    lemma RefusesFor(tx: Transaction, order: Id, before: map<Key, Line>, lines: seq<ReservationLine>,
                     ordered: seq<ReservationLine>, i: nat, r: ReserveResult)
      requires i < |ordered| && ordered[i] in lines
      requires FirstQuantities(order, ordered) == FirstQuantities(order, lines)
      requires IsTruthful(tx, order, before, ordered[i], r)
      requires r.TimedOut? || IsNew(order, before, ordered[..i], ordered[i])
      ensures Refuses(tx, order, before, lines, r)
    {
      if !r.TimedOut? && Key(order, ordered[i].variant) !in before {
        AsksAtFirst(order, ordered, i);
        assert Asks(order, lines, ordered[i]);
      }
    }

    // The lines in lock order; which variants they name, and how many of each, stays the same.
    method InLockOrder(ghost order: Id, lines: seq<ReservationLine>) returns (ordered: seq<ReservationLine>)
      ensures InOrder(ordered) && FirstQuantities(order, ordered) == FirstQuantities(order, lines)
      ensures forall i :: 0 <= i < |ordered| ==> ordered[i] in lines
    {
      ordered := Sorted(lines);
      SortedInOrder(lines);
      SortedKeepsFirst(order, lines);
      forall i | 0 <= i < |ordered| ensures ordered[i] in lines {
        assert ordered[i] in multiset(lines);
      }
    }

    // Raises the locked row and inserts the hold.
    method TakeHold(tx: Transaction, order: Id, l: ReservationLine, ghost before: map<Key, Line>,
                    ghost done: seq<ReservationLine>)
      returns (ok: bool)
      requires Holding(tx, order, before, done) && Key(order, l.variant) !in tx.lines
      requires l.variant in tx.locked && l.quantity <= Available(tx.Rows()[l.variant])
      modifies tx
      ensures tx.Valid() && l.variant in tx.committed
      ensures ok ==> Holding(tx, order, before, done + [l])
      ensures !ok ==> IsTruthful(tx, order, before, l, ConstraintBroken) && IsNew(order, before, done, l)
    {
      NewUnlessHeld(order, before, done, l);
      HeldAlready(order, before, done, l);
      ok := tx.Update(Reserving, l.quantity, l.variant);
      if ok {
        HeldOneMore(order, before, done, l);
        tx.InsertHold(order, l.variant, l.quantity);
      }
    }

    // Locks the row and reads it: a reason not to take the hold, if there is one.
    method LockAndLook(tx: Transaction, order: Id, l: ReservationLine, ghost before: map<Key, Line>,
                       ghost done: seq<ReservationLine>)
      returns (r: Option<Hold>)
      requires Holding(tx, order, before, done)
      modifies tx
      ensures Holding(tx, order, before, done)
      ensures match r
              case None =>
                && Key(order, l.variant) !in tx.lines && l.variant in tx.locked
                && l.quantity <= Available(tx.Rows()[l.variant])
              case Some(AlreadyHeld) => Key(order, l.variant) in tx.lines && l.variant in tx.committed
              case Some(TookHold) => false
              case Some(NoHold(failure)) =>
                IsTruthful(tx, order, before, l, failure) && failure.TooFew? && IsNew(order, before, done, l)
    {
      NewUnlessHeld(order, before, done, l);
      var row := tx.SelectForUpdate(l.variant);
      if row.None? {
        return Some(NoHold(TooFew(l.variant, l.quantity, 0)));
      }
      if Key(order, l.variant) in tx.lines {
        return Some(AlreadyHeld);
      }
      var available := Available(row.value);
      return if available < l.quantity then Some(NoHold(TooFew(l.variant, l.quantity, available))) else None;
    }

    // One line of the locked form: lock the row, then read and raise it.
    method HoldUnderLock(tx: Transaction, order: Id, l: ReservationLine, ghost before: map<Key, Line>,
                         ghost done: seq<ReservationLine>)
      returns (r: Hold)
      requires Holding(tx, order, before, done)
      modifies tx
      ensures tx.Valid()
      ensures !r.NoHold? ==> Holding(tx, order, before, done + [l])
      ensures r.NoHold? ==> IsTruthful(tx, order, before, l, r.failure) && !r.failure.Contended?
      ensures r.NoHold? && !r.failure.TimedOut? ==> IsNew(order, before, done, l)
      // A missing row is reported before a hold of it would be noticed.
      ensures l.variant !in tx.committed ==> r.NoHold?
    {
      var ok := tx.Limit();
      if !ok {
        return NoHold(TimedOut);
      }
      var look := LockAndLook(tx, order, l, before, done);
      if look.Some? {
        HeldAlready(order, before, done, l);
        return look.value;
      }
      ok := TakeHold(tx, order, l, before, done);
      return if ok then TookHold else NoHold(ConstraintBroken);
    }

    method ReservePessimistic(tx: Transaction, order: Id, lines: seq<ReservationLine>) returns (r: ReserveResult)
      requires Holding(tx, order, tx.lines, [])
      modifies tx
      ensures tx.Valid()
      ensures r.Reserved? ==> Holding(tx, order, old(tx.lines), lines)
      ensures !r.Reserved? ==> !r.Contended? && Refuses(tx, order, old(tx.lines), lines, r)
    {
      ghost var before := tx.lines;
      var ordered := InLockOrder(order, lines);
      var i := 0;
      while i < |ordered|
        invariant HoldingFirst(tx, order, before, ordered, i)
      {
        NextOfFirst(ordered, i);
        var held := HoldUnderLock(tx, order, ordered[i], before, ordered[..i]);
        if held.NoHold? {
          RefusesFor(tx, order, before, lines, ordered, i, held.failure);
          return held.failure;
        }
        i := i + 1;
      }
      NextOfFirst(ordered, i);
      return Reserved;
    }

    /**
     * One line of the optimistic form. A CAS is lost only to a writer that moved the version, at most
     * maxRetries + 1 are tried, and a shortfall is never reported as contention.
     */
    method CasReserve(tx: Transaction, order: Id, l: ReservationLine, ghost before: map<Key, Line>,
                      ghost done: seq<ReservationLine>)
      returns (r: Hold, lost: seq<LostCas>)
      requires Holding(tx, order, before, done)
      modifies tx
      ensures tx.lines == old(tx.lines)
      ensures tx.Valid()
      ensures r.AlreadyHeld? <==> Key(order, l.variant) in tx.lines
      ensures tx.plan == if r.TookHold?
              then old(tx.plan).(need := old(tx.plan).need[Key(order, l.variant) := l.quantity])
                         else old(tx.plan)
      ensures r.NoHold? ==> IsTruthful(tx, order, before, l, r.failure)
      ensures forall c :: c in lost ==> c.readVersion < c.foundVersion
      ensures |lost| <= Max(0, maxRetries + 1)
              && (r.NoHold? && r.failure.Contended? ==> |lost| == Max(0, maxRetries + 1))
      ensures Keeps(old(tx.committed), tx.committed)
      ensures r.NoHold? && r.failure.Contended? ==> Overtaken(old(tx.committed), tx.committed, l.variant)
    {
      HeldAlready(order, before, done, l);
      lost := [];
      var attempt := 0;
      while true
        invariant tx.lines == old(tx.lines) && Holding(tx, order, before, done)
        invariant 0 <= attempt == |lost| <= Max(0, maxRetries + 1)
        invariant forall c :: c in lost ==> c.readVersion < c.foundVersion
        invariant Keeps(old(tx.committed), tx.committed)
        invariant l.variant in old(tx.committed) ==>
                    old(tx.committed)[l.variant].version + attempt <= tx.committed[l.variant].version
        decreases maxRetries + 1 - attempt
      {
        if Key(order, l.variant) in tx.lines {
          return AlreadyHeld, lost;
        }
        var row := tx.Select(l.variant);
        if row.None? {
          return NoHold(TooFew(l.variant, l.quantity, 0)), lost;
        }
        var available := Available(row.value);
        if available < l.quantity {
          return NoHold(TooFew(l.variant, l.quantity, available)), lost;
        }
        if attempt > maxRetries {
          return NoHold(Contended(l.variant)), lost;
        }
        var ok := tx.Limit();
        if !ok {
          return NoHold(TimedOut), lost;
        }
        var reply := tx.UpdateIf(row.value.version, l.quantity, order, l.variant);
        match reply {
          case Won =>
            return TookHold, lost;
          case Broken =>
            return NoHold(ConstraintBroken), lost;
          case Lost =>
            lost := lost + [LostCas(row.value.version, tx.committed[l.variant].version)];
            attempt := attempt + 1;
        }
      }
    }

    // One line of the optimistic form: win the row, then insert the hold.
    method HoldByCas(tx: Transaction, order: Id, l: ReservationLine, ghost before: map<Key, Line>,
                     ghost done: seq<ReservationLine>)
      returns (r: Hold)
      requires Holding(tx, order, before, done)
      modifies tx
      ensures tx.Valid()
      ensures !r.NoHold? ==> Holding(tx, order, before, done + [l])
      ensures r.NoHold? ==> IsTruthful(tx, order, before, l, r.failure) && IsNew(order, before, done, l)
      ensures Keeps(old(tx.committed), tx.committed)
      ensures r.NoHold? && r.failure.Contended? ==> Overtaken(old(tx.committed), tx.committed, l.variant)
      // A hold is noticed before a missing row would be reported.
      ensures Key(order, l.variant) in old(tx.lines) ==> r.AlreadyHeld?
    {
      HeldAlready(order, before, done, l);
      NewUnlessHeld(order, before, done, l);
      var held, _ := CasReserve(tx, order, l, before, done);
      r := held;
      if r.TookHold? {
        HeldOneMore(order, before, done, l);
        tx.InsertHold(order, l.variant, l.quantity);
      }
    }

    method ReserveOptimistic(tx: Transaction, order: Id, lines: seq<ReservationLine>) returns (r: ReserveResult)
      requires Holding(tx, order, tx.lines, [])
      modifies tx
      ensures tx.Valid()
      ensures r.Reserved? ==> Holding(tx, order, old(tx.lines), lines)
      ensures !r.Reserved? ==> Refuses(tx, order, old(tx.lines), lines, r)
      ensures r.Contended? ==> Overtaken(old(tx.committed), tx.committed, r.variant)
    {
      ghost var before := tx.lines;
      var ordered := InLockOrder(order, lines);
      var i := 0;
      while i < |ordered|
        invariant HoldingFirst(tx, order, before, ordered, i) && Keeps(old(tx.committed), tx.committed)
      {
        NextOfFirst(ordered, i);
        var held := HoldByCas(tx, order, ordered[i], before, ordered[..i]);
        if held.NoHold? {
          RefusesFor(tx, order, before, lines, ordered, i, held.failure);
          return held.failure;
        }
        i := i + 1;
      }
      NextOfFirst(ordered, i);
      return Reserved;
    }

    // ---------------------------------------------------------------- commit, release, restock

    function MovePlan(order: Id, before: map<Key, Line>, move: Move, done: set<Key>): Plan
      requires done <= before.Keys
    {
      Plan(order, move, map k | k in done :: before[k].quantity, Header(Held, None))
    }

    // The lines of `done` are moved, and nothing else is.
    ghost predicate Moving(tx: Transaction, order: Id, before: map<Key, Line>, move: Move, done: set<Key>)
      reads tx
    {
      && done <= before.Keys && tx.Valid() && tx.plan == MovePlan(order, before, move, done)
      && tx.lines == MovedLines(before, tx.plan)
    }

    lemma MovedOneMore(order: Id, before: map<Key, Line>, move: Move, done: set<Key>, k: Key)
      requires done <= before.Keys && k in before && k !in done
      ensures var p, p' := MovePlan(order, before, move, done), MovePlan(order, before, move, done + {k});
              && MovedLines(before, p)[k] == before[k]
              && p' == p.(need := p.need[k := before[k].quantity])
              && MovedLines(before, p') == MovedLines(before, p)[k := Line(before[k].quantity, LineAfter(move))]
    {
      var p := MovePlan(order, before, move, done);
      var p' := p.(need := p.need[k := before[k].quantity]);
      assert MovePlan(order, before, move, done + {k}).need == p'.need;
      LinesMovedOneMore(before, p, k, before[k].quantity);
    }

    lemma MovedAll(order: Id, before: map<Key, Line>, move: Move, done: set<Key>)
      requires done <= Pending(before, order, LineBefore(move)).Keys
      requires |done| == |Pending(before, order, LineBefore(move)).Keys|
      ensures done <= before.Keys && done == Pending(before, order, LineBefore(move)).Keys
      ensures MovePlan(order, before, move, done)
              == Plan(order, move, Pending(before, order, LineBefore(move)), Header(Held, None))
    {
      var all := Pending(before, order, LineBefore(move)).Keys;
      assert all == done + (all - done) && |all| == |done| + |all - done|;
      assert MovePlan(order, before, move, done).need == Pending(before, order, LineBefore(move));
    }

    // The order's lines still to move, in lock order.
    method PendingInOrder(lines: map<Key, Line>, order: Id, from: LineStatus) returns (pending: seq<Key>)
      ensures forall k :: k in pending <==> k in Pending(lines, order, from)
      ensures forall i :: 0 <= i < |pending| ==> pending[i] in Pending(lines, order, from)
      ensures forall i, j :: 0 <= i < j < |pending| ==> Precedes(pending[i].variant, pending[j].variant)
      ensures forall i, j :: 0 <= i < j < |pending| ==> pending[i] != pending[j]
      ensures |pending| == |Pending(lines, order, from)|
    {
      pending := [];
      var rest := Pending(lines, order, from).Keys;
      while rest != {}
        invariant forall k :: k in Pending(lines, order, from) <==> k in pending || k in rest
        invariant forall k :: k in rest ==> k !in pending
        invariant |pending| + |rest| == |Pending(lines, order, from).Keys|
        invariant forall i, j :: 0 <= i < j < |pending| ==> Precedes(pending[i].variant, pending[j].variant)
        decreases rest
      {
        var k :| k in rest;
        rest := rest - {k};
        pending := InsertKey(order, pending, k);
      }
      forall i, j | 0 <= i < j < |pending| ensures pending[i] != pending[j] {
        PrecedesIsStrictAndTotal(pending[i].variant, pending[j].variant);
      }
    }

    method InsertKey(order: Id, pending: seq<Key>, k: Key) returns (r: seq<Key>)
      requires k.order == order && k !in pending && forall j :: j in pending ==> j.order == order
      requires forall i, j :: 0 <= i < j < |pending| ==> Precedes(pending[i].variant, pending[j].variant)
      ensures |r| == |pending| + 1 && forall j :: j in r <==> j in pending || j == k
      ensures forall i, j :: 0 <= i < j < |r| ==> Precedes(r[i].variant, r[j].variant)
    {
      var i := 0;
      while i < |pending| && Precedes(pending[i].variant, k.variant)
        invariant 0 <= i <= |pending| && forall j :: 0 <= j < i ==> Precedes(pending[j].variant, k.variant)
      {
        i := i + 1;
      }
      forall j | i <= j < |pending| ensures Precedes(k.variant, pending[j].variant) {
        assert pending[j] in pending;
        PrecedesIsStrictAndTotal(pending[i].variant, k.variant);
        if i < j {
          PrecedesIsTransitive(k.variant, pending[i].variant, pending[j].variant);
        }
      }
      r := pending[..i] + [k] + pending[i..];
      assert pending == pending[..i] + pending[i..];
    }

    // Flips one line and moves its stock; false when a constraint refuses the row or time is up.
    method MoveLine(tx: Transaction, order: Id, move: Move, k: Key, ghost before: map<Key, Line>, ghost done: set<Key>)
      returns (ok: bool)
      requires Moving(tx, order, before, move, done) && !move.Reserving?
      requires k in before && k.order == order && k !in done && k.variant in tx.atBegin
      modifies tx
      ensures tx.Valid()
      ensures ok ==> Moving(tx, order, before, move, done + {k})
      ensures Keeps(old(tx.committed), tx.committed)
      ensures !ok ==> tx.RunsOutOfTime() || BreaksRow(tx, before, move, k)
    {
      NotMovedYet(tx, order, before, move, done, k);
      var quantity := tx.lines[k].quantity;
      tx.lines := tx.lines[k := Line(quantity, LineAfter(move))];
      ok := tx.Limit();
      if ok {
        ok := tx.Update(move, quantity, k.variant);
        MovedOneMore(order, before, move, done, k);
      }
    }

    lemma NotMovedYet(tx: Transaction, order: Id, before: map<Key, Line>, move: Move, done: set<Key>, k: Key)
      requires Moving(tx, order, before, move, done) && k in before && k.order == order && k !in done
      ensures k in tx.lines && tx.lines[k] == before[k] && k.variant !in tx.written
    {
      assert k == Key(order, k.variant);
    }

    // The first `count` of the pending lines are done, each once.
    ghost predicate Through(pending: seq<Key>, all: set<Key>, count: nat, done: set<Key>) {
      && count <= |pending| && |done| == count && done <= all
      && (forall i :: 0 <= i < |pending| ==> pending[i] in all)
      && (forall i, j :: 0 <= i < j < |pending| ==> pending[i] != pending[j])
      && (forall j :: count <= j < |pending| ==> pending[j] !in done)
    }

    lemma ThroughOneMore(pending: seq<Key>, all: set<Key>, count: nat, done: set<Key>)
      requires Through(pending, all, count, done) && count < |pending|
      ensures Through(pending, all, count + 1, done + {pending[count]})
    {
    }

    ghost predicate MovedSoFar(tx: Transaction, order: Id, before: map<Key, Line>, move: Move, pending: seq<Key>,
                               count: nat, done: set<Key>)
      reads tx
    {
      && Moving(tx, order, before, move, done)
      && Through(pending, Pending(before, order, LineBefore(move)).Keys, count, done)
      && (forall k :: k in before && k.order == order ==> k.variant in tx.atBegin)
    }

    // The row of line `k` cannot take the move.
    ghost predicate BreaksRow(tx: Transaction, before: map<Key, Line>, move: Move, k: Key)
      requires k in before
      reads tx
    {
      k.variant in tx.committed && !RowOk(Moved(move, before[k].quantity, tx.committed[k.variant]))
    }

    // A row of the order's cannot take the move.
    ghost predicate BreaksSome(tx: Transaction, order: Id, before: map<Key, Line>, move: Move)
      reads tx
    {
      exists k :: k in Pending(before, order, LineBefore(move)) && BreaksRow(tx, before, move, k)
    }

    method MoveNext(tx: Transaction, order: Id, move: Move, pending: seq<Key>, count: nat, ghost before: map<Key, Line>,
                    ghost done: set<Key>)
      returns (ok: bool)
      requires MovedSoFar(tx, order, before, move, pending, count, done) && !move.Reserving? && count < |pending|
      modifies tx
      ensures tx.Valid()
      ensures ok ==> MovedSoFar(tx, order, before, move, pending, count + 1, done + {pending[count]})
      ensures Keeps(old(tx.committed), tx.committed)
      ensures !ok ==> tx.RunsOutOfTime() || BreaksSome(tx, order, before, move)
    {
      ThroughOneMore(pending, Pending(before, order, LineBefore(move)).Keys, count, done);
      assert pending[count] in Pending(before, order, LineBefore(move)) && pending[count] !in done;
      ok := MoveLine(tx, order, move, pending[count], before, done);
    }

    method MoveLines(tx: Transaction, order: Id, move: Move) returns (ok: bool, count: nat)
      requires Moving(tx, order, tx.lines, move, {}) && !move.Reserving?
      requires forall k :: k in tx.lines && k.order == order ==> k.variant in tx.atBegin
      modifies tx
      ensures tx.Valid()
      ensures ok ==>
                && tx.plan == Plan(order, move, Pending(old(tx.lines), order, LineBefore(move)), Header(Held, None))
                && tx.lines == MovedLines(old(tx.lines), tx.plan) && count == |tx.plan.need|
      ensures Keeps(old(tx.committed), tx.committed)
      // It gives up only when time runs out or a row of the order cannot take the move.
      ensures !ok ==> tx.RunsOutOfTime() || BreaksSome(tx, order, old(tx.lines), move)
    {
      ghost var before := tx.lines;
      var pending := PendingInOrder(tx.lines, order, LineBefore(move));
      count, ok := 0, true;
      ghost var done: set<Key> := {};
      while count < |pending|
        invariant MovedSoFar(tx, order, before, move, pending, count, done) && Keeps(old(tx.committed), tx.committed)
      {
        ok := MoveNext(tx, order, move, pending, count, before, done);
        if !ok {
          return;
        }
        done := done + {pending[count]};
        count := count + 1;
      }
      AllMoved(tx, order, before, move, pending, done);
    }

    lemma AllMoved(tx: Transaction, order: Id, before: map<Key, Line>, move: Move, pending: seq<Key>, done: set<Key>)
      requires MovedSoFar(tx, order, before, move, pending, |pending|, done)
      requires |pending| == |Pending(before, order, LineBefore(move))|
      ensures tx.plan == Plan(order, move, Pending(before, order, LineBefore(move)), Header(Held, None))
      ensures tx.lines == MovedLines(before, tx.plan) && |pending| == |tx.plan.need|
    {
      MovedAll(order, before, move, done);
    }
  }
}
