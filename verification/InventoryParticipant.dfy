/** The participant's commands, each in its own transaction, and the sweep of lapsed holds. */
module InventoryParticipants {
  import opened Wrappers
  import opened ReservationFence
  import opened StockTables
  import opened LockOrder
  import opened StockInvariant
  import opened StockRepositories

  datatype LockStrategy = Pessimistic | Optimistic

  // Threw: the transaction was rolled back by a timeout or a constraint, and the caller retries.
  datatype TryOutcome =
    | TryReserved
    | TryOutOfStock(variant: Id, requested: int, available: int)
    | TryContended
    | TryConflict
    | TryThrew

  datatype CommandOutcome = Applied | AlreadyApplied | Refusal | Threw

  // Lapsed holds seen by one sweep.
  datatype Sweep = Sweep(scanned: nat, released: nat, raced: nat, errors: nat)

  ghost predicate LinesHaveStock(t: Tables) {
    forall k :: k in t.lines ==> k.variant in t.stock
  }

  lemma CarriesOut(committed: map<Id, Stock>, written: map<Id, Stock>, at: Tables, p: Plan)
    requires RowsMoved(committed, written, p) && at.stock == committed
    ensures Carry(at, p) == Tables(committed + written, MovedLines(at.lines, p), at.headers[p.order := p.header])
    ensures Feasible(at, p)
  {
    RowsMovedIsCarry(committed, written, p);
  }

  function SettlePlan(t: Tables, order: Id, move: Move, next: OrderStatus): Plan
    requires order in t.headers
  {
    Plan(order, move, Pending(t.lines, order, LineBefore(move)), t.headers[order].(status := next))
  }

  lemma SettlingIsRun(at: Tables, op: FenceOp, order: Id)
    requires !op.TryOp? && order in at.headers && Decide(op, Some(at.headers[order].status)).Proceed?
    ensures var p := SettlePlan(at, order, MoveOf(op), Decide(op, Some(at.headers[order].status)).next);
            Run(at, Resolve(op, order)) == if Feasible(at, p) then (Carry(at, p), Outcome.Done) else (at, Refused)
  {
    assert StatusOf(at, order) == Some(at.headers[order].status);
  }

  lemma LapsingIsRun(at: Tables, order: Id, nowMs: int)
    requires HasLapsed(at, order, nowMs)
    ensures var p := SettlePlan(at, order, Releasing, Released);
            Run(at, Lapse(order, nowMs)) == if Feasible(at, p) then (Carry(at, p), Outcome.Done) else (at, Refused)
  {
  }

  lemma FencingIsRun(at: Tables, order: Id)
    requires order !in at.headers
    ensures Run(at, Resolve(ReleaseOp, order))
            == (at.(headers := at.headers[order := Header(Fenced, None)]), Outcome.Done)
  {
    var p := Plan(order, Releasing, map[], Header(Fenced, None));
    assert MovedStock(at.stock, p) == at.stock && MovedLines(at.lines, p) == at.lines;
    assert PlanOf(at, Resolve(ReleaseOp, order)) == Some(p);
  }

  lemma NotProceeding(at: Tables, op: FenceOp, order: Id)
    requires !Decide(op, StatusOf(at, order)).Proceed?
    ensures Run(at, Resolve(op, order)) == (at, Unchanged(Decide(op, StatusOf(at, order)).Conflict?))
  {
  }

  // The answer to a command, and what became of the tables, are those of the atomic command at commit; it
  // throws only for want of time, or when a row of the order cannot take the move.
  ghost predicate AnswersTo(r: CommandOutcome, tables: Tables, at: Tables, done: (Tables, Outcome), late: bool) {
    match r
    case Applied => done == (tables, Outcome.Done)
    case AlreadyApplied => tables == at && done == (at, Unchanged(false))
    case Refusal => tables == at && done == (at, Unchanged(true))
    case Threw => tables == at && (late || done == (at, Refused))
  }

  // The command is due: an order held can be committed or released, one never seen released, one committed
  // restocked.
  predicate IsDue(op: FenceOp, status: Option<OrderStatus>) {
    match op
    case TryOp => status.None?
    case CommitOp => status == Some(Held)
    case ReleaseOp => status.None? || status == Some(Held)
    case RestockOp => status == Some(Committed)
  }

  // The command was carried out before.
  predicate IsDone(op: FenceOp, status: Option<OrderStatus>) {
    match op
    case TryOp => status == Some(Held)
    case CommitOp => status == Some(Committed)
    case ReleaseOp => status == Some(Released) || status == Some(Fenced)
    case RestockOp => status == Some(Restocked)
  }

  /**
   * With time left, on rows whose version is not used up, the order's header alone decides a commit, a release
   * and a restock: applied when due, already applied when done, and refused otherwise.
   */
  lemma HeaderDecidesCommand(r: CommandOutcome, tables: Tables, at: Tables, op: FenceOp, order: Id)
    requires AnswersTo(r, tables, at, Run(at, Resolve(op, order)), false) && !op.TryOp?
    requires Inv(at) && Positive(at) && forall v :: v in at.stock ==> at.stock[v].version < INT4_MAX
    ensures r == if IsDue(op, StatusOf(at, order)) then Applied
                 else if IsDone(op, StatusOf(at, order)) then AlreadyApplied else Refusal
    ensures r.Applied? ==>
              StatusOf(tables, order)
              == match op
                 case TryOp => Some(Held)
                 case CommitOp => Some(Committed)
                 case ReleaseOp => if order in at.headers then Some(Released) else Some(Fenced)
                 case RestockOp => Some(Restocked)
  {
    if PlanOf(at, Resolve(op, order)).Some? {
      SettlingNeverBreaksAConstraint(at, Resolve(op, order));
    }
  }

  // ---------------------------------------------------------------- what a try answers

  // A row of the order would break a constraint, though there is enough of it.
  ghost predicate BreaksConstraint(at: Tables, order: Id, lines: seq<ReservationLine>) {
    exists l :: l in lines && StockRepository.IsThere(at.stock, order, at.lines, l)
                && !RowOk(Moved(Reserving, l.quantity, at.stock[l.variant]))
  }

  // A line of the order of which too few are available, as the answer says.
  ghost predicate IsShort(at: Tables, order: Id, lines: seq<ReservationLine>, v: Id, requested: int, available: int) {
    && ReservationLine(v, requested) in lines
    && if v in at.stock then Key(order, v) !in at.lines && available == Available(at.stock[v]) < requested
       else available == 0
  }

  /**
   * The answer to a try, and what became of the tables. It is the answer of the atomic try at commit, unless
   * time ran out, a row cannot take the hold, or `overtaken` says the retries for one of its rows ran out.
   */
  ghost predicate TryAnswers(r: TryOutcome, tables: Tables, at: Tables, done: (Tables, Outcome), order: Id,
                             lines: seq<ReservationLine>, late: bool, overtaken: Id -> bool)
  {
    match r
    case TryReserved => tables == done.0 && (done.1.Done? || done.1 == Unchanged(false))
    case TryConflict => tables == at && done == (at, Unchanged(true))
    case TryOutOfStock(v, requested, available) =>
      tables == at && done == (at, OutOfStock) && IsShort(at, order, lines, v, requested, available)
    case TryContended =>
      && tables == at && order !in at.headers
      && exists l :: l in lines && StockRepository.IsThere(at.stock, order, at.lines, l) && overtaken(l.variant)
    case TryThrew => tables == at && (late || (order !in at.headers && BreaksConstraint(at, order, lines)))
  }

  // A refused try leaves the tables alone, and the atomic try is refused with it.
  lemma TryRefused(at: Tables, late: bool, order: Id, lines: seq<ReservationLine>, holdUntil: int, r: ReserveResult,
                   overtaken: Id -> bool)
    requires order !in at.headers && LinesHaveStock(at)
    requires StockRepository.Refused(at.stock, late, order, at.lines, lines, r)
    requires r.Contended? ==> overtaken(r.variant)
    ensures TryAnswers(InventoryParticipant.OutcomeOf(r), at, at, Run(at, Try(order, lines, holdUntil)), order, lines,
                       late, overtaken)
  {
    var l :| l in lines && StockRepository.IsTrueOf(at.stock, late, order, at.lines, l, r)
             && (Key(order, l.variant) in at.lines || r.TimedOut? || StockRepository.Asks(order, lines, l));
    if r.TooFew? {
      assert ReservationLine(l.variant, l.quantity) == l;
      var p := PlanOf(at, Try(order, lines, holdUntil)).value;
      assert Short(at, p, Key(order, l.variant)) && !Covers(at.stock, p, Key(order, l.variant));
    }
  }

  // The line is held already, or there is enough to hold it.
  predicate HasEnough(at: Tables, order: Id, l: ReservationLine) {
    || Key(order, l.variant) in at.lines
    || (l.variant in at.stock && l.quantity <= Available(at.stock[l.variant]))
  }

  // Each variant the lines name can be held, in the quantity it is named in first.
  ghost predicate AllEnough(at: Tables, order: Id, lines: seq<ReservationLine>) {
    forall i :: 0 <= i < |lines| && NamesFirst(lines, i) ==> HasEnough(at, order, lines[i])
  }

  // The first line to name the variant of line i.
  lemma {:induction false} FirstNaming(lines: seq<ReservationLine>, i: nat) returns (j: nat)
    requires i < |lines|
    ensures j <= i && lines[j].variant == lines[i].variant && NamesFirst(lines, j)
  {
    j := i;
    if !NamesFirst(lines, i) {
      var m :| 0 <= m < i && lines[m].variant == lines[i].variant;
      j := FirstNaming(lines, m);
    }
  }

  // What a plan for the lines needs is there exactly when there is enough of every variant they name.
  lemma EnoughIsNoneShort(at: Tables, order: Id, lines: seq<ReservationLine>, holdUntil: int)
    requires order !in at.headers
    ensures var p := PlanOf(at, Try(order, lines, holdUntil)).value;
            AllEnough(at, order, lines) <==> forall k :: k in p.need ==> !Short(at, p, k)
  {
    var p := PlanOf(at, Try(order, lines, holdUntil)).value;
    FirstNamedCounts(order, lines);
    forall k | k in p.need
      ensures exists i :: 0 <= i < |lines| && NamesFirst(lines, i) && k == Key(order, lines[i].variant)
    {
      var m :| 0 <= m < |lines| && lines[m].variant == k.variant;
      var i := FirstNaming(lines, m);
    }
    if forall k :: k in p.need ==> !Short(at, p, k) {
      forall i | 0 <= i < |lines| && NamesFirst(lines, i) ensures HasEnough(at, order, lines[i]) {
        assert Key(order, lines[i].variant) in p.need ==> !Short(at, p, Key(order, lines[i].variant));
      }
    }
  }

  /**
   * With time left, on rows whose version is not used up, the fence and the rows at commit decide a try: done
   * before, refused by the fence, reserved when there is enough of every variant, out of stock when there is
   * not. Only lost retries leave it undecided.
   */
  lemma FenceAndStockDecideTry(r: TryOutcome, tables: Tables, at: Tables, order: Id, lines: seq<ReservationLine>,
                               holdUntil: int, overtaken: Id -> bool)
    requires TryAnswers(r, tables, at, Run(at, Try(order, lines, holdUntil)), order, lines, false, overtaken)
    requires forall l :: l in lines ==> 0 < l.quantity
    requires forall v :: v in at.stock ==> RowOk(at.stock[v]) && at.stock[v].version < INT4_MAX
    ensures !r.TryThrew?
    ensures order in at.headers ==>
              tables == at && r == if at.headers[order].status.Held? then TryReserved else TryConflict
    ensures order !in at.headers ==>
              || r.TryContended?
              || if AllEnough(at, order, lines) then r.TryReserved? else r.TryOutOfStock?
  {
    if order !in at.headers {
      EnoughIsNoneShort(at, order, lines, holdUntil);
      var p := PlanOf(at, Try(order, lines, holdUntil)).value;
      assert forall k :: k in p.need && Short(at, p, k) ==> !Covers(at.stock, p, k);
      FirstQuantitiesPositive(order, lines);
      assert forall k :: k in p.need && !Short(at, p, k) ==> Covers(at.stock, p, k);
    }
  }

  // ---------------------------------------------------------------- what the sweep may free

  // The order is held, and its deadline has passed.
  predicate IsOverdue(headers: map<Id, Header>, order: Id, nowMs: int) {
    && order in headers && headers[order].status == Held
    && headers[order].holdUntil.Some? && headers[order].holdUntil.value < nowMs
  }

  // Of the orders there were, those of `freed` were overdue, are released and hold nothing, and the others
  // are as they were.
  ghost predicate SweptTo(was: Tables, now: Tables, orders: seq<Id>, nowMs: int, freed: set<Id>) {
    && (forall o :: o in freed ==> o in orders && IsOverdue(was.headers, o, nowMs))
    && now.headers == (map o | o in was.headers ::
                         if o in freed then was.headers[o].(status := Released) else was.headers[o])
    && now.lines == SweptLines(was.lines, freed)
  }

  function SweptLines(lines: map<Key, Line>, freed: set<Id>): map<Key, Line> {
    map k | k in lines :: if k.order in freed && lines[k].status.LineHeld? then Line(lines[k].quantity, LineReleased)
      else lines[k]
  }

  lemma LapsesOneMore(
    was: Tables, before: Tables, at: Tables, orders: seq<Id>, nowMs: int, freed: set<Id>, order: Id)
    requires SweptTo(was, before, orders, nowMs, freed) && order in orders
    requires at.headers == before.headers && at.lines == before.lines
    requires Run(at, Lapse(order, nowMs)).1 == Outcome.Done
    ensures order !in freed && SweptTo(was, Run(at, Lapse(order, nowMs)).0, orders, nowMs, freed + {order})
  {
    var p := SettlePlan(at, order, Releasing, Released);
    LapsingIsRun(at, order, nowMs);
    LapseReleasesLines(was, at, freed, order, p);
  }

  lemma LapseReleasesLines(was: Tables, at: Tables, freed: set<Id>, order: Id, p: Plan)
    requires at.lines == SweptLines(was.lines, freed) && order !in freed
    requires p.move == Releasing && p.need == Pending(at.lines, order, LineHeld)
    ensures MovedLines(at.lines, p) == SweptLines(was.lines, freed + {order})
  {
  }

  // An order that is still overdue is not among those freed, and holds what it held.
  lemma PendingUntilFreed(was: Tables, now: Tables, orders: seq<Id>, nowMs: int, freed: set<Id>, order: Id)
    requires SweptTo(was, now, orders, nowMs, freed) && IsOverdue(now.headers, order, nowMs)
    ensures order !in freed && Pending(now.lines, order, LineHeld) == Pending(was.lines, order, LineHeld)
  {
  }

  lemma KeepsOn(a: map<Id, Stock>, b: map<Id, Stock>, c: map<Id, Stock>)
    requires Keeps(a, b) && Keeps(b, c)
    ensures Keeps(a, c)
  {
  }

  ghost predicate AllFailed(failed: map<nat, Tables>, count: nat, failure: (nat, Tables) -> bool) {
    forall i :: i in failed ==> i < count && failure(i, failed[i])
  }

  lemma OneMoreFailed(failed: map<nat, Tables>, count: nat, at: Tables, failure: (nat, Tables) -> bool)
    requires AllFailed(failed, count, failure) && failure(count, at)
    ensures AllFailed(failed[count := at], count + 1, failure) && |failed[count := at]| == |failed| + 1
  {
    assert failed[count := at].Keys == failed.Keys + {count};
  }

  // What became of each hold of a sweep: the holds freed, and the tables another's try to free it failed on.
  datatype Verdicts = Verdicts(freed: set<Id>, failed: map<nat, Tables>)

  class InventoryParticipant {
    var tables: Tables
    var transactions: nat
    const repository: StockRepository
    const strategy: LockStrategy
    const others: (nat, nat, map<Id, Stock>) -> map<Id, Stock>
    const expired: (nat, nat) -> bool
    // Header rows another transaction has locked at the time.
    const busy: (nat, Id) -> bool

    constructor (tables: Tables, repository: StockRepository, strategy: LockStrategy,
                 others: (nat, nat, map<Id, Stock>) -> map<Id, Stock>, expired: (nat, nat) -> bool,
                 busy: (nat, Id) -> bool)
      requires (forall n, i, stock :: Keeps(stock, others(n, i, stock))) && LinesHaveStock(tables)
      ensures Valid() && this.tables == tables
    {
      this.tables, transactions := tables, 0;
      this.repository, this.strategy := repository, strategy;
      this.others, this.expired, this.busy := others, expired, busy;
    }

    ghost predicate Valid()
      reads this
    {
      (forall n, i, stock :: Keeps(stock, others(n, i, stock))) && LinesHaveStock(tables)
    }

    // A statement of transaction `n` finds its time up.
    ghost predicate RunsOutOfTime(n: nat) {
      exists i: nat :: expired(n, i)
    }

    method Begin(ghost plan: Plan) returns (tx: Transaction, ok: bool)
      requires Valid() && plan.need == map[]
      modifies this`transactions
      ensures fresh(tx) && tx.Valid() && tx.plan == plan && tx.written == map[]
      ensures tx.committed == tables.stock && tx.atBegin == tables.stock.Keys && tx.lines == tables.lines
      ensures transactions == old(transactions) + 1
      ensures tx.RunsOutOfTime() == RunsOutOfTime(old(transactions))
      ensures !ok ==> RunsOutOfTime(old(transactions))
    {
      var n := transactions;
      tx := new Transaction(tables.stock, tables.lines, (i: nat, stock) => others(n, i, stock),
        (i: nat) => expired(n, i), plan);
      transactions := transactions + 1;
      assert forall i: nat :: tx.expired(i) == expired(n, i);
      ok := tx.Limit();
    }

    method Reserve(tx: Transaction, order: Id, lines: seq<ReservationLine>) returns (r: ReserveResult)
      requires repository.Holding(tx, order, tx.lines, [])
      modifies tx
      ensures tx.Valid()
      ensures r.Reserved? ==> repository.Holding(tx, order, old(tx.lines), lines)
      ensures !r.Reserved? ==> repository.Refuses(tx, order, old(tx.lines), lines, r)
      ensures r.Contended? ==> strategy.Optimistic? && repository.Overtaken(old(tx.committed), tx.committed, r.variant)
    {
      if strategy.Optimistic? {
        r := repository.ReserveOptimistic(tx, order, lines);
      } else {
        r := repository.ReservePessimistic(tx, order, lines);
      }
    }

    /**
     * Both strategies do what the atomic command does on the tables as they are at commit; any other
     * outcome leaves the tables as the others made them, and is true of them and of this transaction: its time
     * ran out, a row cannot take the hold, or, in the optimistic form only, a row the order could have held was
     * written by others more often than it is retried.
     */
    method TryReserve(order: Id, lines: seq<ReservationLine>, holdUntil: int) returns (r: TryOutcome, ghost at: Tables)
      requires Valid()
      modifies this`tables, this`transactions
      ensures Valid() && at.lines == old(tables).lines && at.headers == old(tables).headers
      ensures TryAnswers(r, tables, at, Run(at, Try(order, lines, holdUntil)), order, lines,
                         RunsOutOfTime(old(transactions)), Overtakes(old(tables), at))
      ensures r.TryContended? ==> strategy.Optimistic?
    {
      var tx, ok := Begin(Plan(order, Reserving, map[], Header(Held, None)));
      r := TryThrew;
      if ok {
        if order !in tables.headers {
          var held := Reserve(tx, order, lines);
          r := OutcomeOf(held);
          at := Tables(tx.committed, tables.lines, tables.headers);
          if !held.Reserved? {
            TryRefused(at, RunsOutOfTime(old(transactions)), order, lines, holdUntil, held, Overtakes(old(tables), at));
          } else {
            CarriesOut(tx.committed, tx.written, at, tx.plan.(header := Header(Held, Some(holdUntil))));
            tables := Tables(tx.Rows(), tx.lines, tables.headers[order := Header(Held, Some(holdUntil))]);
            return;
          }
        } else if Decide(TryOp, Some(tables.headers[order].status)).Conflict? {
          r := TryConflict;
        } else {
          r := TryReserved;
        }
      }
      at := Tables(tx.committed, tables.lines, tables.headers);
      tables := Tables(tx.committed, tables.lines, tables.headers);
    }

    // The variants whose retries others used up.
    ghost function Overtakes(was: Tables, now: Tables): Id -> bool {
      (v: Id) => repository.Overtaken(was.stock, now.stock, v)
    }

    static function OutcomeOf(r: ReserveResult): TryOutcome {
      match r
      case Reserved => TryReserved
      case TooFew(v, requested, available) => TryOutOfStock(v, requested, available)
      case Contended(_) => TryContended
      case _ => TryThrew
    }

    // Moves the order's lines and sets its header; what is left is to commit.
    method Settle(tx: Transaction, order: Id, move: Move, next: OrderStatus) returns (after: Option<Tables>)
      requires tx.Valid() && tx.plan == Plan(order, move, map[], Header(Held, None)) && !move.Reserving?
      requires order in tables.headers && tx.lines == tables.lines
      requires forall k :: k in tables.lines ==> k.variant in tx.atBegin
      modifies tx
      ensures tx.Valid()
      ensures after.Some? ==>
                var at := Tables(tx.committed, tables.lines, tables.headers);
                var p := SettlePlan(at, order, move, next);
                && after.value == Carry(at, p) && Feasible(at, p) && LinesHaveStock(after.value)
      ensures Keeps(old(tx.committed), tx.committed)
      // It gives up only when time runs out or a row of the order cannot take the move.
      ensures after.None? ==>
                var at := Tables(tx.committed, tables.lines, tables.headers);
                tx.RunsOutOfTime() || !Feasible(at, SettlePlan(at, order, move, next))
    {
      assert tx.plan == repository.MovePlan(order, tables.lines, move, {});
      assert MovedLines(tables.lines, tx.plan) == tables.lines;
      var ok, _ := repository.MoveLines(tx, order, move);
      if !ok {
        return None;
      }
      var header := tables.headers[order].(status := next);
      CarriesOut(tx.committed, tx.written, Tables(tx.committed, tables.lines, tables.headers),
        tx.plan.(header := header));
      return Some(Tables(tx.Rows(), tx.lines, tables.headers[order := header]));
    }

    /** Commit, release and restock. A release that finds no header writes the fence and touches no stock. */
    method RunCommand(op: FenceOp, order: Id) returns (r: CommandOutcome, ghost at: Tables)
      requires Valid() && !op.TryOp?
      modifies this`tables, this`transactions
      ensures Valid() && at.lines == old(tables).lines && at.headers == old(tables).headers
      ensures AnswersTo(r, tables, at, Run(at, Resolve(op, order)), RunsOutOfTime(old(transactions)))
    {
      var move := MoveOf(op);
      var tx, ok := Begin(Plan(order, move, map[], Header(Held, None)));
      if !ok {
        return Threw, tables;
      }
      if order !in tables.headers {
        r, at := CommandWithoutHeader(op, order);
      } else {
        r, at := CommandWithHeader(tx, op, order);
      }
    }

    method CommandWithHeader(tx: Transaction, op: FenceOp, order: Id) returns (r: CommandOutcome, ghost at: Tables)
      requires Valid() && !op.TryOp? && order in tables.headers && tx.lines == tables.lines
      requires tx.Valid() && tx.plan == Plan(order, MoveOf(op), map[], Header(Held, None))
               && tx.atBegin == tables.stock.Keys
      modifies this`tables, tx
      ensures Valid() && at.lines == old(tables).lines && at.headers == old(tables).headers
      ensures AnswersTo(r, tables, at, Run(at, Resolve(op, order)), tx.RunsOutOfTime())
    {
      match Decide(op, Some(tables.headers[order].status)) {
        case Proceed(next) =>
          var after := Settle(tx, order, MoveOf(op), next);
          at := Tables(tx.committed, tables.lines, tables.headers);
          SettlingIsRun(at, op, order);
          tables := if after.Some? then after.value else Tables(tx.committed, tables.lines, tables.headers);
          r := if after.Some? then Applied else Threw;
        case _ =>
          at := tables;
          NotProceeding(at, op, order);
          r := if Decide(op, Some(tables.headers[order].status)).Conflict? then Refusal else AlreadyApplied;
      }
    }

    method CommandWithoutHeader(op: FenceOp, order: Id) returns (r: CommandOutcome, ghost at: Tables)
      requires Valid() && !op.TryOp? && order !in tables.headers
      modifies this`tables
      ensures Valid() && at == old(tables)
      ensures AnswersTo(r, tables, at, Run(at, Resolve(op, order)), false)
    {
      at := tables;
      if !op.ReleaseOp? {
        NotProceeding(at, op, order);
        return Refusal, at;
      }
      FencingIsRun(at, order);
      tables := tables.(headers := tables.headers[order := Header(Fenced, None)]);
      return Applied, at;
    }

    // One lapsed hold: None when it threw, false when it was locked or no longer lapsed.
    method ReleaseOne(order: Id, nowMs: int) returns (r: Option<bool>, ghost at: Tables)
      requires Valid()
      modifies this`tables, this`transactions
      ensures Valid() && transactions == old(transactions) + 1
      ensures IsVerdict(r, old(transactions), order, nowMs, old(tables), at, tables)
    {
      var locked := !busy(transactions, order);
      var tx, _ := Begin(Plan(order, Releasing, map[], Header(Held, None)));
      r := Some(false);
      if locked && HasLapsed(Tables(map[], map[], tables.headers), order, nowMs) {
        var after := Settle(tx, order, Releasing, Released);
        at := Tables(tx.committed, tables.lines, tables.headers);
        LapsingIsRun(at, order, nowMs);
        if after.Some? {
          tables := after.value;
          return Some(true), at;
        }
        r := None;
      }
      at := Tables(tx.committed, tables.lines, tables.headers);
      tables := Tables(tx.committed, tables.lines, tables.headers);
    }

    /**
     * What transaction `n` answers for one order, on tables that were `before` when it began, are `at` when it
     * commits and `now` after it. Freed means it ran as the atomic lapse; raced, that the header was locked or
     * was not overdue; failed, that the order was overdue and the transaction could not do it.
     */
    ghost predicate IsVerdict(r: Option<bool>, n: nat, order: Id, nowMs: int, before: Tables, at: Tables, now: Tables) {
      && at.lines == before.lines && at.headers == before.headers && Keeps(before.stock, at.stock)
      && match r
         case Some(freed) =>
           if freed then Run(at, Lapse(order, nowMs)) == (now, Outcome.Done)
           else now == at && (busy(n, order) || !IsOverdue(at.headers, order, nowMs))
         case None => now == at && IsOverdue(at.headers, order, nowMs) && FailedTruly(n, order, nowMs, at)
    }

    // Transaction `n` ran out of time, or a row of the order could not give the hold back.
    ghost predicate FailedTruly(n: nat, order: Id, nowMs: int, at: Tables) {
      RunsOutOfTime(n) || Run(at, Lapse(order, nowMs)) == (at, Refused)
    }

    /**
     * The sweep settles every hold it was given: released, raced, which only a lock or a hold that is not
     * overdue explains, or failed for a true reason. It only ever turns held orders whose deadline has passed
     * into released ones, with their lines.
     */
    method ReleaseLapsed(orders: seq<Id>, nowMs: int) returns (s: Sweep, ghost v: Verdicts)
      requires Valid()
      modifies this`tables, this`transactions
      ensures Valid() && s.scanned == |orders| == s.released + s.raced + s.errors
      ensures s.released == |v.freed| && s.errors == |v.failed|
      ensures SweptTo(old(tables), tables, orders, nowMs, v.freed)
      ensures Accounts(old(transactions), old(tables), orders, |orders|, nowMs, v)
    {
      s, v := Sweep(|orders|, 0, 0, 0), Verdicts({}, map[]);
      for i := 0 to |orders|
        invariant SweptSoFar(old(transactions), old(tables), orders, i, nowMs, s, v)
      {
        s, v := SweepOne(old(transactions), old(tables), orders, i, nowMs, s, v);
      }
    }

    ghost predicate SweptSoFar(first: nat, was: Tables, orders: seq<Id>, count: nat, nowMs: int, s: Sweep, v: Verdicts)
      reads this
    {
      Valid() && transactions == first + count && IsTally(first, was, tables, orders, count, nowMs, s, v)
    }

    ghost predicate IsTally(first: nat, was: Tables, now: Tables, orders: seq<Id>, count: nat, nowMs: int, s: Sweep,
                            v: Verdicts)
    {
      && s.scanned == |orders| && count == s.released + s.raced + s.errors && count <= |orders|
      && s.released == |v.freed| && s.errors == |v.failed| && Keeps(was.stock, now.stock)
      && SweptTo(was, now, orders, nowMs, v.freed) && Accounts(first, was, orders, count, nowMs, v)
    }

    function Tallied(s: Sweep, r: Option<bool>): Sweep {
      match r
      case Some(true) => s.(released := s.released + 1)
      case Some(false) => s.(raced := s.raced + 1)
      case None => s.(errors := s.errors + 1)
    }

    ghost function Judged(v: Verdicts, order: Id, i: nat, r: Option<bool>, at: Tables): Verdicts {
      match r
      case Some(true) => v.(freed := v.freed + {order})
      case Some(false) => v
      case None => v.(failed := v.failed[i := at])
    }

    method SweepOne(ghost first: nat, ghost was: Tables, orders: seq<Id>, i: nat, nowMs: int, s: Sweep,
                    ghost v: Verdicts)
      returns (s': Sweep, ghost v': Verdicts)
      requires SweptSoFar(first, was, orders, i, nowMs, s, v) && i < |orders|
      modifies this`tables, this`transactions
      ensures SweptSoFar(first, was, orders, i + 1, nowMs, s', v')
    {
      ghost var before := tables;
      var r, at := ReleaseOne(orders[i], nowMs);
      TalliesOneMore(first, was, before, at, tables, orders, i, nowMs, s, v, r);
      s', v' := Tallied(s, r), Judged(v, orders[i], i, r, at);
    }

    lemma TalliesOneMore(first: nat, was: Tables, before: Tables, at: Tables, now: Tables, orders: seq<Id>, i: nat,
                         nowMs: int, s: Sweep, v: Verdicts, r: Option<bool>)
      requires IsTally(first, was, before, orders, i, nowMs, s, v) && i < |orders|
      requires IsVerdict(r, first + i, orders[i], nowMs, before, at, now)
      ensures IsTally(first, was, now, orders, i + 1, nowMs, Tallied(s, r), Judged(v, orders[i], i, r, at))
    {
      KeepsOn(was.stock, before.stock, at.stock);
      match r {
        case Some(true) => FreesOneMore(first, was, before, at, orders, i, nowMs, v);
        case Some(false) => RacesOneMore(first, was, before, at, orders, i, nowMs, v);
        case None => FailsOneMore(first, was, before, at, orders, i, nowMs, v);
      }
    }

    lemma FreesOneMore(first: nat, was: Tables, before: Tables, at: Tables, orders: seq<Id>, i: nat, nowMs: int,
                       v: Verdicts)
      requires Accounts(first, was, orders, i, nowMs, v) && i < |orders| && Keeps(was.stock, at.stock)
      requires SweptTo(was, before, orders, nowMs, v.freed) && at.headers == before.headers && at.lines == before.lines
      requires Run(at, Lapse(orders[i], nowMs)).1 == Outcome.Done
      ensures var now := Run(at, Lapse(orders[i], nowMs)).0;
              SweptTo(was, now, orders, nowMs, v.freed + {orders[i]}) && Keeps(was.stock, now.stock)
      ensures Accounts(first, was, orders, i + 1, nowMs, v.(freed := v.freed + {orders[i]}))
      ensures |v.freed + {orders[i]}| == |v.freed| + 1
    {
      LapsesOneMore(was, before, at, orders, nowMs, v.freed, orders[i]);
      EveryWriteBumpsTheVersion(at, Lapse(orders[i], nowMs));
      KeepsOn(was.stock, at.stock, Run(at, Lapse(orders[i], nowMs)).0.stock);
    }

    lemma RacesOneMore(first: nat, was: Tables, before: Tables, at: Tables, orders: seq<Id>, i: nat, nowMs: int,
                       v: Verdicts)
      requires Accounts(first, was, orders, i, nowMs, v) && i < |orders|
      requires SweptTo(was, before, orders, nowMs, v.freed) && at.headers == before.headers && at.lines == before.lines
      requires busy(first + i, orders[i]) || !IsOverdue(at.headers, orders[i], nowMs)
      ensures SweptTo(was, at, orders, nowMs, v.freed) && Accounts(first, was, orders, i + 1, nowMs, v)
    {
    }

    lemma FailsOneMore(first: nat, was: Tables, before: Tables, at: Tables, orders: seq<Id>, i: nat, nowMs: int,
                       v: Verdicts)
      requires Accounts(first, was, orders, i, nowMs, v) && i < |orders| && Keeps(was.stock, at.stock)
      requires SweptTo(was, before, orders, nowMs, v.freed) && at.headers == before.headers && at.lines == before.lines
      requires IsOverdue(at.headers, orders[i], nowMs) && FailedTruly(first + i, orders[i], nowMs, at)
      ensures SweptTo(was, at, orders, nowMs, v.freed)
      ensures Accounts(first, was, orders, i + 1, nowMs, v.(failed := v.failed[i := at]))
      ensures |v.failed[i := at]| == |v.failed| + 1
    {
      PendingUntilFreed(was, at, orders, nowMs, v.freed, orders[i]);
      OneMoreFailed(v.failed, i, at, FailureOf(first, was, orders, nowMs));
    }

    // Each of the first `count` orders is freed, was locked or not overdue, or its try failed for a true reason.
    ghost predicate Accounts(first: nat, was: Tables, orders: seq<Id>, count: nat, nowMs: int, v: Verdicts) {
      && count <= |orders|
      && AllFailed(v.failed, count, FailureOf(first, was, orders, nowMs))
      && (forall i :: 0 <= i < count && i !in v.failed && orders[i] !in v.freed ==>
            busy(first + i, orders[i]) || !IsOverdue(was.headers, orders[i], nowMs))
    }

    ghost function FailureOf(first: nat, was: Tables, orders: seq<Id>, nowMs: int): (nat, Tables) -> bool {
      (i: nat, at: Tables) => i < |orders| && FailedOn(first + i, was, orders[i], nowMs, at)
    }

    // Transaction `n` failed on tables `at`, on which the order held what it held when the sweep began.
    ghost predicate FailedOn(n: nat, was: Tables, order: Id, nowMs: int, at: Tables) {
      && FailedTruly(n, order, nowMs, at) && Keeps(was.stock, at.stock)
      && Pending(at.lines, order, LineHeld) == Pending(was.lines, order, LineHeld)
    }
  }
}
