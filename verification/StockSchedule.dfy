/**
 * Any number of transactions interleaved under row locks. Each takes its order's header first and then
 * stock rows in one shared order; commits amount to the atomic commands, and no set of them ever deadlocks.
 */
module StockSchedule {
  import opened Wrappers
  import opened StockTables
  import opened StockInvariant
  import opened LockOrder
  import StockRepositories

  datatype Resource = HeaderLock(order: Id) | StockLock(variant: Id)

  // Working: the header is locked and the plan made; `todo` are the rows still to lock, and `written` the
  // rows changed so far, which nobody else sees yet.
  datatype Txn =
    | Started(command: Command)
    | Working(command: Command, plan: Plan, todo: seq<Id>, locked: set<Id>, written: map<Id, Stock>)

  datatype World = World(tables: Tables, txns: map<nat, Txn>)

  datatype Step =
    | Begin(tid: nat, command: Command)
    | MakePlan(tid: nat, todo: seq<Id>)
    | SkipRow(tid: nat)
    | LockRow(tid: nat)
    | Commit(tid: nat)
    | WriteAtOnce(tid: nat)
    | End(tid: nat)

  predicate IsAdmin(c: Command) {
    c.SetOnHand? || c.Adjust? || c.TopUp?
  }

  function Holds(x: Txn): set<Resource> {
    match x
    case Started(_) => {}
    case Working(_, plan, _, locked, _) => {HeaderLock(plan.order)} + set v | v in locked :: StockLock(v)
  }

  // What its next statement needs; the sweep skips a header that is locked rather than wait for it, and
  // the seed only inserts rows nobody can have locked.
  function Wants(x: Txn): set<Resource> {
    match x
    case Started(c) =>
      if c.Try? || c.Resolve? then {HeaderLock(c.order)}
      else if c.SetOnHand? || c.Adjust? then {StockLock(c.variant)} else {}
    case Working(_, _, todo, _, _) => if todo == [] then {} else {StockLock(todo[0])}
  }

  predicate Free(w: World, tid: nat, r: Resource) {
    forall u :: u in w.txns && u != tid ==> r !in Holds(w.txns[u])
  }

  // `a` cannot take its next step before `b` ends.
  predicate WaitsFor(w: World, a: nat, b: nat) {
    && a in w.txns && b in w.txns && a != b && Wants(w.txns[a]) * Holds(w.txns[b]) != {}
  }

  predicate RowsInOrder(todo: seq<Id>) {
    forall i, j :: 0 <= i < j < |todo| ==> !Precedes(todo[j], todo[i])
  }

  // The rows a command goes through: a try's sorted lines, or the pending lines in the same order.
  predicate Visits(c: Command, p: Plan, todo: seq<Id>) {
    && RowsInOrder(todo)
    && (c.Try? ==> |todo| == |Sorted(c.lines)| && forall i :: 0 <= i < |todo| ==> todo[i] == Sorted(c.lines)[i].variant)
    && (!c.Try? ==> forall i :: 0 <= i < |todo| ==> Key(p.order, todo[i]) in p.need)
    && forall k :: k in p.need ==> k.variant in todo
  }

  function Committed(t: Tables, x: Txn): Tables
    requires x.Working?
  {
    Tables(t.stock + x.written, MovedLines(t.lines, x.plan), t.headers[x.plan.order := x.plan.header])
  }

  function LockedRow(t: Tables, x: Txn): Txn
    requires x.Working? && x.todo != []
  {
    var v := x.todo[0];
    var k := Key(x.plan.order, v);
    x.(todo := x.todo[1..], locked := x.locked + {v},
       written := if k in x.plan.need && v in t.stock && v !in x.written
                  then x.written[v := Moved(x.plan.move, x.plan.need[k], t.stock[v])] else x.written)
  }

  ghost predicate Next(w: World, step: Step, w': World) {
    match step
    case Begin(tid, c) => tid !in w.txns && w' == w.(txns := w.txns[tid := Started(c)])
    case MakePlan(tid, todo) =>
      && tid in w.txns && w.txns[tid].Started?
      && var c := w.txns[tid].command;
         && !IsAdmin(c) && PlanOf(w.tables, c).Some? && Free(w, tid, HeaderLock(c.order))
         && var p := PlanOf(w.tables, c).value;
            && Visits(c, p, todo)
            && w' == w.(txns := w.txns[tid := Working(c, p, todo, {}, map[])])
    // A line found held already is passed over without its row.
    case SkipRow(tid) =>
      && tid in w.txns && w.txns[tid].Working? && w.txns[tid].todo != []
      && Key(w.txns[tid].plan.order, w.txns[tid].todo[0]) !in w.txns[tid].plan.need
      && w' == w.(txns := w.txns[tid := w.txns[tid].(todo := w.txns[tid].todo[1..])])
    // SELECT FOR UPDATE and the update, or the CAS that wins: both judge the row as it is committed now.
    case LockRow(tid) =>
      && tid in w.txns && w.txns[tid].Working? && w.txns[tid].todo != []
      && var x := w.txns[tid];
         && x.todo[0] in w.tables.stock && Free(w, tid, StockLock(x.todo[0]))
         && (Key(x.plan.order, x.todo[0]) in x.plan.need ==>
            Covers(w.tables.stock, x.plan, Key(x.plan.order, x.todo[0])))
         && w' == w.(txns := w.txns[tid := LockedRow(w.tables, x)])
    case Commit(tid) =>
      && tid in w.txns && w.txns[tid].Working? && w.txns[tid].todo == []
      && w' == World(Committed(w.tables, w.txns[tid]), w.txns - {tid})
    // A single-statement transaction.
    case WriteAtOnce(tid) =>
      && tid in w.txns && w.txns[tid].Started? && IsAdmin(w.txns[tid].command)
      && (forall r :: r in Wants(w.txns[tid]) ==> Free(w, tid, r))
      && w' == World(Run(w.tables, w.txns[tid].command).0, w.txns - {tid})
    // Refused, timed out, raced, crashed or nothing to do: what was written is gone with it.
    case End(tid) => tid in w.txns && w' == w.(txns := w.txns - {tid})
  }

  // ---------------------------------------------------------------- what every step keeps

  // A working transaction's plan is the one the tables still call for, and what it wrote is what the plan
  // makes of rows that are still as it found them.
  ghost predicate TxnOk(t: Tables, x: Txn) {
    x.Working? ==>
      && !IsAdmin(x.command) && PlanOf(t, x.command) == Some(x.plan) && x.plan.order == x.command.order
      && RowsInOrder(x.todo) && x.locked <= t.stock.Keys
      && (forall v, i :: v in x.locked && 0 <= i < |x.todo| ==> !Precedes(x.todo[i], v))
      && (forall v :: v in x.written ==>
            && v in x.locked && Key(x.plan.order, v) in x.plan.need
            && Covers(t.stock, x.plan, Key(x.plan.order, v))
            && x.written[v] == Moved(x.plan.move, x.plan.need[Key(x.plan.order, v)], t.stock[v]))
      && (forall k :: k in x.plan.need ==> k.variant in x.written || k.variant in x.todo)
  }

  ghost predicate Exclusive(w: World) {
    forall a, b, r :: a in w.txns && b in w.txns && r in Holds(w.txns[a]) && r in Holds(w.txns[b]) ==> a == b
  }

  ghost predicate Ok(w: World) {
    Inv(w.tables) && Exclusive(w) && forall tid :: tid in w.txns ==> TxnOk(w.tables, w.txns[tid])
  }

  // What a plan is made from: the order's header and lines.
  predicate SameOrder(t: Tables, t': Tables, order: Id) {
    && StatusOf(t, order) == StatusOf(t', order)
    && (order in t.headers ==> t.headers[order] == t'.headers[order])
    && (forall k: Key :: k.order == order && k in t.lines ==> k in t'.lines && t'.lines[k] == t.lines[k])
    && (forall k: Key :: k.order == order && k in t'.lines ==> k in t.lines)
  }

  lemma PlanIsStable(t: Tables, t': Tables, c: Command)
    requires !IsAdmin(c) && SameOrder(t, t', c.order)
    ensures PlanOf(t', c) == PlanOf(t, c)
  {
    if c.Try? {
      FirstQuantitiesOfOrder(c.order, c.lines);
      assert Unheld(t'.lines, FirstQuantities(c.order, c.lines)) == Unheld(t.lines, FirstQuantities(c.order, c.lines));
    } else {
      assert Pending(t'.lines, c.order, LineHeld) == Pending(t.lines, c.order, LineHeld);
      assert Pending(t'.lines, c.order, LineCommitted) == Pending(t.lines, c.order, LineCommitted);
    }
  }

  lemma TxnStaysOk(t: Tables, t': Tables, x: Txn)
    requires TxnOk(t, x)
    requires x.Working? ==> SameOrder(t, t', x.plan.order) && t.stock.Keys <= t'.stock.Keys
    requires x.Working? ==> forall v :: v in x.locked ==> v in t.stock && t'.stock[v] == t.stock[v]
    ensures TxnOk(t', x)
  {
    if x.Working? {
      PlanIsStable(t, t', x.command);
    }
  }

  lemma CommittedIsCarry(t: Tables, x: Txn)
    requires LinesAgree(t) && x.Working? && TxnOk(t, x) && x.todo == []
    ensures Feasible(t, x.plan) && Committed(t, x) == Carry(t, x.plan)
  {
    PlansFit(t, x.command);
    forall k | k in x.plan.need ensures k.variant in x.written && Covers(t.stock, x.plan, k) {
      assert FitsLine(t, x.plan, k);
      assert k == Key(x.plan.order, k.variant);
    }
    assert MovedStock(t.stock, x.plan) == t.stock + x.written;
  }

  lemma CarryIsRun(t: Tables, c: Command)
    requires !IsAdmin(c) && PlanOf(t, c).Some? && Feasible(t, PlanOf(t, c).value)
    ensures Run(t, c) == (Carry(t, PlanOf(t, c).value), Done)
  {
  }

  /** At its commit, a transaction does exactly what its command does as one step on the tables then. */
  lemma CommitIsRun(w: World, tid: nat)
    requires Ok(w) && tid in w.txns && w.txns[tid].Working? && w.txns[tid].todo == []
    ensures Run(w.tables, w.txns[tid].command) == (Committed(w.tables, w.txns[tid]), Done)
  {
    CommittedIsCarry(w.tables, w.txns[tid]);
    CarryIsRun(w.tables, w.txns[tid].command);
  }

  lemma CommitKeepsOthers(w: World, tid: nat, u: nat)
    requires Ok(w) && tid in w.txns && w.txns[tid].Working? && u in w.txns && u != tid
    ensures TxnOk(Committed(w.tables, w.txns[tid]), w.txns[u])
  {
    var x, y := w.txns[tid], w.txns[u];
    if y.Working? {
      assert HeaderLock(x.plan.order) in Holds(x) && HeaderLock(y.plan.order) in Holds(y);
      PlansFit(w.tables, x.command);
      forall v | v in y.locked ensures v !in x.written {
        assert StockLock(v) in Holds(y);
        assert v in x.written ==> StockLock(v) in Holds(x);
      }
      TxnStaysOk(w.tables, Committed(w.tables, x), y);
    }
  }

  // An admin write and a transaction that has not locked its row do not meet.
  lemma AdminStaysOk(t: Tables, c: Command, y: Txn)
    requires Inv(t) && IsAdmin(c) && y.Working? && TxnOk(t, y)
    requires c.SetOnHand? || c.Adjust? ==> c.variant !in y.locked
    ensures TxnOk(Run(t, c).0, y)
  {
    TxnStaysOk(t, Run(t, c).0, y);
  }

  lemma AdminKeepsOthers(w: World, tid: nat, u: nat)
    requires Ok(w) && tid in w.txns && w.txns[tid].Started? && IsAdmin(w.txns[tid].command) && u in w.txns && u != tid
    requires forall r :: r in Wants(w.txns[tid]) ==> Free(w, tid, r)
    ensures TxnOk(Run(w.tables, w.txns[tid].command).0, w.txns[u])
  {
    var c, y := w.txns[tid].command, w.txns[u];
    if y.Working? {
      if c.SetOnHand? || c.Adjust? {
        assert StockLock(c.variant) in Wants(w.txns[tid]);
        assert c.variant !in y.locked;
      }
      AdminStaysOk(w.tables, c, y);
    }
  }

  lemma LockRowKeepsTxn(w: World, tid: nat)
    requires Ok(w) && tid in w.txns && w.txns[tid].Working? && w.txns[tid].todo != []
    requires var x := w.txns[tid];
             && x.todo[0] in w.tables.stock
             && (Key(x.plan.order, x.todo[0]) in x.plan.need ==>
                Covers(w.tables.stock, x.plan, Key(x.plan.order, x.todo[0])))
    ensures TxnOk(w.tables, LockedRow(w.tables, w.txns[tid]))
  {
    var x := w.txns[tid];
    var x' := LockedRow(w.tables, x);
    PlansFit(w.tables, x.command);
    forall k | k in x.plan.need ensures k.variant in x'.written || k.variant in x'.todo {
      assert FitsLine(w.tables, x.plan, k);
      assert k.variant in x.todo ==> k.variant == x.todo[0] || k.variant in x.todo[1..];
    }
    forall v, i | v in x'.locked && 0 <= i < |x'.todo| ensures !Precedes(x'.todo[i], v) {
      assert x'.todo[i] == x.todo[i + 1];
    }
  }

  lemma SkipRowKeepsTxn(w: World, tid: nat)
    requires Ok(w) && tid in w.txns && w.txns[tid].Working? && w.txns[tid].todo != []
    requires Key(w.txns[tid].plan.order, w.txns[tid].todo[0]) !in w.txns[tid].plan.need
    ensures TxnOk(w.tables, w.txns[tid].(todo := w.txns[tid].todo[1..]))
  {
    var x := w.txns[tid];
    PlansFit(w.tables, x.command);
    forall k | k in x.plan.need && k.variant !in x.written ensures k.variant in x.todo[1..] {
      assert FitsLine(w.tables, x.plan, k);
      assert k.variant != x.todo[0];
    }
  }

  lemma EndKeepsOk(w: World, tid: nat, t: Tables)
    requires Ok(w) && Inv(t)
    requires forall u :: u in w.txns && u != tid ==> TxnOk(t, w.txns[u])
    ensures Ok(World(t, w.txns - {tid}))
  {
    var w' := World(t, w.txns - {tid});
    forall a, b, r | a in w'.txns && b in w'.txns && r in Holds(w'.txns[a]) && r in Holds(w'.txns[b]) ensures a == b {
      assert r in Holds(w.txns[a]) && r in Holds(w.txns[b]);
    }
  }

  lemma GrowKeepsOk(w: World, tid: nat, x: Txn)
    requires Ok(w) && TxnOk(w.tables, x)
    requires forall r :: r in Holds(x) && !(tid in w.txns && r in Holds(w.txns[tid])) ==> Free(w, tid, r)
    ensures Ok(w.(txns := w.txns[tid := x]))
  {
    var w' := w.(txns := w.txns[tid := x]);
    forall a, b, r | a in w'.txns && b in w'.txns && r in Holds(w'.txns[a]) && r in Holds(w'.txns[b]) ensures a == b {
      assert a != tid ==> r in Holds(w.txns[a]);
      assert b != tid ==> r in Holds(w.txns[b]);
    }
  }

  lemma PlanKeepsOk(w: World, step: Step, w': World)
    requires Ok(w) && Next(w, step, w') && step.MakePlan?
    ensures Ok(w')
  {
    var x := w'.txns[step.tid];
    PlansFit(w.tables, x.command);
    GrowKeepsOk(w, step.tid, x);
  }

  lemma RowKeepsOk(w: World, step: Step, w': World)
    requires Ok(w) && Next(w, step, w') && (step.LockRow? || step.SkipRow?)
    ensures Ok(w')
  {
    var x, x' := w.txns[step.tid], w'.txns[step.tid];
    if step.LockRow? {
      LockRowKeepsTxn(w, step.tid);
      assert forall r :: r in Holds(x') ==> r in Holds(x) || r == StockLock(x.todo[0]);
    } else {
      SkipRowKeepsTxn(w, step.tid);
      assert Holds(x') == Holds(x);
    }
    GrowKeepsOk(w, step.tid, x');
  }

  lemma EndingKeepsOk(w: World, step: Step, w': World)
    requires Ok(w) && Next(w, step, w') && (step.Commit? || step.WriteAtOnce? || step.End?)
    ensures Ok(w')
  {
    var tid := step.tid;
    if step.Commit? {
      CommitIsRun(w, tid);
    }
    if !step.End? {
      RunKeepsInv(w.tables, w.txns[tid].command);
    }
    forall u | u in w.txns && u != tid ensures TxnOk(w'.tables, w.txns[u]) {
      if step.Commit? {
        CommitKeepsOthers(w, tid, u);
      } else if step.WriteAtOnce? {
        AdminKeepsOthers(w, tid, u);
      }
    }
    EndKeepsOk(w, tid, w'.tables);
  }

  lemma NextKeepsOk(w: World, step: Step, w': World)
    requires Ok(w) && Next(w, step, w')
    ensures Ok(w')
  {
    match step {
      case Begin(tid, c) => GrowKeepsOk(w, tid, Started(c));
      case MakePlan(_, _) => PlanKeepsOk(w, step, w');
      case SkipRow(_) => RowKeepsOk(w, step, w');
      case LockRow(_) => RowKeepsOk(w, step, w');
      case _ => EndingKeepsOk(w, step, w');
    }
  }

  // ---------------------------------------------------------------- interleavings are runs

  ghost predicate IsSchedule(worlds: seq<World>, steps: seq<Step>) {
    && |worlds| == |steps| + 1 && Inv(worlds[0].tables) && worlds[0].txns == map[]
    && forall i :: 0 <= i < |steps| ==> Next(worlds[i], steps[i], worlds[i + 1])
  }

  lemma {:induction false} ScheduleOk(worlds: seq<World>, steps: seq<Step>, k: nat)
    requires IsSchedule(worlds, steps) && k < |worlds|
    ensures Ok(worlds[k])
  {
    if k > 0 {
      ScheduleOk(worlds, steps, k - 1);
      NextKeepsOk(worlds[k - 1], steps[k - 1], worlds[k]);
    }
  }

  function TablesOf(worlds: seq<World>): (r: seq<Tables>)
    ensures |r| == |worlds|
  {
    seq(|worlds|, i requires 0 <= i < |worlds| => worlds[i].tables)
  }

  // The command a step belongs to; only commits change the tables.
  function CommandOf(w: World, step: Step): Command {
    if step.tid in w.txns then w.txns[step.tid].command else TopUp({})
  }

  function CommandsOf(worlds: seq<World>, steps: seq<Step>): (r: seq<Command>)
    requires |worlds| == |steps| + 1
    ensures |r| == |steps|
  {
    seq(|steps|, i requires 0 <= i < |steps| => CommandOf(worlds[i], steps[i]))
  }

  /**
   * However transactions interleave, lose races, time out or crash, the tables go through a run of atomic
   * commands; so what holds of every run holds of every schedule.
   */
  lemma ScheduleIsRun(worlds: seq<World>, steps: seq<Step>)
    requires IsSchedule(worlds, steps)
    ensures IsRun(TablesOf(worlds), CommandsOf(worlds, steps))
  {
    var states, commands := TablesOf(worlds), CommandsOf(worlds, steps);
    forall i | 0 <= i < |commands|
      ensures states[i + 1] == Run(states[i], commands[i]).0 || states[i + 1] == states[i]
    {
      var w, step := worlds[i], steps[i];
      assert Next(w, step, worlds[i + 1]);
      ScheduleOk(worlds, steps, i);
      if step.Commit? {
        CommitIsRun(w, step.tid);
      }
    }
  }

  // So what one transaction takes for granted of the others while it runs is true of every schedule.
  lemma OthersKeepRows(worlds: seq<World>, steps: seq<Step>, k: nat)
    requires IsSchedule(worlds, steps) && k < |steps|
    ensures StockRepositories.Keeps(worlds[k].tables.stock, worlds[k + 1].tables.stock)
  {
    ScheduleOk(worlds, steps, k);
    assert Next(worlds[k], steps[k], worlds[k + 1]);
    if steps[k].Commit? {
      CommitIsRun(worlds[k], steps[k].tid);
    }
    if steps[k].Commit? || steps[k].WriteAtOnce? {
      StockRepositories.EveryWriteBumpsTheVersion(worlds[k].tables, worlds[k].txns[steps[k].tid].command);
    }
  }

  // ---------------------------------------------------------------- no deadlock

  ghost predicate Stuck(w: World, waits: map<nat, nat>, a: nat) {
    a in waits && waits[a] in waits && WaitsFor(w, a, waits[a])
  }

  // Each of the transactions waits for another of them.
  ghost predicate Deadlocked(w: World, waits: map<nat, nat>) {
    waits != map[] && forall a {:trigger Stuck(w, waits, a)} :: a in waits ==> Stuck(w, waits, a)
  }

  // Of transactions that each want a row, one wants a row no other wants a later one than.
  lemma {:induction false} LastWanted(w: World, s: set<nat>) returns (m: nat)
    requires s != {} && forall a :: a in s ==> a in w.txns && w.txns[a].Working? && w.txns[a].todo != []
    ensures m in s && forall a :: a in s ==> !Precedes(w.txns[m].todo[0], w.txns[a].todo[0])
    decreases s
  {
    m :| m in s;
    var rest := s - {m};
    if rest != {} {
      var first := m;
      var r := LastWanted(w, rest);
      var v, u := w.txns[first].todo[0], w.txns[r].todo[0];
      PrecedesIsStrictAndTotal(v, u);
      if Precedes(v, u) {
        m := r;
      }
      forall a | a in s ensures !Precedes(w.txns[m].todo[0], w.txns[a].todo[0]) {
        PrecedesIsStrictAndTotal(v, v);
        if a != first && m == first && v != u && Precedes(v, w.txns[a].todo[0]) {
          assert a in rest;
          PrecedesIsTransitive(u, v, w.txns[a].todo[0]);
        }
      }
    } else {
      PrecedesIsStrictAndTotal(w.txns[m].todo[0], w.txns[m].todo[0]);
      assert s == {m};
    }
  }

  // Whoever is waited for holds something, so its next want is a row, later than every row it holds.
  lemma WaitsUpward(w: World, a: nat, b: nat, c: nat)
    requires Ok(w) && WaitsFor(w, a, b) && WaitsFor(w, b, c) && w.txns[a].Working?
    ensures w.txns[a].todo != [] && w.txns[b].Working? && w.txns[b].todo != []
    ensures Precedes(w.txns[a].todo[0], w.txns[b].todo[0])
  {
    var v, u := w.txns[a].todo[0], w.txns[b].todo[0];
    assert StockLock(v) in Holds(w.txns[b]) && StockLock(u) in Holds(w.txns[c]);
    assert v in w.txns[b].locked;
    PrecedesIsStrictAndTotal(v, u);
    assert u != v;
  }

  lemma NoneStuck(w: World, waits: map<nat, nat>)
    requires Ok(w)
    ensures !Deadlocked(w, waits)
  {
    if Deadlocked(w, waits) {
      var held := set b | b in waits && b in w.txns && w.txns[b].Working?;
      var a :| a in waits;
      assert Stuck(w, waits, a) && Stuck(w, waits, waits[a]);
      assert waits[a] in held;
      forall h | h in held ensures w.txns[h].todo != [] {
        assert Stuck(w, waits, h);
      }
      var m := LastWanted(w, held);
      assert Stuck(w, waits, m) && Stuck(w, waits, waits[m]);
      WaitsUpward(w, m, waits[m], waits[waits[m]]);
    }
  }

  /** No set of transactions ever waits for itself: one of them can always go on. */
  lemma NoDeadlock(worlds: seq<World>, steps: seq<Step>, k: nat, waits: map<nat, nat>)
    requires IsSchedule(worlds, steps) && k < |worlds|
    ensures !Deadlocked(worlds[k], waits)
  {
    ScheduleOk(worlds, steps, k);
    NoneStuck(worlds[k], waits);
  }
}
