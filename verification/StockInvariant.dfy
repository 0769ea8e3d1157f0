/** Stock is a function of the headers and lines: what every command keeps, and what a whole run conserves. */
module StockInvariant {
  import opened Wrappers
  import opened ReservationFence
  import opened StockTables

  // ---------------------------------------------------------------- sums over lines

  ghost function Sum(m: map<Key, int>): int
    decreases m.Keys
  {
    if m == map[] then 0
    else
      var k :| k in m;
      m[k] + Sum(m - {k})
  }

  lemma {:induction false} SumWithout(m: map<Key, int>, k: Key)
    requires k in m
    ensures Sum(m) == m[k] + Sum(m - {k})
    decreases m.Keys
  {
    var j :| j in m && Sum(m) == m[j] + Sum(m - {j});
    if j != k {
      SumWithout(m - {j}, k);
      SumWithout(m - {k}, j);
      assert m - {j} - {k} == m - {k} - {j};
    }
  }

  lemma SumWith(m: map<Key, int>, k: Key, x: int)
    requires k !in m
    ensures Sum(m[k := x]) == Sum(m) + x
  {
    SumWithout(m[k := x], k);
    assert m[k := x] - {k} == m;
  }

  lemma {:induction false} SumNonNegative(m: map<Key, int>)
    requires forall k :: k in m ==> 0 <= m[k]
    ensures 0 <= Sum(m)
    decreases m.Keys
  {
    if m != map[] {
      var k :| k in m && Sum(m) == m[k] + Sum(m - {k});
      SumNonNegative(m - {k});
    }
  }

  function Quantities(lines: map<Key, Line>, v: Id, status: LineStatus): map<Key, int> {
    map k | k in lines && k.variant == v && lines[k].status == status :: lines[k].quantity
  }

  ghost function Total(lines: map<Key, Line>, v: Id, status: LineStatus): int {
    Sum(Quantities(lines, v, status))
  }

  // ---------------------------------------------------------------- the invariant

  // The only line status an order's header allows; a fenced order has no lines.
  predicate Agrees(status: LineStatus, header: OrderStatus) {
    match status
    case LineHeld => header.Held?
    case LineCommitted => header.Committed?
    case LineReleased => header.Released?
    case LineRestocked => header.Restocked?
  }

  ghost predicate LinesAgree(t: Tables) {
    forall k :: k in t.lines ==>
                  k.order in t.headers && Agrees(t.lines[k].status, t.headers[k.order].status) && k.variant in t.stock
  }

  ghost predicate Inv(t: Tables) {
    && LinesAgree(t)
    && forall v :: v in t.stock ==> RowOk(t.stock[v]) && t.stock[v].reserved == Total(t.lines, v, LineHeld)
  }

  // ---------------------------------------------------------------- plans

  // What a plan built on these tables finds: the lines it will move are in the status it moves them from.
  predicate Fits(t: Tables, p: Plan) {
    && (forall k :: k in p.need ==> k.order == p.order && FitsLine(t, p, k))
    && (forall k :: k in t.lines && k.order == p.order ==> !p.move.Reserving? && k in p.need)
    && (p.need != map[] ==> Agrees(LineAfter(p.move), p.header.status))
  }

  predicate FitsLine(t: Tables, p: Plan, k: Key)
    requires k in p.need
  {
    if p.move.Reserving? then k !in t.lines else k in t.lines && t.lines[k] == Line(p.need[k], LineBefore(p.move))
  }

  lemma {:induction false} FirstQuantitiesOfOrder(order: Id, lines: seq<ReservationLine>)
    ensures forall k :: k in FirstQuantities(order, lines) ==> k.order == order
  {
    if lines != [] {
      FirstQuantitiesOfOrder(order, lines[1..]);
    }
  }

  // An order without a header has no lines yet.
  lemma HoldingFits(t: Tables, order: Id, lines: seq<ReservationLine>, header: Header)
    requires LinesAgree(t) && order !in t.headers && header.status.Held?
    ensures Fits(t, Plan(order, Reserving, Unheld(t.lines, FirstQuantities(order, lines)), header))
  {
    FirstQuantitiesOfOrder(order, lines);
  }

  // All lines of an order with a header are in the status the header allows.
  lemma SettlingFits(t: Tables, order: Id, move: Move, header: Header)
    requires LinesAgree(t) && order in t.headers && Agrees(LineBefore(move), t.headers[order].status)
    requires !move.Reserving? && Agrees(LineAfter(move), header.status)
    ensures Fits(t, Plan(order, move, Pending(t.lines, order, LineBefore(move)), header))
  {
  }

  lemma FencingFits(t: Tables, order: Id, header: Header)
    requires LinesAgree(t) && order !in t.headers
    ensures Fits(t, Plan(order, Releasing, map[], header))
  {
  }

  lemma PlansFit(t: Tables, c: Command)
    requires LinesAgree(t) && PlanOf(t, c).Some?
    ensures Fits(t, PlanOf(t, c).value)
  {
    var p := PlanOf(t, c).value;
    if c.Try? {
      HoldingFits(t, c.order, c.lines, p.header);
    } else if c.order in t.headers {
      SettlingFits(t, c.order, p.move, p.header);
    } else {
      FencingFits(t, c.order, p.header);
    }
  }

  lemma UntouchedQuantities(t: Tables, p: Plan, v: Id, status: LineStatus)
    requires Fits(t, p)
    requires || Key(p.order, v) !in p.need
             || (status != LineAfter(p.move) && (status != LineBefore(p.move) || p.move.Reserving?))
    ensures Quantities(MovedLines(t.lines, p), v, status) == Quantities(t.lines, v, status)
  {
    forall k ensures k in Quantities(MovedLines(t.lines, p), v, status) <==> k in Quantities(t.lines, v, status) {
      assert k in p.need ==> FitsLine(t, p, k);
    }
  }

  lemma AddedQuantities(t: Tables, p: Plan, v: Id)
    requires Fits(t, p) && Key(p.order, v) in p.need
    ensures var k, was := Key(p.order, v), Quantities(t.lines, v, LineAfter(p.move));
            k !in was && Quantities(MovedLines(t.lines, p), v, LineAfter(p.move)) == was[k := p.need[k]]
  {
    assert FitsLine(t, p, Key(p.order, v));
  }

  lemma RemovedQuantities(t: Tables, p: Plan, v: Id)
    requires Fits(t, p) && Key(p.order, v) in p.need && !p.move.Reserving?
    ensures var k, was := Key(p.order, v), Quantities(t.lines, v, LineBefore(p.move));
            && k in was && was[k] == p.need[k]
            && Quantities(MovedLines(t.lines, p), v, LineBefore(p.move)) == was - {k}
  {
    assert FitsLine(t, p, Key(p.order, v));
  }

  // A plan changes one line per variant, from the status before the move to the one after.
  lemma TotalsMoved(t: Tables, p: Plan, v: Id, status: LineStatus)
    requires Fits(t, p)
    ensures var was, now := Total(t.lines, v, status), Total(MovedLines(t.lines, p), v, status);
            var k := Key(p.order, v);
            now == was + (if k in p.need && status == LineAfter(p.move) then p.need[k] else 0)
                       - (if k in p.need && status == LineBefore(p.move) && !p.move.Reserving? then p.need[k] else 0)
  {
    var k := Key(p.order, v);
    if k !in p.need {
      UntouchedQuantities(t, p, v, status);
    } else if status == LineAfter(p.move) {
      AddedQuantities(t, p, v);
      SumWith(Quantities(t.lines, v, status), k, p.need[k]);
    } else if status == LineBefore(p.move) && !p.move.Reserving? {
      RemovedQuantities(t, p, v);
      SumWithout(Quantities(t.lines, v, status), k);
    } else {
      UntouchedQuantities(t, p, v, status);
    }
  }

  lemma CarryKeepsStock(t: Tables, p: Plan, v: Id)
    requires Inv(t) && Fits(t, p) && Feasible(t, p) && v in t.stock
    ensures var s := MovedStock(t.stock, p)[v]; RowOk(s) && s.reserved == Total(MovedLines(t.lines, p), v, LineHeld)
  {
    TotalsMoved(t, p, v, LineHeld);
    assert Key(p.order, v) in p.need ==> Covers(t.stock, p, Key(p.order, v));
  }

  lemma CarryKeepsLine(t: Tables, p: Plan, k: Key)
    requires Inv(t) && Fits(t, p) && Feasible(t, p) && k in MovedLines(t.lines, p)
    ensures var headers := t.headers[p.order := p.header];
            k.order in headers && Agrees(MovedLines(t.lines, p)[k].status, headers[k.order].status)
              && k.variant in t.stock
  {
    if k in p.need {
      assert FitsLine(t, p, k) && Covers(t.stock, p, k);
    }
  }

  lemma CarryKeepsLines(t: Tables, p: Plan)
    requires Inv(t) && Fits(t, p) && Feasible(t, p)
    ensures LinesAgree(Carry(t, p))
  {
    forall k | k in MovedLines(t.lines, p)
      ensures var headers := t.headers[p.order := p.header];
              k.order in headers && Agrees(MovedLines(t.lines, p)[k].status, headers[k.order].status)
                && k.variant in t.stock
    {
      CarryKeepsLine(t, p, k);
    }
  }

  lemma CarryKeepsInv(t: Tables, p: Plan)
    requires Inv(t) && Fits(t, p) && Feasible(t, p)
    ensures Inv(Carry(t, p))
  {
    CarryKeepsLines(t, p);
    forall v | v in t.stock
      ensures var s := MovedStock(t.stock, p)[v]; RowOk(s) && s.reserved == Total(MovedLines(t.lines, p), v, LineHeld)
    {
      CarryKeepsStock(t, p, v);
    }
  }

  // Nothing is held of a variant that has no stock row.
  lemma NoStockNoHolds(t: Tables, v: Id)
    requires LinesAgree(t) && v !in t.stock
    ensures Total(t.lines, v, LineHeld) == 0
  {
    assert Quantities(t.lines, v, LineHeld) == map[];
  }

  lemma RowWriteKeepsInv(t: Tables, v: Id, row: Stock)
    requires Inv(t) && RowOk(row) && row.reserved == if v in t.stock then t.stock[v].reserved else 0
    ensures Inv(t.(stock := t.stock[v := row]))
  {
    if v !in t.stock {
      NoStockNoHolds(t, v);
    }
  }

  lemma TopUpKeepsInv(t: Tables, variants: set<Id>)
    requires Inv(t)
    ensures Inv(Run(t, TopUp(variants)).0)
    ensures forall v :: v in t.stock ==>
                          && v in Run(t, TopUp(variants)).0.stock
                          && Run(t, TopUp(variants)).0.stock[v] == t.stock[v]
  {
    forall v | v in variants && v !in t.stock ensures Total(t.lines, v, LineHeld) == 0 {
      NoStockNoHolds(t, v);
    }
  }

  lemma AdminKeepsTotals(t: Tables, c: Command)
    requires Inv(t) && (c.SetOnHand? || c.Adjust? || c.TopUp?)
    ensures Inv(Run(t, c).0) && Run(t, c).0.lines == t.lines && Run(t, c).0.headers == t.headers
  {
    match c {
      case SetOnHand(v, quantity) =>
        if RowOk(SetTo(t, v, quantity)) {
          RowWriteKeepsInv(t, v, SetTo(t, v, quantity));
        }
      case Adjust(v, delta) =>
        if v in t.stock && RowOk(AdjustedBy(t.stock[v], delta)) {
          RowWriteKeepsInv(t, v, AdjustedBy(t.stock[v], delta));
        }
      case TopUp(variants) => TopUpKeepsInv(t, variants);
    }
  }

  /** Stock is never oversold and always the sum of its holds: every command keeps the invariant. */
  lemma RunKeepsInv(t: Tables, c: Command)
    requires Inv(t)
    ensures Inv(Run(t, c).0)
  {
    if c.SetOnHand? || c.Adjust? || c.TopUp? {
      AdminKeepsTotals(t, c);
    } else if PlanOf(t, c).Some? && Feasible(t, PlanOf(t, c).value) {
      PlansFit(t, c);
      CarryKeepsInv(t, PlanOf(t, c).value);
    }
  }

  // ---------------------------------------------------------------- when a command is refused

  ghost predicate Positive(t: Tables) {
    forall k :: k in t.lines ==> 0 < t.lines[k].quantity
  }

  predicate AsksPositive(c: Command) {
    c.Try? ==> forall i :: 0 <= i < |c.lines| ==> 0 < c.lines[i].quantity
  }

  lemma {:induction false} FirstQuantitiesPositive(order: Id, lines: seq<ReservationLine>)
    requires forall i :: 0 <= i < |lines| ==> 0 < lines[i].quantity
    ensures forall k :: k in FirstQuantities(order, lines) ==> 0 < FirstQuantities(order, lines)[k]
  {
    if lines != [] {
      FirstQuantitiesPositive(order, lines[1..]);
    }
  }

  lemma PlansPositive(t: Tables, c: Command)
    requires Positive(t) && AsksPositive(c) && PlanOf(t, c).Some?
    ensures forall k :: k in PlanOf(t, c).value.need ==> 0 < PlanOf(t, c).value.need[k]
  {
    if c.Try? {
      FirstQuantitiesPositive(c.order, c.lines);
    }
  }

  lemma CarryKeepsPositive(t: Tables, p: Plan)
    requires Positive(t) && forall k :: k in p.need ==> 0 < p.need[k]
    ensures Positive(Carry(t, p))
  {
  }

  lemma RunsByPlan(t: Tables, c: Command)
    ensures Run(t, c).0.lines == t.lines || (PlanOf(t, c).Some? && Run(t, c).0 == Carry(t, PlanOf(t, c).value))
  {
  }

  lemma RunKeepsPositive(t: Tables, c: Command)
    requires Positive(t) && AsksPositive(c)
    ensures Positive(Run(t, c).0)
  {
    RunsByPlan(t, c);
    if Run(t, c).0.lines != t.lines {
      PlansPositive(t, c);
      CarryKeepsPositive(t, PlanOf(t, c).value);
    }
  }

  // A single hold is never more than everything held of its variant.
  lemma HeldCoversEachLine(t: Tables, k: Key)
    requires Inv(t) && Positive(t) && k in t.lines && t.lines[k].status.LineHeld?
    ensures t.lines[k].quantity <= t.stock[k.variant].reserved
  {
    var held := Quantities(t.lines, k.variant, LineHeld);
    SumWithout(held, k);
    SumNonNegative(held - {k});
  }

  lemma SettlesLine(t: Tables, p: Plan, k: Key)
    requires Inv(t) && Positive(t) && !p.move.Reserving? && k in p.need && FitsLine(t, p, k)
    ensures k.variant in t.stock && (Covers(t.stock, p, k) <==> t.stock[k.variant].version < INT4_MAX)
  {
    if t.lines[k].status.LineHeld? {
      HeldCoversEachLine(t, k);
    }
    assert 0 < t.lines[k].quantity;
  }

  /**
   * Whatever was held can be settled. Commit, release, restock and the lapsed sweep never run into a CHECK
   * constraint; they are refused exactly when a row they move has used up its version column.
   */
  lemma SettlingNeverBreaksAConstraint(t: Tables, c: Command)
    requires Inv(t) && Positive(t) && !c.Try? && PlanOf(t, c).Some?
    ensures var p := PlanOf(t, c).value;
            && (forall k :: k in p.need ==> k.variant in t.stock)
            && (Feasible(t, p) <==> forall k :: k in p.need ==> t.stock[k.variant].version < INT4_MAX)
  {
    PlansFit(t, c);
    var p := PlanOf(t, c).value;
    forall k | k in p.need
      ensures k.variant in t.stock && (Covers(t.stock, p, k) <==> t.stock[k.variant].version < INT4_MAX)
    {
      SettlesLine(t, p, k);
    }
  }

  lemma {:induction false} FirstQuantitiesCover(order: Id, lines: seq<ReservationLine>, i: nat)
    requires i < |lines|
    ensures Key(order, lines[i].variant) in FirstQuantities(order, lines)
  {
    if i > 0 {
      FirstQuantitiesCover(order, lines[1..], i - 1);
    }
  }

  // A first try of an order has every variant it names still to hold.
  lemma FirstTryNeedsAll(t: Tables, c: Command)
    requires Inv(t) && c.Try? && c.order !in t.headers
    ensures Unheld(t.lines, FirstQuantities(c.order, c.lines)) == FirstQuantities(c.order, c.lines)
  {
    FirstQuantitiesOfOrder(c.order, c.lines);
  }

  lemma ReservesIffAvailable(t: Tables, p: Plan, k: Key)
    requires Inv(t) && p.move.Reserving? && k in p.need && 0 < p.need[k]
    requires k.variant in t.stock ==> t.stock[k.variant].version < INT4_MAX
    ensures Covers(t.stock, p, k) <==> !Short(t, p, k)
  {
  }

  /**
   * A try holds everything or nothing. It succeeds exactly when every variant it names has enough available,
   * is refused as out of stock otherwise, and then leaves no trace, not even a header. The header of a try that
   * succeeds records until when it holds.
   */
  lemma TryHoldsAllOrNothing(t: Tables, c: Command)
    requires Inv(t) && c.Try? && AsksPositive(c) && c.order !in t.headers
    requires forall v :: v in t.stock ==> t.stock[v].version < INT4_MAX
    ensures var need := FirstQuantities(c.order, c.lines);
            var enough := forall k :: k in need ==> k.variant in t.stock && need[k] <= Available(t.stock[k.variant]);
            if enough then
              && Run(t, c).1 == Done && Run(t, c).0.headers == t.headers[c.order := Header(Held, Some(c.holdUntil))]
              && forall i :: 0 <= i < |c.lines| ==>
                               var k := Key(c.order, c.lines[i].variant);
                               k in need && k in Run(t, c).0.lines && Run(t, c).0.lines[k] == Line(need[k], LineHeld)
            else Run(t, c) == (t, OutOfStock)
  {
    var p := PlanOf(t, c).value;
    FirstTryNeedsAll(t, c);
    FirstQuantitiesPositive(c.order, c.lines);
    forall k | k in p.need ensures Covers(t.stock, p, k) <==> !Short(t, p, k) {
      ReservesIffAvailable(t, p, k);
    }
    forall i | 0 <= i < |c.lines| ensures Key(c.order, c.lines[i].variant) in p.need {
      FirstQuantitiesCover(c.order, c.lines, i);
    }
  }

  // ---------------------------------------------------------------- conservation

  // Units of a variant the shop still has or has sold and not taken back.
  ghost function Supply(t: Tables, v: Id): int {
    OnHand(t.stock, v) + Total(t.lines, v, LineCommitted)
  }

  function OnHand(stock: map<Id, Stock>, v: Id): int {
    if v in stock then stock[v].onHand else 0
  }

  // What an admin or seed write adds to a variant; an order's command adds nothing.
  function Supplied(t: Tables, c: Command, v: Id): int {
    if c.SetOnHand? || c.Adjust? || c.TopUp? then OnHand(Run(t, c).0.stock, v) - OnHand(t.stock, v) else 0
  }

  // A restock that would take the column past its limit loses the excess.
  function ClampedIn(t: Tables, p: Plan, v: Id): int {
    var k := Key(p.order, v);
    if p.move.Restocking? && k in p.need && v in t.stock && t.stock[v].onHand + p.need[k] > INT4_MAX
    then t.stock[v].onHand + p.need[k] - INT4_MAX else 0
  }

  function Clamped(t: Tables, c: Command, v: Id): int {
    var p := PlanOf(t, c);
    if p.Some? && Feasible(t, p.value) then ClampedIn(t, p.value, v) else 0
  }

  lemma OnHandMoved(t: Tables, p: Plan, v: Id)
    requires Key(p.order, v) in p.need ==> v in t.stock
    ensures var k := Key(p.order, v);
            OnHand(MovedStock(t.stock, p), v)
            == OnHand(t.stock, v) + (if k !in p.need then 0
                                     else if p.move.Committing? then -p.need[k]
                                     else if p.move.Restocking? then p.need[k] - ClampedIn(t, p, v) else 0)
  {
  }

  lemma CarrySupply(t: Tables, p: Plan, v: Id)
    requires Inv(t) && Fits(t, p) && Feasible(t, p)
    ensures Supply(Carry(t, p), v) == Supply(t, v) - ClampedIn(t, p, v)
  {
    var k := Key(p.order, v);
    assert k in p.need ==> Covers(t.stock, p, k) && FitsLine(t, p, k);
    TotalsMoved(t, p, v, LineCommitted);
    OnHandMoved(t, p, v);
  }

  lemma SupplyStep(t: Tables, c: Command, v: Id)
    requires Inv(t)
    ensures Supply(Run(t, c).0, v) == Supply(t, v) + Supplied(t, c, v) - Clamped(t, c, v)
  {
    if c.SetOnHand? || c.Adjust? || c.TopUp? {
      AdminKeepsTotals(t, c);
    } else if PlanOf(t, c).Some? && Feasible(t, PlanOf(t, c).value) {
      var p := PlanOf(t, c).value;
      PlansFit(t, c);
      CarrySupply(t, p, v);
    }
  }

  // ---------------------------------------------------------------- runs

  // Commands one after another, duplicated and reordered at will; some roll back after the fact.
  ghost predicate IsRun(states: seq<Tables>, commands: seq<Command>) {
    && |states| == |commands| + 1 && Inv(states[0])
    && forall i :: 0 <= i < |commands| ==> states[i + 1] == Run(states[i], commands[i]).0 || states[i + 1] == states[i]
  }

  lemma {:induction false} RunInv(states: seq<Tables>, commands: seq<Command>, k: nat)
    requires IsRun(states, commands) && k < |states|
    ensures Inv(states[k])
  {
    if k > 0 {
      RunInv(states, commands, k - 1);
      RunKeepsInv(states[k - 1], commands[k - 1]);
    }
  }

  ghost function SuppliedBy(states: seq<Tables>, commands: seq<Command>, v: Id, k: nat): int
    requires |states| == |commands| + 1 && k < |states|
  {
    if k == 0 then 0
    else SuppliedBy(states, commands, v, k - 1)
         + if states[k] == states[k - 1] then 0 else Supplied(states[k - 1], commands[k - 1], v)
  }

  ghost function ClampedBy(states: seq<Tables>, commands: seq<Command>, v: Id, k: nat): int
    requires |states| == |commands| + 1 && k < |states|
  {
    if k == 0 then 0
    else ClampedBy(states, commands, v, k - 1)
         + if states[k] == states[k - 1] then 0 else Clamped(states[k - 1], commands[k - 1], v)
  }

  lemma StepInRun(states: seq<Tables>, commands: seq<Command>, k: nat)
    requires IsRun(states, commands) && k < |commands|
    ensures Inv(states[k])
    ensures states[k + 1] == Run(states[k], commands[k]).0 || states[k + 1] == states[k]
  {
    RunInv(states, commands, k);
  }

  lemma SupplyStepInRun(states: seq<Tables>, commands: seq<Command>, v: Id, k: nat)
    requires IsRun(states, commands) && k < |commands|
    ensures var t, t', c := states[k], states[k + 1], commands[k];
            Supply(t', v) == Supply(t, v) + (if t' == t then 0 else Supplied(t, c, v) - Clamped(t, c, v))
  {
    var t := states[k];
    RunInv(states, commands, k);
    SupplyStep(t, commands[k], v);
  }

  lemma SupplyCoversCommitted(states: seq<Tables>, commands: seq<Command>, v: Id, k: nat)
    requires IsRun(states, commands) && k < |states|
    ensures Total(states[k].lines, v, LineCommitted) <= Supply(states[k], v)
  {
    RunInv(states, commands, k);
  }

  lemma ClampedNonNegative(t: Tables, c: Command, v: Id)
    ensures 0 <= Clamped(t, c, v)
  {
  }

  lemma AccountsStep(states: seq<Tables>, commands: seq<Command>, v: Id, k: nat)
    requires IsRun(states, commands) && k < |commands|
    ensures Supply(states[k + 1], v) - Supply(states[k], v)
            == SuppliedBy(states, commands, v, k + 1) - SuppliedBy(states, commands, v, k)
               - (ClampedBy(states, commands, v, k + 1) - ClampedBy(states, commands, v, k))
    ensures ClampedBy(states, commands, v, k) <= ClampedBy(states, commands, v, k + 1)
  {
    SupplyStepInRun(states, commands, v, k);
    ClampedNonNegative(states[k], commands[k], v);
  }

  lemma {:induction false} AccountsBalance(states: seq<Tables>, commands: seq<Command>, v: Id, k: nat)
    requires IsRun(states, commands) && k < |states|
    ensures Supply(states[k], v) - Supply(states[0], v)
            == SuppliedBy(states, commands, v, k) - ClampedBy(states, commands, v, k)
    ensures 0 <= ClampedBy(states, commands, v, k)
  {
    if k == 0 {
      assert SuppliedBy(states, commands, v, 0) == 0 && ClampedBy(states, commands, v, 0) == 0;
    } else {
      AccountsBalance(states, commands, v, k - 1);
      AccountsStep(states, commands, v, k - 1);
    }
  }

  /**
   * Conservation. Over a run, what is on hand plus what is committed changes by what admins and the seed
   * supplied, less what restocks lost to the clamp; so what is committed never exceeds what was supplied.
   */
  lemma Conservation(states: seq<Tables>, commands: seq<Command>, v: Id, k: nat)
    requires IsRun(states, commands) && k < |states|
    ensures Supply(states[k], v)
            == Supply(states[0], v) + SuppliedBy(states, commands, v, k) - ClampedBy(states, commands, v, k)
    ensures ClampedBy(states, commands, v, k) >= 0
    ensures Total(states[k].lines, v, LineCommitted) <= Supply(states[0], v) + SuppliedBy(states, commands, v, k)
  {
    AccountsBalance(states, commands, v, k);
    SupplyCoversCommitted(states, commands, v, k);
  }

  // Whoever asks for positive quantities only ever holds positive ones, in every run.
  lemma {:induction false} RunStaysPositive(states: seq<Tables>, commands: seq<Command>, k: nat)
    requires IsRun(states, commands) && k < |states| && Positive(states[0])
    requires forall i :: 0 <= i < |commands| ==> AsksPositive(commands[i])
    ensures Positive(states[k])
  {
    if k > 0 {
      RunStaysPositive(states, commands, k - 1);
      PositiveStep(states, commands, k - 1);
    }
  }

  lemma PositiveStep(states: seq<Tables>, commands: seq<Command>, k: nat)
    requires IsRun(states, commands) && k < |commands| && Positive(states[k]) && AsksPositive(commands[k])
    ensures Positive(states[k + 1])
  {
    var t, c := states[k], commands[k];
    RunKeepsPositive(t, c);
  }

  /**
   * So at any moment of any run whatever is held can be settled: no CHECK constraint stands in the way of a
   * commit, a release, a restock or the lapsed sweep.
   */
  lemma HeldStockCanBeSettled(states: seq<Tables>, commands: seq<Command>, k: nat, c: Command)
    requires IsRun(states, commands) && k < |states| && Positive(states[0])
    requires forall i :: 0 <= i < |commands| ==> AsksPositive(commands[i])
    requires !c.Try? && PlanOf(states[k], c).Some?
    requires forall v :: v in states[k].stock ==> states[k].stock[v].version < INT4_MAX
    ensures Feasible(states[k], PlanOf(states[k], c).value)
  {
    RunInv(states, commands, k);
    RunStaysPositive(states, commands, k);
    SettlingNeverBreaksAConstraint(states[k], c);
  }

  predicate Applies(t: Tables, t': Tables, c: Command, op: FenceOp, order: Id) {
    && PlanOf(t, c).Some? && PlanOf(t, c).value.order == order && t' == Run(t, c).0 && t' != t
    && (if c.Try? then op.TryOp? else if c.Lapse? then op.ReleaseOp? else c.Resolve? && op == c.op)
  }

  // A command only ever moves an order's header the way the fence decides.
  lemma StatusStep(t: Tables, c: Command, order: Id)
    ensures var was, now := StatusOf(t, order), StatusOf(Run(t, c).0, order);
            now == was || (now.Some? && exists op: FenceOp :: Decide(op, was) == Proceed(now.value))
  {
    var was, now := StatusOf(t, order), StatusOf(Run(t, c).0, order);
    if now != was {
      var op := if c.Try? then TryOp else if c.Lapse? then ReleaseOp else c.op;
      assert Decide(op, was) == Proceed(now.value);
    }
  }

  lemma SettledStep(t: Tables, c: Command, op: FenceOp, order: Id)
    requires SettledBy(op, StatusOf(t, order))
    ensures SettledBy(op, StatusOf(Run(t, c).0, order))
  {
    StatusStep(t, c, order);
    AppliedForGood(op, StatusOf(t, order));
  }

  lemma {:induction false} SettledForGood(
    states: seq<Tables>, commands: seq<Command>, op: FenceOp, order: Id, i: nat, j: nat)
    requires IsRun(states, commands) && i <= j < |states| && SettledBy(op, StatusOf(states[i], order))
    ensures SettledBy(op, StatusOf(states[j], order))
  {
    if i < j {
      SettledForGood(states, commands, op, order, i, j - 1);
      SettledStep(states[j - 1], commands[j - 1], op, order);
    }
  }

  lemma AppliesSettles(t: Tables, t': Tables, c: Command, op: FenceOp, order: Id)
    requires Applies(t, t', c, op, order)
    ensures SettledBy(op, StatusOf(t', order)) && Decide(op, StatusOf(t, order)).Proceed?
  {
  }

  lemma SettledExcludes(
    states: seq<Tables>, commands: seq<Command>, i: nat, j: nat, op: FenceOp, later: FenceOp, order: Id)
    requires IsRun(states, commands) && i <= j < |states|
    requires SettledBy(op, StatusOf(states[i], order)) && Decide(later, StatusOf(states[j], order)).Proceed?
    ensures op != later
    ensures !(op.CommitOp? && later.ReleaseOp?) && !op.ReleaseOp? && !op.RestockOp?
  {
    SettledForGood(states, commands, op, order, i, j);
    AppliedForGood(op, StatusOf(states[j], order));
    CommitExcludesRelease(StatusOf(states[j], order));
  }

  /**
   * Each order moves stock at most once per command, whatever is duplicated, reordered or rolled back; it
   * is committed or released, never both; and once it is fenced, released or restocked nothing more happens.
   */
  lemma EachCommandAppliesOnce(
    states: seq<Tables>, commands: seq<Command>, i: nat, j: nat, op: FenceOp, later: FenceOp, order: Id)
    requires IsRun(states, commands) && i < j < |commands|
    requires Applies(states[i], states[i + 1], commands[i], op, order)
    requires Applies(states[j], states[j + 1], commands[j], later, order)
    ensures op != later
    ensures !(op.CommitOp? && later.ReleaseOp?) && !op.ReleaseOp? && !op.RestockOp?
  {
    AppliesSettles(states[i], states[i + 1], commands[i], op, order);
    AppliesSettles(states[j], states[j + 1], commands[j], later, order);
    SettledExcludes(states, commands, i + 1, j, op, later, order);
  }

  // A terminal order moves no stock and none of its lines, whichever command names it.
  lemma TerminalOrderIsInert(t: Tables, c: Command)
    requires (c.Try? || c.Resolve? || c.Lapse?) && c.order in t.headers && Terminal(t.headers[c.order].status)
    ensures Run(t, c).0 == t
  {
  }
}
