/**
 * The three inventory tables, and every command as one atomic step over them. A command of an order is a
 * plan: which variants it moves, by how much, and the header it leaves.
 */
module StockTables {
  import opened Wrappers
  import opened ReservationFence

  const INT4_MAX: int := 2_147_483_647
  const MAX_STOCK_ON_HAND: int := 1_000_000_000
  const SEEDED_ON_HAND: int := 1_000_000_000

  // Snowflake ids travel as decimal strings.
  datatype Id = Id(decimal: string)

  datatype Stock = Stock(onHand: int, reserved: int, version: int)

  datatype LineStatus = LineHeld | LineReleased | LineCommitted | LineRestocked

  datatype Key = Key(order: Id, variant: Id)

  datatype Line = Line(quantity: int, status: LineStatus)

  datatype Header = Header(status: OrderStatus, holdUntil: Option<int>)

  // `lines` is unique on (order, variant), `stock` on variant.
  datatype Tables = Tables(stock: map<Id, Stock>, lines: map<Key, Line>, headers: map<Id, Header>)

  // The row's CHECK constraints, and the range of its int4 columns.
  predicate RowOk(s: Stock) {
    0 <= s.reserved <= s.onHand <= INT4_MAX && 0 <= s.version <= INT4_MAX
  }

  // ---------------------------------------------------------------- what a command does to one row

  datatype Move = Reserving | Committing | Releasing | Restocking

  function Available(s: Stock): int {
    s.onHand - s.reserved
  }

  // Every write bumps the version. A restock is clamped at the column's limit.
  function Moved(move: Move, quantity: int, s: Stock): Stock {
    match move
    case Reserving => Stock(s.onHand, s.reserved + quantity, s.version + 1)
    case Committing => Stock(s.onHand - quantity, s.reserved - quantity, s.version + 1)
    case Releasing => Stock(s.onHand, s.reserved - quantity, s.version + 1)
    case Restocking =>
      Stock(if s.onHand + quantity <= INT4_MAX then s.onHand + quantity else INT4_MAX, s.reserved, s.version + 1)
  }

  function LineAfter(move: Move): LineStatus {
    match move
    case Reserving => LineHeld
    case Committing => LineCommitted
    case Releasing => LineReleased
    case Restocking => LineRestocked
  }

  function LineBefore(move: Move): LineStatus {
    if move.Restocking? then LineCommitted else LineHeld
  }

  predicate MayMove(move: Move, quantity: int, s: Stock) {
    && (move.Reserving? ==> quantity <= Available(s))
    && RowOk(Moved(move, quantity, s))
  }

  // ---------------------------------------------------------------- commands

  datatype ReservationLine = ReservationLine(variant: Id, quantity: int)

  datatype Command =
    | Try(order: Id, lines: seq<ReservationLine>, holdUntil: int)
    | Resolve(op: FenceOp, order: Id)
    | Lapse(order: Id, nowMs: int)
    | SetOnHand(variant: Id, quantity: int)
    | Adjust(variant: Id, delta: int)
    | TopUp(variants: set<Id>)

  datatype Outcome = Done | Unchanged(conflict: bool) | OutOfStock | Refused

  datatype Plan = Plan(order: Id, move: Move, need: map<Key, int>, header: Header)

  function StatusOf(t: Tables, order: Id): Option<OrderStatus> {
    if order in t.headers then Some(t.headers[order].status) else None
  }

  // A variant named twice is held once, under the quantity named first.
  function FirstQuantities(order: Id, lines: seq<ReservationLine>): map<Key, int> {
    if lines == [] then map[] else FirstQuantities(order, lines[1..])[Key(order, lines[0].variant) := lines[0].quantity]
  }

  // What is left to hold: a repeated hold of the same (order, variant) is skipped.
  function Unheld(lines: map<Key, Line>, need: map<Key, int>): map<Key, int> {
    map k | k in need && k !in lines :: need[k]
  }

  function Pending(lines: map<Key, Line>, order: Id, from: LineStatus): map<Key, int> {
    map k | k in lines && k.order == order && lines[k].status == from :: lines[k].quantity
  }

  function MoveOf(op: FenceOp): Move {
    match op
    case TryOp => Reserving
    case CommitOp => Committing
    case ReleaseOp => Releasing
    case RestockOp => Restocking
  }

  predicate HasLapsed(t: Tables, order: Id, nowMs: int) {
    && order in t.headers && t.headers[order].status.Held?
    && t.headers[order].holdUntil.Some? && t.headers[order].holdUntil.value < nowMs
  }

  // What an order's command sets out to do under the header lock; None when the header says not to.
  function PlanOf(t: Tables, c: Command): Option<Plan> {
    match c
    case Try(order, lines, holdUntil) =>
      if order in t.headers then None
      else Some(Plan(order, Reserving, Unheld(t.lines, FirstQuantities(order, lines)), Header(Held, Some(holdUntil))))
    case Resolve(op, order) =>
      if !Decide(op, StatusOf(t, order)).Proceed? || op.TryOp? then None
      else if order !in t.headers then Some(Plan(order, Releasing, map[], Header(Fenced, None)))
      else
        var next := t.headers[order].(status := Decide(op, StatusOf(t, order)).next);
        Some(Plan(order, MoveOf(op), Pending(t.lines, order, LineBefore(MoveOf(op))), next))
    case Lapse(order, nowMs) =>
      if !HasLapsed(t, order, nowMs) then None
      else Some(Plan(order, Releasing, Pending(t.lines, order, LineHeld), t.headers[order].(status := Released)))
    case _ => None
  }

  // A reservation needs a stock row with enough available; an update of no row is not an error.
  predicate Covers(stock: map<Id, Stock>, p: Plan, k: Key)
    requires k in p.need
  {
    if k.variant in stock then MayMove(p.move, p.need[k], stock[k.variant]) else !p.move.Reserving?
  }

  predicate Feasible(t: Tables, p: Plan) {
    forall k :: k in p.need ==> Covers(t.stock, p, k)
  }

  predicate Short(t: Tables, p: Plan, k: Key)
    requires k in p.need
  {
    p.move.Reserving? && (k.variant !in t.stock || Available(t.stock[k.variant]) < p.need[k])
  }

  function MovedStock(stock: map<Id, Stock>, p: Plan): map<Id, Stock> {
    map v | v in stock :: if Key(p.order, v) in p.need then Moved(p.move, p.need[Key(p.order, v)], stock[v])
      else stock[v]
  }

  function MovedLines(lines: map<Key, Line>, p: Plan): map<Key, Line> {
    lines + map k | k in p.need :: Line(p.need[k], LineAfter(p.move))
  }

  function Carry(t: Tables, p: Plan): Tables {
    Tables(MovedStock(t.stock, p), MovedLines(t.lines, p), t.headers[p.order := p.header])
  }

  // ---------------------------------------------------------------- admin writes, one statement each

  function SetTo(t: Tables, v: Id, quantity: int): Stock {
    if v in t.stock then Stock(quantity, t.stock[v].reserved, t.stock[v].version + 1) else Stock(quantity, 0, 0)
  }

  function AdjustedBy(s: Stock, delta: int): Stock {
    Stock(s.onHand + delta, s.reserved, s.version + 1)
  }

  // Every command as one step. A step that is refused, or rolled back, leaves the tables as they were.
  function Run(t: Tables, c: Command): (Tables, Outcome) {
    match c
    case SetOnHand(v, quantity) =>
      if RowOk(SetTo(t, v, quantity)) then (t.(stock := t.stock[v := SetTo(t, v, quantity)]), Done) else (t, Refused)
    case Adjust(v, delta) =>
      if v !in t.stock then (t, Unchanged(false))
      else if t.stock[v].onHand + delta > MAX_STOCK_ON_HAND || !RowOk(AdjustedBy(t.stock[v], delta)) then (t, Refused)
      else (t.(stock := t.stock[v := AdjustedBy(t.stock[v], delta)]), Done)
    case TopUp(variants) =>
      (t.(stock := (map v | v in variants :: Stock(SEEDED_ON_HAND, 0, 0)) + t.stock), Done)
    case _ =>
      match PlanOf(t, c)
      case None => (t, Unchanged(IsConflict(t, c)))
      case Some(p) =>
        if Feasible(t, p) then (Carry(t, p), Done)
        else if exists k :: k in p.need && Short(t, p, k) then (t, OutOfStock)
        else (t, Refused)
  }

  predicate IsConflict(t: Tables, c: Command) {
    match c
    case Try(order, _, _) => Decide(TryOp, StatusOf(t, order)).Conflict?
    case Resolve(op, order) => Decide(op, StatusOf(t, order)).Conflict?
    case _ => false
  }
}
