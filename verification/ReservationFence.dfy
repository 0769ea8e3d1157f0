/** What a reservation command may do, given the status of its order's header. */
module ReservationFence {
  import opened Wrappers

  datatype OrderStatus = Held | Committed | Released | Fenced | Restocked

  datatype FenceOp = TryOp | CommitOp | ReleaseOp | RestockOp

  datatype Decision = Proceed(next: OrderStatus) | Idempotent | Conflict

  // `current` is None while the order has no header. A release may come before its try: it then leaves a
  // fenced header, against which the try is judged.
  function Decide(op: FenceOp, current: Option<OrderStatus>): Decision {
    match op
    case TryOp =>
      if current.None? then Proceed(Held)
      else if current.value.Held? then Idempotent else Conflict
    case CommitOp =>
      if current == Some(Held) then Proceed(Committed)
      else if current == Some(Committed) then Idempotent else Conflict
    case ReleaseOp =>
      if current.None? then Proceed(Fenced)
      else if current.value.Held? then Proceed(Released)
      else if current.value.Released? || current.value.Fenced? then Idempotent else Conflict
    case RestockOp =>
      if current == Some(Committed) then Proceed(Restocked)
      else if current == Some(Restocked) then Idempotent else Conflict
  }

  // The statuses an order can still be in at any time after `op` was applied to it.
  predicate SettledBy(op: FenceOp, current: Option<OrderStatus>) {
    current.Some? &&
    match op
    case TryOp => !current.value.Fenced?
    case CommitOp => current.value.Committed? || current.value.Restocked?
    case ReleaseOp => current.value.Released? || current.value.Fenced?
    case RestockOp => current.value.Restocked?
  }

  // Whatever comes after it, `op` is never applied to the order a second time: from the moment it was
  // applied the order stays in its statuses, and there it is refused or found already done.
  lemma AppliedForGood(op: FenceOp, current: Option<OrderStatus>)
    ensures Decide(op, current).Proceed? ==> SettledBy(op, Some(Decide(op, current).next))
    ensures SettledBy(op, current) ==> !Decide(op, current).Proceed?
    ensures forall later: FenceOp :: SettledBy(op, current) && Decide(later, current).Proceed? ==>
                                       SettledBy(op, Some(Decide(later, current).next))
  {
    if SettledBy(op, current) {
      forall later: FenceOp | Decide(later, current).Proceed? ensures SettledBy(op, Some(Decide(later, current).next)) {
        match later {
          case TryOp =>
          case CommitOp =>
          case ReleaseOp =>
          case RestockOp =>
        }
      }
    }
  }

  predicate Terminal(status: OrderStatus) {
    status.Released? || status.Fenced? || status.Restocked?
  }

  // The terminal statuses are exactly those nothing can be applied to.
  lemma TerminalRefusesAll(status: OrderStatus)
    ensures Terminal(status) <==> forall op: FenceOp :: !Decide(op, Some(status)).Proceed?
  {
    if !Terminal(status) {
      assert Decide(if status.Held? then CommitOp else RestockOp, Some(status)).Proceed?;
    }
  }

  // An order is committed or released, never both.
  lemma CommitExcludesRelease(current: Option<OrderStatus>)
    ensures !(SettledBy(CommitOp, current) && SettledBy(ReleaseOp, current))
    ensures SettledBy(CommitOp, current) ==> !Decide(ReleaseOp, current).Proceed?
    ensures SettledBy(ReleaseOp, current) ==> !Decide(CommitOp, current).Proceed? && !Decide(TryOp, current).Proceed?
  {
  }

  // A command is found already done exactly in the statuses that the command itself leaves behind.
  lemma IdempotentInItsOwnOutcome(op: FenceOp, status: OrderStatus)
    ensures Decide(op, Some(status)).Idempotent? <==> exists earlier :: Decide(op, earlier) == Proceed(status)
  {
    if op.TryOp? { assert Decide(op, None) == Proceed(Held); }
    if op.CommitOp? { assert Decide(op, Some(Held)) == Proceed(Committed); }
    if op.ReleaseOp? { assert Decide(op, None) == Proceed(Fenced) && Decide(op, Some(Held)) == Proceed(Released); }
    if op.RestockOp? { assert Decide(op, Some(Committed)) == Proceed(Restocked); }
  }

  // What a command needs before it: nothing for a try; an applied try and no more for a commit, and for a
  // release that has stock to give back; an applied commit and no more for a restock.
  lemma AppliesOnlyAfter(op: FenceOp, current: Option<OrderStatus>)
    ensures Decide(op, current).Proceed? <==>
              match op
              case TryOp => current.None?
              case CommitOp =>
                SettledBy(TryOp, current) && !SettledBy(CommitOp, current) && !SettledBy(ReleaseOp, current)
              case ReleaseOp =>
                || current.None?
                || (SettledBy(TryOp, current) && !SettledBy(CommitOp, current) && !SettledBy(ReleaseOp, current))
              case RestockOp => SettledBy(CommitOp, current) && !SettledBy(RestockOp, current)
  {
  }
}
