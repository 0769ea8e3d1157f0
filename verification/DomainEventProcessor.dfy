/** A consumer's processor: the inbox claim and the effect in one transaction. */
module DomainEventProcessors {
  import opened Wrappers
  import opened MessageDelivery

  // The inbox is unique on it.
  datatype Claim = Claim(consumer: nat, messageId: nat)

  datatype Envelope = Envelope(wellFormed: bool, messageId: nat)

  datatype ConsumeResult = NewlyProcessed | Duplicate

  datatype ConsumeError = MalformedEnvelope | PrepareFailed | EffectFailed

  // What one delivery amounts to for its message: the claim and the history of the effect.
  function Outcome(claim: Option<int>, applied: seq<int>, nowMs: int, prepared: bool, effect: bool)
    : (Option<int>, seq<int>, Result<ConsumeResult, ConsumeError>)
  {
    if claim.Some? then (claim, applied, Success(Duplicate))
    else if !prepared then (None, applied, Failure(PrepareFailed))
    else if !effect then (None, applied, Failure(EffectFailed))
    else (Some(nowMs), applied + [nowMs], Success(NewlyProcessed))
  }

  class DomainEventProcessor {
    var inbox: map<Claim, int>
    // History: when each claim's effect committed.
    ghost var applied: map<Claim, seq<int>>

    constructor ()
      ensures inbox == map[] && applied == map[]
    {
      inbox, applied := map[], map[];
    }

    function ClaimOf(c: Claim): Option<int>
      reads this
    {
      if c in inbox then Some(inbox[c]) else None
    }

    ghost function AppliedTo(c: Claim): seq<int>
      reads this
    {
      if c in applied then applied[c] else []
    }

    // Inserts the claim unless there is one, and says whether it did.
    method InsertClaim(c: Claim, nowMs: int) returns (won: bool)
      modifies this`inbox
      ensures won <==> c !in old(inbox)
      ensures inbox == if won then old(inbox)[c := nowMs] else old(inbox)
    {
      won := c !in inbox;
      if won {
        inbox := inbox[c := nowMs];
      }
    }

    /**
     * A failure takes the claim back with it; a message already claimed is a duplicate even when preparing
     * it failed; only the delivered message is touched.
     */
    method Process(job: Envelope, consumer: nat, nowMs: int, prepared: bool, effect: bool)
      returns (r: Result<ConsumeResult, ConsumeError>)
      modifies this
      ensures var c := Claim(consumer, job.messageId);
              if !job.wellFormed then r == Failure(MalformedEnvelope) && inbox == old(inbox) && applied == old(applied)
              else (ClaimOf(c), AppliedTo(c), r) == Outcome(old(ClaimOf(c)), old(AppliedTo(c)), nowMs, prepared, effect)
      // A duplicate exactly when a claim was there before; the effect commits exactly when it wins the claim and
      // succeeds; whatever fails leaves the inbox as it was.
      ensures r == Success(Duplicate) <==> job.wellFormed && Claim(consumer, job.messageId) in old(inbox)
      ensures r == Success(NewlyProcessed) <==>
                job.wellFormed && Claim(consumer, job.messageId) !in old(inbox) && prepared && effect
      ensures if r == Success(NewlyProcessed) then
                var c := Claim(consumer, job.messageId);
                inbox == old(inbox)[c := nowMs] && applied == old(applied)[c := old(AppliedTo(c)) + [nowMs]]
              else inbox == old(inbox) && applied == old(applied)
      ensures r.Failure? ==>
                r.error == if !job.wellFormed then MalformedEnvelope
                           else if !prepared then PrepareFailed else EffectFailed
      ensures forall d :: d != Claim(consumer, job.messageId) ==>
                            ClaimOf(d) == old(ClaimOf(d)) && AppliedTo(d) == old(AppliedTo(d))
    {
      if !job.wellFormed {
        return Failure(MalformedEnvelope);
      }
      var c := Claim(consumer, job.messageId);
      var before := inbox;
      var won := InsertClaim(c, nowMs);
      if !won {
        return Success(Duplicate);
      }
      if !prepared || !effect {
        inbox := before;
        return Failure(if !prepared then PrepareFailed else EffectFailed);
      }
      applied := applied[c := AppliedTo(c) + [nowMs]];
      return Success(NewlyProcessed);
    }
  }

  // Processing a delivery is the step the message's own history takes.
  lemma OutcomeIsProcessed(s: Message, worker: nat, prepared: bool, effect: bool)
    requires worker in s.workers && !s.workers[worker].done
    ensures var done := Outcome(s.claim, s.applied, s.now, prepared, effect);
            var s' := Processed(s, worker, prepared && effect);
            && s'.claim == done.0 && s'.applied == done.1
            && (done.2.Success? <==> s'.workers[worker].done)
  {
  }
}
