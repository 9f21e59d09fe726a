/** What one dispatch makes of a queue message, and what the reports, consumptions and recoveries of a
    message mean for the dispatches that follow. */
module OutboxDispatches {
  import opened Common
  import opened Outbox

  // ---------------------------------------------------------------------------------------
  // One dispatch
  // ---------------------------------------------------------------------------------------

  /** A message the queue should get: it was never consumed and its pause or claim is over, or it was
      published ten minutes ago or more and nobody left a receipt. */
  predicate Waits(m: Message, now: int) {
    match m.status
    case Pending => m.nextAttemptAt <= now && (m.claimedUntil.None? || m.claimedUntil.value <= now)
    case Published => m.publishedAt.Some? && m.publishedAt.value + 600_000 <= now
    case Failed => false
  }

  /** A dispatch claims exactly the picked messages without a receipt that wait and have attempts left. */
  lemma TakesIff(s: State, picked: map<OutboxId, ClaimId>, now: int, id: OutboxId)
    requires OutboxInvariant(s)
    ensures Takes(s, picked, now, id) <==>
              && id in picked && id in s.messages && id !in s.receipts
              && Waits(s.messages[id], now) && s.messages[id].attempts < 5
  {
    if id in s.messages {
      assert MessageFits(s.messages[id]);
    }
  }

  /** A claimed message is held for two minutes, for one attempt more. */
  lemma TakenIsHeld(s: State, picked: map<OutboxId, ClaimId>, now: int, id: OutboxId)
    requires OutboxInvariant(s) && Takes(s, picked, now, id)
    ensures var t := ClaimPending(s, picked, now);
            && Holds(t, id, picked[id])
            && t.messages[id].claimedUntil == Some(now + 120_000)
            && t.messages[id].attempts == s.messages[id].attempts + 1
            && t.messages[id].target == s.messages[id].target
  {
  }

  /** Every other message: a consumed one counts as published when it was consumed, one that used its five
      attempts fails once its claim or its receipt is overdue, and a published one whose receipt is overdue
      goes back to waiting. All others stay as they are. */
  lemma OthersAfterDispatch(s: State, picked: map<OutboxId, ClaimId>, now: int, id: OutboxId)
    requires OutboxInvariant(s) && id in s.messages && !Takes(s, picked, now, id)
    ensures var m, t := s.messages[id], ClaimPending(s, picked, now);
            && t.receipts == s.receipts && t.messages.Keys == s.messages.Keys
            && t.messages[id] ==
               if id in s.receipts then
                 if m.status == Published then m
                 else m.(status := Published, publishedAt := Some(s.receipts[id].consumedAt), failedAt := None,
                         claim := None, claimedUntil := None, lastError := None)
               else
                 match m.status
                 case Failed => m
                 case Published =>
                   if !Waits(m, now) then m
                   else m.(status := if m.attempts == 5 then Failed else Pending, publishedAt := None,
                           failedAt := if m.attempts == 5 then Some(now) else None, nextAttemptAt := now,
                           claim := None, claimedUntil := None, lastError := Some(ConsumerStalled))
                 case Pending =>
                   if m.attempts == 5 && (m.claimedUntil.None? || m.claimedUntil.value <= now) then
                     m.(status := Failed, failedAt := Some(now), claim := None, claimedUntil := None,
                        lastError := Some(AttemptsExhausted))
                   else m
  {
    assert MessageFits(s.messages[id]);
    if id in s.receipts {
      assert s.receipts[id].deliveries > 0;
    }
  }

  /** A new message waits from the moment it is inserted. */
  lemma NewMessageWaits(s: State, id: OutboxId, target: Target, now: int, picked: map<OutboxId, ClaimId>, later: int)
    requires OutboxInvariant(s) && id !in s.messages
    ensures var t := InsertMessage(s, id, target, now);
            && id in t.messages && t.messages[id].target == target && t.messages[id].attempts == 0
            && t.receipts == s.receipts
            && t.messages == s.messages[id := t.messages[id]]
            && (Takes(t, picked, later, id) <==> id in picked && now <= later)
  {
  }

  // ---------------------------------------------------------------------------------------
  // Reports, consumptions and recoveries
  // ---------------------------------------------------------------------------------------

  /** The pause after a failed publication is half a minute, doubled by every attempt, and half an hour from
      the seventh on. */
  lemma PausesDouble(attempt: int)
    ensures attempt <= 1 ==> RetryDelaySeconds(attempt) == 30
    ensures 1 <= attempt < 6 ==> RetryDelaySeconds(attempt + 1) == 2 * RetryDelaySeconds(attempt)
    ensures attempt >= 7 ==> RetryDelaySeconds(attempt) == 1_800
  {
    assert Power2(3) == 8;
    assert Power2(6) == 8 * Power2(3);
  }

  /** The holder of a message publishes it, or fails it for good or for a while; everybody else is told how
      the message stands and changes nothing. */
  lemma ReportsDecide(s: State, id: OutboxId, claim: ClaimId, error: PublishError, delay: nat, terminal: bool, now: int)
    ensures var (published, answer) := MarkPublished(s, id, claim, now);
            var (failed, same) := RecordFailure(s, id, claim, error, delay, terminal, now);
            && same == answer
            && answer == (if id !in s.messages then NoSuchMessage
                          else if Holds(s, id, claim) || s.messages[id].status == Published then Done
                          else StateConflict)
            && if !Holds(s, id, claim) then published == s && failed == s
               else
                 var free := s.messages[id].(claim := None, claimedUntil := None);
                 && published ==
                    s.(messages := s.messages[id := free.(
                         status := Published, publishedAt := Some(now), lastError := None)])
                 && failed ==
                    s.(messages := s.messages[id :=
                         if terminal then
                           free.(status := Failed, failedAt := Some(now), nextAttemptAt := now,
                                 lastError := Some(error))
                         else
                           free.(failedAt := None, nextAttemptAt := now + 1_000 * delay, lastError := Some(error))])
  {
  }

  /** The first consumption leaves a receipt with its time, every other one counts. From then on no dispatch
      claims the message. */
  lemma ConsumptionDecides(s: State, id: OutboxId, now: int, picked: map<OutboxId, ClaimId>, later: int)
    requires OutboxInvariant(s)
    ensures var (t, outcome) := RecordConsumption(s, id, now);
            && (outcome == ConsumptionNotFound <==> id !in s.messages)
            && (outcome == FirstConsumption <==> id in s.messages && id !in s.receipts)
            && t.messages == s.messages
            && t.receipts ==
               (if id !in s.messages then s.receipts
                else if id in s.receipts then
                  s.receipts[id := Receipt(s.receipts[id].consumedAt, s.receipts[id].deliveries + 1)]
                else s.receipts[id := Receipt(now, 1)])
            && (id in s.messages ==> !Takes(t, picked, later, id))
  {
  }

  /** An operator can bring back exactly the failed messages that nobody consumed; the next dispatch that
      picks such a message claims it, as its first attempt. */
  lemma RecoveryDecides(s: State, id: OutboxId, now: int, picked: map<OutboxId, ClaimId>, later: int)
    requires OutboxInvariant(s)
    ensures var (t, recovered) := RecoverFailed(s, id, now);
            && (recovered <==> id in s.messages && s.messages[id].status == Failed && id !in s.receipts)
            && (!recovered ==> t == s)
            && (recovered ==>
                  && t.receipts == s.receipts && t.messages.Keys == s.messages.Keys
                  && (forall other :: other in s.messages && other != id ==> t.messages[other] == s.messages[other])
                  && t.messages[id].target == s.messages[id].target && t.messages[id].attempts == 0
                  && (Takes(t, picked, later, id) <==> id in picked && now <= later))
  {
  }
}
