/** How long a delivery claim keeps others out, what every delivery job is answered, and what a reported
    outcome means for the jobs that follow. */
module DeliveryClaims {
  import opened Common
  import opened TelegramContent
  import opened Delivery

  // ---------------------------------------------------------------------------------------
  // Exclusion
  // ---------------------------------------------------------------------------------------

  /** Seconds, rounded up, that take a worker from its own clock to an instant that has not come. */
  predicate WaitsFor(seconds: int, workerNow: int, instant: int) {
    instant <= workerNow + 1_000 * seconds < instant + 1_000
  }

  /** A claim keeps every other job away for sixty seconds: until then they change nothing and are told to
      come back when it ends. After that the first one ends the attempt and the reply as unknown, and the
      worker that was late is refused. */
  lemma ClaimExcludes(
      s: State, id: ReplyId, attempt: AttemptId, workerNow: int, now: int, again: AttemptId, workerLater: int,
      later: int)
    requires Claim(s, id, attempt, workerNow, now).1.Claimed?
    ensures var t := Claim(s, id, attempt, workerNow, now).0;
            var (u, outcome) := Claim(t, id, again, workerLater, later);
            if workerLater < now + 60_000 then
              u == t && outcome.Deferred? && WaitsFor(outcome.retryAfterSeconds, workerLater, now + 60_000)
            else
              && outcome == AlreadyTerminal && id in u.replies && attempt in u.attempts
              && u.replies[id].status == OutcomeUnknown && u.replies[id].terminalAt == Some(later)
              && u.replies[id].lastError == Some("attempt_lease_expired")
              && u.attempts[attempt].outcome == Some(Unknown("attempt_lease_expired"))
              && u.attempts[attempt].completedAt == Some(later)
              && forall report, at :: CompleteAttempt(u, id, attempt, report, at) == (u, false)
  {
    var t := Claim(s, id, attempt, workerNow, now).0;
    if workerLater < now + 60_000 {
      SecondsUntilReaches(now + 60_000, workerLater);
    }
  }

  /** Another job for the reply: the attempt it would make and the two clocks it reads. */
  datatype Job = Job(attempt: AttemptId, workerNow: int, now: int)

  function AllClaim(s: State, id: ReplyId, jobs: seq<Job>): State
    decreases |jobs|
  {
    if jobs == [] then s
    else AllClaim(Claim(s, id, jobs[0].attempt, jobs[0].workerNow, jobs[0].now).0, id, jobs[1..])
  }

  /** However many jobs come within those sixty seconds, the claim is still held, and its worker's report
      is recorded as it is. */
  lemma {:induction false} ReportInTimeIsRecorded(
      s: State, id: ReplyId, attempt: AttemptId, workerNow: int, now: int, jobs: seq<Job>, report: Outcome, at: int)
    requires Claim(s, id, attempt, workerNow, now).1.Claimed?
    requires forall i :: 0 <= i < |jobs| ==> jobs[i].workerNow < now + 60_000
    ensures var t := Claim(s, id, attempt, workerNow, now).0;
            && AllClaim(t, id, jobs) == t
            && var (u, recorded) := CompleteAttempt(t, id, attempt, report, at);
            && recorded && attempt in u.attempts
            && u.attempts[attempt].outcome == Some(report) && u.attempts[attempt].completedAt == Some(at)
    decreases |jobs|
  {
    if jobs != [] {
      ClaimExcludes(s, id, attempt, workerNow, now, jobs[0].attempt, jobs[0].workerNow, jobs[0].now);
      ReportInTimeIsRecorded(s, id, attempt, workerNow, now, jobs[1..], report, at);
    }
  }

  // ---------------------------------------------------------------------------------------
  // What a job is answered
  // ---------------------------------------------------------------------------------------

  /** A pending reply is claimed for its next attempt as long as it has fewer than three; the fourth job
      ends it. Replies that are over, or being delivered, are left alone until the lease has run out. */
  lemma ClaimDecides(s: State, id: ReplyId, attempt: AttemptId, workerNow: int, now: int)
    requires DeliveryInvariant(s)
    ensures var (t, outcome) := Claim(s, id, attempt, workerNow, now);
            if id !in s.replies then outcome == NotFound && t == s
            else
              var r := s.replies[id];
              match r.status
              case Pending =>
                if Attempted(s.attempts, id) >= 3 then
                  && outcome == AlreadyTerminal && t.attempts == s.attempts && t.recoveries == s.recoveries
                  && t.replies == s.replies[id := r.(
                       status := TerminalFailure, lastError := Some("attempts_exhausted"), terminalAt := Some(now))]
                else if attempt in s.attempts then outcome == Unavailable && t == s
                else
                  && outcome == Claimed(attempt) && t.recoveries == s.recoveries
                  && t.attempts == s.attempts[attempt := Attempt(id, 1 + Attempted(s.attempts, id), None, None)]
                  && t.replies == s.replies[id := r.(
                       status := Delivering, attempts := 1 + Attempted(s.attempts, id), claim := Some(attempt),
                       claimedUntil := Some(now + 60_000), lastError := None)]
              case Delivering =>
                && r.claimedUntil.Some?
                && (outcome.Deferred? <==> workerNow < r.claimedUntil.value)
                && (outcome.Deferred? ==>
                      t == s && WaitsFor(outcome.retryAfterSeconds, workerNow, r.claimedUntil.value))
                && (!outcome.Deferred? ==>
                      outcome == AlreadyTerminal && id in t.replies && t.replies[id].status == OutcomeUnknown)
              case _ => outcome == AlreadyTerminal && t == s
  {
    hide DeliveryInvariant, Attempted;
    if id in s.replies {
      CountedReply(s, id);
      if s.replies[id].claimedUntil.Some? && workerNow < s.replies[id].claimedUntil.value {
        SecondsUntilReaches(s.replies[id].claimedUntil.value, workerNow);
      }
    }
  }

  /** A reply's counter counts its attempts, and it is claimed exactly while it is being delivered. */
  lemma CountedReply(s: State, id: ReplyId)
    requires DeliveryInvariant(s) && id in s.replies
    ensures ReplyFits(s.replies[id]) && Attempted(s.attempts, id) == s.replies[id].attempts
  {
    hide Attempted, Recovered, AttemptsFit, NumbersUnique, RecoveriesFit;
    assert CountsFit(s.replies[id], Attempted(s.attempts, id), Recovered(s.recoveries, id));
  }

  /** A new reply says what its completion says, to its owner, and the first job claims it. */
  lemma NewReplyIsClaimed(
      s: State, id: ReplyId, event: EventId, completion: Completion, attempt: AttemptId, workerNow: int, now: int)
    requires id !in s.replies && attempt !in s.attempts
    ensures var t := Insert(s, id, event, completion);
            && id in t.replies && t == s.(replies := s.replies[id := t.replies[id]])
            && t.replies[id].event == event && t.replies[id].intent == completion.intent
            && t.replies[id].owner == ActorOf(completion) && t.replies[id].status == Pending
            && Claim(t, id, attempt, workerNow, now).1 == Claimed(attempt)
  {
  }

  // ---------------------------------------------------------------------------------------
  // What an outcome means
  // ---------------------------------------------------------------------------------------

  /** A report by the holder ends the claim. The reply is accepted, failed or unknown as the provider said,
      or waits for another job after a transient failure; its error is the reported one. */
  lemma OutcomeDecides(s: State, id: ReplyId, attempt: AttemptId, report: Outcome, now: int)
    requires DeliveryInvariant(s) && Holds(s, id, attempt)
    ensures var (t, recorded) := CompleteAttempt(s, id, attempt, report, now);
            && recorded && id in t.replies && t.replies == s.replies[id := t.replies[id]]
            && t.recoveries == s.recoveries
            && attempt in s.attempts
            && t.attempts ==
               s.attempts[attempt := s.attempts[attempt].(outcome := Some(report), completedAt := Some(now))]
            && var r := t.replies[id];
            && SameMessage(r, s.replies[id]) && r.attempts == s.replies[id].attempts
            && r.claim.None? && r.claimedUntil.None?
            && (r.acceptedAt == if report.Accepted? then Some(now) else None)
            && (r.terminalAt == if report.Rejected? || report.Unknown? then Some(now) else None)
            && match report
               case Accepted(message) =>
                 r.status == ProviderAccepted && r.providerMessage == Some(message) && r.lastError.None?
               case Transient(code) => r.status == Pending && r.lastError == Some(code)
               case Rejected(code) => r.status == TerminalFailure && r.lastError == Some(code)
               case Unknown(code) => r.status == OutcomeUnknown && r.lastError == Some(code)
  {
    hide DeliveryInvariant, Attempted;
    HeldAttempt(s, id, attempt);
  }

  lemma HeldAttempt(s: State, id: ReplyId, attempt: AttemptId)
    requires DeliveryInvariant(s) && Holds(s, id, attempt)
    ensures ReplyFits(s.replies[id]) && attempt in s.attempts && s.attempts[attempt].outcome.None?
  {
    hide Attempted, Recovered, Counted, NumbersUnique, RecoveriesFit;
    assert ClaimFits(s.attempts, id, s.replies[id]);
    assert AttemptFits(attempt, s.attempts[attempt], s.replies[id]);
  }

  /** After the report, another job gets an attempt if and only if the failure was transient and this was
      not the third attempt. */
  lemma AnotherAttemptIff(
      s: State, id: ReplyId, attempt: AttemptId, report: Outcome, now: int, again: AttemptId, workerNow: int,
      later: int)
    requires DeliveryInvariant(s) && Holds(s, id, attempt) && again !in s.attempts
    ensures var t := CompleteAttempt(s, id, attempt, report, now).0;
            Claim(t, id, again, workerNow, later).1.Claimed? <==>
              report.Transient? && Attempted(s.attempts, id) < 3
  {
    hide DeliveryInvariant, Attempted, CompleteAttempt;
    CountedReply(s, id);
    OutcomeDecides(s, id, attempt, report, now);
  }

  // ---------------------------------------------------------------------------------------
  // Recovery
  // ---------------------------------------------------------------------------------------

  /** A new recovery is prepared exactly for a reply that failed with the named error and has attempts left;
      every refusal says which of that was missing. */
  lemma RecoveryDecides(
      s: State, recovery: RecoveryId, id: ReplyId, errorCode: string, reason: Reason, outbox: Option<OutboxId>)
    requires DeliveryInvariant(s) && recovery !in s.recoveries
    ensures var (t, outcome) := Prepare(s, recovery, id, errorCode, reason, outbox);
            && (outcome.NotRecoverable? ==> t == s)
            && if id !in s.replies || outbox.None? then outcome == NotRecoverable(ReplyNotFound)
               else
                 var r := s.replies[id];
                 match r.status
                 case ProviderAccepted => outcome == NotRecoverable(RefusedProviderAccepted)
                 case OutcomeUnknown => outcome == NotRecoverable(RefusedOutcomeUnknown)
                 case TerminalFailure =>
                   if r.lastError != Some(errorCode) then outcome == NotRecoverable(ErrorCodeMismatch)
                   else if Attempted(s.attempts, id) >= 3 then outcome == NotRecoverable(AttemptLimitReached)
                   else
                     && outcome == Prepared(outbox.value, false) && t.attempts == s.attempts
                     && t.recoveries ==
                        s.recoveries[recovery := Recovery(id, outbox.value, errorCode, reason, None)]
                     && t.replies == s.replies[id := r.(
                          status := Pending, claim := None, claimedUntil := None, lastError := None,
                          terminalAt := None)]
                 case _ => outcome == NotRecoverable(NotTerminalFailure)
  {
    hide DeliveryInvariant, Attempted;
    if id in s.replies {
      CountedReply(s, id);
    }
  }

  /** The next job claims a reply whose recovery is prepared. */
  lemma RecoveredReplyIsClaimed(
      s: State, recovery: RecoveryId, id: ReplyId, errorCode: string, reason: Reason, outbox: Option<OutboxId>,
      attempt: AttemptId, workerNow: int, now: int)
    requires DeliveryInvariant(s) && recovery !in s.recoveries && attempt !in s.attempts
    requires Prepare(s, recovery, id, errorCode, reason, outbox).1.Prepared?
    ensures var t := Prepare(s, recovery, id, errorCode, reason, outbox).0;
            && Claim(t, id, attempt, workerNow, now).1 == Claimed(attempt)
            && recovery in t.recoveries && t.recoveries[recovery].publishedAt.None?
  {
    hide DeliveryInvariant, Attempted;
    CountedReply(s, id);
  }

  /** A recovery is marked as published once, and keeps the time of that; a repetition with the recovery's own
      arguments is told so. */
  lemma MarkDecides(s: State, recovery: RecoveryId, now: int, outbox: Option<OutboxId>)
    ensures var (t, outcome) := MarkPublished(s, recovery, now);
            if recovery !in s.recoveries then outcome == RecoveryNotFound && t == s
            else
              var row := s.recoveries[recovery];
              && outcome == (if row.publishedAt.Some? then AlreadyPublished else MarkedPublished)
              && (row.publishedAt.Some? ==> t == s)
              && (row.publishedAt.None? ==>
                    t == s.(recoveries := s.recoveries[recovery := row.(publishedAt := Some(now))]))
              && Prepare(t, recovery, row.reply, row.errorCode, row.reason, outbox) == (t, Prepared(row.outbox, true))
  {
  }
}
