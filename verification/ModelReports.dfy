/** What a report does to its operation, its attempt and the two accounts, failure by failure, and what
    the worker then tells its caller. */
module ModelReports {
  import opened Common
  import opened ModelRegistry
  import opened ModelGateway
  import opened ModelDatabase
  import opened ModelRuns
  import opened ModelEffects
  import opened ModelMachine
  import opened ModelBudget
  import opened ModelExecution

  /** The provider produced something before it failed, so it may have charged. */
  predicate MayHaveCharged(e: GatewayError) {
    e.Refusal? || e.Truncated? || e.DecodingFailed?
  }

  /** Nobody can tell whether the provider did the work. */
  predicate Unclear(e: GatewayError) {
    e.DeadlineExceeded? || e.ConnectionLost? || e.EmptyResponse? || e.MalformedResponse? || e.Http5xx?
  }

  /** A short transient rate limit is tried again a second later, once, if there is time for it. */
  predicate TriedAgain(o: Operation, e: GatewayError, clock: Clock) {
    && e.RateLimited? && e.transient && e.retryAfter <= 1_000
    && o.retriesUsed == 0
    && clock.now + 1_000 <= o.deadlineAt
  }

  function DispositionOf(e: GatewayError): Disposition {
    if Unclear(e) then Unknown else if e.Truncated? || e.DecodingFailed? then Invalid else Rejected
  }

  // ---------------------------------------------------------------------------------------
  // Failures and answers
  // ---------------------------------------------------------------------------------------

  /** A failed call. The operation pays its whole reservation exactly if the provider may have charged,
      keeps it exactly if the outcome is unclear or the call is tried again, and is free otherwise. */
  lemma FailureDecides(s: System, a: AttemptId, e: GatewayError, clock: Clock)
    requires MachineInvariant(s) && CanComplete(s, a)
    ensures var id := s.issued[a].operation;
            var prior := s.db.operations[id];
            var after := Step(s, Finish(a, Failed(e), clock)).db.operations;
            && id in after
            && var o := after[id];
            && (o.status == RetryScheduled <==> TriedAgain(prior, e, clock))
            && (o.status != RetryScheduled ==> o.status == Terminal(DispositionOf(e)))
            && o.settled - prior.settled == (if MayHaveCharged(e) then prior.reserved else 0)
            && o.reserved == (if Unclear(e) || TriedAgain(prior, e, clock) then prior.reserved else 0)
            && o.failure == Some(Gateway(e)) && o.result.None?
            && o.retryNotBefore == (if TriedAgain(prior, e, clock) then Some(clock.now + 1_000) else None)
            && o.retriesUsed == prior.retriesUsed + (if TriedAgain(prior, e, clock) then 1 else 0)
            && o.completedAt == (if TriedAgain(prior, e, clock) then None else Some(clock.now))
  {
    CurrentAttempt(s, a);
    FailedCompletion(s, a, e, clock);
    CompletedRow(s, a, Failed(e), clock);
    FinishEffect(s, a, Failed(e), clock);
    FailedRow(s.db.operations[s.issued[a].operation], EffectiveCompletion(s, a, Failed(e), clock), e, clock);
    hide *;
  }

  lemma FailedRow(prior: Operation, completion: Completion, e: GatewayError, clock: Clock)
    requires OperationFits(prior) && prior.result.None? && prior.completedAt.None?
    requires completion.disposition == DispositionOf(e) && completion.failure == Some(Gateway(e))
    requires completion.plan == if TriedAgain(prior, e, clock) then ScheduleRetry(1_000) else NoRetry
    ensures var o :=
              if completion.plan.ScheduleRetry? then ScheduledRow(prior, completion, completion.plan.delay, clock)
              else FinishedRow(prior, completion, ReportedResponse(Failed(e)), clock);
            && (o.status == RetryScheduled <==> TriedAgain(prior, e, clock))
            && (o.status != RetryScheduled ==> o.status == Terminal(DispositionOf(e)))
            && o.settled - prior.settled == (if MayHaveCharged(e) then prior.reserved else 0)
            && o.reserved == (if Unclear(e) || TriedAgain(prior, e, clock) then prior.reserved else 0)
            && o.failure == Some(Gateway(e)) && o.result.None?
            && o.retryNotBefore == (if TriedAgain(prior, e, clock) then Some(clock.now + 1_000) else None)
            && o.retriesUsed == prior.retriesUsed + (if TriedAgain(prior, e, clock) then 1 else 0)
            && o.completedAt == (if TriedAgain(prior, e, clock) then None else Some(clock.now))
  {
    hide OperationFits;
  }

  /** The row of a completed operation. */
  lemma CompletedRow(s: System, a: AttemptId, outcome: GatewayOutcome, clock: Clock)
    requires CanComplete(s, a)
    ensures var id := s.issued[a].operation;
            var o := s.db.operations[id];
            var completion := EffectiveCompletion(s, a, outcome, clock);
            Completed(s, a, outcome, clock).operations ==
            s.db.operations[id :=
              if completion.plan.ScheduleRetry? then ScheduledRow(o, completion, completion.plan.delay, clock)
              else FinishedRow(o, completion, ReportedResponse(outcome), clock)]
  {
    hide EffectiveCompletion, ScheduledRow, FinishedRow, FinishAttempt, Release, Settlement;
  }

  /** An answer ends the operation and is paid for, whether its dates exist or not. */
  lemma AnswerDecides(s: System, a: AttemptId, r: Response, clock: Clock)
    requires MachineInvariant(s) && CanComplete(s, a)
    ensures var id := s.issued[a].operation;
            var prior := s.db.operations[id];
            var after := Step(s, Finish(a, Answered(r), clock)).db.operations;
            && id in after
            && var o := after[id];
            && o.status == Terminal(if r.datesValid then Success else Invalid)
            && o.settled - prior.settled == r.cost && o.reserved == 0
            && o.failure == (if r.datesValid then None else Some(DomainValidationRejected))
            && o.result == (if r.datesValid then Some(r.output) else None)
            && o.retryNotBefore == None && o.retriesUsed == prior.retriesUsed && o.completedAt == Some(clock.now)
  {
    FinishEffect(s, a, Answered(r), clock);
    hide Step, MachineInvariant;
  }

  /** The operation is the attempt's, in flight, and its worker knows whether the retry is left. */
  lemma CurrentAttempt(s: System, a: AttemptId)
    requires MachineInvariant(s) && CanComplete(s, a)
    ensures var o := s.db.operations[s.issued[a].operation];
            && OperationFits(o)
            && o.result.None? && o.completedAt.None? && o.retryNotBefore.None?
            && s.issued[a].retryAvailable == (o.retriesUsed == 0)
            && s.issued[a].provider == o.terms.provider
  {
    RowOf(s, s.issued[a].operation);
    assert WorkMatches(s.db.operations[s.issued[a].operation], a, s.issued[a]);
    hide TablesFit, AttemptsFit;
  }

  lemma FailedCompletion(s: System, a: AttemptId, e: GatewayError, clock: Clock)
    requires CanComplete(s, a)
    requires s.issued[a].retryAvailable == (s.db.operations[s.issued[a].operation].retriesUsed == 0)
    ensures EffectiveCompletion(s, a, Failed(e), clock) ==
            Completion(
              DispositionOf(e), Some(Gateway(e)),
              if TriedAgain(s.db.operations[s.issued[a].operation], e, clock) then ScheduleRetry(1_000) else NoRetry)
  {
  }

  // ---------------------------------------------------------------------------------------
  // Accounts and attempts
  // ---------------------------------------------------------------------------------------

  /** The report touches its own row, its own attempt and, for a paid operation, the two accounts of its
      month, which move exactly as the row does. */
  lemma ReportIsLocal(s: System, a: AttemptId, outcome: GatewayOutcome, clock: Clock)
    requires MachineInvariant(s) && Conserved(s.db) && CanComplete(s, a)
    ensures var id := s.issued[a].operation;
            var prior := s.db.operations[id];
            var t := Step(s, Finish(a, outcome, clock));
            && id in t.db.operations && t.db.operations == s.db.operations[id := t.db.operations[id]]
            && AccountsMove(
                 s.db.accounts, t.db.accounts, prior, t.db.operations[id].reserved - prior.reserved,
                 t.db.operations[id].settled - prior.settled)
            && (forall key :: ChargedTo(prior, key) ==> key in s.db.accounts)
            && t.db.alerts == s.db.alerts && t.db.dispatches == s.db.dispatches && t.issued == s.issued
  {
    hide Step, Completed, EffectiveCompletion, Settlement, MachineInvariant, OperationFits, Conserved, AccountsMove,
      Charge;
    var id := s.issued[a].operation;
    var after := Completed(s, a, outcome, clock);
    CurrentAttempt(s, a);
    CompletionMovesMoney(s, a, outcome, clock);
    CompletedElsewhere(s, a, outcome, clock);
    FinishEffect(s, a, outcome, clock);
    ChargedAccounts(s.db, id);
    var prior, o := s.db.operations[id], after.operations[id];
    ChargeMoves(s.db.accounts, after.accounts, prior, o, o.reserved - prior.reserved, o.settled - prior.settled);
  }

  /** So a paid call that fails costs both its accounts the whole reservation if and only if the provider
      may have charged, costs nothing otherwise, and leaves the reservation standing if and only if the
      outcome is unclear or the call is tried again. */
  lemma PaidFailureSettles(s: System, a: AttemptId, e: GatewayError, clock: Clock, key: AccountKey)
    requires MachineInvariant(s) && Conserved(s.db) && CanComplete(s, a)
    requires ChargedTo(s.db.operations[s.issued[a].operation], key)
    ensures var reserved := s.db.operations[s.issued[a].operation].reserved;
            var before, after := s.db.accounts, Step(s, Finish(a, Failed(e), clock)).db.accounts;
            && reserved > 0 && key in before && key in after
            && (after[key].settled - before[key].settled == reserved <==> MayHaveCharged(e))
            && (after[key].settled == before[key].settled <==> !MayHaveCharged(e))
            && (after[key].reserved == before[key].reserved <==>
                  Unclear(e) || TriedAgain(s.db.operations[s.issued[a].operation], e, clock))
            && (after[key].reserved == before[key].reserved - reserved <==>
                  !Unclear(e) && !TriedAgain(s.db.operations[s.issued[a].operation], e, clock))
  {
    hide Step, MachineInvariant, Conserved, TriedAgain, Unclear, MayHaveCharged, OperationFits;
    CurrentAttempt(s, a);
    FailureDecides(s, a, e, clock);
    ReportIsLocal(s, a, Failed(e), clock);
    ReservationPositive(s, s.issued[a].operation);
  }

  lemma ReservationPositive(s: System, id: OperationId)
    requires MachineInvariant(s) && id in s.db.operations && s.db.operations[id].status == Dispatched
    ensures s.db.operations[id].terms.provider == OpenAI ==> s.db.operations[id].reserved > 0
  {
    hide MachineInvariant;
    RowOf(s, id);
  }

  lemma CompletedElsewhere(s: System, a: AttemptId, outcome: GatewayOutcome, clock: Clock)
    requires CanComplete(s, a)
    ensures var after := Completed(s, a, outcome, clock);
            after.alerts == s.db.alerts && after.dispatches == s.db.dispatches
  {
  }

  /** The attempt is closed with what was reported, and with its cost exactly if it was answered. */
  lemma AttemptCloses(s: System, a: AttemptId, outcome: GatewayOutcome, clock: Clock)
    requires MachineInvariant(s) && CanComplete(s, a)
    ensures var prior := s.db.operations[s.issued[a].operation];
            var after := Step(s, Finish(a, outcome, clock)).db.attempts;
            && a in s.db.attempts && a in after && after == s.db.attempts[a := after[a]]
            && after[a].operation == s.db.attempts[a].operation && after[a].ordinal == s.db.attempts[a].ordinal
            && after[a].startedOn == s.db.attempts[a].startedOn && after[a].completedAt == Some(clock.now)
            && match outcome
               case Answered(r) =>
                 && after[a].disposition == Some(if r.datesValid then Success else Invalid)
                 && after[a].failure == (if r.datesValid then None else Some(DomainValidationRejected))
                 && after[a].cost == Some(r.cost) && !after[a].retryPlanned
               case Failed(e) =>
                 && after[a].disposition == Some(DispositionOf(e))
                 && after[a].failure == Some(Gateway(e))
                 && after[a].cost == None && after[a].retryPlanned == TriedAgain(prior, e, clock)
  {
    hide Step, MachineInvariant, OperationFits, Completed, Classify, TriedAgain, Unclear;
    CurrentAttempt(s, a);
    InFlight(s, s.issued[a].operation);
    if outcome.Failed? {
      FailedCompletion(s, a, outcome.error, clock);
    }
    FinishEffect(s, a, outcome, clock);
    CompletedAttempt(s, a, outcome, clock);
    if outcome.Failed? {
      hide EffectiveCompletion;
    }
  }

  lemma CompletedAttempt(s: System, a: AttemptId, outcome: GatewayOutcome, clock: Clock)
    requires CanComplete(s, a) && a in s.db.attempts && s.db.attempts[a].disposition.None?
    ensures var completion := EffectiveCompletion(s, a, outcome, clock);
            Completed(s, a, outcome, clock).attempts ==
            s.db.attempts[a := s.db.attempts[a].(
              disposition := Some(completion.disposition), failure := completion.failure,
              retryPlanned := completion.plan.ScheduleRetry?,
              cost := if outcome.Answered? then Some(outcome.response.cost) else None,
              completedAt := Some(clock.now))]
  {
    hide EffectiveCompletion, ScheduledRow, FinishedRow, Settlement;
  }

  // ---------------------------------------------------------------------------------------
  // Reports that come too late, and what callers are told
  // ---------------------------------------------------------------------------------------

  /** Any report by a worker whose attempt is no longer the current one changes nothing. */
  lemma LateReportChangesNothing(s: System, a: AttemptId, outcome: GatewayOutcome, clock: Clock)
    requires !CanComplete(s, a)
    ensures Step(s, Finish(a, outcome, clock)) == s
  {
  }

  /** What the caller is told after a report in time: an answer, the failure, or to come back in a second. */
  lemma ReportIsTold(s: System, a: AttemptId, outcome: GatewayOutcome, clock: Clock)
    requires MachineInvariant(s) && CanComplete(s, a)
    ensures var work := s.issued[a];
            var prior := s.db.operations[work.operation];
            var reply :=
              Complete(s.db, work.operation, a, ReportedCompletion(work, outcome), ReportedResponse(outcome), clock).1;
            AfterReport(outcome, reply) ==
            match outcome
            case Answered(r) =>
              if r.datesValid then Succeeded(r.output)
              else ExecutionFailed(Completion(Invalid, Some(DomainValidationRejected), NoRetry))
            case Failed(e) =>
              if TriedAgain(prior, e, clock) then RetryIn(1_000)
              else ExecutionFailed(Completion(DispositionOf(e), Some(Gateway(e)), NoRetry))
  {
    CurrentAttempt(s, a);
    ReplyIsCompletion(s, a, outcome, clock);
    if outcome.Failed? {
      FailedCompletion(s, a, outcome.error, clock);
      hide *;
    }
    hide MachineInvariant, OperationFits, Complete;
  }

  lemma ReplyIsCompletion(s: System, a: AttemptId, outcome: GatewayOutcome, clock: Clock)
    requires CanComplete(s, a)
    ensures Complete(
              s.db, s.issued[a].operation, a, ReportedCompletion(s.issued[a], outcome), ReportedResponse(outcome),
              clock).1 == Recorded(EffectiveCompletion(s, a, outcome, clock))
  {
    hide ReportedCompletion, ReportedResponse, ScheduledRow, FinishedRow, Settlement, FinishAttempt, Release;
  }

  /** And after a report that came too late: a valid answer is success all the same, anything else is what
      the operation ended with, and while it goes on the store is unavailable. */
  lemma LateReportIsTold(s: System, a: AttemptId, outcome: GatewayOutcome, clock: Clock)
    requires MachineInvariant(s) && a in s.issued && !CanComplete(s, a)
    ensures var work := s.issued[a];
            work.operation in s.db.operations &&
            var o := s.db.operations[work.operation];
            var reply :=
              Complete(s.db, work.operation, a, ReportedCompletion(work, outcome), ReportedResponse(outcome), clock).1;
            AfterReport(outcome, reply) ==
            match o.status
            case Terminal(d) =>
              if outcome.Answered? && outcome.response.datesValid then Succeeded(outcome.response.output)
              else ExecutionFailed(Completion(d, o.failure, NoRetry))
            case _ => StoreUnavailable
  {
    hide TablesFit, ReportedCompletion;
    assert s.issued[a].operation in s.db.operations;
    TerminalRow(s, s.issued[a].operation);
  }

  lemma TerminalRow(s: System, id: OperationId)
    requires MachineInvariant(s) && id in s.db.operations
    ensures s.db.operations[id].status.Terminal? ==>
              s.db.operations[id].disposition == Some(s.db.operations[id].status.disposition) &&
              !s.db.operations[id].retryPlanned
  {
    RowOf(s, id);
    hide MachineInvariant;
  }
}
