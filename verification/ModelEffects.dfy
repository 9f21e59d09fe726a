/** What one step of a run can do to the tables, sorted into six effects. The invariants are
    proved effect by effect. */
module ModelEffects {
  import opened Common
  import opened ModelRegistry
  import opened ModelGateway
  import opened ModelDatabase
  import opened ModelRuns

  predicate Waiting(o: Operation) {
    o.status.Prepared? || o.status.RetryScheduled?
  }

  predicate Inserts(db: Database, after: Database, id: OperationId, o: Operation) {
    var amount := if o.terms.provider == OpenAI then o.reserved else 0;
    && id !in db.operations
    && (amount > 0 ==> Refuses(OpenFor(db, o.terms, o.period), EnvironmentOf(o), UserOf(o), amount).None?)
    && after == (if amount > 0 then Reserve(db, o.terms, o.period, amount) else db).(
                  operations := db.operations[id := o])
  }

  predicate AsksFor(o: Operation, id: OperationId, request: Request, clock: Clock) {
    Acceptable(request) && o == NewOperation(id, None, TermsFor(request), Reservation(TermsFor(request)), clock)
  }

  predicate RestartsFrom(db: Database, o: Operation, source: OperationId, clock: Clock) {
    && source in db.operations
    && var from := db.operations[source];
       && from.status == Terminal(Unknown)
       && |Restarts(db.operations, from.root)| < from.terms.restartLimit
       && o == NewOperation(from.root, Some(source), from.terms, from.reserved, clock)
  }

  predicate CanDispatch(db: Database, id: OperationId, newId: AttemptId, clock: Clock) {
    && id in db.operations && newId !in db.attempts
    && var o := db.operations[id];
       && Waiting(o)
       && clock.now < o.deadlineAt
       && o.dispatches < o.terms.profile.maximumHttpDispatches
       && (o.terms.provider == OpenAI ==>
             && EnvironmentOf(o) in db.accounts && !db.accounts[EnvironmentOf(o)].killSwitch
             && ((o.terms.user, clock.day) in db.dispatches ==>
                   db.dispatches[(o.terms.user, clock.day)] < o.terms.dailyLimit))
  }

  predicate CanExpire(db: Database, id: OperationId, clock: Clock) {
    && id in db.operations
    && var o := db.operations[id];
       o.status.Dispatched? && o.attempt.Some? && o.leaseUntil.Some? && o.leaseUntil.value <= clock.now
  }

  predicate CanReject(db: Database, id: OperationId, failure: Failure, clock: Clock) {
    && id in db.operations
    && Waiting(db.operations[id])
    && ClaimRefusal(db, db.operations[id], clock) == Some(failure)
  }

  predicate CanComplete(s: System, a: AttemptId) {
    && a in s.issued
    && s.issued[a].operation in s.db.operations
    && s.db.operations[s.issued[a].operation].status.Dispatched?
    && s.db.operations[s.issued[a].operation].attempt == Some(a)
  }

  function EffectiveCompletion(s: System, a: AttemptId, outcome: GatewayOutcome, clock: Clock): Completion
    requires CanComplete(s, a)
  {
    var reported := ReportedCompletion(s.issued[a], outcome);
    reported.(plan := EffectivePlan(reported.plan, s.db.operations[s.issued[a].operation], clock))
  }

  /** The tables after an accepted completion. */
  function Completed(s: System, a: AttemptId, outcome: GatewayOutcome, clock: Clock): Database
    requires CanComplete(s, a)
  {
    var id := s.issued[a].operation;
    var o := s.db.operations[id];
    var completion := EffectiveCompletion(s, a, outcome, clock);
    var response := ReportedResponse(outcome);
    var finished := FinishAttempt(s.db, a, completion, response, clock);
    if completion.plan.ScheduleRetry? then
      finished.(operations := s.db.operations[id := ScheduledRow(o, completion, completion.plan.delay, clock)])
    else
      (if completion.disposition == Unknown then finished
       else Release(finished, o, Settlement(o, completion, response))).(
        operations := s.db.operations[id := FinishedRow(o, completion, response, clock)])
  }

  lemma AskEffect(s: System, id: OperationId, request: Request, clock: Clock)
    ensures var after := Step(s, Ask(id, request, clock));
            after == s ||
            (after.issued == s.issued && id in after.db.operations &&
             Inserts(s.db, after.db, id, after.db.operations[id]) &&
             AsksFor(after.db.operations[id], id, request, clock))
  {
  }

  lemma RestartEffect(s: System, user: UserId, source: OperationId, id: OperationId, clock: Clock)
    ensures var after := Step(s, AskRestart(user, source, id, clock));
            after == s ||
            (after.issued == s.issued && id in after.db.operations &&
             Inserts(s.db, after.db, id, after.db.operations[id]) &&
             RestartsFrom(s.db, after.db.operations[id], source, clock))
  {
  }

  lemma WakeUpEffect(s: System, id: OperationId, newId: AttemptId, clock: Clock)
    ensures var after := Step(s, WakeUp(id, newId, clock));
            || after == s
            || (CanDispatch(s.db, id, newId, clock) &&
                after == System(
                  Dispatch(s.db, id, newId, clock), s.issued[newId := Work(s.db.operations[id], id, clock)]))
            || (CanExpire(s.db, id, clock) && after == s.(db := Expire(s.db, id, clock)))
            || exists failure :: CanReject(s.db, id, failure, clock) &&
                                 after == s.(db := RejectClaim(s.db, id, failure, clock))
  {
    if id in s.db.operations && Claim(s.db, id, newId, clock).1.RejectedBeforeDispatch? {
      var failure := ClaimRefusal(s.db, s.db.operations[id], clock).value;
      assert CanReject(s.db, id, failure, clock);
    }
  }

  lemma FinishEffect(s: System, a: AttemptId, outcome: GatewayOutcome, clock: Clock)
    ensures var after := Step(s, Finish(a, outcome, clock));
            after == if CanComplete(s, a) then s.(db := Completed(s, a, outcome, clock)) else s
  {
  }
}
