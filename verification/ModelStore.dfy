/** The store itself: the tables as fields that each transaction updates in place, statement by
    statement, and the worker that drives it. Every transaction does what the functions of
    ModelDatabase and ModelRuns say, and keeps the tables valid: row constraints and attempt
    bookkeeping, conserved money, bounded lineages, exact daily counters, closed alerts. */
module ModelStore {
  import opened Common
  import opened ModelRegistry
  import opened ModelGateway
  import opened ModelDatabase
  import opened ModelRuns
  import opened ModelMachine
  import opened ModelExecution
  import opened ModelTheorems

  class ModelOperationStore {
    var operations: map<OperationId, Operation>
    var attempts: map<AttemptId, Attempt>
    var accounts: map<AccountKey, Account>
    var alerts: set<(AccountKey, nat)>
    var dispatches: map<(UserId, int), nat>
    /** History: the authority returned with every claimed attempt. */
    var issued: map<AttemptId, ClaimedAttempt>

    ghost function Tables(): Database
      reads this
    {
      Database(operations, attempts, accounts, alerts, dispatches)
    }

    ghost function State(): System
      reads this
    {
      System(Tables(), issued)
    }

    ghost predicate Valid()
      reads this
    {
      SystemFits(State())
    }

    constructor ()
      ensures Valid() && State() == INITIAL
    {
      operations, attempts, accounts, alerts, dispatches, issued := map[], map[], map[], {}, map[], map[];
      new;
      EveryRun([]);
      AssembleParts(INITIAL);
    }

    /** Insert the alerts that are due on two accounts, then trip the switch of a full environment. */
    method RecordBudgetThresholds(environment: AccountKey, user: AccountKey)
      modifies this`alerts, this`accounts
      ensures alerts == old(alerts) + ThresholdAlerts(old(accounts), environment, user)
      ensures accounts == TripSwitch(old(accounts), environment)
    {
      alerts := alerts + set scope, percent |
        scope in {environment, user} && scope in accounts && percent in THRESHOLDS &&
        accounts[scope].ceiling > 0 &&
        (accounts[scope].reserved + accounts[scope].settled) * 100 >= accounts[scope].ceiling * percent
        :: (scope, percent);
      if environment in accounts {
        var budget := accounts[environment];
        if budget.ceiling > 0 && budget.reserved + budget.settled >= budget.ceiling {
          accounts := accounts[environment := budget.(killSwitch := true)];
        }
      }
    }

    /** Add a reservation to both accounts of a month, opening them first where they are missing. */
    method ReserveOnAccounts(terms: Terms, period: int, amount: int) returns (refusal: Option<Refusal>)
      modifies this`alerts, this`accounts
      ensures refusal == Refuses(
                old(OpenFor(Tables(), terms, period)), EnvironmentMonth(terms.policy, period),
                UserMonth(terms.user, period), amount)
      ensures Tables() == if refusal.Some? then old(Tables()) else Reserve(old(Tables()), terms, period, amount)
    {
      var environment := EnvironmentMonth(terms.policy, period);
      var user := UserMonth(terms.user, period);
      var available := accounts;
      if environment !in available {
        available := available[environment := Account(terms.environmentCeiling, 0, 0, false)];
      }
      if user !in available {
        available := available[user := Account(terms.userCeiling, 0, 0, false)];
      }
      assert available == OpenFor(Tables(), terms, period);
      if available[environment].killSwitch {
        return Some(SwitchedOff);
      }
      if available[environment].reserved + available[environment].settled + amount > available[environment].ceiling {
        return Some(EnvironmentExceeded);
      }
      if available[user].reserved + available[user].settled + amount > available[user].ceiling {
        return Some(UserExceeded);
      }
      accounts := available
                  [environment := available[environment].(reserved := available[environment].reserved + amount)]
                  [user := available[user].(reserved := available[user].reserved + amount)];
      assert accounts == Charge(available, environment, user, amount, 0);
      RecordBudgetThresholds(environment, user);
      return None;
    }

    method PrepareOperation(id: OperationId, terms: Terms, amount: int, clock: Clock) returns (outcome: PrepareOutcome)
      modifies this`operations, this`alerts, this`accounts
      ensures (Tables(), outcome) == Prepare(old(Tables()), id, terms, amount, clock)
    {
      if id in operations {
        return if operations[id].terms.digest != terms.digest then InputConflict else DuplicatePreparation;
      }
      if amount > 0 {
        var refusal := ReserveOnAccounts(terms, clock.month, amount);
        if refusal.Some? {
          return PreparationRefused(refusal.value);
        }
      }
      operations := operations[id := NewOperation(id, None, terms, amount, clock)];
      return PreparedNow;
    }

    /** Check a request against the registry before any row is touched. */
    method PrepareModelOperation(id: OperationId, request: Request, clock: Clock) returns (outcome: RequestOutcome)
      requires Valid()
      modifies this`operations, this`alerts, this`accounts
      ensures Valid() && State() == Step(old(State()), Ask(id, request, clock))
      ensures (Tables(), outcome) == ModelRuns.PrepareModelOperation(old(Tables()), id, request, clock)
    {
      hide SystemFits;
      StepFits(State(), Ask(id, request, clock));
      var length := CountUtf8Bytes(request.canonicalInput);
      if |request.canonicalInput| < 1 || length > ProfileOf(request.name).maximumInputBytes {
        return InvalidRequest;
      }
      if !IsDigest(request.digest) {
        return InvalidRequest;
      }
      var terms := TermsFor(request);
      var prepared := PrepareOperation(id, terms, Reservation(terms), clock);
      return Answer(prepared);
    }

    /** Give a reservation back, or turn it into settled cost. */
    method ReleaseReservation(o: Operation, settlement: int)
      modifies this`accounts
      ensures Tables() == Release(old(Tables()), o, settlement)
    {
      if o.terms.provider == OpenAI && o.reserved != 0 {
        if EnvironmentOf(o) in accounts {
          var budget := accounts[EnvironmentOf(o)];
          accounts := accounts[EnvironmentOf(o) := budget.(
            reserved := budget.reserved - o.reserved, settled := budget.settled + settlement)];
        }
        if UserOf(o) in accounts {
          var budget := accounts[UserOf(o)];
          accounts := accounts[UserOf(o) := budget.(
            reserved := budget.reserved - o.reserved, settled := budget.settled + settlement)];
        }
        assert accounts == Charge(old(accounts), EnvironmentOf(o), UserOf(o), -o.reserved, settlement);
      }
    }

    method Reject(id: OperationId, failure: Failure, clock: Clock) returns (outcome: ClaimOutcome)
      requires id in operations
      modifies this`operations, this`accounts
      ensures Tables() == RejectClaim(old(Tables()), id, failure, clock)
      ensures outcome == RejectedBeforeDispatch(Completion(Rejected, Some(failure), NoRetry))
    {
      ReleaseReservation(operations[id], 0);
      operations := operations[id := operations[id].(
        status := Terminal(Rejected), disposition := Some(Rejected), failure := Some(failure),
        retryPlanned := false, retryNotBefore := None, attempt := None, leaseUntil := None,
        reserved := 0, completedAt := Some(clock.now))];
      return RejectedBeforeDispatch(Completion(Rejected, Some(failure), NoRetry));
    }

    method ExpireLease(id: OperationId, clock: Clock)
      requires id in operations && operations[id].attempt.Some?
      modifies this`operations, this`attempts
      ensures Tables() == Expire(old(Tables()), id, clock)
    {
      var o := operations[id];
      var a := o.attempt.value;
      if a in attempts && attempts[a].disposition.None? {
        attempts := attempts[a := attempts[a].(
          disposition := Some(Unknown), failure := Some(AttemptLeaseExpired), retryPlanned := false,
          completedAt := Some(clock.now))];
      }
      operations := operations[id := o.(
        status := Terminal(Unknown), disposition := Some(Unknown), failure := Some(AttemptLeaseExpired),
        retryPlanned := false, retryNotBefore := None, attempt := None, leaseUntil := None,
        completedAt := Some(clock.now))];
    }

    /** The dispatch itself: count it, insert the attempt, lease the operation to it. */
    method StartAttempt(id: OperationId, newId: AttemptId, clock: Clock)
      requires id in operations
      modifies this`operations, this`attempts, this`dispatches
      ensures Tables() == Dispatch(old(Tables()), id, newId, clock)
    {
      var o := operations[id];
      if o.terms.provider == OpenAI {
        var day := (o.terms.user, clock.day);
        dispatches := dispatches[day := (if day in dispatches then dispatches[day] else 0) + 1];
      }
      attempts := attempts[newId := Attempt(
        id, o.dispatches + 1, clock.day, clock.now + ATTEMPT_LEASE, None, None, false, None, None)];
      operations := operations[id := o.(
        status := Dispatched, disposition := None, failure := None, retryPlanned := false,
        retryNotBefore := None, attempt := Some(newId), leaseUntil := Some(clock.now + ATTEMPT_LEASE),
        dispatches := o.dispatches + 1)];
    }

    /** One wake-up claims the operation for one provider call, recovers it, refuses it or waits. */
    method Claim(id: OperationId, newId: AttemptId, clock: Clock) returns (outcome: ClaimOutcome)
      requires Valid()
      modifies this
      ensures Valid()
      ensures outcome.Unavailable? ==> newId in attempts
      ensures (Tables(), outcome) == ModelDatabase.Claim(old(Tables()), id, newId, clock)
      ensures State() == Step(old(State()), WakeUp(id, newId, clock))
    {
      hide SystemFits;
      StepFits(State(), WakeUp(id, newId, clock));
      RowsFound(State(), id, newId, clock);
      if id !in operations {
        return NotFound;
      }
      var o := operations[id];
      if o.status.Terminal? {
        return if o.disposition.Some? then AlreadyCompleted(StoredCompletion(o, clock)) else Unavailable;
      }
      if o.status.Dispatched? {
        if o.attempt.None? || o.leaseUntil.None? {
          return Unavailable;
        }
        if o.leaseUntil.value > clock.now {
          return Deferred(Max(1, o.leaseUntil.value - clock.now));
        }
        ExpireLease(id, clock);
        return AlreadyCompleted(Completion(Unknown, Some(AttemptLeaseExpired), NoRetry));
      }
      if o.status.RetryScheduled? && o.retryNotBefore.Some? && o.retryNotBefore.value > clock.now {
        return Deferred(Max(1, o.retryNotBefore.value - clock.now));
      }
      outcome := ClaimWaiting(id, newId, clock);
    }

    /** The checks before a dispatch, in the order in which they refuse it. */
    method ClaimWaiting(id: OperationId, newId: AttemptId, clock: Clock) returns (outcome: ClaimOutcome)
      requires id in operations
      requires operations[id].status.Prepared? || operations[id].status.RetryScheduled?
      requires operations[id].status.RetryScheduled? && operations[id].retryNotBefore.Some? ==>
                 operations[id].retryNotBefore.value <= clock.now
      modifies this
      ensures (Tables(), outcome) == ModelDatabase.Claim(old(Tables()), id, newId, clock)
      ensures issued == Issue(old(issued), outcome)
    {
      var o := operations[id];
      if o.deadlineAt <= clock.now {
        outcome := Reject(id, DeadlineExceededBeforeDispatch, clock);
        return;
      }
      if o.dispatches >= o.terms.profile.maximumHttpDispatches {
        outcome := Reject(id, DispatchLimitExceeded, clock);
        return;
      }
      if o.terms.provider == OpenAI {
        if EnvironmentOf(o) !in accounts {
          return Unavailable;
        }
        if accounts[EnvironmentOf(o)].killSwitch {
          outcome := Reject(id, KillSwitchEngaged, clock);
          return;
        }
        var day := (o.terms.user, clock.day);
        if day in dispatches && dispatches[day] >= o.terms.dailyLimit {
          outcome := Reject(id, DailyDispatchLimitExceeded, clock);
          return;
        }
      }
      if newId in attempts {
        return Unavailable;
      }
      StartAttempt(id, newId, clock);
      var remaining := Max(1, o.deadlineAt - clock.now);
      var work := ClaimedAttempt(
        id, o.dispatches + 1, o.terms.name, o.terms.provider, Min(o.terms.profile.providerTimeout, remaining),
        remaining, o.retriesUsed < o.terms.profile.retryLimit);
      issued := issued[newId := work];
      return Claimed(newId, work);
    }

    /** Record the outcome of an attempt; only the attempt in flight moves the operation. */
    method Complete(id: OperationId, a: AttemptId, requested: Completion, response: Option<Response>, clock: Clock)
      returns (outcome: CompleteOutcome)
      modifies this`operations, this`attempts, this`accounts
      ensures (Tables(), outcome) == ModelDatabase.Complete(old(Tables()), id, a, requested, response, clock)
    {
      if id !in operations {
        return CompletionNotFound;
      }
      var o := operations[id];
      if o.status != Dispatched || o.attempt != Some(a) {
        return if o.status.Terminal? && o.disposition.Some? then Recorded(StoredCompletion(o, clock))
               else CompletionUnavailable;
      }
      var plan := NoRetry;
      if requested.plan.ScheduleRetry? {
        var waited := Max(MINIMUM_RETRY_DELAY, requested.plan.delay);
        if clock.now + waited <= o.deadlineAt {
          plan := ScheduleRetry(waited);
        }
      }
      var completion := requested.(plan := plan);
      if a in attempts && attempts[a].disposition.None? {
        attempts := attempts[a := attempts[a].(
          disposition := Some(completion.disposition), failure := completion.failure,
          retryPlanned := plan.ScheduleRetry?,
          cost := if response.Some? then Some(response.value.cost) else None,
          completedAt := Some(clock.now))];
      }
      assert Tables() == FinishAttempt(old(Tables()), a, completion, response, clock);
      if plan.ScheduleRetry? {
        operations := operations[id := o.(
          status := RetryScheduled, disposition := Some(Rejected), failure := completion.failure,
          retryPlanned := true, retryNotBefore := Some(clock.now + plan.delay), attempt := None,
          leaseUntil := None, retriesUsed := o.retriesUsed + 1)];
        return Recorded(completion);
      }
      FinishOperation(id, o, completion, response, clock);
      return Recorded(completion);
    }

    /** Settle the reservation unless the outcome is unknown, and close the operation. */
    method FinishOperation(
        id: OperationId, o: Operation, completion: Completion, response: Option<Response>, clock: Clock)
      modifies this`operations, this`accounts
      ensures Tables() ==
              (if completion.disposition == Unknown then old(Tables())
               else Release(old(Tables()), o, Settlement(o, completion, response))).(
                operations := old(operations)[id := FinishedRow(o, completion, response, clock)])
    {
      var settlement := 0;
      if response.Some? {
        settlement := response.value.cost;
      } else if ConservativelyBillable(completion.failure) {
        settlement := o.reserved;
      }
      if completion.disposition != Unknown {
        ReleaseReservation(o, settlement);
      }
      operations := operations[id := o.(
        status := Terminal(completion.disposition), disposition := Some(completion.disposition),
        failure := completion.failure, retryPlanned := false, retryNotBefore := None,
        attempt := None, leaseUntil := None,
        reserved := if completion.disposition == Unknown then o.reserved else 0,
        settled := o.settled + settlement,
        result := if response.None? || completion.disposition != Success then None else Some(response.value.output),
        completedAt := Some(clock.now))];
    }

    /** Create, or find again, the operation that restarts one whose outcome is unknown. */
    method Restart(user: UserId, source: OperationId, id: OperationId, clock: Clock) returns (outcome: RestartOutcome)
      requires Valid()
      modifies this`operations, this`alerts, this`accounts
      ensures Valid() && State() == Step(old(State()), AskRestart(user, source, id, clock))
      ensures (Tables(), outcome) == ModelDatabase.Restart(old(Tables()), user, source, id, clock)
    {
      hide SystemFits;
      StepFits(State(), AskRestart(user, source, id, clock));
      if source !in operations || operations[source].terms.user != user {
        return SourceNotFound;
      }
      var o := operations[source];
      if id in operations {
        var existing := operations[id];
        if existing.root != o.root || existing.restartedFrom != Some(source) || existing.terms.user != user {
          return RestartConflict;
        }
        return DuplicateRestart;
      }
      if o.status != Terminal(Unknown) {
        return SourceNotUnknown;
      }
      var restarts := set other |
        other in operations && operations[other].root == o.root && operations[other].restartedFrom.Some?;
      assert restarts == Restarts(operations, o.root);
      if |restarts| >= o.terms.restartLimit {
        return RestartLimitExhausted;
      }
      if o.terms.provider == OpenAI && o.reserved > 0 {
        var refusal := ReserveOnAccounts(o.terms, clock.month, o.reserved);
        if refusal.Some? {
          return RestartRefused(refusal.value);
        }
      }
      operations := operations[id := NewOperation(o.root, Some(source), o.terms, o.reserved, clock)];
      return Restarted;
    }

    /** A worker's report of what its provider call came to; the only way in which attempts complete. */
    method Report(a: AttemptId, gateway: GatewayOutcome, clock: Clock) returns (outcome: CompleteOutcome)
      requires Valid() && a in issued
      modifies this`operations, this`attempts, this`accounts
      ensures Valid() && State() == Step(old(State()), Finish(a, gateway, clock))
      ensures outcome != CompletionNotFound && a in old(attempts)
      ensures old(attempts)[a].disposition.None? ==> outcome.Recorded?
      ensures outcome ==
              ModelDatabase.Complete(
                old(Tables()), issued[a].operation, a, ReportedCompletion(issued[a], gateway),
                ReportedResponse(gateway), clock).1
    {
      hide SystemFits, ModelDatabase.Complete, ReportedCompletion;
      StepFits(State(), Finish(a, gateway, clock));
      OpenReports(State(), a, gateway, clock);
      if gateway.Answered? && !gateway.response.datesValid {
        InvalidReport(issued[a], gateway);
        outcome := Complete(
          issued[a].operation, a, Completion(Invalid, Some(DomainValidationRejected), NoRetry), Some(gateway.response),
          clock);
      } else if gateway.Answered? {
        ValidReport(issued[a], gateway);
        outcome := Complete(issued[a].operation, a, Completion(Success, None, NoRetry), Some(gateway.response), clock);
      } else {
        FailureReport(issued[a], gateway);
        outcome := Complete(issued[a].operation, a, Classify(gateway.error, issued[a].retryAvailable), None, clock);
      }
    }

    /** Apply one event of a run to the tables. */
    method Apply(e: Event)
      requires Valid()
      modifies this
      ensures Valid() && State() == Step(old(State()), e)
    {
      hide SystemFits;
      match e
      case Ask(id, request, clock) => var _ := PrepareModelOperation(id, request, clock);
      case WakeUp(id, newId, clock) => var _ := Claim(id, newId, clock);
      case Finish(a, gateway, clock) =>
        if a in issued {
          var _ := Report(a, gateway, clock);
        }
      case AskRestart(user, source, id, clock) => var _ := Restart(user, source, id, clock);
    }

    /** Any sequence of requests, wake-ups, reports and restarts, by any number of workers. */
    method Replay(events: seq<Event>)
      requires Valid()
      modifies this
      ensures Valid() && State() == Run(old(State()), events)
    {
      hide SystemFits, Step;
      for i := 0 to |events|
        invariant Valid()
        invariant Run(State(), events[i..]) == Run(old(State()), events)
      {
        Apply(events[i]);
        assert events[i..][1..] == events[i + 1..];
      }
    }

    /** One wake-up: claim, call the provider once, report. Between claim and report anything else
        may happen to the tables. A valid answer is reported as success to the caller in any case; the
        stored operation agrees exactly if its lease was not recovered before the report. */
    method ExecutePrepared(
        id: OperationId, newId: AttemptId, claimedAt: Clock, gateway: GatewayOutcome, meanwhile: seq<Event>,
        reportedAt: Clock) returns (result: ExecutionOutcome, claimed: bool)
      requires Valid()
      modifies this
      ensures Valid()
      ensures var claim := ModelDatabase.Claim(old(Tables()), id, newId, claimedAt).1;
              claimed == claim.Claimed? &&
              var start := Step(old(State()), WakeUp(id, newId, claimedAt));
              if claimed then State() == Step(Run(start, meanwhile), Finish(newId, gateway, reportedAt))
              else State() == start && result == WithoutAttempt(claim)
      ensures claimed && gateway.Answered? && gateway.response.datesValid && ReportsOnce(meanwhile, newId) ==>
                && result == Succeeded(gateway.response.output)
                && id in operations
                && (operations[id].status == Terminal(Success) <==>
                      !RecoveredMeanwhile(meanwhile, id, claimedAt.now + ATTEMPT_LEASE))
                && (operations[id].status == Terminal(Unknown) <==>
                      RecoveredMeanwhile(meanwhile, id, claimedAt.now + ATTEMPT_LEASE))
                && (operations[id].status == Terminal(Success) ==>
                      operations[id].result == Some(gateway.response.output))
    {
      hide SystemFits, Step, Run, ModelDatabase.Claim, ModelDatabase.Complete, RecoveredMeanwhile, ReportsOnce;
      var claim := Claim(id, newId, claimedAt);
      if !claim.Claimed? {
        return WithoutAttempt(claim), false;
      }
      ghost var start := State();
      ClaimedInHands(old(State()), id, newId, claimedAt);
      FittingParts(start);
      IssuedForever(start, meanwhile, newId);
      Replay(meanwhile);
      claimed := true;
      var reply := Report(newId, gateway, reportedAt);
      result := AfterReport(gateway, reply);
      if gateway.Answered? && gateway.response.datesValid && ReportsOnce(meanwhile, newId) {
        SuccessIsStoredIffReportedInTime(
          start, id, newId, claimedAt.now + ATTEMPT_LEASE, meanwhile, gateway.response, reportedAt, State(), reply);
      }
    }
  }

  // ---------------------------------------------------------------------------------------
  // What the transactions rely on
  // ---------------------------------------------------------------------------------------

  lemma InvalidReport(work: ClaimedAttempt, gateway: GatewayOutcome)
    requires gateway.Answered? && !gateway.response.datesValid
    ensures ReportedCompletion(work, gateway) == Completion(Invalid, Some(DomainValidationRejected), NoRetry)
  {
  }

  lemma ValidReport(work: ClaimedAttempt, gateway: GatewayOutcome)
    requires gateway.Answered? && gateway.response.datesValid
    ensures ReportedCompletion(work, gateway) == Completion(Success, None, NoRetry)
  {
  }

  lemma FailureReport(work: ClaimedAttempt, gateway: GatewayOutcome)
    requires gateway.Failed?
    ensures ReportedCompletion(work, gateway) == Classify(gateway.error, work.retryAvailable)
  {
  }
}
