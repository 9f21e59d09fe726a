/** What a worker tells its caller compared with what the database says. */
module ModelExecution {
  import opened Common
  import opened ModelRegistry
  import opened ModelGateway
  import opened ModelDatabase
  import opened ModelRuns
  import opened ModelEffects
  import opened ModelMachine
  import opened ModelProgress

  /** The caller-visible result of one wake-up. */
  datatype ExecutionOutcome =
    | Succeeded(output: nat)
    | ExecutionFailed(completion: Completion)
    | RetryIn(milliseconds: int)
    | AlreadyDone(completion: Completion)
    | TryLater(milliseconds: int)
    | OperationMissing
    | StoreUnavailable

  /** The result when no attempt was claimed. */
  function WithoutAttempt(outcome: ClaimOutcome): ExecutionOutcome
    requires !outcome.Claimed?
  {
    match outcome
    case AlreadyCompleted(completion) => AlreadyDone(completion)
    case RejectedBeforeDispatch(completion) => ExecutionFailed(completion)
    case Deferred(milliseconds) => TryLater(milliseconds)
    case NotFound => OperationMissing
    case Unavailable => StoreUnavailable
  }

  /** The result after the attempt was reported; a valid answer is Succeeded whatever the store
      replied, as long as it replied. */
  function AfterReport(gateway: GatewayOutcome, reply: CompleteOutcome): ExecutionOutcome {
    match reply
    case CompletionNotFound => OperationMissing
    case CompletionUnavailable => StoreUnavailable
    case Recorded(completion) =>
      if gateway.Answered? && gateway.response.datesValid then Succeeded(gateway.response.output)
      else if gateway.Failed? && completion.plan.ScheduleRetry? then RetryIn(completion.plan.delay)
      else ExecutionFailed(completion)
  }

  /** The events between claim and report contain no other report on the same attempt. */
  predicate ReportsOnce(meanwhile: seq<Event>, a: AttemptId) {
    forall i :: 0 <= i < |meanwhile| && meanwhile[i].Finish? ==> meanwhile[i].attempt != a
  }

  /** Some wake-up for the operation comes at or after the end of the lease. */
  predicate RecoveredMeanwhile(meanwhile: seq<Event>, id: OperationId, lease: int) {
    exists i :: 0 <= i < |meanwhile| && meanwhile[i].WakeUp? && meanwhile[i].id == id && lease <= meanwhile[i].clock.now
  }

  predicate InHands(s: System, id: OperationId, a: AttemptId, lease: int) {
    && id in s.db.operations
    && s.db.operations[id].status.Dispatched?
    && s.db.operations[id].attempt == Some(a)
    && s.db.operations[id].leaseUntil == Some(lease)
  }

  predicate GivenUp(s: System, id: OperationId) {
    && id in s.db.operations
    && s.db.operations[id].status == Terminal(Unknown)
    && s.db.operations[id].failure == Some(AttemptLeaseExpired)
  }

  /** While a worker is calling the provider, its attempt can be taken away by one thing only: a
      wake-up for the same operation once the lease has run out. */
  lemma WhileCalling(s: System, e: Event, id: OperationId, a: AttemptId, lease: int)
    requires InHands(s, id, a, lease) && !(e.Finish? && e.attempt == a)
    ensures if RecoveredMeanwhile([e], id, lease) then GivenUp(Step(s, e), id)
            else id in Step(s, e).db.operations && Step(s, e).db.operations[id] == s.db.operations[id]
  {
    assert RecoveredMeanwhile([e], id, lease) <==> e.WakeUp? && e.id == id && lease <= e.clock.now by {
      assert [e][0] == e;
    }
    if !(e.WakeUp? && e.id == id) {
      hide Step;
      match e
      case Ask(i, request, clock) => AskEffect(s, i, request, clock);
      case AskRestart(user, source, i, clock) => RestartEffect(s, user, source, i, clock);
      case WakeUp(i, newId, clock) => WakeUpEffect(s, i, newId, clock);
      case Finish(b, outcome, clock) => FinishEffect(s, b, outcome, clock);
    }
  }

  lemma {:induction false} MeanwhileDecides(s: System, meanwhile: seq<Event>, id: OperationId, a: AttemptId, lease: int)
    requires InHands(s, id, a, lease) && ReportsOnce(meanwhile, a)
    ensures if RecoveredMeanwhile(meanwhile, id, lease) then GivenUp(Run(s, meanwhile), id)
            else InHands(Run(s, meanwhile), id, a, lease)
    decreases |meanwhile|
  {
    if meanwhile != [] {
      var e, rest := meanwhile[0], meanwhile[1..];
      WhileCalling(s, e, id, a, lease);
      assert RecoveredMeanwhile([e], id, lease) <==> e.WakeUp? && e.id == id && lease <= e.clock.now by {
        assert [e][0] == e;
      }
      RecoveredSplit(meanwhile, id, lease);
      hide Step, RecoveredMeanwhile;
      if RecoveredMeanwhile([e], id, lease) {
        TerminalForever(Step(s, e), rest, id);
      } else {
        MeanwhileDecides(Step(s, e), rest, id, a, lease);
      }
    }
  }

  lemma RecoveredSplit(meanwhile: seq<Event>, id: OperationId, lease: int)
    requires meanwhile != []
    ensures RecoveredMeanwhile(meanwhile, id, lease) <==>
            RecoveredMeanwhile([meanwhile[0]], id, lease) || RecoveredMeanwhile(meanwhile[1..], id, lease)
  {
    if RecoveredMeanwhile(meanwhile, id, lease) {
      var i :| 0 <= i < |meanwhile| && meanwhile[i].WakeUp? && meanwhile[i].id == id && lease <= meanwhile[i].clock.now;
      if i == 0 {
        assert [meanwhile[0]][0] == meanwhile[i];
      } else {
        assert meanwhile[1..][i - 1] == meanwhile[i];
      }
    }
    if RecoveredMeanwhile(meanwhile[1..], id, lease) {
      var i :| 0 <= i < |meanwhile[1..]| && meanwhile[1..][i].WakeUp? && meanwhile[1..][i].id == id &&
               lease <= meanwhile[1..][i].clock.now;
      assert meanwhile[i + 1] == meanwhile[1..][i];
    }
  }

  /** One report of a valid answer, in either of the two situations a worker can come back to. */
  lemma ReportDecides(
      db: Database, id: OperationId, a: AttemptId, response: Response, clock: Clock, after: Database,
      reply: CompleteOutcome)
    requires id in db.operations && OperationChecks(db.operations[id])
    requires (after, reply) == Complete(db, id, a, Completion(Success, None, NoRetry), Some(response), clock)
    requires response.datesValid
    ensures id in after.operations
    ensures var o := db.operations[id];
            o.status.Dispatched? && o.attempt == Some(a) ==>
              && AfterReport(Answered(response), reply) == Succeeded(response.output)
              && after.operations[id].status == Terminal(Success)
              && after.operations[id].result == Some(response.output)
    ensures db.operations[id].status == Terminal(Unknown) ==>
              && AfterReport(Answered(response), reply) == Succeeded(response.output)
              && after.operations[id].status == Terminal(Unknown)
  {
  }

  /** A worker with a valid answer always reports success. The database agrees, result included,
      exactly when no wake-up for the operation came between the end of the lease and the report;
      otherwise it says the outcome is unknown, and keeps saying so. */
  lemma SuccessIsStoredIffReportedInTime(
      s: System, id: OperationId, a: AttemptId, lease: int, meanwhile: seq<Event>, response: Response, clock: Clock,
      after: System, reply: CompleteOutcome)
    requires MachineInvariant(s)
    requires InHands(s, id, a, lease) && a in s.issued && s.issued[a].operation == id
    requires ReportsOnce(meanwhile, a) && response.datesValid
    requires after == Step(Run(s, meanwhile), Finish(a, Answered(response), clock))
    requires reply == Complete(
               Run(s, meanwhile).db, id, a, Completion(Success, None, NoRetry), Some(response), clock).1
    ensures AfterReport(Answered(response), reply) == Succeeded(response.output)
    ensures id in after.db.operations
    ensures after.db.operations[id].status == Terminal(Success) <==> !RecoveredMeanwhile(meanwhile, id, lease)
    ensures after.db.operations[id].status == Terminal(Unknown) <==> RecoveredMeanwhile(meanwhile, id, lease)
    ensures after.db.operations[id].status == Terminal(Success) ==>
              after.db.operations[id].result == Some(response.output)
  {
    var before := Run(s, meanwhile);
    MeanwhileDecides(s, meanwhile, id, a, lease);
    IssuedForever(s, meanwhile, a);
    ReachableStatesFit(s, meanwhile);
    RowOf(before, id);
    ReportOf(before, id, a, response, clock);
    hide RecoveredMeanwhile, Run, Step, MachineInvariant, Complete, OperationChecks;
    ReportDecides(before.db, id, a, response, clock, after.db, reply);
  }

  /** A claim puts the attempt into its worker's hands for the length of the lease. */
  lemma ClaimedInHands(s: System, id: OperationId, newId: AttemptId, clock: Clock)
    requires Claim(s.db, id, newId, clock).1.Claimed?
    ensures var t := Step(s, WakeUp(id, newId, clock));
            && InHands(t, id, newId, clock.now + ATTEMPT_LEASE)
            && newId in t.issued && t.issued[newId] == Claim(s.db, id, newId, clock).1.work
            && t.issued[newId].operation == id
  {
    hide RejectClaim, Expire, ClaimRefusal;
  }

  lemma ReportOf(s: System, id: OperationId, a: AttemptId, response: Response, clock: Clock)
    requires a in s.issued && s.issued[a].operation == id && response.datesValid
    ensures Step(s, Finish(a, Answered(response), clock)).db ==
            Complete(s.db, id, a, Completion(Success, None, NoRetry), Some(response), clock).0
  {
  }

  lemma StepKeepsIssued(s: System, e: Event, a: AttemptId)
    requires MachineInvariant(s) && a in s.issued
    ensures a in Step(s, e).issued && Step(s, e).issued[a] == s.issued[a]
  {
    hide OperationFits, AttemptsFit;
  }

  /** The authority handed to a worker is never taken back or changed. */
  lemma {:induction false} IssuedForever(s: System, events: seq<Event>, a: AttemptId)
    requires MachineInvariant(s) && a in s.issued
    ensures a in Run(s, events).issued && Run(s, events).issued[a] == s.issued[a]
    decreases |events|
  {
    if events != [] {
      StepKeepsIssued(s, events[0], a);
      StepKeepsMachine(s, events[0]);
      hide Step, MachineInvariant;
      IssuedForever(Step(s, events[0]), events[1..], a);
    }
  }
}
