/** What a wake-up is answered, in every state of the tables: when a call is granted, why it is refused,
    and what a repeated wake-up is told. */
module ModelClaims {
  import opened Common
  import opened ModelRegistry
  import opened ModelGateway
  import opened ModelDatabase
  import opened ModelRuns
  import opened ModelEffects
  import opened ModelMachine
  import opened ModelBudget
  import opened ModelSpend
  import opened ModelLineage
  import opened ModelExecution
  import opened ModelTheorems

  /** The operation waits for a call, and its pause, if it has one, is over. */
  predicate Ready(o: Operation, now: int) {
    o.status == Prepared || (o.status == RetryScheduled && o.retryNotBefore.Some? && o.retryNotBefore.value <= now)
  }

  /** The budget of the operation's month was switched off. */
  predicate SwitchedOffFor(db: Database, o: Operation) {
    o.terms.provider == OpenAI && EnvironmentOf(o) in db.accounts && db.accounts[EnvironmentOf(o)].killSwitch
  }

  /** The user has started twenty paid calls on that day. */
  predicate SpentForToday(db: Database, o: Operation, day: int) {
    o.terms.provider == OpenAI && |StartedOn(db, o.terms.user, day)| >= 20
  }

  function RefusedFor(failure: Failure): ClaimOutcome {
    RejectedBeforeDispatch(Completion(Rejected, Some(failure), NoRetry))
  }

  /** A ready operation is refused for being late, else for the switch, else for the day's calls; in every
      other case it is granted its call. */
  lemma ClaimDecides(s: System, id: OperationId, newId: AttemptId, clock: Clock)
    requires SystemFits(s) && id in s.db.operations && newId !in s.db.attempts
    requires Ready(s.db.operations[id], clock.now)
    ensures var o := s.db.operations[id];
            var outcome := Claim(s.db, id, newId, clock).1;
            var late, off := o.deadlineAt <= clock.now, SwitchedOffFor(s.db, o);
            var spent := SpentForToday(s.db, o, clock.day);
            && (outcome == RefusedFor(DeadlineExceededBeforeDispatch) <==> late)
            && (outcome == RefusedFor(KillSwitchEngaged) <==> !late && off)
            && (outcome == RefusedFor(DailyDispatchLimitExceeded) <==> !late && !off && spent)
            && (outcome.Claimed? <==> !late && !off && !spent)
            && (outcome.RejectedBeforeDispatch? <==> late || off || spent)
            && (o.terms.provider == OpenAI ==> EnvironmentOf(o) in s.db.accounts)
  {
    hide SystemFits, MachineInvariant, Conserved, LineageInvariant, DailyInvariant, StartedOn, Dispatch, RejectClaim;
    var o := s.db.operations[id];
    FittingParts(s);
    RowOf(s, id);
    StartedToday(s.db, o.terms.user, clock.day);
    ChargedAccounts(s.db, id);
    assert o.terms.provider == OpenAI ==> ChargedTo(o, EnvironmentOf(o));
  }

  lemma StartedToday(db: Database, user: UserId, day: int)
    requires DailyInvariant(db)
    ensures DispatchesOn(db, user, day) == |StartedOn(db, user, day)|
  {
    hide StartedOn;
  }

  /** Milliseconds that a provider call of each kind may take. */
  function TimeForCall(name: OperationName): int {
    match name
    case QuerySlots => 4_000
    case Extract => 3_000
    case ExtractMany => 7_000
  }

  /** What a granted call may do: its place in the operation, its time, and whether a retry is left. */
  lemma GrantedCall(s: System, id: OperationId, newId: AttemptId, clock: Clock)
    requires SystemFits(s) && Claim(s.db, id, newId, clock).1.Claimed?
    ensures id in s.db.operations
    ensures var prior := s.db.operations[id];
            var outcome := Claim(s.db, id, newId, clock).1;
            var work := outcome.work;
            && outcome.attempt == newId && newId !in s.db.attempts
            && work.operation == id && work.name == prior.terms.name && work.provider == prior.terms.provider
            && (forall k :: HasOrdinal(AttemptsOf(s.db.attempts, id), k) <==> 1 <= k < work.ordinal)
            && work.totalDeadline == prior.deadlineAt - clock.now
            && work.providerTimeout == Min(TimeForCall(prior.terms.name), work.totalDeadline)
            && (work.retryAvailable <==> prior.status == Prepared)
  {
    hide SystemFits, MachineInvariant, Conserved, LineageInvariant, DailyInvariant, AlertsClosed;
    hide Dispatch, RejectClaim, Expire;
    FittingParts(s);
    RowOf(s, id);
    OrdinalsUsed(s, id);
  }

  /** The tables after a granted call: the operation is in the hands of a new attempt for thirty seconds,
      and the call counts for its user today if it is paid. */
  lemma GrantedTables(s: System, id: OperationId, newId: AttemptId, clock: Clock)
    requires SystemFits(s) && Claim(s.db, id, newId, clock).1.Claimed?
    ensures id in s.db.operations
    ensures var prior := s.db.operations[id];
            var t := Step(s, WakeUp(id, newId, clock));
            && InHands(t, id, newId, clock.now + 30_000)
            && t.db.operations == s.db.operations[id := t.db.operations[id]]
            && newId in t.db.attempts && t.db.attempts == s.db.attempts[newId := t.db.attempts[newId]]
            && t.db.attempts[newId].operation == id && t.db.attempts[newId].startedOn == clock.day
            && t.db.attempts[newId].disposition.None? && t.db.attempts[newId].failure.None?
            && t.db.attempts[newId].cost.None? && t.db.attempts[newId].completedAt.None?
            && !t.db.attempts[newId].retryPlanned
            && t.db.attempts[newId].ordinal == t.db.operations[id].dispatches == prior.dispatches + 1
            && t.db.operations[id].failure.None? && t.db.operations[id].retriesUsed == prior.retriesUsed
            && t.db.operations[id].reserved == prior.reserved && t.db.operations[id].settled == prior.settled
            && t.db.operations[id].terms == prior.terms && t.db.operations[id].deadlineAt == prior.deadlineAt
            && t.db.accounts == s.db.accounts && t.db.alerts == s.db.alerts
            && (forall user, day ::
                  StartedOn(t.db, user, day) ==
                  StartedOn(s.db, user, day) +
                  (if prior.terms.provider == OpenAI && prior.terms.user == user && clock.day == day then {newId}
                   else {}))
            && t.issued == s.issued[newId := Claim(s.db, id, newId, clock).1.work]
  {
    FittingParts(s);
    ClaimedInHands(s, id, newId, clock);
    AttemptsHaveOperations(s);
    DispatchedTables(s, id, newId, clock);
    forall user, day {
      DispatchedStarts(s.db, id, newId, clock, user, day);
    }
    hide *;
  }

  lemma DispatchedTables(s: System, id: OperationId, newId: AttemptId, clock: Clock)
    requires Claim(s.db, id, newId, clock).1.Claimed?
    ensures id in s.db.operations && newId !in s.db.attempts
    ensures Step(s, WakeUp(id, newId, clock)).db == Dispatch(s.db, id, newId, clock)
    ensures Step(s, WakeUp(id, newId, clock)).issued == s.issued[newId := Claim(s.db, id, newId, clock).1.work]
  {
    hide Dispatch, RejectClaim, Expire, ClaimRefusal;
  }

  /** The numbers given to an operation's attempts so far are 1 to its dispatch count. */
  lemma OrdinalsUsed(s: System, id: OperationId)
    requires MachineInvariant(s) && id in s.db.operations
    ensures forall k :: HasOrdinal(AttemptsOf(s.db.attempts, id), k) <==> 1 <= k <= s.db.operations[id].dispatches
  {
    assert OneFits(s.db.operations, s.db.attempts, id);
    hide OperationFits, WorkFits, TablesFit;
    var mine := AttemptsOf(s.db.attempts, id);
    forall k | HasOrdinal(mine, k) ensures 1 <= k <= s.db.operations[id].dispatches {
      var a :| a in mine && mine[a].ordinal == k;
      assert AttemptFits(s.db.operations[id], a, mine[a]);
    }
  }

  /** A refused claim ends the operation, keeps what it paid before, and gives its reservation back to both
      accounts. */
  lemma RefusedTables(s: System, id: OperationId, newId: AttemptId, clock: Clock)
    requires SystemFits(s) && Claim(s.db, id, newId, clock).1.RejectedBeforeDispatch?
    ensures id in s.db.operations
    ensures var prior := s.db.operations[id];
            var t := Step(s, WakeUp(id, newId, clock));
            && id in t.db.operations && t.db.operations == s.db.operations[id := t.db.operations[id]]
            && AccountsMove(s.db.accounts, t.db.accounts, prior, -prior.reserved, 0)
            && t.db.attempts == s.db.attempts && t.db.alerts == s.db.alerts
            && t.db.dispatches == s.db.dispatches && t.issued == s.issued
            && var o := t.db.operations[id];
            && o.status == Terminal(Rejected)
            && Claim(s.db, id, newId, clock).1 == RejectedBeforeDispatch(Completion(Rejected, o.failure, NoRetry))
            && o.reserved == 0 && o.settled == prior.settled && o.completedAt == Some(clock.now)
            && o.terms == prior.terms && o.dispatches == prior.dispatches && o.retriesUsed == prior.retriesUsed
  {
    hide Step, Claim, RejectClaim, SystemFits, MachineInvariant, Conserved, AccountsMove, Charge, OperationFits;
    FittingParts(s);
    RejectedTables(s, id, newId, clock);
    RowOf(s, id);
    var prior, o := s.db.operations[id], Step(s, WakeUp(id, newId, clock)).db.operations[id];
    RejectionMovesMoney(s.db, id, o.failure.value, clock);
    ChargeMoves(s.db.accounts, Step(s, WakeUp(id, newId, clock)).db.accounts, prior, o, -prior.reserved, 0);
  }

  lemma RejectedTables(s: System, id: OperationId, newId: AttemptId, clock: Clock)
    requires Claim(s.db, id, newId, clock).1.RejectedBeforeDispatch?
    ensures id in s.db.operations
    ensures Waiting(s.db.operations[id])
    ensures var t := Step(s, WakeUp(id, newId, clock));
            && id in t.db.operations && t.db.operations[id].failure.Some?
            && t.db == RejectClaim(s.db, id, t.db.operations[id].failure.value, clock)
            && t.db.operations ==
               s.db.operations[id := RejectedRow(s.db.operations[id], t.db.operations[id].failure.value, clock)]
            && t.db.attempts == s.db.attempts && t.db.alerts == s.db.alerts && t.db.dispatches == s.db.dispatches
            && t.issued == s.issued
            && Claim(s.db, id, newId, clock).1 ==
               RejectedBeforeDispatch(Completion(Rejected, t.db.operations[id].failure, NoRetry))
  {
    hide Dispatch, Expire, ClaimRefusal;
  }

  // ---------------------------------------------------------------------------------------
  // Wake-ups that cannot start a call
  // ---------------------------------------------------------------------------------------

  /** A wake-up for an operation that is not ready: nothing is known of it, it is finished, its attempt or
      its pause is still running, or its attempt is overdue. Only the last one changes anything. */
  lemma OtherWakeUps(s: System, id: OperationId, newId: AttemptId, clock: Clock)
    requires SystemFits(s) && (id in s.db.operations ==> !Ready(s.db.operations[id], clock.now))
    ensures var outcome := Claim(s.db, id, newId, clock).1;
            var t := Step(s, WakeUp(id, newId, clock));
            if id !in s.db.operations then outcome == NotFound && t == s
            else
              var o := s.db.operations[id];
              match o.status
              case Terminal(d) => outcome == AlreadyCompleted(Completion(d, o.failure, NoRetry)) && t == s
              case Dispatched =>
                o.leaseUntil.Some? &&
                if clock.now < o.leaseUntil.value then outcome == Deferred(o.leaseUntil.value - clock.now) && t == s
                else outcome == AlreadyCompleted(Completion(Unknown, Some(AttemptLeaseExpired), NoRetry))
              case _ =>
                o.retryNotBefore.Some? && outcome == Deferred(o.retryNotBefore.value - clock.now) && t == s
  {
    hide SystemFits, MachineInvariant, Conserved, LineageInvariant, DailyInvariant, AlertsClosed;
    hide Dispatch, RejectClaim, ClaimRefusal, Expire;
    FittingParts(s);
    if id in s.db.operations {
      RowOf(s, id);
    }
  }

  /** An overdue attempt is closed as unknown; its operation ends so too and keeps its reservation, and no
      money moves. */
  lemma OverdueTables(s: System, id: OperationId, newId: AttemptId, clock: Clock)
    requires SystemFits(s) && id in s.db.operations && s.db.operations[id].status == Dispatched
    requires s.db.operations[id].leaseUntil.Some? && s.db.operations[id].leaseUntil.value <= clock.now
    ensures var prior := s.db.operations[id];
            var t := Step(s, WakeUp(id, newId, clock));
            && GivenUp(t, id) && t.db.operations == s.db.operations[id := t.db.operations[id]]
            && t.db.accounts == s.db.accounts && t.db.alerts == s.db.alerts
            && t.db.dispatches == s.db.dispatches && t.issued == s.issued
            && prior.attempt.Some? && prior.attempt.value in s.db.attempts
            && var o, a := t.db.operations[id], prior.attempt.value;
            && o.reserved == prior.reserved && o.settled == prior.settled && o.completedAt == Some(clock.now)
            && o.terms == prior.terms && o.dispatches == prior.dispatches && o.retriesUsed == prior.retriesUsed
            && t.db.attempts == s.db.attempts[a := s.db.attempts[a].(
                 disposition := Some(Unknown), failure := Some(AttemptLeaseExpired), retryPlanned := false,
                 completedAt := Some(clock.now))]
  {
    hide SystemFits, MachineInvariant, Conserved, LineageInvariant, DailyInvariant, AlertsClosed;
    hide Dispatch, RejectClaim, ClaimRefusal;
    FittingParts(s);
    RowOf(s, id);
    InFlight(s, id);
  }

  /** What the caller of such a wake-up is told. */
  lemma WakeUpIsTold(s: System, id: OperationId, newId: AttemptId, clock: Clock)
    requires SystemFits(s) && (id in s.db.operations ==> !Ready(s.db.operations[id], clock.now))
    ensures !Claim(s.db, id, newId, clock).1.Claimed?
    ensures var told := WithoutAttempt(Claim(s.db, id, newId, clock).1);
            if id !in s.db.operations then told == OperationMissing
            else
              var o := s.db.operations[id];
              match o.status
              case Terminal(d) => told == AlreadyDone(Completion(d, o.failure, NoRetry))
              case Dispatched =>
                o.leaseUntil.Some? &&
                if clock.now < o.leaseUntil.value then told == TryLater(o.leaseUntil.value - clock.now)
                else told == AlreadyDone(Completion(Unknown, Some(AttemptLeaseExpired), NoRetry))
              case _ => o.retryNotBefore.Some? && told == TryLater(o.retryNotBefore.value - clock.now)
  {
    hide Claim, Step, SystemFits;
    OtherWakeUps(s, id, newId, clock);
  }

  /** And of a wake-up that is refused its call, or meets a taken attempt id. */
  lemma RefusalIsTold(s: System, id: OperationId, newId: AttemptId, clock: Clock)
    requires SystemFits(s) && id in s.db.operations && Ready(s.db.operations[id], clock.now)
    requires !Claim(s.db, id, newId, clock).1.Claimed?
    ensures var told := WithoutAttempt(Claim(s.db, id, newId, clock).1);
            var t := Step(s, WakeUp(id, newId, clock));
            && id in t.db.operations
            && told == (if t.db.operations[id].status == Terminal(Rejected) then
                          ExecutionFailed(Completion(Rejected, t.db.operations[id].failure, NoRetry))
                        else StoreUnavailable)
            && (told == StoreUnavailable ==> newId in s.db.attempts && t == s)
  {
    hide Claim, Step, SystemFits;
    if Claim(s.db, id, newId, clock).1.RejectedBeforeDispatch? {
      RefusedTables(s, id, newId, clock);
    } else {
      Collides(s, id, newId, clock);
    }
  }

  /** A ready operation that is neither granted its call nor refused met a taken attempt id. */
  lemma Collides(s: System, id: OperationId, newId: AttemptId, clock: Clock)
    requires SystemFits(s) && id in s.db.operations && Ready(s.db.operations[id], clock.now)
    requires !Claim(s.db, id, newId, clock).1.Claimed? && !Claim(s.db, id, newId, clock).1.RejectedBeforeDispatch?
    ensures newId in s.db.attempts && Claim(s.db, id, newId, clock).1 == Unavailable
    ensures Step(s, WakeUp(id, newId, clock)) == s
  {
    hide SystemFits, MachineInvariant, Conserved, LineageInvariant, DailyInvariant, AlertsClosed;
    hide Dispatch, RejectClaim, ClaimRefusal, Expire;
    FittingParts(s);
    RowOf(s, id);
    ChargedAccounts(s.db, id);
    assert s.db.operations[id].terms.provider == OpenAI ==>
      ChargedTo(s.db.operations[id], EnvironmentOf(s.db.operations[id]));
  }
}
