/** The state machine of one paid operation: the shape of every row in every reachable state, the
    attempts behind it, what never changes again, and why it terminates. */
module ModelMachine {
  import opened Common
  import opened ModelRegistry
  import opened ModelGateway
  import opened ModelDatabase
  import opened ModelRuns
  import opened ModelEffects

  // ---------------------------------------------------------------------------------------
  // Row constraints of the schema
  // ---------------------------------------------------------------------------------------

  /** The CHECK constraints of the operations table. */
  predicate OperationChecks(o: Operation) {
    && o.terms.profile.maximumHttpDispatches > 0
    && o.terms.profile.maximumInputBytes > 0
    && o.terms.profile.maximumBillableAttempts > 0
    && o.terms.profile.outputTokenLimit > 0
    && o.terms.profile.providerTimeout > 0
    && o.terms.profile.totalDeadline > 0
    && o.terms.dailyLimit > 0
    && IsDigest(o.terms.digest)
    && 1 <= |o.terms.canonicalInput| <= 32768
    && o.retriesUsed <= o.terms.profile.retryLimit
    && o.dispatches <= o.terms.profile.maximumHttpDispatches
    && o.reserved >= 0 && o.settled >= 0
    && (o.status.RetryScheduled? <==> o.retryPlanned)
    && (o.status.RetryScheduled? <==> o.retryNotBefore.Some?)
    && (o.status.Dispatched? <==> o.attempt.Some?)
    && (o.status.Dispatched? <==> o.leaseUntil.Some?)
    && (o.status.Terminal? <==> o.completedAt.Some?)
    && (match o.status
        case Prepared => o.disposition.None?
        case Dispatched => o.disposition.None?
        case RetryScheduled => o.disposition == Some(Rejected)
        case Terminal(d) => o.disposition == Some(d))
    && (o.result.Some? <==> o.status == Terminal(Success))
  }

  /** The CHECK constraints of the attempts table. */
  predicate AttemptChecks(t: Attempt) {
    && t.ordinal > 0
    && (t.disposition.Some? <==> t.completedAt.Some?)
  }

  // ---------------------------------------------------------------------------------------
  // The invariant
  // ---------------------------------------------------------------------------------------

  /** Each row was created from the registry, and its counters, money and status fit together. */
  predicate OperationFits(o: Operation) {
    && OperationChecks(o)
    && o.terms.profile == ProfileOf(o.terms.name)
    && o.terms.restartLimit == EXPLICIT_RESTART_LIMIT
    && o.terms.dailyLimit == DAILY_DISPATCH_LIMIT
    && o.terms.environmentCeiling == EnvironmentCeiling(o.terms.policy)
    && o.terms.userCeiling == (if o.terms.provider == OpenAI then UserCeiling(o.terms.policy) else 0)
    && o.deadlineAt == o.createdAt + o.terms.profile.totalDeadline
    && (!o.status.Terminal? || o.status == Terminal(Unknown) ==> o.reserved == Reservation(o.terms) && o.settled == 0)
    && (o.status.Terminal? && o.status != Terminal(Unknown) ==> o.reserved == 0)
    && (match o.status
        case Prepared => o.dispatches == 0 && o.retriesUsed == 0
        case Dispatched => o.dispatches == o.retriesUsed + 1
        case RetryScheduled => 1 <= o.dispatches == o.retriesUsed && o.retryNotBefore.value <= o.deadlineAt
        case Terminal(Rejected) => o.retriesUsed <= o.dispatches <= o.retriesUsed + 1
        case Terminal(_) => o.dispatches == o.retriesUsed + 1)
  }

  /** The provider refused this call with a transient 429: nothing was produced and nothing is owed. */
  predicate RateLimitedForFree(t: Attempt) {
    && t.disposition == Some(Rejected)
    && t.failure.Some? && t.failure.value.Gateway? && t.failure.value.error.RateLimited?
    && t.retryPlanned
    && t.cost.None?
  }

  /** What the operation row says about one of its attempts. */
  predicate AttemptFits(o: Operation, a: AttemptId, t: Attempt) {
    && AttemptChecks(t)
    && t.ordinal <= o.dispatches
    && (t.ordinal <= o.retriesUsed ==> RateLimitedForFree(t))
    && (t.disposition.None? <==> o.attempt == Some(a))
    && (o.attempt == Some(a) ==> t.ordinal == o.dispatches && o.leaseUntil == Some(t.leaseUntil))
  }

  ghost predicate HasOrdinal(mine: map<AttemptId, Attempt>, ordinal: int) {
    exists a :: a in mine && mine[a].ordinal == ordinal
  }

  /** The attempts of one operation: ordinals 1 to the dispatch count, each once, none in flight
      but the current one. */
  ghost predicate AttemptsFit(o: Operation, mine: map<AttemptId, Attempt>) {
    && (forall a :: a in mine ==> AttemptFits(o, a, mine[a]))
    && (forall a, b :: a in mine && b in mine && mine[a].ordinal == mine[b].ordinal ==> a == b)
    && (forall k: int :: 1 <= k <= o.dispatches ==> HasOrdinal(mine, k))
    && (o.attempt.Some? ==> o.attempt.value in mine)
  }

  function AttemptsOf(attempts: map<AttemptId, Attempt>, id: OperationId): map<AttemptId, Attempt> {
    map a | a in attempts && attempts[a].operation == id :: attempts[a]
  }

  ghost predicate OneFits(operations: map<OperationId, Operation>, attempts: map<AttemptId, Attempt>, id: OperationId)
    requires id in operations
  {
    OperationFits(operations[id]) && AttemptsFit(operations[id], AttemptsOf(attempts, id))
  }

  ghost predicate TablesFit(operations: map<OperationId, Operation>, attempts: map<AttemptId, Attempt>) {
    && (forall id :: id in operations ==> OneFits(operations, attempts, id))
    && (forall a :: a in attempts ==> attempts[a].operation in operations)
  }

  /** The authority a worker holds matches the row while its attempt is in flight. */
  predicate WorkMatches(o: Operation, a: AttemptId, work: ClaimedAttempt) {
    && work.name == o.terms.name
    && work.provider == o.terms.provider
    && (o.attempt == Some(a) ==> work.retryAvailable == (o.retriesUsed < o.terms.profile.retryLimit))
  }

  ghost predicate WorkFits(
      operations: map<OperationId, Operation>, attempts: map<AttemptId, Attempt>,
      issued: map<AttemptId, ClaimedAttempt>)
  {
    forall a :: a in issued ==>
      && a in attempts
      && attempts[a].operation == issued[a].operation
      && issued[a].operation in operations
      && WorkMatches(operations[issued[a].operation], a, issued[a])
  }

  ghost predicate MachineInvariant(s: System) {
    TablesFit(s.db.operations, s.db.attempts) && WorkFits(s.db.operations, s.db.attempts, s.issued)
  }

  // ---------------------------------------------------------------------------------------
  // Every step keeps it
  // ---------------------------------------------------------------------------------------

  lemma NothingDispatchedFits(attempts: map<AttemptId, Attempt>, id: OperationId, o: Operation)
    requires forall a :: a in attempts ==> attempts[a].operation != id
    requires o.attempt.None? && o.dispatches == 0
    ensures AttemptsFit(o, AttemptsOf(attempts, id))
  {
    assert AttemptsOf(attempts, id) == map[];
  }

  lemma RefusedAttemptsFit(o: Operation, after: Operation, mine: map<AttemptId, Attempt>)
    requires AttemptsFit(o, mine) && o.attempt.None? && after.attempt.None?
    requires after.dispatches == o.dispatches && after.retriesUsed == o.retriesUsed
    ensures AttemptsFit(after, mine)
  {
  }

  /** Inserting an operation, which has no attempts yet, keeps the tables in order. */
  lemma InsertKeepsTables(
      operations: map<OperationId, Operation>, attempts: map<AttemptId, Attempt>, id: OperationId, o: Operation)
    requires TablesFit(operations, attempts) && id !in operations
    requires OperationFits(o) && o.attempt.None? && o.dispatches == 0
    ensures TablesFit(operations[id := o], attempts)
  {
    hide OperationFits, AttemptsFit;
    NothingDispatchedFits(attempts, id, o);
    forall other | other in operations || other == id
      ensures OneFits(operations[id := o], attempts, other)
    {
      if other != id {
        assert OneFits(operations, attempts, other);
      }
    }
  }

  /** Rewriting the row of one operation together with one of its attempts is local: only that
      operation and its attempts need to be looked at. */
  lemma RewriteKeepsTables(
      operations: map<OperationId, Operation>, attempts: map<AttemptId, Attempt>, id: OperationId, o: Operation,
      a: AttemptId, t: Attempt)
    requires TablesFit(operations, attempts) && id in operations
    requires t.operation == id && (a in attempts ==> attempts[a].operation == id)
    requires OperationFits(o) && AttemptsFit(o, AttemptsOf(attempts, id)[a := t])
    ensures TablesFit(operations[id := o], attempts[a := t])
  {
    hide OperationFits, AttemptsFit;
    forall other | other in operations || other == id
      ensures OneFits(operations[id := o], attempts[a := t], other)
    {
      if other == id {
        assert AttemptsOf(attempts[a := t], id) == AttemptsOf(attempts, id)[a := t];
      } else {
        assert OneFits(operations, attempts, other);
        assert AttemptsOf(attempts[a := t], other) == AttemptsOf(attempts, other);
      }
    }
  }

  /** Refusing a claim before any call leaves the attempts alone. */
  lemma RefusalKeepsTables(
      operations: map<OperationId, Operation>, attempts: map<AttemptId, Attempt>, id: OperationId, o: Operation)
    requires TablesFit(operations, attempts) && id in operations
    requires OperationFits(o) && AttemptsFit(o, AttemptsOf(attempts, id))
    ensures TablesFit(operations[id := o], attempts)
  {
    hide OperationFits, AttemptsFit;
    forall other | other in operations || other == id
      ensures OneFits(operations[id := o], attempts, other)
    {
      if other != id {
        assert OneFits(operations, attempts, other);
      }
    }
  }

  /** Workers keep matching when rows change and attempts keep their operation, provided that no
      row is handed to an attempt that a worker already held. */
  lemma WorkKept(
      operations: map<OperationId, Operation>, attempts: map<AttemptId, Attempt>,
      issued: map<AttemptId, ClaimedAttempt>, id: OperationId, o: Operation, after: map<AttemptId, Attempt>)
    requires WorkFits(operations, attempts, issued)
    requires id in operations ==>
      && o.terms == operations[id].terms
      && (o.attempt.Some? ==> o.attempt.value !in issued)
    requires forall a :: a in attempts ==> a in after && after[a].operation == attempts[a].operation
    ensures WorkFits(operations[id := o], after, issued)
  {
  }

  /** Closing the attempt in flight keeps the attempts of an operation in order. */
  lemma ClosingFits(o: Operation, after: Operation, mine: map<AttemptId, Attempt>, a: AttemptId, closed: Attempt)
    requires AttemptsFit(o, mine) && o.attempt == Some(a)
    requires after.attempt.None? && after.dispatches == o.dispatches == o.retriesUsed + 1
    requires after.retriesUsed == o.retriesUsed ||
             (after.retriesUsed == o.retriesUsed + 1 && RateLimitedForFree(closed))
    requires AttemptChecks(closed) && closed.disposition.Some? && closed.ordinal == mine[a].ordinal
    ensures AttemptsFit(after, mine[a := closed])
  {
    var next := mine[a := closed];
    forall k: int {:trigger HasOrdinal(next, k)} | 1 <= k <= after.dispatches
      ensures HasOrdinal(next, k)
    {
      assert HasOrdinal(mine, k);
      var b :| b in mine && mine[b].ordinal == k;
      assert b in next && next[b].ordinal == k;
    }
  }

  /** Starting the next attempt keeps the attempts of an operation in order. */
  lemma StartingFits(o: Operation, after: Operation, mine: map<AttemptId, Attempt>, a: AttemptId, started: Attempt)
    requires AttemptsFit(o, mine) && o.attempt.None? && a !in mine
    requires after.attempt == Some(a) && after.leaseUntil == Some(started.leaseUntil)
    requires after.dispatches == o.dispatches + 1 && after.retriesUsed == o.retriesUsed <= o.dispatches
    requires AttemptChecks(started) && started.disposition.None? && started.ordinal == after.dispatches
    ensures AttemptsFit(after, mine[a := started])
  {
    var next := mine[a := started];
    forall k: int {:trigger HasOrdinal(next, k)} | 1 <= k <= after.dispatches
      ensures HasOrdinal(next, k)
    {
      if k == after.dispatches {
        assert next[a].ordinal == k;
      } else {
        assert HasOrdinal(mine, k);
        var b :| b in mine && mine[b].ordinal == k;
        assert b in next && next[b].ordinal == k;
      }
    }
  }

  lemma DispatchedRowFits(o: Operation, newId: AttemptId, clock: Clock)
    requires OperationFits(o) && (o.status.Prepared? || o.status.RetryScheduled?)
    requires o.dispatches < o.terms.profile.maximumHttpDispatches
    ensures OperationFits(DispatchedRow(o, newId, clock))
    ensures o.attempt.None? && o.dispatches == o.retriesUsed
  {
  }

  lemma ExpiredRowFits(o: Operation, clock: Clock)
    requires OperationFits(o) && o.attempt.Some?
    ensures OperationFits(ExpiredRow(o, clock))
    ensures o.dispatches == o.retriesUsed + 1
  {
  }

  lemma RejectedRowFits(o: Operation, failure: Failure, clock: Clock)
    requires OperationFits(o) && (o.status.Prepared? || o.status.RetryScheduled?)
    ensures OperationFits(RejectedRow(o, failure, clock))
    ensures o.attempt.None?
  {
  }

  /** The row an accepted completion leaves behind. */
  lemma CompletedRowFits(o: Operation, work: ClaimedAttempt, a: AttemptId, outcome: GatewayOutcome, clock: Clock)
    requires OperationFits(o) && o.attempt == Some(a) && WorkMatches(o, a, work)
    ensures o.status.Dispatched? && o.dispatches == o.retriesUsed + 1
    ensures var reported := ReportedCompletion(work, outcome);
            var completion := reported.(plan := EffectivePlan(reported.plan, o, clock));
            OperationFits(
              if completion.plan.ScheduleRetry? then ScheduledRow(o, completion, completion.plan.delay, clock)
              else FinishedRow(o, completion, ReportedResponse(outcome), clock))
  {
  }

  lemma DispatchKeepsMachine(s: System, id: OperationId, newId: AttemptId, clock: Clock)
    requires MachineInvariant(s)
    requires id in s.db.operations && newId !in s.db.attempts
    requires s.db.operations[id].status.Prepared? || s.db.operations[id].status.RetryScheduled?
    requires s.db.operations[id].dispatches < s.db.operations[id].terms.profile.maximumHttpDispatches
    ensures MachineInvariant(System(
              Dispatch(s.db, id, newId, clock), s.issued[newId := Work(s.db.operations[id], id, clock)]))
  {
    hide OperationFits, AttemptsFit;
    var before := s.db.operations[id];
    var after := Dispatch(s.db, id, newId, clock);
    assert OneFits(s.db.operations, s.db.attempts, id);
    DispatchedRowFits(before, newId, clock);
    StartingFits(before, after.operations[id], AttemptsOf(s.db.attempts, id), newId, after.attempts[newId]);
    RewriteKeepsTables(s.db.operations, s.db.attempts, id, after.operations[id], newId, after.attempts[newId]);
    WorkKept(s.db.operations, s.db.attempts, s.issued, id, after.operations[id], after.attempts);
  }

  /** Replacing the row and the attempt in flight together. */
  lemma ClosingKeepsMachine(s: System, id: OperationId, o: Operation, a: AttemptId, closed: Attempt, after: Database)
    requires MachineInvariant(s)
    requires id in s.db.operations && s.db.operations[id].attempt == Some(a)
    requires OperationFits(o) && o.attempt.None? && o.terms == s.db.operations[id].terms
    requires o.dispatches == s.db.operations[id].dispatches == s.db.operations[id].retriesUsed + 1
    requires o.retriesUsed == s.db.operations[id].retriesUsed ||
             (o.retriesUsed == s.db.operations[id].retriesUsed + 1 && RateLimitedForFree(closed))
    requires AttemptChecks(closed) && closed.disposition.Some?
    requires a in s.db.attempts ==>
      closed.operation == s.db.attempts[a].operation && closed.ordinal == s.db.attempts[a].ordinal
    requires after.operations == s.db.operations[id := o] && after.attempts == s.db.attempts[a := closed]
    ensures MachineInvariant(s.(db := after))
  {
    var before := s.db.operations[id];
    assert OneFits(s.db.operations, s.db.attempts, id);
    assert a in AttemptsOf(s.db.attempts, id) by {
      hide OperationFits;
      assert AttemptsFit(before, AttemptsOf(s.db.attempts, id));
    }
    hide OperationFits, AttemptsFit;
    ClosingFits(before, o, AttemptsOf(s.db.attempts, id), a, closed);
    RewriteKeepsTables(s.db.operations, s.db.attempts, id, o, a, closed);
    WorkKept(s.db.operations, s.db.attempts, s.issued, id, o, after.attempts);
  }

  /** Every row fits. */
  lemma RowOf(s: System, id: OperationId)
    requires MachineInvariant(s) && id in s.db.operations
    ensures OperationFits(s.db.operations[id])
  {
    assert OneFits(s.db.operations, s.db.attempts, id);
    hide OperationFits, AttemptsFit, WorkFits;
  }

  /** The attempt in flight exists, belongs to its operation and is open. */
  lemma InFlight(s: System, id: OperationId)
    requires MachineInvariant(s)
    requires id in s.db.operations && s.db.operations[id].attempt.Some?
    ensures var a := s.db.operations[id].attempt.value;
            && a in s.db.attempts
            && s.db.attempts[a].operation == id
            && s.db.attempts[a].disposition.None?
            && AttemptChecks(s.db.attempts[a])
  {
    hide OperationFits;
    assert OneFits(s.db.operations, s.db.attempts, id);
    var a := s.db.operations[id].attempt.value;
    assert a in AttemptsOf(s.db.attempts, id);
    assert AttemptFits(s.db.operations[id], a, AttemptsOf(s.db.attempts, id)[a]);
  }

  lemma ExpireKeepsMachine(s: System, id: OperationId, clock: Clock)
    requires MachineInvariant(s)
    requires id in s.db.operations && s.db.operations[id].attempt.Some?
    ensures MachineInvariant(s.(db := Expire(s.db, id, clock)))
  {
    var a := s.db.operations[id].attempt.value;
    var after := Expire(s.db, id, clock);
    InFlight(s, id);
    assert OneFits(s.db.operations, s.db.attempts, id);
    ExpiredRowFits(s.db.operations[id], clock);
    hide MachineInvariant, OperationFits;
    ClosingKeepsMachine(s, id, after.operations[id], a, after.attempts[a], after);
  }

  lemma RejectKeepsMachine(s: System, id: OperationId, failure: Failure, clock: Clock)
    requires MachineInvariant(s)
    requires id in s.db.operations
    requires s.db.operations[id].status.Prepared? || s.db.operations[id].status.RetryScheduled?
    ensures MachineInvariant(s.(db := RejectClaim(s.db, id, failure, clock)))
  {
    var before := s.db.operations[id];
    var o := RejectedRow(before, failure, clock);
    hide OperationFits, AttemptsFit;
    assert OneFits(s.db.operations, s.db.attempts, id);
    RejectedRowFits(before, failure, clock);
    RefusedAttemptsFit(before, o, AttemptsOf(s.db.attempts, id));
    RefusalKeepsTables(s.db.operations, s.db.attempts, id, o);
    WorkKept(s.db.operations, s.db.attempts, s.issued, id, o, s.db.attempts);
  }

  lemma {:induction false} NoLongerThanItsBytes(text: string)
    ensures |text| <= |Utf8(text)|
    decreases |text|
  {
    if text != "" {
      NoLongerThanItsBytes(text[..|text| - 1]);
    }
  }

  lemma NewRowFits(o: Operation, id: OperationId, request: Request, clock: Clock)
    requires AsksFor(o, id, request, clock)
    ensures OperationFits(o) && o.attempt.None? && o.dispatches == 0
    ensures o.reserved == Reservation(o.terms) && o.settled == 0
    ensures o.terms.provider == OpenAI ==> o.reserved > 0
  {
    NoLongerThanItsBytes(request.canonicalInput);
  }

  lemma RestartedRowFits(db: Database, o: Operation, source: OperationId, clock: Clock)
    requires RestartsFrom(db, o, source, clock) && OperationFits(db.operations[source])
    ensures OperationFits(o) && o.attempt.None? && o.dispatches == 0
    ensures o.reserved == Reservation(o.terms) && o.settled == 0
    ensures o.terms.provider == OpenAI ==> o.reserved > 0
  {
  }

  lemma InsertKeepsMachine(s: System, after: Database, id: OperationId, o: Operation)
    requires MachineInvariant(s) && Inserts(s.db, after, id, o)
    requires OperationFits(o) && o.attempt.None? && o.dispatches == 0
    ensures MachineInvariant(s.(db := after))
  {
    hide OperationFits, AttemptsFit;
    InsertKeepsTables(s.db.operations, s.db.attempts, id, o);
    WorkKept(s.db.operations, s.db.attempts, s.issued, id, o, after.attempts);
  }

  lemma FinishKeepsMachine(s: System, a: AttemptId, outcome: GatewayOutcome, clock: Clock)
    requires MachineInvariant(s) && CanComplete(s, a)
    ensures MachineInvariant(s.(db := Completed(s, a, outcome, clock)))
  {
    hide OperationFits, AttemptsFit;
    var id := s.issued[a].operation;
    var after := Completed(s, a, outcome, clock);
    InFlight(s, id);
    assert OneFits(s.db.operations, s.db.attempts, id);
    CompletedRowFits(s.db.operations[id], s.issued[a], a, outcome, clock);
    hide MachineInvariant;
    ClosingKeepsMachine(s, id, after.operations[id], a, after.attempts[a], after);
  }

  lemma StepKeepsMachine(s: System, e: Event)
    requires MachineInvariant(s)
    ensures MachineInvariant(Step(s, e))
  {
    var after := Step(s, e).db;
    hide Step, OperationFits, AttemptsFit;
    match e
    case Ask(id, request, clock) =>
      AskEffect(s, id, request, clock);
      if Step(s, e) != s {
        NewRowFits(after.operations[id], id, request, clock);
        InsertKeepsMachine(s, after, id, after.operations[id]);
      }
    case AskRestart(user, source, id, clock) =>
      RestartEffect(s, user, source, id, clock);
      if Step(s, e) != s {
        assert OneFits(s.db.operations, s.db.attempts, source);
        RestartedRowFits(s.db, after.operations[id], source, clock);
        InsertKeepsMachine(s, after, id, after.operations[id]);
      }
    case WakeUp(id, newId, clock) =>
      WakeUpEffect(s, id, newId, clock);
      if Step(s, e) == s {
      } else if CanDispatch(s.db, id, newId, clock) {
        DispatchKeepsMachine(s, id, newId, clock);
      } else if CanExpire(s.db, id, clock) {
        ExpireKeepsMachine(s, id, clock);
      } else {
        RejectKeepsMachine(s, id, ClaimRefusal(s.db, s.db.operations[id], clock).value, clock);
      }
    case Finish(a, outcome, clock) =>
      FinishEffect(s, a, outcome, clock);
      if CanComplete(s, a) {
        FinishKeepsMachine(s, a, outcome, clock);
      }
  }

  /** In every reachable state all row constraints hold; attempts are exactly the ordinals 1 to
      the dispatch count; at most one is in flight and it is the current one; every earlier one
      was rate limited at no cost. */
  lemma {:induction false} ReachableStatesFit(s: System, events: seq<Event>)
    requires MachineInvariant(s)
    ensures MachineInvariant(Run(s, events))
    decreases |events|
  {
    if events != [] {
      StepKeepsMachine(s, events[0]);
      ReachableStatesFit(Step(s, events[0]), events[1..]);
    }
  }

  lemma InitialFits()
    ensures MachineInvariant(INITIAL)
  {
  }
}
