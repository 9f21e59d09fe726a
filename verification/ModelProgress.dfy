/** Progress and finality of paid operations over whole runs: terminal rows never change, every
    row is rewritten a bounded number of times, at most one call per operation can be charged,
    and a dispatched call always ends before its lease does. */
module ModelProgress {
  import opened Common
  import opened ModelRegistry
  import opened ModelGateway
  import opened ModelDatabase
  import opened ModelRuns
  import opened ModelEffects
  import opened ModelMachine

  // ---------------------------------------------------------------------------------------
  // Finality and termination
  // ---------------------------------------------------------------------------------------

  function Rank(status: Status): nat {
    match status
    case Prepared => 2
    case RetryScheduled => 2
    case Dispatched => 1
    case Terminal(_) => 0
  }

  /** Retries left, then distance from a terminal status. */
  function Measure(o: Operation): int {
    3 * (o.terms.profile.retryLimit - o.retriesUsed) + Rank(o.status)
  }

  /** One step either leaves the row of an operation alone or moves it strictly closer to its end;
      a terminal row is left alone by every step, late and repeated completions included. */
  lemma StepMovesForward(s: System, e: Event, id: OperationId)
    requires id in s.db.operations
    ensures id in Step(s, e).db.operations
    ensures var before, after := s.db.operations[id], Step(s, e).db.operations[id];
            after.terms == before.terms &&
            (after == before || (Measure(after) < Measure(before) && !before.status.Terminal?))
  {
    hide Step;
    match e
    case Ask(i, request, clock) => AskEffect(s, i, request, clock);
    case AskRestart(user, source, i, clock) => RestartEffect(s, user, source, i, clock);
    case WakeUp(i, newId, clock) => WakeUpEffect(s, i, newId, clock);
    case Finish(a, outcome, clock) => FinishEffect(s, a, outcome, clock);
  }

  /** How often a run rewrites the row of an operation. */
  function Rewritings(s: System, events: seq<Event>, id: OperationId): nat
    decreases |events|
  {
    if events == [] then 0
    else
      (if id in s.db.operations && id in Step(s, events[0]).db.operations &&
          Step(s, events[0]).db.operations[id] != s.db.operations[id] then 1 else 0)
      + Rewritings(Step(s, events[0]), events[1..], id)
  }

  lemma MeasureBounded(s: System, id: OperationId)
    requires MachineInvariant(s) && id in s.db.operations
    ensures 0 <= Measure(s.db.operations[id]) <= 5
  {
    hide AttemptsFit, WorkFits;
    assert OneFits(s.db.operations, s.db.attempts, id);
  }

  /** However many wake-ups, completions and restarts a run contains, an operation is rewritten at
      most as often as its measure allows, and the measure never goes below zero. */
  lemma {:induction false} RewritingsBounded(s: System, events: seq<Event>, id: OperationId)
    requires MachineInvariant(s) && id in s.db.operations
    ensures id in Run(s, events).db.operations
    ensures 0 <= Measure(Run(s, events).db.operations[id])
    ensures Rewritings(s, events, id) + Measure(Run(s, events).db.operations[id]) <= Measure(s.db.operations[id]) <= 5
    decreases |events|
  {
    MeasureBounded(s, id);
    if events != [] {
      StepMovesForward(s, events[0], id);
      StepKeepsMachine(s, events[0]);
      hide Step, MachineInvariant, Measure;
      RewritingsBounded(Step(s, events[0]), events[1..], id);
    }
  }

  /** A finished operation keeps its row for ever. */
  lemma {:induction false} TerminalForever(s: System, events: seq<Event>, id: OperationId)
    requires id in s.db.operations && s.db.operations[id].status.Terminal?
    ensures id in Run(s, events).db.operations
    ensures Run(s, events).db.operations[id] == s.db.operations[id]
    decreases |events|
  {
    if events != [] {
      StepMovesForward(s, events[0], id);
      hide Step;
      TerminalForever(Step(s, events[0]), events[1..], id);
    }
  }

  /** Once an attempt is no longer in flight it never is again. */
  lemma {:induction false} ClosedForever(s: System, events: seq<Event>, a: AttemptId)
    requires MachineInvariant(s) && a in s.db.attempts && s.db.attempts[a].disposition.Some?
    ensures a in Run(s, events).db.attempts
    ensures Run(s, events).db.attempts[a] == s.db.attempts[a]
    decreases |events|
  {
    if events != [] {
      StepKeepsClosed(s, events[0], a);
      StepKeepsMachine(s, events[0]);
      hide Step, MachineInvariant;
      ClosedForever(Step(s, events[0]), events[1..], a);
    }
  }

  /** A recorded attempt is never rewritten, whoever reports on it later. */
  lemma StepKeepsClosed(s: System, e: Event, a: AttemptId)
    requires MachineInvariant(s) && a in s.db.attempts && s.db.attempts[a].disposition.Some?
    ensures a in Step(s, e).db.attempts
    ensures Step(s, e).db.attempts[a] == s.db.attempts[a]
  {
    hide Step, MachineInvariant;
    match e
    case Ask(i, request, clock) => AskEffect(s, i, request, clock);
    case AskRestart(user, source, i, clock) => RestartEffect(s, user, source, i, clock);
    case WakeUp(i, newId, clock) =>
      WakeUpEffect(s, i, newId, clock);
      if CanExpire(s.db, i, clock) {
        InFlight(s, i);
      }
    case Finish(b, outcome, clock) =>
      FinishEffect(s, b, outcome, clock);
      if CanComplete(s, b) {
        InFlight(s, s.issued[b].operation);
      }
  }

  /** The refusal for a spent dispatch grant can never happen to a registered operation. */
  lemma DispatchLimitUnreachable(s: System, id: OperationId, clock: Clock)
    requires MachineInvariant(s) && id in s.db.operations && Waiting(s.db.operations[id])
    ensures ClaimRefusal(s.db, s.db.operations[id], clock) != Some(DispatchLimitExceeded)
  {
    assert OneFits(s.db.operations, s.db.attempts, id);
  }

  // ---------------------------------------------------------------------------------------
  // At most one chargeable call
  // ---------------------------------------------------------------------------------------

  /** The attempts of an operation for which the provider may have produced something. */
  function Billable(db: Database, id: OperationId): set<AttemptId> {
    set a | a in db.attempts && db.attempts[a].operation == id && !RateLimitedForFree(db.attempts[a])
  }

  /** In every reachable state an operation has at most one potentially billable attempt, its
      newest, which is what the registry promises and no code ever checks. */
  lemma AtMostOneBillable(s: System, id: OperationId)
    requires MachineInvariant(s) && id in s.db.operations
    ensures |Billable(s.db, id)| <= s.db.operations[id].terms.profile.maximumBillableAttempts == 1
    ensures forall a :: a in Billable(s.db, id) ==> s.db.attempts[a].ordinal == s.db.operations[id].dispatches
  {
    var o := s.db.operations[id];
    var mine := AttemptsOf(s.db.attempts, id);
    assert OneFits(s.db.operations, s.db.attempts, id);
    assert o.dispatches <= o.retriesUsed + 1;
    forall a | a in Billable(s.db, id)
      ensures s.db.attempts[a].ordinal == o.dispatches
    {
      assert a in mine && AttemptFits(o, a, mine[a]);
    }
    forall a, b | a in Billable(s.db, id) && b in Billable(s.db, id)
      ensures a == b
    {
      assert a in mine && b in mine && mine[a].ordinal == mine[b].ordinal;
    }
    AtMostOne(Billable(s.db, id));
  }

  lemma AtMostOne<T>(s: set<T>)
    requires forall a, b :: a in s && b in s ==> a == b
    ensures |s| <= 1
  {
    if s != {} {
      var x :| x in s;
      assert s == {x};
    }
  }

  // ---------------------------------------------------------------------------------------
  // Deadlines
  // ---------------------------------------------------------------------------------------

  /** A claimed call may run until the operation's deadline and no longer, and its provider timeout is
      within that window. The window is over before the lease is, so that a worker that respects its
      deadline reports before recovery can take the attempt away, unless the claim's clock is behind the
      creation's by the lease less the operation's total time, which is at least 20 seconds. */
  lemma ClaimedWindow(
      s: System, id: OperationId, newId: AttemptId, clock: Clock, after: Database, outcome: ClaimOutcome)
    requires MachineInvariant(s) && id in s.db.operations
    requires (after, outcome) == Claim(s.db, id, newId, clock) && outcome.Claimed?
    ensures 0 < outcome.work.providerTimeout <= outcome.work.totalDeadline
    ensures id in after.operations
    ensures clock.now + outcome.work.totalDeadline == after.operations[id].deadlineAt
    ensures after.operations[id].leaseUntil == Some(clock.now + ATTEMPT_LEASE)
    ensures after.operations[id].deadlineAt < clock.now + ATTEMPT_LEASE <==>
              after.operations[id].createdAt <
              clock.now + (ATTEMPT_LEASE - after.operations[id].terms.profile.totalDeadline)
    ensures ATTEMPT_LEASE - after.operations[id].terms.profile.totalDeadline >= 20_000
  {
    hide AttemptsFit;
    assert OneFits(s.db.operations, s.db.attempts, id);
    assert s.db.operations[id].terms.profile.totalDeadline <= 10_000;
  }

  /** A retry that is scheduled waits at least one second and can still start by the deadline. */
  lemma ScheduledRetryFits(s: System, a: AttemptId, outcome: GatewayOutcome, clock: Clock)
    requires CanComplete(s, a) && EffectiveCompletion(s, a, outcome, clock).plan.ScheduleRetry?
    ensures s.issued[a].operation in Completed(s, a, outcome, clock).operations
    ensures var o := Completed(s, a, outcome, clock).operations[s.issued[a].operation];
            && o.status == RetryScheduled
            && o.retryNotBefore == Some(clock.now + MINIMUM_RETRY_DELAY)
            && clock.now + 1_000 <= o.deadlineAt
  {
  }
}
