/** The main results about paid operations, stated for every run that starts with empty tables. */
module ModelTheorems {
  import opened Common
  import opened ModelRegistry
  import opened ModelGateway
  import opened ModelDatabase
  import opened ModelRuns
  import opened ModelEffects
  import opened ModelMachine
  import opened ModelProgress
  import opened ModelBudget
  import opened ModelSpend
  import opened ModelLineage

  /** What every transaction keeps. */
  ghost predicate SystemFits(s: System) {
    && MachineInvariant(s)
    && Conserved(s.db)
    && LineageInvariant(s.db.operations)
    && DailyInvariant(s.db)
    && AlertsClosed(s.db)
  }

  lemma StepFits(s: System, e: Event)
    requires SystemFits(s)
    ensures SystemFits(Step(s, e))
  {
    FittingParts(s);
    hide *;
    StepKeepsMachine(s, e);
    StepConserves(s, e);
    StepKeepsLineage(s, e);
    StepKeepsDaily(s, e);
    StepAlertsClosed(s, e);
    AssembleParts(Step(s, e));
  }

  lemma FittingParts(s: System)
    requires SystemFits(s)
    ensures MachineInvariant(s) && Conserved(s.db) && LineageInvariant(s.db.operations)
    ensures DailyInvariant(s.db) && AlertsClosed(s.db)
  {
    hide MachineInvariant, Conserved, LineageInvariant, DailyInvariant, AlertsClosed;
  }

  lemma AssembleParts(s: System)
    requires MachineInvariant(s) && Conserved(s.db) && LineageInvariant(s.db.operations)
    requires DailyInvariant(s.db) && AlertsClosed(s.db)
    ensures SystemFits(s)
  {
    hide MachineInvariant, Conserved, LineageInvariant, DailyInvariant, AlertsClosed;
  }

  /** Whatever users, workers, the provider and the clocks do: rows satisfy their constraints, every
      account holds exactly the reservations and settlements charged to it, lineages are bounded, the
      daily counters count, and recorded alerts are downward closed. */
  lemma EveryRun(events: seq<Event>)
    ensures MachineInvariant(Run(INITIAL, events))
    ensures Conserved(Run(INITIAL, events).db)
    ensures LineageInvariant(Run(INITIAL, events).db.operations)
    ensures DailyInvariant(Run(INITIAL, events).db)
    ensures AlertsClosed(Run(INITIAL, events).db)
  {
    InitialFits();
    InitialConserved();
    InitialDaily();
    hide Run, MachineInvariant, Conserved, DailyInvariant;
    ReachableStatesFit(INITIAL, events);
    MoneyIsConserved(INITIAL, events);
    LineageHolds(INITIAL, events);
    DailyCeilingHolds(INITIAL, events);
    AlertsStayClosed(INITIAL, events);
  }

  lemma InitialDaily()
    ensures DailyInvariant(INITIAL.db)
  {
    forall user, day ensures DispatchesOn(INITIAL.db, user, day) ==
      |StartedOn(INITIAL.db, user, day)| <= DAILY_DISPATCH_LIMIT {
      assert StartedOn(INITIAL.db, user, day) == {};
    }
  }

  /** If moreover every paid answer is priced from its usage and costs no more than its operation
      reserved, no account of any month ever exceeds its ceiling, a full environment account is switched
      off, and every alert that is due is recorded. */
  lemma EveryHonestRun(events: seq<Event>)
    requires HonestRun(INITIAL, events)
    ensures AllGoverned(Run(INITIAL, events).db)
  {
    InitialFits();
    hide Run, MachineInvariant, HonestRun;
    SpendStaysWithinCeilings(INITIAL, events);
  }

  /** In particular if the provider never uses more tokens than the profiles allow. */
  lemma EveryMeteredRun(events: seq<Event>)
    requires MeteredRun(INITIAL, events)
    ensures AllGoverned(Run(INITIAL, events).db)
  {
    hide Run, MeteredRun, HonestRun, AllGoverned;
    MeteredRunIsHonest(INITIAL, events);
    EveryHonestRun(events);
  }

  /** The bounds a reader asks for, on any operation of any run: at most one call that can be charged
      for, at most two for its whole lineage, and at most five changes of its row. */
  lemma CallsAreBounded(events: seq<Event>, later: seq<Event>, id: OperationId)
    requires id in Run(INITIAL, events).db.operations
    ensures var s := Run(INITIAL, events);
            && |Billable(s.db, id)| <= 1
            && (s.db.operations[id].root == id ==> |Lineage(s.db, id)| <= 2 && |BillableInLineage(s.db, id)| <= 2)
            && Rewritings(s, later, id) <= 5
  {
    EveryRun(events);
    var s := Run(INITIAL, events);
    hide Run, Conserved, DailyInvariant, AlertsClosed;
    AtMostOneBillable(s, id);
    RewritingsBounded(s, later, id);
    assert s.db.operations[id].terms.restartLimit == 1 by {
      RowOf(s, id);
    }
    hide MachineInvariant, LineageInvariant;
    if s.db.operations[id].root == id {
      LineageBounded(s, id);
    }
  }

  /** The store never loses track of a report: the operation is always found, and a report on an attempt
      that is still open is recorded. Only a late report on an attempt that was closed before, of an
      operation that has gone on, is refused. */
  lemma OpenReports(s: System, a: AttemptId, outcome: GatewayOutcome, clock: Clock)
    requires SystemFits(s) && a in s.issued
    ensures var work := s.issued[a];
            var reply :=
              Complete(s.db, work.operation, a, ReportedCompletion(work, outcome), ReportedResponse(outcome), clock).1;
            && a in s.db.attempts
            && reply != CompletionNotFound
            && (s.db.attempts[a].disposition.None? ==> reply.Recorded?)
  {
    FittingParts(s);
    hide SystemFits;
    IssuedWork(s, a);
    hide MachineInvariant, ReportedCompletion, ReportedResponse, Complete;
    OpenReport(s.db, s.issued[a].operation, a, ReportedCompletion(s.issued[a], outcome), ReportedResponse(outcome),
               clock);
  }

  /** So it is in every run. */
  lemma OpenReportsAreRecorded(events: seq<Event>, a: AttemptId, outcome: GatewayOutcome, clock: Clock)
    requires a in Run(INITIAL, events).issued
    ensures var s := Run(INITIAL, events);
            var work := s.issued[a];
            var reply :=
              Complete(s.db, work.operation, a, ReportedCompletion(work, outcome), ReportedResponse(outcome), clock).1;
            && a in s.db.attempts
            && reply != CompletionNotFound
            && (s.db.attempts[a].disposition.None? ==> reply.Recorded?)
  {
    hide *;
    EveryRun(events);
    AssembleParts(Run(INITIAL, events));
    OpenReports(Run(INITIAL, events), a, outcome, clock);
  }

  lemma OpenReport(
      db: Database, id: OperationId, a: AttemptId, requested: Completion, response: Option<Response>, clock: Clock)
    requires id in db.operations
    ensures Complete(db, id, a, requested, response, clock).1 != CompletionNotFound
    ensures db.operations[id].status == Dispatched && db.operations[id].attempt == Some(a) ==>
              Complete(db, id, a, requested, response, clock).1.Recorded?
  {
    hide FinishAttempt, Settlement, EffectivePlan, ScheduledRow, FinishedRow;
  }

  /** A claim fails as unavailable only if the generated attempt id collides: the rows it needs are
      always there. */
  lemma RowsFound(s: System, id: OperationId, newId: AttemptId, clock: Clock)
    requires SystemFits(s)
    ensures Claim(s.db, id, newId, clock).1.Unavailable? ==> newId in s.db.attempts
  {
    if id in s.db.operations {
      FittingParts(s);
      var o := s.db.operations[id];
      RowOf(s, id);
      assert o.terms.provider == OpenAI ==> ChargedTo(o, EnvironmentOf(o));
      hide SystemFits, MachineInvariant, Balanced, Claim, OperationFits;
      if Claim(s.db, id, newId, clock).1.Unavailable? {
        ClaimFindsRows(s.db, id, newId, clock);
      }
    }
  }

  /** So it is in every run. */
  lemma ClaimsFindTheirRows(events: seq<Event>, id: OperationId, newId: AttemptId, clock: Clock)
    requires Claim(Run(INITIAL, events).db, id, newId, clock).1.Unavailable?
    ensures newId in Run(INITIAL, events).db.attempts
  {
    hide *;
    EveryRun(events);
    AssembleParts(Run(INITIAL, events));
    RowsFound(Run(INITIAL, events), id, newId, clock);
  }

  lemma ClaimFindsRows(db: Database, id: OperationId, newId: AttemptId, clock: Clock)
    requires id in db.operations ==> OperationFits(db.operations[id])
    requires id in db.operations && db.operations[id].terms.provider == OpenAI ==>
             EnvironmentOf(db.operations[id]) in db.accounts
    requires Claim(db, id, newId, clock).1.Unavailable?
    ensures newId in db.attempts
  {
    hide RejectClaim, Dispatch, Expire, ClaimRefusal;
  }

  /** Every attempt handed to a worker has its row and its operation. */
  lemma IssuedWork(s: System, a: AttemptId)
    requires MachineInvariant(s) && a in s.issued
    ensures a in s.db.attempts && s.db.attempts[a].operation == s.issued[a].operation &&
            s.issued[a].operation in s.db.operations
    ensures s.db.attempts[a].disposition.None? ==>
              s.db.operations[s.issued[a].operation].attempt == Some(a) &&
                s.db.operations[s.issued[a].operation].status == Dispatched
  {
    hide WorkMatches;
    var id := s.issued[a].operation;
    assert OneFits(s.db.operations, s.db.attempts, id);
    assert a in AttemptsOf(s.db.attempts, id);
    assert AttemptFits(s.db.operations[id], a, AttemptsOf(s.db.attempts, id)[a]);
  }

  lemma RunTwo(s: System, first: Event, second: Event)
    ensures Run(s, [first, second]) == Step(Step(s, first), second)
  {
    hide Step;
    assert [first, second][1..] == [second];
    assert Run(Step(s, first), [second]) == Run(Step(Step(s, first), second), []) by {
      assert [second][1..] == [];
    }
  }

  /** The results are not empty: every kind of paid operation can be in flight in some run. */
  lemma PaidCallsReachable(request: Request, clock: Clock)
    requires Acceptable(request) && request.provider == OpenAI
    ensures CanComplete(Run(INITIAL, [Ask(1, request, clock), WakeUp(1, 1, clock)]), 1)
  {
    RunTwo(INITIAL, Ask(1, request, clock), WakeUp(1, 1, clock));
    var asked := Step(INITIAL, Ask(1, request, clock));
    AskedRow(request, clock);
    hide Run;
    Started(asked, 1, 1, clock);
  }

  lemma AskedRow(request: Request, clock: Clock)
    requires Acceptable(request) && request.provider == OpenAI
    ensures var s := Step(INITIAL, Ask(1, request, clock));
            && 1 in s.db.operations
            && s.db.operations[1].status == Prepared && s.db.operations[1].dispatches == 0
            && clock.now < s.db.operations[1].deadlineAt
            && s.db.operations[1].terms == TermsFor(request)
            && EnvironmentOf(s.db.operations[1]) in s.db.accounts
            && !s.db.accounts[EnvironmentOf(s.db.operations[1])].killSwitch
            && s.db.attempts == map[] && s.db.dispatches == map[]
  {
    hide Acceptable;
  }

  lemma Started(s: System, id: OperationId, newId: AttemptId, clock: Clock)
    requires id in s.db.operations && s.db.operations[id].status == Prepared
    requires ClaimRefusal(s.db, s.db.operations[id], clock).None? && newId !in s.db.attempts
    requires s.db.operations[id].terms.provider == OpenAI ==> EnvironmentOf(s.db.operations[id]) in s.db.accounts
    ensures CanComplete(Step(s, WakeUp(id, newId, clock)), newId)
  {
    hide ClaimRefusal;
  }
}
