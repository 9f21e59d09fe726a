/** Spending controls over whole runs: ceilings, the kill switch and the alert thresholds. They
    hold when no response costs more than its operation reserved, in particular when responses stay
    within the registered profile. A completion raises an account exactly when that fails. */
module ModelSpend {
  import opened Common
  import opened ModelRegistry
  import opened ModelGateway
  import opened ModelDatabase
  import opened ModelRuns
  import opened ModelEffects
  import opened ModelMachine
  import opened ModelBudget

  // ---------------------------------------------------------------------------------------
  // The usage hypothesis
  // ---------------------------------------------------------------------------------------

  /** The report is a provider's answer, with a cost that the gateway charges for its usage. */
  predicate PaidAnswer(s: System, e: Event) {
    e.Finish? && e.attempt in s.issued && s.issued[e.attempt].provider == OpenAI && e.outcome.Answered?
  }

  predicate Priced(response: Response) {
    response.cost == NanoCost(response.usage)
  }

  /** A provider answer is priced from its usage, and that price is within the reservation of the
      operation the attempt was issued for. */
  predicate Honest(s: System, e: Event) {
    PaidAnswer(s, e) ==>
      Priced(e.outcome.response) && Affordable(s.issued[e.attempt].name, e.outcome.response.usage)
  }

  predicate HonestRun(s: System, events: seq<Event>)
    decreases |events|
  {
    events != [] ==> Honest(s, events[0]) && HonestRun(Step(s, events[0]), events[1..])
  }

  /** A provider answer is priced from its usage, and both token counts are within the profile. */
  predicate Metered(s: System, e: Event) {
    PaidAnswer(s, e) ==>
      Priced(e.outcome.response) && WithinProfile(s.issued[e.attempt].name, e.outcome.response.usage)
  }

  predicate MeteredRun(s: System, events: seq<Event>)
    decreases |events|
  {
    events != [] ==> Metered(s, events[0]) && MeteredRun(Step(s, events[0]), events[1..])
  }

  /** Token counts within the profiles are enough for every price to be within its reservation. */
  lemma {:induction false} MeteredRunIsHonest(s: System, events: seq<Event>)
    requires MeteredRun(s, events)
    ensures HonestRun(s, events)
    decreases |events|
  {
    hide Step;
    if events != [] {
      if PaidAnswer(s, events[0]) {
        CostWithinReservation(s.issued[events[0].attempt].name, events[0].outcome.response.usage);
      }
      MeteredRunIsHonest(Step(s, events[0]), events[1..]);
    }
  }

  // ---------------------------------------------------------------------------------------
  // Ceilings, switch and recorded thresholds
  // ---------------------------------------------------------------------------------------

  predicate Governed(key: AccountKey, account: Account, alerts: set<(AccountKey, nat)>) {
    && account.ceiling > 0
    && Committed(account) <= account.ceiling
    && (key.EnvironmentMonth? && Committed(account) >= account.ceiling ==> account.killSwitch)
    && (forall threshold :: threshold in THRESHOLDS && Met(account, threshold) ==> (key, threshold) in alerts)
  }

  ghost predicate AllGoverned(db: Database) {
    forall key :: key in db.accounts ==> Governed(key, db.accounts[key], db.alerts)
  }

  lemma ReserveGoverned(db: Database, terms: Terms, period: int, amount: nat)
    requires AllGoverned(db) && terms.environmentCeiling > 0 && terms.userCeiling > 0
    requires Refuses(
               OpenFor(db, terms, period), EnvironmentMonth(terms.policy, period), UserMonth(terms.user, period),
               amount).None?
    ensures AllGoverned(Reserve(db, terms, period, amount))
  {
    var after := Reserve(db, terms, period, amount);
    forall key | key in after.accounts ensures Governed(key, after.accounts[key], after.alerts) {
      ReservedAccountGoverned(db, terms, period, amount, key);
    }
  }

  lemma ReservedAccountGoverned(db: Database, terms: Terms, period: int, amount: nat, key: AccountKey)
    requires key in db.accounts ==> Governed(key, db.accounts[key], db.alerts)
    requires terms.environmentCeiling > 0 && terms.userCeiling > 0
    requires Refuses(
               OpenFor(db, terms, period), EnvironmentMonth(terms.policy, period), UserMonth(terms.user, period),
               amount).None?
    ensures var after := Reserve(db, terms, period, amount);
            key in after.accounts ==> Governed(key, after.accounts[key], after.alerts)
  {
  }

  lemma ChargeGoverned(db: Database, after: Database, environment: AccountKey, user: AccountKey, dr: int, ds: int)
    requires AllGoverned(db) && dr + ds <= 0
    requires after.accounts == Charge(db.accounts, environment, user, dr, ds) && after.alerts == db.alerts
    ensures AllGoverned(after)
  {
  }

  lemma InsertGoverned(db: Database, after: Database, id: OperationId, o: Operation)
    requires AllGoverned(db) && Inserts(db, after, id, o)
    requires o.terms.environmentCeiling > 0 && (o.terms.provider == OpenAI ==> o.terms.userCeiling > 0)
    ensures AllGoverned(after)
  {
    if o.terms.provider == OpenAI && o.reserved > 0 {
      ReserveGoverned(db, o.terms, o.period, o.reserved);
    }
  }

  /** With honest usage the provider is never paid more than was reserved. */
  lemma SettlementWithinReservation(s: System, a: AttemptId, outcome: GatewayOutcome, clock: Clock)
    requires MachineInvariant(s) && CanComplete(s, a) && Honest(s, Finish(a, outcome, clock))
    ensures var o := s.db.operations[s.issued[a].operation];
            o.terms.provider == OpenAI ==>
              Settlement(o, EffectiveCompletion(s, a, outcome, clock), ReportedResponse(outcome)) <= o.reserved
  {
    hide AttemptsFit;
    var id := s.issued[a].operation;
    assert OneFits(s.db.operations, s.db.attempts, id);
    assert WorkMatches(s.db.operations[id], a, s.issued[a]);
    if outcome.Answered? && s.issued[a].provider == OpenAI {
      OverrunIffPriceOverruns(s.issued[a].name, outcome.response.usage);
    }
  }

  lemma FinishGoverned(s: System, a: AttemptId, outcome: GatewayOutcome, clock: Clock)
    requires MachineInvariant(s) && AllGoverned(s.db) && Honest(s, Finish(a, outcome, clock))
    ensures AllGoverned(Step(s, Finish(a, outcome, clock)).db)
  {
    hide Step, MachineInvariant, Honest;
    FinishEffect(s, a, outcome, clock);
    if CanComplete(s, a) {
      var id := s.issued[a].operation;
      var prior := s.db.operations[id];
      var after := Completed(s, a, outcome, clock);
      hide Completed, AllGoverned;
      CompletionLowersTotal(s, a, outcome, clock);
      CompletedKeepsAlerts(s, a, outcome, clock);
      var o := after.operations[id];
      if prior.terms.provider == OpenAI {
        ChargeGoverned(
          s.db, after, EnvironmentOf(o), UserOf(o), o.reserved - prior.reserved, o.settled - prior.settled);
      } else {
        SameGoverned(s.db, after);
      }
    }
  }

  /** An honest completion never raises what its accounts have committed. */
  lemma CompletionLowersTotal(s: System, a: AttemptId, outcome: GatewayOutcome, clock: Clock)
    requires MachineInvariant(s) && CanComplete(s, a) && Honest(s, Finish(a, outcome, clock))
    ensures var id := s.issued[a].operation;
            var prior := s.db.operations[id];
            var after := Completed(s, a, outcome, clock);
            id in after.operations &&
            var o := after.operations[id];
            && o.terms == prior.terms
            && after.accounts ==
               (if prior.terms.provider == OpenAI then
                  Charge(s.db.accounts, EnvironmentOf(o), UserOf(o), o.reserved - prior.reserved,
                         o.settled - prior.settled)
                else s.db.accounts)
            && (prior.terms.provider == OpenAI ==> o.reserved - prior.reserved + (o.settled - prior.settled) <= 0)
  {
    var id := s.issued[a].operation;
    assert OneFits(s.db.operations, s.db.attempts, id);
    SettlementWithinReservation(s, a, outcome, clock);
    CompletionMovesMoney(s, a, outcome, clock);
    hide Completed, Settlement, AttemptsFit;
  }

  lemma CompletedKeepsAlerts(s: System, a: AttemptId, outcome: GatewayOutcome, clock: Clock)
    requires CanComplete(s, a)
    ensures Completed(s, a, outcome, clock).alerts == s.db.alerts
  {
  }

  lemma SameGoverned(db: Database, after: Database)
    requires AllGoverned(db) && after.accounts == db.accounts && after.alerts == db.alerts
    ensures AllGoverned(after)
  {
  }

  lemma WakeUpGoverned(s: System, id: OperationId, newId: AttemptId, clock: Clock)
    requires MachineInvariant(s) && AllGoverned(s.db)
    ensures AllGoverned(Step(s, WakeUp(id, newId, clock)).db)
  {
    var after := Step(s, WakeUp(id, newId, clock));
    hide Step, AttemptsFit, AllGoverned;
    WakeUpEffect(s, id, newId, clock);
    if after == s {
    } else if CanDispatch(s.db, id, newId, clock) || CanExpire(s.db, id, clock) {
      SameGoverned(s.db, after.db);
    } else {
      var prior := s.db.operations[id];
      assert OneFits(s.db.operations, s.db.attempts, id);
      RejectionMovesMoney(s.db, id, ClaimRefusal(s.db, prior, clock).value, clock);
      if prior.terms.provider == OpenAI {
        ChargeGoverned(s.db, after.db, EnvironmentOf(prior), UserOf(prior), -prior.reserved, 0);
      } else {
        SameGoverned(s.db, after.db);
      }
    }
  }

  ghost predicate CeilingsOpen(s: System) {
    forall id :: id in s.db.operations && s.db.operations[id].terms.provider == OpenAI ==>
      s.db.operations[id].terms.userCeiling > 0
  }

  lemma StepCeilingsOpen(s: System, e: Event)
    requires CeilingsOpen(s)
    ensures CeilingsOpen(Step(s, e))
  {
    hide Step;
    match e
    case Ask(id, request, clock) => AskEffect(s, id, request, clock);
    case AskRestart(user, source, id, clock) => RestartEffect(s, user, source, id, clock);
    case WakeUp(id, newId, clock) => WakeUpEffect(s, id, newId, clock);
    case Finish(a, outcome, clock) => FinishEffect(s, a, outcome, clock);
  }

  lemma StepGoverned(s: System, e: Event)
    requires MachineInvariant(s) && CeilingsOpen(s) && AllGoverned(s.db) && Honest(s, e)
    ensures AllGoverned(Step(s, e).db)
  {
    var after := Step(s, e).db;
    hide Step, AttemptsFit, AllGoverned, Inserts;
    match e
    case Ask(id, request, clock) =>
      AskEffect(s, id, request, clock);
      if Step(s, e) != s {
        InsertGoverned(s.db, after, id, after.operations[id]);
      }
    case AskRestart(user, source, id, clock) =>
      RestartEffect(s, user, source, id, clock);
      if Step(s, e) != s {
        assert OneFits(s.db.operations, s.db.attempts, source);
        InsertGoverned(s.db, after, id, after.operations[id]);
      }
    case WakeUp(id, newId, clock) => WakeUpGoverned(s, id, newId, clock);
    case Finish(a, outcome, clock) => FinishGoverned(s, a, outcome, clock);
  }

  /** In every run with honest usage, every account of every month stays within its ceiling, a full
      environment account has its switch on, and every alert threshold that is met is recorded. */
  lemma {:induction false} SpendStaysWithinCeilings(s: System, events: seq<Event>)
    requires MachineInvariant(s) && CeilingsOpen(s) && AllGoverned(s.db) && HonestRun(s, events)
    ensures AllGoverned(Run(s, events).db)
    decreases |events|
  {
    if events != [] {
      StepGoverned(s, events[0]);
      StepCeilingsOpen(s, events[0]);
      StepKeepsMachine(s, events[0]);
      hide Step, MachineInvariant, AllGoverned, CeilingsOpen;
      SpendStaysWithinCeilings(Step(s, events[0]), events[1..]);
    }
  }

  // ---------------------------------------------------------------------------------------
  // Without the hypothesis
  // ---------------------------------------------------------------------------------------

  /** A decoded answer raises what its accounts have committed exactly when it costs more than the
      operation reserved: settlement is not limited to the reservation. */
  lemma AnswerRaisesIffOverReserved(s: System, a: AttemptId, response: Response, clock: Clock, key: AccountKey)
    requires MachineInvariant(s) && CanComplete(s, a)
    requires ChargedTo(s.db.operations[s.issued[a].operation], key) && key in s.db.accounts
    ensures var after := Completed(s, a, Answered(response), clock).accounts;
            key in after &&
            (Committed(after[key]) > Committed(s.db.accounts[key])
             <==> response.cost > s.db.operations[s.issued[a].operation].reserved)
  {
    RowOf(s, s.issued[a].operation);
    AnswerSettles(s, a, response, clock);
    CompletionMovesMoney(s, a, Answered(response), clock);
    hide MachineInvariant, Completed, EffectiveCompletion;
  }

  /** A decoded answer ends its operation, with the answer's cost to settle. */
  lemma AnswerSettles(s: System, a: AttemptId, response: Response, clock: Clock)
    requires CanComplete(s, a)
    ensures var id := s.issued[a].operation;
            var after := Completed(s, a, Answered(response), clock).operations;
            && id in after && after[id].status.Terminal? && after[id].status != Terminal(Unknown)
            && Settlement(
                 s.db.operations[id], EffectiveCompletion(s, a, Answered(response), clock),
                 ReportedResponse(Answered(response))) == response.cost
  {
  }

  /** For a paid answer, which the gateway prices from its usage, that is exactly when the exact price
      is above the registered maximum of the operation. */
  lemma PricedAnswerRaisesIff(s: System, a: AttemptId, response: Response, clock: Clock, key: AccountKey)
    requires MachineInvariant(s) && CanComplete(s, a) && Priced(response)
    requires ChargedTo(s.db.operations[s.issued[a].operation], key) && key in s.db.accounts
    ensures var after := Completed(s, a, Answered(response), clock).accounts;
            key in after &&
            (Committed(after[key]) > Committed(s.db.accounts[key]) <==> !Affordable(s.issued[a].name, response.usage))
  {
    AnswerRaisesIffOverReserved(s, a, response, clock, key);
    OverrunIffPriceOverruns(s.issued[a].name, response.usage);
    RowOf(s, s.issued[a].operation);
    IssuedTerms(s, a);
    hide MachineInvariant, Completed;
  }

  /** A worker's authority names its operation as the row does. */
  lemma IssuedTerms(s: System, a: AttemptId)
    requires MachineInvariant(s) && CanComplete(s, a)
    ensures s.issued[a].name == s.db.operations[s.issued[a].operation].terms.name
    ensures s.issued[a].provider == s.db.operations[s.issued[a].operation].terms.provider
  {
    hide TablesFit;
  }

  /** So the ceilings depend on honest usage: any provider call in flight can be answered with a usage
      whose price takes its environment account over the ceiling, and the switch does not react. */
  lemma DishonestUsageOverruns(s: System, a: AttemptId, clock: Clock) returns (response: Response)
    requires MachineInvariant(s) && Conserved(s.db) && CanComplete(s, a)
    requires s.issued[a].provider == OpenAI
    ensures Priced(response)
    ensures var key := EnvironmentOf(s.db.operations[s.issued[a].operation]);
            var after := Step(s, Finish(a, Answered(response), clock)).db;
            && key in s.db.accounts && key in after.accounts
            && Committed(after.accounts[key]) > after.accounts[key].ceiling
            && after.accounts[key].killSwitch == s.db.accounts[key].killSwitch
  {
    hide AttemptsFit, Step;
    var id := s.issued[a].operation;
    var key := EnvironmentOf(s.db.operations[id]);
    assert OneFits(s.db.operations, s.db.attempts, id);
    assert WorkMatches(s.db.operations[id], a, s.issued[a]);
    AccountsNeverNegative(s, key);
    var usage := Usage(0, 0, s.db.accounts[key].ceiling + 1);
    response := Response(0, true, NanoCost(usage), usage);
    assert response.cost > s.db.accounts[key].ceiling;
    FinishEffect(s, a, Answered(response), clock);
  }

  // ---------------------------------------------------------------------------------------
  // Alert rows
  // ---------------------------------------------------------------------------------------

  /** Recorded alerts are supported thresholds, and every lower threshold is recorded too. */
  ghost predicate AlertsClosed(db: Database) {
    forall key, high, low ::
      (key, high) in db.alerts && low in THRESHOLDS && low <= high ==>
      high in THRESHOLDS && (key, low) in db.alerts
  }

  lemma ReserveAlertsClosed(db: Database, operations: map<OperationId, Operation>, id: OperationId)
    requires AlertsClosed(db)
    ensures id in operations ==>
      var reserved := Reserve(db, operations[id].terms, operations[id].period, operations[id].reserved);
      AlertsClosed(reserved) && db.alerts <= reserved.alerts
  {
    hide Charge, OpenFor, TripSwitch;
  }

  lemma StepAlertsClosed(s: System, e: Event)
    requires AlertsClosed(s.db)
    ensures AlertsClosed(Step(s, e).db)
    ensures s.db.alerts <= Step(s, e).db.alerts
  {
    var after := Step(s, e).db;
    hide Step, Refuses;
    match e
    case Ask(id, request, clock) =>
      AskEffect(s, id, request, clock);
      ReserveAlertsClosed(s.db, after.operations, id);
    case AskRestart(user, source, id, clock) =>
      RestartEffect(s, user, source, id, clock);
      ReserveAlertsClosed(s.db, after.operations, id);
    case WakeUp(id, newId, clock) => WakeUpEffect(s, id, newId, clock);
    case Finish(a, outcome, clock) =>
      FinishEffect(s, a, outcome, clock);
      if CanComplete(s, a) {
        CompletedKeepsAlerts(s, a, outcome, clock);
        hide Completed;
      }
  }

  /** Alert rows are never lost and stay downward closed, whatever the provider charges. */
  lemma {:induction false} AlertsStayClosed(s: System, events: seq<Event>)
    requires AlertsClosed(s.db)
    ensures AlertsClosed(Run(s, events).db)
    ensures s.db.alerts <= Run(s, events).db.alerts
    decreases |events|
  {
    if events != [] {
      StepAlertsClosed(s, events[0]);
      hide Step, AlertsClosed;
      AlertsStayClosed(Step(s, events[0]), events[1..]);
    }
  }

  // ---------------------------------------------------------------------------------------
  // The kill switch
  // ---------------------------------------------------------------------------------------

  /** The provider operations charged to an environment account. */
  function ChargedOperations(db: Database, key: AccountKey): set<OperationId> {
    set id | id in db.operations && ChargedTo(db.operations[id], key)
  }

  /** The provider calls ever dispatched for them. */
  function DispatchedFor(db: Database, key: AccountKey): set<AttemptId> {
    set a | a in db.attempts && db.attempts[a].operation in ChargedOperations(db, key)
  }

  ghost predicate SwitchedOffAt(db: Database, key: AccountKey) {
    key.EnvironmentMonth? && key in db.accounts && db.accounts[key].killSwitch
  }

  lemma InsertSwitched(db: Database, after: Database, id: OperationId, o: Operation, key: AccountKey)
    requires SwitchedOffAt(db, key) && Inserts(db, after, id, o)
    requires o.terms.provider == OpenAI ==> o.reserved > 0
    requires forall a :: a in db.attempts ==> db.attempts[a].operation != id
    ensures SwitchedOffAt(after, key)
    ensures ChargedOperations(after, key) == ChargedOperations(db, key)
    ensures DispatchedFor(after, key) == DispatchedFor(db, key)
  {
  }

  lemma RewriteSwitched(db: Database, after: Database, id: OperationId, key: AccountKey)
    requires SwitchedOffAt(db, key) && id in db.operations && id in after.operations
    requires after.operations == db.operations[id := after.operations[id]]
    requires after.operations[id].terms == db.operations[id].terms
    requires after.operations[id].period == db.operations[id].period
    requires key in after.accounts && after.accounts[key].killSwitch
    requires forall a :: a in db.attempts ==>
             a in after.attempts && after.attempts[a].operation == db.attempts[a].operation
    requires forall a :: a in after.attempts && a !in db.attempts ==>
             !ChargedTo(db.operations[id], key) && after.attempts[a].operation == id
    ensures SwitchedOffAt(after, key)
    ensures ChargedOperations(after, key) == ChargedOperations(db, key)
    ensures DispatchedFor(after, key) == DispatchedFor(db, key)
  {
  }

  lemma SwitchWakeUp(s: System, id: OperationId, newId: AttemptId, clock: Clock, key: AccountKey)
    requires SwitchedOffAt(s.db, key)
    ensures var after := Step(s, WakeUp(id, newId, clock)).db;
            && SwitchedOffAt(after, key)
            && ChargedOperations(after, key) == ChargedOperations(s.db, key)
            && DispatchedFor(after, key) == DispatchedFor(s.db, key)
  {
    var after := Step(s, WakeUp(id, newId, clock));
    hide Step, ChargedOperations, DispatchedFor;
    WakeUpEffect(s, id, newId, clock);
    if after != s {
      RewriteSwitched(s.db, after.db, id, key);
    }
  }

  /** A completion rewrites one operation and one attempt, and no switch. */
  lemma CompletedRows(s: System, a: AttemptId, outcome: GatewayOutcome, clock: Clock)
    requires CanComplete(s, a)
    ensures var id := s.issued[a].operation;
            var after := Completed(s, a, outcome, clock);
            && id in after.operations
            && after.operations == s.db.operations[id := after.operations[id]]
            && after.operations[id].terms == s.db.operations[id].terms
            && after.operations[id].period == s.db.operations[id].period
            && after.attempts.Keys == s.db.attempts.Keys
            && (forall b :: b in s.db.attempts ==> after.attempts[b].operation == s.db.attempts[b].operation)
  {
    hide Settlement, EffectiveCompletion, Charge;
  }

  lemma CompletedSwitches(s: System, a: AttemptId, outcome: GatewayOutcome, clock: Clock, key: AccountKey)
    requires CanComplete(s, a) && key in s.db.accounts
    ensures var after := Completed(s, a, outcome, clock).accounts;
            key in after && after[key].killSwitch == s.db.accounts[key].killSwitch
  {
    hide Settlement, EffectiveCompletion;
  }

  lemma SwitchFinish(s: System, a: AttemptId, outcome: GatewayOutcome, clock: Clock, key: AccountKey)
    requires SwitchedOffAt(s.db, key)
    ensures var after := Step(s, Finish(a, outcome, clock)).db;
            && SwitchedOffAt(after, key)
            && ChargedOperations(after, key) == ChargedOperations(s.db, key)
            && DispatchedFor(after, key) == DispatchedFor(s.db, key)
  {
    var after := Step(s, Finish(a, outcome, clock));
    hide Step, ChargedOperations, DispatchedFor;
    FinishEffect(s, a, outcome, clock);
    if CanComplete(s, a) {
      CompletedRows(s, a, outcome, clock);
      CompletedSwitches(s, a, outcome, clock, key);
      hide Completed, CanComplete;
      RewriteSwitched(s.db, after.db, s.issued[a].operation, key);
    }
  }

  lemma SwitchStep(s: System, e: Event, key: AccountKey)
    requires MachineInvariant(s) && SwitchedOffAt(s.db, key)
    ensures SwitchedOffAt(Step(s, e).db, key)
    ensures ChargedOperations(Step(s, e).db, key) == ChargedOperations(s.db, key)
    ensures DispatchedFor(Step(s, e).db, key) == DispatchedFor(s.db, key)
  {
    var after := Step(s, e).db;
    hide Step, OperationFits, AttemptsFit, ChargedOperations, DispatchedFor;
    match e
    case Ask(id, request, clock) =>
      AskEffect(s, id, request, clock);
      if Step(s, e) != s {
        hide Inserts;
        InsertSwitched(s.db, after, id, after.operations[id], key);
      }
    case AskRestart(user, source, id, clock) =>
      RestartEffect(s, user, source, id, clock);
      if Step(s, e) != s {
        assert OneFits(s.db.operations, s.db.attempts, source);
        RestartedRowFits(s.db, after.operations[id], source, clock);
        hide Inserts, RestartsFrom;
        InsertSwitched(s.db, after, id, after.operations[id], key);
      }
    case WakeUp(id, newId, clock) => SwitchWakeUp(s, id, newId, clock, key);
    case Finish(a, outcome, clock) => SwitchFinish(s, a, outcome, clock, key);
  }

  /** Once on, the switch stays on, and from then on no operation is ever added to that month of
      that environment and no further provider call is dispatched for it. */
  lemma {:induction false} SwitchStopsSpending(s: System, events: seq<Event>, key: AccountKey)
    requires MachineInvariant(s) && SwitchedOffAt(s.db, key)
    ensures SwitchedOffAt(Run(s, events).db, key)
    ensures ChargedOperations(Run(s, events).db, key) == ChargedOperations(s.db, key)
    ensures DispatchedFor(Run(s, events).db, key) == DispatchedFor(s.db, key)
    decreases |events|
  {
    if events != [] {
      SwitchStep(s, events[0], key);
      StepKeepsMachine(s, events[0]);
      hide Step, MachineInvariant, SwitchedOffAt, ChargedOperations, DispatchedFor;
      SwitchStopsSpending(Step(s, events[0]), events[1..], key);
    }
  }
}
