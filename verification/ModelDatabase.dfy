/** The rows behind paid model calls and, as functions on those rows, what each store
    transaction does to them. One transaction is one atomic step; its clock is an input. */
module ModelDatabase {
  import opened Common
  import opened ModelRegistry
  import opened ModelGateway

  type OperationId = nat
  type AttemptId = nat
  type UserId = nat

  /** One reading of the database clock: the instant in milliseconds, its date and its month. */
  datatype Clock = Clock(now: int, day: int, month: int)

  datatype Status =
    | Prepared
    | Dispatched
    | RetryScheduled
    | Terminal(disposition: Disposition)

  /** The columns of an operation that are written once, by the insert, and copied by a restart. */
  datatype Terms = Terms(
    user: UserId,
    name: OperationName,
    provider: Provider,
    policy: Policy,
    digest: string,
    canonicalInput: string,
    profile: Profile,
    restartLimit: nat,
    dailyLimit: nat,
    environmentCeiling: nat,
    userCeiling: nat)

  datatype Operation = Operation(
    root: OperationId,
    restartedFrom: Option<OperationId>,
    terms: Terms,
    period: int,
    createdAt: int,
    deadlineAt: int,
    status: Status,
    disposition: Option<Disposition>,
    failure: Option<Failure>,
    retryPlanned: bool,
    retryNotBefore: Option<int>,
    attempt: Option<AttemptId>,
    leaseUntil: Option<int>,
    retriesUsed: nat,
    dispatches: nat,
    reserved: int,
    settled: int,
    result: Option<nat>,
    completedAt: Option<int>)

  /** disposition is None while the attempt is in flight. */
  datatype Attempt = Attempt(
    operation: OperationId,
    ordinal: nat,
    startedOn: int,
    leaseUntil: int,
    disposition: Option<Disposition>,
    failure: Option<Failure>,
    retryPlanned: bool,
    cost: Option<nat>,
    completedAt: Option<int>)

  datatype AccountKey =
    | EnvironmentMonth(policy: Policy, period: int)
    | UserMonth(user: UserId, period: int)

  datatype Account = Account(ceiling: nat, reserved: int, settled: int, killSwitch: bool)

  datatype Database = Database(
    operations: map<OperationId, Operation>,
    attempts: map<AttemptId, Attempt>,
    accounts: map<AccountKey, Account>,
    alerts: set<(AccountKey, nat)>,
    dispatches: map<(UserId, int), nat>)

  const EMPTY: Database := Database(map[], map[], map[], {}, map[])

  function Committed(account: Account): int {
    account.reserved + account.settled
  }

  function EnvironmentOf(o: Operation): AccountKey {
    EnvironmentMonth(o.terms.policy, o.period)
  }

  function UserOf(o: Operation): AccountKey {
    UserMonth(o.terms.user, o.period)
  }

  // ---------------------------------------------------------------------------------------
  // Budget accounts
  // ---------------------------------------------------------------------------------------

  /** INSERT ... ON CONFLICT DO NOTHING for the two accounts of a month. */
  function OpenAccounts(
      accounts: map<AccountKey, Account>, environment: AccountKey, user: AccountKey, environmentCeiling: nat,
      userCeiling: nat): map<AccountKey, Account>
  {
    map[environment := Account(environmentCeiling, 0, 0, false), user := Account(userCeiling, 0, 0, false)]
    + accounts
  }

  /** UPDATE both accounts, where they exist, by the given differences. */
  function Charge(
      accounts: map<AccountKey, Account>, environment: AccountKey, user: AccountKey, reserved: int, settled: int)
      : map<AccountKey, Account>
  {
    map key | key in accounts ::
      if key == environment || key == user then
        accounts[key].(reserved := accounts[key].reserved + reserved, settled := accounts[key].settled + settled)
      else accounts[key]
  }

  const THRESHOLDS: set<nat> := {50, 80, 90, 100}

  predicate Met(account: Account, threshold: nat) {
    account.ceiling > 0 && Committed(account) * 100 >= account.ceiling * threshold
  }

  /** The alert rows that a threshold check of the two accounts inserts. */
  function ThresholdAlerts(
      accounts: map<AccountKey, Account>, environment: AccountKey, user: AccountKey): set<(AccountKey, nat)>
  {
    set key, threshold |
      key in {environment, user} && key in accounts && threshold in THRESHOLDS &&
      Met(accounts[key], threshold) :: (key, threshold)
  }

  /** The threshold check turns the switch of the environment account on when it is full. */
  function TripSwitch(accounts: map<AccountKey, Account>, environment: AccountKey): map<AccountKey, Account> {
    if environment in accounts && accounts[environment].ceiling > 0 &&
       Committed(accounts[environment]) >= accounts[environment].ceiling
    then accounts[environment := accounts[environment].(killSwitch := true)]
    else accounts
  }

  datatype Refusal = SwitchedOff | EnvironmentExceeded | UserExceeded

  /** Why the two accounts refuse a further reservation, if they do. */
  function Refuses(
      accounts: map<AccountKey, Account>, environment: AccountKey, user: AccountKey, amount: int): Option<Refusal>
    requires environment in accounts && user in accounts
  {
    if accounts[environment].killSwitch then Some(SwitchedOff)
    else if Committed(accounts[environment]) + amount > accounts[environment].ceiling then Some(EnvironmentExceeded)
    else if Committed(accounts[user]) + amount > accounts[user].ceiling then Some(UserExceeded)
    else None
  }

  function OpenFor(db: Database, terms: Terms, period: int): map<AccountKey, Account> {
    OpenAccounts(
      db.accounts, EnvironmentMonth(terms.policy, period), UserMonth(terms.user, period),
      terms.environmentCeiling, terms.userCeiling)
  }

  /** Reserve an amount on the environment and user accounts of a month and check the alerts. */
  function Reserve(db: Database, terms: Terms, period: int, amount: int): Database {
    var environment := EnvironmentMonth(terms.policy, period);
    var user := UserMonth(terms.user, period);
    var charged := Charge(OpenFor(db, terms, period), environment, user, amount, 0);
    db.(accounts := TripSwitch(charged, environment),
        alerts := db.alerts + ThresholdAlerts(charged, environment, user))
  }

  /** Move an operation's reservation to settled cost, or give it back with settlement 0. */
  function Release(db: Database, o: Operation, settlement: int): Database {
    if o.terms.provider == Deterministic || o.reserved == 0 then db
    else db.(accounts := Charge(db.accounts, EnvironmentOf(o), UserOf(o), -o.reserved, settlement))
  }

  // ---------------------------------------------------------------------------------------
  // prepare
  // ---------------------------------------------------------------------------------------

  function NewOperation(
      root: OperationId, source: Option<OperationId>, terms: Terms, reserved: int, clock: Clock): Operation
  {
    Operation(
      root, source, terms, clock.month, clock.now, clock.now + terms.profile.totalDeadline,
      Prepared, None, None, false, None, None, None, 0, 0, reserved, 0, None, None)
  }

  datatype PrepareOutcome =
    | PreparedNow
    | DuplicatePreparation
    | InputConflict
    | PreparationRefused(refusal: Refusal)

  /** Create one operation, reserving its maximum cost first when that is positive. */
  function Prepare(db: Database, id: OperationId, terms: Terms, amount: int, clock: Clock)
    : (Database, PrepareOutcome)
  {
    if id in db.operations then
      (db, if db.operations[id].terms.digest != terms.digest then InputConflict else DuplicatePreparation)
    else
      var inserted := NewOperation(id, None, terms, amount, clock);
      if amount > 0 then
        var refusal := Refuses(
          OpenFor(db, terms, clock.month),
          EnvironmentMonth(terms.policy, clock.month), UserMonth(terms.user, clock.month), amount);
        if refusal.Some? then (db, PreparationRefused(refusal.value))
        else
          var charged := Reserve(db, terms, clock.month, amount);
          (charged.(operations := charged.operations[id := inserted]), PreparedNow)
      else (db.(operations := db.operations[id := inserted]), PreparedNow)
  }

  // ---------------------------------------------------------------------------------------
  // claim
  // ---------------------------------------------------------------------------------------

  /** Authority for exactly one provider call, as returned to the worker that claimed it. */
  datatype ClaimedAttempt = ClaimedAttempt(
    operation: OperationId,
    ordinal: nat,
    name: OperationName,
    provider: Provider,
    providerTimeout: int,
    totalDeadline: int,
    retryAvailable: bool)

  datatype ClaimOutcome =
    | Claimed(attempt: AttemptId, work: ClaimedAttempt)
    | AlreadyCompleted(completion: Completion)
    | RejectedBeforeDispatch(completion: Completion)
    | Deferred(retryAfter: int)
    | NotFound
    | Unavailable

  /** The stored summary of a finished operation. */
  function StoredCompletion(o: Operation, clock: Clock): Completion
    requires o.disposition.Some?
  {
    var delay := if o.retryNotBefore.None? then 0 else Max(0, o.retryNotBefore.value - clock.now);
    Completion(o.disposition.value, o.failure, if o.retryPlanned then ScheduleRetry(delay) else NoRetry)
  }

  function ExpiredRow(o: Operation, clock: Clock): Operation {
    o.(status := Terminal(Unknown), disposition := Some(Unknown), failure := Some(AttemptLeaseExpired),
       retryPlanned := false, retryNotBefore := None, attempt := None, leaseUntil := None,
       completedAt := Some(clock.now))
  }

  /** A wake-up finds the lease of the attempt in flight elapsed: the outcome stays unknown and
      the reservation is kept. */
  function Expire(db: Database, id: OperationId, clock: Clock): Database
    requires id in db.operations && db.operations[id].attempt.Some?
  {
    var a := db.operations[id].attempt.value;
    db.(attempts :=
          if a in db.attempts && db.attempts[a].disposition.None? then
            db.attempts[a := db.attempts[a].(
              disposition := Some(Unknown), failure := Some(AttemptLeaseExpired), retryPlanned := false,
              completedAt := Some(clock.now))]
          else db.attempts,
        operations := db.operations[id := ExpiredRow(db.operations[id], clock)])
  }

  function RejectedRow(o: Operation, failure: Failure, clock: Clock): Operation {
    o.(status := Terminal(Rejected), disposition := Some(Rejected), failure := Some(failure),
       retryPlanned := false, retryNotBefore := None, attempt := None, leaseUntil := None,
       reserved := 0, completedAt := Some(clock.now))
  }

  /** Refuse a dispatch before any call and give the whole reservation back. */
  function RejectClaim(db: Database, id: OperationId, failure: Failure, clock: Clock): Database
    requires id in db.operations
  {
    Release(db, db.operations[id], 0).(
      operations := db.operations[id := RejectedRow(db.operations[id], failure, clock)])
  }

  function DispatchesOn(db: Database, user: UserId, day: int): nat {
    if (user, day) in db.dispatches then db.dispatches[(user, day)] else 0
  }

  function DispatchedRow(o: Operation, newId: AttemptId, clock: Clock): Operation {
    o.(status := Dispatched, disposition := None, failure := None, retryPlanned := false,
       retryNotBefore := None, attempt := Some(newId), leaseUntil := Some(clock.now + ATTEMPT_LEASE),
       dispatches := o.dispatches + 1)
  }

  /** Insert the next attempt and hand the operation to it for the lease. */
  function Dispatch(db: Database, id: OperationId, newId: AttemptId, clock: Clock): Database
    requires id in db.operations
  {
    var o := db.operations[id];
    db.(dispatches :=
          if o.terms.provider == OpenAI then
            db.dispatches[(o.terms.user, clock.day) := DispatchesOn(db, o.terms.user, clock.day) + 1]
          else db.dispatches,
        attempts := db.attempts[newId := Attempt(
          id, o.dispatches + 1, clock.day, clock.now + ATTEMPT_LEASE, None, None, false, None, None)],
        operations := db.operations[id := DispatchedRow(o, newId, clock)])
  }

  function Work(o: Operation, id: OperationId, clock: Clock): ClaimedAttempt {
    ClaimedAttempt(
      id, o.dispatches + 1, o.terms.name, o.terms.provider,
      Min(o.terms.profile.providerTimeout, Max(1, o.deadlineAt - clock.now)),
      Max(1, o.deadlineAt - clock.now),
      o.retriesUsed < o.terms.profile.retryLimit)
  }

  /** The failure with which a claim of a waiting operation is refused, if it is. */
  function ClaimRefusal(db: Database, o: Operation, clock: Clock): Option<Failure> {
    if o.deadlineAt <= clock.now then Some(DeadlineExceededBeforeDispatch)
    else if o.dispatches >= o.terms.profile.maximumHttpDispatches then Some(DispatchLimitExceeded)
    else if o.terms.provider == Deterministic then None
    else if EnvironmentOf(o) !in db.accounts then None
    else if db.accounts[EnvironmentOf(o)].killSwitch then Some(KillSwitchEngaged)
    else if (o.terms.user, clock.day) in db.dispatches &&
            db.dispatches[(o.terms.user, clock.day)] >= o.terms.dailyLimit then Some(DailyDispatchLimitExceeded)
    else None
  }

  /** One wake-up asks for the right to call the provider. newId is the generated attempt id. */
  function Claim(db: Database, id: OperationId, newId: AttemptId, clock: Clock): (Database, ClaimOutcome) {
    if id !in db.operations then (db, NotFound)
    else
      var o := db.operations[id];
      if o.status.Terminal? then
        (db, if o.disposition.Some? then AlreadyCompleted(StoredCompletion(o, clock)) else Unavailable)
      else if o.status.Dispatched? then
        if o.attempt.None? || o.leaseUntil.None? then (db, Unavailable)
        else if o.leaseUntil.value > clock.now then (db, Deferred(Max(1, o.leaseUntil.value - clock.now)))
        else (Expire(db, id, clock), AlreadyCompleted(Completion(Unknown, Some(AttemptLeaseExpired), NoRetry)))
      else if o.status.RetryScheduled? && o.retryNotBefore.Some? && o.retryNotBefore.value > clock.now then
        (db, Deferred(Max(1, o.retryNotBefore.value - clock.now)))
      else
        var refusal := ClaimRefusal(db, o, clock);
        if refusal.Some? then
          (RejectClaim(db, id, refusal.value, clock), RejectedBeforeDispatch(Completion(Rejected, refusal, NoRetry)))
        else if newId in db.attempts || (o.terms.provider == OpenAI && EnvironmentOf(o) !in db.accounts) then
          (db, Unavailable)
        else (Dispatch(db, id, newId, clock), Claimed(newId, Work(o, id, clock)))
  }

  // ---------------------------------------------------------------------------------------
  // complete
  // ---------------------------------------------------------------------------------------

  datatype CompleteOutcome = Recorded(completion: Completion) | CompletionNotFound | CompletionUnavailable

  /** A requested retry waits at least a second and is dropped when it would pass the deadline. */
  function EffectivePlan(plan: RetryPlan, o: Operation, clock: Clock): RetryPlan {
    match plan
    case NoRetry => NoRetry
    case ScheduleRetry(delay) =>
      var waited := Max(MINIMUM_RETRY_DELAY, delay);
      if clock.now + waited <= o.deadlineAt then ScheduleRetry(waited) else NoRetry
  }

  function Settlement(o: Operation, completion: Completion, response: Option<Response>): int {
    if response.Some? then response.value.cost
    else if ConservativelyBillable(completion.failure) then o.reserved
    else 0
  }

  function FinishAttempt(
      db: Database, a: AttemptId, completion: Completion, response: Option<Response>, clock: Clock): Database
  {
    if a in db.attempts && db.attempts[a].disposition.None? then
      db.(attempts := db.attempts[a := db.attempts[a].(
        disposition := Some(completion.disposition), failure := completion.failure,
        retryPlanned := completion.plan.ScheduleRetry?,
        cost := if response.Some? then Some(response.value.cost) else None,
        completedAt := Some(clock.now))])
    else db
  }

  function ScheduledRow(o: Operation, completion: Completion, delay: int, clock: Clock): Operation {
    o.(status := RetryScheduled, disposition := Some(Rejected), failure := completion.failure,
       retryPlanned := true, retryNotBefore := Some(clock.now + delay), attempt := None, leaseUntil := None,
       retriesUsed := o.retriesUsed + 1)
  }

  function FinishedRow(o: Operation, completion: Completion, response: Option<Response>, clock: Clock): Operation {
    o.(status := Terminal(completion.disposition), disposition := Some(completion.disposition),
       failure := completion.failure, retryPlanned := false, retryNotBefore := None,
       attempt := None, leaseUntil := None,
       reserved := if completion.disposition == Unknown then o.reserved else 0,
       settled := o.settled + Settlement(o, completion, response),
       result := if response.None? || completion.disposition != Success then None else Some(response.value.output),
       completedAt := Some(clock.now))
  }

  /** Record the outcome of one attempt; only the attempt in flight can change the operation. */
  function Complete(
      db: Database, id: OperationId, a: AttemptId, requested: Completion, response: Option<Response>, clock: Clock)
    : (Database, CompleteOutcome)
  {
    if id !in db.operations then (db, CompletionNotFound)
    else
      var o := db.operations[id];
      if o.status != Dispatched || o.attempt != Some(a) then
        (db, if o.status.Terminal? && o.disposition.Some? then Recorded(StoredCompletion(o, clock))
             else CompletionUnavailable)
      else
        var completion := requested.(plan := EffectivePlan(requested.plan, o, clock));
        var finished := FinishAttempt(db, a, completion, response, clock);
        match completion.plan
        case ScheduleRetry(delay) =>
          (finished.(operations := finished.operations[id := ScheduledRow(o, completion, delay, clock)]),
           Recorded(completion))
        case NoRetry =>
          var released :=
            if completion.disposition == Unknown then finished
            else Release(finished, o, Settlement(o, completion, response));
          (released.(operations := released.operations[id := FinishedRow(o, completion, response, clock)]),
           Recorded(completion))
  }

  // ---------------------------------------------------------------------------------------
  // restart
  // ---------------------------------------------------------------------------------------

  datatype RestartOutcome =
    | Restarted
    | DuplicateRestart
    | RestartConflict
    | SourceNotFound
    | SourceNotUnknown
    | RestartLimitExhausted
    | RestartRefused(refusal: Refusal)

  /** The operations of one lineage that were created by a restart. */
  function Restarts(operations: map<OperationId, Operation>, root: OperationId): set<OperationId> {
    set id | id in operations && operations[id].root == root && operations[id].restartedFrom.Some?
  }

  /** Spend the explicit restart grant of a lineage on a new operation linked to its source. */
  function Restart(db: Database, user: UserId, source: OperationId, id: OperationId, clock: Clock)
    : (Database, RestartOutcome)
  {
    if source !in db.operations || db.operations[source].terms.user != user then (db, SourceNotFound)
    else
      var o := db.operations[source];
      if id in db.operations then
        var existing := db.operations[id];
        (db, if existing.root != o.root || existing.restartedFrom != Some(source) || existing.terms.user != user
             then RestartConflict else DuplicateRestart)
      else if o.status != Terminal(Unknown) then (db, SourceNotUnknown)
      else if |Restarts(db.operations, o.root)| >= o.terms.restartLimit then (db, RestartLimitExhausted)
      else
        var inserted := NewOperation(o.root, Some(source), o.terms, o.reserved, clock);
        if o.terms.provider == OpenAI && o.reserved > 0 then
          var refusal := Refuses(
            OpenFor(db, o.terms, clock.month),
            EnvironmentMonth(o.terms.policy, clock.month), UserMonth(o.terms.user, clock.month), o.reserved);
          if refusal.Some? then (db, RestartRefused(refusal.value))
          else
            var charged := Reserve(db, o.terms, clock.month, o.reserved);
            (charged.(operations := charged.operations[id := inserted]), Restarted)
        else (db.(operations := db.operations[id := inserted]), Restarted)
  }
}
