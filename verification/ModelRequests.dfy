/** What a request and a restart are answered, in every state of the tables, and what an accepted one
    books on the two accounts of its month. */
module ModelRequests {
  import opened Common
  import opened ModelRegistry
  import opened ModelGateway
  import opened ModelDatabase
  import opened ModelRuns
  import opened ModelEffects
  import opened ModelMachine
  import opened ModelBudget
  import opened ModelSpend
  import opened ModelLineage
  import opened ModelTheorems

  // ---------------------------------------------------------------------------------------
  // The budget of a month
  // ---------------------------------------------------------------------------------------

  /** What the operations charged to an account still reserve and have cost together. */
  ghost function SpentOn(db: Database, key: AccountKey): int {
    Sum(db.operations, ReservedFor(key)) + Sum(db.operations, SettledFor(key))
  }

  /** The ceiling of an account is fixed when it is opened, from the registry. */
  function CeilingOf(db: Database, key: AccountKey, policy: Policy): nat {
    if key in db.accounts then db.accounts[key].ceiling
    else match key
         case EnvironmentMonth(_, _) => if policy == DevelopmentStaging then 1_000_000 else 5_000_000
         case UserMonth(_, _) => if policy == DevelopmentStaging then 1_000_000 else 250_000
  }

  predicate Off(db: Database, policy: Policy, month: int) {
    EnvironmentMonth(policy, month) in db.accounts && db.accounts[EnvironmentMonth(policy, month)].killSwitch
  }

  /** The amount does not fit below the ceiling any more. */
  ghost predicate Over(db: Database, key: AccountKey, policy: Policy, amount: int) {
    SpentOn(db, key) + amount > CeilingOf(db, key, policy)
  }

  /** Why a month refuses a paid operation: the switch first, then the environment, then the user. */
  ghost function MonthRefuses(db: Database, policy: Policy, user: UserId, month: int, amount: int): Option<Refusal> {
    if Off(db, policy, month) then Some(SwitchedOff)
    else if Over(db, EnvironmentMonth(policy, month), policy, amount) then Some(EnvironmentExceeded)
    else if Over(db, UserMonth(user, month), policy, amount) then Some(UserExceeded)
    else None
  }

  predicate FromRegistry(terms: Terms) {
    && terms.environmentCeiling == EnvironmentCeiling(terms.policy)
    && terms.userCeiling == UserCeiling(terms.policy)
  }

  lemma BudgetDecides(db: Database, terms: Terms, month: int, amount: int)
    requires Conserved(db) && FromRegistry(terms)
    ensures Refuses(
              OpenFor(db, terms, month), EnvironmentMonth(terms.policy, month), UserMonth(terms.user, month), amount) ==
            MonthRefuses(db, terms.policy, terms.user, month, amount)
  {
    assert Balanced(db, EnvironmentMonth(terms.policy, month));
    assert Balanced(db, UserMonth(terms.user, month));
  }

  /** The accounts and alerts after an amount was booked on both accounts of a month: they are opened where
      missing, the environment is switched off when it is full, and exactly the due alerts are added. */
  ghost predicate Booked(db: Database, after: Database, policy: Policy, user: UserId, month: int, amount: int) {
    var environment, own := EnvironmentMonth(policy, month), UserMonth(user, month);
    && after.accounts.Keys == db.accounts.Keys + {environment, own}
    && (forall key :: key in after.accounts ==>
          BookedAccount(db, after, key, key == environment || key == own, environment, policy, amount))
    && (forall key, threshold :: (key, threshold) in after.alerts <==>
          (key, threshold) in db.alerts || ((key == environment || key == own) && DueOn(after, key, threshold)))
  }

  predicate BookedAccount(
      db: Database, after: Database, key: AccountKey, mine: bool, environment: AccountKey, policy: Policy, amount: int)
    requires key in after.accounts
  {
    var account := after.accounts[key];
    && account.ceiling == CeilingOf(db, key, policy)
    && account.reserved == BalanceOf(db.accounts, key).0 + (if mine then amount else 0)
    && account.settled == BalanceOf(db.accounts, key).1
    && (account.killSwitch <==>
          (key in db.accounts && db.accounts[key].killSwitch) || (key == environment && IsFull(account)))
  }

  predicate DueOn(db: Database, key: AccountKey, threshold: int) {
    key in db.accounts && IsDue(db.accounts[key], threshold)
  }

  predicate IsFull(account: Account) {
    account.ceiling > 0 && account.reserved + account.settled >= account.ceiling
  }

  predicate IsDue(account: Account, threshold: int) {
    && threshold in {50, 80, 90, 100}
    && account.ceiling > 0 && (account.reserved + account.settled) * 100 >= account.ceiling * threshold
  }

  lemma ReserveBooks(db: Database, terms: Terms, month: int, amount: int)
    requires FromRegistry(terms)
    ensures Booked(db, Reserve(db, terms, month, amount), terms.policy, terms.user, month, amount)
  {
    var after := Reserve(db, terms, month, amount);
    var environment, own := EnvironmentMonth(terms.policy, month), UserMonth(terms.user, month);
    forall key | key in after.accounts
      ensures BookedAccount(db, after, key, key == environment || key == own, environment, terms.policy, amount)
    {
      ReserveBooksAccount(db, terms, month, amount, key);
    }
    forall key, threshold
      ensures (key, threshold) in after.alerts <==>
              (key, threshold) in db.alerts || ((key == environment || key == own) && DueOn(after, key, threshold))
    {
      ReserveAlerts(db, terms, month, amount, key, threshold);
    }
    ReservedKeys(db, terms, month, amount);
    hide *;
  }

  lemma ReservedKeys(db: Database, terms: Terms, month: int, amount: int)
    ensures Reserve(db, terms, month, amount).accounts.Keys ==
            db.accounts.Keys + {EnvironmentMonth(terms.policy, month), UserMonth(terms.user, month)}
  {
  }

  lemma ReserveBooksAccount(db: Database, terms: Terms, month: int, amount: int, key: AccountKey)
    requires FromRegistry(terms) && key in Reserve(db, terms, month, amount).accounts
    ensures var environment, own := EnvironmentMonth(terms.policy, month), UserMonth(terms.user, month);
            BookedAccount(
              db, Reserve(db, terms, month, amount), key, key == environment || key == own, environment, terms.policy,
              amount)
  {
    hide ThresholdAlerts;
  }

  lemma ReserveAlerts(db: Database, terms: Terms, month: int, amount: int, key: AccountKey, threshold: int)
    ensures var after := Reserve(db, terms, month, amount);
            (key, threshold) in after.alerts <==>
            || (key, threshold) in db.alerts
            || ((key == EnvironmentMonth(terms.policy, month) || key == UserMonth(terms.user, month)) &&
                DueOn(after, key, threshold))
  {
    hide OpenFor;
  }

  /** The accounts and alerts after a new operation. */
  ghost predicate Accounted(db: Database, after: Database, o: Operation, month: int) {
    if o.terms.provider == OpenAI then Booked(db, after, o.terms.policy, o.terms.user, month, o.reserved)
    else after.accounts == db.accounts && after.alerts == db.alerts
  }

  /** Milliseconds from its creation after which an operation of each kind starts no call. */
  function TimeInAll(name: OperationName): int {
    match name
    case QuerySlots => 6_000
    case Extract => 4_000
    case ExtractMany => 10_000
  }

  /** A new row: waiting for its first call, with a deadline, and its maximum cost reserved if it is paid. */
  predicate Fresh(o: Operation, terms: Terms, clock: Clock) {
    && o.terms == terms && o.status == Prepared
    && o.createdAt == clock.now && o.period == clock.month
    && o.deadlineAt == clock.now + TimeInAll(terms.name)
    && o.reserved == (if terms.provider == OpenAI then ProfileOf(terms.name).maximumCost else 0)
    && o.settled == 0 && o.dispatches == 0 && o.retriesUsed == 0
    && o.disposition.None? && o.failure.None? && o.retryNotBefore.None? && o.attempt.None? && o.leaseUntil.None?
    && o.result.None? && o.completedAt.None? && !o.retryPlanned
  }

  // ---------------------------------------------------------------------------------------
  // Requests
  // ---------------------------------------------------------------------------------------

  predicate WellFormed(request: Request) {
    && request.canonicalInput != ""
    && |Utf8(request.canonicalInput)| <= ProfileOf(request.name).maximumInputBytes
    && |request.digest| == 64
    && forall c :: c in request.digest ==> c in "0123456789abcdef"
  }

  /** A request is invalid, repeats an operation with the same input, conflicts with one of another input,
      is refused by the budget of the month, or is prepared; only the last one changes the tables. */
  lemma RequestDecides(s: System, id: OperationId, request: Request, clock: Clock)
    requires SystemFits(s)
    ensures var (after, outcome) := PrepareModelOperation(s.db, id, request, clock);
            var refusal :=
              if request.provider == Deterministic then None
              else MonthRefuses(
                s.db, request.policy, request.user, clock.month, ProfileOf(request.name).maximumCost);
            && outcome ==
               (if !WellFormed(request) then InvalidRequest
                else Answer(
                  if id in s.db.operations && s.db.operations[id].terms.digest == request.digest then
                    DuplicatePreparation
                  else if id in s.db.operations then InputConflict
                  else if refusal.Some? then PreparationRefused(refusal.value)
                  else PreparedNow))
            && (outcome != Answer(PreparedNow) ==> after == s.db)
  {
    hide SystemFits, Refuses, MonthRefuses, Reserve, Utf8, Conserved;
    FittingParts(s);
    WellFormedIff(request);
    if request.provider == OpenAI {
      BudgetDecides(s.db, TermsFor(request), clock.month, ProfileOf(request.name).maximumCost);
    }
  }

  lemma WellFormedIff(request: Request)
    ensures WellFormed(request) <==> Acceptable(request)
  {
    hide Utf8;
    if Acceptable(request) {
      forall c | c in request.digest ensures c in "0123456789abcdef" {
        var i :| 0 <= i < |request.digest| && request.digest[i] == c;
        HexDigit(c);
      }
    }
    forall i | 0 <= i < |request.digest| {
      HexDigit(request.digest[i]);
    }
  }

  lemma HexDigit(c: char)
    ensures c in "0123456789abcdef" <==> '0' <= c <= '9' || 'a' <= c <= 'f'
  {
  }

  /** A prepared operation is its own root, with the terms of the registry for its request. */
  lemma PreparedTables(s: System, id: OperationId, request: Request, clock: Clock)
    requires SystemFits(s) && PrepareModelOperation(s.db, id, request, clock).1 == Answer(PreparedNow)
    ensures var after := PrepareModelOperation(s.db, id, request, clock).0;
            && id in after.operations && after.operations == s.db.operations[id := after.operations[id]]
            && after.attempts == s.db.attempts && after.dispatches == s.db.dispatches
            && var o := after.operations[id];
            && o.root == id && o.restartedFrom.None? && Fresh(o, TermsFor(request), clock)
            && Accounted(s.db, after, o, clock.month)
  {
    hide SystemFits, Refuses, Reserve, Booked, Acceptable;
    if request.provider == OpenAI {
      var terms := TermsFor(request);
      ReserveBooks(s.db, terms, clock.month, terms.profile.maximumCost);
      ReserveElsewhere(s.db, terms, clock.month, terms.profile.maximumCost);
      InsertBooks(
        s.db, Reserve(s.db, terms, clock.month, terms.profile.maximumCost),
        PrepareModelOperation(s.db, id, request, clock).0, terms, clock.month, terms.profile.maximumCost);
    }
  }

  lemma ReserveElsewhere(db: Database, terms: Terms, month: int, amount: int)
    ensures var after := Reserve(db, terms, month, amount);
            after.operations == db.operations && after.attempts == db.attempts && after.dispatches == db.dispatches
  {
  }

  /** Booking is about accounts and alerts only. */
  lemma InsertBooks(db: Database, charged: Database, after: Database, terms: Terms, month: int, amount: int)
    requires Booked(db, charged, terms.policy, terms.user, month, amount)
    requires after.accounts == charged.accounts && after.alerts == charged.alerts
    ensures Booked(db, after, terms.policy, terms.user, month, amount)
  {
  }

  // ---------------------------------------------------------------------------------------
  // Restarts
  // ---------------------------------------------------------------------------------------

  /** Some operation of the lineage is a restart. */
  predicate AlreadyRestarted(db: Database, root: OperationId) {
    exists id :: id in db.operations && db.operations[id].root == root && id != root
  }

  /** A restart needs the user's own operation, whose outcome is unknown, in a lineage that was not restarted
      yet, and room in the budget of the month for what the operation reserves. */
  lemma RestartDecides(s: System, user: UserId, source: OperationId, id: OperationId, clock: Clock)
    requires SystemFits(s)
    ensures var (after, outcome) := Restart(s.db, user, source, id, clock);
            && (outcome == SourceNotFound <==>
                  source !in s.db.operations || s.db.operations[source].terms.user != user)
            && (outcome != Restarted ==> after == s.db)
            && (outcome != SourceNotFound ==>
                  var o := s.db.operations[source];
                  var refusal :=
                    if o.terms.provider == Deterministic then None
                    else MonthRefuses(s.db, o.terms.policy, user, clock.month, ProfileOf(o.terms.name).maximumCost);
                  outcome ==
                  if id in s.db.operations then
                    if s.db.operations[id].restartedFrom == Some(source) then DuplicateRestart else RestartConflict
                  else if o.status != Terminal(Unknown) then SourceNotUnknown
                  else if AlreadyRestarted(s.db, o.root) then RestartLimitExhausted
                  else if refusal.Some? then RestartRefused(refusal.value)
                  else Restarted)
  {
    hide SystemFits, Refuses, MonthRefuses, Reserve, Conserved, MachineInvariant, Restarts, AlreadyRestarted, Descends;
    FittingParts(s);
    if source in s.db.operations {
      var o := s.db.operations[source];
      RowOf(s, source);
      assert Descends(s.db.operations, source);
      LineageCount(s.db, source);
      if id in s.db.operations {
        assert Descends(s.db.operations, id);
        SameLineage(s.db.operations, source, id);
      }
      if o.terms.provider == OpenAI {
        BudgetDecides(s.db, o.terms, clock.month, o.reserved);
      }
    }
  }

  lemma SameLineage(operations: map<OperationId, Operation>, source: OperationId, id: OperationId)
    requires source in operations && id in operations
    requires Descends(operations, source) && Descends(operations, id)
    ensures operations[id].restartedFrom == Some(source) ==>
              operations[id].root == operations[source].root == source &&
              operations[id].terms == operations[source].terms
  {
  }

  lemma LineageCount(db: Database, source: OperationId)
    requires LineageInvariant(db.operations) && source in db.operations
    ensures AlreadyRestarted(db, db.operations[source].root) <==>
            |Restarts(db.operations, db.operations[source].root)| >= db.operations[source].terms.restartLimit
  {
    var root := db.operations[source].root;
    var restarts := Restarts(db.operations, root);
    if AlreadyRestarted(db, root) {
      var id :| id in db.operations && db.operations[id].root == root && id != root;
      assert Descends(db.operations, id);
      SubsetCount({id}, restarts);
    }
    if |restarts| >= 1 {
      var id :| id in restarts;
      assert Descends(db.operations, id);
    }
  }

  /** A granted restart is a new operation with the terms of its source, which stays as it is. */
  lemma RestartedTables(s: System, user: UserId, source: OperationId, id: OperationId, clock: Clock)
    requires SystemFits(s) && Restart(s.db, user, source, id, clock).1 == Restarted
    ensures source in s.db.operations
    ensures var after := Restart(s.db, user, source, id, clock).0;
            && id in after.operations && after.operations == s.db.operations[id := after.operations[id]]
            && after.attempts == s.db.attempts && after.dispatches == s.db.dispatches
            && var from, o := s.db.operations[source], after.operations[id];
            && source != id && o.root == from.root && o.restartedFrom == Some(source)
            && Fresh(o, from.terms, clock)
            && Accounted(s.db, after, o, clock.month)
  {
    hide SystemFits, Refuses, Reserve, Booked, Conserved, MachineInvariant, LineageInvariant, Restarts;
    FittingParts(s);
    RowOf(s, source);
    var o := s.db.operations[source];
    if o.terms.provider == OpenAI {
      ReserveBooks(s.db, o.terms, clock.month, o.reserved);
      ReserveElsewhere(s.db, o.terms, clock.month, o.reserved);
      InsertBooks(
        s.db, Reserve(s.db, o.terms, clock.month, o.reserved), Restart(s.db, user, source, id, clock).0, o.terms,
        clock.month, o.reserved);
    }
  }
}
