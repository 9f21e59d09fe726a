/** Money: the two monthly accounts of every operation always agree with the operations charged to
    them, and never go below zero. */
module ModelBudget {
  import opened Common
  import opened ModelRegistry
  import opened ModelGateway
  import opened ModelDatabase
  import opened ModelRuns
  import opened ModelEffects
  import opened ModelMachine

  predicate ChargedTo(o: Operation, key: AccountKey) {
    o.terms.provider == OpenAI && (key == EnvironmentOf(o) || key == UserOf(o))
  }

  function ReservedFor(key: AccountKey): Operation -> int {
    (o: Operation) => if ChargedTo(o, key) then o.reserved else 0
  }

  function SettledFor(key: AccountKey): Operation -> int {
    (o: Operation) => if ChargedTo(o, key) then o.settled else 0
  }

  function BalanceOf(accounts: map<AccountKey, Account>, key: AccountKey): (int, int) {
    if key in accounts then (accounts[key].reserved, accounts[key].settled) else (0, 0)
  }

  ghost predicate Balanced(db: Database, key: AccountKey) {
    BalanceOf(db.accounts, key) == (Sum(db.operations, ReservedFor(key)), Sum(db.operations, SettledFor(key)))
  }

  /** Every account holds exactly the reserved and settled cost of the provider operations charged
      to it, and every such operation has both its accounts. */
  ghost predicate Conserved(db: Database) {
    && (forall key :: Balanced(db, key))
    && (forall id, key :: id in db.operations && ChargedTo(db.operations[id], key) ==> key in db.accounts)
  }

  // ---------------------------------------------------------------------------------------
  // Conservation
  // ---------------------------------------------------------------------------------------

  /** Rewriting one row conserves money when the accounts move by the row's differences. */
  lemma RewriteConserves(db: Database, after: Database, id: OperationId, o: Operation)
    requires Conserved(db) && id in db.operations
    requires o.terms == db.operations[id].terms && o.period == db.operations[id].period
    requires after.operations == db.operations[id := o]
    requires var prior := db.operations[id];
             after.accounts ==
             if o.terms.provider == OpenAI then
               Charge(db.accounts, EnvironmentOf(o), UserOf(o), o.reserved - prior.reserved, o.settled - prior.settled)
             else db.accounts
    ensures Conserved(after)
  {
    forall key
      ensures Balanced(after, key)
    {
      assert Balanced(db, key);
      SumWrite(db.operations, ReservedFor(key), id, o);
      SumWrite(db.operations, SettledFor(key), id, o);
    }
  }

  lemma ChargingNothing(accounts: map<AccountKey, Account>, environment: AccountKey, user: AccountKey)
    ensures Charge(accounts, environment, user, 0, 0) == accounts
  {
  }

  /** Reserving opens missing accounts empty and adds the amount to exactly two balances. */
  lemma ReserveBalances(db: Database, terms: Terms, period: int, amount: int, key: AccountKey)
    ensures var accounts := Reserve(db, terms, period, amount).accounts;
            var mine := key == EnvironmentMonth(terms.policy, period) || key == UserMonth(terms.user, period);
            && (key in accounts <==> key in db.accounts || mine)
            && BalanceOf(accounts, key).0 == BalanceOf(db.accounts, key).0 + (if mine then amount else 0)
            && BalanceOf(accounts, key).1 == BalanceOf(db.accounts, key).1
  {
  }

  /** Reserving and inserting conserves money. */
  lemma InsertConserves(db: Database, after: Database, id: OperationId, o: Operation)
    requires Conserved(db) && Inserts(db, after, id, o)
    requires OperationFits(o) && o.attempt.None? && o.dispatches == 0 && o.settled == 0
    requires o.reserved == Reservation(o.terms)
    ensures Conserved(after)
  {
    hide Balanced, Inserts, OperationFits;
    forall key
      ensures Balanced(after, key)
    {
      assert Balanced(db, key);
      InsertBalances(db, after, id, o, key);
    }
    forall i, key | i in after.operations && ChargedTo(after.operations[i], key)
      ensures key in after.accounts
    {
      InsertBalances(db, after, id, o, key);
    }
  }

  lemma InsertBalances(db: Database, after: Database, id: OperationId, o: Operation, key: AccountKey)
    requires Balanced(db, key) && Inserts(db, after, id, o) && OperationFits(o)
    requires o.settled == 0 && o.reserved == Reservation(o.terms)
    ensures Balanced(after, key) && after.operations == db.operations[id := o] && id !in db.operations
    ensures key in after.accounts <==> key in db.accounts || ChargedTo(o, key)
  {
    assert o.terms.provider == OpenAI ==> o.reserved > 0;
    hide Reserve, OperationFits, Refuses;
    ReserveBalances(db, o.terms, o.period, o.reserved, key);
    SumWrite(db.operations, ReservedFor(key), id, o);
    SumWrite(db.operations, SettledFor(key), id, o);
  }

  /** The completion of the attempt in flight moves its own reservation and settlement and nothing
      else; an unknown outcome moves nothing. */
  lemma CompletionMovesMoney(s: System, a: AttemptId, outcome: GatewayOutcome, clock: Clock)
    requires CanComplete(s, a) && OperationFits(s.db.operations[s.issued[a].operation])
    ensures var id := s.issued[a].operation;
            var prior := s.db.operations[id];
            var after := Completed(s, a, outcome, clock);
            id in after.operations &&
            var o := after.operations[id];
            && o.terms == prior.terms && o.period == prior.period
            && after.operations == s.db.operations[id := o]
            && after.accounts ==
               (if o.terms.provider == OpenAI then
                  Charge(s.db.accounts, EnvironmentOf(o), UserOf(o), o.reserved - prior.reserved,
                         o.settled - prior.settled)
                else s.db.accounts)
            && (o.status == RetryScheduled || o.status == Terminal(Unknown) ==>
                  o.reserved == prior.reserved && o.settled == prior.settled)
            && (o.status != RetryScheduled && o.status != Terminal(Unknown) ==>
                  o.reserved == 0 &&
                  o.settled == Settlement(prior, EffectiveCompletion(s, a, outcome, clock), ReportedResponse(outcome)))
  {
    var prior := s.db.operations[s.issued[a].operation];
    ChargingNothing(s.db.accounts, EnvironmentOf(prior), UserOf(prior));
  }

  /** The accounts of a paid operation move by two differences; all else about the accounts stays. */
  ghost predicate AccountsMove(
      before: map<AccountKey, Account>, after: map<AccountKey, Account>, o: Operation, reserved: int, settled: int)
  {
    && after.Keys == before.Keys
    && forall key :: key in before ==>
         && after[key].reserved == before[key].reserved + (if ChargedTo(o, key) then reserved else 0)
         && after[key].settled == before[key].settled + (if ChargedTo(o, key) then settled else 0)
         && after[key].ceiling == before[key].ceiling
         && after[key].killSwitch == before[key].killSwitch
  }

  lemma ChargeMoves(
      before: map<AccountKey, Account>, after: map<AccountKey, Account>, prior: Operation, o: Operation,
      reserved: int, settled: int)
    requires o.terms == prior.terms && o.period == prior.period
    requires after == if o.terms.provider == OpenAI then Charge(before, EnvironmentOf(o), UserOf(o), reserved, settled)
                      else before
    ensures AccountsMove(before, after, prior, reserved, settled)
  {
  }

  lemma ChargedAccounts(db: Database, id: OperationId)
    requires Conserved(db) && id in db.operations
    ensures forall key :: ChargedTo(db.operations[id], key) ==> key in db.accounts
  {
    hide Balanced;
  }

  lemma RejectionMovesMoney(db: Database, id: OperationId, failure: Failure, clock: Clock)
    requires id in db.operations && OperationFits(db.operations[id]) && Waiting(db.operations[id])
    ensures var prior := db.operations[id];
            var o := RejectedRow(prior, failure, clock);
            RejectClaim(db, id, failure, clock).accounts ==
            if o.terms.provider == OpenAI then
              Charge(db.accounts, EnvironmentOf(o), UserOf(o), o.reserved - prior.reserved, o.settled - prior.settled)
            else db.accounts
  {
  }

  lemma WakeUpConserves(s: System, id: OperationId, newId: AttemptId, clock: Clock)
    requires MachineInvariant(s) && Conserved(s.db)
    ensures Conserved(Step(s, WakeUp(id, newId, clock)).db)
  {
    var after := Step(s, WakeUp(id, newId, clock));
    hide Step, OperationFits, AttemptsFit, Conserved;
    WakeUpEffect(s, id, newId, clock);
    if after != s {
      var o := s.db.operations[id];
      assert OneFits(s.db.operations, s.db.attempts, id);
      ChargingNothing(s.db.accounts, EnvironmentOf(o), UserOf(o));
      if !CanDispatch(s.db, id, newId, clock) && !CanExpire(s.db, id, clock) {
        RejectionMovesMoney(s.db, id, ClaimRefusal(s.db, o, clock).value, clock);
      }
      RewriteConserves(s.db, after.db, id, after.db.operations[id]);
    }
  }

  lemma FinishConserves(s: System, a: AttemptId, outcome: GatewayOutcome, clock: Clock)
    requires MachineInvariant(s) && Conserved(s.db)
    ensures Conserved(Step(s, Finish(a, outcome, clock)).db)
  {
    hide Step, OperationFits, AttemptsFit, Conserved;
    FinishEffect(s, a, outcome, clock);
    if CanComplete(s, a) {
      var id := s.issued[a].operation;
      var after := Completed(s, a, outcome, clock);
      assert OneFits(s.db.operations, s.db.attempts, id);
      CompletionMovesMoney(s, a, outcome, clock);
      hide Completed;
      RewriteConserves(s.db, after, id, after.operations[id]);
    }
  }

  lemma StepConserves(s: System, e: Event)
    requires MachineInvariant(s) && Conserved(s.db)
    ensures Conserved(Step(s, e).db)
  {
    var after := Step(s, e).db;
    hide Step, OperationFits, AttemptsFit, Conserved, Inserts;
    match e
    case Ask(id, request, clock) =>
      AskEffect(s, id, request, clock);
      if Step(s, e) != s {
        NewRowFits(after.operations[id], id, request, clock);
        InsertConserves(s.db, after, id, after.operations[id]);
      }
    case AskRestart(user, source, id, clock) =>
      RestartEffect(s, user, source, id, clock);
      if Step(s, e) != s {
        assert OneFits(s.db.operations, s.db.attempts, source);
        RestartedRowFits(s.db, after.operations[id], source, clock);
        InsertConserves(s.db, after, id, after.operations[id]);
      }
    case WakeUp(id, newId, clock) => WakeUpConserves(s, id, newId, clock);
    case Finish(a, outcome, clock) => FinishConserves(s, a, outcome, clock);
  }

  /** Budget conservation over every interleaving of requests, wake-ups, late, lost and repeated
      completions, lease recoveries and restarts. */
  lemma {:induction false} MoneyIsConserved(s: System, events: seq<Event>)
    requires MachineInvariant(s) && Conserved(s.db)
    ensures Conserved(Run(s, events).db)
    decreases |events|
  {
    if events != [] {
      StepConserves(s, events[0]);
      StepKeepsMachine(s, events[0]);
      hide Step, MachineInvariant, Conserved;
      MoneyIsConserved(Step(s, events[0]), events[1..]);
    }
  }

  lemma InitialConserved()
    ensures Conserved(INITIAL.db)
  {
    forall key
      ensures Balanced(INITIAL.db, key)
    {
    }
  }

  /** The CHECK on account amounts can never fail: releasing a reservation never takes an account
      below zero, because the account still holds the reservations of all other operations. */
  lemma AccountsNeverNegative(s: System, key: AccountKey)
    requires MachineInvariant(s) && Conserved(s.db) && key in s.db.accounts
    ensures 0 <= s.db.accounts[key].reserved && 0 <= s.db.accounts[key].settled
    ensures forall id :: id in s.db.operations && ChargedTo(s.db.operations[id], key) ==>
              s.db.operations[id].reserved <= s.db.accounts[key].reserved
  {
    assert Balanced(s.db, key);
    forall id | id in s.db.operations
      ensures 0 <= ReservedFor(key)(s.db.operations[id]) && 0 <= SettledFor(key)(s.db.operations[id])
    {
      assert OneFits(s.db.operations, s.db.attempts, id);
    }
    SumNonNegative(s.db.operations, ReservedFor(key));
    SumNonNegative(s.db.operations, SettledFor(key));
    forall id | id in s.db.operations && ChargedTo(s.db.operations[id], key)
      ensures s.db.operations[id].reserved <= s.db.accounts[key].reserved
    {
      SumBoundsRow(s.db.operations, ReservedFor(key), id);
    }
  }
}
