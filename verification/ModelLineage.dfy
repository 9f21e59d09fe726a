/** Restarts and the daily ceiling: every restart hangs off a root whose outcome stays unknown, a
    lineage is bounded in operations and in chargeable calls, and each user's daily counter is the
    number of provider calls started that day. */
module ModelLineage {
  import opened Common
  import opened ModelRegistry
  import opened ModelGateway
  import opened ModelDatabase
  import opened ModelRuns
  import opened ModelEffects
  import opened ModelMachine
  import opened ModelProgress

  // ---------------------------------------------------------------------------------------
  // Restart lineage
  // ---------------------------------------------------------------------------------------

  /** An operation is its own root, or a restart of a root with the same terms whose outcome is
      unknown. Lineages are therefore two generations deep and cannot be cyclic. */
  predicate Descends(operations: map<OperationId, Operation>, id: OperationId)
    requires id in operations
  {
    var o := operations[id];
    && o.root in operations
    && operations[o.root].root == o.root
    && operations[o.root].restartedFrom.None?
    && operations[o.root].terms == o.terms
    && (o.restartedFrom.None? <==> o.root == id)
    && (o.restartedFrom.Some? ==> o.restartedFrom.value == o.root && operations[o.root].status == Terminal(Unknown))
  }

  ghost predicate LineageInvariant(operations: map<OperationId, Operation>) {
    forall id :: id in operations ==>
      && Descends(operations, id)
      && |Restarts(operations, operations[id].root)| <= operations[id].terms.restartLimit == EXPLICIT_RESTART_LIMIT
  }

  lemma NewRootKeepsLineage(operations: map<OperationId, Operation>, id: OperationId, o: Operation)
    requires LineageInvariant(operations) && id !in operations
    requires o.root == id && o.restartedFrom.None? && o.terms.restartLimit == EXPLICIT_RESTART_LIMIT
    ensures LineageInvariant(operations[id := o])
  {
    var after := operations[id := o];
    forall other | other in after
      ensures Descends(after, other)
      ensures |Restarts(after, after[other].root)| <= 1 == after[other].terms.restartLimit
    {
      if other == id {
        assert Restarts(after, id) == {};
      } else {
        assert Descends(operations, other);
        assert Restarts(after, after[other].root) == Restarts(operations, after[other].root);
      }
    }
  }

  lemma RestartKeepsLineage(operations: map<OperationId, Operation>, source: OperationId, id: OperationId, o: Operation)
    requires LineageInvariant(operations) && id !in operations && source in operations
    requires operations[source].status == Terminal(Unknown)
    requires |Restarts(operations, operations[source].root)| < operations[source].terms.restartLimit
    requires o.root == operations[source].root && o.restartedFrom == Some(source) && o.terms == operations[source].terms
    ensures LineageInvariant(operations[id := o])
  {
    var after := operations[id := o];
    assert Descends(operations, source);
    assert source !in Restarts(operations, o.root) by {
      assert Restarts(operations, o.root) == {};
    }
    forall other | other in after
      ensures Descends(after, other)
      ensures |Restarts(after, after[other].root)| <= 1 == after[other].terms.restartLimit
    {
      assert other != id ==> Descends(operations, other);
      if after[other].root == o.root {
        assert Restarts(after, o.root) == {id};
      } else {
        assert Restarts(after, after[other].root) == Restarts(operations, after[other].root);
      }
    }
  }

  predicate SameDescent(o: Operation, prior: Operation) {
    && o.terms == prior.terms && o.root == prior.root && o.restartedFrom == prior.restartedFrom
    && (prior.status == Terminal(Unknown) ==> o.status == Terminal(Unknown))
  }

  lemma RewrittenDescends(operations: map<OperationId, Operation>, id: OperationId, o: Operation, other: OperationId)
    requires LineageInvariant(operations) && id in operations && SameDescent(o, operations[id]) && other in operations
    ensures Descends(operations[id := o], other)
  {
    assert Descends(operations, other);
    hide LineageInvariant;
  }

  lemma RewriteKeepsLineage(operations: map<OperationId, Operation>, id: OperationId, o: Operation)
    requires LineageInvariant(operations) && id in operations && SameDescent(o, operations[id])
    ensures LineageInvariant(operations[id := o])
  {
    var after := operations[id := o];
    forall other | other in after
      ensures Descends(after, other)
      ensures |Restarts(after, after[other].root)| <= 1 == after[other].terms.restartLimit
    {
      RewrittenDescends(operations, id, o, other);
      assert Restarts(after, after[other].root) == Restarts(operations, operations[other].root);
    }
  }

  lemma StepKeepsLineage(s: System, e: Event)
    requires LineageInvariant(s.db.operations)
    ensures LineageInvariant(Step(s, e).db.operations)
  {
    var after := Step(s, e).db;
    hide Step, LineageInvariant, Reserve, Refuses;
    match e
    case Ask(id, request, clock) =>
      AskEffect(s, id, request, clock);
      if Step(s, e) != s {
        NewRootKeepsLineage(s.db.operations, id, after.operations[id]);
      }
    case AskRestart(user, source, id, clock) =>
      RestartEffect(s, user, source, id, clock);
      if Step(s, e) != s {
        RestartKeepsLineage(s.db.operations, source, id, after.operations[id]);
      }
    case WakeUp(id, newId, clock) =>
      WakeUpEffect(s, id, newId, clock);
      if Step(s, e) != s {
        RewriteKeepsLineage(s.db.operations, id, after.operations[id]);
      }
    case Finish(a, outcome, clock) =>
      FinishEffect(s, a, outcome, clock);
      if CanComplete(s, a) {
        RewriteKeepsLineage(s.db.operations, s.issued[a].operation, after.operations[s.issued[a].operation]);
      }
  }

  /** The lineage rules hold after every run. */
  lemma {:induction false} LineageHolds(s: System, events: seq<Event>)
    requires LineageInvariant(s.db.operations)
    ensures LineageInvariant(Run(s, events).db.operations)
    decreases |events|
  {
    if events != [] {
      StepKeepsLineage(s, events[0]);
      hide Step, LineageInvariant;
      LineageHolds(Step(s, events[0]), events[1..]);
    }
  }

  /** Every operation of a lineage, its root included. */
  function Lineage(db: Database, root: OperationId): set<OperationId> {
    set id | id in db.operations && db.operations[id].root == root
  }

  /** The calls of a whole lineage for which the provider may charge. */
  function BillableInLineage(db: Database, root: OperationId): set<AttemptId> {
    set a | a in db.attempts && db.attempts[a].operation in Lineage(db, root) && !RateLimitedForFree(db.attempts[a])
  }

  lemma LineageSize(db: Database, root: OperationId)
    requires LineageInvariant(db.operations) && root in db.operations && db.operations[root].root == root
    ensures |Lineage(db, root)| <= 1 + db.operations[root].terms.restartLimit
  {
    forall id | id in db.operations
      ensures Descends(db.operations, id)
    {
    }
    assert Lineage(db, root) == {root} + Restarts(db.operations, root);
  }

  /** A lineage has at most one operation per grant plus its root, and at most one chargeable call
      for each of them, however often a restart is asked for. */
  lemma LineageBounded(s: System, root: OperationId)
    requires MachineInvariant(s) && LineageInvariant(s.db.operations) && root in s.db.operations
    requires s.db.operations[root].root == root
    ensures |Lineage(s.db, root)| <= 1 + s.db.operations[root].terms.restartLimit
    ensures |BillableInLineage(s.db, root)| <= 1 + s.db.operations[root].terms.restartLimit
  {
    LineageSize(s.db, root);
    var image := (a: AttemptId) => if a in s.db.attempts then s.db.attempts[a].operation else 0;
    forall a, b | a in BillableInLineage(s.db, root) && b in BillableInLineage(s.db, root) && image(a) == image(b)
      ensures a == b
    {
      hide MachineInvariant, LineageInvariant, RateLimitedForFree;
      AtMostOneBillable(s, image(a));
      SameMember(Billable(s.db, image(a)), a, b);
    }
    hide MachineInvariant, LineageInvariant, RateLimitedForFree;
    InjectionCount(BillableInLineage(s.db, root), Lineage(s.db, root), image);
  }

  lemma SameMember<T>(s: set<T>, x: T, y: T)
    requires x in s && y in s && |s| <= 1
    ensures x == y
  {
    if x != y {
      SubsetCount({x, y}, s);
    }
  }

  /** What a row remembers of where it came from never changes. */
  lemma StepKeepsDescent(s: System, e: Event, id: OperationId)
    requires id in s.db.operations
    ensures id in Step(s, e).db.operations && SameDescent(Step(s, e).db.operations[id], s.db.operations[id])
  {
    hide Step;
    match e
    case Ask(i, request, clock) => AskEffect(s, i, request, clock);
    case AskRestart(user, source, i, clock) => RestartEffect(s, user, source, i, clock);
    case WakeUp(i, newId, clock) => WakeUpEffect(s, i, newId, clock);
    case Finish(a, outcome, clock) => FinishEffect(s, a, outcome, clock);
  }

  lemma {:induction false} DescentForever(s: System, events: seq<Event>, id: OperationId)
    requires id in s.db.operations
    ensures id in Run(s, events).db.operations && SameDescent(Run(s, events).db.operations[id], s.db.operations[id])
    decreases |events|
  {
    if events != [] {
      StepKeepsDescent(s, events[0], id);
      hide Step;
      DescentForever(Step(s, events[0]), events[1..], id);
    }
  }

  /** Repeating an accepted restart, in any later state, changes nothing and is answered as a duplicate;
      the same id for another user or source is refused as a conflict, or because that user has no such
      source. */
  lemma RestartRepeats(
      s: System, user: UserId, source: OperationId, id: OperationId, clock: Clock, meanwhile: seq<Event>,
      user': UserId, source': OperationId, later: Clock)
    requires Restart(s.db, user, source, id, clock).1 == Restarted ||
             Restart(s.db, user, source, id, clock).1 == DuplicateRestart
    ensures var t := Run(Step(s, AskRestart(user, source, id, clock)), meanwhile);
            var (after, outcome) := Restart(t.db, user', source', id, later);
            && after == t.db
            && (outcome == DuplicateRestart <==> (user', source') == (user, source))
            && (outcome != DuplicateRestart ==>
                  outcome == if source' in t.db.operations && t.db.operations[source'].terms.user == user'
                             then RestartConflict else SourceNotFound)
  {
    var first := Step(s, AskRestart(user, source, id, clock));
    assert first.db == Restart(s.db, user, source, id, clock).0;
    AcceptedRow(s.db, user, source, id, clock);
    hide Step, Restart;
    DescentForever(first, meanwhile, source);
    DescentForever(first, meanwhile, id);
    RepeatedRow(Run(first, meanwhile).db, user, source, id, user', source', later);
  }

  /** The row of an accepted restart names its source, its root and its user. */
  predicate RestartedFrom(db: Database, user: UserId, source: OperationId, id: OperationId) {
    && source in db.operations && id in db.operations
    && db.operations[source].terms.user == user && db.operations[id].terms.user == user
    && db.operations[id].root == db.operations[source].root
    && db.operations[id].restartedFrom == Some(source)
  }

  lemma AcceptedRow(db: Database, user: UserId, source: OperationId, id: OperationId, clock: Clock)
    requires Restart(db, user, source, id, clock).1 == Restarted ||
             Restart(db, user, source, id, clock).1 == DuplicateRestart
    ensures RestartedFrom(Restart(db, user, source, id, clock).0, user, source, id)
  {
    hide Refuses;
  }

  lemma RepeatedRow(
      db: Database, user: UserId, source: OperationId, id: OperationId, user': UserId, source': OperationId,
      clock: Clock)
    requires RestartedFrom(db, user, source, id)
    ensures var (after, outcome) := Restart(db, user', source', id, clock);
            && after == db
            && (outcome == DuplicateRestart <==> (user', source') == (user, source))
            && (outcome != DuplicateRestart ==>
                  outcome == if source' in db.operations && db.operations[source'].terms.user == user'
                             then RestartConflict else SourceNotFound)
  {
  }

  /** Asking again with the id of an existing operation changes nothing, and a restart that is
      granted leaves its source as it was. */
  lemma RestartIsIdempotent(s: System, user: UserId, source: OperationId, id: OperationId, clock: Clock)
    ensures id in s.db.operations ==> Step(s, AskRestart(user, source, id, clock)) == s
    ensures source in s.db.operations ==>
              source in Step(s, AskRestart(user, source, id, clock)).db.operations &&
              Step(s, AskRestart(user, source, id, clock)).db.operations[source] == s.db.operations[source]
  {
  }

  // ---------------------------------------------------------------------------------------
  // Daily dispatch ceiling
  // ---------------------------------------------------------------------------------------

  /** The provider calls started for a user on one day, across all of that user's operations. */
  function StartedOn(db: Database, user: UserId, day: int): set<AttemptId> {
    set a | a in db.attempts && db.attempts[a].operation in db.operations &&
            db.operations[db.attempts[a].operation].terms.user == user &&
            db.operations[db.attempts[a].operation].terms.provider == OpenAI &&
            db.attempts[a].startedOn == day
  }

  ghost predicate DailyInvariant(db: Database) {
    forall user, day :: DispatchesOn(db, user, day) == |StartedOn(db, user, day)| <= DAILY_DISPATCH_LIMIT
  }

  /** A step that starts no attempt leaves every count alone. */
  lemma SameStarts(db: Database, after: Database)
    requires DailyInvariant(db) && after.dispatches == db.dispatches
    requires after.attempts.Keys == db.attempts.Keys
    requires forall a :: a in db.attempts ==>
               db.attempts[a].operation in db.operations &&
               after.attempts[a].operation == db.attempts[a].operation &&
               after.attempts[a].startedOn == db.attempts[a].startedOn
    requires forall id :: id in db.operations ==>
               id in after.operations && after.operations[id].terms == db.operations[id].terms
    ensures DailyInvariant(after)
  {
    forall user, day
      ensures DispatchesOn(after, user, day) == |StartedOn(after, user, day)| <= DAILY_DISPATCH_LIMIT
    {
      assert StartedOn(after, user, day) == StartedOn(db, user, day);
      assert DispatchesOn(db, user, day) == |StartedOn(db, user, day)|;
    }
  }

  /** Dispatching adds the new attempt to the count of its own user and day only. */
  lemma DispatchedStarts(db: Database, id: OperationId, newId: AttemptId, clock: Clock, user: UserId, day: int)
    requires id in db.operations && newId !in db.attempts
    requires forall a :: a in db.attempts ==> db.attempts[a].operation in db.operations
    ensures var terms := db.operations[id].terms;
            var mine := terms.provider == OpenAI && terms.user == user && clock.day == day;
            StartedOn(Dispatch(db, id, newId, clock), user, day) ==
            StartedOn(db, user, day) + if mine then {newId} else {}
  {
  }

  lemma DispatchStarts(db: Database, id: OperationId, newId: AttemptId, clock: Clock)
    requires DailyInvariant(db) && CanDispatch(db, id, newId, clock)
    requires db.operations[id].terms.dailyLimit == DAILY_DISPATCH_LIMIT
    requires forall a :: a in db.attempts ==> db.attempts[a].operation in db.operations
    ensures DailyInvariant(Dispatch(db, id, newId, clock))
  {
    var after := Dispatch(db, id, newId, clock);
    forall user, day
      ensures DispatchesOn(after, user, day) == |StartedOn(after, user, day)| <= DAILY_DISPATCH_LIMIT
    {
      assert DispatchesOn(db, user, day) == |StartedOn(db, user, day)| <= DAILY_DISPATCH_LIMIT;
      DispatchedStarts(db, id, newId, clock, user, day);
      assert newId !in StartedOn(db, user, day);
      hide StartedOn;
    }
  }

  lemma AttemptsHaveOperations(s: System)
    requires MachineInvariant(s)
    ensures forall a :: a in s.db.attempts ==> s.db.attempts[a].operation in s.db.operations
  {
    hide OneFits, WorkFits;
  }

  lemma WakeUpKeepsDaily(s: System, id: OperationId, newId: AttemptId, clock: Clock)
    requires MachineInvariant(s) && DailyInvariant(s.db)
    ensures DailyInvariant(Step(s, WakeUp(id, newId, clock)).db)
  {
    var after := Step(s, WakeUp(id, newId, clock));
    hide Step, DailyInvariant, AttemptsFit, MachineInvariant;
    WakeUpEffect(s, id, newId, clock);
    AttemptsHaveOperations(s);
    if after == s {
    } else if CanDispatch(s.db, id, newId, clock) {
      RowOf(s, id);
      DispatchStarts(s.db, id, newId, clock);
    } else {
      if CanExpire(s.db, id, clock) {
        InFlight(s, id);
      }
      hide CanDispatch, CanExpire, OperationFits;
      SameStarts(s.db, after.db);
    }
  }

  lemma FinishKeepsDaily(s: System, a: AttemptId, outcome: GatewayOutcome, clock: Clock)
    requires MachineInvariant(s) && DailyInvariant(s.db)
    ensures DailyInvariant(Step(s, Finish(a, outcome, clock)).db)
  {
    hide Step, DailyInvariant, MachineInvariant;
    FinishEffect(s, a, outcome, clock);
    AttemptsHaveOperations(s);
    if CanComplete(s, a) {
      SameStarts(s.db, Completed(s, a, outcome, clock));
    }
  }

  lemma StepKeepsDaily(s: System, e: Event)
    requires MachineInvariant(s) && DailyInvariant(s.db)
    ensures DailyInvariant(Step(s, e).db)
  {
    hide Step, DailyInvariant, AttemptsFit, OperationFits;
    match e
    case Ask(id, request, clock) =>
      AskEffect(s, id, request, clock);
      SameStarts(s.db, Step(s, e).db);
    case AskRestart(user, source, id, clock) =>
      RestartEffect(s, user, source, id, clock);
      SameStarts(s.db, Step(s, e).db);
    case WakeUp(id, newId, clock) => WakeUpKeepsDaily(s, id, newId, clock);
    case Finish(a, outcome, clock) => FinishKeepsDaily(s, a, outcome, clock);
  }

  /** In every reachable state each user's counter for each day is exactly the number of provider
      calls started for that user on that day, and never more than twenty. */
  lemma {:induction false} DailyCeilingHolds(s: System, events: seq<Event>)
    requires MachineInvariant(s) && DailyInvariant(s.db)
    ensures DailyInvariant(Run(s, events).db)
    decreases |events|
  {
    if events != [] {
      StepKeepsDaily(s, events[0]);
      StepKeepsMachine(s, events[0]);
      hide Step, MachineInvariant, DailyInvariant;
      DailyCeilingHolds(Step(s, events[0]), events[1..]);
    }
  }
}
