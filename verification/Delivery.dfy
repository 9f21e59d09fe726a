/** Outbound Telegram replies: leased provider attempts, their recorded outcomes and operator
    recovery. Times are in milliseconds; a worker's clock and the database's clock are separate. */
module Delivery {
  import opened Common
  import opened TelegramContent

  type ReplyId = nat
  type AttemptId = nat
  type RecoveryId = string
  type EventId = nat
  type OutboxId = nat

  datatype ReplyStatus = Pending | Delivering | ProviderAccepted | TerminalFailure | OutcomeUnknown

  datatype Reply = Reply(
    event: EventId,
    intent: Intent,
    owner: Option<Actor>,
    status: ReplyStatus,
    attempts: nat,
    claim: Option<AttemptId>,
    claimedUntil: Option<int>,
    providerMessage: Option<string>,
    lastError: Option<string>,
    acceptedAt: Option<int>,
    terminalAt: Option<int>)

  /** What the provider call reports: accepted, two kinds of explicit rejection, or unknown. */
  datatype Outcome =
    | Accepted(providerMessage: string)
    | Transient(errorCode: string)
    | Rejected(errorCode: string)
    | Unknown(errorCode: string)

  /** A provider attempt; it has an outcome exactly when it is completed. */
  datatype Attempt = Attempt(reply: ReplyId, number: nat, outcome: Option<Outcome>, completedAt: Option<int>)

  datatype Reason = RecipientStateCorrected | ProviderConfigurationCorrected

  datatype Recovery = Recovery(reply: ReplyId, outbox: OutboxId, errorCode: string, reason: Reason,
      publishedAt: Option<int>)

  datatype State = State(
    replies: map<ReplyId, Reply>,
    attempts: map<AttemptId, Attempt>,
    recoveries: map<RecoveryId, Recovery>)

  const MAXIMUM_ATTEMPTS: nat := 3
  const LEASE: nat := 60_000
  const LEASE_EXPIRED := "attempt_lease_expired"
  const ATTEMPTS_EXHAUSTED := "attempts_exhausted"

  predicate Terminal(r: Reply) {
    r.status == ProviderAccepted || r.status == TerminalFailure || r.status == OutcomeUnknown
  }

  function NewReply(event: EventId, completion: Completion): Reply {
    Reply(event, completion.intent, ActorOf(completion), Pending, 0, None, None, None, None, None, None)
  }

  // ---------------------------------------------------------------------------------------
  // Transactions
  // ---------------------------------------------------------------------------------------

  datatype ClaimOutcome = Claimed(attempt: AttemptId) | AlreadyTerminal | Deferred(retryAfterSeconds: int) | NotFound
    | Unavailable

  function ExpiredReply(r: Reply, now: int): Reply {
    r.(status := OutcomeUnknown, claim := None, claimedUntil := None, lastError := Some(LEASE_EXPIRED),
       terminalAt := Some(now))
  }

  function ExhaustedReply(r: Reply, now: int): Reply {
    r.(status := TerminalFailure, lastError := Some(ATTEMPTS_EXHAUSTED), terminalAt := Some(now))
  }

  function LeasedReply(r: Reply, attempt: AttemptId, now: int): Reply {
    r.(status := Delivering, attempts := r.attempts + 1, claim := Some(attempt), claimedUntil := Some(now + LEASE),
       lastError := None)
  }

  /** Completes an attempt that is still in progress; a completed one is never rewritten. */
  function Conclude(attempts: map<AttemptId, Attempt>, attempt: AttemptId, outcome: Outcome, now: int)
    : map<AttemptId, Attempt>
  {
    if attempt in attempts && attempts[attempt].outcome.None? then
      attempts[attempt := attempts[attempt].(outcome := Some(outcome), completedAt := Some(now))]
    else attempts
  }

  function Claim(s: State, id: ReplyId, attempt: AttemptId, workerNow: int, now: int): (State, ClaimOutcome) {
    if id !in s.replies then (s, NotFound)
    else
      var r := s.replies[id];
      if Terminal(r) then (s, AlreadyTerminal)
      else if r.status == Delivering then
        if r.claimedUntil.Some? && r.claimedUntil.value > workerNow then
          (s, Deferred(SecondsUntil(r.claimedUntil.value, workerNow)))
        else
          (s.(replies := s.replies[id := ExpiredReply(r, now)],
              attempts := if r.claim.Some? then Conclude(s.attempts, r.claim.value, Unknown(LEASE_EXPIRED), now)
                          else s.attempts),
           AlreadyTerminal)
      else if r.attempts >= MAXIMUM_ATTEMPTS then
        (s.(replies := s.replies[id := ExhaustedReply(r, now)]), AlreadyTerminal)
      else if attempt in s.attempts then (s, Unavailable)
      else
        (s.(replies := s.replies[id := LeasedReply(r, attempt, now)],
            attempts := s.attempts[attempt := Attempt(id, r.attempts + 1, None, None)]),
         Claimed(attempt))
  }

  predicate Holds(s: State, id: ReplyId, attempt: AttemptId) {
    id in s.replies && s.replies[id].status == Delivering && s.replies[id].claim == Some(attempt)
  }

  function StatusAfter(outcome: Outcome): ReplyStatus {
    match outcome
    case Accepted(_) => ProviderAccepted
    case Transient(_) => Pending
    case Rejected(_) => TerminalFailure
    case Unknown(_) => OutcomeUnknown
  }

  function CompletedReply(r: Reply, outcome: Outcome, now: int): Reply {
    var free := r.(claim := None, claimedUntil := None);
    match outcome
    case Accepted(message) =>
      free.(status := ProviderAccepted, providerMessage := Some(message), lastError := None, acceptedAt := Some(now),
            terminalAt := None)
    case Transient(code) => free.(status := Pending, lastError := Some(code))
    case Rejected(code) =>
      free.(status := TerminalFailure, providerMessage := None, lastError := Some(code), acceptedAt := None,
            terminalAt := Some(now))
    case Unknown(code) =>
      free.(status := OutcomeUnknown, providerMessage := None, lastError := Some(code), acceptedAt := None,
            terminalAt := Some(now))
  }

  /** Only the current claim records an outcome; a late worker is refused. */
  function CompleteAttempt(s: State, id: ReplyId, attempt: AttemptId, outcome: Outcome, now: int): (State, bool) {
    if !Holds(s, id, attempt) then (s, false)
    else
      (s.(replies := s.replies[id := CompletedReply(s.replies[id], outcome, now)],
          attempts := Conclude(s.attempts, attempt, outcome, now)),
       true)
  }

  datatype Refusal =
    | IdempotencyConflict
    | ReplyNotFound
    | RefusedProviderAccepted
    | RefusedOutcomeUnknown
    | NotTerminalFailure
    | ErrorCodeMismatch
    | AttemptLimitReached

  datatype PrepareOutcome = Prepared(outbox: OutboxId, published: bool) | NotRecoverable(refusal: Refusal)

  function ReopenedReply(r: Reply): Reply {
    r.(status := Pending, claim := None, claimedUntil := None, lastError := None, terminalAt := None)
  }

  /** An operator asks to retry one explicitly rejected reply. Repeating a recovery id is answered
      from its row. `outbox` is the reply's outbox message, if it has one. */
  function Prepare(
      s: State, recovery: RecoveryId, id: ReplyId, errorCode: string, reason: Reason, outbox: Option<OutboxId>)
    : (State, PrepareOutcome)
  {
    if recovery in s.recoveries then
      var row := s.recoveries[recovery];
      if row.reply != id || row.errorCode != errorCode || row.reason != reason
      then (s, NotRecoverable(IdempotencyConflict))
      else (s, Prepared(row.outbox, row.publishedAt.Some?))
    else if id !in s.replies || outbox.None? then (s, NotRecoverable(ReplyNotFound))
    else
      var r := s.replies[id];
      if r.status == ProviderAccepted then (s, NotRecoverable(RefusedProviderAccepted))
      else if r.status == OutcomeUnknown then (s, NotRecoverable(RefusedOutcomeUnknown))
      else if r.status != TerminalFailure then (s, NotRecoverable(NotTerminalFailure))
      else if r.lastError != Some(errorCode) then (s, NotRecoverable(ErrorCodeMismatch))
      else if r.attempts >= MAXIMUM_ATTEMPTS then (s, NotRecoverable(AttemptLimitReached))
      else
        (s.(replies := s.replies[id := ReopenedReply(r)],
            recoveries := s.recoveries[recovery := Recovery(id, outbox.value, errorCode, reason, None)]),
         Prepared(outbox.value, false))
  }

  datatype MarkOutcome = MarkedPublished | AlreadyPublished | RecoveryNotFound

  function MarkPublished(s: State, recovery: RecoveryId, now: int): (State, MarkOutcome) {
    if recovery !in s.recoveries then (s, RecoveryNotFound)
    else if s.recoveries[recovery].publishedAt.Some? then (s, AlreadyPublished)
    else (s.(recoveries := s.recoveries[recovery := s.recoveries[recovery].(publishedAt := Some(now))]),
      MarkedPublished)
  }

  function Insert(s: State, id: ReplyId, event: EventId, completion: Completion): State {
    if id in s.replies then s else s.(replies := s.replies[id := NewReply(event, completion)])
  }

  // ---------------------------------------------------------------------------------------
  // Invariant
  // ---------------------------------------------------------------------------------------

  /** The CHECK constraints of the replies table. */
  predicate ReplyFits(r: Reply) {
    && (r.claim.Some? <==> r.claimedUntil.Some?)
    && (r.claim.Some? <==> r.status == Delivering)
    && (r.acceptedAt.Some? <==> r.status == ProviderAccepted)
    && (r.terminalAt.Some? <==> r.status == TerminalFailure || r.status == OutcomeUnknown)
    && (r.status == ProviderAccepted ==> r.providerMessage.Some?)
    && (r.status == Delivering || r.status == ProviderAccepted || r.status == OutcomeUnknown ==> r.attempts > 0)
    && r.attempts <= MAXIMUM_ATTEMPTS
  }

  predicate ExplicitlyRejected(a: Attempt) {
    a.outcome.Some? && (a.outcome.value.Transient? || a.outcome.value.Rejected?)
  }

  /** The outcome was reported by a worker, not concluded from an expired lease. */
  predicate Reported(a: Attempt) {
    a.outcome.Some? && a.outcome.value != Unknown(LEASE_EXPIRED)
  }

  /** How an attempt relates to its reply: every attempt but the last is an explicit rejection, and
      the last one agrees with the reply's status. */
  predicate AttemptFits(id: AttemptId, a: Attempt, r: Reply) {
    && 1 <= a.number <= r.attempts
    && (a.outcome.Some? <==> a.completedAt.Some?)
    && (a.number < r.attempts ==> ExplicitlyRejected(a))
    && (a.number == r.attempts ==>
          match r.status
          case Pending => ExplicitlyRejected(a)
          case TerminalFailure => ExplicitlyRejected(a)
          case Delivering => a.outcome.None? && r.claim == Some(id)
          case ProviderAccepted => a.outcome.Some? && a.outcome.value.Accepted?
          case OutcomeUnknown => a.outcome.Some? && a.outcome.value.Unknown?)
  }

  /** How many attempt rows a reply has. */
  ghost function Attempted(attempts: map<AttemptId, Attempt>, reply: ReplyId): int {
    Sum(attempts, (a: Attempt) => if a.reply == reply then 1 else 0)
  }

  /** How many times a reply was recovered. */
  ghost function Recovered(recoveries: map<RecoveryId, Recovery>, reply: ReplyId): int {
    Sum(recoveries, (r: Recovery) => if r.reply == reply then 1 else 0)
  }

  /** A reply's counter is the number of its attempt rows, and it was recovered at most twice, each
      time after one more attempt. */
  predicate CountsFit(r: Reply, attempted: int, recovered: int) {
    && attempted == r.attempts
    && recovered <= r.attempts
    && recovered < MAXIMUM_ATTEMPTS
    && (r.status == Delivering || (r.status == TerminalFailure && r.attempts < MAXIMUM_ATTEMPTS) ==>
      recovered < r.attempts)
  }

  ghost predicate Counted(s: State) {
    forall r :: r in s.replies ==> CountsFit(s.replies[r], Attempted(s.attempts, r), Recovered(s.recoveries, r))
  }

  /** The claim of a reply being delivered is its last attempt. */
  predicate ClaimFits(attempts: map<AttemptId, Attempt>, id: ReplyId, r: Reply) {
    r.status == Delivering ==>
      && r.claim.Some?
      && r.claim.value in attempts
      && attempts[r.claim.value].reply == id
      && attempts[r.claim.value].number == r.attempts
  }

  ghost predicate RepliesFit(s: State) {
    forall r :: r in s.replies ==> ReplyFits(s.replies[r]) && ClaimFits(s.attempts, r, s.replies[r])
  }

  ghost predicate NumbersUnique(attempts: map<AttemptId, Attempt>) {
    forall a, b ::
      (a in attempts && b in attempts && attempts[a].reply == attempts[b].reply &&
        attempts[a].number == attempts[b].number)
      ==> a == b
  }

  ghost predicate AttemptsFit(s: State) {
    forall a :: a in s.attempts ==>
      s.attempts[a].reply in s.replies && AttemptFits(a, s.attempts[a], s.replies[s.attempts[a].reply])
  }

  ghost predicate RecoveriesFit(s: State) {
    forall v :: v in s.recoveries ==> s.recoveries[v].reply in s.replies
  }

  ghost predicate DeliveryInvariant(s: State) {
    && RepliesFit(s)
    && Counted(s)
    && AttemptsFit(s)
    && NumbersUnique(s.attempts)
    && RecoveriesFit(s)
  }

  /** What a reply says, for whom, and in answer to which event. */
  predicate SameMessage(r: Reply, q: Reply) {
    r.event == q.event && r.intent == q.intent && r.owner == q.owner
  }

  predicate HasRecovery(recoveries: map<RecoveryId, Recovery>, reply: ReplyId) {
    exists v :: v in recoveries && recoveries[v].reply == reply
  }

  predicate SameRequest(v: Recovery, w: Recovery) {
    v.reply == w.reply && v.outbox == w.outbox && v.errorCode == w.errorCode && v.reason == w.reason
  }

  /** What no transaction may undo: replies stay and keep what they say, accepted and unknown replies
      never change, a failed one is reopened only by a recovery, attempts stay and a completed one
      never changes, recoveries stay. */
  ghost predicate Evolves(s: State, t: State) {
    && (forall r :: r in s.replies ==>
          && r in t.replies
          && SameMessage(t.replies[r], s.replies[r])
          && s.replies[r].attempts <= t.replies[r].attempts
          && (s.replies[r].status == ProviderAccepted || s.replies[r].status == OutcomeUnknown ==>
                t.replies[r] == s.replies[r])
          && (s.replies[r].status == TerminalFailure ==> t.replies[r] == s.replies[r] || HasRecovery(t.recoveries, r)))
    && (forall a :: a in s.attempts ==>
          && a in t.attempts
          && t.attempts[a].reply == s.attempts[a].reply
          && t.attempts[a].number == s.attempts[a].number
          && (s.attempts[a].outcome.Some? ==> t.attempts[a] == s.attempts[a]))
    && (forall v :: v in s.recoveries ==> v in t.recoveries && SameRequest(t.recoveries[v], s.recoveries[v]))
  }

  // ---------------------------------------------------------------------------------------
  // Counting
  // ---------------------------------------------------------------------------------------

  lemma AttemptedWrite(attempts: map<AttemptId, Attempt>, attempt: AttemptId, a: Attempt)
    requires attempt in attempts ==> attempts[attempt].reply == a.reply
    ensures forall r :: Attempted(attempts[attempt := a], r) ==
                        Attempted(attempts, r) + (if attempt !in attempts && a.reply == r then 1 else 0)
  {
    forall r ensures Attempted(attempts[attempt := a], r) ==
                     Attempted(attempts, r) + (if attempt !in attempts && a.reply == r then 1 else 0)
    {
      SumWrite(attempts, (a: Attempt) => if a.reply == r then 1 else 0, attempt, a);
    }
  }

  lemma RecoveredWrite(recoveries: map<RecoveryId, Recovery>, recovery: RecoveryId, v: Recovery)
    requires recovery in recoveries ==> recoveries[recovery].reply == v.reply
    ensures forall r :: Recovered(recoveries[recovery := v], r) ==
                        Recovered(recoveries, r) + (if recovery !in recoveries && v.reply == r then 1 else 0)
  {
    forall r ensures Recovered(recoveries[recovery := v], r) ==
                     Recovered(recoveries, r) + (if recovery !in recoveries && v.reply == r then 1 else 0)
    {
      SumWrite(recoveries, (v: Recovery) => if v.reply == r then 1 else 0, recovery, v);
    }
  }

  /** Completing an attempt keeps its reply and number, and touches no other attempt. */
  lemma ConcludeKeeps(attempts: map<AttemptId, Attempt>, attempt: AttemptId, outcome: Outcome, now: int)
    ensures var after := Conclude(attempts, attempt, outcome, now);
            && after.Keys == attempts.Keys
            && (forall a :: a in attempts ==>
              after[a].reply == attempts[a].reply && after[a].number == attempts[a].number)
            && (forall a :: a in attempts && (a != attempt || attempts[a].outcome.Some?) ==> after[a] == attempts[a])
            && (forall r :: Attempted(after, r) == Attempted(attempts, r))
  {
    hide Attempted;
    if attempt in attempts && attempts[attempt].outcome.None? {
      AttemptedWrite(attempts, attempt, attempts[attempt].(outcome := Some(outcome), completedAt := Some(now)));
    }
  }

  // ---------------------------------------------------------------------------------------
  // Every transaction keeps the invariant
  // ---------------------------------------------------------------------------------------

  /** A transaction on one reply: nothing of another reply changes. */
  ghost predicate RepliesFramed(s: State, t: State, id: ReplyId) {
    && (forall r :: r in s.replies ==> r in t.replies)
    && (forall r :: r in t.replies && r != id ==> r in s.replies && t.replies[r] == s.replies[r])
  }

  ghost predicate AttemptsFramed(s: State, t: State, id: ReplyId) {
    && (forall a :: a in s.attempts ==>
          && a in t.attempts
          && t.attempts[a].reply == s.attempts[a].reply
          && t.attempts[a].number == s.attempts[a].number
          && (s.attempts[a].outcome.Some? ==> t.attempts[a] == s.attempts[a]))
    && (forall a :: a in t.attempts && t.attempts[a].reply != id ==> a in s.attempts && t.attempts[a] == s.attempts[a])
  }

  ghost predicate CountsFramed(s: State, t: State, id: ReplyId) {
    && (forall r :: r != id ==> Attempted(t.attempts, r) == Attempted(s.attempts, r))
    && (forall r :: r != id ==> Recovered(t.recoveries, r) == Recovered(s.recoveries, r))
  }

  ghost predicate RecoveriesFramed(s: State, t: State, id: ReplyId) {
    && (forall v :: v in s.recoveries ==> v in t.recoveries && SameRequest(t.recoveries[v], s.recoveries[v]))
    && (forall v :: v in t.recoveries && v !in s.recoveries ==> t.recoveries[v].reply == id)
  }

  /** The part of the invariant about one reply and its attempts. */
  ghost predicate Fits(s: State, id: ReplyId) {
    id in s.replies ==>
      && ReplyFits(s.replies[id])
      && ClaimFits(s.attempts, id, s.replies[id])
      && CountsFit(s.replies[id], Attempted(s.attempts, id), Recovered(s.recoveries, id))
      && (forall a :: a in s.attempts && s.attempts[a].reply == id ==> AttemptFits(a, s.attempts[a], s.replies[id]))
  }

  lemma Fitting(s: State, id: ReplyId)
    requires DeliveryInvariant(s)
    ensures Fits(s, id)
  {
    hide Attempted, Recovered, CountsFit, AttemptFits, ReplyFits, ClaimFits, NumbersUnique;
  }

  /** The reply may move on: it keeps what it says, its counter grows, and an accepted or unknown reply
      stays as it is. */
  ghost predicate Moves(s: State, t: State, id: ReplyId) {
    id in s.replies ==>
      && id in t.replies
      && SameMessage(t.replies[id], s.replies[id])
      && s.replies[id].attempts <= t.replies[id].attempts
      && s.replies[id].status != ProviderAccepted
      && s.replies[id].status != OutcomeUnknown
      && (s.replies[id].status == TerminalFailure ==> HasRecovery(t.recoveries, id))
  }

  lemma RepliesAfter(s: State, t: State, id: ReplyId)
    requires RepliesFit(s) && Counted(s) && AttemptsFit(s)
    requires RepliesFramed(s, t, id) && AttemptsFramed(s, t, id) && CountsFramed(s, t, id)
    requires Fits(t, id)
    ensures RepliesFit(t) && Counted(t)
  {
    hide ReplyFits, CountsFit, AttemptFits, Attempted, Recovered;
  }

  lemma AttemptsAfter(s: State, t: State, id: ReplyId)
    requires AttemptsFit(s) && RepliesFramed(s, t, id) && AttemptsFramed(s, t, id)
    requires id in t.replies && Fits(t, id)
    ensures AttemptsFit(t)
  {
    hide AttemptFits, CountsFit, ReplyFits, ClaimFits, Attempted, Recovered;
  }

  lemma EvolvesAfter(s: State, t: State, id: ReplyId)
    requires RepliesFramed(s, t, id) && AttemptsFramed(s, t, id) && RecoveriesFramed(s, t, id) && Moves(s, t, id)
    ensures Evolves(s, t)
  {
  }

  lemma RecoveriesAfter(s: State, t: State, id: ReplyId)
    requires RecoveriesFit(s) && RepliesFramed(s, t, id) && RecoveriesFramed(s, t, id) && id in t.replies
    ensures RecoveriesFit(t)
  {
  }

  lemma Reassemble(s: State, t: State, id: ReplyId)
    requires DeliveryInvariant(s)
    requires RepliesFramed(s, t, id) && AttemptsFramed(s, t, id) && CountsFramed(s, t, id) && RecoveriesFramed(s, t, id)
    requires Moves(s, t, id)
    requires id in t.replies && Fits(t, id) && NumbersUnique(t.attempts)
    ensures DeliveryInvariant(t) && Evolves(s, t)
  {
    hide RepliesFramed, AttemptsFramed, CountsFramed, RecoveriesFramed, Moves, Fits, Evolves;
    hide RepliesFit, Counted, AttemptsFit, NumbersUnique, RecoveriesFit;
    RepliesAfter(s, t, id);
    AttemptsAfter(s, t, id);
    EvolvesAfter(s, t, id);
    RecoveriesAfter(s, t, id);
  }

  /** Recording the outcome of the claimed attempt and moving the reply to match it. */
  lemma ConcludedKeeps(s: State, t: State, id: ReplyId, outcome: Outcome, now: int)
    requires DeliveryInvariant(s) && id in s.replies && s.replies[id].status == Delivering
    requires id in t.replies && t.replies == s.replies[id := t.replies[id]] && t.recoveries == s.recoveries
    requires s.replies[id].claim.Some? && t.attempts == Conclude(s.attempts, s.replies[id].claim.value, outcome, now)
    requires ReplyFits(t.replies[id]) && t.replies[id].status == StatusAfter(outcome)
    requires t.replies[id].attempts == s.replies[id].attempts && SameMessage(t.replies[id], s.replies[id])
    ensures DeliveryInvariant(t) && Evolves(s, t)
  {
    hide Conclude, AttemptFits, ReplyFits, CountsFit, Attempted, Recovered, Fits, Evolves;
    Fitting(s, id);
    hide RepliesFit, Counted, AttemptsFit, ClaimFits;
    ConcludedFits(s, t, id, outcome, now);
    ConcludeKeeps(s.attempts, s.replies[id].claim.value, outcome, now);
    Reassemble(s, t, id);
  }

  lemma ConcludedFits(s: State, t: State, id: ReplyId, outcome: Outcome, now: int)
    requires id in s.replies && Fits(s, id) && s.replies[id].status == Delivering
    requires id in t.replies && t.recoveries == s.recoveries
    requires s.replies[id].claim.Some? && t.attempts == Conclude(s.attempts, s.replies[id].claim.value, outcome, now)
    requires ReplyFits(t.replies[id]) && t.replies[id].status == StatusAfter(outcome)
    requires t.replies[id].attempts == s.replies[id].attempts
    ensures Fits(t, id)
  {
    ConcludeKeeps(s.attempts, s.replies[id].claim.value, outcome, now);
    hide Attempted, Recovered;
    forall a | a in t.attempts && t.attempts[a].reply == id ensures AttemptFits(a, t.attempts[a], t.replies[id]) {
      assert AttemptFits(a, s.attempts[a], s.replies[id]);
    }
  }

  lemma CompleteKeeps(s: State, id: ReplyId, attempt: AttemptId, outcome: Outcome, now: int)
    requires DeliveryInvariant(s)
    ensures DeliveryInvariant(CompleteAttempt(s, id, attempt, outcome, now).0)
    ensures Evolves(s, CompleteAttempt(s, id, attempt, outcome, now).0)
  {
    hide Conclude, DeliveryInvariant, AttemptFits, Attempted, Recovered;
    if Holds(s, id, attempt) {
      hide Evolves;
      Fitting(s, id);
      ConcludedKeeps(s, CompleteAttempt(s, id, attempt, outcome, now).0, id, outcome, now);
    }
  }

  lemma ClaimKeeps(s: State, id: ReplyId, attempt: AttemptId, workerNow: int, now: int)
    requires DeliveryInvariant(s)
    ensures DeliveryInvariant(Claim(s, id, attempt, workerNow, now).0)
    ensures Evolves(s, Claim(s, id, attempt, workerNow, now).0)
  {
    hide Conclude, DeliveryInvariant, AttemptFits, Attempted, Recovered;
    var t := Claim(s, id, attempt, workerNow, now).0;
    if t != s {
      hide Evolves;
      Fitting(s, id);
      if s.replies[id].status == Delivering {
        ConcludedKeeps(s, t, id, Unknown(LEASE_EXPIRED), now);
      } else if s.replies[id].attempts < MAXIMUM_ATTEMPTS {
        LeasedKeeps(s, t, id, attempt, now);
      } else {
        RewriteKeeps(s, t, id);
      }
    }
  }

  lemma LeasedKeeps(s: State, t: State, id: ReplyId, attempt: AttemptId, now: int)
    requires DeliveryInvariant(s) && id in s.replies && s.replies[id].status == Pending
    requires s.replies[id].attempts < MAXIMUM_ATTEMPTS && attempt !in s.attempts
    requires t == s.(replies := s.replies[id := LeasedReply(s.replies[id], attempt, now)],
                     attempts := s.attempts[attempt := Attempt(id, s.replies[id].attempts + 1, None, None)])
    ensures DeliveryInvariant(t) && Evolves(s, t)
  {
    hide AttemptFits, ReplyFits, CountsFit, Attempted, Recovered, Fits, Evolves;
    Fitting(s, id);
    hide RepliesFit, Counted, AttemptsFit, ClaimFits, NumbersUnique;
    LeasedFits(s, t, id, attempt, now);
    AttemptedWrite(s.attempts, attempt, t.attempts[attempt]);
    Reassemble(s, t, id);
  }

  lemma LeasedFits(s: State, t: State, id: ReplyId, attempt: AttemptId, now: int)
    requires id in s.replies && Fits(s, id) && NumbersUnique(s.attempts) && s.replies[id].status == Pending
    requires s.replies[id].attempts < MAXIMUM_ATTEMPTS && attempt !in s.attempts
    requires t == s.(replies := s.replies[id := LeasedReply(s.replies[id], attempt, now)],
                     attempts := s.attempts[attempt := Attempt(id, s.replies[id].attempts + 1, None, None)])
    ensures Fits(t, id) && NumbersUnique(t.attempts)
  {
    hide Attempted, Recovered;
    AttemptedWrite(s.attempts, attempt, t.attempts[attempt]);
    forall a | a in t.attempts && t.attempts[a].reply == id ensures AttemptFits(a, t.attempts[a], t.replies[id]) {
      assert a == attempt || AttemptFits(a, s.attempts[a], s.replies[id]);
    }
  }

  /** Moving a reply between a pending and a failed state leaves its attempts alone. */
  lemma RewriteKeeps(s: State, t: State, id: ReplyId)
    requires DeliveryInvariant(s) && id in s.replies
    requires s.replies[id].status == Pending ||
             (s.replies[id].status == TerminalFailure && HasRecovery(t.recoveries, id))
    requires id in t.replies && t.replies == s.replies[id := t.replies[id]] && t.attempts == s.attempts
    requires t.replies[id].status == Pending || t.replies[id].status == TerminalFailure
    requires t.replies[id].attempts == s.replies[id].attempts && SameMessage(t.replies[id], s.replies[id])
    requires ReplyFits(t.replies[id])
    requires RecoveriesFramed(s, t, id) && CountsFramed(s, t, id)
    requires CountsFit(t.replies[id], Attempted(t.attempts, id), Recovered(t.recoveries, id))
    ensures DeliveryInvariant(t) && Evolves(s, t)
  {
    Fitting(s, id);
    assert Fits(t, id) by {
      hide DeliveryInvariant, Attempted, Recovered, ReplyFits, CountsFit;
      forall a | a in t.attempts && t.attempts[a].reply == id ensures AttemptFits(a, t.attempts[a], t.replies[id]) {
        assert AttemptFits(a, s.attempts[a], s.replies[id]);
      }
    }
    hide AttemptFits, ReplyFits, ClaimFits, CountsFit, CountsFramed, RecoveriesFramed, Attempted, Recovered, Fits,
      Evolves;
    hide RepliesFit, Counted, AttemptsFit, NumbersUnique;
    Reassemble(s, t, id);
  }

  lemma PrepareKeeps(
      s: State, recovery: RecoveryId, id: ReplyId, errorCode: string, reason: Reason, outbox: Option<OutboxId>)
    requires DeliveryInvariant(s)
    ensures DeliveryInvariant(Prepare(s, recovery, id, errorCode, reason, outbox).0)
    ensures Evolves(s, Prepare(s, recovery, id, errorCode, reason, outbox).0)
  {
    hide Attempted, Recovered, AttemptFits, RepliesFit, Counted, AttemptsFit, NumbersUnique;
    var t := Prepare(s, recovery, id, errorCode, reason, outbox).0;
    if t != s {
      hide Evolves;
      Fitting(s, id);
      RecoveredWrite(s.recoveries, recovery, t.recoveries[recovery]);
      assert t.recoveries[recovery].reply == id;
      RewriteKeeps(s, t, id);
    }
  }

  lemma MarkPublishedKeeps(s: State, recovery: RecoveryId, now: int)
    requires DeliveryInvariant(s)
    ensures DeliveryInvariant(MarkPublished(s, recovery, now).0)
    ensures Evolves(s, MarkPublished(s, recovery, now).0)
  {
    hide Attempted, Recovered, NumbersUnique, AttemptFits, ReplyFits;
    var t := MarkPublished(s, recovery, now).0;
    if t != s {
      RecoveredWrite(s.recoveries, recovery, t.recoveries[recovery]);
      hide MarkPublished;
      MarkedCounts(s, t);
      MarkedEvolves(s, t, recovery);
      hide Counted, Evolves, HasRecovery;
    }
  }

  lemma MarkedEvolves(s: State, t: State, recovery: RecoveryId)
    requires recovery in s.recoveries && recovery in t.recoveries
    requires t == s.(recoveries := s.recoveries[recovery := t.recoveries[recovery]])
    requires SameRequest(t.recoveries[recovery], s.recoveries[recovery])
    ensures Evolves(s, t)
  {
  }

  /** Recoveries are counted by their reply, which a publication mark keeps. */
  lemma MarkedCounts(s: State, t: State)
    requires Counted(s) && t.replies == s.replies && t.attempts == s.attempts
    requires forall r :: Recovered(t.recoveries, r) == Recovered(s.recoveries, r)
    ensures Counted(t)
  {
    hide Attempted, Recovered;
  }

  lemma InsertKeeps(s: State, id: ReplyId, event: EventId, completion: Completion)
    requires DeliveryInvariant(s)
    ensures DeliveryInvariant(Insert(s, id, event, completion))
    ensures Evolves(s, Insert(s, id, event, completion))
  {
    var t := Insert(s, id, event, completion);
    if id !in s.replies {
      InsertedFits(s, t, id, event, completion);
      InsertedFrames(s, t, id, event, completion);
      hide RepliesFramed, AttemptsFramed, CountsFramed, RecoveriesFramed, Moves, Insert;
      hide AttemptFits, Attempted, Recovered, Fits, Evolves, RepliesFit, Counted, AttemptsFit, NumbersUnique;
      Reassemble(s, t, id);
    } else {
      hide DeliveryInvariant;
    }
  }

  lemma InsertedFrames(s: State, t: State, id: ReplyId, event: EventId, completion: Completion)
    requires id !in s.replies && t == Insert(s, id, event, completion)
    ensures RepliesFramed(s, t, id) && AttemptsFramed(s, t, id) && CountsFramed(s, t, id)
    ensures RecoveriesFramed(s, t, id) && Moves(s, t, id)
  {
    hide Attempted, Recovered;
  }

  /** A new reply has no attempts and no recoveries. */
  lemma InsertedFits(s: State, t: State, id: ReplyId, event: EventId, completion: Completion)
    requires DeliveryInvariant(s) && id !in s.replies
    requires t == s.(replies := s.replies[id := NewReply(event, completion)])
    ensures Fits(t, id)
  {
    assert Attempted(t.attempts, id) == 0 by {
      SumOfNone(s.attempts, (a: Attempt) => if a.reply == id then 1 else 0);
    }
    assert Recovered(t.recoveries, id) == 0 by {
      SumOfNone(s.recoveries, (r: Recovery) => if r.reply == id then 1 else 0);
    }
    hide Attempted, Recovered, Counted, NumbersUnique, AttemptFits;
  }

  /** At most three provider attempts and two recoveries, and only the last attempt may have been
      anything but an explicit rejection. */
  lemma AttemptsBounded(s: State, id: ReplyId)
    requires DeliveryInvariant(s) && id in s.replies
    ensures Attempted(s.attempts, id) <= 3
    ensures Recovered(s.recoveries, id) <= 2
    ensures forall a, b ::
      (a in s.attempts && b in s.attempts && s.attempts[a].reply == id == s.attempts[b].reply && a != b)
      ==> ExplicitlyRejected(s.attempts[a]) || ExplicitlyRejected(s.attempts[b])
  {
    Fitting(s, id);
    hide RepliesFit, Counted, AttemptsFit;
  }

  /** Repeating an accepted recovery request, in any later state, changes nothing and points at the
      same queue message; the same id with other arguments is a conflict. */
  lemma RecoveryRepeats(
      s: State, t: State, recovery: RecoveryId, id: ReplyId, errorCode: string, reason: Reason,
      outbox: Option<OutboxId>, id': ReplyId, errorCode': string, reason': Reason, outbox': Option<OutboxId>)
    requires Prepare(s, recovery, id, errorCode, reason, outbox).1.Prepared?
    requires Evolves(Prepare(s, recovery, id, errorCode, reason, outbox).0, t)
    ensures Prepare(t, recovery, id', errorCode', reason', outbox').0 == t
    ensures (id', errorCode', reason') == (id, errorCode, reason) <==>
              Prepare(t, recovery, id', errorCode', reason', outbox').1.Prepared?
    ensures (id', errorCode', reason') != (id, errorCode, reason) ==>
              Prepare(t, recovery, id', errorCode', reason', outbox').1 == NotRecoverable(IdempotencyConflict)
    ensures Prepare(t, recovery, id, errorCode, reason, outbox).1.outbox ==
            Prepare(s, recovery, id, errorCode, reason, outbox).1.outbox
  {
    var first := Prepare(s, recovery, id, errorCode, reason, outbox).0;
    assert recovery in first.recoveries && SameRequest(t.recoveries[recovery], first.recoveries[recovery]);
  }
}
