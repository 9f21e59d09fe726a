/** The transactional outbox: messages that wait to be published to the queue, the receipts of
    their consumers, and every transition between them. Times are in milliseconds. */
module Outbox {
  import opened Common

  type OutboxId = nat
  type ClaimId = nat
  type EventId = nat
  type ReplyId = nat

  /** What a message is about; it is written once. */
  datatype Target = EventReceived(event: EventId) | ReplyRequested(reply: ReplyId)

  datatype PublicationStatus = Pending | Published | Failed

  datatype PublishError = ConsumerStalled | AttemptsExhausted | QueueOutcomeUnknown | QueueUnavailable

  datatype Message = Message(
    target: Target,
    status: PublicationStatus,
    attempts: nat,
    claim: Option<ClaimId>,
    claimedUntil: Option<int>,
    nextAttemptAt: int,
    publishedAt: Option<int>,
    failedAt: Option<int>,
    lastError: Option<PublishError>)

  /** The message with this target, if there is one. */
  ghost function MessageFor(messages: map<OutboxId, Message>, target: Target): Option<OutboxId> {
    if exists id :: id in messages && messages[id].target == target then
      var id :| id in messages && messages[id].target == target;
      Some(id)
    else None
  }

  datatype Receipt = Receipt(consumedAt: int, deliveries: nat)

  datatype State = State(messages: map<OutboxId, Message>, receipts: map<OutboxId, Receipt>)

  const MAXIMUM_ATTEMPTS: nat := 5
  const LEASE: nat := 120_000
  const RECEIPT_TIMEOUT_SECONDS: nat := 600

  function NewMessage(target: Target, now: int): Message {
    Message(target, Pending, 0, None, None, now, None, None, None)
  }

  // ---------------------------------------------------------------------------------------
  // The four updates of a dispatch, on one row
  // ---------------------------------------------------------------------------------------

  /** A consumed message counts as published, whatever its dispatcher thought. */
  function Reconciled(m: Message, receipt: Option<Receipt>): Message {
    if receipt.Some? && m.status != Published then
      m.(status := Published, publishedAt := Some(receipt.value.consumedAt), failedAt := None,
         claim := None, claimedUntil := None, lastError := None)
    else m
  }

  /** A published message without a receipt for too long goes back to the queue, or fails. */
  function Revived(m: Message, receipt: Option<Receipt>, now: int): Message {
    if m.status == Published && m.publishedAt.Some? && receipt.None? &&
       m.publishedAt.value <= now - RECEIPT_TIMEOUT_SECONDS * 1_000 then
      var spent := m.attempts >= MAXIMUM_ATTEMPTS;
      m.(status := if spent then Failed else Pending, publishedAt := None,
         failedAt := if spent then Some(now) else None, nextAttemptAt := now,
         claim := None, claimedUntil := None, lastError := Some(ConsumerStalled))
    else m
  }

  predicate Unclaimed(m: Message, now: int) {
    m.claimedUntil.None? || m.claimedUntil.value <= now
  }

  function Exhausted(m: Message, now: int): Message {
    if m.status == Pending && m.attempts >= MAXIMUM_ATTEMPTS && Unclaimed(m, now) then
      m.(status := Failed, failedAt := Some(now), claim := None, claimedUntil := None,
         lastError := Some(AttemptsExhausted))
    else m
  }

  predicate Eligible(m: Message, now: int) {
    m.status == Pending && m.attempts < MAXIMUM_ATTEMPTS && m.nextAttemptAt <= now && Unclaimed(m, now)
  }

  function Leased(m: Message, claim: ClaimId, now: int): Message {
    m.(claim := Some(claim), claimedUntil := Some(now + LEASE), attempts := m.attempts + 1)
  }

  function ReceiptOf(s: State, id: OutboxId): Option<Receipt> {
    if id in s.receipts then Some(s.receipts[id]) else None
  }

  /** A row after the first three updates. */
  function Swept(m: Message, receipt: Option<Receipt>, now: int): Message {
    Exhausted(Revived(Reconciled(m, receipt), receipt, now), now)
  }

  /** Whether a dispatch claims the message: the ordered, limited, lock-skipping selection picks it
      and it is eligible. */
  predicate Takes(s: State, picked: map<OutboxId, ClaimId>, now: int, id: OutboxId) {
    id in picked && id in s.messages && Eligible(Swept(s.messages[id], ReceiptOf(s, id), now), now)
  }

  /** A row after the whole dispatch transaction. */
  function Dispatched(m: Message, receipt: Option<Receipt>, claim: Option<ClaimId>, now: int): Message {
    var swept := Swept(m, receipt, now);
    if claim.Some? && Eligible(swept, now) then Leased(swept, claim.value, now) else swept
  }

  function ClaimOf(picked: map<OutboxId, ClaimId>, id: OutboxId): Option<ClaimId> {
    if id in picked then Some(picked[id]) else None
  }

  function ClaimPending(s: State, picked: map<OutboxId, ClaimId>, now: int): State {
    s.(messages := map id | id in s.messages ::
         Dispatched(s.messages[id], ReceiptOf(s, id), ClaimOf(picked, id), now))
  }

  // ---------------------------------------------------------------------------------------
  // The other transitions
  // ---------------------------------------------------------------------------------------

  datatype TransitionOutcome = Done | StateConflict | NoSuchMessage

  predicate Holds(s: State, id: OutboxId, claim: ClaimId) {
    id in s.messages && s.messages[id].status == Pending && s.messages[id].claim == Some(claim)
  }

  function Resolve(s: State, id: OutboxId, claim: ClaimId): TransitionOutcome {
    if Holds(s, id, claim) then Done
    else if id !in s.messages then NoSuchMessage
    else if s.messages[id].status == Published then Done
    else StateConflict
  }

  function MarkPublished(s: State, id: OutboxId, claim: ClaimId, now: int): (State, TransitionOutcome) {
    (if Holds(s, id, claim) then
       s.(messages := s.messages[id := s.messages[id].(
         status := Published, publishedAt := Some(now), claim := None, claimedUntil := None, lastError := None)])
     else s,
     Resolve(s, id, claim))
  }

  function RecordFailure(
      s: State, id: OutboxId, claim: ClaimId, error: PublishError, delaySeconds: nat, terminal: bool, now: int)
    : (State, TransitionOutcome)
  {
    (if Holds(s, id, claim) then
       s.(messages := s.messages[id := s.messages[id].(
         status := if terminal then Failed else Pending, failedAt := if terminal then Some(now) else None,
         claim := None, claimedUntil := None,
         nextAttemptAt := if terminal then now else now + delaySeconds * 1_000, lastError := Some(error))])
     else s,
     Resolve(s, id, claim))
  }

  datatype Consumption = FirstConsumption | RepeatedConsumption | ConsumptionNotFound

  function RecordConsumption(s: State, id: OutboxId, now: int): (State, Consumption) {
    if id !in s.messages then (s, ConsumptionNotFound)
    else if id in s.receipts then
      (s.(receipts := s.receipts[id := s.receipts[id].(deliveries := s.receipts[id].deliveries + 1)]),
       RepeatedConsumption)
    else (s.(receipts := s.receipts[id := Receipt(now, 1)]), FirstConsumption)
  }

  /** An operator returns one failed, never consumed message to the dispatcher. */
  function RecoverFailed(s: State, id: OutboxId, now: int): (State, bool) {
    if id in s.messages && s.messages[id].status == Failed && id !in s.receipts then
      (s.(messages := s.messages[id := s.messages[id].(
         status := Pending, publishedAt := None, failedAt := None, attempts := 0, claim := None,
         claimedUntil := None, nextAttemptAt := now, lastError := None)]), true)
    else (s, false)
  }

  /** Seconds to wait after a failed publication attempt: 30 doubled per attempt, at most 1800. */
  function RetryDelaySeconds(attempt: int): nat {
    Min(30 * Power2(Min(Max(attempt - 1, 0), 6)), 1_800)
  }

  function Power2(n: nat): nat {
    if n == 0 then 1 else 2 * Power2(n - 1)
  }

  /** The delay always satisfies its schema (0 to 3600 seconds), so recording a failed publication
      cannot itself fail, and it never shrinks from one attempt to the next. */
  lemma RetryDelayBounded(attempt: int)
    ensures 30 <= RetryDelaySeconds(attempt) <= RetryDelaySeconds(attempt + 1) <= 1_800
    ensures RetryDelaySeconds(attempt) <= 3_600
  {
    PowerSteps(Min(Max(attempt - 1, 0), 6));
  }

  lemma {:induction false} PowerSteps(n: nat)
    ensures 1 <= Power2(n) < Power2(n + 1)
  {
    if n > 0 {
      PowerSteps(n - 1);
    }
  }

  // ---------------------------------------------------------------------------------------
  // Runs
  // ---------------------------------------------------------------------------------------

  datatype Step =
    | Insert(id: OutboxId, target: Target, now: int)
    | Dispatch(picked: map<OutboxId, ClaimId>, now: int)
    | Publish(id: OutboxId, claim: ClaimId, now: int)
    | Fail(id: OutboxId, claim: ClaimId, error: PublishError, delaySeconds: nat, terminal: bool, now: int)
    | Consume(id: OutboxId, now: int)
    | Recover(id: OutboxId, now: int)

  function InsertMessage(s: State, id: OutboxId, target: Target, now: int): State {
    if id in s.messages then s else s.(messages := s.messages[id := NewMessage(target, now)])
  }

  function Apply(s: State, step: Step): State {
    match step
    case Insert(id, target, now) => InsertMessage(s, id, target, now)
    case Dispatch(picked, now) => ClaimPending(s, picked, now)
    case Publish(id, claim, now) => MarkPublished(s, id, claim, now).0
    case Fail(id, claim, error, delay, terminal, now) => RecordFailure(s, id, claim, error, delay, terminal, now).0
    case Consume(id, now) => RecordConsumption(s, id, now).0
    case Recover(id, now) => RecoverFailed(s, id, now).0
  }

  function Run(s: State, steps: seq<Step>): State
    decreases |steps|
  {
    if steps == [] then s else Run(Apply(s, steps[0]), steps[1..])
  }

  /** The CHECK constraints of the messages table, the bound on attempts and the foreign key of
      receipts. */
  predicate MessageFits(m: Message) {
    && m.attempts <= MAXIMUM_ATTEMPTS
    && (m.claim.Some? <==> m.claimedUntil.Some?)
    && (m.claim.Some? ==> m.status == Pending)
    && (m.status == Published <==> m.publishedAt.Some?)
    && (m.status == Failed <==> m.failedAt.Some?)
    && (m.status == Failed ==> m.lastError.Some?)
  }

  ghost predicate OutboxInvariant(s: State) {
    && (forall id :: id in s.messages ==> MessageFits(s.messages[id]))
    && (forall id :: id in s.receipts ==> id in s.messages && s.receipts[id].deliveries > 0)
  }

  lemma DispatchedFits(m: Message, receipt: Option<Receipt>, claim: Option<ClaimId>, now: int)
    requires MessageFits(m)
    ensures MessageFits(Dispatched(m, receipt, claim, now))
    ensures Dispatched(m, receipt, claim, now).target == m.target
  {
    var reconciled := Reconciled(m, receipt);
    assert MessageFits(reconciled);
    var revived := Revived(reconciled, receipt, now);
    assert MessageFits(revived);
    assert MessageFits(Exhausted(revived, now));
  }

  lemma DispatchKeepsOutbox(s: State, picked: map<OutboxId, ClaimId>, now: int)
    requires OutboxInvariant(s)
    ensures OutboxInvariant(ClaimPending(s, picked, now))
    ensures forall id :: id in s.messages ==>
              id in ClaimPending(s, picked, now).messages &&
              ClaimPending(s, picked, now).messages[id].target == s.messages[id].target
    ensures ClaimPending(s, picked, now).receipts == s.receipts
  {
    hide Dispatched, MessageFits;
    forall id | id in s.messages
      ensures MessageFits(ClaimPending(s, picked, now).messages[id])
      ensures ClaimPending(s, picked, now).messages[id].target == s.messages[id].target
    {
      DispatchedFits(s.messages[id], ReceiptOf(s, id), ClaimOf(picked, id), now);
    }
  }

  lemma ApplyKeepsOutbox(s: State, step: Step)
    requires OutboxInvariant(s)
    ensures OutboxInvariant(Apply(s, step))
    ensures forall id :: id in s.messages ==>
              id in Apply(s, step).messages && Apply(s, step).messages[id].target == s.messages[id].target
    ensures forall id :: id in s.receipts ==>
              id in Apply(s, step).receipts && Apply(s, step).receipts[id].consumedAt == s.receipts[id].consumedAt
  {
    hide ClaimPending;
    if step.Dispatch? {
      DispatchKeepsOutbox(s, step.picked, step.now);
    }
  }

  /** Row constraints hold after every run; messages keep their target, receipts are never lost and
      keep the time of the first consumption. */
  lemma {:induction false} OutboxHolds(s: State, steps: seq<Step>)
    requires OutboxInvariant(s)
    ensures OutboxInvariant(Run(s, steps))
    ensures forall id :: id in s.messages ==>
              id in Run(s, steps).messages && Run(s, steps).messages[id].target == s.messages[id].target
    ensures forall id :: id in s.receipts ==>
              id in Run(s, steps).receipts && Run(s, steps).receipts[id].consumedAt == s.receipts[id].consumedAt
    decreases |steps|
  {
    if steps != [] {
      ApplyKeepsOutbox(s, steps[0]);
      OutboxHolds(Apply(s, steps[0]), steps[1..]);
    }
  }

  // ---------------------------------------------------------------------------------------
  // How often a message is claimed
  // ---------------------------------------------------------------------------------------

  predicate ClaimsIt(s: State, step: Step, id: OutboxId) {
    step.Dispatch? && Takes(s, step.picked, step.now, id)
  }

  predicate RecoversIt(s: State, step: Step, id: OutboxId) {
    step.Recover? && step.id == id && RecoverFailed(s, id, step.now).1
  }

  function TimesClaimed(s: State, steps: seq<Step>, id: OutboxId): nat
    decreases |steps|
  {
    if steps == [] then 0
    else (if ClaimsIt(s, steps[0], id) then 1 else 0) + TimesClaimed(Apply(s, steps[0]), steps[1..], id)
  }

  function TimesRecovered(s: State, steps: seq<Step>, id: OutboxId): nat
    decreases |steps|
  {
    if steps == [] then 0
    else (if RecoversIt(s, steps[0], id) then 1 else 0) + TimesRecovered(Apply(s, steps[0]), steps[1..], id)
  }

  function AttemptsOf(s: State, id: OutboxId): nat {
    if id in s.messages then s.messages[id].attempts else 0
  }

  /** The attempt counter moves only with a claim or an operator recovery. */
  lemma AttemptsStep(s: State, step: Step, id: OutboxId)
    requires OutboxInvariant(s)
    ensures !RecoversIt(s, step, id) ==>
              AttemptsOf(Apply(s, step), id) == AttemptsOf(s, id) + (if ClaimsIt(s, step, id) then 1 else 0)
    ensures RecoversIt(s, step, id) ==> AttemptsOf(Apply(s, step), id) == 0 && !ClaimsIt(s, step, id)
  {
  }

  /** A message is claimed at most five times, plus five for each operator recovery. */
  lemma {:induction false} ClaimsBounded(s: State, steps: seq<Step>, id: OutboxId)
    requires OutboxInvariant(s)
    ensures AttemptsOf(s, id) + TimesClaimed(s, steps, id) <= MAXIMUM_ATTEMPTS * (1 + TimesRecovered(s, steps, id))
    decreases |steps|
  {
    if steps != [] {
      AttemptsStep(s, steps[0], id);
      ApplyKeepsOutbox(s, steps[0]);
      ClaimsBounded(Apply(s, steps[0]), steps[1..], id);
    }
  }

  /** Once a consumer has left a receipt, the message is never claimed or recovered again. */
  lemma {:induction false} ConsumedStaysQuiet(s: State, steps: seq<Step>, id: OutboxId)
    requires OutboxInvariant(s) && id in s.receipts
    ensures TimesClaimed(s, steps, id) == 0 && TimesRecovered(s, steps, id) == 0
    decreases |steps|
  {
    if steps != [] {
      ApplyKeepsOutbox(s, steps[0]);
      ConsumedStaysQuiet(Apply(s, steps[0]), steps[1..], id);
    }
  }

  /** A dispatcher whose claim was released or taken over changes no row: only the current claim
      of a pending message can publish it or fail it. */
  lemma StaleClaimIsHarmless(
      s: State, id: OutboxId, claim: ClaimId, error: PublishError, delay: nat, terminal: bool, now: int)
    requires !Holds(s, id, claim)
    ensures MarkPublished(s, id, claim, now).0 == s
    ensures RecordFailure(s, id, claim, error, delay, terminal, now).0 == s
    ensures id in s.messages ==>
              (MarkPublished(s, id, claim, now).1 == StateConflict <==> s.messages[id].status != Published)
  {
  }

  /** A claim excludes other dispatchers until its lease ends, or the message is consumed. */
  lemma LeaseExcludes(s: State, id: OutboxId, claim: ClaimId, picked: map<OutboxId, ClaimId>, now: int)
    requires OutboxInvariant(s) && Holds(s, id, claim) && now < s.messages[id].claimedUntil.value && id !in s.receipts
    ensures !Takes(s, picked, now, id)
    ensures ClaimPending(s, picked, now).messages[id] == s.messages[id]
  {
  }

  /** When an unconsumed message is due: after its pause, its lease, or the patience for its receipt. */
  function Due(m: Message): int {
    match m.status
    case Published => if m.publishedAt.Some? then m.publishedAt.value + RECEIPT_TIMEOUT_SECONDS * 1_000 else 0
    case _ => Max(m.nextAttemptAt, if m.claimedUntil.Some? then m.claimedUntil.value else m.nextAttemptAt)
  }

  /** No message is stranded: once due, an unconsumed message that the selection picks is claimed
      again, or it has used its five attempts and waits, failed, for an operator. */
  lemma NoMessageIsStranded(s: State, id: OutboxId, picked: map<OutboxId, ClaimId>, now: int)
    requires OutboxInvariant(s) && id in s.messages && id !in s.receipts && s.messages[id].status != Failed
    requires id in picked && Due(s.messages[id]) <= now
    ensures Takes(s, picked, now, id) <==> s.messages[id].attempts < MAXIMUM_ATTEMPTS
    ensures ClaimPending(s, picked, now).messages[id].status == Failed <==> s.messages[id].attempts == MAXIMUM_ATTEMPTS
  {
    assert MessageFits(s.messages[id]);
  }

  // ---------------------------------------------------------------------------------------
  // Concluding a publication
  // ---------------------------------------------------------------------------------------

  datatype PublishResult = Sent | SendUnknown | SendRefused

  /** The row of a claimed message once the dispatcher has recorded the queue's answer to its attempt. */
  function Concluded(m: Message, attempt: nat, result: PublishResult, now: int): Message {
    var free := m.(claim := None, claimedUntil := None);
    if result == Sent then
      free.(status := Published, publishedAt := Some(now), lastError := None)
    else
      var terminal := attempt >= MAXIMUM_ATTEMPTS;
      var delay := if result == SendUnknown then RECEIPT_TIMEOUT_SECONDS else RetryDelaySeconds(attempt);
      free.(status := if terminal then Failed else Pending, failedAt := if terminal then Some(now) else None,
            nextAttemptAt := if terminal then now else now + delay * 1_000,
            lastError := Some(if result == SendUnknown then QueueOutcomeUnknown else QueueUnavailable))
  }
}
