/** The Telegram pipeline as one transition system: webhooks, the outbox dispatcher, any number of
    queue workers that may be slow, crash or repeat each other, the provider, and operators. A worker
    crashes by never being scheduled again; a duplicate queue delivery is a second worker. */
module Pipeline {
  import opened Common
  import Outbox
  import Intake
  import Delivery
  import opened TelegramContent

  type WorkerId = nat

  /** Where a worker is in the processing of its job. */
  datatype Phase =
    | Received
    | Processing(event: Intake.EventId, claim: Intake.ClaimId)
    | Replying
    | Sending(reply: Delivery.ReplyId, attempt: Delivery.AttemptId)
    | Reporting(reply: Delivery.ReplyId, attempt: Delivery.AttemptId, outcome: Delivery.Outcome)
    | Finishing
    | Ended

  datatype Worker = Worker(outbox: Outbox.OutboxId, phase: Phase)

  /** What the provider did with an attempt, and whether the user got the message. */
  datatype Sent = Sent(outcome: Delivery.Outcome, delivered: bool)

  datatype State = State(
    outbox: Outbox.State,
    intake: Intake.State,
    delivery: Delivery.State,
    workers: map<WorkerId, Worker>,
    sends: map<Delivery.AttemptId, Sent>)

  const INITIAL := State(
    Outbox.State(map[], map[]), Intake.State(map[], map[], map[]), Delivery.State(map[], map[], map[]), map[], map[])

  /** An explicit rejection delivers nothing, an acceptance delivers, an unknown outcome may be either. */
  predicate Truthful(sent: Sent) {
    && (sent.outcome.Accepted? ==> sent.delivered)
    && (sent.outcome.Transient? || sent.outcome.Rejected? ==> !sent.delivered)
  }

  datatype Event =
    | Webhook(event: Intake.EventId, outbox: Outbox.OutboxId, update: Intake.UpdateId, account: Intake.AccountId,
              content: Content, now: int)
    | Dispatcher(step: Outbox.Step)
    | Begin(worker: WorkerId, outbox: Outbox.OutboxId)
    | ClaimEvent(worker: WorkerId, claim: Intake.ClaimId, workerNow: int, now: int)
    | CheckUser(worker: WorkerId, user: Intake.UserId, now: int)
    | CompleteEvent(worker: WorkerId, completion: Completion, reply: Delivery.ReplyId, outbox: Outbox.OutboxId,
                    now: int)
    | ReleaseEvent(worker: WorkerId)
    | ClaimReply(worker: WorkerId, attempt: Delivery.AttemptId, workerNow: int, now: int)
    | Send(worker: WorkerId, sent: Sent)
    | Report(worker: WorkerId, now: int)
    | Acknowledge(worker: WorkerId, now: int)
    | PrepareRecovery(recovery: Delivery.RecoveryId, reply: Delivery.ReplyId, errorCode: string,
                      reason: Delivery.Reason)
    | MarkRecovery(recovery: Delivery.RecoveryId, now: int)

  // ---------------------------------------------------------------------------------------
  // Steps
  // ---------------------------------------------------------------------------------------

  predicate Runs(s: State, worker: WorkerId) {
    worker in s.workers && s.workers[worker].outbox in s.outbox.messages
  }

  function TargetOf(s: State, worker: WorkerId): Outbox.Target
    requires Runs(s, worker)
  {
    s.outbox.messages[s.workers[worker].outbox].target
  }

  function Goto(s: State, worker: WorkerId, phase: Phase): State
    requires worker in s.workers
  {
    s.(workers := s.workers[worker := s.workers[worker].(phase := phase)])
  }

  function WebhookStep(
      s: State, event: Intake.EventId, outbox: Outbox.OutboxId, update: Intake.UpdateId, account: Intake.AccountId,
      content: Content, now: int): State
  {
    var persisted := Intake.Persist(s.intake, event, update, account, content);
    if persisted.1 == Intake.Accepted && outbox !in s.outbox.messages then
      s.(intake := persisted.0, outbox := Outbox.InsertMessage(s.outbox, outbox, Outbox.EventReceived(event), now))
    else s
  }

  function BeginStep(s: State, worker: WorkerId, outbox: Outbox.OutboxId): State {
    if worker !in s.workers && outbox in s.outbox.messages then
      s.(workers := s.workers[worker := Worker(outbox, Received)])
    else s
  }

  function AfterEventClaim(event: Intake.EventId, outcome: Intake.ClaimOutcome): Phase {
    match outcome
    case Claimed(claim) => Processing(event, claim)
    case Duplicate => Finishing
    case RateLimited => Finishing
    case Deferred(_) => Ended
    case NotFound => Replying
  }

  function ClaimEventStep(s: State, worker: WorkerId, claim: Intake.ClaimId, workerNow: int, now: int): State {
    if !(Runs(s, worker) && s.workers[worker].phase.Received?) then s
    else
      match TargetOf(s, worker)
      case EventReceived(event) =>
        var claimed := Intake.Claim(s.intake, event, claim, workerNow, now);
        Goto(s.(intake := claimed.0), worker, AfterEventClaim(event, claimed.1))
      case ReplyRequested(_) => Goto(s, worker, Replying)
  }

  function CheckUserStep(s: State, worker: WorkerId, user: Intake.UserId, now: int): State {
    if !(Runs(s, worker) && s.workers[worker].phase.Processing?) then s
    else
      var phase := s.workers[worker].phase;
      var checked := Intake.EnforceUserLimit(s.intake, phase.event, phase.claim, user, now);
      Goto(s.(intake := checked.0), worker,
           match checked.1
           case Allowed => phase
           case UserRateLimited => Finishing
           case UserLimitUnavailable => Ended)
  }

  /** One transaction processes the event, inserts its reply and the reply's queue message. */
  function CompleteEventStep(
      s: State, worker: WorkerId, completion: Completion, reply: Delivery.ReplyId, outbox: Outbox.OutboxId, now: int)
      : State
  {
    if !(Runs(s, worker) && s.workers[worker].phase.Processing?) then s
    else
      var phase := s.workers[worker].phase;
      var completed := Intake.Complete(s.intake, phase.event, phase.claim, completion, now);
      if completed.1 && reply !in s.delivery.replies && outbox !in s.outbox.messages then
        Goto(s.(intake := completed.0,
                delivery := Delivery.Insert(s.delivery, reply, phase.event, completion),
                outbox := Outbox.InsertMessage(s.outbox, outbox, Outbox.ReplyRequested(reply), now)),
             worker, Finishing)
      else Goto(s, worker, Ended)
  }

  function ReleaseEventStep(s: State, worker: WorkerId): State {
    if !(Runs(s, worker) && s.workers[worker].phase.Processing?) then s
    else
      var phase := s.workers[worker].phase;
      Goto(s.(intake := Intake.Release(s.intake, phase.event, phase.claim)), worker, Ended)
  }

  function AfterReplyClaim(reply: Delivery.ReplyId, outcome: Delivery.ClaimOutcome): Phase {
    match outcome
    case Claimed(attempt) => Sending(reply, attempt)
    case AlreadyTerminal => Finishing
    case Deferred(_) => Ended
    case NotFound => Finishing
    case Unavailable => Ended
  }

  function ClaimReplyStep(s: State, worker: WorkerId, attempt: Delivery.AttemptId, workerNow: int, now: int): State {
    if !(Runs(s, worker) && s.workers[worker].phase.Replying?) then s
    else
      match TargetOf(s, worker)
      case EventReceived(_) => Goto(s, worker, Finishing)
      case ReplyRequested(reply) =>
        var claimed := Delivery.Claim(s.delivery, reply, attempt, workerNow, now);
        Goto(s.(delivery := claimed.0), worker, AfterReplyClaim(reply, claimed.1))
  }

  /** The provider call of a claimed attempt: it happens once, at any later time, lease or no lease. */
  function SendStep(s: State, worker: WorkerId, sent: Sent): State {
    if !(Runs(s, worker) && s.workers[worker].phase.Sending? && Truthful(sent)) then s
    else
      var phase := s.workers[worker].phase;
      Goto(s.(sends := s.sends[phase.attempt := sent]), worker, Reporting(phase.reply, phase.attempt, sent.outcome))
  }

  function ReportStep(s: State, worker: WorkerId, now: int): State {
    if !(Runs(s, worker) && s.workers[worker].phase.Reporting?) then s
    else
      var phase := s.workers[worker].phase;
      var completed := Delivery.CompleteAttempt(s.delivery, phase.reply, phase.attempt, phase.outcome, now);
      Goto(s.(delivery := completed.0), worker,
           if completed.1 && !phase.outcome.Transient? then Finishing else Ended)
  }

  function AcknowledgeStep(s: State, worker: WorkerId, now: int): State {
    if !(Runs(s, worker) && s.workers[worker].phase.Finishing?) then s
    else Goto(s.(outbox := Outbox.RecordConsumption(s.outbox, s.workers[worker].outbox, now).0), worker, Ended)
  }

  /** The operator's request joins the reply with its queue message. */
  ghost function PrepareRecoveryStep(
      s: State, recovery: Delivery.RecoveryId, reply: Delivery.ReplyId, errorCode: string, reason: Delivery.Reason)
      : State
  {
    var outbox := Outbox.MessageFor(s.outbox.messages, Outbox.ReplyRequested(reply));
    s.(delivery := Delivery.Prepare(s.delivery, recovery, reply, errorCode, reason, outbox).0)
  }

  /** Steps of the dispatcher and of the outbox operator; inserts and receipts have their own events. */
  predicate DispatcherStep(step: Outbox.Step) {
    !step.Insert? && !step.Consume?
  }

  ghost function Step(s: State, event: Event): State {
    match event
    case Webhook(id, outbox, update, account, content, now) => WebhookStep(s, id, outbox, update, account, content, now)
    case Dispatcher(step) => if DispatcherStep(step) then s.(outbox := Outbox.Apply(s.outbox, step)) else s
    case Begin(worker, outbox) => BeginStep(s, worker, outbox)
    case ClaimEvent(worker, claim, workerNow, now) => ClaimEventStep(s, worker, claim, workerNow, now)
    case CheckUser(worker, user, now) => CheckUserStep(s, worker, user, now)
    case CompleteEvent(worker, completion, reply, outbox, now) =>
      CompleteEventStep(s, worker, completion, reply, outbox, now)
    case ReleaseEvent(worker) => ReleaseEventStep(s, worker)
    case ClaimReply(worker, attempt, workerNow, now) => ClaimReplyStep(s, worker, attempt, workerNow, now)
    case Send(worker, sent) => SendStep(s, worker, sent)
    case Report(worker, now) => ReportStep(s, worker, now)
    case Acknowledge(worker, now) => AcknowledgeStep(s, worker, now)
    case PrepareRecovery(recovery, reply, errorCode, reason) =>
      PrepareRecoveryStep(s, recovery, reply, errorCode, reason)
    case MarkRecovery(recovery, now) => s.(delivery := Delivery.MarkPublished(s.delivery, recovery, now).0)
  }

  ghost function Run(s: State, events: seq<Event>): State
    decreases |events|
  {
    if events == [] then s else Run(Step(s, events[0]), events[1..])
  }

  // ---------------------------------------------------------------------------------------
  // Invariant
  // ---------------------------------------------------------------------------------------

  /** The work a queue message stands for is over, or an operator has reopened it since. */
  ghost predicate Done(s: State, target: Outbox.Target) {
    match target
    case EventReceived(event) => event in s.intake.events && Intake.Terminal(s.intake.events[event])
    case ReplyRequested(reply) =>
      && reply in s.delivery.replies
      && (Delivery.Terminal(s.delivery.replies[reply]) || Delivery.HasRecovery(s.delivery.recoveries, reply))
  }

  ghost predicate TargetsFit(s: State) {
    forall id :: id in s.outbox.messages ==>
      match s.outbox.messages[id].target
      case EventReceived(event) => event in s.intake.events
      case ReplyRequested(reply) => reply in s.delivery.replies
  }

  /** An event and a reply have one queue message each. */
  ghost predicate TargetsUnique(s: State) {
    forall a, b ::
      (a in s.outbox.messages && b in s.outbox.messages && s.outbox.messages[a].target == s.outbox.messages[b].target)
      ==> a == b
  }

  /** Every reply belongs to a processed event and has its owner, and no event has two. */
  ghost predicate RepliesFit(s: State) {
    && (forall r :: r in s.delivery.replies ==>
          && s.delivery.replies[r].event in s.intake.events
          && s.intake.events[s.delivery.replies[r].event].status == Intake.Processed
          && s.intake.events[s.delivery.replies[r].event].owner == s.delivery.replies[r].owner)
    && (forall a, b ::
          a in s.delivery.replies && b in s.delivery.replies &&
            s.delivery.replies[a].event == s.delivery.replies[b].event
          ==> a == b)
  }

  /** The part of the invariant that is about the tables alone. */
  ghost predicate TablesFit(s: State) {
    && Outbox.OutboxInvariant(s.outbox)
    && Intake.IntakeInvariant(s.intake)
    && Delivery.DeliveryInvariant(s.delivery)
    && TargetsFit(s)
    && TargetsUnique(s)
    && RepliesFit(s)
  }

  ghost predicate WorkerFits(s: State, w: Worker) {
    w.outbox in s.outbox.messages &&
    var target := s.outbox.messages[w.outbox].target;
    match w.phase
    case Received => true
    case Processing(event, _) => target == Outbox.EventReceived(event)
    case Replying => target.ReplyRequested?
    case Sending(reply, attempt) =>
      && target == Outbox.ReplyRequested(reply)
      && attempt in s.delivery.attempts
      && attempt !in s.sends
    case Reporting(reply, attempt, outcome) =>
      && target == Outbox.ReplyRequested(reply)
      && attempt in s.sends
      && s.sends[attempt].outcome == outcome
    case Finishing => Done(s, target)
    case Ended => true
  }

  ghost predicate WorkersFit(s: State) {
    forall w :: w in s.workers ==> WorkerFits(s, s.workers[w])
  }

  /** No two workers hold the same unsent attempt. */
  ghost predicate SendersUnique(s: State) {
    forall v, w ::
      (v in s.workers && w in s.workers && s.workers[v].phase.Sending? && s.workers[w].phase.Sending? &&
       s.workers[v].phase.attempt == s.workers[w].phase.attempt)
      ==> v == w
  }

  /** Every call is of a claimed attempt, and every reported outcome is what the provider said. */
  ghost predicate SendsFit(s: State) {
    && (forall a :: a in s.sends ==> a in s.delivery.attempts && Truthful(s.sends[a]))
    && (forall a :: a in s.delivery.attempts && Delivery.Reported(s.delivery.attempts[a]) ==>
          a in s.sends && s.sends[a].outcome == s.delivery.attempts[a].outcome.value)
  }

  ghost predicate ReceiptsFit(s: State) {
    forall id :: id in s.outbox.receipts ==> id in s.outbox.messages && Done(s, s.outbox.messages[id].target)
  }

  ghost predicate PipelineInvariant(s: State) {
    && TablesFit(s)
    && WorkersFit(s)
    && SendersUnique(s)
    && SendsFit(s)
    && ReceiptsFit(s)
  }

  /** What every step keeps. */
  ghost predicate Evolves(s: State, t: State) {
    && (forall id :: id in s.outbox.messages ==>
          id in t.outbox.messages && t.outbox.messages[id].target == s.outbox.messages[id].target)
    && (forall id :: id in s.outbox.receipts ==> id in t.outbox.receipts)
    && Intake.Evolves(s.intake, t.intake)
    && Delivery.Evolves(s.delivery, t.delivery)
    && (forall a :: a in s.sends ==> a in t.sends && t.sends[a] == s.sends[a])
  }

  /** Work that is over stays over. */
  lemma DoneStays(s: State, t: State, target: Outbox.Target)
    requires Evolves(s, t) && Done(s, target)
    ensures Done(t, target)
  {
    match target
    case EventReceived(event) =>
    case ReplyRequested(reply) =>
      if !Delivery.Terminal(s.delivery.replies[reply]) {
        var v :| v in s.delivery.recoveries && s.delivery.recoveries[v].reply == reply;
        assert Delivery.SameRequest(t.delivery.recoveries[v], s.delivery.recoveries[v]);
      }
  }

  /** A worker that does not move still fits, unless its own attempt was sent meanwhile. */
  lemma WorkerStays(s: State, t: State, w: Worker)
    requires Evolves(s, t) && WorkerFits(s, w)
    requires w.phase.Sending? ==> w.phase.attempt !in t.sends
    ensures WorkerFits(t, w)
  {
    hide Intake.Evolves;
    if w.phase.Finishing? {
      DoneStays(s, t, s.outbox.messages[w.outbox].target);
    }
  }

  lemma ReceiptsStay(s: State, t: State)
    requires Evolves(s, t) && ReceiptsFit(s)
    requires forall id :: id in t.outbox.receipts ==>
               id in s.outbox.receipts || (id in t.outbox.messages && Done(t, t.outbox.messages[id].target))
    ensures ReceiptsFit(t)
  {
    hide Done;
    forall id | id in s.outbox.receipts
      ensures id in t.outbox.messages && Done(t, t.outbox.messages[id].target)
    {
      DoneStays(s, t, s.outbox.messages[id].target);
    }
  }

  /** The workers after a step in which at most one of them moved. */
  lemma WorkersStay(s: State, t: State, mover: WorkerId)
    requires Evolves(s, t) && WorkersFit(s) && SendersUnique(s)
    requires forall w :: w in t.workers && w != mover ==> w in s.workers && t.workers[w] == s.workers[w]
    requires forall w :: w in s.workers && w != mover && s.workers[w].phase.Sending? ==>
             s.workers[w].phase.attempt !in t.sends
    requires mover in t.workers ==> WorkerFits(t, t.workers[mover])
    requires mover in t.workers && t.workers[mover].phase.Sending? ==>
               t.workers[mover].phase.attempt !in s.delivery.attempts
    ensures WorkersFit(t) && SendersUnique(t)
  {
    forall w | w in t.workers ensures WorkerFits(t, t.workers[w]) {
      if w != mover {
        WorkerStays(s, t, s.workers[w]);
      }
    }
    forall v, w | v in t.workers && w in t.workers && t.workers[v].phase.Sending? && t.workers[w].phase.Sending? &&
                  t.workers[v].phase.attempt == t.workers[w].phase.attempt
      ensures v == w
    {
      assert v != mover ==> WorkerFits(s, s.workers[v]);
      assert w != mover ==> WorkerFits(s, s.workers[w]);
    }
  }

  lemma TargetsStay(s: State, t: State)
    requires Evolves(s, t) && TargetsFit(s) && TargetsUnique(s)
    requires t.outbox.messages.Keys == s.outbox.messages.Keys
    ensures TargetsFit(t) && TargetsUnique(t)
  {
    forall id | id in t.outbox.messages
      ensures match t.outbox.messages[id].target
              case EventReceived(event) => event in t.intake.events
              case ReplyRequested(reply) => reply in t.delivery.replies
    {
      assert id in s.outbox.messages;
    }
  }

  lemma RepliesStay(s: State, t: State)
    requires Evolves(s, t) && RepliesFit(s) && t.delivery.replies.Keys == s.delivery.replies.Keys
    ensures RepliesFit(t)
  {
    forall r | r in t.delivery.replies
      ensures Delivery.SameMessage(t.delivery.replies[r], s.delivery.replies[r])
    {
    }
  }

  /** A message for a target that did not exist before is that target's only one. */
  lemma TargetAdded(s: State, t: State, outbox: Outbox.OutboxId)
    requires TargetsUnique(s) && TargetsFit(s) && outbox !in s.outbox.messages && outbox in t.outbox.messages
    requires t.outbox.messages == s.outbox.messages[outbox := t.outbox.messages[outbox]]
    requires match t.outbox.messages[outbox].target
             case EventReceived(event) => event !in s.intake.events
             case ReplyRequested(reply) => reply !in s.delivery.replies
    ensures TargetsUnique(t)
  {
  }

  /** The common part of every step: what follows once the step is known to evolve the state and no
      target, reply or receipt is new. */
  lemma Settle(s: State, t: State, mover: WorkerId)
    requires PipelineInvariant(s) && Evolves(s, t)
    requires Outbox.OutboxInvariant(t.outbox) && Intake.IntakeInvariant(t.intake) &&
             Delivery.DeliveryInvariant(t.delivery)
    requires t.outbox.messages.Keys == s.outbox.messages.Keys && t.delivery.replies.Keys == s.delivery.replies.Keys
    requires forall w :: w in t.workers && w != mover ==> w in s.workers && t.workers[w] == s.workers[w]
    requires forall w :: w in s.workers && w != mover && s.workers[w].phase.Sending? ==>
             s.workers[w].phase.attempt !in t.sends
    requires mover in t.workers ==> WorkerFits(t, t.workers[mover])
    requires mover in t.workers && t.workers[mover].phase.Sending? ==>
               t.workers[mover].phase.attempt !in s.delivery.attempts
    requires SendsFit(t)
    requires forall id :: id in t.outbox.receipts ==>
               id in s.outbox.receipts || (id in t.outbox.messages && Done(t, t.outbox.messages[id].target))
    ensures PipelineInvariant(t)
  {
    hide Outbox.OutboxInvariant, Intake.IntakeInvariant, Delivery.DeliveryInvariant, Evolves, WorkerFits, Done;
    hide TargetsFit, TargetsUnique, RepliesFit, WorkersFit, SendersUnique, SendsFit, ReceiptsFit;
    TargetsStay(s, t);
    RepliesStay(s, t);
    WorkersStay(s, t, mover);
    ReceiptsStay(s, t);
  }

  lemma BeginKeeps(s: State, worker: WorkerId, outbox: Outbox.OutboxId)
    requires PipelineInvariant(s)
    ensures PipelineInvariant(BeginStep(s, worker, outbox)) && Evolves(s, BeginStep(s, worker, outbox))
  {
    hide Outbox.OutboxInvariant, Intake.IntakeInvariant, Delivery.DeliveryInvariant, TargetsFit, RepliesFit,
      ReceiptsFit;
    var t := BeginStep(s, worker, outbox);
    assert Evolves(s, t);
    if t != s {
      assert forall w :: w in s.workers ==> WorkerFits(s, s.workers[w]);
      hide WorkersFit, SendersUnique;
      Settle(s, t, worker);
    }
  }

  /** The facts about one worker that its step starts from. */
  lemma Working(s: State, worker: WorkerId)
    requires PipelineInvariant(s) && worker in s.workers
    ensures Runs(s, worker) && WorkerFits(s, s.workers[worker])
    ensures match TargetOf(s, worker)
            case EventReceived(event) => event in s.intake.events
            case ReplyRequested(reply) => reply in s.delivery.replies
  {
    hide Outbox.OutboxInvariant, Intake.IntakeInvariant, Delivery.DeliveryInvariant, RepliesFit, ReceiptsFit, SendsFit;
    hide SendersUnique;
  }

  lemma Unsent(s: State)
    requires WorkersFit(s)
    ensures forall w :: w in s.workers && s.workers[w].phase.Sending? ==> s.workers[w].phase.attempt !in s.sends
  {
    forall w | w in s.workers && s.workers[w].phase.Sending? ensures s.workers[w].phase.attempt !in s.sends {
      assert WorkerFits(s, s.workers[w]);
    }
  }

  /** A worker's step on the events tables. */
  lemma SettleIntake(s: State, worker: WorkerId, intake: Intake.State, phase: Phase)
    requires PipelineInvariant(s) && worker in s.workers && !phase.Sending?
    requires Intake.IntakeInvariant(intake) && Intake.Evolves(s.intake, intake)
    requires WorkerFits(Goto(s.(intake := intake), worker, phase), s.workers[worker].(phase := phase))
    ensures PipelineInvariant(Goto(s.(intake := intake), worker, phase))
    ensures Evolves(s, Goto(s.(intake := intake), worker, phase))
  {
    hide Outbox.OutboxInvariant, Intake.IntakeInvariant, Intake.Evolves, Delivery.DeliveryInvariant;
    hide WorkersFit, WorkerFits, SendersUnique, ReceiptsFit, TargetsFit, RepliesFit;
    var t := Goto(s.(intake := intake), worker, phase);
    assert Evolves(s, t);
    Unsent(s);
    hide Evolves;
    Settle(s, t, worker);
  }

  /** A worker's step on the replies tables: every outcome it reports was the provider's. */
  lemma SettleDelivery(s: State, worker: WorkerId, delivery: Delivery.State, phase: Phase)
    requires PipelineInvariant(s) && worker in s.workers
    requires Delivery.DeliveryInvariant(delivery) && Delivery.Evolves(s.delivery, delivery)
    requires delivery.replies.Keys == s.delivery.replies.Keys
    requires forall a :: a in delivery.attempts && Delivery.Reported(delivery.attempts[a]) ==>
               (a in s.delivery.attempts && s.delivery.attempts[a] == delivery.attempts[a])
               || (a in s.sends && s.sends[a].outcome == delivery.attempts[a].outcome.value)
    requires phase.Sending? ==> phase.attempt !in s.delivery.attempts
    requires WorkerFits(Goto(s.(delivery := delivery), worker, phase), s.workers[worker].(phase := phase))
    ensures PipelineInvariant(Goto(s.(delivery := delivery), worker, phase))
    ensures Evolves(s, Goto(s.(delivery := delivery), worker, phase))
  {
    hide Outbox.OutboxInvariant, Intake.IntakeInvariant, Delivery.DeliveryInvariant, Delivery.Reported;
    hide WorkersFit, WorkerFits, SendersUnique, ReceiptsFit, TargetsFit, RepliesFit;
    var t := Goto(s.(delivery := delivery), worker, phase);
    assert SendsFit(t);
    hide Delivery.Evolves;
    assert Evolves(s, t);
    Unsent(s);
    hide Evolves, SendsFit;
    Settle(s, t, worker);
  }

  lemma ClaimEventKeeps(s: State, worker: WorkerId, claim: Intake.ClaimId, workerNow: int, now: int)
    requires PipelineInvariant(s)
    ensures PipelineInvariant(ClaimEventStep(s, worker, claim, workerNow, now))
    ensures Evolves(s, ClaimEventStep(s, worker, claim, workerNow, now))
  {
    hide PipelineInvariant, Evolves, Intake.Evolves, Intake.IntakeInvariant;
    if Runs(s, worker) && s.workers[worker].phase.Received? {
      Working(s, worker);
      Components(s);
      match TargetOf(s, worker)
      case EventReceived(event) =>
        Intake.EventsFit(s.intake, event);
        Intake.ClaimKeeps(s.intake, event, claim, workerNow, now);
        var claimed := Intake.Claim(s.intake, event, claim, workerNow, now);
        SettleIntake(s, worker, claimed.0, AfterEventClaim(event, claimed.1));
      case ReplyRequested(_) =>
        SettleIntake(s, worker, s.intake, Replying);
    } else {
      Unmoved(s);
    }
  }

  lemma Components(s: State)
    requires PipelineInvariant(s)
    ensures Intake.IntakeInvariant(s.intake) && Intake.Evolves(s.intake, s.intake)
    ensures Delivery.DeliveryInvariant(s.delivery) && Delivery.Evolves(s.delivery, s.delivery)
  {
    hide Intake.IntakeInvariant, Delivery.DeliveryInvariant;
  }

  lemma Unmoved(s: State)
    ensures Evolves(s, s)
  {
  }

  lemma CheckUserKeeps(s: State, worker: WorkerId, user: Intake.UserId, now: int)
    requires PipelineInvariant(s)
    ensures PipelineInvariant(CheckUserStep(s, worker, user, now))
    ensures Evolves(s, CheckUserStep(s, worker, user, now))
  {
    hide PipelineInvariant, Evolves, Intake.Evolves, Intake.IntakeInvariant;
    if Runs(s, worker) && s.workers[worker].phase.Processing? {
      Working(s, worker);
      Components(s);
      var phase := s.workers[worker].phase;
      var checked := Intake.EnforceUserLimit(s.intake, phase.event, phase.claim, user, now);
      Intake.EnforceUserLimitKeeps(s.intake, phase.event, phase.claim, user, now);
      Intake.EventsFit(s.intake, phase.event);
      SettleIntake(s, worker, checked.0, CheckUserStep(s, worker, user, now).workers[worker].phase);
    } else {
      Unmoved(s);
    }
  }

  lemma ReleaseEventKeeps(s: State, worker: WorkerId)
    requires PipelineInvariant(s)
    ensures PipelineInvariant(ReleaseEventStep(s, worker)) && Evolves(s, ReleaseEventStep(s, worker))
  {
    hide PipelineInvariant, Evolves, Intake.Evolves, Intake.IntakeInvariant;
    if Runs(s, worker) && s.workers[worker].phase.Processing? {
      Working(s, worker);
      Components(s);
      var phase := s.workers[worker].phase;
      Intake.ReleaseKeeps(s.intake, phase.event, phase.claim);
      SettleIntake(s, worker, Intake.Release(s.intake, phase.event, phase.claim), Ended);
    } else {
      Unmoved(s);
    }
  }

  /** Claiming a reply reports no outcome. */
  lemma ClaimReportsNothing(
      d: Delivery.State, reply: Delivery.ReplyId, attempt: Delivery.AttemptId, workerNow: int, now: int)
    ensures var e := Delivery.Claim(d, reply, attempt, workerNow, now).0;
            && e.replies.Keys == d.replies.Keys
            && (forall a :: a in e.attempts && Delivery.Reported(e.attempts[a]) ==>
                  a in d.attempts && d.attempts[a] == e.attempts[a])
  {
  }

  lemma ClaimReplyKeeps(s: State, worker: WorkerId, attempt: Delivery.AttemptId, workerNow: int, now: int)
    requires PipelineInvariant(s)
    ensures PipelineInvariant(ClaimReplyStep(s, worker, attempt, workerNow, now))
    ensures Evolves(s, ClaimReplyStep(s, worker, attempt, workerNow, now))
  {
    hide PipelineInvariant, Evolves, Delivery.Evolves, Delivery.DeliveryInvariant, Delivery.Reported, Delivery.Conclude;
    if Runs(s, worker) && s.workers[worker].phase.Replying? {
      Working(s, worker);
      Components(s);
      SendsKnown(s);
      var reply := TargetOf(s, worker).reply;
      var claimed := Delivery.Claim(s.delivery, reply, attempt, workerNow, now);
      Delivery.ClaimKeeps(s.delivery, reply, attempt, workerNow, now);
      ClaimReportsNothing(s.delivery, reply, attempt, workerNow, now);
      SettleDelivery(s, worker, claimed.0, AfterReplyClaim(reply, claimed.1));
    } else {
      Unmoved(s);
    }
  }

  lemma SendsKnown(s: State)
    requires PipelineInvariant(s)
    ensures SendsFit(s)
    ensures forall a :: a in s.sends ==> a in s.delivery.attempts
  {
    hide Outbox.OutboxInvariant, Intake.IntakeInvariant, Delivery.DeliveryInvariant;
  }

  lemma SendKeeps(s: State, worker: WorkerId, sent: Sent)
    requires PipelineInvariant(s)
    ensures PipelineInvariant(SendStep(s, worker, sent)) && Evolves(s, SendStep(s, worker, sent))
  {
    hide Outbox.OutboxInvariant, Intake.IntakeInvariant, Intake.Evolves, Delivery.DeliveryInvariant, Delivery.Evolves;
    hide TargetsFit, RepliesFit, ReceiptsFit, WorkersFit, Delivery.Reported;
    if Runs(s, worker) && s.workers[worker].phase.Sending? && Truthful(sent) {
      Working(s, worker);
      Unsent(s);
      Components(s);
      var t := SendStep(s, worker, sent);
      assert Evolves(s, t);
      assert SendsFit(t);
      hide Evolves, SendsFit;
      Settle(s, t, worker);
    } else {
      Unmoved(s);
    }
  }

  /** Completing an attempt reports that outcome only. */
  lemma CompletionReports(
      d: Delivery.State, reply: Delivery.ReplyId, attempt: Delivery.AttemptId, outcome: Delivery.Outcome, now: int)
    ensures var e := Delivery.CompleteAttempt(d, reply, attempt, outcome, now).0;
            && e.replies.Keys == d.replies.Keys
            && (forall a :: a in e.attempts && Delivery.Reported(e.attempts[a]) ==>
                  (a in d.attempts && d.attempts[a] == e.attempts[a])
                  || (a == attempt && e.attempts[a].outcome == Some(outcome)))
  {
  }

  lemma ReportKeeps(s: State, worker: WorkerId, now: int)
    requires PipelineInvariant(s)
    ensures PipelineInvariant(ReportStep(s, worker, now)) && Evolves(s, ReportStep(s, worker, now))
  {
    hide PipelineInvariant, Evolves, Delivery.Evolves, Delivery.DeliveryInvariant, Delivery.Reported, Delivery.Conclude;
    if Runs(s, worker) && s.workers[worker].phase.Reporting? {
      Working(s, worker);
      Components(s);
      SendsKnown(s);
      var phase := s.workers[worker].phase;
      Delivery.CompleteKeeps(s.delivery, phase.reply, phase.attempt, phase.outcome, now);
      CompletionReports(s.delivery, phase.reply, phase.attempt, phase.outcome, now);
      var t := ReportStep(s, worker, now);
      SettleDelivery(s, worker, t.delivery, t.workers[worker].phase);
    } else {
      Unmoved(s);
    }
  }

  lemma SendsSame(s: State, t: State)
    requires SendsFit(s) && t.sends == s.sends && t.delivery.attempts == s.delivery.attempts
    ensures SendsFit(t)
  {
  }

  lemma AcknowledgeKeeps(s: State, worker: WorkerId, now: int)
    requires PipelineInvariant(s)
    ensures PipelineInvariant(AcknowledgeStep(s, worker, now)) && Evolves(s, AcknowledgeStep(s, worker, now))
  {
    hide Intake.IntakeInvariant, Intake.Evolves, Delivery.DeliveryInvariant, Delivery.Evolves, Outbox.OutboxInvariant;
    hide TargetsFit, RepliesFit, WorkersFit, SendersUnique, SendsFit;
    if Runs(s, worker) && s.workers[worker].phase.Finishing? {
      Working(s, worker);
      Unsent(s);
      Components(s);
      Outbox.ApplyKeepsOutbox(s.outbox, Outbox.Consume(s.workers[worker].outbox, now));
      var t := AcknowledgeStep(s, worker, now);
      assert Evolves(s, t);
      DoneStays(s, t, s.outbox.messages[s.workers[worker].outbox].target);
      SendsSame(s, t);
      hide Evolves;
      Settle(s, t, worker);
    } else {
      Unmoved(s);
    }
  }

  lemma WebhookKeeps(
      s: State, event: Intake.EventId, outbox: Outbox.OutboxId, update: Intake.UpdateId, account: Intake.AccountId,
      content: Content, now: int)
    requires PipelineInvariant(s)
    ensures PipelineInvariant(WebhookStep(s, event, outbox, update, account, content, now))
    ensures Evolves(s, WebhookStep(s, event, outbox, update, account, content, now))
  {
    hide Intake.Persist;
    var t := WebhookStep(s, event, outbox, update, account, content, now);
    hide PipelineInvariant, TablesFit, Evolves;
    if t == s {
      Unmoved(s);
    } else {
      FittingPipeline(s);
      WebhookFits(s, t, event, outbox, update, account, content, now);
      SendsSame(s, t);
      Unsent(s);
      FittingTables(t);
      hide *;
      Grow(s, t, 0, false);
    }
  }

  lemma FittingPipeline(s: State)
    requires PipelineInvariant(s)
    ensures TablesFit(s) && WorkersFit(s) && SendersUnique(s) && SendsFit(s) && ReceiptsFit(s)
  {
    hide TablesFit, WorkersFit, SendersUnique, SendsFit, ReceiptsFit;
  }

  /** A step that also adds a target or a reply. */
  lemma Grow(s: State, t: State, mover: WorkerId, moved: bool)
    requires PipelineInvariant(s) && Evolves(s, t)
    requires Outbox.OutboxInvariant(t.outbox) && Intake.IntakeInvariant(t.intake) &&
             Delivery.DeliveryInvariant(t.delivery)
    requires TargetsFit(t) && TargetsUnique(t) && RepliesFit(t) && SendsFit(t)
    requires t.outbox.receipts.Keys == s.outbox.receipts.Keys && t.sends == s.sends
    requires !moved ==> t.workers == s.workers
    requires moved ==> forall w :: w in t.workers && w != mover ==> w in s.workers && t.workers[w] == s.workers[w]
    requires moved && mover in t.workers ==> WorkerFits(t, t.workers[mover]) && !t.workers[mover].phase.Sending?
    ensures PipelineInvariant(t)
  {
    hide Outbox.OutboxInvariant, Intake.IntakeInvariant, Delivery.DeliveryInvariant, Evolves, Done, WorkerFits;
    hide TargetsFit, RepliesFit, SendsFit, ReceiptsFit;
    Unsent(s);
    if moved {
      hide WorkersFit, SendersUnique;
      WorkersStay(s, t, mover);
    } else {
      forall w | w in t.workers ensures WorkerFits(t, t.workers[w]) {
        WorkerStays(s, t, s.workers[w]);
      }
    }
    ReceiptsStay(s, t);
  }

  lemma CompleteEventKeeps(
      s: State, worker: WorkerId, completion: Completion, reply: Delivery.ReplyId, outbox: Outbox.OutboxId, now: int)
    requires PipelineInvariant(s)
    ensures PipelineInvariant(CompleteEventStep(s, worker, completion, reply, outbox, now))
    ensures Evolves(s, CompleteEventStep(s, worker, completion, reply, outbox, now))
  {
    hide TablesFit, WorkersFit, SendersUnique, ReceiptsFit, SendsFit;
    if Runs(s, worker) && s.workers[worker].phase.Processing? {
      Working(s, worker);
      Components(s);
      var phase := s.workers[worker].phase;
      var t := CompleteEventStep(s, worker, completion, reply, outbox, now);
      if Intake.Holds(s.intake, phase.event, phase.claim) && reply !in s.delivery.replies &&
        outbox !in s.outbox.messages {
        CompletedKeeps(s, t, worker, completion, reply, outbox, now);
      } else {
        hide Intake.IntakeInvariant, Intake.Evolves, Delivery.DeliveryInvariant, Delivery.Evolves;
        SettleIntake(s, worker, s.intake, Ended);
      }
    } else {
      hide PipelineInvariant;
      Unmoved(s);
    }
  }

  /** The completion that its worker still holds. */
  lemma CompletedKeeps(
      s: State, t: State, worker: WorkerId, completion: Completion, reply: Delivery.ReplyId, outbox: Outbox.OutboxId,
      now: int)
    requires PipelineInvariant(s) && Runs(s, worker) && s.workers[worker].phase.Processing?
    requires WorkerFits(s, s.workers[worker])
    requires Intake.Holds(s.intake, s.workers[worker].phase.event, s.workers[worker].phase.claim)
    requires reply !in s.delivery.replies && outbox !in s.outbox.messages
    requires t == CompleteEventStep(s, worker, completion, reply, outbox, now)
    ensures PipelineInvariant(t) && Evolves(s, t)
  {
    hide TablesFit, WorkersFit, SendersUnique, ReceiptsFit, SendsFit, Evolves;
    var phase := s.workers[worker].phase;
    CompletionFits(s, t, phase.event, phase.claim, completion, reply, outbox, now);
    CompletionDone(s, t, phase.event, phase.claim, completion, now);
    hide Intake.Complete, Intake.Holds, Delivery.Insert, Outbox.InsertMessage;
    FinishedGrows(s, t, worker);
  }

  lemma Finishes(s: State, worker: WorkerId)
    requires Runs(s, worker) && s.workers[worker].phase.Finishing? && Done(s, TargetOf(s, worker))
    ensures WorkerFits(s, s.workers[worker])
  {
    hide Done;
  }

  /** A step of one worker that finishes its job and adds rows to the tables. */
  lemma FinishedGrows(s: State, t: State, worker: WorkerId)
    requires PipelineInvariant(s) && Evolves(s, t) && TablesFit(t) && worker in s.workers
    requires t.workers == s.workers[worker := Worker(s.workers[worker].outbox, Finishing)] && t.sends == s.sends
    requires t.outbox.receipts == s.outbox.receipts && Runs(t, worker) && Done(t, TargetOf(t, worker))
    requires t.delivery.attempts == s.delivery.attempts
    ensures PipelineInvariant(t)
  {
    hide *;
    SendsKnown(s);
    FittingTables(t);
    SendsSame(s, t);
    Finishes(t, worker);
    Grow(s, t, worker, true);
  }

  lemma FittingTables(s: State)
    requires TablesFit(s)
    ensures Outbox.OutboxInvariant(s.outbox) && Intake.IntakeInvariant(s.intake) &&
            Delivery.DeliveryInvariant(s.delivery)
    ensures TargetsFit(s) && TargetsUnique(s) && RepliesFit(s)
  {
    hide Outbox.OutboxInvariant, Intake.IntakeInvariant, Delivery.DeliveryInvariant, TargetsFit, TargetsUnique,
      RepliesFit;
  }

  /** The worker that completed its event is done. */
  lemma CompletionDone(
      s: State, t: State, event: Intake.EventId, claim: Intake.ClaimId, completion: Completion, now: int)
    requires Intake.Holds(s.intake, event, claim)
    requires t.intake == Intake.Complete(s.intake, event, claim, completion, now).0
    ensures Done(t, Outbox.EventReceived(event))
  {
  }

  /** The transaction that completes an event, adds its reply and the reply's queue message. */
  lemma CompletionFits(
      s: State, t: State, event: Intake.EventId, claim: Intake.ClaimId, completion: Completion,
      reply: Delivery.ReplyId, outbox: Outbox.OutboxId, now: int)
    requires TablesFit(s) && Intake.Holds(s.intake, event, claim)
    requires reply !in s.delivery.replies && outbox !in s.outbox.messages && t.sends == s.sends
    requires t.intake == Intake.Complete(s.intake, event, claim, completion, now).0
    requires t.delivery == Delivery.Insert(s.delivery, reply, event, completion)
    requires t.outbox == Outbox.InsertMessage(s.outbox, outbox, Outbox.ReplyRequested(reply), now)
    ensures TablesFit(t) && Evolves(s, t)
  {
    Added(s, t, reply, event, completion, outbox, now);
    hide *;
    FittingTables(s);
    Intake.CompleteKeeps(s.intake, event, claim, completion, now);
    Delivery.InsertKeeps(s.delivery, reply, event, completion);
    Outbox.ApplyKeepsOutbox(s.outbox, Outbox.Insert(outbox, Outbox.ReplyRequested(reply), now));
    CompletedEvent(s.intake, event, claim, completion, now);
    TargetAdded(s, t, outbox);
    CompletedReplies(s, t, reply, event, completion);
    CompletedTargets(s, t, reply, outbox);
    AssembleTables(t);
    EvolveTogether(s, t);
  }

  /** The rows that a completion adds. */
  lemma Added(
      s: State, t: State, reply: Delivery.ReplyId, event: Intake.EventId, completion: Completion,
      outbox: Outbox.OutboxId, now: int)
    requires reply !in s.delivery.replies && outbox !in s.outbox.messages
    requires t.delivery == Delivery.Insert(s.delivery, reply, event, completion)
    requires t.outbox == Outbox.InsertMessage(s.outbox, outbox, Outbox.ReplyRequested(reply), now)
    ensures t.delivery.replies == s.delivery.replies[reply := Delivery.NewReply(event, completion)]
    ensures forall r :: r in t.delivery.replies <==> r in s.delivery.replies || r == reply
    ensures t.outbox == Outbox.Apply(s.outbox, Outbox.Insert(outbox, Outbox.ReplyRequested(reply), now))
    ensures t.outbox.receipts == s.outbox.receipts && outbox in t.outbox.messages
    ensures t.outbox.messages == s.outbox.messages[outbox := t.outbox.messages[outbox]]
    ensures t.outbox.messages[outbox].target == Outbox.ReplyRequested(reply)
  {
  }

  lemma CompletedEvent(i: Intake.State, event: Intake.EventId, claim: Intake.ClaimId, completion: Completion, now: int)
    requires Intake.Holds(i, event, claim)
    ensures var j := Intake.Complete(i, event, claim, completion, now).0;
            && j.events.Keys == i.events.Keys && event in i.events && !Intake.Terminal(i.events[event])
            && j.events[event].status == Intake.Processed && j.events[event].owner == ActorOf(completion)
  {
  }

  lemma EvolveTogether(s: State, t: State)
    requires Intake.Evolves(s.intake, t.intake) && Delivery.Evolves(s.delivery, t.delivery) && t.sends == s.sends
    requires forall id :: id in s.outbox.messages ==>
               id in t.outbox.messages && t.outbox.messages[id].target == s.outbox.messages[id].target
    requires forall id :: id in s.outbox.receipts ==> id in t.outbox.receipts
    ensures Evolves(s, t)
  {
    hide Intake.Evolves, Delivery.Evolves;
  }

  /** The transaction that accepts an update with its queue message. */
  lemma WebhookFits(
      s: State, t: State, event: Intake.EventId, outbox: Outbox.OutboxId, update: Intake.UpdateId,
      account: Intake.AccountId, content: Content, now: int)
    requires TablesFit(s) && Intake.Persist(s.intake, event, update, account, content).1 == Intake.Accepted
    requires outbox !in s.outbox.messages && t.sends == s.sends && t.delivery == s.delivery
    requires t.intake == Intake.Persist(s.intake, event, update, account, content).0
    requires t.outbox == Outbox.InsertMessage(s.outbox, outbox, Outbox.EventReceived(event), now)
    ensures TablesFit(t) && Evolves(s, t)
  {
    assert t.outbox == Outbox.Apply(s.outbox, Outbox.Insert(outbox, Outbox.EventReceived(event), now));
    PersistedTargets(s, t, event, outbox);
    hide *;
    FittingTables(s);
    Intake.PersistKeeps(s.intake, event, update, account, content);
    Outbox.ApplyKeepsOutbox(s.outbox, Outbox.Insert(outbox, Outbox.EventReceived(event), now));
    DeliveryUnmoved(s.delivery);
    EvolveTogether(s, t);
    RepliesStay(s, t);
    AssembleTables(t);
  }

  lemma DeliveryUnmoved(d: Delivery.State)
    ensures Delivery.Evolves(d, d)
  {
  }

  lemma PersistedTargets(s: State, t: State, event: Intake.EventId, outbox: Outbox.OutboxId)
    requires TablesFit(s) && event !in s.intake.events && outbox !in s.outbox.messages && outbox in t.outbox.messages
    requires t.outbox.messages == s.outbox.messages[outbox := t.outbox.messages[outbox]]
    requires t.outbox.messages[outbox].target == Outbox.EventReceived(event)
    requires t.intake.events.Keys == s.intake.events.Keys + {event} && t.delivery == s.delivery
    ensures TargetsFit(t) && TargetsUnique(t)
  {
    TargetAdded(s, t, outbox);
    hide TargetsUnique, RepliesFit, Intake.IntakeInvariant, Delivery.DeliveryInvariant, Outbox.OutboxInvariant;
  }

  /** A transaction that adds no message and no reply. */
  lemma TablesStay(s: State, t: State)
    requires TablesFit(s) && Evolves(s, t)
    requires Outbox.OutboxInvariant(t.outbox) && Intake.IntakeInvariant(t.intake) &&
             Delivery.DeliveryInvariant(t.delivery)
    requires t.outbox.messages.Keys == s.outbox.messages.Keys && t.delivery.replies.Keys == s.delivery.replies.Keys
    ensures TablesFit(t)
  {
    hide *;
    FittingTables(s);
    TargetsStay(s, t);
    RepliesStay(s, t);
    AssembleTables(t);
  }

  lemma IntakeUnmoved(i: Intake.State)
    ensures Intake.Evolves(i, i)
  {
  }

  lemma IntakeFits(s: State, intake: Intake.State)
    requires TablesFit(s) && Intake.IntakeInvariant(intake) && Intake.Evolves(s.intake, intake)
    ensures TablesFit(s.(intake := intake))
  {
    hide *;
    DeliveryUnmoved(s.delivery);
    EvolveTogether(s, s.(intake := intake));
    FittingTables(s);
    TablesStay(s, s.(intake := intake));
  }

  lemma DeliveryFits(s: State, delivery: Delivery.State)
    requires TablesFit(s) && Delivery.DeliveryInvariant(delivery) && Delivery.Evolves(s.delivery, delivery)
    requires delivery.replies.Keys == s.delivery.replies.Keys
    ensures TablesFit(s.(delivery := delivery))
  {
    hide *;
    IntakeUnmoved(s.intake);
    EvolveTogether(s, s.(delivery := delivery));
    FittingTables(s);
    TablesStay(s, s.(delivery := delivery));
  }

  lemma OutboxFits(s: State, step: Outbox.Step)
    requires TablesFit(s) && !step.Insert?
    ensures TablesFit(s.(outbox := Outbox.Apply(s.outbox, step)))
  {
    OutboxFrame(s.outbox, step);
    hide *;
    FittingTables(s);
    IntakeUnmoved(s.intake);
    DeliveryUnmoved(s.delivery);
    Outbox.ApplyKeepsOutbox(s.outbox, step);
    EvolveTogether(s, s.(outbox := Outbox.Apply(s.outbox, step)));
    TablesStay(s, s.(outbox := Outbox.Apply(s.outbox, step)));
  }

  lemma OutboxFrame(o: Outbox.State, step: Outbox.Step)
    requires !step.Insert?
    ensures Outbox.Apply(o, step).messages.Keys == o.messages.Keys
  {
    hide Outbox.Dispatched;
  }

  lemma AssembleTables(s: State)
    requires Outbox.OutboxInvariant(s.outbox) && Intake.IntakeInvariant(s.intake) &&
             Delivery.DeliveryInvariant(s.delivery)
    requires TargetsFit(s) && TargetsUnique(s) && RepliesFit(s)
    ensures TablesFit(s)
  {
    hide Outbox.OutboxInvariant, Intake.IntakeInvariant, Delivery.DeliveryInvariant, TargetsFit, TargetsUnique,
      RepliesFit;
  }

  lemma CompletedTargets(s: State, t: State, reply: Delivery.ReplyId, outbox: Outbox.OutboxId)
    requires TargetsFit(s) && t.intake.events.Keys == s.intake.events.Keys && outbox in t.outbox.messages
    requires t.outbox.messages == s.outbox.messages[outbox := t.outbox.messages[outbox]]
    requires t.outbox.messages[outbox].target == Outbox.ReplyRequested(reply)
    requires forall r :: r in t.delivery.replies <==> r in s.delivery.replies || r == reply
    ensures TargetsFit(t)
  {
  }

  /** A completed event had no reply before. */
  lemma CompletedReplies(s: State, t: State, reply: Delivery.ReplyId, event: Intake.EventId, completion: Completion)
    requires RepliesFit(s) && event in s.intake.events && !Intake.Terminal(s.intake.events[event])
    requires event in t.intake.events && t.intake.events[event].status == Intake.Processed &&
             Intake.Evolves(s.intake, t.intake)
    requires t.intake.events[event].owner == ActorOf(completion)
    requires reply !in s.delivery.replies
    requires t.delivery.replies == s.delivery.replies[reply := Delivery.NewReply(event, completion)]
    ensures RepliesFit(t)
  {
  }

  lemma DispatcherKeeps(s: State, step: Outbox.Step)
    requires PipelineInvariant(s) && DispatcherStep(step)
    ensures PipelineInvariant(s.(outbox := Outbox.Apply(s.outbox, step)))
    ensures Evolves(s, s.(outbox := Outbox.Apply(s.outbox, step)))
  {
    hide Intake.IntakeInvariant, Intake.Evolves, Delivery.DeliveryInvariant, Delivery.Evolves, Outbox.OutboxInvariant;
    hide WorkersFit, SendersUnique, ReceiptsFit, SendsFit, RepliesFit, TargetsFit, TargetsUnique;
    var t := s.(outbox := Outbox.Apply(s.outbox, step));
    Components(s);
    Outbox.ApplyKeepsOutbox(s.outbox, step);
    DispatcherFrame(s.outbox, step);
    hide Outbox.Apply;
    assert Evolves(s, t);
    SendsSame(s, t);
    TargetsStay(s, t);
    RepliesStay(s, t);
    hide Evolves;
    Grow(s, t, 0, false);
  }

  lemma DispatcherFrame(o: Outbox.State, step: Outbox.Step)
    requires DispatcherStep(step)
    ensures Outbox.Apply(o, step).messages.Keys == o.messages.Keys && Outbox.Apply(o, step).receipts == o.receipts
  {
    hide Outbox.Dispatched;
  }

  /** The operator's transactions on the replies tables. */
  lemma OperatorKeeps(s: State, delivery: Delivery.State)
    requires PipelineInvariant(s)
    requires Delivery.DeliveryInvariant(delivery) && Delivery.Evolves(s.delivery, delivery)
    requires delivery.replies.Keys == s.delivery.replies.Keys && delivery.attempts == s.delivery.attempts
    ensures PipelineInvariant(s.(delivery := delivery)) && Evolves(s, s.(delivery := delivery))
  {
    hide Intake.IntakeInvariant, Intake.Evolves, Delivery.DeliveryInvariant, Delivery.Evolves, Outbox.OutboxInvariant;
    hide WorkersFit, SendersUnique, ReceiptsFit, SendsFit, RepliesFit, TargetsFit, TargetsUnique;
    var t := s.(delivery := delivery);
    Components(s);
    assert Evolves(s, t);
    SendsSame(s, t);
    TargetsStay(s, t);
    RepliesStay(s, t);
    hide Evolves;
    Grow(s, t, 0, false);
  }

  lemma RecoveryKeeps(
      s: State, recovery: Delivery.RecoveryId, reply: Delivery.ReplyId, errorCode: string, reason: Delivery.Reason)
    requires PipelineInvariant(s)
    ensures PipelineInvariant(PrepareRecoveryStep(s, recovery, reply, errorCode, reason))
    ensures Evolves(s, PrepareRecoveryStep(s, recovery, reply, errorCode, reason))
  {
    hide PipelineInvariant, Evolves, Delivery.DeliveryInvariant, Delivery.Evolves;
    Components(s);
    Delivery.PrepareKeeps(
      s.delivery, recovery, reply, errorCode, reason,
      Outbox.MessageFor(s.outbox.messages, Outbox.ReplyRequested(reply)));
    OperatorKeeps(s, PrepareRecoveryStep(s, recovery, reply, errorCode, reason).delivery);
  }

  lemma StepKeeps(s: State, event: Event)
    requires PipelineInvariant(s)
    ensures PipelineInvariant(Step(s, event)) && Evolves(s, Step(s, event))
  {
    hide PipelineInvariant, Evolves, Delivery.DeliveryInvariant, Delivery.Evolves;
    hide WebhookStep, BeginStep, ClaimEventStep, CheckUserStep, CompleteEventStep, ReleaseEventStep, ClaimReplyStep,
      SendStep,
         ReportStep, AcknowledgeStep, PrepareRecoveryStep, Outbox.Apply;
    match event
    case Webhook(id, outbox, update, account, content, now) =>
      WebhookKeeps(s, id, outbox, update, account, content, now);
    case Dispatcher(step) =>
      if DispatcherStep(step) {
        DispatcherKeeps(s, step);
      } else {
        Unmoved(s);
      }
    case Begin(worker, outbox) => BeginKeeps(s, worker, outbox);
    case ClaimEvent(worker, claim, workerNow, now) => ClaimEventKeeps(s, worker, claim, workerNow, now);
    case CheckUser(worker, user, now) => CheckUserKeeps(s, worker, user, now);
    case CompleteEvent(worker, completion, reply, outbox, now) =>
      CompleteEventKeeps(s, worker, completion, reply, outbox, now);
    case ReleaseEvent(worker) => ReleaseEventKeeps(s, worker);
    case ClaimReply(worker, attempt, workerNow, now) => ClaimReplyKeeps(s, worker, attempt, workerNow, now);
    case Send(worker, sent) => SendKeeps(s, worker, sent);
    case Report(worker, now) => ReportKeeps(s, worker, now);
    case Acknowledge(worker, now) => AcknowledgeKeeps(s, worker, now);
    case PrepareRecovery(recovery, reply, errorCode, reason) =>
      RecoveryKeeps(s, recovery, reply, errorCode, reason);
    case MarkRecovery(recovery, now) =>
      Components(s);
      Delivery.MarkPublishedKeeps(s.delivery, recovery, now);
      OperatorKeeps(s, Delivery.MarkPublished(s.delivery, recovery, now).0);
  }

  lemma {:induction false} RunKeeps(s: State, events: seq<Event>)
    requires PipelineInvariant(s)
    ensures PipelineInvariant(Run(s, events))
    decreases |events|
  {
    hide PipelineInvariant, Evolves, Step;
    if events != [] {
      StepKeeps(s, events[0]);
      RunKeeps(Step(s, events[0]), events[1..]);
    }
  }

  /** Every run from the empty database keeps the invariant of the whole pipeline. */
  lemma ReachableStatesFit(events: seq<Event>)
    ensures PipelineInvariant(Run(INITIAL, events))
  {
    InitialFits();
    RunKeeps(INITIAL, events);
  }

  lemma InitialFits()
    ensures PipelineInvariant(INITIAL)
  {
  }

  // ---------------------------------------------------------------------------------------
  // Main results
  // ---------------------------------------------------------------------------------------

  /** The attempt reached the user with the reply to this update. */
  ghost predicate Delivers(s: State, attempt: Delivery.AttemptId, update: Intake.UpdateId) {
    && attempt in s.sends
    && s.sends[attempt].delivered
    && attempt in s.delivery.attempts
    && s.delivery.attempts[attempt].reply in s.delivery.replies
    && s.delivery.replies[s.delivery.attempts[attempt].reply].event in s.intake.events
    && s.intake.events[s.delivery.replies[s.delivery.attempts[attempt].reply].event].update == update
  }

  /** At most once, end to end: whatever is repeated, late, crashed or recovered, a Telegram update
      has at most one event and one reply, and at most one provider call ever reaches the user. */
  lemma AtMostOnce(events: seq<Event>, update: Intake.UpdateId)
    ensures var s := Run(INITIAL, events);
            && (forall a, b ::
                  (a in s.intake.events && b in s.intake.events &&
                   s.intake.events[a].update == update == s.intake.events[b].update)
                  ==> a == b)
            && (forall a, b ::
                  a in s.delivery.replies && b in s.delivery.replies &&
                    s.delivery.replies[a].event == s.delivery.replies[b].event
                  ==> a == b)
            && (forall a, b :: Delivers(s, a, update) && Delivers(s, b, update) ==> a == b)
  {
    ReachableStatesFit(events);
    var s := Run(INITIAL, events);
    hide Run;
    DeliveredOnce(s, update);
  }

  lemma DeliveredOnce(s: State, update: Intake.UpdateId)
    requires PipelineInvariant(s)
    ensures forall a, b ::
              (a in s.intake.events && b in s.intake.events &&
               s.intake.events[a].update == update == s.intake.events[b].update)
              ==> a == b
    ensures forall a, b ::
              a in s.delivery.replies && b in s.delivery.replies &&
                s.delivery.replies[a].event == s.delivery.replies[b].event
              ==> a == b
    ensures forall a, b :: Delivers(s, a, update) && Delivers(s, b, update) ==> a == b
  {
    hide Outbox.OutboxInvariant, WorkersFit, ReceiptsFit, TargetsFit, SendersUnique;
    forall a, b | Delivers(s, a, update) && Delivers(s, b, update) ensures a == b {
      assert s.delivery.attempts[a].reply == s.delivery.attempts[b].reply;
      DeliveredIsLast(s, a);
      DeliveredIsLast(s, b);
    }
  }

  /** An attempt that reached the user is the reply's last one. */
  lemma DeliveredIsLast(s: State, a: Delivery.AttemptId)
    requires PipelineInvariant(s) && a in s.sends && s.sends[a].delivered
    ensures a in s.delivery.attempts && s.delivery.attempts[a].reply in s.delivery.replies
    ensures s.delivery.attempts[a].number == s.delivery.replies[s.delivery.attempts[a].reply].attempts
  {
    hide Outbox.OutboxInvariant, Intake.IntakeInvariant, WorkersFit, ReceiptsFit, TargetsFit, SendersUnique, RepliesFit;
    Delivery.Fitting(s.delivery, s.delivery.attempts[a].reply);
  }

  /** The user's view is never overstated: if a reply is accepted, its last attempt reached the user,
      and if it has failed, none of its attempts did. */
  lemma StatusIsTruthful(events: seq<Event>, a: Delivery.AttemptId)
    requires a in Run(INITIAL, events).delivery.attempts
    ensures var s := Run(INITIAL, events);
            var reply := s.delivery.attempts[a].reply;
            && reply in s.delivery.replies
            && (s.delivery.replies[reply].status == Delivery.ProviderAccepted
                && s.delivery.attempts[a].number == s.delivery.replies[reply].attempts ==>
                  a in s.sends && s.sends[a].delivered)
            && (s.delivery.replies[reply].status == Delivery.TerminalFailure ==>
                  a in s.sends && !s.sends[a].delivered)
  {
    ReachableStatesFit(events);
    var s := Run(INITIAL, events);
    hide Run, Outbox.OutboxInvariant, Intake.IntakeInvariant, WorkersFit, ReceiptsFit, TargetsFit, SendersUnique,
      RepliesFit;
    Delivery.Fitting(s.delivery, s.delivery.attempts[a].reply);
  }

  /** Consumed means done: a receipt for an event's message says the event was processed or
      suppressed; a receipt for a reply's message says the reply is terminal, or an operator has
      since reopened it. */
  lemma ConsumedMeansDone(events: seq<Event>, id: Outbox.OutboxId)
    requires id in Run(INITIAL, events).outbox.receipts
    ensures var s := Run(INITIAL, events);
            id in s.outbox.messages && Done(s, s.outbox.messages[id].target)
  {
    ReachableStatesFit(events);
  }

  /** Over every run, a reply has at most three provider attempts and two recoveries, and a reply
      that was accepted, or whose outcome is unknown, is never touched again. */
  lemma RepliesBounded(events: seq<Event>, later: seq<Event>, reply: Delivery.ReplyId)
    requires reply in Run(INITIAL, events).delivery.replies
    ensures var s := Run(INITIAL, events);
            && Delivery.Attempted(s.delivery.attempts, reply) <= 3
            && Delivery.Recovered(s.delivery.recoveries, reply) <= 2
            && (s.delivery.replies[reply].status == Delivery.ProviderAccepted
                || s.delivery.replies[reply].status == Delivery.OutcomeUnknown ==>
                  && reply in Run(s, later).delivery.replies
                  && Run(s, later).delivery.replies[reply] == s.delivery.replies[reply])
  {
    ReachableStatesFit(events);
    var s := Run(INITIAL, events);
    Delivery.AttemptsBounded(s.delivery, reply);
    SettledForever(s, later, reply);
  }

  lemma {:induction false} SettledForever(s: State, events: seq<Event>, reply: Delivery.ReplyId)
    requires PipelineInvariant(s) && reply in s.delivery.replies
    ensures s.delivery.replies[reply].status == Delivery.ProviderAccepted
            || s.delivery.replies[reply].status == Delivery.OutcomeUnknown ==>
              reply in Run(s, events).delivery.replies &&
                Run(s, events).delivery.replies[reply] == s.delivery.replies[reply]
    decreases |events|
  {
    hide PipelineInvariant, Step;
    if events != [] {
      StepKeeps(s, events[0]);
      SettledForever(Step(s, events[0]), events[1..], reply);
    }
  }

  /** In every run the rows agree: a reply is for the owner of its processed event, an accepted text is
      recorded exactly for the events that ended so and for their owner, and every event and every reply
      has one queue message at most. */
  lemma RowsAgree(events: seq<Event>)
    ensures var s := Run(INITIAL, events);
            && (forall r :: r in s.delivery.replies ==>
                  && s.delivery.replies[r].event in s.intake.events
                  && s.intake.events[s.delivery.replies[r].event].status == Intake.Processed
                  && s.intake.events[s.delivery.replies[r].event].owner == s.delivery.replies[r].owner)
            && (forall id :: id in s.intake.commands <==>
                  id in s.intake.events && s.intake.events[id].ending == Some(Intake.TextAccepted))
            && (forall id :: id in s.intake.commands && id in s.intake.events ==>
                  s.intake.events[id].owner == Some(s.intake.commands[id].owner))
            && TargetsUnique(s)
  {
    ReachableStatesFit(events);
    var s := Run(INITIAL, events);
    hide Run;
    FittingPipeline(s);
    FittingTables(s);
    CommandsAgree(s.intake);
    hide TargetsUnique, Intake.IntakeInvariant, PipelineInvariant, TablesFit;
  }

  lemma CommandsAgree(i: Intake.State)
    requires Intake.IntakeInvariant(i)
    ensures forall id :: id in i.commands <==> id in i.events && i.events[id].ending == Some(Intake.TextAccepted)
    ensures forall id :: id in i.commands && id in i.events ==> i.events[id].owner == Some(i.commands[id].owner)
  {
    hide Intake.WindowFits, Intake.EventFits, Intake.OneEventPerUpdate;
    forall id ensures id in i.commands <==> id in i.events && i.events[id].ending == Some(Intake.TextAccepted) {
      assert Intake.CommandFits(i.events, i.commands, id);
    }
    forall id | id in i.commands && id in i.events ensures i.events[id].owner == Some(i.commands[id].owner) {
      assert Intake.CommandFits(i.events, i.commands, id);
    }
  }

  /** Abuse windows count exactly once in every run, whatever is released, re-claimed or repeated, and
      never admit more than 300 events a minute in all, 30 per account and 30 per user. */
  lemma WindowsAreExact(events: seq<Event>, window: Intake.Window)
    ensures var intake := Run(INITIAL, events).intake;
            && Intake.WindowCount(intake.windows, window) == Sum(intake.events, Intake.Decided(window))
            && Sum(intake.events, Intake.Admitted(window)) <= (if window.scope.System? then 300 else 30)
  {
    ReachableStatesFit(events);
    var s := Run(INITIAL, events);
    hide Run;
    assert Intake.WindowFits(s.intake.events, s.intake.windows, window);
  }

  /** Why a receipt does not mean terminal for ever: an operator reopens a rejected reply after its
      message was consumed, and the receipt stays. */
  lemma RecoveryOutlivesReceipt(
      s: State, id: Outbox.OutboxId, recovery: Delivery.RecoveryId, errorCode: string, reason: Delivery.Reason)
    requires id in s.outbox.receipts && id in s.outbox.messages && s.outbox.messages[id].target.ReplyRequested?
    requires s.outbox.messages[id].target.reply in s.delivery.replies && recovery !in s.delivery.recoveries
    ensures var reply := s.outbox.messages[id].target.reply;
            var before := s.delivery.replies[reply];
            var t := Step(s, PrepareRecovery(recovery, reply, errorCode, reason));
            && id in t.outbox.receipts
            && (t.delivery.replies[reply].status == Delivery.Pending && before.status != Delivery.Pending <==>
                  && before.status == Delivery.TerminalFailure
                  && before.lastError == Some(errorCode)
                  && before.attempts < Delivery.MAXIMUM_ATTEMPTS)
  {
  }
}
