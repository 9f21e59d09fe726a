/** A run in which everything happens that the bounds of Pipeline allow: they are not met vacuously. */
module PipelineExample {
  import opened Common
  import opened Pipeline
  import Outbox
  import Intake
  import Delivery
  import opened TelegramContent

  lemma {:induction false} RunSplit(s: State, first: seq<Event>, second: seq<Event>)
    ensures Run(s, first + second) == Run(Run(s, first), second)
    decreases |first|
  {
    hide Step;
    if first == [] {
      assert first + second == second;
    } else {
      RunSplit(Step(s, first[0]), first[1..], second);
      assert (first + second)[1..] == first[1..] + second;
    }
  }

  predicate Deliverable(s: State, reply: Delivery.ReplyId) {
    && 1 in s.outbox.messages && s.outbox.messages[1].target == Outbox.ReplyRequested(reply)
    && reply in s.delivery.replies && s.delivery.replies[reply].status == Delivery.Pending
    && s.delivery.replies[reply].attempts < Delivery.MAXIMUM_ATTEMPTS
  }

  lemma RunThree(s: State, a: Event, b: Event, c: Event)
    ensures Run(s, [a, b, c]) == Step(Step(Step(s, a), b), c)
  {
    hide Step;
    assert [a, b, c][1..] == [b, c] && [b, c][1..] == [c] && [c][1..] == [];
    assert Run(Step(s, a), [b, c]) == Run(Step(Step(s, a), b), [c]);
    assert Run(Step(Step(s, a), b), [c]) == Run(Step(Step(Step(s, a), b), c), []);
  }

  function AfterClaim(s: State, reply: Delivery.ReplyId, worker: WorkerId, attempt: Delivery.AttemptId, now: int)
    : State
  {
    s.(delivery := Delivery.Claim(s.delivery, reply, attempt, now, now).0,
       workers := s.workers[worker := Worker(1, Sending(reply, attempt))])
  }

  lemma ClaimsReply(s: State, reply: Delivery.ReplyId, worker: WorkerId, attempt: Delivery.AttemptId, now: int)
    requires Deliverable(s, reply) && worker !in s.workers && attempt !in s.delivery.attempts
    ensures Run(s, [Begin(worker, 1), ClaimEvent(worker, 0, now, now), ClaimReply(worker, attempt, now, now)]) ==
            AfterClaim(s, reply, worker, attempt, now)
  {
    RunThree(s, Begin(worker, 1), ClaimEvent(worker, 0, now, now), ClaimReply(worker, attempt, now, now));
    hide Run;
    var s1 := s.(workers := s.workers[worker := Worker(1, Received)]);
    assert BeginStep(s, worker, 1) == s1;
    var s2 := s.(workers := s.workers[worker := Worker(1, Replying)]);
    assert ClaimEventStep(s1, worker, 0, now, now) == s2;
    assert Delivery.Claim(s.delivery, reply, attempt, now, now).1 == Delivery.Claimed(attempt);
    hide Delivery.Claim;
    assert ClaimReplyStep(s2, worker, attempt, now, now) == AfterClaim(s, reply, worker, attempt, now);
  }

  lemma SendsAndReports(
      s: State, reply: Delivery.ReplyId, worker: WorkerId, attempt: Delivery.AttemptId, sent: Sent, now: int)
    requires worker in s.workers && s.workers[worker] == Worker(1, Sending(reply, attempt))
    requires 1 in s.outbox.messages && Truthful(sent) && !sent.outcome.Transient? &&
             Delivery.Holds(s.delivery, reply, attempt)
    ensures Run(s, [Send(worker, sent), Report(worker, now), Acknowledge(worker, now)]) ==
            State(Outbox.RecordConsumption(s.outbox, 1, now).0, s.intake,
                  Delivery.CompleteAttempt(s.delivery, reply, attempt, sent.outcome, now).0,
                  s.workers[worker := Worker(1, Ended)], s.sends[attempt := sent])
  {
    RunThree(s, Send(worker, sent), Report(worker, now), Acknowledge(worker, now));
    hide Run, Outbox.RecordConsumption, Delivery.Holds;
    var s1 := s.(sends := s.sends[attempt := sent],
                 workers := s.workers[worker := Worker(1, Reporting(reply, attempt, sent.outcome))]);
    assert SendStep(s, worker, sent) == s1;
    assert Delivery.CompleteAttempt(s.delivery, reply, attempt, sent.outcome, now).1;
    hide Delivery.CompleteAttempt;
    var s2 := s1.(delivery := Delivery.CompleteAttempt(s.delivery, reply, attempt, sent.outcome, now).0,
                  workers := s.workers[worker := Worker(1, Finishing)]);
    assert ReportStep(s1, worker, now) == s2;
  }

  lemma RunNone(s: State)
    ensures Run(s, []) == s
  {
  }

  lemma RunOne(s: State, e: Event)
    ensures Run(s, [e]) == Step(s, e)
  {
    hide Step;
    assert [e][1..] == [];
  }

  /** One worker takes a pending reply through one provider call to its receipt. */
  lemma JobCompletes(
      s: State, reply: Delivery.ReplyId, worker: WorkerId, attempt: Delivery.AttemptId, sent: Sent, now: int)
    returns (events: seq<Event>)
    requires Deliverable(s, reply) && worker !in s.workers && attempt !in s.delivery.attempts
    requires Truthful(sent) && !sent.outcome.Transient?
    ensures Run(s, events) ==
            State(Outbox.RecordConsumption(s.outbox, 1, now).0, s.intake,
                  Delivery.CompleteAttempt(Delivery.Claim(s.delivery, reply, attempt, now, now).0, reply, attempt,
                                           sent.outcome, now).0,
                  s.workers[worker := Worker(1, Ended)], s.sends[attempt := sent])
  {
    var first := [Begin(worker, 1), ClaimEvent(worker, 0, now, now), ClaimReply(worker, attempt, now, now)];
    var second := [Send(worker, sent), Report(worker, now), Acknowledge(worker, now)];
    events := first + second;
    RunSplit(s, first, second);
    ClaimsReply(s, reply, worker, attempt, now);
    var claimed := AfterClaim(s, reply, worker, attempt, now);
    assert Delivery.Holds(claimed.delivery, reply, attempt);
    hide Run, Delivery.Claim, Delivery.CompleteAttempt, Delivery.Holds, Outbox.RecordConsumption, Deliverable;
    SendsAndReports(claimed, reply, worker, attempt, sent, now);
    assert s.workers[worker := Worker(1, Sending(reply, attempt))][worker := Worker(1, Ended)] ==
           s.workers[worker := Worker(1, Ended)];
  }

  lemma WebhookInserts(update: Intake.UpdateId, account: Intake.AccountId, content: Content, now: int)
    ensures var s := WebhookStep(INITIAL, 0, 0, update, account, content, now);
            && 0 in s.outbox.messages && s.outbox.messages[0].target == Outbox.EventReceived(0)
            && s.outbox.messages.Keys == {0}
            && 0 in s.intake.events && s.intake.events[0] == Intake.NewEvent(update, account, content)
            && s.intake.windows == map[]
            && s.delivery == INITIAL.delivery && s.workers == map[] && s.sends == map[]
  {
  }

  /** A fresh event, in an empty minute, is admitted and held by the worker that claims it. */
  lemma WorkerHolds(s: State, now: int)
    requires 0 in s.outbox.messages && s.outbox.messages[0].target == Outbox.EventReceived(0) && 0 !in s.workers
    requires 0 in s.intake.events && s.intake.windows == map[]
    requires exists update, account, content :: s.intake.events[0] == Intake.NewEvent(update, account, content)
    ensures var t := ClaimEventStep(BeginStep(s, 0, 0), 0, 0, now, now);
            && t.outbox == s.outbox && t.delivery == s.delivery && t.sends == s.sends
            && t.workers == s.workers[0 := Worker(0, Processing(0, 0))]
            && Intake.Holds(t.intake, 0, 0)
  {
    var begun := BeginStep(s, 0, 0);
    assert begun == s.(workers := s.workers[0 := Worker(0, Received)]);
    hide BeginStep;
    assert Intake.Claim(s.intake, 0, 0, now, now).1 == Intake.Claimed(0);
  }

  lemma WorkerCompletes(s: State, completion: Completion, now: int)
    requires 0 in s.outbox.messages && s.outbox.messages.Keys == {0} && s.delivery == INITIAL.delivery
    requires s.workers == map[0 := Worker(0, Processing(0, 0))] && Intake.Holds(s.intake, 0, 0) && s.sends == map[]
    ensures var t := CompleteEventStep(s, 0, completion, 0, 1, now);
            && Deliverable(t, 0) && t.delivery.replies[0].attempts == 0 && t.delivery.attempts == map[]
            && t.delivery.recoveries == map[] && t.workers.Keys == {0} && t.sends == map[]
  {
  }

  /** An accepted update becomes a pending reply with its queue message. */
  lemma UpdateBecomesReply(
      update: Intake.UpdateId, account: Intake.AccountId, content: Content, completion: Completion, now: int)
    returns (events: seq<Event>)
    ensures var s := Run(INITIAL, events);
            && Deliverable(s, 0) && s.delivery.replies[0].attempts == 0 && s.delivery.attempts == map[]
            && s.delivery.recoveries == map[] && s.workers.Keys == {0} && s.sends == map[]
  {
    var first := [Webhook(0, 0, update, account, content, now), Begin(0, 0), ClaimEvent(0, 0, now, now)];
    events := first + [CompleteEvent(0, completion, 0, 1, now)];
    RunSplit(INITIAL, first, [CompleteEvent(0, completion, 0, 1, now)]);
    RunThree(INITIAL, first[0], first[1], first[2]);
    RunOne(Run(INITIAL, first), CompleteEvent(0, completion, 0, 1, now));
    hide Run, WebhookStep, BeginStep, ClaimEventStep, CompleteEventStep, Deliverable, Intake.Holds;
    var s := WebhookStep(INITIAL, 0, 0, update, account, content, now);
    WebhookInserts(update, account, content, now);
    WorkerHolds(s, now);
    WorkerCompletes(ClaimEventStep(BeginStep(s, 0, 0), 0, 0, now, now), completion, now);
  }

  /** A failed reply with attempts left: recovery, then a delivery that reaches the user. */
  lemma RecoversAndDelivers(t: State, errorCode: string, now: int) returns (events: seq<Event>)
    requires 1 in t.outbox.messages && t.outbox.messages[1].target == Outbox.ReplyRequested(0)
    requires 0 in t.delivery.replies && t.delivery.replies[0].status == Delivery.TerminalFailure
    requires t.delivery.replies[0].lastError == Some(errorCode) && t.delivery.replies[0].attempts == 1
    requires t.delivery.recoveries == map[] && 1 !in t.delivery.attempts && 2 !in t.workers
    ensures var s := Run(t, events);
            && 1 in s.outbox.receipts
            && 0 in s.delivery.replies && s.delivery.replies[0].status == Delivery.ProviderAccepted
            && Delivery.HasRecovery(s.delivery.recoveries, 0)
            && s.sends == t.sends[1 := Sent(Delivery.Accepted("message"), true)]
  {
    var recover := PrepareRecovery("retry", 0, errorCode, Delivery.RecipientStateCorrected);
    var message := Outbox.MessageFor(t.outbox.messages, Outbox.ReplyRequested(0)).value;
    RunOne(t, recover);
    var u := Step(t, recover);
    assert u == t.(delivery := t.delivery.(
      replies := t.delivery.replies[0 := Delivery.ReopenedReply(t.delivery.replies[0])],
      recoveries := map["retry" := Delivery.Recovery(0, message, errorCode, Delivery.RecipientStateCorrected, None)]));
    hide Step, Run;
    var second := JobCompletes(u, 0, 2, 1, Sent(Delivery.Accepted("message"), true), now);
    events := [recover] + second;
    RunSplit(t, [recover], second);
    assert "retry" in Run(u, second).delivery.recoveries;
  }

  /** The bounds are reached: in some run an attempt is rejected, its message is consumed, an operator
      recovers the reply, and the second attempt reaches the user. */
  lemma RecoveryCanDeliver(
      update: Intake.UpdateId, account: Intake.AccountId, content: Content, completion: Completion, now: int)
    returns (events: seq<Event>)
    ensures var s := Run(INITIAL, events);
            && 1 in s.outbox.receipts
            && 0 in s.delivery.replies && s.delivery.replies[0].status == Delivery.ProviderAccepted
            && Delivery.HasRecovery(s.delivery.recoveries, 0)
            && s.sends.Keys == {0, 1} && !s.sends[0].delivered && s.sends[1].delivered
  {
    var start := UpdateBecomesReply(update, account, content, completion, now);
    var s := Run(INITIAL, start);
    hide Run;
    var first := JobCompletes(s, 0, 1, 0, Sent(Delivery.Rejected("bot_blocked"), false), now);
    var t := Run(s, first);
    assert t.delivery.replies[0].status == Delivery.TerminalFailure && t.delivery.replies[0].attempts == 1;
    var rest := RecoversAndDelivers(t, "bot_blocked", now);
    events := start + (first + rest);
    RunSplit(INITIAL, start, first + rest);
    RunSplit(s, first, rest);
  }
}
