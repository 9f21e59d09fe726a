/** The sequential jobs are runs: whatever a job does when nobody interferes, a worker of the transition
    system does in a few steps. What is proved of all runs therefore covers the jobs, and the steps of the
    transition system do not do less than the jobs. */
module TelegramRuns {
  import opened Common
  import Outbox
  import Intake
  import Delivery
  import Identity
  import opened Pipeline
  import PipelineExample
  import opened TelegramContent
  import opened TelegramReplies
  import TelegramEvents

  /** One more step of a run. */
  lemma Then(s: State, events: seq<Event>, t: State, e: Event) returns (longer: seq<Event>, u: State)
    requires t == Run(s, events)
    ensures longer == events + [e] && u == Step(t, e) == Run(s, longer)
  {
    longer, u := events + [e], Step(t, e);
    PipelineExample.RunSplit(s, events, [e]);
    PipelineExample.RunOne(t, e);
  }

  function Receipts(o: Outbox.State, outbox: Outbox.OutboxId, acknowledged: bool, now: int): Outbox.State {
    if acknowledged then Outbox.RecordConsumption(o, outbox, now).0 else o
  }

  // ---------------------------------------------------------------------------------------
  // Single steps
  // ---------------------------------------------------------------------------------------

  predicate At(s: State, worker: WorkerId, outbox: Outbox.OutboxId, phase: Phase) {
    outbox in s.outbox.messages && worker in s.workers && s.workers[worker] == Worker(outbox, phase)
  }

  function Moved(s: State, worker: WorkerId, outbox: Outbox.OutboxId, phase: Phase): State {
    s.(workers := s.workers[worker := Worker(outbox, phase)])
  }

  lemma Begins(s: State, worker: WorkerId, outbox: Outbox.OutboxId)
    requires worker !in s.workers && outbox in s.outbox.messages
    ensures Step(s, Begin(worker, outbox)) == Moved(s, worker, outbox, Received)
  {
  }

  lemma ClaimsEvent(
      s: State, worker: WorkerId, outbox: Outbox.OutboxId, claim: Intake.ClaimId, workerNow: int, now: int)
    requires At(s, worker, outbox, Received) && s.outbox.messages[outbox].target.EventReceived?
    ensures var event := s.outbox.messages[outbox].target.event;
            var (i, outcome) := Intake.Claim(s.intake, event, claim, workerNow, now);
            Step(s, ClaimEvent(worker, claim, workerNow, now)) ==
            Moved(s, worker, outbox, AfterEventClaim(event, outcome)).(intake := i)
  {
    hide Intake.Claim;
  }

  lemma Checks(
      s: State, worker: WorkerId, outbox: Outbox.OutboxId, event: Intake.EventId, claim: Intake.ClaimId,
      user: Intake.UserId, now: int)
    requires At(s, worker, outbox, Processing(event, claim)) && Intake.Holds(s.intake, event, claim)
    ensures var (i, limit) := Intake.EnforceUserLimit(s.intake, event, claim, user, now);
            Step(s, CheckUser(worker, user, now)) ==
            Moved(s, worker, outbox, if limit == Intake.Allowed then Processing(event, claim) else Finishing).(
              intake := i)
  {
  }

  lemma Completes(
      s: State, worker: WorkerId, outbox: Outbox.OutboxId, event: Intake.EventId, claim: Intake.ClaimId,
      completion: Completion, reply: Delivery.ReplyId, message: Outbox.OutboxId, now: int)
    requires At(s, worker, outbox, Processing(event, claim)) && Intake.Holds(s.intake, event, claim)
    ensures Step(s, CompleteEvent(worker, completion, reply, message, now)) ==
            if reply !in s.delivery.replies && message !in s.outbox.messages then
              Moved(s, worker, outbox, Finishing).(
                intake := Intake.Complete(s.intake, event, claim, completion, now).0,
                delivery := Delivery.Insert(s.delivery, reply, event, completion),
                outbox := Outbox.InsertMessage(s.outbox, message, Outbox.ReplyRequested(reply), now))
            else Moved(s, worker, outbox, Ended)
  {
    hide Delivery.Insert, Outbox.InsertMessage;
  }

  lemma Releases(s: State, worker: WorkerId, outbox: Outbox.OutboxId, event: Intake.EventId, claim: Intake.ClaimId)
    requires At(s, worker, outbox, Processing(event, claim))
    ensures Step(s, ReleaseEvent(worker)) ==
            Moved(s, worker, outbox, Ended).(intake := Intake.Release(s.intake, event, claim))
  {
    hide Intake.Release;
  }

  lemma Acknowledges(s: State, worker: WorkerId, outbox: Outbox.OutboxId, phase: Phase, now: int)
    requires At(s, worker, outbox, phase) && (phase.Finishing? || phase.Ended?)
    ensures Step(s, Acknowledge(worker, now)) ==
            Moved(s, worker, outbox, Ended).(outbox := Receipts(s.outbox, outbox, phase.Finishing?, now))
  {
    hide Outbox.RecordConsumption;
    assert phase.Ended? ==> Moved(s, worker, outbox, Ended).workers == s.workers;
  }

  lemma AsksForReply(
      s: State, worker: WorkerId, outbox: Outbox.OutboxId, claim: Intake.ClaimId, workerNow: int, now: int)
    requires At(s, worker, outbox, Received) && s.outbox.messages[outbox].target.ReplyRequested?
    ensures Step(s, ClaimEvent(worker, claim, workerNow, now)) == Moved(s, worker, outbox, Replying)
  {
  }

  lemma ClaimsReply(
      s: State, worker: WorkerId, outbox: Outbox.OutboxId, attempt: Delivery.AttemptId, workerNow: int, now: int)
    requires At(s, worker, outbox, Replying) && s.outbox.messages[outbox].target.ReplyRequested?
    ensures var reply := s.outbox.messages[outbox].target.reply;
            var (claimed, claim) := Delivery.Claim(s.delivery, reply, attempt, workerNow, now);
            Step(s, ClaimReply(worker, attempt, workerNow, now)) ==
            Moved(s, worker, outbox, AfterReplyClaim(reply, claim)).(delivery := claimed)
  {
    hide Delivery.Claim;
  }

  lemma Sends(
      s: State, worker: WorkerId, outbox: Outbox.OutboxId, reply: Delivery.ReplyId, attempt: Delivery.AttemptId,
      sent: Sent)
    requires At(s, worker, outbox, Sending(reply, attempt)) && Truthful(sent)
    ensures Step(s, Send(worker, sent)) ==
            Moved(s, worker, outbox, Reporting(reply, attempt, sent.outcome)).(sends := s.sends[attempt := sent])
  {
  }

  lemma Reports(
      s: State, worker: WorkerId, outbox: Outbox.OutboxId, reply: Delivery.ReplyId, attempt: Delivery.AttemptId,
      outcome: Delivery.Outcome, now: int)
    requires At(s, worker, outbox, Reporting(reply, attempt, outcome))
    ensures var (completed, recorded) := Delivery.CompleteAttempt(s.delivery, reply, attempt, outcome, now);
            Step(s, Report(worker, now)) ==
            Moved(s, worker, outbox, if recorded && !outcome.Transient? then Finishing else Ended).(
              delivery := completed)
  {
    hide Delivery.CompleteAttempt;
  }

  // ---------------------------------------------------------------------------------------
  // Event jobs
  // ---------------------------------------------------------------------------------------

  /** The state after an event job. */
  ghost function AfterEvent(
      s: State, h: TelegramEvents.Handling, worker: WorkerId, outbox: Outbox.OutboxId, event: Intake.EventId,
      completion: Option<Completion>, reply: Delivery.ReplyId, message: Outbox.OutboxId, now: int): State
  {
    var stored := if h.outcome.Processed? && completion.Some? then
      s.(delivery := Delivery.Insert(s.delivery, reply, event, completion.value),
         outbox := Outbox.InsertMessage(s.outbox, message, Outbox.ReplyRequested(reply), now))
    else s;
    var ended := TelegramEvents.Ended(h.outcome);
    Moved(stored, worker, outbox, Ended).(intake := h.intake, outbox := Receipts(stored.outbox, outbox, ended, now))
  }

  ghost function CompletionOf(
      s: State, ids: Identity.State, event: Intake.EventId, identity: Identity.IdentityId, now: nat)
      : Option<Completion>
    requires event in s.intake.events
  {
    var content := s.intake.events[event].content;
    var answer := AnswerTo(ids, content, s.intake.events[event].account, identity, now).1;
    if answer.Answered? then Some(CompletionFor(content, answer)) else None
  }

  /** A job of a received event, its acknowledgement included, is a run of one new worker. */
  lemma EventJobIsARun(
      s: State, ids: Identity.State, worker: WorkerId, outbox: Outbox.OutboxId, claim: Intake.ClaimId,
      identity: Identity.IdentityId, reply: Delivery.ReplyId, message: Outbox.OutboxId, workerNow: int, now: nat)
    returns (events: seq<Event>)
    requires TablesFit(s) && worker !in s.workers
    requires outbox in s.outbox.messages && s.outbox.messages[outbox].target.EventReceived?
    ensures var event := s.outbox.messages[outbox].target.event;
            event in s.intake.events &&
            var free := reply !in s.delivery.replies && message !in s.outbox.messages;
            var h := TelegramEvents.Handle(s.intake, ids, event, claim, identity, reply, free, workerNow, now);
            Run(s, events) ==
            AfterEvent(s, h, worker, outbox, event, CompletionOf(s, ids, event, identity, now), reply, message, now)
  {
    hide TablesFit, Run, Step, AnswerTo, Intake.Claim, CompletionFor, CompletionOf, Receipts;
    hide TelegramEvents.HandleClaimed, Delivery.Insert;
    EventKnown(s, outbox);
    var event := s.outbox.messages[outbox].target.event;
    var (i, outcome) := Intake.Claim(s.intake, event, claim, workerNow, now);
    var t := s;
    events := [];
    PipelineExample.RunNone(s);
    Begins(s, worker, outbox);
    events, t := Then(s, events, t, Begin(worker, outbox));
    ClaimsEvent(t, worker, outbox, claim, workerNow, now);
    events, t := Then(s, events, t, ClaimEvent(worker, claim, workerNow, now));
    assert t == Moved(s, worker, outbox, AfterEventClaim(event, outcome)).(intake := i);
    ClaimOutcomes(s.intake, event, claim, workerNow, now);
    if outcome.Claimed? {
      events, t := AnswerRun(s, events, t, i, ids, worker, outbox, event, claim, identity, reply, message, now);
    }
    Acknowledges(t, worker, outbox, t.workers[worker].phase, now);
    events, t := Then(s, events, t, Acknowledge(worker, now));
  }

  lemma EventKnown(s: State, outbox: Outbox.OutboxId)
    requires TablesFit(s) && outbox in s.outbox.messages && s.outbox.messages[outbox].target.EventReceived?
    ensures s.outbox.messages[outbox].target.event in s.intake.events
  {
    FittingTables(s);
    hide TablesFit, Outbox.OutboxInvariant, Intake.IntakeInvariant, Delivery.DeliveryInvariant;
  }

  lemma ClaimOutcomes(i: Intake.State, event: Intake.EventId, claim: Intake.ClaimId, workerNow: int, now: int)
    requires event in i.events
    ensures var (j, outcome) := Intake.Claim(i, event, claim, workerNow, now);
            && outcome != Intake.NotFound && event in j.events
            && (outcome.Claimed? ==>
                  && outcome.claim == claim && Intake.Holds(j, event, claim)
                  && j.events[event].content == i.events[event].content
                  && j.events[event].account == i.events[event].account)
  {
  }

  /** The steps between claim and acknowledgement: count, then complete or release. */
  lemma AnswerRun(
      s: State, before: seq<Event>, t: State, i: Intake.State, ids: Identity.State, worker: WorkerId,
      outbox: Outbox.OutboxId, event: Intake.EventId, claim: Intake.ClaimId, identity: Identity.IdentityId,
      reply: Delivery.ReplyId, message: Outbox.OutboxId, now: nat)
    returns (events: seq<Event>, u: State)
    requires t == Run(s, before) == Moved(s, worker, outbox, Processing(event, claim)).(intake := i)
    requires outbox in s.outbox.messages && event in i.events && event in s.intake.events
    requires Intake.Holds(i, event, claim)
    requires i.events[event].content == s.intake.events[event].content
    requires i.events[event].account == s.intake.events[event].account
    ensures u == Run(s, events)
    ensures var free := reply !in s.delivery.replies && message !in s.outbox.messages;
            var h := TelegramEvents.HandleClaimed(i, ids, event, claim, identity, reply, free, now);
            var completion := CompletionOf(s, ids, event, identity, now);
            u ==
            if h.outcome.Processed? && completion.Some? then
              Moved(s, worker, outbox, Finishing).(
                intake := h.intake, delivery := Delivery.Insert(s.delivery, reply, event, completion.value),
                outbox := Outbox.InsertMessage(s.outbox, message, Outbox.ReplyRequested(reply), now))
            else
              Moved(s, worker, outbox, if h.outcome.Unavailable? then Ended else Finishing).(intake := h.intake)
    ensures var free := reply !in s.delivery.replies && message !in s.outbox.messages;
            var outcome := TelegramEvents.HandleClaimed(i, ids, event, claim, identity, reply, free, now).outcome;
            && (outcome.Processed? || outcome.RateLimited? || outcome.Unavailable?)
            && (outcome.Processed? ==> CompletionOf(s, ids, event, identity, now).Some?)
  {
    hide Run, Step, AnswerTo, CompletionFor, TelegramEvents.Subject, Intake.EnforceUserLimit, Intake.Complete;
    hide Intake.Release, Delivery.Insert, Outbox.InsertMessage;
    var content, account := i.events[event].content, i.events[event].account;
    var user := TelegramEvents.Subject(ids, content, account, identity, now);
    var answer := AnswerTo(ids, content, account, identity, now).1;
    var (checked, limit) := TelegramEvents.Limited(i, event, claim, user, now);
    events, u := before, t;
    LimitOutcomes(i, event, claim, user, now);
    if user.Some? {
      Checks(u, worker, outbox, event, claim, user.value, now);
      events, u := Then(s, events, u, CheckUser(worker, user.value, now));
    }
    hide TelegramEvents.Limited;
    assert u ==
      Moved(s, worker, outbox, if limit == Intake.Allowed then Processing(event, claim) else Finishing).(
        intake := checked);
    if limit == Intake.Allowed {
      if answer.Answered? {
        Completes(u, worker, outbox, event, claim, CompletionFor(content, answer), reply, message, now);
        events, u := Then(s, events, u, CompleteEvent(worker, CompletionFor(content, answer), reply, message, now));
      } else {
        Releases(u, worker, outbox, event, claim);
        events, u := Then(s, events, u, ReleaseEvent(worker));
      }
    }
  }

  lemma LimitOutcomes(
      i: Intake.State, event: Intake.EventId, claim: Intake.ClaimId, user: Option<Identity.UserId>, now: int)
    requires Intake.Holds(i, event, claim)
    ensures var (checked, limit) := TelegramEvents.Limited(i, event, claim, user, now);
            && limit != Intake.UserLimitUnavailable
            && (limit == Intake.Allowed ==> Intake.Holds(checked, event, claim))
  {
  }

  // ---------------------------------------------------------------------------------------
  // Reply jobs
  // ---------------------------------------------------------------------------------------

  /** A job of a requested reply is a run of one new worker, in which the provider is called exactly if an
      attempt was claimed. */
  lemma ReplyJobIsARun(
      s: State, worker: WorkerId, outbox: Outbox.OutboxId, attempt: Delivery.AttemptId, sent: Sent, workerNow: int,
      now: int)
    returns (events: seq<Event>)
    requires worker !in s.workers && Truthful(sent)
    requires outbox in s.outbox.messages && s.outbox.messages[outbox].target.ReplyRequested?
    ensures var reply := s.outbox.messages[outbox].target.reply;
            var (claimed, claim) := Delivery.Claim(s.delivery, reply, attempt, workerNow, now);
            var over :=
              if claim.Claimed? then !sent.outcome.Transient? else claim.AlreadyTerminal? || claim.NotFound?;
            Run(s, events) ==
            State(
              Receipts(s.outbox, outbox, over, now), s.intake,
              if claim.Claimed? then Delivery.CompleteAttempt(claimed, reply, attempt, sent.outcome, now).0
              else claimed,
              s.workers[worker := Worker(outbox, Ended)],
              if claim.Claimed? then s.sends[attempt := sent] else s.sends)
  {
    hide Run, Step, Delivery.Claim, Delivery.CompleteAttempt, Receipts;
    var reply := s.outbox.messages[outbox].target.reply;
    var (claimed, claim) := Delivery.Claim(s.delivery, reply, attempt, workerNow, now);
    ClaimedReply(s.delivery, reply, attempt, workerNow, now, sent.outcome, now);
    var t := s;
    events := [];
    PipelineExample.RunNone(s);
    Begins(s, worker, outbox);
    events, t := Then(s, events, t, Begin(worker, outbox));
    AsksForReply(t, worker, outbox, 0, workerNow, now);
    events, t := Then(s, events, t, ClaimEvent(worker, 0, workerNow, now));
    ClaimsReply(t, worker, outbox, attempt, workerNow, now);
    events, t := Then(s, events, t, ClaimReply(worker, attempt, workerNow, now));
    assert t == Moved(s, worker, outbox, AfterReplyClaim(reply, claim)).(delivery := claimed);
    if claim.Claimed? {
      Sends(t, worker, outbox, reply, attempt, sent);
      events, t := Then(s, events, t, Send(worker, sent));
      Reports(t, worker, outbox, reply, attempt, sent.outcome, now);
      events, t := Then(s, events, t, Report(worker, now));
    }
    Acknowledges(t, worker, outbox, t.workers[worker].phase, now);
    events, t := Then(s, events, t, Acknowledge(worker, now));
  }

  lemma ClaimedReply(
      d: Delivery.State, reply: Delivery.ReplyId, attempt: Delivery.AttemptId, workerNow: int, now: int,
      outcome: Delivery.Outcome, later: int)
    ensures var (claimed, claim) := Delivery.Claim(d, reply, attempt, workerNow, now);
            claim.Claimed? ==>
              claim.attempt == attempt && Delivery.CompleteAttempt(claimed, reply, attempt, outcome, later).1
  {
  }
}
