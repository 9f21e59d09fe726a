/** The Telegram stores themselves: the tables as fields that each transaction updates in place,
    statement by statement. Every transaction does what the functions of Outbox, Intake, Delivery and
    Identity say, and keeps the tables valid: row constraints, foreign keys, exact abuse windows and
    attempt counts, one reply per event, one queue message per event and reply. */
module TelegramStore {
  import opened Common
  import Outbox
  import Intake
  import Delivery
  import Identity
  import Pipeline
  import opened TelegramContent

  // ---------------------------------------------------------------------------------------
  // Transactions keep the tables valid
  // ---------------------------------------------------------------------------------------

  lemma ClaimEventFits(s: Pipeline.State, id: Intake.EventId, claim: Intake.ClaimId, workerNow: int, now: int)
    requires Pipeline.TablesFit(s)
    ensures Pipeline.TablesFit(s.(intake := Intake.Claim(s.intake, id, claim, workerNow, now).0))
    ensures id in s.intake.events && Intake.Claim(s.intake, id, claim, workerNow, now).1 == Intake.RateLimited ==>
              s.intake.events[id].abuse.None?
    ensures forall o :: o in s.outbox.messages && s.outbox.messages[o].target == Outbox.EventReceived(id) ==>
              id in s.intake.events
  {
    Pipeline.FittingTables(s);
    if id in s.intake.events {
      Intake.EventsFit(s.intake, id);
    }
    hide Pipeline.TablesFit, Intake.IntakeInvariant, Intake.Evolves;
    Intake.ClaimKeeps(s.intake, id, claim, workerNow, now);
    Pipeline.IntakeFits(s, Intake.Claim(s.intake, id, claim, workerNow, now).0);
  }

  lemma EnforceUserLimitFits(
      s: Pipeline.State, id: Intake.EventId, claim: Intake.ClaimId, user: Intake.UserId, now: int)
    requires Pipeline.TablesFit(s)
    ensures Pipeline.TablesFit(s.(intake := Intake.EnforceUserLimit(s.intake, id, claim, user, now).0))
    ensures Intake.Holds(s.intake, id, claim) && s.intake.events[id].userAbuse.Some? ==>
              s.intake.events[id].userAbuse.value.allowed
  {
    Pipeline.FittingTables(s);
    if id in s.intake.events {
      Intake.EventsFit(s.intake, id);
    }
    hide Pipeline.TablesFit, Intake.IntakeInvariant, Intake.Evolves;
    Intake.EnforceUserLimitKeeps(s.intake, id, claim, user, now);
    Pipeline.IntakeFits(s, Intake.EnforceUserLimit(s.intake, id, claim, user, now).0);
  }

  lemma ReleaseFits(s: Pipeline.State, id: Intake.EventId, claim: Intake.ClaimId)
    requires Pipeline.TablesFit(s)
    ensures Pipeline.TablesFit(s.(intake := Intake.Release(s.intake, id, claim)))
  {
    hide *;
    Pipeline.FittingTables(s);
    Intake.ReleaseKeeps(s.intake, id, claim);
    Pipeline.IntakeFits(s, Intake.Release(s.intake, id, claim));
  }

  lemma ClaimReplyFits(s: Pipeline.State, id: Delivery.ReplyId, attempt: Delivery.AttemptId, workerNow: int, now: int)
    requires Pipeline.TablesFit(s)
    ensures Pipeline.TablesFit(s.(delivery := Delivery.Claim(s.delivery, id, attempt, workerNow, now).0))
    ensures forall o :: o in s.outbox.messages && s.outbox.messages[o].target == Outbox.ReplyRequested(id) ==>
              id in s.delivery.replies
  {
    Pipeline.FittingTables(s);
    Pipeline.ClaimReportsNothing(s.delivery, id, attempt, workerNow, now);
    hide Pipeline.TablesFit, Delivery.DeliveryInvariant, Delivery.Evolves, Delivery.Claim;
    Delivery.ClaimKeeps(s.delivery, id, attempt, workerNow, now);
    Pipeline.DeliveryFits(s, Delivery.Claim(s.delivery, id, attempt, workerNow, now).0);
  }

  lemma CompleteAttemptFits(
      s: Pipeline.State, id: Delivery.ReplyId, attempt: Delivery.AttemptId, outcome: Delivery.Outcome, now: int)
    requires Pipeline.TablesFit(s)
    ensures Pipeline.TablesFit(s.(delivery := Delivery.CompleteAttempt(s.delivery, id, attempt, outcome, now).0))
  {
    Pipeline.CompletionReports(s.delivery, id, attempt, outcome, now);
    hide *;
    Pipeline.FittingTables(s);
    Delivery.CompleteKeeps(s.delivery, id, attempt, outcome, now);
    Pipeline.DeliveryFits(s, Delivery.CompleteAttempt(s.delivery, id, attempt, outcome, now).0);
  }

  lemma PrepareFits(
      s: Pipeline.State, recovery: Delivery.RecoveryId, id: Delivery.ReplyId, errorCode: string,
      reason: Delivery.Reason)
    requires Pipeline.TablesFit(s)
    ensures Pipeline.TablesFit(Pipeline.PrepareRecoveryStep(s, recovery, id, errorCode, reason))
  {
    var outbox := Outbox.MessageFor(s.outbox.messages, Outbox.ReplyRequested(id));
    var delivery := Delivery.Prepare(s.delivery, recovery, id, errorCode, reason, outbox).0;
    PreparedKeys(s.delivery, recovery, id, errorCode, reason, outbox);
    PreparedStep(s, recovery, id, errorCode, reason);
    hide *;
    Pipeline.FittingTables(s);
    Delivery.PrepareKeeps(s.delivery, recovery, id, errorCode, reason, outbox);
    Pipeline.DeliveryFits(s, delivery);
  }

  lemma PreparedKeys(
      d: Delivery.State, recovery: Delivery.RecoveryId, id: Delivery.ReplyId, errorCode: string,
      reason: Delivery.Reason, outbox: Option<Outbox.OutboxId>)
    ensures Delivery.Prepare(d, recovery, id, errorCode, reason, outbox).0.replies.Keys == d.replies.Keys
  {
  }

  lemma PreparedStep(
      s: Pipeline.State, recovery: Delivery.RecoveryId, id: Delivery.ReplyId, errorCode: string,
      reason: Delivery.Reason)
    ensures Pipeline.PrepareRecoveryStep(s, recovery, id, errorCode, reason) ==
            s.(delivery := Delivery.Prepare(
                 s.delivery, recovery, id, errorCode, reason,
                 Outbox.MessageFor(s.outbox.messages, Outbox.ReplyRequested(id))).0)
  {
    hide Delivery.Prepare;
  }

  /** The join with the queue message has one row. */
  lemma OneMessage(s: Pipeline.State, outbox: Outbox.OutboxId, target: Outbox.Target)
    requires Pipeline.TablesFit(s) && outbox in s.outbox.messages && s.outbox.messages[outbox].target == target
    ensures Outbox.MessageFor(s.outbox.messages, target) == Some(outbox)
  {
    Pipeline.FittingTables(s);
    hide Pipeline.TablesFit;
  }

  lemma MarkedKeys(d: Delivery.State, recovery: Delivery.RecoveryId, now: int)
    ensures Delivery.MarkPublished(d, recovery, now).0.replies.Keys == d.replies.Keys
  {
  }

  lemma MarkFits(s: Pipeline.State, recovery: Delivery.RecoveryId, now: int)
    requires Pipeline.TablesFit(s)
    ensures Pipeline.TablesFit(s.(delivery := Delivery.MarkPublished(s.delivery, recovery, now).0))
  {
    MarkedKeys(s.delivery, recovery, now);
    hide *;
    Pipeline.FittingTables(s);
    Delivery.MarkPublishedKeeps(s.delivery, recovery, now);
    Pipeline.DeliveryFits(s, Delivery.MarkPublished(s.delivery, recovery, now).0);
  }

  /** Events, abuse windows, replies, provider attempts, recoveries, queue messages and receipts. */
  class TelegramDatabase {
    var events: map<Intake.EventId, Intake.Event>
    var windows: map<Intake.Window, nat>
    var commands: map<Intake.EventId, Intake.Command>
    var replies: map<Delivery.ReplyId, Delivery.Reply>
    var attempts: map<Delivery.AttemptId, Delivery.Attempt>
    var recoveries: map<Delivery.RecoveryId, Delivery.Recovery>
    var messages: map<Outbox.OutboxId, Outbox.Message>
    var receipts: map<Outbox.OutboxId, Outbox.Receipt>

    ghost function IntakeState(): Intake.State
      reads this
    {
      Intake.State(events, windows, commands)
    }

    ghost function DeliveryState(): Delivery.State
      reads this
    {
      Delivery.State(replies, attempts, recoveries)
    }

    ghost function OutboxState(): Outbox.State
      reads this
    {
      Outbox.State(messages, receipts)
    }

    ghost function Tables(): Pipeline.State
      reads this
    {
      Pipeline.State(OutboxState(), IntakeState(), DeliveryState(), map[], map[])
    }

    ghost predicate Valid()
      reads this
    {
      Pipeline.TablesFit(Tables())
    }

    constructor ()
      ensures Valid() && Tables() == Pipeline.INITIAL
    {
      events, windows, commands, replies, attempts, recoveries := map[], map[], map[], map[], map[], map[];
      messages, receipts := map[], map[];
      new;
      Pipeline.InitialFits();
      Pipeline.FittingPipeline(Pipeline.INITIAL);
    }

    // -------------------------------------------------------------------------------------
    // Events
    // -------------------------------------------------------------------------------------

    /** Insert an event unless its update is known, and its queue message with it. */
    method PersistEvent(
        id: Intake.EventId, outbox: Outbox.OutboxId, update: Intake.UpdateId, account: Intake.AccountId,
        content: Content, now: int) returns (outcome: Intake.PersistOutcome)
      requires Valid()
      modifies this`events, this`messages
      ensures Valid()
      ensures var persisted := Intake.Persist(old(IntakeState()), id, update, account, content);
              if persisted.1 == Intake.Accepted && outbox !in old(messages) then
                && outcome == Intake.Accepted
                && IntakeState() == persisted.0
                && OutboxState() == Outbox.InsertMessage(old(OutboxState()), outbox, Outbox.EventReceived(id), now)
              else
                && IntakeState() == old(IntakeState()) && OutboxState() == old(OutboxState())
                && outcome ==
                   if persisted.1 == Intake.DuplicateUpdate then Intake.DuplicateUpdate else Intake.PersistUnavailable
    {
      if exists e :: e in events && events[e].update == update {
        return Intake.DuplicateUpdate;
      }
      if id in events || outbox in messages {
        return Intake.PersistUnavailable;
      }
      events := events[id := Intake.NewEvent(update, account, content)];
      messages := messages[outbox := Outbox.NewMessage(Outbox.EventReceived(id), now)];
      Pipeline.WebhookFits(old(Tables()), Tables(), id, outbox, update, account, content, now);
      return Intake.Accepted;
    }

    /** Add one to a window and return the new count. */
    method CountEvent(window: Intake.Window) returns (count: nat)
      modifies this`windows
      ensures windows == Intake.Bump(old(windows), window) && count == windows[window]
    {
      count := if window in windows then windows[window] + 1 else 1;
      windows := windows[window := count];
    }

    /** Claim the event of a queue message; the first claim also decides whether it is admitted. */
    method ClaimEvent(outbox: Outbox.OutboxId, claim: Intake.ClaimId, workerNow: int, now: int)
      returns (outcome: Intake.ClaimOutcome, id: Intake.EventId)
      requires Valid()
      modifies this`events, this`windows
      ensures Valid()
      ensures outcome == Intake.NotFound <==> !(outbox in messages && messages[outbox].target.EventReceived?)
      ensures outcome == Intake.Duplicate || outcome == Intake.RateLimited ==>
                id in events && Intake.Terminal(events[id])
      ensures outbox in messages && messages[outbox].target.EventReceived? ==>
                id == messages[outbox].target.event &&
                (IntakeState(), outcome) == Intake.Claim(old(IntakeState()), id, claim, workerNow, now)
      ensures !(outbox in messages && messages[outbox].target.EventReceived?) ==>
                IntakeState() == old(IntakeState()) && outcome == Intake.NotFound
    {
      hide Pipeline.TablesFit;
      id := 0;
      if outbox !in messages || !messages[outbox].target.EventReceived? {
        return Intake.NotFound, id;
      }
      id := messages[outbox].target.event;
      ClaimEventFits(Tables(), id, claim, workerNow, now);
      if id !in events {
        return Intake.NotFound, id;
      }
      var e := events[id];
      if e.status == Intake.Processed || e.status == Intake.Suppressed {
        return Intake.Duplicate, id;
      }
      if e.status == Intake.Processing && e.claimedUntil.Some? && e.claimedUntil.value > workerNow {
        return Intake.Deferred(SecondsUntil(e.claimedUntil.value, workerNow)), id;
      }
      if e.abuse.Some? && !e.abuse.value.allowed {
        return Intake.RateLimited, id;
      }
      if e.abuse.None? {
        var system := CountEvent(Intake.Window(Intake.System, Intake.MinuteOf(now)));
        var identity := CountEvent(Intake.Window(Intake.Identity(e.account), Intake.MinuteOf(now)));
        if !(system <= Intake.Limit(Intake.System) && identity <= Intake.Limit(Intake.Identity(e.account))) {
          events := events[id := e.(
            status := Intake.Suppressed, ending := Some(Intake.AbuseLimited), processedAt := Some(now),
            claim := None, claimedUntil := None, abuse := Some(Intake.Verdict(false, now)))];
          return Intake.RateLimited, id;
        }
      }
      events := events[id := e.(
        status := Intake.Processing, claim := Some(claim), claimedUntil := Some(now + Intake.LEASE),
        attempts := e.attempts + 1,
        abuse := if e.abuse.Some? then e.abuse else Some(Intake.Verdict(true, now)))];
      return Intake.Claimed(claim), id;
    }

    method EnforceUserLimit(id: Intake.EventId, claim: Intake.ClaimId, user: Intake.UserId, now: int)
      returns (outcome: Intake.UserLimitOutcome)
      requires Valid()
      modifies this`events, this`windows
      ensures Valid()
      ensures outcome == Intake.Allowed ==> Intake.Holds(IntakeState(), id, claim)
      ensures outcome == Intake.UserRateLimited ==> id in events && events[id].status == Intake.Suppressed
      ensures (IntakeState(), outcome) == Intake.EnforceUserLimit(old(IntakeState()), id, claim, user, now)
    {
      hide Pipeline.TablesFit;
      EnforceUserLimitFits(Tables(), id, claim, user, now);
      if id !in events || events[id].status != Intake.Processing || events[id].claim != Some(claim) {
        return Intake.UserLimitUnavailable;
      }
      var e := events[id];
      if e.userAbuse.Some? {
        return if e.userAbuse.value.allowed then Intake.Allowed else Intake.UserRateLimited;
      }
      var count := CountEvent(Intake.Window(Intake.User(user), Intake.MinuteOf(now)));
      if count <= Intake.Limit(Intake.User(user)) {
        events := events[id := e.(userAbuse := Some(Intake.UserVerdict(true, now, user)))];
        return Intake.Allowed;
      }
      events := events[id := e.(
        status := Intake.Suppressed, ending := Some(Intake.UserAbuseLimited), processedAt := Some(now),
        claim := None, claimedUntil := None, userAbuse := Some(Intake.UserVerdict(false, now, user)))];
      return Intake.UserRateLimited;
    }

    /** Process the event and insert its reply and the reply's queue message. */
    method CompleteEvent(
        id: Intake.EventId, claim: Intake.ClaimId, completion: Completion, reply: Delivery.ReplyId,
        outbox: Outbox.OutboxId, now: int) returns (completed: bool)
      requires Valid()
      modifies this`events, this`commands, this`replies, this`messages
      ensures Valid()
      ensures completed ==
              (Intake.Holds(old(IntakeState()), id, claim) && reply !in old(replies) && outbox !in old(messages))
      ensures completed ==>
                && IntakeState() == Intake.Complete(old(IntakeState()), id, claim, completion, now).0
                && DeliveryState() == Delivery.Insert(old(DeliveryState()), reply, id, completion)
                && OutboxState() == Outbox.InsertMessage(old(OutboxState()), outbox, Outbox.ReplyRequested(reply), now)
      ensures !completed ==> Tables() == old(Tables())
    {
      if id !in events || events[id].status != Intake.Processing || events[id].claim != Some(claim) ||
         reply in replies || outbox in messages {
        return false;
      }
      events := events[id := events[id].(
        status := Intake.Processed, ending := Some(Intake.EndingOf(completion)), owner := ActorOf(completion),
        processedAt := Some(now), claim := None, claimedUntil := None)];
      if completion.LinkedTextAccepted? {
        commands := commands[id := Intake.Command(completion.actor, completion.text)];
      }
      replies := replies[reply := Delivery.NewReply(id, completion)];
      messages := messages[outbox := Outbox.NewMessage(Outbox.ReplyRequested(reply), now)];
      Pipeline.CompletionFits(old(Tables()), Tables(), id, claim, completion, reply, outbox, now);
      return true;
    }

    method ReleaseEvent(id: Intake.EventId, claim: Intake.ClaimId)
      requires Valid()
      modifies this`events
      ensures Valid()
      ensures IntakeState() == Intake.Release(old(IntakeState()), id, claim)
    {
      hide Pipeline.TablesFit;
      ReleaseFits(Tables(), id, claim);
      if id in events && events[id].status == Intake.Processing && events[id].claim == Some(claim) {
        events := events[id := events[id].(status := Intake.Pending, claim := None, claimedUntil := None)];
      }
    }

    // -------------------------------------------------------------------------------------
    // Replies
    // -------------------------------------------------------------------------------------

    method ConcludeAttempt(attempt: Delivery.AttemptId, outcome: Delivery.Outcome, now: int)
      modifies this`attempts
      ensures attempts == Delivery.Conclude(old(attempts), attempt, outcome, now)
    {
      if attempt in attempts && attempts[attempt].outcome.None? {
        attempts := attempts[attempt := attempts[attempt].(outcome := Some(outcome), completedAt := Some(now))];
      }
    }

    /** Claim the reply of a queue message for one provider attempt. */
    method ClaimReply(outbox: Outbox.OutboxId, attempt: Delivery.AttemptId, workerNow: int, now: int)
      returns (outcome: Delivery.ClaimOutcome, id: Delivery.ReplyId)
      requires Valid()
      modifies this`replies, this`attempts
      ensures Valid()
      ensures outcome == Delivery.NotFound <==> !(outbox in messages && messages[outbox].target.ReplyRequested?)
      ensures outcome == Delivery.AlreadyTerminal ==> id in replies && Delivery.Terminal(replies[id])
      ensures outbox in messages && messages[outbox].target.ReplyRequested? ==>
                id == messages[outbox].target.reply &&
                (DeliveryState(), outcome) == Delivery.Claim(old(DeliveryState()), id, attempt, workerNow, now)
      ensures !(outbox in messages && messages[outbox].target.ReplyRequested?) ==>
                DeliveryState() == old(DeliveryState()) && outcome == Delivery.NotFound
    {
      hide Pipeline.TablesFit;
      id := 0;
      if outbox !in messages || !messages[outbox].target.ReplyRequested? {
        return Delivery.NotFound, id;
      }
      id := messages[outbox].target.reply;
      ClaimReplyFits(Tables(), id, attempt, workerNow, now);
      if id !in replies {
        return Delivery.NotFound, id;
      }
      var r := replies[id];
      if r.status == Delivery.ProviderAccepted || r.status == Delivery.TerminalFailure ||
        r.status == Delivery.OutcomeUnknown {
        return Delivery.AlreadyTerminal, id;
      }
      if r.status == Delivery.Delivering {
        if r.claimedUntil.Some? && r.claimedUntil.value > workerNow {
          return Delivery.Deferred(SecondsUntil(r.claimedUntil.value, workerNow)), id;
        }
        if r.claim.Some? {
          ConcludeAttempt(r.claim.value, Delivery.Unknown(Delivery.LEASE_EXPIRED), now);
        }
        replies := replies[id := r.(
          status := Delivery.OutcomeUnknown, claim := None, claimedUntil := None,
          lastError := Some(Delivery.LEASE_EXPIRED), terminalAt := Some(now))];
        return Delivery.AlreadyTerminal, id;
      }
      if r.attempts >= Delivery.MAXIMUM_ATTEMPTS {
        replies := replies[id := r.(
          status := Delivery.TerminalFailure, lastError := Some(Delivery.ATTEMPTS_EXHAUSTED), terminalAt := Some(now))];
        return Delivery.AlreadyTerminal, id;
      }
      if attempt in attempts {
        return Delivery.Unavailable, id;
      }
      replies := replies[id := r.(
        status := Delivery.Delivering, attempts := r.attempts + 1, claim := Some(attempt),
        claimedUntil := Some(now + Delivery.LEASE), lastError := None)];
      attempts := attempts[attempt := Delivery.Attempt(id, r.attempts + 1, None, None)];
      return Delivery.Claimed(attempt), id;
    }

    method CompleteAttempt(id: Delivery.ReplyId, attempt: Delivery.AttemptId, outcome: Delivery.Outcome, now: int)
      returns (completed: bool)
      requires Valid()
      modifies this`replies, this`attempts
      ensures Valid()
      ensures (DeliveryState(), completed) == Delivery.CompleteAttempt(old(DeliveryState()), id, attempt, outcome, now)
    {
      hide Pipeline.TablesFit;
      CompleteAttemptFits(Tables(), id, attempt, outcome, now);
      if id !in replies || replies[id].status != Delivery.Delivering || replies[id].claim != Some(attempt) {
        return false;
      }
      ConcludeAttempt(attempt, outcome, now);
      var r := replies[id].(claim := None, claimedUntil := None);
      match outcome {
        case Transient(code) =>
          replies := replies[id := r.(status := Delivery.Pending, lastError := Some(code))];
        case Accepted(message) =>
          replies := replies[id := r.(
            status := Delivery.ProviderAccepted, providerMessage := Some(message), lastError := None,
            acceptedAt := Some(now), terminalAt := None)];
        case Rejected(code) =>
          replies := replies[id := r.(
            status := Delivery.TerminalFailure, providerMessage := None, lastError := Some(code),
            acceptedAt := None, terminalAt := Some(now))];
        case Unknown(code) =>
          replies := replies[id := r.(
            status := Delivery.OutcomeUnknown, providerMessage := None, lastError := Some(code),
            acceptedAt := None, terminalAt := Some(now))];
      }
      return true;
    }

    method PrepareRecovery(
        recovery: Delivery.RecoveryId, id: Delivery.ReplyId, errorCode: string, reason: Delivery.Reason)
      returns (outcome: Delivery.PrepareOutcome)
      requires Valid()
      modifies this`replies, this`recoveries
      ensures Valid()
      ensures (DeliveryState(), outcome) ==
              Delivery.Prepare(
                old(DeliveryState()), recovery, id, errorCode, reason,
                Outbox.MessageFor(messages, Outbox.ReplyRequested(id)))
    {
      hide Pipeline.TablesFit;
      PrepareFits(Tables(), recovery, id, errorCode, reason);
      if recovery in recoveries {
        var row := recoveries[recovery];
        if row.reply != id || row.errorCode != errorCode || row.reason != reason {
          return Delivery.NotRecoverable(Delivery.IdempotencyConflict);
        }
        return Delivery.Prepared(row.outbox, row.publishedAt.Some?);
      }
      if id !in replies || !exists o :: o in messages && messages[o].target == Outbox.ReplyRequested(id) {
        return Delivery.NotRecoverable(Delivery.ReplyNotFound);
      }
      var outbox :| outbox in messages && messages[outbox].target == Outbox.ReplyRequested(id);
      OneMessage(Tables(), outbox, Outbox.ReplyRequested(id));
      var r := replies[id];
      if r.status == Delivery.ProviderAccepted {
        return Delivery.NotRecoverable(Delivery.RefusedProviderAccepted);
      }
      if r.status == Delivery.OutcomeUnknown {
        return Delivery.NotRecoverable(Delivery.RefusedOutcomeUnknown);
      }
      if r.status != Delivery.TerminalFailure {
        return Delivery.NotRecoverable(Delivery.NotTerminalFailure);
      }
      if r.lastError != Some(errorCode) {
        return Delivery.NotRecoverable(Delivery.ErrorCodeMismatch);
      }
      if r.attempts >= Delivery.MAXIMUM_ATTEMPTS {
        return Delivery.NotRecoverable(Delivery.AttemptLimitReached);
      }
      replies := replies[id := r.(
        status := Delivery.Pending, claim := None, claimedUntil := None, lastError := None, terminalAt := None)];
      recoveries := recoveries[recovery := Delivery.Recovery(id, outbox, errorCode, reason, None)];
      return Delivery.Prepared(outbox, false);
    }

    method MarkRecoveryPublished(recovery: Delivery.RecoveryId, now: int) returns (outcome: Delivery.MarkOutcome)
      requires Valid()
      modifies this`recoveries
      ensures Valid()
      ensures (DeliveryState(), outcome) == Delivery.MarkPublished(old(DeliveryState()), recovery, now)
    {
      hide Pipeline.TablesFit;
      MarkFits(Tables(), recovery, now);
      if recovery !in recoveries {
        return Delivery.RecoveryNotFound;
      }
      if recoveries[recovery].publishedAt.Some? {
        return Delivery.AlreadyPublished;
      }
      recoveries := recoveries[recovery := recoveries[recovery].(publishedAt := Some(now))];
      return Delivery.MarkedPublished;
    }

    // -------------------------------------------------------------------------------------
    // Outbox
    // -------------------------------------------------------------------------------------

    method ReconcileConsumed()
      modifies this`messages
      ensures messages.Keys == old(messages.Keys)
      ensures forall id :: id in messages ==>
                messages[id] == Outbox.Reconciled(old(messages)[id], Outbox.ReceiptOf(old(OutboxState()), id))
    {
      messages := map id | id in messages ::
        if id in receipts then Outbox.Reconciled(messages[id], Some(receipts[id])) else messages[id];
    }

    method ReviveStalled(now: int)
      modifies this`messages
      ensures messages.Keys == old(messages.Keys)
      ensures forall id :: id in messages ==>
                messages[id] == Outbox.Revived(old(messages)[id], Outbox.ReceiptOf(old(OutboxState()), id), now)
    {
      messages := map id | id in messages ::
        if id in receipts then messages[id] else Outbox.Revived(messages[id], None, now);
    }

    method FailExhausted(now: int)
      modifies this`messages
      ensures messages.Keys == old(messages.Keys)
      ensures forall id :: id in messages ==> messages[id] == Outbox.Exhausted(old(messages)[id], now)
    {
      messages := map id | id in messages :: Outbox.Exhausted(messages[id], now);
    }

    method LeaseEligible(picked: map<Outbox.OutboxId, Outbox.ClaimId>, now: int) returns (claimed: set<Outbox.OutboxId>)
      modifies this`messages
      ensures messages.Keys == old(messages.Keys)
      ensures claimed == set id | id in old(messages) && id in picked && Outbox.Eligible(old(messages)[id], now)
      ensures forall id :: id in messages ==>
                messages[id] ==
                if id in claimed then Outbox.Leased(old(messages)[id], picked[id], now) else old(messages)[id]
    {
      claimed := set id | id in messages && id in picked && Outbox.Eligible(messages[id], now);
      messages := map id | id in messages ::
        if id in claimed then Outbox.Leased(messages[id], picked[id], now) else messages[id];
    }

    /** The four bulk updates of a dispatch. The selection's order, limit and lock skipping decide
        which eligible messages are picked. */
    method ClaimPending(picked: map<Outbox.OutboxId, Outbox.ClaimId>, now: int) returns (claimed: set<Outbox.OutboxId>)
      requires Valid()
      modifies this`messages
      ensures Valid()
      ensures OutboxState() == Outbox.ClaimPending(old(OutboxState()), picked, now)
      ensures forall id :: id in claimed <==> Outbox.Takes(old(OutboxState()), picked, now, id)
    {
      hide Outbox.Reconciled, Outbox.Revived, Outbox.Exhausted, Outbox.Leased, Outbox.Eligible;
      hide Outbox.ClaimPending, Outbox.Takes, Pipeline.TablesFit;
      Pipeline.OutboxFits(Tables(), Outbox.Dispatch(picked, now));
      ghost var before := OutboxState();
      ReconcileConsumed();
      ReviveStalled(now);
      FailExhausted(now);
      ghost var swept := messages;
      assert forall id :: id in swept ==>
        swept[id] == Outbox.Swept(before.messages[id], Outbox.ReceiptOf(before, id), now);
      claimed := LeaseEligible(picked, now);
      FourUpdates(before, swept, messages, picked, claimed, now);
    }

    /** Sweeping every row and then leasing the eligible picked ones is the dispatch. */
    lemma FourUpdates(
        before: Outbox.State, swept: map<Outbox.OutboxId, Outbox.Message>,
        after: map<Outbox.OutboxId, Outbox.Message>, picked: map<Outbox.OutboxId, Outbox.ClaimId>,
        claimed: set<Outbox.OutboxId>, now: int)
      requires swept.Keys == before.messages.Keys == after.Keys
      requires forall id :: id in swept ==>
               swept[id] == Outbox.Swept(before.messages[id], Outbox.ReceiptOf(before, id), now)
      requires claimed == set id | id in swept && id in picked && Outbox.Eligible(swept[id], now)
      requires forall id :: id in after ==>
                 after[id] == if id in claimed then Outbox.Leased(swept[id], picked[id], now) else swept[id]
      ensures Outbox.State(after, before.receipts) == Outbox.ClaimPending(before, picked, now)
      ensures forall id :: id in claimed <==> Outbox.Takes(before, picked, now, id)
    {
      hide Outbox.Reconciled, Outbox.Revived, Outbox.Exhausted, Outbox.Swept, Outbox.Leased, Outbox.Eligible,
        Outbox.ReceiptOf;
    }

    method MarkPublished(id: Outbox.OutboxId, claim: Outbox.ClaimId, now: int)
      returns (outcome: Outbox.TransitionOutcome)
      requires Valid()
      modifies this`messages
      ensures Valid()
      ensures (OutboxState(), outcome) == Outbox.MarkPublished(old(OutboxState()), id, claim, now)
    {
      hide Pipeline.TablesFit;
      Pipeline.OutboxFits(Tables(), Outbox.Publish(id, claim, now));
      if id in messages && messages[id].status == Outbox.Pending && messages[id].claim == Some(claim) {
        messages := messages[id := messages[id].(
          status := Outbox.Published, publishedAt := Some(now), claim := None, claimedUntil := None,
            lastError := None)];
        return Outbox.Done;
      }
      return if id !in messages then Outbox.NoSuchMessage
             else if messages[id].status == Outbox.Published then Outbox.Done else Outbox.StateConflict;
    }

    method RecordPublicationFailure(
        id: Outbox.OutboxId, claim: Outbox.ClaimId, error: Outbox.PublishError, delaySeconds: nat, terminal: bool,
        now: int)
      returns (outcome: Outbox.TransitionOutcome)
      requires Valid()
      modifies this`messages
      ensures Valid()
      ensures (OutboxState(), outcome) ==
              Outbox.RecordFailure(old(OutboxState()), id, claim, error, delaySeconds, terminal, now)
    {
      hide Pipeline.TablesFit;
      Pipeline.OutboxFits(Tables(), Outbox.Fail(id, claim, error, delaySeconds, terminal, now));
      if id in messages && messages[id].status == Outbox.Pending && messages[id].claim == Some(claim) {
        messages := messages[id := messages[id].(
          status := if terminal then Outbox.Failed else Outbox.Pending,
          failedAt := if terminal then Some(now) else None,
          claim := None, claimedUntil := None,
          nextAttemptAt := if terminal then now else now + delaySeconds * 1_000,
          lastError := Some(error))];
        return Outbox.Done;
      }
      return if id !in messages then Outbox.NoSuchMessage
             else if messages[id].status == Outbox.Published then Outbox.Done else Outbox.StateConflict;
    }

    method RecordConsumption(id: Outbox.OutboxId, now: int) returns (outcome: Outbox.Consumption)
      requires Valid()
      modifies this`receipts
      ensures Valid()
      ensures (OutboxState(), outcome) == Outbox.RecordConsumption(old(OutboxState()), id, now)
    {
      hide Pipeline.TablesFit;
      Pipeline.OutboxFits(Tables(), Outbox.Consume(id, now));
      if id !in messages {
        return Outbox.ConsumptionNotFound;
      }
      if id in receipts {
        receipts := receipts[id := receipts[id].(deliveries := receipts[id].deliveries + 1)];
        return Outbox.RepeatedConsumption;
      }
      receipts := receipts[id := Outbox.Receipt(now, 1)];
      return Outbox.FirstConsumption;
    }

    method RecoverFailedPublication(id: Outbox.OutboxId, now: int) returns (recovered: bool)
      requires Valid()
      modifies this`messages
      ensures Valid()
      ensures (OutboxState(), recovered) == Outbox.RecoverFailed(old(OutboxState()), id, now)
    {
      hide Pipeline.TablesFit;
      Pipeline.OutboxFits(Tables(), Outbox.Recover(id, now));
      if id !in messages || messages[id].status != Outbox.Failed || id in receipts {
        return false;
      }
      messages := messages[id := messages[id].(
        status := Outbox.Pending, publishedAt := None, failedAt := None, attempts := 0, claim := None,
        claimedUntil := None, nextAttemptAt := now, lastError := None)];
      return true;
    }
  }

  /** Ledgers, historical links and challenges. */
  class IdentityDatabase {
    var ledgers: map<Identity.UserId, Identity.LedgerId>
    var identities: map<Identity.IdentityId, Identity.IdentityRow>
    var challenges: map<Identity.Digest, Identity.Challenge>

    ghost function State(): Identity.State
      reads this
    {
      Identity.State(ledgers, identities, challenges)
    }

    ghost predicate Valid()
      reads this
    {
      Identity.IdentityInvariant(State())
    }

    constructor ()
      ensures Valid() && State() == Identity.INITIAL
    {
      ledgers, identities, challenges := map[], map[], map[];
      new;
      Identity.ReachableStatesFit([]);
    }

    /** The earliest creation among some challenges. */
    method OldestOf(among: set<Identity.Digest>) returns (oldest: nat)
      requires among != {} && among <= challenges.Keys
      ensures oldest == Identity.OldestCreation(challenges, among)
    {
      var first :| first in among;
      ghost var best := first;
      oldest := challenges[first].createdAt;
      var rest := among - {first};
      while rest != {}
        invariant rest <= among && best in among && oldest == challenges[best].createdAt
        invariant forall d :: d in among - rest ==> oldest <= challenges[d].createdAt
        decreases rest
      {
        var d :| d in rest;
        if challenges[d].createdAt < oldest {
          oldest, best := challenges[d].createdAt, d;
        }
        rest := rest - {d};
      }
      assert Identity.IsOldest(challenges, among, best);
    }

    method CreateChallenge(actor: Identity.Actor, purpose: Identity.Purpose, digest: Identity.Digest, now: nat)
      returns (outcome: Identity.CreateOutcome)
      requires Valid()
      modifies this`challenges
      ensures Valid()
      ensures (State(), outcome) == Identity.Create(old(State()), actor, purpose, digest, now)
    {
      Identity.CreateKeeps(State(), actor, purpose, digest, now);
      hide Identity.IdentityInvariant;
      if actor.user !in ledgers || ledgers[actor.user] != actor.ledger {
        return Identity.AuthorityNotFound;
      }
      if purpose.Unlink? {
        var id := purpose.target;
        if id !in identities || identities[id].owner != actor || identities[id].unlinkedAt.Some? {
          return Identity.TargetNotFound;
        }
      }
      var since := Max(0, now - Identity.WINDOW);
      var recent := set d | d in challenges && challenges[d].owner.user == actor.user &&
        challenges[d].createdAt >= since;
      assert recent == Identity.Recent(challenges, actor.user, Identity.Since(now));
      if |recent| >= Identity.MAXIMUM_PER_WINDOW {
        var oldest := OldestOf(recent);
        return Identity.RateLimited(SecondsUntil(oldest + (now - since), now));
      }
      if digest in challenges {
        return Identity.CreateUnavailable;
      }
      challenges := challenges[digest := Identity.Challenge(actor, purpose, now, now + Identity.LIFETIME, None)];
      return Identity.Stored;
    }

    method ConsumeLink(digest: Identity.Digest, account: Identity.AccountId, id: Identity.IdentityId, now: nat)
      returns (outcome: Identity.ConsumeOutcome)
      requires Valid()
      modifies this`identities, this`challenges
      ensures Valid()
      ensures (State(), outcome) == Identity.ConsumeLink(old(State()), digest, account, id, now)
      ensures if outcome.Linked? then
                account !in old(Identity.Links(State())) &&
                Identity.Links(State()) == old(Identity.Links(State()))[account := outcome.actor]
              else Identity.Links(State()) == old(Identity.Links(State()))
    {
      Identity.ConsumeLinkKeeps(State(), digest, account, id, now);
      Identity.LinkRefines(State(), digest, account, id, now);
      hide Identity.IdentityInvariant, Identity.Links;
      if digest !in challenges || challenges[digest].purpose != Identity.Link {
        return Identity.ChallengeNotFound;
      }
      var challenge := challenges[digest];
      if challenge.consumedAt.Some? {
        return Identity.AlreadyConsumed;
      }
      if now < challenge.createdAt {
        return Identity.ConsumeUnavailable;
      }
      if challenge.expiresAt <= now {
        challenges := challenges[digest := challenge.(consumedAt := Some(now))];
        return Identity.Expired;
      }
      var linked := exists i :: i in identities && identities[i].account == account && identities[i].unlinkedAt.None?;
      assert linked == Identity.IsLinked(State(), account) by {
        assert forall i :: i in identities ==>
          (Identity.Active(State(), i, account) <==>
            identities[i].account == account && identities[i].unlinkedAt.None?);
      }
      if linked {
        challenges := challenges[digest := challenge.(consumedAt := Some(now))];
        return Identity.AlreadyLinked;
      }
      if id in identities {
        return Identity.ConsumeUnavailable;
      }
      identities := identities[id := Identity.IdentityRow(challenge.owner, account, now, None, digest)];
      challenges := challenges[digest := challenge.(consumedAt := Some(now))];
      return Identity.Linked(id, challenge.owner);
    }

    method ConsumeUnlink(digest: Identity.Digest, account: Identity.AccountId, now: nat)
      returns (outcome: Identity.ConsumeOutcome)
      requires Valid()
      modifies this`identities, this`challenges
      ensures Valid()
      ensures (State(), outcome) == Identity.ConsumeUnlink(old(State()), digest, account, now)
      ensures if outcome.Unlinked? then
                account in old(Identity.Links(State())) &&
                Identity.Links(State()) == old(Identity.Links(State())) - {account}
              else Identity.Links(State()) == old(Identity.Links(State()))
    {
      Identity.ConsumeUnlinkKeeps(State(), digest, account, now);
      Identity.UnlinkRefines(State(), digest, account, now);
      hide Identity.IdentityInvariant, Identity.Links;
      if digest !in challenges || !challenges[digest].purpose.Unlink? {
        return Identity.ChallengeNotFound;
      }
      var challenge := challenges[digest];
      var id := challenge.purpose.target;
      if id !in identities || identities[id].owner != challenge.owner {
        return Identity.ChallengeNotFound;
      }
      var identity := identities[id];
      if challenge.consumedAt.Some? {
        return Identity.AlreadyConsumed;
      }
      if challenge.expiresAt <= now {
        challenges := challenges[digest := challenge.(consumedAt := Some(now))];
        return Identity.Expired;
      }
      if identity.unlinkedAt.Some? {
        if now < challenge.createdAt {
          return Identity.ConsumeUnavailable;
        }
        challenges := challenges[digest := challenge.(consumedAt := Some(now))];
        return Identity.IdentityNotFound;
      }
      if identity.account != account {
        return Identity.DoesNotMatch;
      }
      if now < challenge.createdAt || now < identity.linkedAt {
        return Identity.ConsumeUnavailable;
      }
      identities := identities[id := identity.(unlinkedAt := Some(now))];
      challenges := challenges[digest := challenge.(consumedAt := Some(now))];
      return Identity.Unlinked(id);
    }

    method Resolve(account: Identity.AccountId) returns (resolution: Identity.Resolution)
      requires Valid()
      ensures resolution == Identity.Resolve(State(), account)
      ensures resolution.Resolved? <==> account in Identity.Links(State())
      ensures resolution.Resolved? ==> resolution.actor == Identity.Links(State())[account]
    {
      Identity.ResolveReads(State(), account);
      hide Identity.IdentityInvariant, Identity.Links;
      var rows := set id | id in identities && identities[id].account == account && identities[id].unlinkedAt.None? &&
                           identities[id].owner.user in ledgers &&
                             ledgers[identities[id].owner.user] == identities[id].owner.ledger;
      assert rows == Identity.Resolvable(State(), account);
      if |rows| != 1 {
        return Identity.NotLinked;
      }
      var id :| id in rows;
      OnlyRow(rows, id);
      return Identity.Resolved(id, identities[id].owner);
    }

    lemma OnlyRow(rows: set<Identity.IdentityId>, id: Identity.IdentityId)
      requires |rows| == 1 && id in rows
      ensures rows == {id}
    {
      assert |rows - {id}| == 0;
    }

    method Provision(user: Identity.UserId, ledger: Identity.LedgerId)
      requires Valid()
      modifies this`ledgers
      ensures Valid()
      ensures State() == Identity.Provision(old(State()), user, ledger)
    {
      Identity.StepKeeps(State(), Identity.Visit(user, ledger));
      hide Identity.IdentityInvariant;
      if user !in ledgers {
        ledgers := ledgers[user := ledger];
      }
    }
  }
}
