/** The workers, sequentially: processing one event, delivering one reply, one queue job, one dispatch
    and one operator recovery. Interleavings of workers are the subject of Pipeline. */
module TelegramWorker {
  import opened Common
  import Outbox
  import OutboxDispatches
  import Intake
  import Delivery
  import DeliveryClaims
  import Identity
  import Pipeline
  import opened TelegramContent
  import opened TelegramReplies
  import opened TelegramEvents
  import opened TelegramStore

  /** Identifiers the database would generate. */
  datatype NewIds = NewIds(
    claim: Intake.ClaimId,
    identity: Identity.IdentityId,
    reply: Delivery.ReplyId,
    outbox: Outbox.OutboxId,
    attempt: Delivery.AttemptId)

  // ---------------------------------------------------------------------------------------
  // Processing
  // ---------------------------------------------------------------------------------------

  /** What a step of the processing of a claimed event leaves behind: the event counted for its user, if it
      has one, and still held, or suppressed with the outcome that says so. */
  twostate predicate Stepped(
      db: TelegramDatabase, id: Intake.EventId, claim: Intake.ClaimId, user: Option<Identity.UserId>, now: int,
      proceed: bool, outcome: EventOutcome)
    reads db
  {
    var (checked, limit) := Limited(old(db.IntakeState()), id, claim, user, now);
    && db.Valid()
    && db.IntakeState() == checked
    && proceed == (limit == Intake.Allowed)
    && (!proceed ==> outcome == if limit == Intake.UserRateLimited then RateLimited else Unavailable)
    && db.replies == old(db.replies)
    && db.messages == old(db.messages)
    && db.commands == old(db.commands)
    && (proceed ==> Intake.Holds(db.IntakeState(), id, claim))
  }

  /** Count the event in its user's window, and go on only if it is admitted. */
  method CheckLimit(db: TelegramDatabase, id: Intake.EventId, claim: Intake.ClaimId, user: Identity.UserId, now: int)
    returns (proceed: bool, outcome: EventOutcome)
    requires db.Valid()
    modifies db`events, db`windows
    ensures Stepped(db, id, claim, Some(user), now, proceed, outcome)
  {
    hide Pipeline.TablesFit;
    var limit := db.EnforceUserLimit(id, claim, user, now);
    proceed := limit == Intake.Allowed;
    outcome := if limit == Intake.UserRateLimited then RateLimited else Unavailable;
  }

  method AnswerText(
      db: TelegramDatabase, ids: IdentityDatabase, id: Intake.EventId, claim: Intake.ClaimId, text: string,
      account: Identity.AccountId, now: int) returns (proceed: bool, outcome: EventOutcome, answer: Answer)
    requires db.Valid() && ids.Valid() && Intake.Holds(db.IntakeState(), id, claim)
    modifies db`events, db`windows
    ensures Stepped(db, id, claim, UserOf(LinkedActor(ids.State(), account)), now, proceed, outcome)
    ensures forall identity, at ::
              (ids.State(), answer) == AnswerTo(ids.State(), PlainText(text), account, identity, at)
  {
    hide Pipeline.TablesFit, Identity.IdentityInvariant;
    proceed, outcome := true, Unavailable;
    var resolved := ids.Resolve(account);
    if resolved.NotLinked? {
      answer := Answered(LinkRequired, None);
    } else {
      answer := Answered(CaptureUnavailable, Some(resolved.actor));
      proceed, outcome := CheckLimit(db, id, claim, resolved.actor.user, now);
    }
  }

  /** A link whose token is already spent is a replay if the account is linked. */
  method AnswerLinkCommand(
      db: TelegramDatabase, ids: IdentityDatabase, id: Intake.EventId, claim: Intake.ClaimId, digest: Identity.Digest,
      account: Identity.AccountId, identity: Identity.IdentityId, now: nat)
    returns (proceed: bool, outcome: EventOutcome, answer: Answer)
    requires db.Valid() && ids.Valid() && Intake.Holds(db.IntakeState(), id, claim)
    modifies db`events, db`windows, ids`identities, ids`challenges
    ensures Stepped(db, id, claim, UserOf(ActorIn(answer)), now, proceed, outcome) && ids.Valid()
    ensures (ids.State(), answer) == AnswerLink(old(ids.State()), digest, account, identity, now)
  {
    hide Pipeline.TablesFit, Identity.IdentityInvariant, Identity.ConsumeLink, Identity.Links;
    proceed, outcome, answer := true, Unavailable, IdentityFailed;
    var linked := ids.ConsumeLink(digest, account, identity, now);
    if linked.Linked? {
      answer := Answered(LinkSucceeded, Some(linked.actor));
      proceed, outcome := CheckLimit(db, id, claim, linked.actor.user, now);
    } else if linked.AlreadyConsumed? {
      var replayed := ids.Resolve(account);
      if replayed.Resolved? {
        answer := Answered(LinkSucceeded, Some(replayed.actor));
        proceed, outcome := CheckLimit(db, id, claim, replayed.actor.user, now);
      } else {
        answer := Answered(ChallengeRejected(ForLink, AlreadyUsed), None);
      }
    } else if !linked.ConsumeUnavailable? {
      answer := Answered(ChallengeRejected(ForLink, ReasonFor(linked)), None);
    }
  }

  /** The window of the owner to be unlinked is checked before the challenge is consumed. */
  method AnswerUnlinkCommand(
      db: TelegramDatabase, ids: IdentityDatabase, id: Intake.EventId, claim: Intake.ClaimId, digest: Identity.Digest,
      account: Identity.AccountId, now: nat) returns (proceed: bool, outcome: EventOutcome, answer: Answer)
    requires db.Valid() && ids.Valid() && Intake.Holds(db.IntakeState(), id, claim)
    modifies db`events, db`windows, ids`identities, ids`challenges
    ensures Stepped(db, id, claim, UserOf(LinkedActor(old(ids.State()), account)), now, proceed, outcome) && ids.Valid()
    ensures proceed ==> (ids.State(), answer) == AnswerUnlink(old(ids.State()), digest, account, now)
    ensures !proceed ==> ids.State() == old(ids.State())
  {
    hide Pipeline.TablesFit, Identity.IdentityInvariant, Identity.ConsumeUnlink, Identity.Links;
    proceed, outcome, answer := true, Unavailable, IdentityFailed;
    var prior := ids.Resolve(account);
    if prior.Resolved? {
      proceed, outcome := CheckLimit(db, id, claim, prior.actor.user, now);
      if !proceed {
        return;
      }
    }
    var unlinked := ids.ConsumeUnlink(digest, account, now);
    if unlinked.Unlinked? {
      answer := Answered(UnlinkSucceeded, if prior.Resolved? then Some(prior.actor) else None);
    } else if unlinked.AlreadyConsumed? && prior.NotLinked? {
      answer := Answered(UnlinkSucceeded, None);
    } else if !unlinked.ConsumeUnavailable? {
      answer := Answered(ChallengeRejected(ForUnlink, ReasonFor(unlinked)), None);
    }
  }

  /** Dispatch a claimed event on its stored content. */
  method AnswerEvent(
      db: TelegramDatabase, ids: IdentityDatabase, id: Intake.EventId, claim: Intake.ClaimId, content: Content,
      account: Identity.AccountId, identity: Identity.IdentityId, now: nat)
    returns (proceed: bool, outcome: EventOutcome, answer: Answer)
    requires db.Valid() && ids.Valid() && Intake.Holds(db.IntakeState(), id, claim)
    modifies db`events, db`windows, ids`identities, ids`challenges
    ensures Stepped(
              db, id, claim, Subject(old(ids.State()), content, account, identity, now), now, proceed, outcome)
    ensures ids.Valid()
    ensures proceed ==> (ids.State(), answer) == AnswerTo(old(ids.State()), content, account, identity, now)
    ensures !proceed ==>
              ids.State() ==
              if content.LinkCommand? then AnswerTo(old(ids.State()), content, account, identity, now).0
              else old(ids.State())
  {
    hide Pipeline.TablesFit, Identity.IdentityInvariant;
    match content {
      case InvalidCommand(purpose) =>
        return true, Unavailable, Answered(ChallengeRejected(purpose, MalformedCommand), None);
      case PlainText(text) =>
        proceed, outcome, answer := AnswerText(db, ids, id, claim, text, account, now);
        assert (ids.State(), answer) == AnswerTo(ids.State(), PlainText(text), account, identity, now);
      case LinkCommand(digest) =>
        proceed, outcome, answer := AnswerLinkCommand(db, ids, id, claim, digest, account, identity, now);
      case UnlinkCommand(digest) =>
        proceed, outcome, answer := AnswerUnlinkCommand(db, ids, id, claim, digest, account, now);
    }
  }

  /** Store the answer as the event's one reply, or release the event if there is no answer. */
  method CompleteOrRelease(
      db: TelegramDatabase, id: Intake.EventId, generated: NewIds, content: Content, answer: Answer, now: int)
    returns (outcome: EventOutcome)
    requires db.Valid() && Intake.Holds(db.IntakeState(), id, generated.claim)
    modifies db`events, db`commands, db`replies, db`messages
    ensures db.Valid()
    ensures outcome ==
            if answer.Answered? && generated.reply !in old(db.replies) && generated.outbox !in old(db.messages) then
              Processed(generated.reply)
            else Unavailable
    ensures db.IntakeState() ==
            if answer.IdentityFailed? then Intake.Release(old(db.IntakeState()), id, generated.claim)
            else if outcome.Unavailable? then old(db.IntakeState())
            else
              Intake.Complete(old(db.IntakeState()), id, generated.claim, CompletionFor(content, answer), now).0
    ensures outcome.Processed? ==>
              && answer.Answered?
              && Stored(db, id, generated, CompletionFor(content, answer), now)
    ensures outcome.Unavailable? ==>
              db.replies == old(db.replies) && db.messages == old(db.messages) && db.commands == old(db.commands)
  {
    hide Pipeline.TablesFit;
    if answer.IdentityFailed? {
      db.ReleaseEvent(id, generated.claim);
      return Unavailable;
    }
    var completed :=
      db.CompleteEvent(id, generated.claim, CompletionFor(content, answer), generated.reply, generated.outbox, now);
    return if completed then Processed(generated.reply) else Unavailable;
  }

  /** The rows that hold a completion: the processed event, its one new reply with a queue message, and its
      text if it had one. */
  twostate predicate Stored(
      db: TelegramDatabase, id: Intake.EventId, generated: NewIds, completion: Completion, now: int)
    reads db
  {
    && generated.reply !in old(db.replies) && generated.outbox !in old(db.messages)
    && db.replies == old(db.replies)[generated.reply := Delivery.NewReply(id, completion)]
    && db.messages ==
       old(db.messages)[generated.outbox := Outbox.NewMessage(Outbox.ReplyRequested(generated.reply), now)]
    && id in db.events && db.events[id].status == Intake.Processed && db.events[id].owner == ActorOf(completion)
    && db.commands ==
       if completion.LinkedTextAccepted? then old(db.commands)[id := Intake.Command(completion.actor, completion.text)]
       else old(db.commands)
  }

  /** Answer a claimed event and store the answer. */
  method ProcessClaimed(db: TelegramDatabase, ids: IdentityDatabase, id: Intake.EventId, generated: NewIds, now: nat)
    returns (outcome: EventOutcome, answer: Answer)
    requires db.Valid() && ids.Valid() && Intake.Holds(db.IntakeState(), id, generated.claim)
    modifies db`events, db`windows, db`commands, db`replies, db`messages, ids`identities, ids`challenges
    ensures db.Valid() && ids.Valid()
    ensures Handling(db.IntakeState(), ids.State(), outcome) ==
            HandleClaimed(
              old(db.IntakeState()), old(ids.State()), id, generated.claim, generated.identity, generated.reply,
              generated.reply !in old(db.replies) && generated.outbox !in old(db.messages), now)
    ensures outcome.Processed? || outcome.RateLimited? || outcome.Unavailable?
    ensures outcome.Processed? ==> AnsweredOnce(db, ids, id, generated, now, outcome, answer)
    ensures !outcome.Processed? ==>
              db.replies == old(db.replies) && db.messages == old(db.messages) && db.commands == old(db.commands)
    ensures forall outbox :: outbox in old(db.messages) ==>
              outbox in db.messages && db.messages[outbox] == old(db.messages)[outbox]
  {
    hide Pipeline.TablesFit, Identity.IdentityInvariant, AnswerTo, Subject, Intake.EnforceUserLimit;
    var content, account := db.events[id].content, db.events[id].account;
    var proceed;
    proceed, outcome, answer := AnswerEvent(db, ids, id, generated.claim, content, account, generated.identity, now);
    if proceed {
      outcome := CompleteOrRelease(db, id, generated, content, answer, now);
    }
  }

  ghost predicate IsEventJob(db: TelegramDatabase, outbox: Outbox.OutboxId)
    reads db
  {
    outbox in db.messages && db.messages[outbox].target.EventReceived?
  }

  /** A processed event is answered, from the identity tables as they were, with one new reply. */
  twostate predicate AnsweredOnce(
      db: TelegramDatabase, ids: IdentityDatabase, id: Intake.EventId, generated: NewIds, now: nat,
      outcome: EventOutcome, answer: Answer)
    reads db, ids
  {
    && id in old(db.events) && outcome.Processed? && answer.Answered?
    && var content, account := old(db.events)[id].content, old(db.events)[id].account;
    && (ids.State(), answer) == AnswerTo(old(ids.State()), content, account, generated.identity, now)
    && outcome.reply == generated.reply && Stored(db, id, generated, CompletionFor(content, answer), now)
  }

  /** The intake and identity tables, and the outcome, are those of the job, which comes to an end exactly if
      its event does; only a processed event adds rows. */
  twostate predicate Handled(
      db: TelegramDatabase, ids: IdentityDatabase, id: Intake.EventId, generated: NewIds, workerNow: int, now: nat,
      outcome: EventOutcome, answer: Answer)
    reads db, ids
  {
    && id in old(db.events) && id in db.events
    && Handling(db.IntakeState(), ids.State(), outcome) ==
       Handle(
         old(db.IntakeState()), old(ids.State()), id, generated.claim, generated.identity, generated.reply,
         generated.reply !in old(db.replies) && generated.outbox !in old(db.messages), workerNow, now)
    && (Ended(outcome) <==> Intake.Terminal(db.events[id]))
    && if outcome.Processed? then AnsweredOnce(db, ids, id, generated, now, outcome, answer)
       else db.replies == old(db.replies) && db.messages == old(db.messages) && db.commands == old(db.commands)
  }

  /** Process one event: claim it, answer it through the identity store, complete it with one reply. */
  method ProcessTelegramEvent(
      db: TelegramDatabase, ids: IdentityDatabase, outbox: Outbox.OutboxId, generated: NewIds, workerNow: int,
      now: nat)
    returns (outcome: EventOutcome, answer: Answer)
    requires db.Valid() && ids.Valid()
    modifies db`events, db`windows, db`commands, db`replies, db`messages, ids`identities, ids`challenges
    ensures db.Valid() && ids.Valid()
    ensures outcome.NotAnEvent? <==> !old(IsEventJob(db, outbox))
    ensures old(IsEventJob(db, outbox)) ==>
              Handled(db, ids, old(db.messages[outbox].target.event), generated, workerNow, now, outcome, answer)
    ensures old(outbox in db.messages) ==> outbox in db.messages && db.messages[outbox] == old(db.messages)[outbox]
    ensures outcome.NotAnEvent? || outcome.AlreadyProcessed? || outcome.Postponed? ==>
              db.Tables() == old(db.Tables()) && ids.State() == old(ids.State())
  {
    hide Pipeline.TablesFit, Identity.IdentityInvariant, HandleClaimed, AnswerTo, CompletionFor;
    JobEnds(db, ids, outbox, generated, workerNow, now);
    answer := IdentityFailed;
    var claimed, id := db.ClaimEvent(outbox, generated.claim, workerNow, now);
    if claimed.NotFound? {
      return NotAnEvent, answer;
    }
    if claimed.Duplicate? {
      return AlreadyProcessed, answer;
    }
    if claimed.RateLimited? {
      return RateLimited, answer;
    }
    if claimed.Deferred? {
      return Postponed(claimed.retryAfterSeconds), answer;
    }
    hide Intake.Claim;
    ClaimedEvent(old(db.IntakeState()), db.IntakeState(), id, generated.claim, workerNow, now);
    outcome, answer := ProcessClaimed(db, ids, id, generated, now);
  }

  /** The job of the event that a queue message names comes to an end exactly if the event does. */
  lemma JobEnds(
      db: TelegramDatabase, ids: IdentityDatabase, outbox: Outbox.OutboxId, generated: NewIds, workerNow: int,
      now: nat)
    requires db.Valid()
    ensures IsEventJob(db, outbox) ==>
              var id := db.messages[outbox].target.event;
              id in db.events &&
              var h := Handle(
                db.IntakeState(), ids.State(), id, generated.claim, generated.identity, generated.reply,
                generated.reply !in db.replies && generated.outbox !in db.messages, workerNow, now);
              && id in h.intake.events && !h.outcome.NotAnEvent?
              && (Ended(h.outcome) <==> Intake.Terminal(h.intake.events[id]))
  {
    Pipeline.FittingTables(db.Tables());
    hide Pipeline.TablesFit, Handle, Intake.IntakeInvariant, Outbox.OutboxInvariant, Delivery.DeliveryInvariant;
    if IsEventJob(db, outbox) {
      EndsIff(
        db.IntakeState(), ids.State(), db.messages[outbox].target.event, generated.claim, generated.identity,
        generated.reply, generated.reply !in db.replies && generated.outbox !in db.messages, workerNow, now);
    }
  }

  /** A claimed event is held, and is the one that was stored. */
  lemma ClaimedEvent(
      before: Intake.State, after: Intake.State, id: Intake.EventId, claim: Intake.ClaimId, workerNow: int, now: int)
    requires (after, Intake.Claimed(claim)) == Intake.Claim(before, id, claim, workerNow, now)
    ensures Intake.Holds(after, id, claim) && id in before.events
    ensures after.events[id].content == before.events[id].content &&
            after.events[id].account == before.events[id].account
  {
  }

  // ---------------------------------------------------------------------------------------
  // Delivery
  // ---------------------------------------------------------------------------------------

  datatype DeliveryOutcome =
    | ProviderAccepted
    | Terminal
    | OutcomeUnknown
    | NotAReply
    | PostponedReply(retryAfterSeconds: int)
    | DeliveryUnavailable

  predicate Finished(outcome: DeliveryOutcome) {
    !outcome.PostponedReply? && !outcome.DeliveryUnavailable?
  }

  /** What a delivery job comes to: after a call, what the provider said; a transient failure is tried again
      in half a minute. */
  function OutcomeOf(claim: Delivery.ClaimOutcome, provider: Delivery.Outcome): DeliveryOutcome {
    match claim
    case NotFound => NotAReply
    case AlreadyTerminal => Terminal
    case Deferred(seconds) => PostponedReply(seconds)
    case Unavailable => DeliveryUnavailable
    case Claimed(_) =>
      match provider
      case Accepted(_) => ProviderAccepted
      case Transient(_) => PostponedReply(30)
      case Rejected(_) => Terminal
      case Unknown(_) => OutcomeUnknown
  }

  ghost predicate IsReplyJob(db: TelegramDatabase, outbox: Outbox.OutboxId)
    reads db
  {
    outbox in db.messages && db.messages[outbox].target.ReplyRequested?
  }

  /** The delivery tables are those of a claim and, if it was granted, of the report on what the provider
      said. */
  twostate predicate Delivered(
      db: TelegramDatabase, reply: Delivery.ReplyId, attempt: Delivery.AttemptId, provider: Delivery.Outcome,
      workerNow: int, now: int, later: int)
    reads db
  {
    var (claimed, claim) := Delivery.Claim(old(db.DeliveryState()), reply, attempt, workerNow, now);
    if claim.Claimed? then
      (db.DeliveryState(), true) == Delivery.CompleteAttempt(claimed, reply, attempt, provider, later)
    else db.DeliveryState() == claimed
  }

  /** Deliver one reply: claim an attempt, call the provider once, record what it said. */
  method DeliverTelegramReply(
      db: TelegramDatabase, outbox: Outbox.OutboxId, attempt: Delivery.AttemptId, available: bool,
      provider: Delivery.Outcome, workerNow: int, now: int, later: int) returns (outcome: DeliveryOutcome, calls: nat)
    requires db.Valid()
    modifies db`replies, db`attempts
    ensures db.Valid()
    ensures !available ==> db.DeliveryState() == old(db.DeliveryState()) && calls == 0 && outcome == PostponedReply(60)
    ensures available && IsReplyJob(db, outbox) ==>
              var reply := db.messages[outbox].target.reply;
              var claim := Delivery.Claim(old(db.DeliveryState()), reply, attempt, workerNow, now).1;
              && calls == (if claim.Claimed? then 1 else 0)
              && Delivered(db, reply, attempt, provider, workerNow, now, later)
              && outcome == OutcomeOf(claim, provider)
              && reply in db.replies && (Finished(outcome) <==> Delivery.Terminal(db.replies[reply]))
    ensures !IsReplyJob(db, outbox) ==>
              db.DeliveryState() == old(db.DeliveryState()) && calls == 0 && (available ==> outcome == NotAReply)
  {
    hide Delivery.Conclude, Pipeline.TablesFit;
    if !available {
      return PostponedReply(60), 0;
    }
    var claim, id := db.ClaimReply(outbox, attempt, workerNow, now);
    match claim {
      case NotFound => return NotAReply, 0;
      case AlreadyTerminal => return Terminal, 0;
      case Deferred(seconds) => return PostponedReply(seconds), 0;
      case Unavailable => return DeliveryUnavailable, 0;
      case Claimed(_) =>
        var _ := db.CompleteAttempt(id, attempt, provider, later);
        return OutcomeOf(claim, provider), 1;
    }
  }

  /** What a delivery job tells is how the reply stands. After a call: accepted, failed, unknown, or to be
      tried again in half a minute. Without one: over, or in somebody's hands for as many seconds, or waiting
      for an attempt id that is not taken. */
  lemma DeliveryIsTold(
      d: Delivery.State, reply: Delivery.ReplyId, attempt: Delivery.AttemptId, provider: Delivery.Outcome,
      workerNow: int, now: int, later: int)
    requires Delivery.DeliveryInvariant(d) && reply in d.replies
    ensures var (claimed, claim) := Delivery.Claim(d, reply, attempt, workerNow, now);
            var told := OutcomeOf(claim, provider);
            if claim.Claimed? then
              var after := Delivery.CompleteAttempt(claimed, reply, attempt, provider, later).0;
              && reply in after.replies
              && told == match after.replies[reply].status
                         case ProviderAccepted => ProviderAccepted
                         case TerminalFailure => Terminal
                         case OutcomeUnknown => OutcomeUnknown
                         case _ => PostponedReply(30)
            else
              reply in claimed.replies &&
              match claimed.replies[reply].status
              case Pending => told == DeliveryUnavailable && attempt in d.attempts
              case Delivering =>
                && told.PostponedReply? && claimed.replies[reply].claimedUntil.Some?
                && DeliveryClaims.WaitsFor(
                     told.retryAfterSeconds, workerNow, claimed.replies[reply].claimedUntil.value)
              case _ => told == Terminal
  {
    hide Delivery.DeliveryInvariant;
    DeliveryClaims.ClaimDecides(d, reply, attempt, workerNow, now);
  }

  /** The work that a queue message stands for is over. */
  ghost predicate JobDone(db: TelegramDatabase, outbox: Outbox.OutboxId)
    requires outbox in db.messages
    reads db
  {
    match db.messages[outbox].target
    case EventReceived(event) => event in db.events && Intake.Terminal(db.events[event])
    case ReplyRequested(reply) => reply in db.replies && Delivery.Terminal(db.replies[reply])
  }

  /** One queue job: an event is processed, anything else is delivered. It is acknowledged if and only if its
      work is over afterwards, and for a reply if the provider could be called at all; only then its
      consumption is recorded. A job that names no message changes nothing. */
  method ProcessOutboxJob(
      db: TelegramDatabase, ids: IdentityDatabase, outbox: Outbox.OutboxId, generated: NewIds, available: bool,
      provider: Delivery.Outcome, workerNow: int, now: nat)
    returns (acknowledged: bool, ghost event: EventOutcome, ghost answer: Answer)
    requires db.Valid() && ids.Valid()
    modifies db, ids
    ensures db.Valid() && ids.Valid()
    ensures old(outbox in db.messages) ==>
              && outbox in db.messages && db.messages[outbox].target == old(db.messages)[outbox].target
              && (acknowledged <==> JobDone(db, outbox) && (db.messages[outbox].target.ReplyRequested? ==> available))
    ensures old(IsEventJob(db, outbox)) ==>
              Handled(db, ids, old(db.messages[outbox].target.event), generated, workerNow, now, event, answer)
    ensures old(IsReplyJob(db, outbox)) ==>
              && db.IntakeState() == old(db.IntakeState()) && ids.State() == old(ids.State())
              && if available then
                   Delivered(
                     db, old(db.messages[outbox].target.reply), generated.attempt, provider, workerNow, now, now)
                 else db.DeliveryState() == old(db.DeliveryState())
    ensures old(outbox !in db.messages) ==>
              db.Tables() == old(db.Tables()) && ids.State() == old(ids.State()) && acknowledged == available
    ensures db.receipts ==
            if !acknowledged || outbox !in db.messages then old(db.receipts)
            else if outbox in old(db.receipts) then
              old(db.receipts)[outbox := Outbox.Receipt(
                old(db.receipts)[outbox].consumedAt, old(db.receipts)[outbox].deliveries + 1)]
            else old(db.receipts)[outbox := Outbox.Receipt(now, 1)]
  {
    hide Pipeline.TablesFit, Identity.IdentityInvariant, Delivery.Claim, Delivery.CompleteAttempt, Handle;
    var outcome, said := ProcessTelegramEvent(db, ids, outbox, generated, workerNow, now);
    acknowledged, event, answer := false, outcome, said;
    if outcome.Postponed? || outcome.Unavailable? {
      return;
    }
    if outcome.NotAnEvent? {
      var delivery, _ := DeliverTelegramReply(db, outbox, generated.attempt, available, provider, workerNow, now, now);
      if !Finished(delivery) {
        return;
      }
    }
    var _ := db.RecordConsumption(outbox, now);
    acknowledged := true;
  }

  datatype RecoveryOutcome =
    | Recovered(alreadyPublished: bool)
    | Refused(refusal: Delivery.Refusal)
    | RecoveryUnpublished

  /** An operator's recovery: reopen the reply, publish its job again, note that it was published. A
      failed publication leaves the preparation for the next try with the same id. */
  method RecoverTelegramDelivery(
      db: TelegramDatabase, recovery: Delivery.RecoveryId, reply: Delivery.ReplyId, errorCode: string,
      reason: Delivery.Reason, published: bool, now: int) returns (outcome: RecoveryOutcome, jobs: nat)
    requires db.Valid()
    modifies db`replies, db`recoveries
    ensures db.Valid()
    ensures var outbox := Outbox.MessageFor(db.messages, Outbox.ReplyRequested(reply));
            var (prepared, answer) :=
              Delivery.Prepare(old(db.DeliveryState()), recovery, reply, errorCode, reason, outbox);
            && (answer.NotRecoverable? ==>
                  outcome == Refused(answer.refusal) && jobs == 0 && db.DeliveryState() == prepared)
            && (answer.Prepared? && answer.published ==>
                  outcome == Recovered(true) && jobs == 0 && db.DeliveryState() == prepared)
            && (answer.Prepared? && !answer.published && !published ==>
                  outcome == RecoveryUnpublished && jobs == 0 && db.DeliveryState() == prepared)
            && (answer.Prepared? && !answer.published && published ==>
                  outcome == Recovered(false) && jobs == 1 &&
                  (db.DeliveryState(), Delivery.MarkedPublished) == Delivery.MarkPublished(prepared, recovery, now))
  {
    hide Pipeline.TablesFit;
    var answer := db.PrepareRecovery(recovery, reply, errorCode, reason);
    if answer.NotRecoverable? {
      return Refused(answer.refusal), 0;
    }
    if answer.published {
      return Recovered(true), 0;
    }
    if !published {
      return RecoveryUnpublished, 0;
    }
    var _ := db.MarkRecoveryPublished(recovery, now);
    return Recovered(false), 1;
  }

  // ---------------------------------------------------------------------------------------
  // Dispatch
  // ---------------------------------------------------------------------------------------

  datatype Summary = Summary(claimed: nat, published: nat, deferred: nat, failed: nat)

  /** A dispatch reports its summary, or fails as a whole because one claim was lost. */
  datatype DispatchOutcome = Dispatched(summary: Summary) | Conflicted(id: Outbox.OutboxId)

  /** What the queue answered for a message, if anything: no answer is a refusal. */
  function ResultOf(results: map<Outbox.OutboxId, Outbox.PublishResult>, id: Outbox.OutboxId): Outbox.PublishResult {
    if id in results then results[id] else Outbox.SendRefused
  }

  /** A claimed message as the dispatcher knows it: its claim, its attempt and the queue's answer. */
  datatype Publication = Publication(claim: Outbox.ClaimId, attempt: nat, result: Outbox.PublishResult)

  predicate Held(m: Outbox.Message, claim: Outbox.ClaimId) {
    m.status == Outbox.Pending && m.claim == Some(claim)
  }

  /** The claim was lost, and the message is not published either. */
  predicate Lost(m: Outbox.Message, claim: Outbox.ClaimId) {
    !Held(m, claim) && m.status != Outbox.Published
  }

  /** The row after the dispatcher reports on it: only the current claim changes it. */
  function Reported(m: Outbox.Message, p: Publication, now: int): Outbox.Message {
    if Held(m, p.claim) then Outbox.Concluded(m, p.attempt, p.result, now) else m
  }

  /** Record the queue's answer for one claimed message. */
  method ConcludePublication(db: TelegramDatabase, id: Outbox.OutboxId, p: Publication, now: int) returns (ok: bool)
    requires db.Valid() && id in db.messages
    modifies db`messages
    ensures db.Valid()
    ensures db.messages == old(db.messages)[id := Reported(old(db.messages)[id], p, now)]
    ensures ok <==> !Lost(old(db.messages)[id], p.claim)
  {
    hide Pipeline.TablesFit;
    var transition;
    if p.result == Outbox.Sent {
      transition := db.MarkPublished(id, p.claim, now);
    } else {
      var unknown := p.result == Outbox.SendUnknown;
      transition := db.RecordPublicationFailure(
        id, p.claim, if unknown then Outbox.QueueOutcomeUnknown else Outbox.QueueUnavailable,
        if unknown then Outbox.RECEIPT_TIMEOUT_SECONDS else Outbox.RetryDelaySeconds(p.attempt),
        p.attempt >= Outbox.MAXIMUM_ATTEMPTS, now);
    }
    ok := transition == Outbox.Done;
  }

  /** The rows after the reports on some publications. */
  ghost predicate AllReported(
      before: map<Outbox.OutboxId, Outbox.Message>, after: map<Outbox.OutboxId, Outbox.Message>,
      concluded: set<Outbox.OutboxId>, publications: map<Outbox.OutboxId, Publication>, now: int)
  {
    && after.Keys == before.Keys
    && forall id :: id in before ==>
         after[id] ==
         if id in concluded && id in publications then Reported(before[id], publications[id], now) else before[id]
  }

  function PublishedOf(publications: map<Outbox.OutboxId, Publication>): set<Outbox.OutboxId> {
    set id | id in publications && publications[id].result == Outbox.Sent
  }

  function FailedOf(publications: map<Outbox.OutboxId, Publication>): set<Outbox.OutboxId> {
    set id | id in publications && publications[id].result != Outbox.Sent &&
             publications[id].attempt >= Outbox.MAXIMUM_ATTEMPTS
  }

  function DeferredOf(publications: map<Outbox.OutboxId, Publication>): set<Outbox.OutboxId> {
    set id | id in publications && publications[id].result != Outbox.Sent &&
             publications[id].attempt < Outbox.MAXIMUM_ATTEMPTS
  }

  /** Report on every publication, in any order, until all are recorded or one meets a conflict. */
  method PublishClaimed(db: TelegramDatabase, publications: map<Outbox.OutboxId, Publication>, now: int)
    returns (conflict: Option<Outbox.OutboxId>, ghost concluded: set<Outbox.OutboxId>)
    requires db.Valid() && publications.Keys <= db.messages.Keys
    modifies db`messages
    ensures db.Valid()
    ensures concluded <= publications.Keys
    ensures AllReported(old(db.messages), db.messages, concluded, publications, now)
    ensures conflict.None? ==> concluded == publications.Keys
    ensures conflict.None? <==>
              forall id :: id in publications ==> !Lost(old(db.messages)[id], publications[id].claim)
    ensures conflict.Some? ==>
              conflict.value in publications &&
              Lost(old(db.messages)[conflict.value], publications[conflict.value].claim)
  {
    hide Pipeline.TablesFit, Outbox.Concluded;
    var rest := publications.Keys;
    concluded := {};
    while rest != {}
      invariant db.Valid()
      invariant rest <= publications.Keys && concluded == publications.Keys - rest
      invariant AllReported(old(db.messages), db.messages, concluded, publications, now)
      invariant forall id :: id in concluded ==> !Lost(old(db.messages)[id], publications[id].claim)
      decreases rest
    {
      var id :| id in rest;
      var ok := ConcludePublication(db, id, publications[id], now);
      if !ok {
        return Some(id), concluded;
      }
      rest := rest - {id};
      concluded := concluded + {id};
    }
    return None, concluded;
  }

  /** What others do to the messages: dispatchers, consumers and operators change them, and a received
      update or a completed event adds one. */
  datatype Act =
    | Queue(step: Outbox.Step)
    | Receive(
        event: Intake.EventId, outbox: Outbox.OutboxId, update: Intake.UpdateId, account: Intake.AccountId,
        content: Content, now: int)
    | Complete(
        event: Intake.EventId, claim: Intake.ClaimId, completion: Completion, reply: Delivery.ReplyId,
        outbox: Outbox.OutboxId, now: int)

  function Acted(s: Pipeline.State, act: Act): Pipeline.State {
    match act
    case Queue(step) => if step.Insert? then s else s.(outbox := Outbox.Apply(s.outbox, step))
    case Receive(event, outbox, update, account, content, now) =>
      Pipeline.WebhookStep(s, event, outbox, update, account, content, now)
    case Complete(event, claim, completion, reply, outbox, now) =>
      if Intake.Holds(s.intake, event, claim) && reply !in s.delivery.replies && outbox !in s.outbox.messages then
        s.(intake := Intake.Complete(s.intake, event, claim, completion, now).0,
           delivery := Delivery.Insert(s.delivery, reply, event, completion),
           outbox := Outbox.InsertMessage(s.outbox, outbox, Outbox.ReplyRequested(reply), now))
      else s
  }

  function AllActed(s: Pipeline.State, acts: seq<Act>): Pipeline.State
    decreases |acts|
  {
    if acts == [] then s else AllActed(Acted(s, acts[0]), acts[1..])
  }

  method OthersAct(db: TelegramDatabase, acts: seq<Act>)
    requires db.Valid()
    modifies db`events, db`commands, db`replies, db`messages, db`receipts
    ensures db.Valid() && old(db.messages.Keys) <= db.messages.Keys
    ensures db.Tables() == AllActed(old(db.Tables()), acts)
  {
    hide Pipeline.TablesFit, Acted;
    for i := 0 to |acts|
      invariant db.Valid() && old(db.messages.Keys) <= db.messages.Keys
      invariant AllActed(db.Tables(), acts[i..]) == AllActed(old(db.Tables()), acts)
    {
      assert acts[i..][1..] == acts[i + 1..] && acts[i..][0] == acts[i];
      OtherActs(db, acts[i]);
    }
  }

  method OtherActs(db: TelegramDatabase, act: Act)
    requires db.Valid()
    modifies db`events, db`commands, db`replies, db`messages, db`receipts
    ensures db.Valid() && old(db.messages.Keys) <= db.messages.Keys
    ensures db.Tables() == Acted(old(db.Tables()), act)
  {
    hide Pipeline.TablesFit, Outbox.ClaimPending, Outbox.MarkPublished, Outbox.RecordFailure, Outbox.RecordConsumption,
         Outbox.RecoverFailed, Intake.Complete, Intake.Persist;
    match act {
      case Queue(step) => StepOf(db, step);
      case Receive(event, outbox, update, account, content, now) =>
        var _ := db.PersistEvent(event, outbox, update, account, content, now);
      case Complete(event, claim, completion, reply, outbox, now) =>
        var _ := db.CompleteEvent(event, claim, completion, reply, outbox, now);
    }
  }

  method StepOf(db: TelegramDatabase, step: Outbox.Step)
    requires db.Valid()
    modifies db`messages, db`receipts
    ensures db.Valid() && db.messages.Keys == old(db.messages.Keys)
    ensures db.OutboxState() ==
            if step.Insert? then old(db.OutboxState()) else Outbox.Apply(old(db.OutboxState()), step)
  {
    hide Pipeline.TablesFit, Outbox.ClaimPending, Outbox.MarkPublished, Outbox.RecordFailure, Outbox.RecordConsumption,
         Outbox.RecoverFailed;
    if step.Insert? {
      return;
    }
    Pipeline.OutboxFrame(db.OutboxState(), step);
    match step {
      case Insert(_, _, _) => assert false;
      case Dispatch(picked, now) => var _ := db.ClaimPending(picked, now);
      case Publish(id, claim, now) => var _ := db.MarkPublished(id, claim, now);
      case Fail(id, claim, error, delay, terminal, now) =>
        var _ := db.RecordPublicationFailure(id, claim, error, delay, terminal, now);
      case Consume(id, now) => var _ := db.RecordConsumption(id, now);
      case Recover(id, now) => var _ := db.RecoverFailedPublication(id, now);
    }
  }

  /** What a dispatch claims and what the queue answers. */
  function PublicationsOf(
      before: Outbox.State, picked: map<Outbox.OutboxId, Outbox.ClaimId>,
      results: map<Outbox.OutboxId, Outbox.PublishResult>, now: int)
    : map<Outbox.OutboxId, Publication>
  {
    map id | id in picked && Outbox.Takes(before, picked, now, id) ::
      Publication(picked[id], Outbox.AttemptsOf(Outbox.ClaimPending(before, picked, now), id), ResultOf(results, id))
  }

  /** The rows when the dispatcher comes to report on what it claimed. */
  function RowsReached(
      before: Pipeline.State, picked: map<Outbox.OutboxId, Outbox.ClaimId>, meanwhile: seq<Act>, now: int)
    : map<Outbox.OutboxId, Outbox.Message>
  {
    AllActed(before.(outbox := Outbox.ClaimPending(before.outbox, picked, now)), meanwhile).outbox.messages
  }

  ghost predicate ConflictIn(
      messages: map<Outbox.OutboxId, Outbox.Message>, publications: map<Outbox.OutboxId, Publication>)
  {
    exists id :: id in publications && id in messages && Lost(messages[id], publications[id].claim)
  }

  /** Claim a batch, publish it, and report on it after whatever others did meanwhile. The dispatch fails
      if and only if one of its claims was lost; otherwise its summary counts its publications by what
      the queue answered and by their attempts. */
  method DispatchPendingOutbox(
      db: TelegramDatabase, picked: map<Outbox.OutboxId, Outbox.ClaimId>, meanwhile: seq<Act>,
      results: map<Outbox.OutboxId, Outbox.PublishResult>, now: int, later: int)
    returns (outcome: DispatchOutcome, publications: map<Outbox.OutboxId, Publication>,
             ghost concluded: set<Outbox.OutboxId>)
    requires db.Valid()
    modifies db`events, db`commands, db`replies, db`messages, db`receipts
    ensures db.Valid()
    ensures publications == PublicationsOf(old(db.OutboxState()), picked, results, now)
    ensures var reached := RowsReached(old(db.Tables()), picked, meanwhile, now);
            && concluded <= publications.Keys
            && AllReported(reached, db.messages, concluded, publications, later)
            && (outcome.Conflicted? <==> ConflictIn(reached, publications))
            && (outcome.Dispatched? ==> concluded == publications.Keys)
    ensures outcome.Dispatched? ==>
              && outcome.summary.claimed == |publications|
              && outcome.summary.published == |PublishedOf(publications)|
              && outcome.summary.deferred == |DeferredOf(publications)|
              && outcome.summary.failed == |FailedOf(publications)|
              && outcome.summary.claimed ==
                 outcome.summary.published + outcome.summary.deferred + outcome.summary.failed
  {
    hide Pipeline.TablesFit, Outbox.ClaimPending, AllActed, AllReported, Lost, ResultOf;
    hide PublishedOf, FailedOf, DeferredOf;
    var claimed := db.ClaimPending(picked, now);
    TakenIsPicked(old(db.OutboxState()), picked, now);
    hide Outbox.Takes;
    publications := map id | id in claimed && id in picked && id in db.messages ::
      Publication(picked[id], db.messages[id].attempts, ResultOf(results, id));
    assert publications.Keys == claimed;
    assert publications == PublicationsOf(old(db.OutboxState()), picked, results, now);
    hide PublicationsOf;
    OthersAct(db, meanwhile);
    var conflict;
    conflict, concluded := PublishClaimed(db, publications, later);
    ThreeKinds(publications);
    outcome := if conflict.Some? then Conflicted(conflict.value) else
      Dispatched(Summary(|publications|, |PublishedOf(publications)|,
                         |publications| - |PublishedOf(publications)| - |FailedOf(publications)|,
                         |FailedOf(publications)|));
  }

  /** A dispatch publishes exactly the messages it claims, each as the attempt after those it had, with the
      queue's answer, or as refused if there is none. */
  lemma PublicationsDecide(
      before: Outbox.State, picked: map<Outbox.OutboxId, Outbox.ClaimId>,
      results: map<Outbox.OutboxId, Outbox.PublishResult>, now: int, id: Outbox.OutboxId)
    requires Outbox.OutboxInvariant(before)
    ensures var publications := PublicationsOf(before, picked, results, now);
            && (id in publications <==>
                  && id in picked && id in before.messages && id !in before.receipts
                  && OutboxDispatches.Waits(before.messages[id], now) && before.messages[id].attempts < 5)
            && (id in publications ==>
                  publications[id] ==
                  Publication(
                    picked[id], before.messages[id].attempts + 1,
                    if id in results then results[id] else Outbox.SendRefused))
  {
    hide Outbox.OutboxInvariant, Outbox.Takes, Outbox.ClaimPending;
    OutboxDispatches.TakesIff(before, picked, now, id);
    if Outbox.Takes(before, picked, now, id) {
      OutboxDispatches.TakenIsHeld(before, picked, now, id);
    }
  }

  /** If nobody else acts, no claim is lost, and every publication is reported by its holder. */
  lemma UndisturbedDispatch(
      before: Pipeline.State, picked: map<Outbox.OutboxId, Outbox.ClaimId>,
      results: map<Outbox.OutboxId, Outbox.PublishResult>, now: int)
    requires Outbox.OutboxInvariant(before.outbox)
    ensures var reached := RowsReached(before, picked, [], now);
            var publications := PublicationsOf(before.outbox, picked, results, now);
            && !ConflictIn(reached, publications)
            && forall id :: id in publications ==> id in reached && Held(reached[id], publications[id].claim)
  {
    hide Outbox.OutboxInvariant, Outbox.Takes, Outbox.ClaimPending;
    var publications := PublicationsOf(before.outbox, picked, results, now);
    forall id | id in publications
      ensures Outbox.Holds(Outbox.ClaimPending(before.outbox, picked, now), id, publications[id].claim)
    {
      OutboxDispatches.TakenIsHeld(before.outbox, picked, now, id);
    }
  }

  lemma TakenIsPicked(before: Outbox.State, picked: map<Outbox.OutboxId, Outbox.ClaimId>, now: int)
    ensures forall id :: Outbox.Takes(before, picked, now, id) ==> id in picked && id in before.messages
    ensures Outbox.ClaimPending(before, picked, now).messages.Keys == before.messages.Keys
  {
    hide Outbox.Dispatched;
  }

  /** Every publication is published, deferred or failed, and only one of them. */
  lemma ThreeKinds(publications: map<Outbox.OutboxId, Publication>)
    ensures |publications| == |PublishedOf(publications)| + |DeferredOf(publications)| + |FailedOf(publications)|
  {
    var published, deferred, failed := PublishedOf(publications), DeferredOf(publications), FailedOf(publications);
    assert publications.Keys == published + deferred + failed;
    assert |published + deferred| == |published| + |deferred|;
    assert |publications| == |publications.Keys|;
  }

  /** A concluded message ends published exactly if the queue took it; of the others, those that have used
      their attempts are failed, and the rest pause: ten minutes if the queue's answer is unknown, half a
      minute doubled by every attempt if it refused. */
  lemma ConclusionsAreExact(m: Outbox.Message, attempt: nat, result: Outbox.PublishResult, now: int)
    requires Outbox.MessageFits(m) && m.status == Outbox.Pending
    ensures var after := Outbox.Concluded(m, attempt, result, now);
            && Outbox.MessageFits(after)
            && after.claim.None?
            && (after.status == Outbox.Published <==> result == Outbox.Sent)
            && (after.status == Outbox.Failed <==> result != Outbox.Sent && attempt >= Outbox.MAXIMUM_ATTEMPTS)
            && (after.status == Outbox.Pending ==> now + 30_000 <= after.nextAttemptAt <= now + 1_800_000)
            && (after.status == Outbox.Published ==> after.publishedAt == Some(now) && after.lastError.None?)
            && (after.status == Outbox.Failed ==> after.failedAt == Some(now) && after.nextAttemptAt == now)
            && (result == Outbox.SendUnknown ==>
                  && after.lastError == Some(Outbox.QueueOutcomeUnknown)
                  && (after.status == Outbox.Pending ==> after.nextAttemptAt == now + 600_000))
            && (result == Outbox.SendRefused ==>
                  && after.lastError == Some(Outbox.QueueUnavailable)
                  && (after.status == Outbox.Pending ==>
                        after.nextAttemptAt == now + (match attempt case 2 => 60_000 case 3 => 120_000
                                                                    case 4 => 240_000 case _ => 30_000)))
            && after.attempts == m.attempts && after.target == m.target
  {
    Outbox.RetryDelayBounded(attempt);
    OutboxDispatches.PausesDouble(attempt);
    OutboxDispatches.PausesDouble(attempt - 1);
    OutboxDispatches.PausesDouble(attempt - 2);
    OutboxDispatches.PausesDouble(attempt - 3);
  }
}
