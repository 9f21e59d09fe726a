/** What one event job does to the intake tables and the identity tables: claim, count the event in its
    user's window, answer, complete. */
module TelegramEvents {
  import opened Common
  import Intake
  import IntakeClaims
  import Identity
  import opened TelegramContent
  import opened TelegramReplies

  datatype EventOutcome =
    | Processed(reply: nat)
    | AlreadyProcessed
    | NotAnEvent
    | RateLimited
    | Postponed(retryAfterSeconds: int)
    | Unavailable

  /** The user in whose window an event counts: the owner of the account for texts and unlink commands, and
      for link commands the owner who is told that the account is linked. */
  ghost function Subject(
      s: Identity.State, content: Content, account: Identity.AccountId, identity: Identity.IdentityId, now: nat)
      : Option<Identity.UserId>
  {
    match content
    case InvalidCommand(_) => None
    case LinkCommand(digest) => UserOf(ActorIn(AnswerLink(s, digest, account, identity, now).1))
    case _ => UserOf(LinkedActor(s, account))
  }

  function ActorIn(answer: Answer): Option<Actor> {
    if answer.Answered? then answer.actor else None
  }

  function UserOf(actor: Option<Actor>): Option<Identity.UserId> {
    if actor.Some? then Some(actor.value.user) else None
  }

  function Limited(i: Intake.State, id: Intake.EventId, claim: Intake.ClaimId, user: Option<Intake.UserId>, now: int)
    : (Intake.State, Intake.UserLimitOutcome)
  {
    if user.None? then (i, Intake.Allowed) else Intake.EnforceUserLimit(i, id, claim, user.value, now)
  }

  datatype Handling = Handling(intake: Intake.State, identities: Identity.State, outcome: EventOutcome)

  /** The job of a claimed event. A link command takes effect before its user's window is checked, an unlink
      command after. `free` says whether the generated reply and message ids are. */
  ghost function HandleClaimed(
      i: Intake.State, s: Identity.State, id: Intake.EventId, claim: Intake.ClaimId, identity: Identity.IdentityId,
      reply: nat, free: bool, now: nat): Handling
    requires id in i.events
  {
    var content, account := i.events[id].content, i.events[id].account;
    var (checked, limit) := Limited(i, id, claim, Subject(s, content, account, identity, now), now);
    var (answered, answer) := AnswerTo(s, content, account, identity, now);
    if limit != Intake.Allowed then
      Handling(
        checked, if content.LinkCommand? then answered else s,
        if limit == Intake.UserRateLimited then RateLimited else Unavailable)
    else if answer.IdentityFailed? then Handling(Intake.Release(checked, id, claim), answered, Unavailable)
    else if !free then Handling(checked, answered, Unavailable)
    else
      Handling(
        Intake.Complete(checked, id, claim, CompletionFor(content, answer), now).0, answered, Processed(reply))
  }

  ghost function Handle(
      i: Intake.State, s: Identity.State, id: Intake.EventId, claim: Intake.ClaimId, identity: Identity.IdentityId,
      reply: nat, free: bool, workerNow: int, now: nat): Handling
    requires id in i.events
  {
    var (claimed, outcome) := Intake.Claim(i, id, claim, workerNow, now);
    match outcome
    case Claimed(_) => HandleClaimed(claimed, s, id, claim, identity, reply, free, now)
    case Duplicate => Handling(claimed, s, AlreadyProcessed)
    case Deferred(seconds) => Handling(claimed, s, Postponed(seconds))
    case RateLimited => Handling(claimed, s, RateLimited)
    case NotFound => Handling(claimed, s, NotAnEvent)
  }

  /** The job has come to an end, whichever. */
  predicate Ended(outcome: EventOutcome) {
    outcome.Processed? || outcome.AlreadyProcessed? || outcome.RateLimited?
  }

  /** A job comes to an end if and only if its event is processed or suppressed afterwards. */
  lemma EndsIff(
      i: Intake.State, s: Identity.State, id: Intake.EventId, claim: Intake.ClaimId, identity: Identity.IdentityId,
      reply: nat, free: bool, workerNow: int, now: nat)
    requires Intake.IntakeInvariant(i) && id in i.events
    ensures var h := Handle(i, s, id, claim, identity, reply, free, workerNow, now);
            && id in h.intake.events && !h.outcome.NotAnEvent?
            && (Ended(h.outcome) <==> Intake.Terminal(h.intake.events[id]))
  {
    hide Intake.IntakeInvariant, AnswerTo, Subject;
    Intake.EventsFit(i, id);
    Intake.ClaimKeeps(i, id, claim, workerNow, now);
    var (claimed, outcome) := Intake.Claim(i, id, claim, workerNow, now);
    if outcome.Claimed? {
      assert Intake.Holds(claimed, id, claim);
      Intake.EventsFit(claimed, id);
      hide Intake.Claim;
      ClaimedEndsIff(claimed, s, id, claim, identity, reply, free, now);
    }
  }

  lemma ClaimedEndsIff(
      i: Intake.State, s: Identity.State, id: Intake.EventId, claim: Intake.ClaimId, identity: Identity.IdentityId,
      reply: nat, free: bool, now: nat)
    requires Intake.IntakeInvariant(i) && Intake.Holds(i, id, claim)
    ensures var h := HandleClaimed(i, s, id, claim, identity, reply, free, now);
            && id in h.intake.events && !h.outcome.NotAnEvent?
            && (Ended(h.outcome) <==> Intake.Terminal(h.intake.events[id]))
  {
    hide Intake.IntakeInvariant, AnswerTo, Subject;
    Intake.EventsFit(i, id);
  }

  /** A claimed event is refused for its user if and only if it counts for one, was not decided for a user
      before, and thirty events of that user were decided in the same minute. Then it ends so, and is not
      answered: a link is made all the same, an unlink token stays unspent. Otherwise it is answered, and
      was admitted; if it was not decided before, it now counts in its user's window. */
  lemma LimitedIff(
      i: Intake.State, s: Identity.State, id: Intake.EventId, claim: Intake.ClaimId, identity: Identity.IdentityId,
      reply: nat, free: bool, now: nat)
    requires Intake.IntakeInvariant(i) && Intake.Holds(i, id, claim)
    ensures var e, minute := i.events[id], now / 60_000;
            var h := HandleClaimed(i, s, id, claim, identity, reply, free, now);
            var (answered, answer) := AnswerTo(s, e.content, e.account, identity, now);
            var user := Subject(s, e.content, e.account, identity, now);
            var full := user.Some? && IntakeClaims.DecidedForUser(i, user.value, minute) >= 30;
            && id in h.intake.events
            && (h.outcome == RateLimited <==> e.userAbuse.None? && full)
            && (h.outcome == RateLimited ==>
                  && h.intake.events[id].status == Intake.Suppressed
                  && h.intake.events[id].ending == Some(Intake.UserAbuseLimited)
                  && h.identities == if e.content.LinkCommand? then answered else s)
            && (h.outcome != RateLimited ==>
                  && h.identities == answered
                  && (h.outcome == Processed(reply) <==> answer.Answered? && free)
                  && (h.outcome == Unavailable <==> !(answer.Answered? && free))
                  && (user.Some? ==> AdmittedFor(i, h.intake, id, user.value, now)))
  {
    hide Intake.IntakeInvariant, AnswerTo, Subject, Intake.WindowCount;
    Intake.EventsFit(i, id);
    var user := Subject(s, i.events[id].content, i.events[id].account, identity, now);
    if user.Some? {
      IntakeClaims.UserLimitDecides(i, id, claim, user.value, now);
    }
    assert Limited(i, id, claim, user, now).1 != Intake.UserLimitUnavailable;
    hide Intake.EnforceUserLimit, Intake.Complete, Intake.Release, CompletionFor;
    var answer := AnswerTo(s, i.events[id].content, i.events[id].account, identity, now).1;
    assert answer.Answered? || answer.IdentityFailed?;
  }

  /** A free event is refused if and only if it is met for the first time in a minute that is full for
      everybody or for its account, or counts for the first time for a user whose minute is full. Everything
      else is answered, if an answer and free ids can be had. */
  lemma JobDecides(
      i: Intake.State, s: Identity.State, id: Intake.EventId, claim: Intake.ClaimId, identity: Identity.IdentityId,
      reply: nat, free: bool, workerNow: int, now: nat)
    requires Intake.IntakeInvariant(i) && id in i.events && IntakeClaims.Free(i.events[id], workerNow)
    ensures var e, minute := i.events[id], now / 60_000;
            var h := Handle(i, s, id, claim, identity, reply, free, workerNow, now);
            var (answered, answer) := AnswerTo(s, e.content, e.account, identity, now);
            var user := Subject(s, e.content, e.account, identity, now);
            var crowded := e.abuse.None? && (
              IntakeClaims.DecidedInAll(i, minute) >= 300 ||
              IntakeClaims.DecidedForAccount(i, e.account, minute) >= 30);
            var full := e.userAbuse.None? && user.Some? && IntakeClaims.DecidedForUser(i, user.value, minute) >= 30;
            && id in h.intake.events
            && (h.outcome == RateLimited <==> crowded || full)
            && (h.outcome == Processed(reply) <==> !crowded && !full && answer.Answered? && free)
            && (h.outcome == Unavailable <==> !crowded && !full && !(answer.Answered? && free))
            && (crowded ==> h.intake.events[id].ending == Some(Intake.AbuseLimited) && h.identities == s)
            && (!crowded && full ==>
                  && h.intake.events[id].ending == Some(Intake.UserAbuseLimited)
                  && h.identities == if e.content.LinkCommand? then answered else s)
            && (!crowded && !full ==>
                  && h.identities == answered
                  && (user.Some? ==> AdmittedFor(i, h.intake, id, user.value, now)))
  {
    hide Intake.IntakeInvariant, AnswerTo, Subject, Intake.Claim, HandleClaimed, Limited;
    IntakeClaims.EventClaimDecides(i, id, claim, workerNow, now);
    Intake.ClaimKeeps(i, id, claim, workerNow, now);
    var (claimed, outcome) := Intake.Claim(i, id, claim, workerNow, now);
    if outcome.Claimed? {
      LimitedIff(claimed, s, id, claim, identity, reply, free, now);
      var user := Subject(s, i.events[id].content, i.events[id].account, identity, now);
      if user.Some? {
        var window := Intake.Window(Intake.User(user.value), now / 60_000);
        IntakeClaims.WindowsCount(i, window);
        IntakeClaims.WindowsCount(claimed, window);
      }
    }
  }

  /** The event is admitted, for this user if it was not decided before. */
  ghost predicate AdmittedFor(i: Intake.State, after: Intake.State, id: Intake.EventId, user: Intake.UserId, now: int)
    requires id in i.events && id in after.events
  {
    var verdict, window := after.events[id].userAbuse, Intake.Window(Intake.User(user), now / 60_000);
    && verdict.Some? && verdict.value.allowed
    && if i.events[id].userAbuse.Some? then verdict == i.events[id].userAbuse
       else
         && verdict.value.user == user && verdict.value.checkedAt == now
         && Intake.WindowCount(after.windows, window) == Intake.WindowCount(i.windows, window) + 1
  }

  /** Whom an event counts for: always the owner in its answer, if it has one. */
  lemma SubjectDecides(
      s: Identity.State, content: Content, account: Identity.AccountId, identity: Identity.IdentityId, now: nat)
    requires Identity.IdentityInvariant(s)
    ensures var answer := AnswerTo(s, content, account, identity, now).1;
            var user := Subject(s, content, account, identity, now);
            && (ActorIn(answer).Some? ==> user == Some(ActorIn(answer).value.user))
            && match content
               case InvalidCommand(_) => user == None
               case LinkCommand(_) =>
                 user.Some? <==> answer.Answered? && answer.intent == LinkSucceeded
               case _ =>
                 user == if account in Identity.Links(s) then Some(Identity.Links(s)[account].user) else None
  {
    hide Identity.IdentityInvariant, Identity.Links, Identity.ConsumeLink, Identity.ConsumeUnlink, Identity.Resolve;
    ActorIsLink(s, account);
  }
}
