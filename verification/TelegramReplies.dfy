/** What a Telegram event is answered with, and what happens to the answer when a worker crashes after
    consuming a challenge and another worker processes the event again. */
module TelegramReplies {
  import opened Common
  import opened Identity
  import opened TelegramContent

  /** An intent, scoped to an owner or not; or the identity store failed and the event is released. */
  datatype Answer = Answered(intent: Intent, actor: Option<Actor>) | IdentityFailed

  function ReasonFor(outcome: ConsumeOutcome): Rejection {
    match outcome
    case IdentityNotFound => WrongIdentity
    case DoesNotMatch => WrongIdentity
    case AlreadyConsumed => AlreadyUsed
    case Expired => TooLate
    case AlreadyLinked => LinkedAlready
    case _ => UnknownChallenge
  }

  ghost function LinkedActor(s: State, account: AccountId): Option<Actor> {
    var resolved := Resolve(s, account);
    if resolved.Resolved? then Some(resolved.actor) else None
  }

  ghost function AnswerLink(s: State, digest: Digest, account: AccountId, id: IdentityId, now: nat): (State, Answer) {
    var (t, outcome) := ConsumeLink(s, digest, account, id, now);
    if outcome.Linked? then (t, Answered(LinkSucceeded, Some(outcome.actor)))
    else if outcome.ConsumeUnavailable? then (t, IdentityFailed)
    else if outcome.AlreadyConsumed? && LinkedActor(t, account).Some? then
      (t, Answered(LinkSucceeded, LinkedActor(t, account)))
    else (t, Answered(ChallengeRejected(ForLink, ReasonFor(outcome)), None))
  }

  ghost function AnswerUnlink(s: State, digest: Digest, account: AccountId, now: nat): (State, Answer) {
    var prior := LinkedActor(s, account);
    var (t, outcome) := ConsumeUnlink(s, digest, account, now);
    if outcome.Unlinked? then (t, Answered(UnlinkSucceeded, prior))
    else if outcome.ConsumeUnavailable? then (t, IdentityFailed)
    else if outcome.AlreadyConsumed? && prior.None? then (t, Answered(UnlinkSucceeded, None))
    else (t, Answered(ChallengeRejected(ForUnlink, ReasonFor(outcome)), None))
  }

  ghost function AnswerTo(s: State, content: Content, account: AccountId, id: IdentityId, now: nat): (State, Answer) {
    match content
    case InvalidCommand(purpose) => (s, Answered(ChallengeRejected(purpose, MalformedCommand), None))
    case PlainText(_) =>
      (s,
       if LinkedActor(s, account).Some? then Answered(CaptureUnavailable, LinkedActor(s, account))
       else Answered(LinkRequired, None))
    case LinkCommand(digest) => AnswerLink(s, digest, account, id, now)
    case UnlinkCommand(digest) => AnswerUnlink(s, digest, account, now)
  }

  /** What is stored for an answer: an accepted text, a reply for an owner, or a reply for nobody. */
  function CompletionFor(content: Content, answer: Answer): Completion
    requires answer.Answered?
  {
    if answer.actor.None? then UnscopedReply(answer.intent)
    else if content.PlainText? then LinkedTextAccepted(answer.actor.value, content.text, answer.intent)
    else ScopedReply(answer.actor.value, answer.intent)
  }

  lemma ActorIsLink(s: State, account: AccountId)
    requires IdentityInvariant(s)
    ensures LinkedActor(s, account) == if account in Links(s) then Some(Links(s)[account]) else None
  {
    ResolveReads(s, account);
  }

  /** Challenges are never deleted or rewritten; a consumption is final. */
  lemma {:induction false} ChallengeStays(s: State, events: seq<Event>, digest: Digest)
    requires digest in s.challenges
    ensures digest in Run(s, events).challenges
    ensures Run(s, events).challenges[digest].purpose == s.challenges[digest].purpose
    ensures s.challenges[digest].consumedAt.Some? ==> Run(s, events).challenges[digest] == s.challenges[digest]
    decreases |events|
  {
    if events != [] {
      ChallengeStep(s, events[0], digest);
      hide Step;
      ChallengeStays(Step(s, events[0]), events[1..], digest);
    }
  }

  lemma ChallengeStep(s: State, e: Event, digest: Digest)
    requires digest in s.challenges
    ensures digest in Step(s, e).challenges && Step(s, e).challenges[digest].purpose == s.challenges[digest].purpose
    ensures s.challenges[digest].consumedAt.Some? ==> Step(s, e).challenges[digest] == s.challenges[digest]
  {
  }

  /** Texts and malformed commands change nothing. A text is answered with the owner of its account if there
      is one, and otherwise with the request to link; a malformed command is rejected as what it was. */
  lemma OtherAnswers(s: State, content: Content, account: AccountId, id: IdentityId, now: nat)
    requires IdentityInvariant(s) && (content.PlainText? || content.InvalidCommand?)
    ensures AnswerTo(s, content, account, id, now) ==
            (s, match content
                case PlainText(_) =>
                  if account in Links(s) then Answered(CaptureUnavailable, Some(Links(s)[account]))
                  else Answered(LinkRequired, None)
                case _ => Answered(ChallengeRejected(content.purpose, MalformedCommand), None))
  {
    hide IdentityInvariant, Links;
    ActorIsLink(s, account);
  }

  /** What the completion of an event stores: a text with its owner exactly for the plain text of a linked
      account, and the answer's intent and owner in any case. */
  lemma StoredCompletion(s: State, content: Content, account: AccountId, id: IdentityId, now: nat)
    requires IdentityInvariant(s) && AnswerTo(s, content, account, id, now).1.Answered?
    ensures var answer := AnswerTo(s, content, account, id, now).1;
            var completion := CompletionFor(content, answer);
            && completion.intent == answer.intent
            && ActorOf(completion) == answer.actor
            && (completion.LinkedTextAccepted? <==> content.PlainText? && account in Links(s))
            && (completion.LinkedTextAccepted? ==>
                  completion == LinkedTextAccepted(Links(s)[account], content.text, CaptureUnavailable))
  {
    hide IdentityInvariant, Links, AnswerLink, AnswerUnlink;
    if content.PlainText? {
      OtherAnswers(s, content, account, id, now);
    }
  }

  /** Replay of a link command. A worker presents a token, which leaves it spent, and crashes before it
      completes the event. Whatever happens meanwhile, processing the event again changes nothing, and
      the answer depends only on whether the account is linked by then. So it repeats the first answer
      exactly if the first worker linked and the account still has the same owner, or if the token was
      spent already and the account's owner, or the lack of one, is unchanged. A first answer that the
      token had expired, or that the account was linked, is never repeated: if the account is linked,
      the user is told that linking succeeded. */
  lemma LinkReplay(
      s: State, digest: Digest, account: AccountId, id: IdentityId, now: nat, meanwhile: seq<Event>,
      otherId: IdentityId, later: nat)
    requires IdentityInvariant(s)
    requires digest in s.challenges && s.challenges[digest].purpose.Link?
    requires Spent(AnswerLink(s, digest, account, id, now).0, digest)
    ensures var outcome := ConsumeLink(s, digest, account, id, now).1;
            var (presented, first) := AnswerLink(s, digest, account, id, now);
            var t := Run(presented, meanwhile);
            var (u, again) := AnswerLink(t, digest, account, otherId, later);
            && u == t
            && again == (if account in Links(t) then Answered(LinkSucceeded, Some(Links(t)[account]))
                         else Answered(ChallengeRejected(ForLink, AlreadyUsed), None))
            && (outcome.Linked? || outcome.AlreadyConsumed? || outcome.AlreadyLinked? || outcome.Expired?)
            && (outcome.Linked? ==>
                  (again == first <==> account in Links(t) && Links(t)[account] == s.challenges[digest].owner))
            && (outcome.AlreadyConsumed? ==> (again == first <==> OwnerIn(t, account) == OwnerIn(s, account)))
            && (outcome.AlreadyLinked? || outcome.Expired? ==> again != first)
  {
    ConsumeLinkKeeps(s, digest, account, id, now);
    FirstLinkAnswer(s, digest, account, id, now);
    var presented := AnswerLink(s, digest, account, id, now).0;
    hide IdentityInvariant, Links, Resolve, AnswerLink, ConsumeLink;
    ChallengeStays(presented, meanwhile, digest);
    RunKeeps(presented, meanwhile);
    SpentLinkAnswer(Run(presented, meanwhile), digest, account, otherId, later);
  }

  /** A spent link token is answered from the link alone. */
  lemma SpentLinkAnswer(s: State, digest: Digest, account: AccountId, id: IdentityId, now: nat)
    requires IdentityInvariant(s) && Spent(s, digest) && s.challenges[digest].purpose.Link?
    ensures AnswerLink(s, digest, account, id, now) ==
            (s, if account in Links(s) then Answered(LinkSucceeded, Some(Links(s)[account]))
                else Answered(ChallengeRejected(ForLink, AlreadyUsed), None))
  {
    hide IdentityInvariant, Links, Resolve;
    ActorIsLink(s, account);
  }

  /** The answers of the presentations that leave a link token spent. */
  lemma FirstLinkAnswer(s: State, digest: Digest, account: AccountId, id: IdentityId, now: nat)
    requires IdentityInvariant(s)
    requires digest in s.challenges && s.challenges[digest].purpose.Link?
    requires Spent(AnswerLink(s, digest, account, id, now).0, digest)
    ensures AnswerLink(s, digest, account, id, now).0 == ConsumeLink(s, digest, account, id, now).0
    ensures var outcome := ConsumeLink(s, digest, account, id, now).1;
            var first := AnswerLink(s, digest, account, id, now).1;
            && (outcome.Linked? || outcome.AlreadyConsumed? || outcome.AlreadyLinked? || outcome.Expired?)
            && (outcome.Linked? ==> first == Answered(LinkSucceeded, Some(s.challenges[digest].owner)))
            && (outcome.AlreadyLinked? ==> first == Answered(ChallengeRejected(ForLink, LinkedAlready), None))
            && (outcome.Expired? ==> first == Answered(ChallengeRejected(ForLink, TooLate), None))
            && (outcome.AlreadyConsumed? ==>
                  first == if account in Links(s) then Answered(LinkSucceeded, Some(Links(s)[account]))
                           else Answered(ChallengeRejected(ForLink, AlreadyUsed), None))
  {
    hide IdentityInvariant, Links, Resolve;
    ActorIsLink(s, account);
  }

  ghost function OwnerIn(s: State, account: AccountId): Option<Actor> {
    if account in Links(s) then Some(Links(s)[account]) else None
  }

  /** Replay of an unlink command, likewise. A first success is reported again, but without the owner,
      exactly if the account was not linked anew. A first answer that the token had expired, or that the
      link was gone, is never repeated: if the account is unlinked, the user is told that unlinking
      succeeded. */
  lemma UnlinkReplay(s: State, digest: Digest, account: AccountId, now: nat, meanwhile: seq<Event>, later: nat)
    requires IdentityInvariant(s)
    requires digest in s.challenges && s.challenges[digest].purpose.Unlink?
    requires Spent(AnswerUnlink(s, digest, account, now).0, digest)
    ensures var outcome := ConsumeUnlink(s, digest, account, now).1;
            var (presented, first) := AnswerUnlink(s, digest, account, now);
            var t := Run(presented, meanwhile);
            var (u, again) := AnswerUnlink(t, digest, account, later);
            && u == t
            && again == (if account in Links(t) then Answered(ChallengeRejected(ForUnlink, AlreadyUsed), None)
                         else Answered(UnlinkSucceeded, None))
            && (outcome.Unlinked? || outcome.AlreadyConsumed? || outcome.IdentityNotFound? || outcome.Expired?)
            && (outcome.Unlinked? ==>
                  && first == Answered(UnlinkSucceeded, Some(s.challenges[digest].owner))
                  && again != first
                  && (again.intent == first.intent <==> account !in Links(t)))
            && (outcome.AlreadyConsumed? ==> (again == first <==> (account in Links(t) <==> account in Links(s))))
            && (outcome.IdentityNotFound? || outcome.Expired? ==> again != first)
  {
    ConsumeUnlinkKeeps(s, digest, account, now);
    FirstUnlinkAnswer(s, digest, account, now);
    var presented := AnswerUnlink(s, digest, account, now).0;
    hide IdentityInvariant, Links, Resolve, AnswerUnlink, ConsumeUnlink;
    ChallengeStays(presented, meanwhile, digest);
    RunKeeps(presented, meanwhile);
    SpentUnlinkAnswer(Run(presented, meanwhile), digest, account, later);
  }

  /** A spent unlink token is answered from the link alone. */
  lemma SpentUnlinkAnswer(s: State, digest: Digest, account: AccountId, now: nat)
    requires IdentityInvariant(s) && Spent(s, digest) && s.challenges[digest].purpose.Unlink?
    ensures AnswerUnlink(s, digest, account, now) ==
            (s, if account in Links(s) then Answered(ChallengeRejected(ForUnlink, AlreadyUsed), None)
                else Answered(UnlinkSucceeded, None))
  {
    hide IdentityInvariant, Links, Resolve;
    UnlinkTargetStays(s, digest);
    ActorIsLink(s, account);
  }

  /** The answers of the presentations that leave an unlink token spent. */
  lemma FirstUnlinkAnswer(s: State, digest: Digest, account: AccountId, now: nat)
    requires IdentityInvariant(s)
    requires digest in s.challenges && s.challenges[digest].purpose.Unlink?
    requires Spent(AnswerUnlink(s, digest, account, now).0, digest)
    ensures AnswerUnlink(s, digest, account, now).0 == ConsumeUnlink(s, digest, account, now).0
    ensures var outcome := ConsumeUnlink(s, digest, account, now).1;
            var first := AnswerUnlink(s, digest, account, now).1;
            && (outcome.Unlinked? || outcome.AlreadyConsumed? || outcome.IdentityNotFound? || outcome.Expired?)
            && (outcome.Unlinked? ==> first == Answered(UnlinkSucceeded, Some(s.challenges[digest].owner)))
            && (outcome.IdentityNotFound? ==> first == Answered(ChallengeRejected(ForUnlink, WrongIdentity), None))
            && (outcome.Expired? ==> first == Answered(ChallengeRejected(ForUnlink, TooLate), None))
            && (outcome.AlreadyConsumed? ==>
                  first == if account in Links(s) then Answered(ChallengeRejected(ForUnlink, AlreadyUsed), None)
                           else Answered(UnlinkSucceeded, None))
  {
    UnlinkRefines(s, digest, account, now);
    hide IdentityInvariant, Links, Resolve;
    UnlinkTargetStays(s, digest);
    ActorIsLink(s, account);
  }

  lemma UnlinkTargetStays(t: State, digest: Digest)
    requires IdentityInvariant(t) && digest in t.challenges && t.challenges[digest].purpose.Unlink?
    ensures t.challenges[digest].purpose.target in t.identities
    ensures t.identities[t.challenges[digest].purpose.target].owner == t.challenges[digest].owner
  {
    assert ChallengeFits(t, t.challenges[digest]);
  }

  /** When a user is told that linking succeeded: the token was consumed just now, or it was consumed
      before, by whomever, and the account happens to be linked. The second case is meant for replays,
      but a linked account that presents any spent link token is answered the same way. */
  lemma LinkSucceededIff(s: State, digest: Digest, account: AccountId, id: IdentityId, now: nat)
    requires IdentityInvariant(s)
    ensures var (t, answer) := AnswerLink(s, digest, account, id, now);
            && (answer.Answered? && answer.intent == LinkSucceeded <==>
                  || ConsumeLink(s, digest, account, id, now).1.Linked?
                  || (Spent(s, digest) && s.challenges[digest].purpose.Link? && account in Links(s)))
            && (answer.Answered? && answer.intent == LinkSucceeded ==>
                  account in Links(t) && answer.actor == Some(Links(t)[account]))
  {
    LinkRefines(s, digest, account, id, now);
    hide IdentityInvariant, Links, Resolve;
    ActorIsLink(s, account);
  }

  /** The link that an account has was made by some other token than this one. */
  ghost predicate LinkedByAnother(s: State, account: AccountId, digest: Digest) {
    exists id :: id in s.identities && Active(s, id, account) && s.identities[id].linkedBy != digest
  }

  /** Exactly when success is reported for a token that did not make the link: a spent link token
      presented by an account whose link comes from another token. */
  lemma MisattributedSuccessIff(s: State, digest: Digest, account: AccountId, id: IdentityId, now: nat)
    requires IdentityInvariant(s)
    ensures var (t, answer) := AnswerLink(s, digest, account, id, now);
            (answer.Answered? && answer.intent == LinkSucceeded && LinkedByAnother(t, account, digest)) <==>
              (Spent(s, digest) && s.challenges[digest].purpose.Link? && LinkedByAnother(s, account, digest))
  {
    LinkSucceededIff(s, digest, account, id, now);
    UniqueOf(s);
    LinksAt(s, account);
    var (t, outcome) := ConsumeLink(s, digest, account, id, now);
    if outcome.Linked? {
      ConsumeLinkKeeps(s, digest, account, id, now);
      OwnLink(s, t, digest, account, id);
    }
    hide IdentityInvariant, Links, LinksUnique, Resolve;
  }

  lemma OwnLink(s: State, t: State, digest: Digest, account: AccountId, id: IdentityId)
    requires IdentityInvariant(t) && Active(t, id, account) && t.identities[id].linkedBy == digest
    ensures !LinkedByAnother(t, account, digest)
  {
    UniqueOf(t);
  }

  /** When a user is told that unlinking succeeded; either way the account is unlinked afterwards. */
  lemma UnlinkSucceededIff(s: State, digest: Digest, account: AccountId, now: nat)
    requires IdentityInvariant(s)
    ensures var (t, answer) := AnswerUnlink(s, digest, account, now);
            && (answer.Answered? && answer.intent == UnlinkSucceeded <==>
                  || ConsumeUnlink(s, digest, account, now).1.Unlinked?
                  || (Spent(s, digest) && s.challenges[digest].purpose.Unlink? && account !in Links(s)))
            && (answer.Answered? && answer.intent == UnlinkSucceeded ==> account !in Links(t))
  {
    UnlinkRefines(s, digest, account, now);
    if digest in s.challenges && s.challenges[digest].purpose.Unlink? {
      UnlinkTargetStays(s, digest);
    }
    hide IdentityInvariant, Links, Resolve;
    ActorIsLink(s, account);
  }

  /** A link challenge that could still be used now. */
  predicate Usable(s: State, digest: Digest, now: nat) {
    digest in s.challenges && s.challenges[digest].consumedAt.None? &&
    s.challenges[digest].createdAt <= now < s.challenges[digest].expiresAt
  }

  lemma ChallengeTimes(s: State, digest: Digest)
    requires IdentityInvariant(s) && digest in s.challenges
    ensures s.challenges[digest].createdAt < s.challenges[digest].expiresAt
  {
    assert ChallengeFits(s, s.challenges[digest]);
    hide LinksUnique, WindowsFit;
  }

  /** Why a link command is rejected, as a statement about the tables before it. */
  lemma LinkRejections(s: State, digest: Digest, account: AccountId, id: IdentityId, now: nat, reason: Rejection)
    requires IdentityInvariant(s)
    ensures var known := digest in s.challenges && s.challenges[digest].purpose.Link?;
            AnswerLink(s, digest, account, id, now).1 == Answered(ChallengeRejected(ForLink, reason), None) <==>
              match reason
              case UnknownChallenge => !known
              case AlreadyUsed => known && Spent(s, digest) && account !in Links(s)
              case TooLate => known && !Spent(s, digest) && s.challenges[digest].expiresAt <= now
              case LinkedAlready => known && Usable(s, digest, now) && account in Links(s)
              case MalformedCommand => false
              case WrongIdentity => false
  {
    hide IdentityInvariant, Links, LinksUnique, Resolve;
    if digest in s.challenges {
      ChallengeTimes(s, digest);
    }
    UniqueOf(s);
    LinksAt(s, account);
    ActorIsLink(s, account);
  }

  /** Why an unlink command is rejected: in particular the identity is wrong exactly if the link is gone
      or belongs to another account. */
  lemma UnlinkRejections(s: State, digest: Digest, account: AccountId, now: nat, reason: Rejection)
    requires IdentityInvariant(s)
    ensures var known := digest in s.challenges && s.challenges[digest].purpose.Unlink?;
            AnswerUnlink(s, digest, account, now).1 == Answered(ChallengeRejected(ForUnlink, reason), None) <==>
              match reason
              case UnknownChallenge => !known
              case AlreadyUsed => known && Spent(s, digest) && account in Links(s)
              case TooLate => known && !Spent(s, digest) && s.challenges[digest].expiresAt <= now
              case WrongIdentity =>
                && known && !Spent(s, digest) && now < s.challenges[digest].expiresAt
                && var target := s.challenges[digest].purpose.target;
                   && target in s.identities
                   && if s.identities[target].unlinkedAt.Some? then s.challenges[digest].createdAt <= now
                      else s.identities[target].account != account
              case MalformedCommand => false
              case LinkedAlready => false
  {
    hide IdentityInvariant, Links, Resolve;
    if digest in s.challenges && s.challenges[digest].purpose.Unlink? {
      UnlinkTargetStays(s, digest);
      ChallengeTimes(s, digest);
    }
    ActorIsLink(s, account);
  }
}
