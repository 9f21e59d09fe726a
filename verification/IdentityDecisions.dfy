/** What asking for a challenge and presenting one is answered, in every state of the tables. */
module IdentityDecisions {
  import opened Common
  import opened Identity

  // ---------------------------------------------------------------------------------------
  // Asking
  // ---------------------------------------------------------------------------------------

  /** The user's challenges that are at most an hour old, or from the future. */
  function LastHour(s: State, user: UserId, now: nat): set<Digest> {
    set d | d in s.challenges && s.challenges[d].owner.user == user && now <= s.challenges[d].createdAt + 3_600_000
  }

  /** The actor may ask for it: the ledger is the user's, and what is to be unlinked is the actor's link. */
  predicate Entitled(s: State, actor: Actor, purpose: Purpose) {
    && actor.user in s.ledgers && s.ledgers[actor.user] == actor.ledger
    && match purpose
       case Link => true
       case Unlink(target) =>
         target in s.identities && s.identities[target].owner == actor && s.identities[target].unlinkedAt.None?
  }

  /** A challenge is stored if and only if the actor is entitled to it, asked for fewer than five within the
      hour, and its digest is new. It then waits ten minutes to be consumed. */
  lemma AskingDecides(s: State, actor: Actor, purpose: Purpose, digest: Digest, now: nat)
    ensures var (t, outcome) := Create(s, actor, purpose, digest, now);
            && (outcome == Stored <==>
                  Entitled(s, actor, purpose) && |LastHour(s, actor.user, now)| < 5 && digest !in s.challenges)
            && (outcome.RateLimited? <==> Entitled(s, actor, purpose) && |LastHour(s, actor.user, now)| >= 5)
            && (outcome == AuthorityNotFound <==> !(actor.user in s.ledgers && s.ledgers[actor.user] == actor.ledger))
            && (outcome == AuthorityNotFound || outcome == TargetNotFound <==> !Entitled(s, actor, purpose))
            && t == if outcome == Stored then
                      s.(challenges := s.challenges[digest := Challenge(actor, purpose, now, now + 600_000, None)])
                    else s
  {
    assert Recent(s.challenges, actor.user, Since(now)) == LastHour(s, actor.user, now);
  }

  /** A user who is told to wait is told the seconds, rounded up and at least one, until the oldest of those
      challenges is an hour old; in the first hour of the clock, until it is as old as the clock is now. */
  lemma WaitAnnounced(s: State, actor: Actor, purpose: Purpose, digest: Digest, now: nat)
    requires Create(s, actor, purpose, digest, now).1.RateLimited?
    ensures var wait := Create(s, actor, purpose, digest, now).1.retryAfterSeconds;
            exists d ::
              && d in LastHour(s, actor.user, now) && d in s.challenges
              && (forall e :: e in LastHour(s, actor.user, now) && e in s.challenges ==>
                    s.challenges[d].createdAt <= s.challenges[e].createdAt)
              && var instant := s.challenges[d].createdAt + Min(now, 3_600_000);
              && 1 <= wait && instant <= now + 1_000 * wait
              && (1 < wait ==> now + 1_000 * (wait - 1) < instant)
  {
    var recent := Recent(s.challenges, actor.user, Since(now));
    assert recent == LastHour(s, actor.user, now);
    OldestExists(s.challenges, recent);
    var d :| IsOldest(s.challenges, recent, d) && s.challenges[d].createdAt == OldestCreation(s.challenges, recent);
    assert d in LastHour(s, actor.user, now);
  }

  // ---------------------------------------------------------------------------------------
  // Presenting
  // ---------------------------------------------------------------------------------------

  /** The token can be used: it was not consumed, and it is not ten minutes old. */
  predicate Open(c: Challenge, now: nat) {
    c.consumedAt.None? && c.createdAt <= now < c.createdAt + 600_000
  }

  predicate TooOld(c: Challenge, now: nat) {
    c.consumedAt.None? && c.createdAt + 600_000 <= now
  }

  /** Presenting a token to link an account. It links exactly if the token is an open link token and the
      account is not linked; the token is spent by that, by coming too late, and by a linked account. */
  lemma LinkDecides(s: State, digest: Digest, account: AccountId, id: IdentityId, now: nat)
    requires IdentityInvariant(s)
    ensures var (t, outcome) := ConsumeLink(s, digest, account, id, now);
            if digest !in s.challenges || s.challenges[digest].purpose != Link then
              outcome == ChallengeNotFound && t == s
            else
              var c := s.challenges[digest];
              && (outcome.Linked? <==> Open(c, now) && account !in Links(s) && id !in s.identities)
              && (outcome == AlreadyLinked <==> Open(c, now) && account in Links(s))
              && (outcome == Expired <==> TooOld(c, now))
              && (outcome == AlreadyConsumed <==> c.consumedAt.Some?)
              && (outcome == ConsumeUnavailable <==>
                    || (c.consumedAt.None? && now < c.createdAt)
                    || (Open(c, now) && account !in Links(s) && id in s.identities))
              && (outcome.Linked? ==> outcome == Linked(id, c.owner))
              && t.ledgers == s.ledgers
              && t.challenges ==
                 (if TooOld(c, now) || (Open(c, now) && (account in Links(s) || id !in s.identities)) then
                    s.challenges[digest := c.(consumedAt := Some(now))]
                  else s.challenges)
              && t.identities ==
                 if outcome.Linked? then s.identities[id := IdentityRow(c.owner, account, now, None, digest)]
                 else s.identities
  {
    hide LinksUnique, WindowsFit;
    UniqueOf(s);
    LinksAt(s, account);
    if digest in s.challenges {
      assert ChallengeFits(s, s.challenges[digest]);
    }
    hide Links, RowsFit;
  }

  /** Presenting a token to unlink. It unlinks exactly if the token is an open unlink token whose link is
      still the presenting account's; another account leaves the token as it was. */
  lemma UnlinkDecides(s: State, digest: Digest, account: AccountId, now: nat)
    requires IdentityInvariant(s)
    ensures var (t, outcome) := ConsumeUnlink(s, digest, account, now);
            if digest !in s.challenges || !s.challenges[digest].purpose.Unlink? then
              outcome == ChallengeNotFound && t == s
            else
              var c := s.challenges[digest];
              c.purpose.target in s.identities &&
              var link := s.identities[c.purpose.target];
              var mine := Active(s, c.purpose.target, account) && link.linkedAt <= now;
              && (outcome.Unlinked? <==> Open(c, now) && mine)
              && (outcome == IdentityNotFound <==> Open(c, now) && link.unlinkedAt.Some?)
              && (outcome == Expired <==> TooOld(c, now))
              && (outcome == AlreadyConsumed <==> c.consumedAt.Some?)
              && (outcome == DoesNotMatch <==>
                    c.consumedAt.None? && !TooOld(c, now) && link.unlinkedAt.None? && link.account != account)
              && (outcome == ConsumeUnavailable <==>
                    c.consumedAt.None? && !TooOld(c, now) &&
                    if link.unlinkedAt.Some? then now < c.createdAt
                    else link.account == account && (now < c.createdAt || now < link.linkedAt))
              && (outcome.Unlinked? ==> outcome == Unlinked(c.purpose.target))
              && t.ledgers == s.ledgers
              && t.challenges ==
                 (if TooOld(c, now) || (Open(c, now) && (mine || link.unlinkedAt.Some?)) then
                    s.challenges[digest := c.(consumedAt := Some(now))]
                  else s.challenges)
              && t.identities ==
                 if outcome.Unlinked? then s.identities[c.purpose.target := link.(unlinkedAt := Some(now))]
                 else s.identities
  {
    hide LinksUnique, WindowsFit;
    if digest in s.challenges {
      assert ChallengeFits(s, s.challenges[digest]);
    }
    hide RowsFit;
  }
}
