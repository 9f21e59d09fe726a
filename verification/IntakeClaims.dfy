/** How long a claim of an event keeps others out, what every event job is answered, and how the abuse
    windows decide. */
module IntakeClaims {
  import opened Common
  import opened TelegramContent
  import opened Intake

  // ---------------------------------------------------------------------------------------
  // Exclusion
  // ---------------------------------------------------------------------------------------

  /** A claim keeps every other job away for sixty seconds: until then they change nothing and are told to
      come back when it ends. After that the next one takes the event over, without counting it again, and
      the worker that was late can neither complete nor release it. */
  lemma EventClaimExcludes(
      s: State, id: EventId, claim: ClaimId, workerNow: int, now: int, again: ClaimId, workerLater: int, later: int)
    requires Claim(s, id, claim, workerNow, now).1.Claimed?
    ensures var t := Claim(s, id, claim, workerNow, now).0;
            var (u, outcome) := Claim(t, id, again, workerLater, later);
            && Holds(t, id, claim)
            && if workerLater < now + 60_000 then
                 && u == t && outcome.Deferred?
                 && now + 60_000 <= workerLater + 1_000 * outcome.retryAfterSeconds < now + 61_000
               else
                 && outcome == Claimed(again) && u.windows == t.windows && Holds(u, id, again)
                 && u.events[id].claimedUntil == Some(later + 60_000)
                 && (again != claim ==>
                       && Release(u, id, claim) == u
                       && forall completion, at :: Complete(u, id, claim, completion, at) == (u, false))
  {
    if workerLater < now + 60_000 {
      SecondsUntilReaches(now + 60_000, workerLater);
    }
  }

  // ---------------------------------------------------------------------------------------
  // What a job is answered
  // ---------------------------------------------------------------------------------------

  /** The events decided in a minute for everybody, for one account, for one user. */
  ghost function DecidedInAll(s: State, minute: int): int {
    Sum(s.events, Decided(Window(System, minute)))
  }

  ghost function DecidedForAccount(s: State, account: AccountId, minute: int): int {
    Sum(s.events, Decided(Window(Identity(account), minute)))
  }

  ghost function DecidedForUser(s: State, user: UserId, minute: int): int {
    Sum(s.events, Decided(Window(User(user), minute)))
  }

  /** The event waits for a worker: nobody holds it, or its holder is overdue. */
  predicate Free(e: Event, workerNow: int) {
    e.status == Pending || (e.status == Processing && e.claimedUntil.Some? && e.claimedUntil.value <= workerNow)
  }

  /** A free event is claimed, unless it is met for the first time in a minute in which 300 events, or 30 of
      its account, were decided before; then it is suppressed. Events that are over or held are left alone. */
  lemma EventClaimDecides(s: State, id: EventId, claim: ClaimId, workerNow: int, now: int)
    requires IntakeInvariant(s)
    ensures var (t, outcome) := Claim(s, id, claim, workerNow, now);
            if id !in s.events then outcome == NotFound && t == s
            else
              var e, minute := s.events[id], now / 60_000;
              var full := DecidedInAll(s, minute) >= 300 || DecidedForAccount(s, e.account, minute) >= 30;
              if !Free(e, workerNow) then
                && t == s
                && (outcome == Duplicate <==> e.status == Processed || e.status == Suppressed)
                && (outcome.Deferred? <==> e.status == Processing)
              else
                && outcome == (if e.abuse.None? && full then RateLimited else Claimed(claim))
                && t.commands == s.commands
                && t.events == s.events[id :=
                     if e.abuse.None? && full then
                       e.(status := Suppressed, ending := Some(AbuseLimited), processedAt := Some(now), claim := None,
                          claimedUntil := None, abuse := Some(Verdict(false, now)))
                     else
                       e.(status := Processing, claim := Some(claim), claimedUntil := Some(now + 60_000),
                          attempts := e.attempts + 1,
                          abuse := if e.abuse.None? then Some(Verdict(true, now)) else e.abuse)]
                && forall window ::
                     WindowCount(t.windows, window) - WindowCount(s.windows, window) ==
                     if e.abuse.None? && window.minute == minute &&
                        (window.scope == System || window.scope == Identity(e.account)) then 1 else 0
  {
    hide IntakeInvariant, WindowFits, OneEventPerUpdate, CommandsFit;
    if id in s.events {
      EventsFit(s, id);
      WindowsCount(s, Window(System, MinuteOf(now)));
      WindowsCount(s, Window(Identity(s.events[id].account), MinuteOf(now)));
    }
  }

  lemma WindowsCount(s: State, window: Window)
    requires IntakeInvariant(s)
    ensures WindowCount(s.windows, window) == Sum(s.events, Decided(window))
  {
    hide EventFits, OneEventPerUpdate, CommandsFit;
    assert WindowFits(s.events, s.windows, window);
  }

  /** The window of a user admits an event that is met for the first time if and only if fewer than thirty
      events of the user were decided in that minute before; otherwise the event is suppressed. */
  lemma UserLimitDecides(s: State, id: EventId, claim: ClaimId, user: UserId, now: int)
    requires IntakeInvariant(s) && Holds(s, id, claim)
    ensures var (t, outcome) := EnforceUserLimit(s, id, claim, user, now);
            var e, minute := s.events[id], now / 60_000;
            var full := DecidedForUser(s, user, minute) >= 30;
            && outcome == (if e.userAbuse.None? && full then UserRateLimited else Allowed)
            && t.commands == s.commands
            && t.events == s.events[id :=
                 if e.userAbuse.Some? then e
                 else if full then
                   e.(status := Suppressed, ending := Some(UserAbuseLimited), processedAt := Some(now), claim := None,
                      claimedUntil := None, userAbuse := Some(UserVerdict(false, now, user)))
                 else e.(userAbuse := Some(UserVerdict(true, now, user)))]
            && forall window ::
                 WindowCount(t.windows, window) - WindowCount(s.windows, window) ==
                 if e.userAbuse.None? && window == Window(User(user), minute) then 1 else 0
  {
    hide IntakeInvariant, WindowFits, OneEventPerUpdate, CommandsFit;
    EventsFit(s, id);
    WindowsCount(s, Window(User(user), MinuteOf(now)));
  }

  /** A worker that does not hold the event can do nothing with it. */
  lemma StaleWorkerIsHarmless(s: State, id: EventId, claim: ClaimId, user: UserId, completion: Completion, now: int)
    requires !Holds(s, id, claim)
    ensures EnforceUserLimit(s, id, claim, user, now) == (s, UserLimitUnavailable)
    ensures Complete(s, id, claim, completion, now) == (s, false)
    ensures Release(s, id, claim) == s
  {
  }

  // ---------------------------------------------------------------------------------------
  // Arrival, completion and release
  // ---------------------------------------------------------------------------------------

  /** An update is accepted if and only if it was never seen and its new id is free; it then waits for its
      first job with the content that came with it. */
  lemma ArrivalDecides(s: State, id: EventId, update: UpdateId, account: AccountId, content: Content)
    ensures var (t, outcome) := Persist(s, id, update, account, content);
            && (outcome == DuplicateUpdate <==> exists e :: e in s.events && s.events[e].update == update)
            && (outcome == Accepted <==> id !in s.events && !exists e :: e in s.events && s.events[e].update == update)
            && (outcome != Accepted ==> t == s)
            && (outcome == Accepted ==>
                  && id in t.events && t == s.(events := s.events[id := t.events[id]])
                  && var e := t.events[id];
                  && e.update == update && e.account == account && e.content == content
                  && e.status == Pending && e.abuse.None? && e.userAbuse.None? && e.attempts == 0)
  {
  }

  /** Only the holder completes an event; whoever asks for it afterwards is told that it is done. */
  lemma CompletionDecides(
      s: State, id: EventId, claim: ClaimId, completion: Completion, now: int, again: ClaimId, workerNow: int,
      later: int)
    ensures var (t, completed) := Complete(s, id, claim, completion, now);
            && (completed <==> Holds(s, id, claim))
            && (!completed ==> t == s)
            && (completed ==>
                  && Claim(t, id, again, workerNow, later) == (t, Duplicate)
                  && t.windows == s.windows && id in t.events && t.events == s.events[id := t.events[id]]
                  && t.commands ==
                     (match completion
                      case LinkedTextAccepted(actor, text, _) => s.commands[id := Command(actor, text)]
                      case _ => s.commands)
                  && var e := t.events[id];
                  && e.status == Processed && e.processedAt == Some(now)
                  && e.userAbuse == s.events[id].userAbuse && e.content == s.events[id].content
                  && match completion
                     case LinkedTextAccepted(actor, _, _) => e.ending == Some(TextAccepted) && e.owner == Some(actor)
                     case ScopedReply(actor, _) => e.ending == Some(ScopedReplyCreated) && e.owner == Some(actor)
                     case UnscopedReply(_) => e.ending == Some(UnscopedReplyCreated) && e.owner.None?)
  {
  }

  /** A released event is claimed by the next job at once, and no window counts it again. */
  lemma ReleaseDecides(s: State, id: EventId, claim: ClaimId, again: ClaimId, workerNow: int, later: int)
    requires IntakeInvariant(s)
    ensures var t := Release(s, id, claim);
            if Holds(s, id, claim) then
              var (u, outcome) := Claim(t, id, again, workerNow, later);
              && outcome == Claimed(again) && u.windows == t.windows == s.windows && !Holds(t, id, claim)
            else t == s
  {
    hide WindowFits, OneEventPerUpdate, CommandsFit;
  }
}
