/** Inbound Telegram events: deduplication of webhook deliveries, leased processing claims and the
    per-minute abuse windows. Times are in milliseconds; a worker's clock and the database's clock
    are separate inputs. */
module Intake {
  import opened Common
  import opened TelegramContent

  type EventId = nat
  type UpdateId = nat
  type AccountId = nat
  type UserId = nat
  type ClaimId = nat

  datatype EventStatus = Pending | Processing | Processed | Suppressed

  /** The decision of the system and account windows. */
  datatype Verdict = Verdict(allowed: bool, checkedAt: int)

  /** The decision of a user's window. The user is history: the row itself keeps only the verdict. */
  datatype UserVerdict = UserVerdict(allowed: bool, checkedAt: int, user: UserId)

  /** How the processing of an event ended. */
  datatype Ending = TextAccepted | ScopedReplyCreated | UnscopedReplyCreated | AbuseLimited | UserAbuseLimited

  datatype Event = Event(
    update: UpdateId,
    account: AccountId,
    content: Content,
    status: EventStatus,
    ending: Option<Ending>,
    owner: Option<Actor>,
    claim: Option<ClaimId>,
    claimedUntil: Option<int>,
    attempts: nat,
    abuse: Option<Verdict>,
    userAbuse: Option<UserVerdict>,
    processedAt: Option<int>)

  datatype Scope = System | Identity(account: AccountId) | User(user: UserId)

  datatype Window = Window(scope: Scope, minute: int)

  /** A text accepted from a linked account, for the owner it had then. */
  datatype Command = Command(owner: Actor, text: string)

  datatype State = State(events: map<EventId, Event>, windows: map<Window, nat>, commands: map<EventId, Command>)

  const LEASE: nat := 60_000

  /** Events a scope admits per minute. */
  function Limit(scope: Scope): nat {
    if scope.System? then 300 else 30
  }

  function MinuteOf(time: int): int {
    time / 60_000
  }

  predicate Terminal(e: Event) {
    e.status == Processed || e.status == Suppressed
  }

  function WindowCount(windows: map<Window, nat>, window: Window): nat {
    if window in windows then windows[window] else 0
  }

  function Bump(windows: map<Window, nat>, window: Window): map<Window, nat> {
    windows[window := WindowCount(windows, window) + 1]
  }

  // ---------------------------------------------------------------------------------------
  // Transactions
  // ---------------------------------------------------------------------------------------

  datatype PersistOutcome = Accepted | DuplicateUpdate | PersistUnavailable

  predicate Known(s: State, update: UpdateId) {
    exists id :: id in s.events && s.events[id].update == update
  }

  function NewEvent(update: UpdateId, account: AccountId, content: Content): Event {
    Event(update, account, content, Pending, None, None, None, None, 0, None, None, None)
  }

  /** The first webhook delivery of an update inserts an event; every other one changes nothing. */
  function Persist(s: State, id: EventId, update: UpdateId, account: AccountId, content: Content)
    : (State, PersistOutcome)
  {
    if Known(s, update) then (s, DuplicateUpdate)
    else if id in s.events then (s, PersistUnavailable)
    else (s.(events := s.events[id := NewEvent(update, account, content)]), Accepted)
  }

  datatype ClaimOutcome =
    | Claimed(claim: ClaimId)
    | Duplicate
    | Deferred(retryAfterSeconds: int)
    | RateLimited
    | NotFound

  function SuppressedEvent(e: Event, now: int): Event {
    e.(status := Suppressed, ending := Some(AbuseLimited), processedAt := Some(now), claim := None,
       claimedUntil := None, abuse := Some(Verdict(false, now)))
  }

  function LeasedEvent(e: Event, claim: ClaimId, now: int): Event {
    e.(status := Processing, claim := Some(claim), claimedUntil := Some(now + LEASE), attempts := e.attempts + 1,
       abuse := if e.abuse.Some? then e.abuse else Some(Verdict(true, now)))
  }

  function Claim(s: State, id: EventId, claim: ClaimId, workerNow: int, now: int): (State, ClaimOutcome) {
    if id !in s.events then (s, NotFound)
    else
      var e := s.events[id];
      if Terminal(e) then (s, Duplicate)
      else if e.status == Processing && e.claimedUntil.Some? && e.claimedUntil.value > workerNow then
        (s, Deferred(SecondsUntil(e.claimedUntil.value, workerNow)))
      else if e.abuse.Some? && !e.abuse.value.allowed then (s, RateLimited)
      else if e.abuse.Some? then (s.(events := s.events[id := LeasedEvent(e, claim, now)]), Claimed(claim))
      else
        var system := Window(System, MinuteOf(now));
        var identity := Window(Identity(e.account), MinuteOf(now));
        var windows := Bump(Bump(s.windows, system), identity);
        if windows[system] <= Limit(System) && windows[identity] <= Limit(identity.scope) then
          (s.(events := s.events[id := LeasedEvent(e, claim, now)], windows := windows), Claimed(claim))
        else
          (s.(events := s.events[id := SuppressedEvent(e, now)], windows := windows), RateLimited)
  }

  predicate Holds(s: State, id: EventId, claim: ClaimId) {
    id in s.events && s.events[id].status == Processing && s.events[id].claim == Some(claim)
  }

  datatype UserLimitOutcome = Allowed | UserRateLimited | UserLimitUnavailable

  function UserCheckedEvent(e: Event, allowed: bool, user: UserId, now: int): Event {
    var checked := e.(userAbuse := Some(UserVerdict(allowed, now, user)));
    if allowed then checked
    else checked.(status := Suppressed, ending := Some(UserAbuseLimited), processedAt := Some(now), claim := None,
                  claimedUntil := None)
  }

  /** A decision is taken once per event; a later claim reuses it. */
  function EnforceUserLimit(s: State, id: EventId, claim: ClaimId, user: UserId, now: int): (State, UserLimitOutcome) {
    if !Holds(s, id, claim) then (s, UserLimitUnavailable)
    else
      var e := s.events[id];
      if e.userAbuse.Some? then (s, if e.userAbuse.value.allowed then Allowed else UserRateLimited)
      else
        var window := Window(User(user), MinuteOf(now));
        var windows := Bump(s.windows, window);
        var allowed := windows[window] <= Limit(window.scope);
        (s.(events := s.events[id := UserCheckedEvent(e, allowed, user, now)], windows := windows),
         if allowed then Allowed else UserRateLimited)
  }

  function EndingOf(completion: Completion): Ending {
    match completion
    case LinkedTextAccepted(_, _, _) => TextAccepted
    case ScopedReply(_, _) => ScopedReplyCreated
    case UnscopedReply(_) => UnscopedReplyCreated
  }

  function ProcessedEvent(e: Event, completion: Completion, now: int): Event {
    e.(status := Processed, ending := Some(EndingOf(completion)), owner := ActorOf(completion),
       processedAt := Some(now), claim := None, claimedUntil := None)
  }

  /** Only the current claim completes an event. The same transaction records an accepted text and inserts
      the reply rows. */
  function Complete(s: State, id: EventId, claim: ClaimId, completion: Completion, now: int): (State, bool) {
    if !Holds(s, id, claim) then (s, false)
    else
      (s.(events := s.events[id := ProcessedEvent(s.events[id], completion, now)],
          commands := if completion.LinkedTextAccepted? then
                        s.commands[id := Command(completion.actor, completion.text)]
                      else s.commands),
       true)
  }

  function ReleasedEvent(e: Event): Event {
    e.(status := Pending, claim := None, claimedUntil := None)
  }

  function Release(s: State, id: EventId, claim: ClaimId): State {
    if Holds(s, id, claim) then s.(events := s.events[id := ReleasedEvent(s.events[id])]) else s
  }

  // ---------------------------------------------------------------------------------------
  // Invariant
  // ---------------------------------------------------------------------------------------

  /** The CHECK constraints of the events table, and that a stored refusal is always terminal. */
  predicate EventFits(e: Event) {
    && (e.claim.Some? <==> e.claimedUntil.Some?)
    && (e.claim.Some? <==> e.status == Processing)
    && (e.processedAt.Some? <==> Terminal(e))
    && (e.ending.Some? <==> Terminal(e))
    && (e.owner.Some? ==> e.status == Processed)
    && (e.ending == Some(TextAccepted) ==> e.status == Processed)
    && (e.status == Processing ==> e.abuse.Some? && e.abuse.value.allowed)
    && (e.abuse.Some? && !e.abuse.value.allowed ==> e.status == Suppressed)
    && (e.userAbuse.Some? ==> e.abuse.Some?)
    && (e.userAbuse.Some? && !e.userAbuse.value.allowed ==> e.status == Suppressed)
  }

  /** Whether the event was decided in this minute for this scope. */
  predicate DecidedIn(e: Event, window: Window) {
    match window.scope
    case System => e.abuse.Some? && MinuteOf(e.abuse.value.checkedAt) == window.minute
    case Identity(account) =>
      e.account == account && e.abuse.Some? && MinuteOf(e.abuse.value.checkedAt) == window.minute
    case User(user) =>
      e.userAbuse.Some? && e.userAbuse.value.user == user && MinuteOf(e.userAbuse.value.checkedAt) == window.minute
  }

  predicate AdmittedIn(e: Event, window: Window) {
    && DecidedIn(e, window)
    && (if window.scope.User? then e.userAbuse.value.allowed else e.abuse.value.allowed)
  }

  function Decided(window: Window): Event -> int {
    (e: Event) => if DecidedIn(e, window) then 1 else 0
  }

  function Admitted(window: Window): Event -> int {
    (e: Event) => if AdmittedIn(e, window) then 1 else 0
  }

  /** A window's counter is the number of events decided in it, and no more than its limit of them
      were admitted. */
  ghost predicate WindowFits(events: map<EventId, Event>, windows: map<Window, nat>, window: Window) {
    && WindowCount(windows, window) == Sum(events, Decided(window))
    && Sum(events, Admitted(window)) <= Limit(window.scope)
  }

  ghost predicate OneEventPerUpdate(events: map<EventId, Event>) {
    forall a, b :: a in events && b in events && events[a].update == events[b].update ==> a == b
  }

  /** Accepted texts are recorded exactly for the events that ended so, with the event's owner. */
  ghost predicate CommandsFit(events: map<EventId, Event>, commands: map<EventId, Command>) {
    forall id :: CommandFits(events, commands, id)
  }

  predicate CommandFits(events: map<EventId, Event>, commands: map<EventId, Command>, id: EventId) {
    && (id in commands <==> id in events && events[id].ending == Some(TextAccepted))
    && (id in commands && id in events ==> events[id].owner == Some(commands[id].owner))
  }

  ghost predicate IntakeInvariant(s: State) {
    && (forall id :: id in s.events ==> EventFits(s.events[id]))
    && OneEventPerUpdate(s.events)
    && CommandsFit(s.events, s.commands)
    && (forall window :: WindowFits(s.events, s.windows, window))
  }

  /** What no transaction may undo: events stay, keep their update, account and content, a processed or
      suppressed event never changes again, and an accepted text stays as it is. */
  ghost predicate Evolves(s: State, t: State) {
    && (forall id :: id in s.events ==>
          && id in t.events
          && t.events[id].update == s.events[id].update
          && t.events[id].account == s.events[id].account
          && t.events[id].content == s.events[id].content
          && (Terminal(s.events[id]) ==> t.events[id] == s.events[id]))
    && (forall id :: id in s.commands ==> id in t.commands && t.commands[id] == s.commands[id])
  }

  /** Rewriting an event's row and bumping exactly the windows it is newly decided in keeps a window
      exact; it stays within its limit if the event is admitted only where the new count allows. */
  lemma WindowAfterWrite(
      events: map<EventId, Event>, windows: map<Window, nat>, id: EventId, e: Event, counted: map<Window, nat>,
      window: Window)
    requires WindowFits(events, windows, window)
    requires WindowCount(counted, window) == WindowCount(windows, window) + Decided(window)(e)
                                             - (if id in events then Decided(window)(events[id]) else 0)
    requires Admitted(window)(e) <= (if id in events then Admitted(window)(events[id]) else 0)
             || WindowCount(counted, window) <= Limit(window.scope)
    ensures WindowFits(events[id := e], counted, window)
  {
    SumWrite(events, Decided(window), id, e);
    SumWrite(events, Admitted(window), id, e);
    SumMonotone(events[id := e], Admitted(window), Decided(window));
  }

  lemma PersistKeeps(s: State, id: EventId, update: UpdateId, account: AccountId, content: Content)
    requires IntakeInvariant(s)
    ensures IntakeInvariant(Persist(s, id, update, account, content).0)
    ensures Evolves(s, Persist(s, id, update, account, content).0)
  {
    var t := Persist(s, id, update, account, content).0;
    if t != s {
      InsertKeepsWindows(s, t, id);
      InsertKeepsRows(s, t, id);
      hide WindowFits, CommandsFit, OneEventPerUpdate, EventFits;
    }
  }

  lemma InsertKeepsWindows(s: State, t: State, id: EventId)
    requires IntakeInvariant(s) && id !in s.events && id in t.events && t == s.(events := s.events[id := t.events[id]])
    requires t.events[id].abuse.None? && t.events[id].userAbuse.None?
    ensures forall window :: WindowFits(t.events, t.windows, window)
  {
    hide WindowFits, EventFits, CommandsFit;
    forall window ensures WindowFits(t.events, t.windows, window) {
      WindowAfterWrite(s.events, s.windows, id, t.events[id], s.windows, window);
    }
  }

  lemma InsertKeepsRows(s: State, t: State, id: EventId)
    requires IntakeInvariant(s) && id !in s.events && id in t.events && t == s.(events := s.events[id := t.events[id]])
    requires EventFits(t.events[id]) && t.events[id].ending.None? && !Known(s, t.events[id].update)
    ensures (forall e :: e in t.events ==> EventFits(t.events[e])) && OneEventPerUpdate(t.events)
    ensures CommandsFit(t.events, t.commands)
  {
    hide WindowFits, EventFits;
    forall c ensures CommandFits(t.events, t.commands, c) {
      assert CommandFits(s.events, s.commands, c);
    }
  }

  /** What a change of one event's row, of the counters and of its command has to satisfy to keep the
      invariant. */
  ghost predicate SoundRewrite(s: State, t: State, id: EventId)
    requires id in s.events && id in t.events
  {
    var e := t.events[id];
    && t.events == s.events[id := e]
    && e.update == s.events[id].update
    && e.account == s.events[id].account
    && e.content == s.events[id].content
    && !Terminal(s.events[id])
    && EventFits(e)
    && (forall window :: CountsOnce(s, t, id, window))
    && (if e.ending != Some(TextAccepted) then t.commands == s.commands
        else e.owner.Some? && exists text :: t.commands == s.commands[id := Command(e.owner.value, text)])
  }

  ghost predicate CountsOnce(s: State, t: State, id: EventId, window: Window)
    requires id in s.events && id in t.events
  {
    var e := t.events[id];
    && WindowCount(t.windows, window) ==
       WindowCount(s.windows, window) + Decided(window)(e) - Decided(window)(s.events[id])
    && (Admitted(window)(e) <= Admitted(window)(s.events[id]) || WindowCount(t.windows, window) <= Limit(window.scope))
  }

  lemma RewriteKeeps(s: State, t: State, id: EventId)
    requires IntakeInvariant(s) && id in s.events && id in t.events && SoundRewrite(s, t, id)
    ensures IntakeInvariant(t) && Evolves(s, t)
  {
    RewriteKeepsCommands(s, t, id);
    RewriteKeepsWindows(s, t, id);
    RewriteKeepsRows(s, t, id);
    hide WindowFits, CommandsFit, CountsOnce, EventFits, OneEventPerUpdate, SoundRewrite;
  }

  lemma RewriteKeepsRows(s: State, t: State, id: EventId)
    requires IntakeInvariant(s) && id in s.events && id in t.events && SoundRewrite(s, t, id)
    ensures forall e :: e in t.events ==> EventFits(t.events[e])
    ensures OneEventPerUpdate(t.events)
    ensures forall e :: e in s.events ==>
              && e in t.events
              && t.events[e].update == s.events[e].update
              && t.events[e].account == s.events[e].account
              && t.events[e].content == s.events[e].content
              && (Terminal(s.events[e]) ==> t.events[e] == s.events[e])
  {
    hide WindowFits, CommandsFit, CountsOnce, EventFits;
  }

  lemma RewriteKeepsWindows(s: State, t: State, id: EventId)
    requires IntakeInvariant(s) && id in s.events && id in t.events && SoundRewrite(s, t, id)
    ensures forall window :: WindowFits(t.events, t.windows, window)
  {
    hide WindowFits, EventFits, CommandsFit;
    forall window ensures WindowFits(t.events, t.windows, window) {
      assert CountsOnce(s, t, id, window);
      WindowAfterWrite(s.events, s.windows, id, t.events[id], t.windows, window);
    }
  }

  lemma RewriteKeepsCommands(s: State, t: State, id: EventId)
    requires IntakeInvariant(s) && id in s.events && id in t.events && SoundRewrite(s, t, id)
    ensures CommandsFit(t.events, t.commands)
    ensures forall c :: c in s.commands ==> c in t.commands && t.commands[c] == s.commands[c]
  {
    EventsFit(s, id);
    assert CommandsFit(s.events, s.commands);
    hide WindowFits, CountsOnce, OneEventPerUpdate, IntakeInvariant;
    assert CommandFits(s.events, s.commands, id);
    forall c ensures CommandFits(t.events, t.commands, c) {
      assert CommandFits(s.events, s.commands, c);
    }
  }

  lemma ClaimKeeps(s: State, id: EventId, claim: ClaimId, workerNow: int, now: int)
    requires IntakeInvariant(s)
    ensures IntakeInvariant(Claim(s, id, claim, workerNow, now).0)
    ensures Evolves(s, Claim(s, id, claim, workerNow, now).0)
  {
    hide IntakeInvariant;
    var t := Claim(s, id, claim, workerNow, now).0;
    if t != s {
      EventsFit(s, id);
      RewriteKeeps(s, t, id);
    }
  }

  lemma EnforceUserLimitKeeps(s: State, id: EventId, claim: ClaimId, user: UserId, now: int)
    requires IntakeInvariant(s)
    ensures IntakeInvariant(EnforceUserLimit(s, id, claim, user, now).0)
    ensures Evolves(s, EnforceUserLimit(s, id, claim, user, now).0)
  {
    hide IntakeInvariant;
    var t := EnforceUserLimit(s, id, claim, user, now).0;
    if t != s {
      EventsFit(s, id);
      RewriteKeeps(s, t, id);
    }
  }

  lemma CompleteKeeps(s: State, id: EventId, claim: ClaimId, completion: Completion, now: int)
    requires IntakeInvariant(s)
    ensures IntakeInvariant(Complete(s, id, claim, completion, now).0)
    ensures Evolves(s, Complete(s, id, claim, completion, now).0)
  {
    hide IntakeInvariant;
    var t := Complete(s, id, claim, completion, now).0;
    if t != s {
      EventsFit(s, id);
      RewriteKeeps(s, t, id);
    }
  }

  lemma ReleaseKeeps(s: State, id: EventId, claim: ClaimId)
    requires IntakeInvariant(s)
    ensures IntakeInvariant(Release(s, id, claim))
    ensures Evolves(s, Release(s, id, claim))
  {
    hide IntakeInvariant;
    var t := Release(s, id, claim);
    if t != s {
      EventsFit(s, id);
      RewriteKeeps(s, t, id);
    }
  }

  lemma EventsFit(s: State, id: EventId)
    requires IntakeInvariant(s) && id in s.events
    ensures EventFits(s.events[id])
  {
  }

  /** The branch that answers from a stored refusal is unreachable: a rate-limited claim is always a
      decision taken by this very call, on an event that no window has counted before. */
  lemma StoredRefusalUnreachable(s: State, id: EventId, claim: ClaimId, workerNow: int, now: int)
    requires IntakeInvariant(s)
    requires Claim(s, id, claim, workerNow, now).1 == RateLimited
    ensures s.events[id].abuse.None?
    ensures Claim(s, id, claim, workerNow, now).0.events[id] == SuppressedEvent(s.events[id], now)
    ensures WindowCount(s.windows, Window(System, MinuteOf(now))) >= 300
            || WindowCount(s.windows, Window(Identity(s.events[id].account), MinuteOf(now))) >= 30
  {
    assert EventFits(s.events[id]);
  }

  /** A deferred worker that waits as long as it is told to finds the lease it met expired. */
  lemma DeferralReachesLeaseEnd(s: State, id: EventId, claim: ClaimId, workerNow: int, now: int)
    requires Claim(s, id, claim, workerNow, now).1.Deferred?
    ensures var again := workerNow + Claim(s, id, claim, workerNow, now).1.retryAfterSeconds * 1_000;
            !Claim(s, id, claim, again, again).1.Deferred?
  {
    SecondsUntilReaches(s.events[id].claimedUntil.value, workerNow);
  }

  /** A user's event is refused only when the user's window is full, and the decision is final: asking
      again, for whatever user, changes neither the verdict nor a counter. */
  lemma UserVerdictIsFinal(s: State, id: EventId, claim: ClaimId, user: UserId, now: int, other: UserId, later: int)
    requires IntakeInvariant(s) && Holds(s, id, claim)
    ensures var (t, outcome) := EnforceUserLimit(s, id, claim, user, now);
            && outcome != UserLimitUnavailable
            && (outcome == UserRateLimited ==> WindowCount(s.windows, Window(User(user), MinuteOf(now))) >= 30)
            && (outcome == UserRateLimited ==> t.events[id].status == Suppressed)
            && (outcome == Allowed ==> EnforceUserLimit(t, id, claim, other, later) == (t, Allowed))
  {
    EventsFit(s, id);
  }
}
