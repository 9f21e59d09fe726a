/** One-use link and unlink challenges, the historical link rows they write, and the sliding window
    that limits how many a user may create. Times are non-negative milliseconds. */
module Identity {
  import opened Common

  type UserId = nat
  type LedgerId = nat
  type AccountId = nat
  type IdentityId = nat
  /** The digest of a token; the token itself is never stored. */
  type Digest = nat

  datatype Actor = Actor(user: UserId, ledger: LedgerId)

  /** A link between a Telegram account and an owner; unlinking keeps the row. linkedBy is history. */
  datatype IdentityRow = IdentityRow(
    owner: Actor, account: AccountId, linkedAt: nat, unlinkedAt: Option<nat>, linkedBy: Digest)

  datatype Purpose = Link | Unlink(target: IdentityId)

  datatype Challenge = Challenge(owner: Actor, purpose: Purpose, createdAt: nat, expiresAt: nat,
      consumedAt: Option<nat>)

  /** Every user has at most one ledger. */
  datatype State = State(
    ledgers: map<UserId, LedgerId>,
    identities: map<IdentityId, IdentityRow>,
    challenges: map<Digest, Challenge>)

  const LIFETIME: nat := 600_000
  const WINDOW: nat := 3_600_000
  const MAXIMUM_PER_WINDOW: nat := 5

  // ---------------------------------------------------------------------------------------
  // Creating challenges
  // ---------------------------------------------------------------------------------------

  /** Challenges a user created at or after an instant. */
  function Recent(challenges: map<Digest, Challenge>, user: UserId, since: int): set<Digest> {
    set d | d in challenges && challenges[d].owner.user == user && challenges[d].createdAt >= since
  }

  function Since(now: nat): nat {
    Max(0, now - WINDOW)
  }

  predicate IsOldest(challenges: map<Digest, Challenge>, among: set<Digest>, d: Digest) {
    d in among && d in challenges &&
    forall e :: e in among && e in challenges ==> challenges[d].createdAt <= challenges[e].createdAt
  }

  lemma {:induction false} OldestExists(challenges: map<Digest, Challenge>, among: set<Digest>)
    requires among != {} && among <= challenges.Keys
    ensures exists d :: IsOldest(challenges, among, d)
    decreases among
  {
    var d :| d in among;
    if among == {d} {
      assert IsOldest(challenges, among, d);
    } else {
      OldestExists(challenges, among - {d});
      var e :| IsOldest(challenges, among - {d}, e);
      assert IsOldest(challenges, among, if challenges[d].createdAt <= challenges[e].createdAt then d else e);
    }
  }

  ghost function OldestCreation(challenges: map<Digest, Challenge>, among: set<Digest>): nat
    requires among != {} && among <= challenges.Keys
  {
    OldestExists(challenges, among);
    var d :| IsOldest(challenges, among, d);
    challenges[d].createdAt
  }

  datatype CreateOutcome =
    | Stored
    | RateLimited(retryAfterSeconds: int)
    | AuthorityNotFound
    | TargetNotFound
    | CreateUnavailable

  predicate HasAuthority(s: State, actor: Actor) {
    actor.user in s.ledgers && s.ledgers[actor.user] == actor.ledger
  }

  predicate Targets(s: State, actor: Actor, purpose: Purpose) {
    purpose.Unlink? ==>
      && purpose.target in s.identities
      && s.identities[purpose.target].owner == actor
      && s.identities[purpose.target].unlinkedAt.None?
  }

  /** Both create operations; they differ in the unlink target only. A repeated digest violates its
      unique constraint, and the transaction changes nothing. */
  ghost function Create(s: State, actor: Actor, purpose: Purpose, digest: Digest, now: nat): (State, CreateOutcome) {
    var recent := Recent(s.challenges, actor.user, Since(now));
    if !HasAuthority(s, actor) then (s, AuthorityNotFound)
    else if !Targets(s, actor, purpose) then (s, TargetNotFound)
    else if |recent| >= MAXIMUM_PER_WINDOW then
      (s, RateLimited(SecondsUntil(OldestCreation(s.challenges, recent) + (now - Since(now)), now)))
    else if digest in s.challenges then (s, CreateUnavailable)
    else (s.(challenges := s.challenges[digest := Challenge(actor, purpose, now, now + LIFETIME, None)]), Stored)
  }

  // ---------------------------------------------------------------------------------------
  // Consuming challenges
  // ---------------------------------------------------------------------------------------

  datatype ConsumeOutcome =
    | Linked(identity: IdentityId, actor: Actor)
    | Unlinked(identity: IdentityId)
    | ChallengeNotFound
    | AlreadyConsumed
    | Expired
    | AlreadyLinked
    | IdentityNotFound
    | DoesNotMatch
    | ConsumeUnavailable

  predicate Active(s: State, id: IdentityId, account: AccountId) {
    id in s.identities && s.identities[id].account == account && s.identities[id].unlinkedAt.None?
  }

  predicate IsLinked(s: State, account: AccountId) {
    exists id :: id in s.identities && Active(s, id, account)
  }

  function Consumed(s: State, digest: Digest, now: nat): map<Digest, Challenge>
    requires digest in s.challenges
  {
    s.challenges[digest := s.challenges[digest].(consumedAt := Some(now))]
  }

  /** A challenge may not be consumed before it was created: the row constraint rolls the
      transaction back. */
  function ConsumeLink(s: State, digest: Digest, account: AccountId, id: IdentityId, now: nat)
    : (State, ConsumeOutcome)
  {
    if digest !in s.challenges || !s.challenges[digest].purpose.Link? then (s, ChallengeNotFound)
    else
      var challenge := s.challenges[digest];
      if challenge.consumedAt.Some? then (s, AlreadyConsumed)
      else if now < challenge.createdAt then (s, ConsumeUnavailable)
      else if challenge.expiresAt <= now then (s.(challenges := Consumed(s, digest, now)), Expired)
      else if IsLinked(s, account) then (s.(challenges := Consumed(s, digest, now)), AlreadyLinked)
      else if id in s.identities then (s, ConsumeUnavailable)
      else
        (s.(challenges := Consumed(s, digest, now),
            identities := s.identities[id := IdentityRow(challenge.owner, account, now, None, digest)]),
         Linked(id, challenge.owner))
  }

  /** A challenge presented by another account is refused without being consumed. */
  function ConsumeUnlink(s: State, digest: Digest, account: AccountId, now: nat): (State, ConsumeOutcome) {
    if digest !in s.challenges || !s.challenges[digest].purpose.Unlink? then (s, ChallengeNotFound)
    else
      var challenge := s.challenges[digest];
      var id := challenge.purpose.target;
      if id !in s.identities || s.identities[id].owner != challenge.owner then (s, ChallengeNotFound)
      else
        var identity := s.identities[id];
        if challenge.consumedAt.Some? then (s, AlreadyConsumed)
        else if challenge.expiresAt <= now then (s.(challenges := Consumed(s, digest, now)), Expired)
        else if identity.unlinkedAt.Some? then
          if now < challenge.createdAt then (s, ConsumeUnavailable)
          else (s.(challenges := Consumed(s, digest, now)), IdentityNotFound)
        else if identity.account != account then (s, DoesNotMatch)
        else if now < challenge.createdAt || now < identity.linkedAt then (s, ConsumeUnavailable)
        else
          (s.(challenges := Consumed(s, digest, now),
              identities := s.identities[id := identity.(unlinkedAt := Some(now))]),
           Unlinked(id))
  }

  datatype Resolution = Resolved(identity: IdentityId, actor: Actor) | NotLinked

  /** The owner of an account: its active link whose ledger still belongs to its user. */
  function Resolvable(s: State, account: AccountId): set<IdentityId> {
    set id | id in s.identities && Active(s, id, account) && HasAuthority(s, s.identities[id].owner)
  }

  ghost function Resolve(s: State, account: AccountId): Resolution {
    if |Resolvable(s, account)| != 1 then NotLinked
    else
      var id :| id in Resolvable(s, account);
      Resolved(id, s.identities[id].owner)
  }

  /** The first visit of a web user provisions a ledger. */
  function Provision(s: State, user: UserId, ledger: LedgerId): State {
    if user in s.ledgers then s else s.(ledgers := s.ledgers[user := ledger])
  }

  // ---------------------------------------------------------------------------------------
  // Runs
  // ---------------------------------------------------------------------------------------

  datatype Event =
    | Visit(user: UserId, ledger: LedgerId)
    | AskChallenge(actor: Actor, purpose: Purpose, digest: Digest, now: nat)
    | PresentLink(digest: Digest, account: AccountId, id: IdentityId, now: nat)
    | PresentUnlink(digest: Digest, account: AccountId, now: nat)

  ghost function Step(s: State, e: Event): State {
    match e
    case Visit(user, ledger) => Provision(s, user, ledger)
    case AskChallenge(actor, purpose, digest, now) => Create(s, actor, purpose, digest, now).0
    case PresentLink(digest, account, id, now) => ConsumeLink(s, digest, account, id, now).0
    case PresentUnlink(digest, account, now) => ConsumeUnlink(s, digest, account, now).0
  }

  ghost function Run(s: State, events: seq<Event>): State
    decreases |events|
  {
    if events == [] then s else Run(Step(s, events[0]), events[1..])
  }

  const INITIAL := State(map[], map[], map[])

  // ---------------------------------------------------------------------------------------
  // Invariant
  // ---------------------------------------------------------------------------------------

  predicate ChallengeFits(s: State, c: Challenge) {
    && HasAuthority(s, c.owner)
    && c.expiresAt == c.createdAt + LIFETIME
    && (c.consumedAt.Some? ==> c.createdAt <= c.consumedAt.value)
    && (c.purpose.Unlink? ==> c.purpose.target in s.identities && s.identities[c.purpose.target].owner == c.owner)
  }

  /** The link was made by its challenge, once, after it was created and before it expired. */
  predicate IdentityFits(s: State, i: IdentityRow) {
    && HasAuthority(s, i.owner)
    && (i.unlinkedAt.Some? ==> i.linkedAt <= i.unlinkedAt.value)
    && i.linkedBy in s.challenges
    && s.challenges[i.linkedBy].purpose.Link?
    && s.challenges[i.linkedBy].owner == i.owner
    && s.challenges[i.linkedBy].consumedAt == Some(i.linkedAt)
    && s.challenges[i.linkedBy].createdAt <= i.linkedAt < s.challenges[i.linkedBy].expiresAt
  }

  /** No account has two active links, and no challenge made two links. */
  ghost predicate LinksUnique(s: State) {
    && (forall i, j, account :: Active(s, i, account) && Active(s, j, account) ==> i == j)
    && (forall i, j ::
          i in s.identities && j in s.identities && s.identities[i].linkedBy == s.identities[j].linkedBy ==> i == j)
  }

  /** Challenges of one user created within the closed hour that begins at an instant. */
  function HourOf(challenges: map<Digest, Challenge>, user: UserId, from: int): set<Digest> {
    set d | d in challenges && challenges[d].owner.user == user && from <= challenges[d].createdAt <= from + WINDOW
  }

  /** Every closed one-hour interval holds at most five challenges of a user. */
  ghost predicate WindowsFit(challenges: map<Digest, Challenge>) {
    forall user, from :: |HourOf(challenges, user, from)| <= MAXIMUM_PER_WINDOW
  }

  ghost predicate RowsFit(s: State) {
    && (forall d :: d in s.challenges ==> ChallengeFits(s, s.challenges[d]))
    && (forall i :: i in s.identities ==> IdentityFits(s, s.identities[i]))
  }

  ghost predicate IdentityInvariant(s: State) {
    && RowsFit(s)
    && LinksUnique(s)
    && WindowsFit(s.challenges)
  }

  /** Consuming a challenge does not move it in time. */
  lemma ConsumedWindows(s: State, digest: Digest, now: nat)
    requires digest in s.challenges && WindowsFit(s.challenges)
    ensures WindowsFit(Consumed(s, digest, now))
  {
    var after := Consumed(s, digest, now);
    forall user, from ensures |HourOf(after, user, from)| <= MAXIMUM_PER_WINDOW {
      assert HourOf(after, user, from) == HourOf(s.challenges, user, from);
    }
  }

  /** A challenge admitted by the count of recent ones keeps every hour within the limit, even if the
      clock runs backwards, because rows from the future are counted as recent. */
  lemma AdmittedHour(challenges: map<Digest, Challenge>, digest: Digest, c: Challenge, user: UserId, from: int)
    requires |HourOf(challenges, user, from)| <= MAXIMUM_PER_WINDOW && digest !in challenges
    requires |Recent(challenges, c.owner.user, Since(c.createdAt))| < MAXIMUM_PER_WINDOW
    ensures |HourOf(challenges[digest := c], user, from)| <= MAXIMUM_PER_WINDOW
  {
    var before := HourOf(challenges, user, from);
    var after := HourOf(challenges[digest := c], user, from);
    if user == c.owner.user && from <= c.createdAt <= from + WINDOW {
      assert after == before + {digest};
      SubsetCount(before, Recent(challenges, user, Since(c.createdAt)));
    } else {
      assert after == before;
    }
  }

  lemma AdmittedWindows(challenges: map<Digest, Challenge>, digest: Digest, c: Challenge)
    requires WindowsFit(challenges) && digest !in challenges
    requires |Recent(challenges, c.owner.user, Since(c.createdAt))| < MAXIMUM_PER_WINDOW
    ensures WindowsFit(challenges[digest := c])
  {
    hide HourOf, Recent;
    var after := challenges[digest := c];
    forall user, from ensures |HourOf(after, user, from)| <= MAXIMUM_PER_WINDOW {
      AdmittedHour(challenges, digest, c, user, from);
    }
  }

  lemma CreateKeeps(s: State, actor: Actor, purpose: Purpose, digest: Digest, now: nat)
    requires IdentityInvariant(s)
    ensures IdentityInvariant(Create(s, actor, purpose, digest, now).0)
  {
    hide WindowsFit;
    var t := Create(s, actor, purpose, digest, now).0;
    if Create(s, actor, purpose, digest, now).1 == Stored {
      AdmittedWindows(s.challenges, digest, Challenge(actor, purpose, now, now + LIFETIME, None));
      assert RowsFit(t) by {
        hide LinksUnique;
      }
      LinksStay(s, t);
    }
  }

  lemma LinksStay(s: State, t: State)
    requires LinksUnique(s)
    requires forall i :: i in t.identities ==>
               && i in s.identities
               && t.identities[i].account == s.identities[i].account
               && t.identities[i].linkedBy == s.identities[i].linkedBy
               && (t.identities[i].unlinkedAt.None? ==> s.identities[i].unlinkedAt.None?)
    ensures LinksUnique(t)
  {
    forall i, j, account | Active(t, i, account) && Active(t, j, account) ensures i == j {
      assert Active(s, i, account) && Active(s, j, account);
    }
  }

  lemma ConsumedRows(s: State, digest: Digest, now: nat)
    requires RowsFit(s) && digest in s.challenges && s.challenges[digest].consumedAt.None? &&
             s.challenges[digest].createdAt <= now
    ensures RowsFit(s.(challenges := Consumed(s, digest, now)))
  {
    hide HasAuthority;
    var t := s.(challenges := Consumed(s, digest, now));
    forall i | i in t.identities ensures IdentityFits(t, t.identities[i]) {
      assert IdentityFits(s, s.identities[i]);
      assert HasAuthority(t, t.identities[i].owner) by { SameAuthority(s, t); }
    }
    forall d | d in t.challenges ensures ChallengeFits(t, t.challenges[d]) {
      assert ChallengeFits(s, s.challenges[d]);
      assert HasAuthority(t, t.challenges[d].owner) by { SameAuthority(s, t); }
    }
  }

  lemma SameAuthority(s: State, t: State)
    requires s.ledgers == t.ledgers
    ensures forall actor :: HasAuthority(s, actor) == HasAuthority(t, actor)
  {
  }

  lemma ConsumeLinkKeeps(s: State, digest: Digest, account: AccountId, id: IdentityId, now: nat)
    requires IdentityInvariant(s)
    ensures IdentityInvariant(ConsumeLink(s, digest, account, id, now).0)
  {
    hide WindowsFit;
    var (t, outcome) := ConsumeLink(s, digest, account, id, now);
    if t != s {
      ConsumedWindows(s, digest, now);
      ConsumedRows(s, digest, now);
      var consumed := s.(challenges := Consumed(s, digest, now));
      LinksStay(s, consumed);
      if outcome.Linked? {
        assert forall i :: i in s.identities ==> s.identities[i].linkedBy != digest by {
          forall i | i in s.identities ensures s.identities[i].linkedBy != digest {
            assert IdentityFits(s, s.identities[i]);
          }
        }
        LinkedRows(consumed, t, id, digest);
        LinkedUnique(consumed, t, id);
      }
    }
  }

  lemma LinkedRows(s: State, t: State, id: IdentityId, digest: Digest)
    requires RowsFit(s) && id !in s.identities && id in t.identities
    requires t == s.(identities := s.identities[id := t.identities[id]])
    requires IdentityFits(s, t.identities[id])
    ensures RowsFit(t)
  {
    forall i | i in t.identities ensures IdentityFits(t, t.identities[i]) {
      assert i == id || IdentityFits(s, s.identities[i]);
    }
    forall d | d in t.challenges ensures ChallengeFits(t, t.challenges[d]) {
      assert ChallengeFits(s, s.challenges[d]);
    }
  }

  lemma LinkedUnique(s: State, t: State, id: IdentityId)
    requires LinksUnique(s) && id !in s.identities && id in t.identities
    requires t == s.(identities := s.identities[id := t.identities[id]])
    requires !IsLinked(s, t.identities[id].account)
    requires forall i :: i in s.identities ==> s.identities[i].linkedBy != t.identities[id].linkedBy
    ensures LinksUnique(t)
  {
    forall i, j, account | Active(t, i, account) && Active(t, j, account) ensures i == j {
      assert i == id || Active(s, i, account);
      assert j == id || Active(s, j, account);
    }
  }

  lemma ConsumeUnlinkKeeps(s: State, digest: Digest, account: AccountId, now: nat)
    requires IdentityInvariant(s)
    ensures IdentityInvariant(ConsumeUnlink(s, digest, account, now).0)
  {
    hide WindowsFit;
    var (t, outcome) := ConsumeUnlink(s, digest, account, now);
    if t != s {
      assert ChallengeFits(s, s.challenges[digest]);
      ConsumedWindows(s, digest, now);
      ConsumedRows(s, digest, now);
      var consumed := s.(challenges := Consumed(s, digest, now));
      LinksStay(s, consumed);
      if outcome.Unlinked? {
        LinksStay(consumed, t);
        UnlinkedRows(consumed, t, outcome.identity);
      }
    }
  }

  lemma UnlinkedRows(s: State, t: State, id: IdentityId)
    requires RowsFit(s) && id in s.identities && id in t.identities
    requires t == s.(identities := s.identities[id := t.identities[id]])
    requires t.identities[id] == s.identities[id].(unlinkedAt := t.identities[id].unlinkedAt)
    requires t.identities[id].unlinkedAt.Some? && s.identities[id].linkedAt <= t.identities[id].unlinkedAt.value
    ensures RowsFit(t)
  {
    forall i | i in t.identities ensures IdentityFits(t, t.identities[i]) {
      assert IdentityFits(s, s.identities[i]);
    }
    forall d | d in t.challenges ensures ChallengeFits(t, t.challenges[d]) {
      assert ChallengeFits(s, s.challenges[d]);
    }
  }

  lemma StepKeeps(s: State, e: Event)
    requires IdentityInvariant(s)
    ensures IdentityInvariant(Step(s, e))
  {
    match e
    case Visit(user, ledger) =>
      hide WindowsFit, LinksUnique;
      LinksStay(s, Step(s, e));
    case AskChallenge(actor, purpose, digest, now) =>
      hide IdentityInvariant, Create;
      CreateKeeps(s, actor, purpose, digest, now);
    case PresentLink(digest, account, id, now) =>
      hide IdentityInvariant, ConsumeLink;
      ConsumeLinkKeeps(s, digest, account, id, now);
    case PresentUnlink(digest, account, now) =>
      hide IdentityInvariant, ConsumeUnlink;
      ConsumeUnlinkKeeps(s, digest, account, now);
  }

  lemma {:induction false} RunKeeps(s: State, events: seq<Event>)
    requires IdentityInvariant(s)
    ensures IdentityInvariant(Run(s, events))
    decreases |events|
  {
    hide IdentityInvariant, Step;
    if events != [] {
      StepKeeps(s, events[0]);
      RunKeeps(Step(s, events[0]), events[1..]);
    }
  }

  /** Over every run from the empty tables: row constraints hold, every link was made by exactly one
      unexpired link challenge, no account has two active links, and every hour holds at most five
      challenges of a user. */
  lemma ReachableStatesFit(events: seq<Event>)
    ensures IdentityInvariant(Run(INITIAL, events))
  {
    assert WindowsFit(INITIAL.challenges) by {
      forall user, from ensures |HourOf(INITIAL.challenges, user, from)| <= MAXIMUM_PER_WINDOW {
        assert HourOf(INITIAL.challenges, user, from) == {};
      }
    }
    RunKeeps(INITIAL, events);
  }

  /** In every run, whatever the clocks, every closed hour holds at most five challenges of a user, link
      and unlink challenges together. */
  lemma HourlyLimit(events: seq<Event>, user: UserId, from: int)
    ensures |HourOf(Run(INITIAL, events).challenges, user, from)| <= 5
  {
    ReachableStatesFit(events);
    hide Run, HourOf;
  }

  /** In every run, every link was made by exactly one link challenge of the same owner, consumed at
      that moment, after its creation and before its expiry. */
  lemma LinksComeFromChallenges(events: seq<Event>, i: IdentityId, j: IdentityId)
    requires i in Run(INITIAL, events).identities && j in Run(INITIAL, events).identities
    ensures var s := Run(INITIAL, events);
            var link := s.identities[i];
            && link.linkedBy in s.challenges
            && s.challenges[link.linkedBy].purpose == Link
            && s.challenges[link.linkedBy].owner == link.owner
            && s.challenges[link.linkedBy].consumedAt == Some(link.linkedAt)
            && s.challenges[link.linkedBy].createdAt <= link.linkedAt < s.challenges[link.linkedBy].expiresAt
            && (s.identities[j].linkedBy == link.linkedBy ==> i == j)
  {
    ReachableStatesFit(events);
    hide Run;
    assert IdentityFits(Run(INITIAL, events), Run(INITIAL, events).identities[i]);
  }

  // ---------------------------------------------------------------------------------------
  // The historical rows read as a partial map
  // ---------------------------------------------------------------------------------------

  ghost function OwnerOf(s: State, account: AccountId): Actor
    requires IsLinked(s, account)
  {
    var id :| id in s.identities && Active(s, id, account);
    s.identities[id].owner
  }

  /** Which account belongs to whom now. */
  ghost function Links(s: State): map<AccountId, Actor> {
    var accounts := set id | id in s.identities :: s.identities[id].account;
    map account | account in accounts && IsLinked(s, account) :: OwnerOf(s, account)
  }

  lemma LinksAt(s: State, account: AccountId)
    requires LinksUnique(s)
    ensures account in Links(s) <==> IsLinked(s, account)
    ensures forall id :: id in s.identities && Active(s, id, account) ==>
              account in Links(s) && Links(s)[account] == s.identities[id].owner
  {
    forall id | id in s.identities && Active(s, id, account)
      ensures account in Links(s) && Links(s)[account] == s.identities[id].owner
    {
      var chosen :| chosen in s.identities && Active(s, chosen, account) &&
        OwnerOf(s, account) == s.identities[chosen].owner;
      assert chosen == id;
    }
  }

  /** Accounts whose active row is the same are linked to the same owner. */
  lemma LinksSame(s: State, t: State, account: AccountId)
    requires LinksUnique(s) && LinksUnique(t)
    requires forall id :: Active(s, id, account) <==> Active(t, id, account)
    requires forall id :: Active(s, id, account) ==> s.identities[id].owner == t.identities[id].owner
    ensures account in Links(s) <==> account in Links(t)
    ensures account in Links(s) ==> Links(s)[account] == Links(t)[account]
  {
    LinksAt(s, account);
    LinksAt(t, account);
    if account in Links(s) {
      var id :| id in s.identities && Active(s, id, account);
      assert Active(t, id, account);
    }
    if account in Links(t) {
      var id :| id in t.identities && Active(t, id, account);
      assert Active(s, id, account);
    }
  }

  lemma LinksEqual(s: State, t: State)
    requires LinksUnique(s) && s.identities == t.identities
    ensures Links(t) == Links(s)
  {
    assert LinksUnique(t) by {
      LinksStay(s, t);
    }
    forall account ensures account in Links(s) <==> account in Links(t)
      ensures account in Links(s) ==> Links(s)[account] == Links(t)[account]
    {
      LinksSame(s, t, account);
    }
  }

  /** Writing one account's row does not show at another account. */
  lemma LinksElsewhere(s: State, t: State, id: IdentityId, account: AccountId)
    requires LinksUnique(s) && LinksUnique(t) && id in t.identities &&
             t.identities == s.identities[id := t.identities[id]]
    requires t.identities[id].account == account && (id in s.identities ==> s.identities[id].account == account)
    ensures forall other :: other != account ==> (other in Links(s) <==> other in Links(t))
    ensures forall other :: other != account && other in Links(s) ==> Links(s)[other] == Links(t)[other]
  {
    hide Links, LinksUnique;
    forall other | other != account
      ensures other in Links(s) <==> other in Links(t)
      ensures other in Links(s) ==> Links(s)[other] == Links(t)[other]
    {
      LinksSame(s, t, other);
    }
  }

  lemma LinkAdds(s: State, t: State, id: IdentityId, account: AccountId)
    requires LinksUnique(s) && LinksUnique(t) && id !in s.identities && !IsLinked(s, account)
    requires id in t.identities && t.identities == s.identities[id := t.identities[id]] && Active(t, id, account)
    ensures account !in Links(s) && Links(t) == Links(s)[account := t.identities[id].owner]
  {
    hide Links, LinksUnique;
    LinksAt(s, account);
    LinksAt(t, account);
    LinksElsewhere(s, t, id, account);
  }

  lemma NoLongerLinked(s: State, t: State, id: IdentityId, account: AccountId)
    requires LinksUnique(s) && Active(s, id, account) && id in t.identities
    requires t.identities == s.identities[id := t.identities[id]] && t.identities[id].unlinkedAt.Some?
    ensures !IsLinked(t, account)
  {
    if IsLinked(t, account) {
      var i :| i in t.identities && Active(t, i, account);
      assert Active(s, i, account);
    }
  }

  lemma UnlinkRemoves(s: State, t: State, id: IdentityId, account: AccountId)
    requires LinksUnique(s) && LinksUnique(t) && Active(s, id, account) && id in t.identities
    requires t.identities == s.identities[id := t.identities[id]] && t.identities[id].unlinkedAt.Some?
    requires t.identities[id].account == account
    ensures account in Links(s) && Links(s)[account] == s.identities[id].owner && Links(t) == Links(s) - {account}
  {
    hide Links, LinksUnique;
    NoLongerLinked(s, t, id, account);
    LinksAt(s, account);
    LinksAt(t, account);
    LinksElsewhere(s, t, id, account);
  }

  lemma UniqueOf(s: State)
    requires IdentityInvariant(s)
    ensures LinksUnique(s)
  {
    hide LinksUnique, RowsFit, WindowsFit;
  }

  /** Consuming a link challenge adds the challenge's owner for an account that had none, and in every
      other case leaves the map as it was. */
  lemma LinkRefines(s: State, digest: Digest, account: AccountId, id: IdentityId, now: nat)
    requires IdentityInvariant(s)
    ensures var (t, outcome) := ConsumeLink(s, digest, account, id, now);
            && (outcome.Linked? ==>
                  && account !in Links(s)
                  && Links(t) == Links(s)[account := s.challenges[digest].owner]
                  && outcome.actor == s.challenges[digest].owner)
            && (!outcome.Linked? ==> Links(t) == Links(s))
            && (outcome.AlreadyLinked? ==> account in Links(s))
  {
    var (t, outcome) := ConsumeLink(s, digest, account, id, now);
    ConsumeLinkKeeps(s, digest, account, id, now);
    UniqueOf(s);
    UniqueOf(t);
    LinksAt(s, account);
    hide Links, LinksUnique, IdentityInvariant;
    if outcome.Linked? {
      LinkAdds(s, t, id, account);
    } else {
      LinksEqual(s, t);
    }
  }

  /** Consuming an unlink challenge removes the account that presents it, which belonged to the
      challenge's owner, and in every other case leaves the map as it was. */
  lemma UnlinkRefines(s: State, digest: Digest, account: AccountId, now: nat)
    requires IdentityInvariant(s)
    ensures var (t, outcome) := ConsumeUnlink(s, digest, account, now);
            && (outcome.Unlinked? ==>
                  && account in Links(s)
                  && Links(s)[account] == s.challenges[digest].owner
                  && Links(t) == Links(s) - {account})
            && (!outcome.Unlinked? ==> Links(t) == Links(s))
            && (outcome.DoesNotMatch? ==> t == s)
  {
    var (t, outcome) := ConsumeUnlink(s, digest, account, now);
    ConsumeUnlinkKeeps(s, digest, account, now);
    UniqueOf(s);
    UniqueOf(t);
    hide Links, LinksUnique, IdentityInvariant;
    if outcome.Unlinked? {
      UnlinkRemoves(s, t, outcome.identity, account);
    } else {
      LinksEqual(s, t);
    }
  }

  /** Resolving an account reads the map. */
  lemma ResolveReads(s: State, account: AccountId)
    requires IdentityInvariant(s)
    ensures Resolve(s, account).Resolved? <==> account in Links(s)
    ensures account in Links(s) ==>
              Active(s, Resolve(s, account).identity, account) && Resolve(s, account).actor == Links(s)[account]
  {
    hide WindowsFit;
    LinksAt(s, account);
    if account in Links(s) {
      var id :| id in s.identities && Active(s, id, account);
      assert IdentityFits(s, s.identities[id]);
      assert Resolvable(s, account) == {id};
    } else {
      assert Resolvable(s, account) == {};
    }
  }

  // ---------------------------------------------------------------------------------------
  // One use
  // ---------------------------------------------------------------------------------------

  /** The event is a presentation of this challenge that links or unlinks. */
  ghost predicate Succeeds(s: State, e: Event, digest: Digest) {
    match e
    case PresentLink(d, account, id, now) => d == digest && ConsumeLink(s, d, account, id, now).1.Linked?
    case PresentUnlink(d, account, now) => d == digest && ConsumeUnlink(s, d, account, now).1.Unlinked?
    case _ => false
  }

  ghost function Successes(s: State, events: seq<Event>, digest: Digest): nat
    decreases |events|
  {
    if events == [] then 0
    else (if Succeeds(s, events[0], digest) then 1 else 0) + Successes(Step(s, events[0]), events[1..], digest)
  }

  predicate Spent(s: State, digest: Digest) {
    digest in s.challenges && s.challenges[digest].consumedAt.Some?
  }

  lemma SpentStays(s: State, e: Event, digest: Digest)
    ensures Succeeds(s, e, digest) ==> !Spent(s, digest) && Spent(Step(s, e), digest)
    ensures Spent(s, digest) ==> Spent(Step(s, e), digest)
  {
  }

  /** In any run, whatever the clocks, a challenge links or unlinks at most once. */
  lemma {:induction false} SucceedsAtMostOnce(s: State, events: seq<Event>, digest: Digest)
    ensures Successes(s, events, digest) <= (if Spent(s, digest) then 0 else 1)
    decreases |events|
  {
    hide Step, Succeeds;
    if events != [] {
      SpentStays(s, events[0], digest);
      SucceedsAtMostOnce(Step(s, events[0]), events[1..], digest);
    }
  }

  // ---------------------------------------------------------------------------------------
  // The rate limit
  // ---------------------------------------------------------------------------------------

  /** None of the user's challenges lies in the future. */
  predicate Past(challenges: map<Digest, Challenge>, user: UserId, now: nat) {
    forall d :: d in challenges && challenges[d].owner.user == user ==> challenges[d].createdAt <= now
  }

  /** The counted challenges that have left the window at a later instant. */
  function Left(challenges: map<Digest, Challenge>, recent: set<Digest>, later: int): set<Digest> {
    set d | d in recent && d in challenges && challenges[d].createdAt + WINDOW < later
  }

  /** What waiting exactly as long as told achieves. In general the user is admitted if and only if
      enough of the challenges that were counted leave the window by then; without challenges from the
      future, if and only if the oldest one does. After the first hour of the clock that fails for one
      reason only: the wait ends on the very millisecond at which the oldest challenge leaves, because
      the window includes its start. */
  lemma RetryAfterIsExact(s: State, actor: Actor, purpose: Purpose, digest: Digest, now: nat, again: Digest)
    requires IdentityInvariant(s) && again !in s.challenges
    requires Create(s, actor, purpose, digest, now).1.RateLimited?
    ensures var retryAfter := Create(s, actor, purpose, digest, now).1.retryAfterSeconds;
            var recent := Recent(s.challenges, actor.user, Since(now));
            var leaves := OldestCreation(s.challenges, recent) + WINDOW;
            var later := now + retryAfter * 1_000;
            var admitted := Create(s, actor, purpose, again, later).1 == Stored;
            && 1 <= retryAfter
            && (admitted <==> |recent| - |Left(s.challenges, recent, later)| < MAXIMUM_PER_WINDOW)
            && (Past(s.challenges, actor.user, now) ==> (admitted <==> leaves < later))
            && (Past(s.challenges, actor.user, now) && WINDOW <= now ==>
                  (admitted <==> leaves == now || (leaves - now) % 1_000 != 0))
  {
    var recent := Recent(s.challenges, actor.user, Since(now));
    var oldest := OldestCreation(s.challenges, recent);
    var later := now + SecondsUntil(oldest + (now - Since(now)), now) * 1_000;
    RemainingRecent(s.challenges, actor.user, now, later);
    if Past(s.challenges, actor.user, now) {
      RecentIsFull(s, actor.user, now);
      AgainFull(s.challenges, actor.user, now, later);
      SecondsUntilReaches(oldest + WINDOW, now);
    }
    hide IdentityInvariant;
  }

  /** At a later instant the window holds what has not left it. */
  lemma RemainingRecent(challenges: map<Digest, Challenge>, user: UserId, now: nat, later: nat)
    requires now <= later
    ensures var recent := Recent(challenges, user, Since(now));
            |Recent(challenges, user, Since(later))| == |recent| - |Left(challenges, recent, later)|
  {
    var recent := Recent(challenges, user, Since(now));
    assert Recent(challenges, user, Since(later)) == recent - Left(challenges, recent, later);
    assert Left(challenges, recent, later) <= recent;
  }

  /** At a later instant the window still holds all five challenges exactly if the oldest is in it. */
  lemma AgainFull(challenges: map<Digest, Challenge>, user: UserId, now: nat, later: nat)
    requires now <= later && |Recent(challenges, user, Since(now))| == MAXIMUM_PER_WINDOW
    ensures var recent := Recent(challenges, user, Since(now));
            && (|Recent(challenges, user, Since(later))| < MAXIMUM_PER_WINDOW <==>
                  OldestCreation(challenges, recent) + WINDOW < later)
            && Since(now) <= OldestCreation(challenges, recent)
  {
    var recent := Recent(challenges, user, Since(now));
    var again := Recent(challenges, user, Since(later));
    OldestExists(challenges, recent);
    var d :| IsOldest(challenges, recent, d) && challenges[d].createdAt == OldestCreation(challenges, recent);
    if challenges[d].createdAt + WINDOW < later {
      assert d !in again;
      SubsetCount(again, recent - {d});
    } else {
      assert again == recent;
    }
  }

  lemma RecentIsFull(s: State, user: UserId, now: nat)
    requires WindowsFit(s.challenges) && Past(s.challenges, user, now)
    ensures |Recent(s.challenges, user, Since(now))| <= MAXIMUM_PER_WINDOW
  {
    assert Recent(s.challenges, user, Since(now)) == HourOf(s.challenges, user, Since(now));
  }
}
