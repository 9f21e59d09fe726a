/** Runs from empty tables in which the identity flows do not do what they are meant to: a token that is
    answered to the wrong account, replays that contradict the first answer, and a wait that is refused. */
module IdentityExample {
  import opened Common
  import opened Identity
  import opened TelegramContent
  import opened TelegramReplies

  const ALICE := Actor(1, 1)
  const BOB := Actor(2, 2)

  /** One more event of a run. */
  lemma {:induction false} RunSnoc(s: State, events: seq<Event>, e: Event)
    ensures Run(s, events + [e]) == Step(Run(s, events), e)
    decreases |events|
  {
    hide Step;
    if events == [] {
      assert [e][1..] == [];
      assert events + [e] == [e];
    } else {
      RunSnoc(Step(s, events[0]), events[1..], e);
      assert (events + [e])[1..] == events[1..] + [e];
    }
  }

  lemma Then(events: seq<Event>, s: State, e: Event) returns (longer: seq<Event>, t: State)
    requires s == Run(INITIAL, events)
    ensures longer == events + [e] && t == Step(s, e) == Run(INITIAL, longer)
  {
    longer, t := events + [e], Step(s, e);
    RunSnoc(INITIAL, events, e);
  }

  function Asked(s: State, actor: Actor, purpose: Purpose, digest: Digest, now: nat): State {
    s.(challenges := s.challenges[digest := Challenge(actor, purpose, now, now + LIFETIME, None)])
  }

  /** With fewer than five challenges in the table a new one is always stored. */
  lemma Stores(s: State, actor: Actor, purpose: Purpose, digest: Digest, now: nat)
    requires HasAuthority(s, actor) && Targets(s, actor, purpose) && digest !in s.challenges
    requires |s.challenges.Keys| < MAXIMUM_PER_WINDOW
    ensures Step(s, AskChallenge(actor, purpose, digest, now)) == Asked(s, actor, purpose, digest, now)
  {
    SubsetCount(Recent(s.challenges, actor.user, Since(now)), s.challenges.Keys);
  }

  function Linking(s: State, digest: Digest, account: AccountId, id: IdentityId, now: nat): State
    requires digest in s.challenges
  {
    s.(challenges := Consumed(s, digest, now),
       identities := s.identities[id := IdentityRow(s.challenges[digest].owner, account, now, None, digest)])
  }

  lemma LinksNow(s: State, digest: Digest, account: AccountId, id: IdentityId, now: nat)
    requires Usable(s, digest, now) && s.challenges[digest].purpose.Link? && !IsLinked(s, account) &&
             id !in s.identities
    ensures ConsumeLink(s, digest, account, id, now) ==
            (Linking(s, digest, account, id, now), Linked(id, s.challenges[digest].owner))
  {
  }

  function Unlinking(s: State, digest: Digest, id: IdentityId, now: nat): State
    requires digest in s.challenges && id in s.identities
  {
    s.(challenges := Consumed(s, digest, now),
       identities := s.identities[id := s.identities[id].(unlinkedAt := Some(now))])
  }

  lemma UnlinksNow(s: State, digest: Digest, account: AccountId, now: nat)
    requires Usable(s, digest, now) && s.challenges[digest].purpose.Unlink?
    requires Active(s, s.challenges[digest].purpose.target, account)
    requires s.identities[s.challenges[digest].purpose.target].owner == s.challenges[digest].owner
    requires s.identities[s.challenges[digest].purpose.target].linkedAt <= now
    ensures ConsumeUnlink(s, digest, account, now) ==
            (Unlinking(s, digest, s.challenges[digest].purpose.target, now),
             Unlinked(s.challenges[digest].purpose.target))
  {
  }

  /** Alice has three link tokens, Bob one; Alice's first links account 10 and Bob's links account 20. */
  lemma TwoUsers() returns (events: seq<Event>, s: State)
    ensures s == Run(INITIAL, events) && IdentityInvariant(s)
    ensures s == TwoUsersLinked()
  {
    events, s := [], INITIAL;
    events, s := Then(events, s, Visit(1, 1));
    events, s := Then(events, s, Visit(2, 2));
    assert s == State(map[1 := 1, 2 := 2], map[], map[]);
    Stores(s, ALICE, Link, 1, 0);
    events, s := Then(events, s, AskChallenge(ALICE, Link, 1, 0));
    Stores(s, BOB, Link, 2, 0);
    events, s := Then(events, s, AskChallenge(BOB, Link, 2, 0));
    assert s.challenges.Keys == {1, 2};
    Stores(s, ALICE, Link, 3, 0);
    events, s := Then(events, s, AskChallenge(ALICE, Link, 3, 0));
    hide Run, Create;
    LinksNow(s, 1, 10, 1, 1);
    events, s := Then(events, s, PresentLink(1, 10, 1, 1));
    assert !IsLinked(s, 20);
    LinksNow(s, 2, 20, 2, 1);
    events, s := Then(events, s, PresentLink(2, 20, 2, 1));
    assert s == TwoUsersLinked();
    ReachableStatesFit(events);
  }

  function TwoUsersLinked(): State {
    State(
      map[1 := 1, 2 := 2],
      map[1 := IdentityRow(ALICE, 10, 1, None, 1), 2 := IdentityRow(BOB, 20, 1, None, 2)],
      map[1 := Challenge(ALICE, Link, 0, LIFETIME, Some(1)), 2 := Challenge(BOB, Link, 0, LIFETIME, Some(1)),
          3 := Challenge(ALICE, Link, 0, LIFETIME, None)])
  }

  /** Bob's account presents Alice's spent token and is told that it is linked, to Bob. */
  lemma SpentTokenOfAnother() returns (events: seq<Event>)
    ensures var s := Run(INITIAL, events);
            && AnswerLink(s, 1, 20, 3, 2) == (s, Answered(LinkSucceeded, Some(BOB)))
            && Spent(s, 1) && s.challenges[1].owner == ALICE && LinkedByAnother(s, 20, 1)
  {
    var s;
    events, s := TwoUsers();
    assert Active(s, 2, 20);
    LinksRead(s, 2, 20);
    SpentLinkAnswer(s, 1, 20, 3, 2);
  }

  lemma LinksRead(s: State, id: IdentityId, account: AccountId)
    requires IdentityInvariant(s) && Active(s, id, account)
    ensures account in Links(s) && Links(s)[account] == s.identities[id].owner
  {
    UniqueOf(s);
    LinksAt(s, account);
  }

  /** Bob's account presents Alice's unused token and is refused as already linked. The worker crashes
      before it stores that answer, and the next one tells Bob that linking succeeded. */
  lemma RefusalReplayedAsSuccess() returns (events: seq<Event>)
    ensures var s := Run(INITIAL, events);
            var (presented, first) := AnswerLink(s, 3, 20, 3, 2);
            && first == Answered(ChallengeRejected(ForLink, LinkedAlready), None)
            && AnswerLink(presented, 3, 20, 4, 3) == (presented, Answered(LinkSucceeded, Some(BOB)))
  {
    var s;
    events, s := TwoUsers();
    assert Active(s, 2, 20);
    assert IsLinked(s, 20);
    ConsumeLinkKeeps(s, 3, 20, 3, 2);
    var presented := ConsumeLink(s, 3, 20, 3, 2).0;
    assert Active(presented, 2, 20);
    LinksRead(presented, 2, 20);
    SpentLinkAnswer(presented, 3, 20, 4, 3);
  }

  lemma OneLinked() returns (events: seq<Event>, s: State)
    ensures s == Run(INITIAL, events)
    ensures s == State(
                   map[1 := 1], map[1 := IdentityRow(ALICE, 10, 1, None, 1)],
                   map[1 := Challenge(ALICE, Link, 0, LIFETIME, Some(1))])
  {
    events, s := [], INITIAL;
    events, s := Then(events, s, Visit(1, 1));
    Stores(s, ALICE, Link, 1, 0);
    events, s := Then(events, s, AskChallenge(ALICE, Link, 1, 0));
    LinksNow(s, 1, 10, 1, 1);
    hide Run, ConsumeLink;
    events, s := Then(events, s, PresentLink(1, 10, 1, 1));
  }

  /** Alice links account 10, asks for two tokens to unlink it, and uses the first. */
  lemma OneUnlinked() returns (events: seq<Event>, s: State)
    ensures s == Run(INITIAL, events) && IdentityInvariant(s)
    ensures s == AliceUnlinked()
  {
    events, s := OneLinked();
    hide Run, Create;
    assert s.challenges.Keys == {1};
    Stores(s, ALICE, Unlink(1), 2, 1);
    events, s := Then(events, s, AskChallenge(ALICE, Unlink(1), 2, 1));
    assert s.challenges.Keys == {1, 2};
    Stores(s, ALICE, Unlink(1), 3, 1);
    events, s := Then(events, s, AskChallenge(ALICE, Unlink(1), 3, 1));
    UnlinksNow(s, 2, 10, 2);
    hide ConsumeUnlink;
    events, s := Then(events, s, PresentUnlink(2, 10, 2));
    ReachableStatesFit(events);
  }

  function AliceUnlinked(): State {
    State(
      map[1 := 1],
      map[1 := IdentityRow(ALICE, 10, 1, Some(2), 1)],
      map[1 := Challenge(ALICE, Link, 0, LIFETIME, Some(1)),
          2 := Challenge(ALICE, Unlink(1), 1, 1 + LIFETIME, Some(2)),
          3 := Challenge(ALICE, Unlink(1), 1, 1 + LIFETIME, None)])
  }

  /** The second token is then refused because the link is gone, the worker crashes before it stores that
      answer, and the next one reports that unlinking succeeded. */
  lemma UnlinkRefusalReplayedAsSuccess() returns (events: seq<Event>)
    ensures var s := Run(INITIAL, events);
            var (presented, first) := AnswerUnlink(s, 3, 10, 3);
            && first == Answered(ChallengeRejected(ForUnlink, WrongIdentity), None)
            && AnswerUnlink(presented, 3, 10, 4) == (presented, Answered(UnlinkSucceeded, None))
  {
    var s;
    events, s := OneUnlinked();
    hide Run, IdentityInvariant;
    ConsumeUnlinkKeeps(s, 3, 10, 3);
    var presented := ConsumeUnlink(s, 3, 10, 3).0;
    Gone(presented, 10);
    SpentUnlinkAnswer(presented, 3, 10, 4);
  }

  lemma Gone(s: State, account: AccountId)
    requires IdentityInvariant(s) && forall id :: id in s.identities ==> s.identities[id].unlinkedAt.Some?
    ensures account !in Links(s)
  {
    UniqueOf(s);
    LinksAt(s, account);
  }

  /** Five challenges at one instant, and a sixth a second later: the user is told to wait 3599 seconds,
      waits exactly that long, and is refused again. */
  lemma ExactWaitIsRefused() returns (events: seq<Event>)
    ensures var s := Run(INITIAL, events);
            var asked := Create(s, ALICE, Link, 6, WINDOW + 1_000);
            && asked == (s, RateLimited(3_599))
            && Create(s, ALICE, Link, 6, WINDOW + 1_000 + 3_599 * 1_000) == (s, RateLimited(1))
  {
    var s := INITIAL;
    events := [];
    events, s := Then(events, s, Visit(1, 1));
    var i := 0;
    while i < 5
      invariant 0 <= i <= 5
      invariant s == Run(INITIAL, events) && s == AskedTimes(i)
      decreases 5 - i
    {
      AskedKeys(i);
      Stores(s, ALICE, Link, i, WINDOW);
      events, s := Then(events, s, AskChallenge(ALICE, Link, i, WINDOW));
      i := i + 1;
    }
    FullWindow(s, WINDOW + 1_000);
    FullWindow(s, WINDOW + 1_000 + 3_599 * 1_000);
  }

  function AskedTimes(n: nat): State {
    State(map[1 := 1], map[], AskedRows(n))
  }

  function AskedRows(n: nat): map<Digest, Challenge> {
    if n == 0 then map[] else AskedRows(n - 1)[n - 1 := Challenge(ALICE, Link, WINDOW, WINDOW + LIFETIME, None)]
  }

  /** The first n digests, all with the same challenge. */
  ghost predicate Uniform(rows: map<Digest, Challenge>, n: nat) {
    && (forall d: Digest :: d in rows <==> d < n)
    && (forall d: Digest :: d in rows ==> rows[d] == Challenge(ALICE, Link, WINDOW, WINDOW + LIFETIME, None))
  }

  lemma {:induction false} AskedKeys(n: nat)
    ensures |AskedRows(n).Keys| == n && Uniform(AskedRows(n), n)
  {
    if n == 0 {
      assert AskedRows(0) == map[];
    } else {
      AskedKeys(n - 1);
      Extended(AskedRows(n - 1), n - 1);
    }
  }

  lemma Extended(rows: map<Digest, Challenge>, n: nat)
    requires |rows.Keys| == n && Uniform(rows, n)
    ensures var longer := rows[n := Challenge(ALICE, Link, WINDOW, WINDOW + LIFETIME, None)];
            |longer.Keys| == n + 1 && Uniform(longer, n + 1)
  {
    assert rows[n := Challenge(ALICE, Link, WINDOW, WINDOW + LIFETIME, None)].Keys == rows.Keys + {n};
  }

  lemma FullWindow(s: State, now: nat)
    requires s == AskedTimes(5) && WINDOW <= now <= 2 * WINDOW
    ensures Create(s, ALICE, Link, 6, now) == (s, RateLimited(SecondsUntil(2 * WINDOW, now)))
  {
    AskedKeys(5);
    hide AskedRows;
    var recent := Recent(s.challenges, ALICE.user, Since(now));
    assert recent == s.challenges.Keys;
    OldestExists(s.challenges, recent);
    var d :| IsOldest(s.challenges, recent, d) && s.challenges[d].createdAt == OldestCreation(s.challenges, recent);
  }
}
