/** Requests, workers and runs: everything that can happen to the model-operation tables, in any
    order. A worker may crash after its claim (it never finishes), finish long after its lease
    has elapsed, or finish twice; queue wake-ups may be duplicated. */
module ModelRuns {
  import opened Common
  import opened ModelRegistry
  import opened ModelGateway
  import opened ModelDatabase

  datatype Request = Request(
    user: UserId,
    name: OperationName,
    provider: Provider,
    policy: Policy,
    digest: string,
    canonicalInput: string)

  function Utf8(text: string): seq<int> {
    if text == "" then [] else Utf8(text[..|text| - 1]) + Utf8Encode(text[|text| - 1])
  }

  /** Adding up code-point widths measures the UTF-8 encoding without building it. */
  method CountUtf8Bytes(text: string) returns (length: nat)
    ensures length == |Utf8(text)|
  {
    length := 0;
    for i := 0 to |text|
      invariant length == |Utf8(text[..i])|
    {
      var codePoint := text[i] as int;
      length := length + (if codePoint <= 0x7f then 1 else if codePoint <= 0x7ff then 2
                          else if codePoint <= 0xffff then 3 else 4);
      assert text[..i + 1][..i] == text[..i];
    }
    assert text[..|text|] == text;
  }

  predicate IsDigest(text: string) {
    |text| == 64 && forall i :: 0 <= i < 64 ==> '0' <= text[i] <= '9' || 'a' <= text[i] <= 'f'
  }

  predicate Acceptable(request: Request) {
    && |request.canonicalInput| >= 1
    && |Utf8(request.canonicalInput)| <= ProfileOf(request.name).maximumInputBytes
    && IsDigest(request.digest)
  }

  function TermsFor(request: Request): Terms {
    Terms(
      request.user, request.name, request.provider, request.policy, request.digest, request.canonicalInput,
      ProfileOf(request.name), EXPLICIT_RESTART_LIMIT, DAILY_DISPATCH_LIMIT, EnvironmentCeiling(request.policy),
      if request.provider == OpenAI then UserCeiling(request.policy) else 0)
  }

  function Reservation(terms: Terms): nat {
    if terms.provider == OpenAI then terms.profile.maximumCost else 0
  }

  datatype RequestOutcome = InvalidRequest | Answer(outcome: PrepareOutcome)

  function PrepareModelOperation(db: Database, id: OperationId, request: Request, clock: Clock)
    : (Database, RequestOutcome)
  {
    if !Acceptable(request) then (db, InvalidRequest)
    else
      var terms := TermsFor(request);
      var (after, outcome) := Prepare(db, id, terms, Reservation(terms), clock);
      (after, Answer(outcome))
  }

  /** What a worker reports to the store once the gateway has answered or failed. */
  function ReportedCompletion(work: ClaimedAttempt, outcome: GatewayOutcome): Completion {
    match outcome
    case Answered(response) =>
      if response.datesValid then Completion(Success, None, NoRetry)
      else Completion(Invalid, Some(DomainValidationRejected), NoRetry)
    case Failed(error) => Classify(error, work.retryAvailable)
  }

  function ReportedResponse(outcome: GatewayOutcome): Option<Response> {
    if outcome.Answered? then Some(outcome.response) else None
  }

  /** issued remembers every attempt that was ever handed to a worker. */
  datatype System = System(db: Database, issued: map<AttemptId, ClaimedAttempt>)

  const INITIAL: System := System(EMPTY, map[])

  datatype Event =
    | Ask(id: OperationId, request: Request, clock: Clock)
    | WakeUp(id: OperationId, newId: AttemptId, clock: Clock)
    | Finish(attempt: AttemptId, outcome: GatewayOutcome, clock: Clock)
    | AskRestart(user: UserId, source: OperationId, id: OperationId, clock: Clock)

  function Issue(issued: map<AttemptId, ClaimedAttempt>, outcome: ClaimOutcome): map<AttemptId, ClaimedAttempt> {
    if outcome.Claimed? then issued[outcome.attempt := outcome.work] else issued
  }

  function Step(s: System, e: Event): System {
    match e
    case Ask(id, request, clock) => s.(db := PrepareModelOperation(s.db, id, request, clock).0)
    case WakeUp(id, newId, clock) =>
      var (after, outcome) := Claim(s.db, id, newId, clock);
      System(after, Issue(s.issued, outcome))
    case Finish(a, outcome, clock) =>
      if a in s.issued then
        var work := s.issued[a];
        s.(db := Complete(
          s.db, work.operation, a, ReportedCompletion(work, outcome), ReportedResponse(outcome), clock).0)
      else s
    case AskRestart(user, source, id, clock) => s.(db := Restart(s.db, user, source, id, clock).0)
  }

  function Run(s: System, events: seq<Event>): System
    decreases |events|
  {
    if events == [] then s else Run(Step(s, events[0]), events[1..])
  }

  /** Running a concatenation is running its parts in turn. */
  lemma {:induction false} RunSplit(s: System, first: seq<Event>, second: seq<Event>)
    ensures Run(s, first + second) == Run(Run(s, first), second)
    decreases |first|
  {
    if first == [] {
      assert first + second == second;
    } else {
      RunSplit(Step(s, first[0]), first[1..], second);
      assert (first + second)[1..] == first[1..] + second;
    }
  }
}
