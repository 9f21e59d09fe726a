/** The immutable registry of model operations, the deployment budgets, and the price list of the
    one provider model. Amounts are micro-dollars; prices are hundredths of a micro-dollar. */
module ModelRegistry {
  import opened Common

  datatype OperationName = QuerySlots | Extract | ExtractMany

  datatype Provider = Deterministic | OpenAI

  datatype Policy = DevelopmentStaging | Alpha

  datatype Profile = Profile(
    maximumCost: nat,
    maximumHttpDispatches: nat,
    maximumInputBytes: nat,
    maximumBillableAttempts: nat,
    outputTokenLimit: nat,
    providerTimeout: nat,
    totalDeadline: nat,
    retryLimit: nat)

  function ProfileOf(name: OperationName): Profile {
    match name
    case QuerySlots => Profile(480, 2, 1_200, 1, 192, 4_000, 6_000, 1)
    case Extract => Profile(620, 2, 1_500, 1, 256, 3_000, 4_000, 1)
    case ExtractMany => Profile(3_100, 2, 7_500, 1, 1_280, 7_000, 10_000, 1)
  }

  function EnvironmentCeiling(policy: Policy): nat {
    match policy
    case DevelopmentStaging => 1_000_000
    case Alpha => 5_000_000
  }

  function UserCeiling(policy: Policy): nat {
    match policy
    case DevelopmentStaging => 1_000_000
    case Alpha => 250_000
  }

  const DAILY_DISPATCH_LIMIT: nat := 20
  const EXPLICIT_RESTART_LIMIT: nat := 1
  const ATTEMPT_LEASE: nat := 30_000
  const MINIMUM_RETRY_DELAY: nat := 1_000

  datatype Usage = Usage(inputTokens: nat, cachedInputTokens: nat, outputTokens: nat)

  /** Exact price of one response in hundredths of a micro-dollar: 0.2 per uncached input token,
      0.02 per cached one and 1.25 per output token. */
  function ExactPrice(usage: Usage): nat {
    var cached := Min(usage.inputTokens, usage.cachedInputTokens);
    20 * (usage.inputTokens - cached) + 2 * cached + 125 * usage.outputTokens
  }

  /** The charged cost: the exact price rounded up to a whole micro-dollar. */
  function NanoCost(usage: Usage): (cost: nat)
    ensures 100 * cost - 100 < ExactPrice(usage) <= 100 * cost
  {
    (ExactPrice(usage) + 99) / 100
  }

  /** The price list, per million tokens: 200_000 micro-dollars for input, a tenth of that for cached input,
      and 1_250_000 for output. Cached tokens are a part of the input tokens and displace uncached ones; what
      is reported beyond the input counts for nothing. */
  lemma PriceList(usage: Usage)
    ensures NanoCost(Usage(1_000_000, 0, 0)) == 200_000
    ensures NanoCost(Usage(1_000_000, 1_000_000, 0)) == 20_000
    ensures NanoCost(Usage(0, 0, 1_000_000)) == 1_250_000
    ensures usage.cachedInputTokens >= usage.inputTokens ==>
              ExactPrice(usage) == ExactPrice(Usage(usage.inputTokens, usage.inputTokens, usage.outputTokens))
    ensures usage.cachedInputTokens <= usage.inputTokens ==>
              ExactPrice(usage) ==
              ExactPrice(Usage(usage.inputTokens - usage.cachedInputTokens, 0, 0)) +
              ExactPrice(Usage(usage.cachedInputTokens, usage.cachedInputTokens, 0)) +
              ExactPrice(Usage(0, 0, usage.outputTokens))
    ensures 1_000_000 * ExactPrice(Usage(usage.inputTokens, 0, 0)) ==
            usage.inputTokens * ExactPrice(Usage(1_000_000, 0, 0))
    ensures 1_000_000 * ExactPrice(Usage(usage.inputTokens, usage.inputTokens, 0)) ==
            usage.inputTokens * ExactPrice(Usage(1_000_000, 1_000_000, 0))
    ensures 1_000_000 * ExactPrice(Usage(0, 0, usage.outputTokens)) ==
            usage.outputTokens * ExactPrice(Usage(0, 0, 1_000_000))
  {
  }

  /** The exact price is within what the operation reserved. */
  predicate Affordable(name: OperationName, usage: Usage) {
    ExactPrice(usage) <= 100 * ProfileOf(name).maximumCost
  }

  /** The provider used no more tokens than the registry allows for the operation. */
  predicate WithinProfile(name: OperationName, usage: Usage) {
    && usage.inputTokens <= ProfileOf(name).maximumInputBytes
    && usage.outputTokens <= ProfileOf(name).outputTokenLimit
  }

  /** Every usage within the profile costs at most the amount that is reserved for it. The three
      registered ceilings are exactly the cost of a full, uncached response. */
  lemma CostWithinReservation(name: OperationName, usage: Usage)
    requires WithinProfile(name, usage)
    ensures Affordable(name, usage) && NanoCost(usage) <= ProfileOf(name).maximumCost
    ensures NanoCost(Usage(ProfileOf(name).maximumInputBytes, 0, ProfileOf(name).outputTokenLimit))
            == ProfileOf(name).maximumCost
  {
    match name
    case QuerySlots =>
    case Extract =>
    case ExtractMany =>
  }

  /** The profiles fit together: one more dispatch than retries and one chargeable attempt, a call ends before
      its operation does, and an operation before the lease of its last call. */
  lemma ProfilesFit(name: OperationName)
    ensures var p := ProfileOf(name);
            && p.retryLimit == 1 && p.maximumHttpDispatches == 1 + p.retryLimit && p.maximumBillableAttempts == 1
            && p.providerTimeout + MINIMUM_RETRY_DELAY <= p.totalDeadline
            && p.totalDeadline + 20_000 <= ATTEMPT_LEASE
  {
  }

  /** A cost overruns the reservation exactly when the exact price does, so rounding up never
      pushes a response over its ceiling. */
  lemma OverrunIffPriceOverruns(name: OperationName, usage: Usage)
    ensures NanoCost(usage) > ProfileOf(name).maximumCost <==> !Affordable(name, usage)
  {
    var maximum := ProfileOf(name).maximumCost;
    if NanoCost(usage) > maximum {
      assert NanoCost(usage) >= maximum + 1;
    }
  }
}

/** The provider seam: typed failures of one dispatch and how they are classified. */
module ModelGateway {
  import opened Common
  import opened ModelRegistry

  /** Milliseconds the provider asked the caller to wait, as the failure schema bounds them. */
  type RetryAfter = ms: int | 0 <= ms <= 60_000

  datatype GatewayError =
    | RateLimited(transient: bool, retryAfter: RetryAfter)
    | QuotaDenied
    | DeadlineExceeded
    | ConnectionLost
    | EmptyResponse
    | MalformedResponse
    | Http5xx
    | RequestRejected
    | Refusal
    | Truncated
    | DecodingFailed
    | FixtureMissing
    | SchemaUnsupported

  datatype Disposition = Success | Rejected | Invalid | Unknown

  /** The failure identity that is persisted with a completion. */
  datatype Failure =
    | Gateway(error: GatewayError)
    | AttemptLeaseExpired
    | DeadlineExceededBeforeDispatch
    | DailyDispatchLimitExceeded
    | KillSwitchEngaged
    | DispatchLimitExceeded
    | DomainValidationRejected

  datatype RetryPlan = NoRetry | ScheduleRetry(delay: int)

  datatype Completion = Completion(disposition: Disposition, failure: Option<Failure>, plan: RetryPlan)

  /** Classify one observed failure; the only place where a retry is ever asked for. */
  function Classify(error: GatewayError, retryAvailable: bool): Completion {
    match error
    case RateLimited(transient, retryAfter) =>
      Completion(
        Rejected,
        Some(Gateway(error)),
        if transient && retryAfter <= 1_000 && retryAvailable then ScheduleRetry(retryAfter) else NoRetry)
    case DeadlineExceeded | ConnectionLost | EmptyResponse | MalformedResponse | Http5xx =>
      Completion(Unknown, Some(Gateway(error)), NoRetry)
    case Truncated | DecodingFailed =>
      Completion(Invalid, Some(Gateway(error)), NoRetry)
    case _ =>
      Completion(Rejected, Some(Gateway(error)), NoRetry)
  }

  /** Failures after which the provider may have charged although no usage was reported. */
  predicate ConservativelyBillable(failure: Option<Failure>) {
    failure.Some? && failure.value.Gateway? &&
    (failure.value.error.Refusal? || failure.value.error.Truncated? || failure.value.error.DecodingFailed?)
  }

  /** A decoded response. datesValid is false when an extracted calendar date does not exist. */
  datatype Response = Response(output: nat, datesValid: bool, cost: nat, usage: Usage)

  datatype GatewayOutcome = Answered(response: Response) | Failed(error: GatewayError)
}
