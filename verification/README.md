# A verified model of the durable message and payment machinery

The replacement backend keeps its state in PostgreSQL and lets queues, workers and operators drive it.
Queues repeat messages, workers are late or crash, leases expire, and the provider may or may not have
charged or delivered. This project models the tables and every transaction on them, and proves what
holds over all interleavings. Each transaction is one atomic step; every clock reading, generated
identifier, provider answer and row selection is an input of the step that uses it.

## Paid model operations

`ModelRegistry` holds profiles, budgets and prices, `ModelGateway` the classification of provider
failures, `ModelDatabase` the rows and the transactions `Prepare`, `Claim`, `Complete` and `Restart` as
functions, `ModelRuns` the runs: any sequence of requests, wake-ups, reports (late, lost or repeated) and
restarts. `ModelEffects` summarises what a step can do. On top of it `ModelMachine` proves the state
machine, `ModelProgress` finality and deadlines, `ModelBudget` conservation of money, `ModelSpend`
ceilings, alerts and the kill switch, `ModelLineage` restarts and the daily ceiling, `ModelExecution`
what a worker tells its caller, and `ModelTheorems` collects the results for runs from empty tables.
`ModelRequests`, `ModelClaims` and `ModelReports` say, for every valid state, what each transaction
answers and does, in terms of the tables alone.
`ModelStore` is the store as a class whose methods update the tables in place; its `Valid()` is the
whole invariant, and `Replay` carries any sequence of events out on it.

## The Telegram pipeline

`Outbox`, `Intake` and `Delivery` model queue messages, inbound events and outbound replies with their
transactions. `Pipeline` composes them with any number of workers, each a small program with a program
counter, and with the provider: a worker that crashes is one that is never scheduled again, a duplicate
job is a second worker, and a provider call may happen at any time after its claim. `PipelineExample`
exhibits a run that reaches its bounds. `TelegramContent` holds what events ask and replies say.
`OutboxDispatches`, `IntakeClaims` and `DeliveryClaims` say what every job meets and is answered, and how
long a claim excludes others; `TelegramEvents` describes one event job as a whole, and `TelegramRuns`
shows that jobs are runs of the transition system. `TelegramStore` holds the same tables as classes, whose
`Valid()` is the invariant of the tables and is kept by every transaction; `TelegramWorker` the sequential
workers on them, `TelegramReplies` the answers given to users.

## Identity and tokens

`Identity` models one-use challenges, historical link rows and the sliding window; `Base64Url` and
`TelegramCommand` the text form of tokens, the deep link and the command parser. `IdentityExample` holds
runs in which users are told something that did not happen. `IdentityDecisions` says what asking for a
challenge and presenting one is answered.

## What the proofs found

- Settlement is not limited to the reservation. A paid answer raises what its accounts have committed if
  and only if the exact price of its usage is above the registered maximum
  (`ModelSpend.PricedAnswerRaisesIff`). The ceilings hold in every run without such an answer
  (`ModelTheorems.EveryHonestRun`), in particular if token counts stay within the profiles, and one such
  answer can break them (`ModelSpend.DishonestUsageOverruns`).
- A worker reports success without reading what the store recorded. The two agree exactly when the report
  comes before lease recovery (`ModelExecution.SuccessIsStoredIffReportedInTime`).
- The limit of one potentially billable attempt is never read by any code; it holds because retries are
  granted only after a free 429 (`ModelProgress.AtMostOneBillable`).
- A receipt does not mean that a reply stays terminal: an operator may reopen it
  (`Pipeline.RecoveryOutlivesReceipt`).
- Waiting exactly the announced number of seconds can be refused again, because the window test includes
  its first millisecond (`Identity.RetryAfterIsExact`, with a run in
  `IdentityExample.ExactWaitIsRefused`).
- The hourly limit needs no assumption on clocks, because rows from the future are counted as recent
  (`Identity.HourlyLimit`).
- The replay branch of the link command answers "linked" to any linked account that presents any spent
  link token, not only to the account that consumed it (`TelegramReplies.MisattributedSuccessIff`, with a
  run in `IdentityExample.SpentTokenOfAnother`).
- The replay branches do not know what the first worker found. A token is spent by a refusal too, so
  after a crash a link command first found late, or made by an account already linked, is answered
  "linked" if the account is linked, and an unlink command first found late, or whose link was gone, is
  answered "unlinked" if the account is unlinked (`TelegramReplies.LinkReplay`,
  `TelegramReplies.UnlinkReplay`, with runs in `IdentityExample.RefusalReplayedAsSuccess` and
  `IdentityExample.UnlinkRefusalReplayedAsSuccess`).
- A link command takes effect before its user's window is checked. In a minute that is full for the user
  the link is made and nobody is told, while an unlink token stays unspent (`TelegramEvents.LimitedIff`).
- The branch of the event claim that answers from a stored refusal is unreachable
  (`Intake.StoredRefusalUnreachable`), and so is the refusal for a spent dispatch grant
  (`ModelProgress.DispatchLimitUnreachable`).

Times are integers: milliseconds, and for calendars a day or month number. Amounts are micro-dollars.
Column constraints are proved as invariants of every transaction, not modelled as failures of it.
`dafny verify dfyconfig.toml` checks the whole project.

## Model

| member | source | states |
|---|---|---|
| `ModelTheorems.EveryRun` | packages/adapters/src/postgres/model-operation-store.ts:220-1141 | In every run from empty tables, whatever workers, provider and clocks do: row constraints and attempt bookkeeping hold, each account equals the sum of what is charged to it, lineages are bounded, daily counters count, alerts are downward closed |
| `ModelTheorems.EveryHonestRun` | packages/adapters/src/postgres/model-operation-store.ts:317-335 | If every paid answer is priced from its usage and its exact price is at most the registered maximum of its operation, then in every run no account exceeds its ceiling, a full environment account has its switch on and every due alert is recorded |
| `ModelTheorems.EveryMeteredRun` | packages/domain/src/model/model-operation.ts:36-82 | So it is in particular if no answer uses more input or output tokens than its profile allows |
| `ModelTheorems.CallsAreBounded` | packages/adapters/src/postgres/model-operation-store.ts:716-741 | For any operation of any run: at most one call that may be charged, at most two operations and two such calls per lineage, at most five rewrites of the row in whatever follows |
| `ModelTheorems.OpenReportsAreRecorded` | packages/adapters/src/postgres/model-operation-store.ts:783-800 | Every report by a worker finds its operation, and a report on an attempt still open is recorded |
| `ModelTheorems.ClaimsFindTheirRows` | packages/adapters/src/postgres/model-operation-store.ts:639-665 | A claim in a reachable state is unavailable only if the generated attempt id collides: the account rows it reads exist |
| `ModelTheorems.PaidCallsReachable` | packages/adapters/src/postgres/model-operation-store.ts:503-781 | Every acceptable paid request can be in flight in some run, so the results are about something |
| `ModelRegistry.NanoCost` | packages/adapters/src/model/openai-model-gateway.ts:225-233 | The charged cost is the least whole micro-dollar amount that covers the exact price |
| `ModelRegistry.CostWithinReservation` | packages/domain/src/model/model-operation.ts:36-82 | Usage within a profile never costs more than the profile reserves, and a full uncached answer costs exactly that |
| `ModelRegistry.OverrunIffPriceOverruns` | packages/adapters/src/model/openai-model-gateway.ts:225-233 | Rounding up never causes an overrun: the cost exceeds the reservation exactly when the exact price does |
| `ModelRegistry.PriceList` | packages/adapters/src/model/openai-model-gateway.ts:225-233 | The price list per million tokens; cached tokens are part of the input and displace uncached ones, and what is reported beyond the input counts for nothing |
| `ModelRegistry.ProfilesFit` | packages/domain/src/model/model-operation.ts:36-82 | One more dispatch than retries and one chargeable attempt; a call and the pause fit into the operation's time, which ends 20 seconds or more before a lease does |
| `ModelRuns.CountUtf8Bytes` | packages/domain/src/model/model-operation.ts:304-311 | The loop over code points returns the length of the text's UTF-8 encoding |
| `ModelMachine.StepKeepsMachine` | packages/adapters/src/postgres/migrations/0011-model-operations.ts:143-262 | Every transaction keeps all row constraints; attempts have ordinals 1 to the dispatch count, each once; only the current attempt is open; status, counters and reservation agree |
| `ModelMachine.ReachableStatesFit` | packages/adapters/src/postgres/model-operation-store.ts:503-913 | The same over any sequence of requests, wake-ups, reports and restarts |
| `ModelMachine.InFlight` | packages/adapters/src/postgres/migrations/0011-model-operations.ts:214-262 | The attempt a dispatched operation points at exists, is its own and is open |
| `ModelProgress.StepMovesForward` | packages/adapters/src/postgres/model-operation-store.ts:783-901 | A step leaves an operation's row alone or strictly lowers (retries left, status); a terminal row is never touched, late and repeated reports included |
| `ModelProgress.RewritingsBounded` | packages/adapters/src/postgres/model-operation-store.ts:503-901 | However long the run, an operation's row is rewritten at most five times |
| `ModelProgress.TerminalForever` | packages/adapters/src/postgres/model-operation-store.ts:536-548 | A finished operation keeps its row for ever |
| `ModelProgress.ClosedForever` | packages/adapters/src/postgres/model-operation-store.ts:800-900 | A recorded attempt is never rewritten, whoever reports on it later |
| `ModelProgress.DispatchLimitUnreachable` | packages/adapters/src/postgres/model-operation-store.ts:607-635 | The refusal for a spent dispatch grant cannot happen to an operation of the registry |
| `ModelProgress.AtMostOneBillable` | packages/adapters/src/postgres/model-operation-store.ts:843-860 | Every attempt but the newest was rejected by a transient 429 and cost nothing, so the registry's promise of one potentially billable attempt is kept although nothing reads it |
| `ModelProgress.ClaimedWindow` | packages/adapters/src/postgres/model-operation-store.ts:716-763 | A claimed call's provider timeout fits the remaining time, and claim time plus remaining time is the deadline; that is before the lease ends if and only if the claim's clock is behind the creation's by less than what the lease exceeds the total time by, which is at least 20 seconds |
| `ModelProgress.ScheduledRetryFits` | packages/adapters/src/postgres/model-operation-store.ts:800-841 | A scheduled retry is one second away and not after the deadline |
| `ModelBudget.MoneyIsConserved` | packages/adapters/src/postgres/model-operation-store.ts:487-501 | Over every interleaving each monthly account holds exactly the reserved and settled cost of the provider operations charged to it |
| `ModelBudget.CompletionMovesMoney` | packages/adapters/src/postgres/model-operation-store.ts:862-899 | A completion moves the two accounts by exactly the change of its operation's reservation and settlement; a scheduled retry and an unknown outcome move nothing |
| `ModelBudget.RejectionMovesMoney` | packages/adapters/src/postgres/model-operation-store.ts:579-605 | A refused claim returns the reservation to both accounts |
| `ModelBudget.AccountsNeverNegative` | packages/adapters/src/postgres/migrations/0011-model-operations.ts:9-30 | Releasing never takes an account below zero: it still holds the reservations of all other operations |
| `ModelSpend.SpendStaysWithinCeilings` | packages/adapters/src/postgres/model-operation-store.ts:317-335 | The spending rules of honest runs, from any state that satisfies them |
| `ModelSpend.AnswerRaisesIffOverReserved` | packages/adapters/src/postgres/model-operation-store.ts:862-872 | An answer raises what its accounts have committed if and only if it costs more than was reserved: settlement is not limited |
| `ModelSpend.PricedAnswerRaisesIff` | packages/adapters/src/model/openai-model-gateway.ts:225-233 | So an answer priced from its usage raises what its accounts have committed if and only if the exact price is above the registered maximum |
| `ModelSpend.DishonestUsageOverruns` | packages/adapters/src/postgres/model-operation-store.ts:862-872 | For any paid call in flight there is a usage whose own price takes the environment account over the ceiling without tripping the switch |
| `ModelSpend.AlertsStayClosed` | packages/adapters/src/postgres/model-operation-store.ts:179-218 | Alert rows are never lost and with every threshold all lower ones are recorded, whatever the provider charges |
| `ModelSpend.SwitchStopsSpending` | packages/adapters/src/postgres/model-operation-store.ts:637-675 | Once on, the kill switch stays on, and no operation is added to that account and no call dispatched for it again |
| `ModelLineage.LineageHolds` | packages/adapters/src/postgres/model-operation-store.ts:934-1118 | In every run a restart hangs off a root with the same terms whose outcome is unknown for ever; lineages are acyclic and within the restart limit |
| `ModelLineage.LineageBounded` | packages/adapters/src/postgres/model-operation-store.ts:949-960 | A lineage has at most one operation and one chargeable call per grant plus one for its root |
| `ModelLineage.RestartIsIdempotent` | packages/adapters/src/postgres/model-operation-store.ts:925-944 | A restart whose id exists changes nothing, and a granted restart leaves its source untouched |
| `ModelLineage.RestartRepeats` | packages/adapters/src/postgres/model-operation-store.ts:925-944 | In any later state, repeating an accepted restart is answered as a duplicate if and only if user and source are the same, is refused otherwise, and changes nothing |
| `ModelLineage.DailyCeilingHolds` | packages/adapters/src/postgres/model-operation-store.ts:677-741 | Each user's counter for a day is the number of provider calls started for that user that day, never above twenty |
| `ModelExecution.WhileCalling` | packages/adapters/src/postgres/model-operation-store.ts:518-566 | While a worker calls the provider, only a wake-up after the end of the lease can take its attempt away |
| `ModelExecution.SuccessIsStoredIffReportedInTime` | packages/domain/src/model/model-operation.ts:415-488 | A worker with a valid answer always reports success; the stored operation agrees if and only if no wake-up came between the end of the lease and the report |
| `ModelExecution.IssuedForever` | packages/domain/src/model/model-operation.ts:415-430 | The authority handed to a worker is never changed by later steps |
| `ModelRequests.RequestDecides` | packages/domain/src/model/model-operation.ts:314-363 | Every request: invalid, duplicate or conflicting by its digest, refused by the switch, the environment's or the user's ceiling over what their operations hold and have cost, or prepared; only the last changes the tables |
| `ModelRequests.PreparedTables` | packages/adapters/src/postgres/model-operation-store.ts:337-436 | A prepared operation's row, and the booking of its maximum cost on both accounts of the month |
| `ModelRequests.ReserveBooks` | packages/adapters/src/postgres/model-operation-store.ts:179-218 | A booking opens missing accounts with the registry's ceilings, raises both reservations, switches off exactly a full environment and adds exactly the due alerts |
| `ModelRequests.RestartDecides` | packages/adapters/src/postgres/model-operation-store.ts:915-1041 | Every restart: refused for whose, which or how the source is, for an id in use, for a lineage already restarted, or by the budget; granted in every other case |
| `ModelRequests.RestartedTables` | packages/adapters/src/postgres/model-operation-store.ts:1042-1118 | A granted restart is a new operation of the same lineage and terms, booked like any other, and nothing else changes |
| `ModelClaims.ClaimDecides` | packages/adapters/src/postgres/model-operation-store.ts:579-716 | A ready operation with a fresh attempt id is refused if and only if its deadline has passed, else its budget is off, else its user started twenty paid calls that day; in every other case it is granted its call |
| `ModelClaims.GrantedCall` | packages/adapters/src/postgres/model-operation-store.ts:716-763 | The authority of a granted call: the first unused number, the remaining time, the call's own time within it, and a retry exactly before the first call |
| `ModelClaims.GrantedTables` | packages/adapters/src/postgres/model-operation-store.ts:677-741 | A granted call puts the operation into the new attempt's hands for thirty seconds, counts for its user and day exactly if it is paid, and moves no money |
| `ModelClaims.RefusedTables` | packages/adapters/src/postgres/model-operation-store.ts:579-712 | A refused claim ends the operation as rejected with the refusal, keeps what it cost and gives its reservation back to both accounts |
| `ModelClaims.OtherWakeUps` | packages/adapters/src/postgres/model-operation-store.ts:503-577 | A wake-up for an operation that is not ready is answered from the row; it changes something only if the lease has run out |
| `ModelClaims.OverdueTables` | packages/adapters/src/postgres/model-operation-store.ts:536-566 | An overdue attempt and its operation end as unknown; the reservation stays and no money moves |
| `ModelClaims.WakeUpIsTold` | packages/domain/src/model/model-operation.ts:415-440 | What the caller of a wake-up that cannot start a call is told, by the row |
| `ModelClaims.RefusalIsTold` | packages/domain/src/model/model-operation.ts:415-440 | A refused caller is told the failure that is stored; only a taken attempt id makes the store unavailable |
| `ModelReports.FailureDecides` | packages/domain/src/model/model-gateway.ts:157-209 | Each failure's final status, settlement, reservation and retry, without reference to how they are computed: the full reservation is settled exactly for a refusal, a truncation and a decoding failure, and kept exactly for the five unclear failures and a scheduled retry |
| `ModelReports.AnswerDecides` | packages/adapters/src/postgres/model-operation-store.ts:843-899 | An answer ends the operation as succeeded or invalid by its dates and settles exactly its cost |
| `ModelReports.PaidFailureSettles` | packages/adapters/src/postgres/model-operation-store.ts:862-872 | The same for the two accounts of a paid operation, whose settled amounts rise by the full reservation if and only if the provider may have charged |
| `ModelReports.ReportIsLocal` | packages/adapters/src/postgres/model-operation-store.ts:783-901 | A report changes its own row only, and the two accounts move exactly as the row does |
| `ModelReports.AttemptCloses` | packages/adapters/src/postgres/model-operation-store.ts:826-842 | The attempt is closed with what was reported, and has a cost exactly if it was answered |
| `ModelReports.LateReportChangesNothing` | packages/adapters/src/postgres/model-operation-store.ts:783-800 | A report on an attempt that is not the current one changes nothing |
| `ModelReports.ReportIsTold` | packages/domain/src/model/model-operation.ts:441-488 | What the caller is told after a report in time: the answer, the failure, or to come back in a second |
| `ModelReports.LateReportIsTold` | packages/domain/src/model/model-operation.ts:441-488 | What the caller is told after a late report: success for a valid answer all the same, else what the operation ended with |
| `ModelStore.ModelOperationStore.RecordBudgetThresholds` | packages/adapters/src/postgres/model-operation-store.ts:179-218 | Inserts exactly the alerts that are due on both accounts and trips the switch of a full environment |
| `ModelStore.ModelOperationStore.ReserveOnAccounts` | packages/adapters/src/postgres/model-operation-store.ts:311-352 | Opens missing accounts and reserves on both, or refuses and changes nothing |
| `ModelStore.ModelOperationStore.PrepareOperation` | packages/adapters/src/postgres/model-operation-store.ts:220-436 | Duplicate, conflict, refusal or a new row with its reservation |
| `ModelStore.ModelOperationStore.PrepareModelOperation` | packages/domain/src/model/model-operation.ts:314-363 | Rejects an oversized or malformed request before any row is touched, else prepares it with the registry's terms |
| `ModelStore.ModelOperationStore.ReleaseReservation` | packages/adapters/src/postgres/model-operation-store.ts:487-501 | Moves a reservation to settled cost on both accounts; does nothing for deterministic operations or an empty reservation |
| `ModelStore.ModelOperationStore.Claim` | packages/adapters/src/postgres/model-operation-store.ts:503-781 | Does exactly what the claim of ModelClaims.ClaimDecides does, branch by branch in the source's order, and keeps the tables valid |
| `ModelStore.ModelOperationStore.Complete` | packages/adapters/src/postgres/model-operation-store.ts:783-913 | Does exactly what the report of ModelReports.FailureDecides and AnswerDecides does: retry scheduling, settlement, terminal row |
| `ModelStore.ModelOperationStore.Restart` | packages/adapters/src/postgres/model-operation-store.ts:915-1141 | Ownership, replay, outcome, limit and budget checks, then a new row of the same lineage |
| `ModelStore.ModelOperationStore.Report` | packages/adapters/src/postgres/model-operation-store.ts:783-913 | A report finds its operation, is recorded if its attempt is open, and takes the tables where the report step of a run does |
| `ModelStore.ModelOperationStore.ExecutePrepared` | packages/domain/src/model/model-operation.ts:415-488 | Claim, one provider call, one report, with any other events in between; a valid answer is returned as success, and stored as success if and only if the lease was not recovered first |
| `Outbox.OutboxHolds` | packages/adapters/src/postgres/outbox-store.ts:83-366 | Row constraints hold in every run, messages keep their target, a receipt is never lost and keeps the time of the first consumption |
| `Outbox.RetryDelayBounded` | packages/domain/src/outbox/outbox-delivery.ts:271-275 | Every retry delay satisfies its schema, so recording a failure cannot itself fail; delays never shrink and end at 30 minutes |
| `Outbox.ClaimsBounded` | packages/adapters/src/postgres/outbox-store.ts:124-170 | A message is claimed at most five times plus five per operator recovery, in any run |
| `Outbox.ConsumedStaysQuiet` | packages/adapters/src/postgres/outbox-store.ts:87-126 | Once consumed, a message is never claimed or recovered again |
| `Outbox.StaleClaimIsHarmless` | packages/adapters/src/postgres/outbox-store.ts:56-81 | A dispatcher that lost its claim changes no row, and meets a conflict unless the message is published |
| `Outbox.LeaseExcludes` | packages/adapters/src/postgres/outbox-store.ts:140-162 | While a lease runs and nothing is consumed, no other dispatch claims or changes the message |
| `Outbox.NoMessageIsStranded` | packages/adapters/src/postgres/outbox-store.ts:101-162 | A due, unconsumed message that is picked is claimed again if and only if attempts are left, and failed otherwise |
| `OutboxDispatches.TakesIff` | packages/adapters/src/postgres/outbox-store.ts:83-162 | The four updates together claim exactly the picked messages without a receipt that wait, or whose receipt is ten minutes overdue, and have fewer than five attempts |
| `OutboxDispatches.TakenIsHeld` | packages/adapters/src/postgres/outbox-store.ts:140-162 | A claimed message is held for two minutes, for one attempt more |
| `OutboxDispatches.OthersAfterDispatch` | packages/adapters/src/postgres/outbox-store.ts:83-140 | What a dispatch makes of every other message: reconciled, sent back, failed, or left alone |
| `OutboxDispatches.NewMessageWaits` | packages/adapters/src/postgres/telegram-ingress-store.ts:62-86 | A new message is claimed by any dispatch from then on that picks it |
| `OutboxDispatches.PausesDouble` | packages/domain/src/outbox/outbox-delivery.ts:271-275 | Pauses are 30 seconds, doubled by every attempt, and 30 minutes from the seventh on |
| `OutboxDispatches.ReportsDecide` | packages/adapters/src/postgres/outbox-store.ts:187-273 | What the holder's report stores, and what everybody else is answered |
| `OutboxDispatches.ConsumptionDecides` | packages/adapters/src/postgres/outbox-store.ts:275-318 | The first consumption leaves a receipt, every other one counts, and no dispatch claims the message afterwards |
| `OutboxDispatches.RecoveryDecides` | packages/adapters/src/postgres/outbox-store.ts:335-366 | Exactly the failed, never consumed messages can be brought back, and the next dispatch that picks such a message claims it |
| `Intake.PersistKeeps` | packages/adapters/src/postgres/telegram-ingress-store.ts:38-61 | A webhook delivery keeps one event per update, exact windows and every existing event |
| `Intake.ClaimKeeps` | packages/adapters/src/postgres/telegram-event-processing-store.ts:60-199 | A claim counts an event in its two windows at most once and admits it only within both limits; terminal events never change |
| `Intake.EnforceUserLimitKeeps` | packages/adapters/src/postgres/telegram-event-processing-store.ts:326-403 | The user's window counts an event at most once and admits it only within the limit |
| `Intake.CompleteKeeps` | packages/adapters/src/postgres/telegram-event-processing-store.ts:201-236 | Completion keeps windows exact and rows constrained; a stale claim changes nothing |
| `Intake.ReleaseKeeps` | packages/adapters/src/postgres/telegram-event-processing-store.ts:405-422 | A release keeps the abuse decision, so a re-claim is not counted again |
| `Intake.StoredRefusalUnreachable` | packages/adapters/src/postgres/telegram-event-processing-store.ts:107-109 | The branch that answers from a stored refusal cannot be reached: a rate-limited claim decides an undecided event, against a full window |
| `Intake.UserVerdictIsFinal` | packages/adapters/src/postgres/telegram-event-processing-store.ts:342-347 | A user refusal needs a full window and suppresses the event; an admission is reused without counting |
| `Intake.DeferralReachesLeaseEnd` | packages/adapters/src/postgres/telegram-event-processing-store.ts:94-106 | A deferred worker that waits as told finds the lease it met expired |
| `IntakeClaims.EventClaimExcludes` | packages/adapters/src/postgres/telegram-event-processing-store.ts:94-106 | For sixty seconds other jobs change nothing and are told to wait that long; then the next one takes the event over and the late worker can neither complete nor release it |
| `IntakeClaims.EventClaimDecides` | packages/adapters/src/postgres/telegram-event-processing-store.ts:60-199 | A free event is claimed unless it is new in a minute in which 300 events, or 30 of its account, were decided; then it is suppressed. Its two windows count it exactly once |
| `IntakeClaims.UserLimitDecides` | packages/adapters/src/postgres/telegram-event-processing-store.ts:326-403 | A held, undecided event is admitted if and only if fewer than 30 events of the user were decided in that minute |
| `IntakeClaims.StaleWorkerIsHarmless` | packages/adapters/src/postgres/telegram-event-processing-store.ts:326-347 | A worker that does not hold the event can do nothing with it |
| `IntakeClaims.ArrivalDecides` | packages/adapters/src/postgres/telegram-ingress-store.ts:38-61 | An update is accepted exactly if it was never seen, and waits with its content |
| `IntakeClaims.CompletionDecides` | packages/adapters/src/postgres/telegram-event-processing-store.ts:201-236 | Only the holder completes; the ending, owner and recorded text are the completion's, and later jobs are told that it is done |
| `IntakeClaims.ReleaseDecides` | packages/adapters/src/postgres/telegram-event-processing-store.ts:405-422 | A released event is claimed by the next job at once and not counted again |
| `Delivery.ClaimKeeps` | packages/adapters/src/postgres/telegram-delivery-store.ts:82-158 | Expiry, exhaustion or a new attempt keep: attempt rows equal the counter, every attempt but the last is an explicit rejection, the claim is the last attempt |
| `Delivery.CompleteKeeps` | packages/adapters/src/postgres/telegram-delivery-store.ts:175-251 | Recording an outcome keeps the same, never rewrites a completed attempt, and is refused to a late worker |
| `Delivery.PrepareKeeps` | packages/adapters/src/postgres/telegram-delivery-recovery-store.ts:63-183 | Reopening keeps the same; accepted and unknown replies are never reopened, and a reply is recovered at most twice |
| `Delivery.MarkPublishedKeeps` | packages/adapters/src/postgres/telegram-delivery-recovery-store.ts:192-231 | Marking a recovery published changes no reply and no attempt |
| `Delivery.AttemptsBounded` | packages/adapters/src/postgres/telegram-delivery-store.ts:118-128 | A reply has at most three provider attempts and two recoveries, and two attempts are never both anything but explicit rejections |
| `Delivery.RecoveryRepeats` | packages/adapters/src/postgres/telegram-delivery-recovery-store.ts:67-103 | Repeating a recovery id in any later state changes nothing and names the same queue message; other arguments are a conflict |
| `DeliveryClaims.ClaimExcludes` | packages/adapters/src/postgres/telegram-delivery-store.ts:82-116 | For sixty seconds every other job changes nothing and is told to come back then; after that the first one ends attempt and reply as unknown, and the late worker's report is refused |
| `DeliveryClaims.ReportInTimeIsRecorded` | packages/adapters/src/postgres/telegram-delivery-store.ts:175-215 | However many jobs come within those sixty seconds, the holder's report is recorded as it is |
| `DeliveryClaims.ClaimDecides` | packages/adapters/src/postgres/telegram-delivery-store.ts:82-158 | A pending reply with fewer than three attempt rows is claimed for its next one, the fourth job ends it as exhausted, and finished or held replies are left alone |
| `DeliveryClaims.NewReplyIsClaimed` | packages/adapters/src/postgres/telegram-event-processing-store.ts:237-290 | A new reply says what its completion says, to its owner, and the first job claims it |
| `DeliveryClaims.OutcomeDecides` | packages/adapters/src/postgres/telegram-delivery-store.ts:175-251 | What each reported outcome leaves in the reply and the attempt |
| `DeliveryClaims.AnotherAttemptIff` | packages/adapters/src/postgres/telegram-delivery-store.ts:118-128 | After a report another job gets an attempt if and only if the failure was transient and this was not the third attempt |
| `DeliveryClaims.RecoveryDecides` | packages/adapters/src/postgres/telegram-delivery-recovery-store.ts:104-183 | A new recovery is prepared exactly for a reply that failed with the named error and has attempts left; every refusal names what was missing |
| `DeliveryClaims.RecoveredReplyIsClaimed` | packages/adapters/src/postgres/telegram-delivery-recovery-store.ts:131-156 | The next job claims a reopened reply |
| `DeliveryClaims.MarkDecides` | packages/adapters/src/postgres/telegram-delivery-recovery-store.ts:192-231 | A recovery is marked as published once, and a repetition of its request is told so |
| `Pipeline.StepKeeps` | apps/api/src/index.ts:343-355 | Every step of any webhook, dispatcher, worker, provider call or operator keeps the invariant that links events, replies, attempts, sends and receipts |
| `Pipeline.ReachableStatesFit` | apps/api/src/index.ts:343-355 | The invariant holds in every run from empty tables |
| `Pipeline.AtMostOnce` | packages/adapters/src/postgres/telegram-delivery-store.ts:82-165 | For any run with duplicate webhooks and jobs, crashes, expired leases and recoveries: one update has at most one event, one reply and one provider call that reached the user |
| `Pipeline.StatusIsTruthful` | packages/domain/src/channel/deliver-telegram-reply.ts:192-238 | An accepted reply's last attempt reached the user; no attempt of a failed reply did |
| `Pipeline.ConsumedMeansDone` | apps/api/src/index.ts:343-355 | A receipt says its event is processed or suppressed, or its reply terminal or reopened by a recorded recovery |
| `Pipeline.RepliesBounded` | packages/adapters/src/postgres/telegram-delivery-recovery-store.ts:127-146 | Over every run three attempts and two recoveries per reply; accepted and unknown replies never change again |
| `Pipeline.SettledForever` | packages/adapters/src/postgres/telegram-delivery-store.ts:82-84 | Provider acceptance and unknown outcome are absorbing |
| `Pipeline.WindowsAreExact` | packages/adapters/src/postgres/telegram-event-processing-store.ts:111-166 | In every run each minute window's count is the number of events decided in it, and at most 300 in all, 30 per account and 30 per user are admitted |
| `Pipeline.RecoveryOutlivesReceipt` | packages/adapters/src/postgres/telegram-delivery-recovery-store.ts:131-156 | An operator's request reopens a consumed reply if and only if it failed terminally with that error code and has attempts left; the receipt stays |
| `Pipeline.RowsAgree` | packages/adapters/src/postgres/telegram-event-processing-store.ts:201-318 | In every run a reply is for the owner of its processed event, accepted texts are recorded for exactly the events that ended so and for their owners, and no event or reply has two queue messages |
| `PipelineExample.RecoveryCanDeliver` | packages/domain/src/channel/recover-telegram-delivery.ts:162-190 | In some run an attempt is rejected and its message consumed, an operator recovers the reply, and the second attempt alone reaches the user |
| `TelegramRuns.EventJobIsARun` | apps/api/src/index.ts:343-355 | Whatever an event job does without interference, receipt included, a worker does in some run: the steps do not do less than the jobs |
| `TelegramRuns.ReplyJobIsARun` | apps/api/src/index.ts:343-355 | The same for reply jobs, with one provider call exactly if an attempt was claimed |
| `TelegramStore.TelegramDatabase.PersistEvent` | packages/adapters/src/postgres/telegram-ingress-store.ts:34-86 | Event and queue message are inserted together, or nothing is |
| `TelegramStore.TelegramDatabase.ClaimEvent` | packages/adapters/src/postgres/telegram-event-processing-store.ts:60-199 | The claim transaction on the tables, joined through the queue message |
| `TelegramStore.TelegramDatabase.EnforceUserLimit` | packages/adapters/src/postgres/telegram-event-processing-store.ts:326-403 | The user-limit transaction on the tables |
| `TelegramStore.TelegramDatabase.CompleteEvent` | packages/adapters/src/postgres/telegram-event-processing-store.ts:201-318 | Event with its ending and owner, normalized text, reply with its intent and owner, and the reply's queue message change together, or nothing does |
| `TelegramStore.TelegramDatabase.ReleaseEvent` | packages/adapters/src/postgres/telegram-event-processing-store.ts:405-422 | Only the current claim returns an event to pending |
| `TelegramStore.TelegramDatabase.ClaimReply` | packages/adapters/src/postgres/telegram-delivery-store.ts:49-173 | The claim of DeliveryClaims.ClaimDecides on the tables, joined through the queue message |
| `TelegramStore.TelegramDatabase.CompleteAttempt` | packages/adapters/src/postgres/telegram-delivery-store.ts:175-258 | Attempt and reply rows after a reported outcome |
| `TelegramStore.TelegramDatabase.PrepareRecovery` | packages/adapters/src/postgres/telegram-delivery-recovery-store.ts:63-190 | The recovery checks in the source's order, with the reply's queue message found by the join, then the reopened reply and its recovery row |
| `TelegramStore.TelegramDatabase.MarkRecoveryPublished` | packages/adapters/src/postgres/telegram-delivery-recovery-store.ts:192-231 | Published, already published or not found |
| `TelegramStore.TelegramDatabase.ClaimPending` | packages/adapters/src/postgres/outbox-store.ts:83-179 | The four bulk updates in sequence are one dispatch, and exactly the picked, eligible messages are claimed |
| `TelegramStore.TelegramDatabase.MarkPublished` | packages/adapters/src/postgres/outbox-store.ts:187-224 | Only the current claim publishes; otherwise done, conflict or missing by the row's status |
| `TelegramStore.TelegramDatabase.RecordPublicationFailure` | packages/adapters/src/postgres/outbox-store.ts:226-273 | Only the current claim records a failure, terminal or with a delay |
| `TelegramStore.TelegramDatabase.RecordConsumption` | packages/adapters/src/postgres/outbox-store.ts:275-318 | First, repeated or missing consumption |
| `TelegramStore.TelegramDatabase.RecoverFailedPublication` | packages/adapters/src/postgres/outbox-store.ts:335-366 | Resets exactly a failed, never consumed message |
| `TelegramStore.IdentityDatabase.OldestOf` | packages/adapters/src/postgres/identity-store.ts:233-243 | The minimum of the creation times counted by the rate limit |
| `TelegramStore.IdentityDatabase.CreateChallenge` | packages/adapters/src/postgres/identity-store.ts:215-295 | Authority, target and window checks, then one challenge row |
| `TelegramStore.IdentityDatabase.ConsumeLink` | packages/adapters/src/postgres/identity-store.ts:297-429 | One link challenge against the tables |
| `TelegramStore.IdentityDatabase.ConsumeUnlink` | packages/adapters/src/postgres/identity-store.ts:528-628 | One unlink challenge against the tables |
| `TelegramStore.IdentityDatabase.Resolve` | packages/adapters/src/postgres/identity-store.ts:630-687 | The one active row whose ledger belongs to its user, or not linked |
| `TelegramWorker.ProcessTelegramEvent` | packages/domain/src/channel/process-telegram-event.ts:281-481 | Does exactly what Handle says: claim, count for the user, answer by the stored content, complete. It ends exactly if the event does; a processed event has one new reply that holds the answer, and a queue message for it; every other outcome adds no reply |
| `TelegramWorker.AnswerLinkCommand` | packages/domain/src/channel/process-telegram-event.ts:366-416 | The link branch, replay through the current link included; the event counts for the owner in its answer, after the token was consumed |
| `TelegramWorker.AnswerUnlinkCommand` | packages/domain/src/channel/process-telegram-event.ts:417-476 | The unlink branch; the event counts for the owner of the account first, and a refusal leaves the token unspent |
| `TelegramWorker.DeliverTelegramReply` | packages/domain/src/channel/deliver-telegram-reply.ts:175-240 | At most one provider call, exactly when an attempt was claimed; its report is what is recorded, and the outcome is final exactly if the reply is |
| `TelegramWorker.ProcessOutboxJob` | apps/api/src/index.ts:343-355 | The event is handled or the reply delivered; the job is acknowledged exactly if that work is over afterwards (for a reply, and delivery was available), and then its receipt is written or counts one more; a job that names no message changes nothing |
| `TelegramWorker.RecoverTelegramDelivery` | packages/domain/src/channel/recover-telegram-delivery.ts:162-190 | Prepare, publish at most one job, mark; an unpublished job leaves the preparation for the next try |
| `TelegramWorker.PublishClaimed` | packages/domain/src/outbox/outbox-delivery.ts:289-360 | Reports every publication, in any order, until all are recorded or one has lost its claim: there is a conflict if and only if some claim was lost, and only held claims change a row |
| `TelegramWorker.DispatchPendingOutbox` | packages/domain/src/outbox/outbox-delivery.ts:278-374 | After anything that others did meanwhile, the dispatch fails if and only if a claim was lost; else claimed, published, deferred and failed count the publications by the queue's answers and their attempts, and every row ends as they say |
| `TelegramWorker.ConclusionsAreExact` | packages/domain/src/outbox/outbox-delivery.ts:300-345 | After a dispatch a message is published if and only if the queue took it, failed if and only if its attempts are used, and otherwise due in ten minutes if the answer is unknown, or after the doubling pause |
| `TelegramWorker.DeliveryIsTold` | packages/domain/src/channel/deliver-telegram-reply.ts:192-238 | What a delivery job tells is how the reply stands afterwards, and the seconds are those of the claim it met |
| `TelegramWorker.PublicationsDecide` | packages/domain/src/outbox/outbox-delivery.ts:278-300 | A dispatch publishes exactly the picked messages that wait, have attempts left and were never consumed, each as its next attempt |
| `TelegramWorker.UndisturbedDispatch` | packages/domain/src/outbox/outbox-delivery.ts:289-360 | If nobody else acts no claim is lost |
| `TelegramReplies.LinkReplay` | packages/domain/src/channel/process-telegram-event.ts:376-398 | Processing a link event again after a crash changes nothing and answers by the current link alone: the first answer is repeated exactly if the account has the same owner as then, and a first answer that the token was late or the account linked is never repeated |
| `TelegramReplies.UnlinkReplay` | packages/domain/src/channel/process-telegram-event.ts:443-455 | The same for unlink events: success is answered exactly if the account is unlinked by then, and a first answer that the token was late or the link gone is never repeated |
| `TelegramReplies.LinkSucceededIff` | packages/domain/src/channel/process-telegram-event.ts:366-416 | Exactly when a user is told that linking succeeded: the token was consumed now, or it is spent and the account is linked |
| `TelegramReplies.MisattributedSuccessIff` | packages/domain/src/channel/process-telegram-event.ts:376-398 | Exactly when success is answered for a token that did not make the account's link: the token is a spent link token and the link comes from another one |
| `IdentityExample.SpentTokenOfAnother` | packages/domain/src/channel/process-telegram-event.ts:376-398 | A run in which an account presents another user's spent token and is told that linking succeeded |
| `IdentityExample.RefusalReplayedAsSuccess` | packages/domain/src/channel/process-telegram-event.ts:366-416 | A run in which a link is refused because the account is linked, and the replay of that event answers success |
| `IdentityExample.UnlinkRefusalReplayedAsSuccess` | packages/domain/src/channel/process-telegram-event.ts:443-455 | A run in which an unlink is refused because the link is gone, and the replay of that event answers success |
| `IdentityExample.ExactWaitIsRefused` | packages/adapters/src/postgres/identity-store.ts:233-254 | A run in which a user waits exactly the announced seconds and is refused again |
| `TelegramReplies.UnlinkSucceededIff` | packages/domain/src/channel/process-telegram-event.ts:417-476 | Exactly when a user is told that unlinking succeeded; the account is then unlinked |
| `TelegramReplies.LinkRejections` | packages/domain/src/channel/process-telegram-event.ts:257-279 | Each reason for rejecting a link command, exactly when the tables give it |
| `TelegramReplies.UnlinkRejections` | packages/domain/src/channel/process-telegram-event.ts:257-279 | Each reason for rejecting an unlink command, exactly when the tables give it |
| `TelegramReplies.OtherAnswers` | packages/domain/src/channel/process-telegram-event.ts:300-365 | Texts are answered by the owner of their account, malformed commands by what they were, and neither changes anything |
| `TelegramReplies.StoredCompletion` | packages/domain/src/channel/process-telegram-event.ts:344-365 | A text is recorded exactly for the plain text of a linked account; the stored intent and owner are the answer's |
| `TelegramEvents.SubjectDecides` | packages/domain/src/channel/process-telegram-event.ts:344-455 | In whose window an event counts: the owner in its answer if there is one |
| `TelegramEvents.LimitedIff` | packages/domain/src/channel/process-telegram-event.ts:344-455 | A held event is refused for its user exactly if it is undecided and 30 events of the user were decided in that minute; a link is made all the same, an unlink token stays unspent; otherwise the event is admitted and counts |
| `TelegramEvents.JobDecides` | packages/domain/src/channel/process-telegram-event.ts:281-481 | Which free events are suppressed, processed or released, by the windows, the answer and the generated ids |
| `TelegramEvents.EndsIff` | packages/domain/src/channel/process-telegram-event.ts:281-343 | A job comes to an end exactly if its event is processed or suppressed afterwards |
| `Identity.ReachableStatesFit` | packages/adapters/src/postgres/migrations/0007-identity-foundation.ts:47-112 | In every run the row constraints hold, no account has two active links, no challenge made two, every hour is within the limit |
| `Identity.HourlyLimit` | packages/domain/src/identity/identity.ts:15-17 | Every closed hour holds at most five challenges of a user, in every run and for any clock |
| `Identity.LinksComeFromChallenges` | packages/adapters/src/postgres/identity-store.ts:318-378 | Every link comes from exactly one link challenge of its owner, consumed at that moment, before it expired |
| `Identity.LinkRefines` | packages/adapters/src/postgres/identity-store.ts:297-417 | Consuming a link challenge adds an owner to an account that had none, and otherwise leaves the map from accounts to owners alone |
| `Identity.UnlinkRefines` | packages/adapters/src/postgres/identity-store.ts:528-616 | Consuming an unlink challenge removes the presenting account, which belonged to the challenge's owner, and otherwise leaves the map alone |
| `Identity.ResolveReads` | packages/adapters/src/postgres/identity-store.ts:630-657 | Resolving an account reads that map |
| `Identity.SucceedsAtMostOnce` | packages/adapters/src/postgres/identity-store.ts:324-366 | In any run, for any clock, a challenge links or unlinks at most once |
| `Identity.RetryAfterIsExact` | packages/adapters/src/postgres/identity-store.ts:233-254 | Waiting the announced seconds admits the user if and only if enough of the counted challenges leave the window by then; without rows from the future, if and only if the oldest leaves it; past the first hour of the clock that fails exactly when the wait ends on the very millisecond at which it leaves |
| `IdentityDecisions.AskingDecides` | packages/adapters/src/postgres/identity-store.ts:215-295 | A challenge is stored exactly if the actor is entitled to it, asked for fewer than five within the hour and the digest is new; it then lives ten minutes |
| `IdentityDecisions.WaitAnnounced` | packages/adapters/src/postgres/identity-store.ts:233-254 | The announced seconds, rounded up, reach the moment at which the oldest counted challenge is an hour old |
| `IdentityDecisions.LinkDecides` | packages/adapters/src/postgres/identity-store.ts:297-417 | An account is linked exactly by an open link token when it is not linked; what spends the token and what does not |
| `IdentityDecisions.UnlinkDecides` | packages/adapters/src/postgres/identity-store.ts:528-616 | An account is unlinked exactly by an open unlink token for its own link; another account leaves the token as it was |
| `Base64Url.TokenRoundTrip` | packages/adapters/src/web-crypto/link-challenge-crypto.ts:11-14 | Decoding a token gives back its bytes; all characters are of the alphabet; 32 bytes make 43 of them |
| `Base64Url.TokensAreDistinct` | packages/adapters/src/web-crypto/link-challenge-crypto.ts:16-27 | Different random bytes have different tokens |
| `TelegramCommand.ParseDecides` | apps/api/src/telegram-webhook.ts:105-126 | The parser returns a purpose and token, an invalid command or plain text for exactly the texts that the two command grammars say |
| `TelegramCommand.TokensSpellBytes` | apps/api/src/telegram-webhook.ts:105-126 | A token is well formed exactly if the decoder accepts it and returns 32 bytes |
| `TelegramCommand.SpaceByCodePoint` | apps/api/src/telegram-webhook.ts:105-112 | The white space of the grammars, by code point |
| `TelegramCommand.TokenSurvives` | packages/adapters/src/telegram/deep-link.ts:14-22 | Any 32 bytes: the deep link carries the parameter unescaped, and both the sent and the typed command parse to the same purpose and token, which decodes to the bytes |

## Left out

- ModelTheorems.EveryHonestRun: assumes that paid answers are priced from their usage and within the registered maximum; `ModelSpend.DishonestUsageOverruns` shows that the code needs this.
- Pipeline.StatusIsTruthful: assumes that a provider that reports acceptance delivered and one that rejects explicitly did not; an unknown outcome may be either.
- Outbox.NoMessageIsStranded: says that a due message is claimed if the ordered, limited, lock-skipping selection picks it; that the selection eventually picks every message is not modelled.
- TelegramWorker.DispatchPendingOutbox: what others do comes between the claim and the first report; the source reports up to five publications at once, so others may also act between two reports. `Outbox.StaleClaimIsHarmless` and `Outbox.OutboxHolds` speak of any interleaving.
- Pipeline.ReachableStatesFit: workers begin jobs of existing messages only; a job that names none changes nothing, as `TelegramWorker.ProcessOutboxJob` states.
- SQL itself, row locks, `SKIP LOCKED`, grants, cascading deletes and migration runs: every store method is one atomic step.
- Database outages and lost connections: a step that does not happen; a worker may stop anywhere.
- Integer column widths: amounts, counters and identifiers are unbounded.
- JavaScript `Date` validation and schema decoding, except the input length and digest checks of a model request.
- Lone UTF-16 surrogates: texts are sequences of Unicode scalar values.
- The provider SDK, the Telegram HTTP call, queue transport and its retry delays, SHA-256 and random generation: their results are inputs.
- Rendering of replies, timezones, the wording and occurrence time of events, correlation identifiers, telemetry and logging.
- The bot user name's own pattern in a deep link: any name is carried through.
- HTTP routing, authentication, web pages, staging scripts and the legacy applications.
