# Agent runtime verification

A model of how an agent platform turns chat events into answers, and proofs that it does so in order,
once, and without losing track of what was done.

**Runs, lanes and deliveries.** Every conversation is a lane. Mentions, proactive sources and delegating
agents append runs to lanes; only the run at a lane's dispatch position may be claimed. A run goes through
routing, tool planning, tool execution, model and finalization phases under leases that expire, then
hands its answer to a delivery that has leases of its own, and releases the lane when it failed or its
message reached an end. `Rows` holds the tables, `Phases` the four places where the source encodes a
run's phase, `Transactions` what each database transaction does, and `Protocol` the system as a state
machine over those transactions together with its invariant. Workers are nothing but the rows they
scanned: every snapshot ever handed out may act at any later time, which covers crashes, late wake-ups and
lost responses. `Frames`, `Producers`, `ClaimSteps`, `WorkerSteps`, `CallSteps`, `SendSteps` and `Recovery`
prove that each kind of step keeps the invariant, `Safety` that every state of every history satisfies it,
and `LaneOrder`, `Fencing`, `Liveness` and `Outcomes` what follows for whole histories; `Histories` builds the
histories that show what can go wrong. `Leases`, `SendLeases` and `ToolLedger` say in the columns of the tables which rows
a transaction takes and what it makes of them, and for whole histories who has a row to itself and until when.

**Messages and the channel.** A delivery worker commits its claim and then calls the channel under no lease. The state
machine keeps the records whose one call is still to be made; `Transmissions` counts the calls and says when one can
come after the delivery ended, `TransmissionHistories` builds the histories in which it does.

**What the leases do not fence.** Three effects come from workers that may have lost their lease: tool calls (`Fencing.StaleStepsAreConfined`
confines them, `Fencing.ToolStartsOnce` counts them), delegations (idempotent by their key, `Outcomes.DelegatedOnce`), and the calls of the
channel above. `LostNumbers` follows lanes in which a concurrent duplicate of an event has used up a number.

**The stores as code.** `Tables`, `AgentStore`, `DeliveryStore`, `DelegationStore`, `ToolStore`, `AgentWorker` and
`ActionStore` are classes that update fields statement by statement, as the stores and workers do. Each method is
proved to amount to the function the state machine is built from, and a worker's whole turn is proved to be a
step of that machine; `TurnOutcomes` says what a turn leaves in the tables.

**Approved actions.** `Actions`, `ActionProtocol` and `ActionSteps` are a second state machine for approvals,
executions and tickets, where the insert of a ticket is not fenced by the lease and is made safe by its key alone.
`ActionOutcomes` says what it guarantees, `ActionFailures` and `ActionHistories` what a failure means and which
executions are never run again, `ActionLeases` who may take or approve what and until when, `ActionTurns` that the executor's
whole turn is a sequence of its steps, and `ExecutorOutcomes` what it leaves of the execution it claimed.

**Three smaller cores.** `Ranking` and `Router` (rank fusion over real-valued scores, on top of `Sorting`),
`Citations` (the Python and the Go validator of citations) and `Mentions` (the mention scanner, on top of `Text`).

Run `dafny verify dfyconfig.toml` to check everything.

## What does not hold

- A run is not always served. `Liveness.ServedIffNotStuck` gives the exact condition, `Liveness.StuckForGood` shows that a
  stuck head blocks its lane for ever. The causes are a worker lost on a phase's last attempt, an approval requested on the last
  execution attempt, and an agent version that allows more model attempts than the workers claim for. Each has a
  history under every limit: `Histories.LastWorkerLost`, `Histories.LastApprovalParked`, `Histories.RetryCanStrand`.
- The end of a delivery is not the end of its message. No call of the channel comes after a delivery ended as sent or uncertain if and only
  if the workers are configured with one attempt, and one can come after it ended as undelivered under every limit
  (`TransmissionHistories.QuietIffOneAttempt`); `Transmissions.LateTransmissionIff` says which ended deliveries have calls to come.
  An `undelivered` message may so have reached its reader, and an accepted one may do so twice.
- "A claim moves exactly one counter" fails for runs whose tool was denied (`Histories.ClaimCanChargeTwice`);
  `Phases.ChargeMovesOneCounter` says what moves instead, and `Phases.FilterAgreesIff` when filter and counter still agree.
- "A failed execution has no ticket" holds if and only if the executors are given at most two attempts
  (`ActionHistories.FailureMeansAbsentIff`, with `ActionHistories.FailedButInserted` from three on). `ActionFailures.LateTicketIff` says
  which failed executions may still get their ticket.
- An approved action may rest in `queued` or `unknown` for ever: exactly when its attempts are used up
  (`ActionOutcomes.ClaimedAgainIff`, `ActionOutcomes.ExhaustedForGood`), which happens under every limit (`ActionHistories.CanBeExhausted`).
- Approvals expire only inside a claim that finds a run, because an empty claim rolls the expiry back
  (platform/services/platform-api/internal/agent/store.go:359-361); `AgentStore.Store.Claim` states it.
- The executor fails a run whatever state it is in (platform/services/platform-api/internal/action/executor.go:186-188). `Outcomes.UnguardedFailIff` says
  for which runs that keeps the run protocol's invariant. What remains to be assumed where the two state machines meet is that an
  intent is approved only after its notice was sent; from then on `Outcomes.OnlyTheExecutorMovesWaiting` keeps everybody else away.

## Assumptions

- Every transaction is one atomic step; UUIDs and lease tokens are fresh; the database's clock and the Go processes' clock are
  one clock that never runs backwards.
- Attempt limits are between 1 and 10, as the configuration loaders demand.
- Lanes start with both counters at 1, runs queued with zero counters and null outputs, deliveries pending with zero
  attempts, as the migrations declare; every ON CONFLICT target is a unique key.
- A claim may pick any eligible row in the state machine (SKIP LOCKED); the store classes also prove that it is the one due first.
- SHA-256 digests and JSON encodings are injective, and an intent's payload decodes to the title it was made from.
- A commit that was not acknowledged may have taken effect, may still do so at any later time, or never.

## Model

| member | source | states |
|---|---|---|
| Phases.EncodingsAgree | platform/services/platform-api/internal/agent/store.go:287-333 | On every row that satisfies the table's shape and counter rules, the five-way claim filter admits the row for a limit exactly when the counter of its phase is below that limit, the CASE expressions charge that counter and keep the phase, `phaseAttempts` reads it, and the worker's branch belongs to it |
| Phases.ChargeMovesOneCounter | platform/services/platform-api/internal/agent/store.go:316-333 | A claim moves the counter of the run's phase and no other, except that a run whose tool was denied pays for execution and finalization at once |
| Phases.FilterAgreesIff | platform/services/platform-api/internal/agent/store.go:287-309 | Without the counter discipline, filter and phase counter agree for all limits if and only if a denied run was executed at least as often as finalized |
| Phases.ClaimBound | platform/services/platform-api/internal/agent/store.go:315-336 | The counters bound the attempts: five times the limit, four times for a denied run, three times without a tool route |
| Safety.EncodingsAgreeEverywhere | platform/services/platform-api/internal/agent/store.go:544-562 | The same agreement, and execution attempts > finalization attempts for a denied run, on every row of every reachable state and on every snapshot any worker still holds |
| Safety.TraceHolds | platform/services/platform-api/internal/agent/store.go:272-336 | The inductive invariant (lanes, runs, deliveries, jobs, calls, leases and all stale snapshots) holds in every state of every interleaving of producers, run workers, tool executors, members, delivery workers, crashes and clock ticks |
| Safety.StepKeeps | platform/services/platform-api/internal/agent/worker.go:122-338 | Any single enabled step keeps the invariant and moves no row backwards |
| WorkerSteps.WorkKeeps | platform/services/platform-api/internal/agent/store.go:409-607 | Any way a run worker may end its turn, with a current or a stale snapshot, keeps the invariant |
| WorkerSteps.HolderIsRow | platform/services/platform-api/internal/agent/store.go:415-431 | While a token is held, what its worker scanned is still the row, the row owns its lane's dispatch position and has no delivery |
| WorkerSteps.RunningAtPosition | platform/services/platform-api/internal/agent/store.go:277-280 | A running run sits at its lane's dispatch position and has no delivery |
| CallSteps.ToolKeeps | platform/services/platform-api/internal/toolruntime/store.go:97-293 | Opening, starting and ending a tool call, none of it fenced by the run's lease, keeps the invariant |
| CallSteps.DecideKeeps | platform/services/platform-api/internal/toolruntime/store.go:295-412 | Approving or rejecting a tool call keeps the invariant |
| CallSteps.ExpireKeeps | platform/services/platform-api/internal/agent/store.go:643-673 | Expiring any set of approvals keeps the invariant |
| CallSteps.ExpireSplits | platform/services/platform-api/internal/agent/store.go:643-673 | Expiring a set at a time is the same as expiring one approval first and then the rest |
| CallSteps.WaitingCallMeansParked | platform/services/platform-api/internal/agent/store.go:668-669 | A run in `waiting_approval` whose call still waits is parked on that call and not resting after a sent notice, although the expiry query does not look at `pending_tool_approval_id` |
| ClaimSteps.ClaimKeeps | platform/services/platform-api/internal/agent/store.go:258-382 | A claim together with the expiry inside its transaction keeps the invariant |
| ClaimSteps.ChargedCounts | platform/services/platform-api/internal/agent/store.go:287-333 | What the claim filter admits has room for the attempt the claim charges |
| Producers.EnqueueKeeps | platform/services/platform-api/internal/agent/store.go:139-172 | Mention and proactive runs enter a lane without breaking the invariant, whether or not the lane exists |
| Producers.SpawnKeeps | platform/services/platform-api/internal/delegation/store.go:41-141 | Delegating from a running run keeps the invariant |
| Producers.EnqueueIff | platform/services/platform-api/internal/agent/store.go:139-172 | In columns: a new event appends an untried run with the given plane and limit to its lane, a known one changes nothing and is no error |
| Producers.SpawnIff | platform/services/platform-api/internal/delegation/store.go:41-141 | In columns: a new key gets a child exactly from a running run that was not itself delegated, at the end of that run's lane |
| SendSteps.SendKeeps | platform/services/platform-api/internal/delivery/worker.go:74-104 | Whatever class of outcome a send has, current or stale, recording it keeps the invariant |
| SendSteps.SettleKeeps | platform/services/platform-api/internal/delivery/store.go:129-183 | A delivery in `sending` has its run delivery pending at the head of its lane, and ending both with the lane and the job keeps the invariant |
| SendSteps.ClaimSendKeeps | platform/services/platform-api/internal/delivery/store.go:91-127 | Claiming a delivery keeps the invariant |
| LaneOrder.LaneSplits | platform/services/platform-api/internal/agent/store.go:272-310 | In every reachable state: runs below the dispatch position have released the lane, runs above it are queued and untouched, and whoever is running, reply pending, parked or delivery pending is at it |
| LaneOrder.ReleasedInOrder | platform/services/platform-api/internal/agent/store.go:627-641 | A run is released only if every earlier run of the lane was released before that step |
| LaneOrder.ReleasedForGood | platform/services/platform-api/internal/delivery/store.go:390-408 | A released run stays released, so it releases its lane once |
| LaneOrder.LaneMovesIffReleased | platform/services/platform-api/internal/agent/store.go:627-641 | A lane moves in a step, and by one, exactly when the run at its position releases it in that step |
| LaneOrder.PositionMovesByOne | platform/services/platform-api/internal/agent/store.go:627-641 | No step moves a lane by more than one |
| LaneOrder.SequencesConserved | platform/services/platform-api/internal/agent/store.go:139-172 | A lane's runs carry exactly the numbers from 1 up to its enqueue counter, each once; the runs that released it are as many as it has moved |
| LaneOrder.EventsAreAbsorbed | platform/services/platform-api/internal/agent/store.go:56-60 | An event that once produced a run changes nothing when it is presented again, at any later time |
| LaneOrder.LaterInTrace | platform/services/platform-api/internal/agent/store.go:415-431 | Between any two states of a run of the system rows are only added or moved forward, and a lost token is never held again |
| Fencing.OnlyTheLeaseRefuses | platform/services/platform-api/internal/delivery/store.go:55-71 | Once the lease guard of a run worker's transaction passes, none of its later guards can refuse: dispatch position, existing delivery, output already written |
| Fencing.OnlyTheSendLeaseRefuses | platform/services/platform-api/internal/delivery/store.go:154-171 | The same for delivery workers: "not delivery pending" and "does not own the dispatch position" never fire |
| Fencing.StaleWorkerIsHarmless | platform/services/platform-api/internal/agent/store.go:502-518 | Once a worker has lost its token, none of the transactions that end its turn commits ever again, and none changes anything |
| Fencing.StaleStepsAreConfined | platform/services/platform-api/internal/toolruntime/store.go:217-293 | The tool ledger is not fenced by the lease: a tool step of a worker that lost its token changes the entry of its own run at most, exactly when the ledger is in the state the step asks for, and a transaction that ends its turn changes nothing |
| Fencing.ToolStartsOnce | platform/services/platform-api/internal/toolruntime/store.go:217-239 | Over all workers, current and stale, and any history, the tool of a run is started at most once, and once more for each time a failed read was reopened for a retry: starts = reopenings + 1 if it ever ran, + 0 if not |
| Fencing.StaleSenderIsHarmless | platform/services/platform-api/internal/delivery/store.go:138-149 | A delivery worker whose token was lost is refused for ever |
| Fencing.ReclaimFences | platform/services/platform-api/internal/agent/store.go:315-336 | Claiming a run again takes every earlier token of that run out of play |
| Fencing.ResendFences | platform/services/platform-api/internal/delivery/store.go:106-113 | Claiming a delivery again takes every earlier token of it out of play |
| Fencing.TokenCommitsOnce | platform/services/platform-api/internal/agent/store.go:573-584 | A run token commits at most one transition in any run of the system |
| Fencing.SendCommitsOnce | platform/services/platform-api/internal/delivery/store.go:219-230 | A delivery token commits at most one transition |
| Fencing.StoreFillsMissing | platform/services/platform-api/internal/agent/route_store.go:20-26 | Whoever commits an output fills a column that was null, although `SaveRoute` and `SaveCandidate` do not ask |
| Fencing.OutputsWrittenOnce | platform/services/platform-api/internal/agent/tool_plan_store.go:20-31 | Route, tool arguments, tool result and candidate are each written at most once in a run's life, over all workers |
| Fencing.OutputsNeverChange | platform/services/platform-api/internal/agent/tool_plan_store.go:57-68 | What was written stays as it was written, and the phase never goes back |
| Fencing.ClaimCountIsAttempts | platform/services/platform-api/internal/agent/store.go:315-336 | `attempts` is the number of claims of the run in the history so far |
| Fencing.ClaimsAreBounded | platform/services/platform-api/internal/agent/store.go:315-336 | In any history a run is claimed at most five times the limit (four if denied, three without a tool route) |
| Fencing.ClaimsDescend | platform/services/platform-api/internal/agent/store.go:491-562 | A measure of phases and attempts left never rises, through lease expiry, retries, denials and resumes, and every claim lowers it |
| Leases.RunClaimIff | platform/services/platform-api/internal/agent/store.go:281-336 | In columns: a claim takes a run if and only if the run is at its lane's position, its tenant is not paused, its phase has an attempt left, and it is queued or reply pending and due, running under a lapsed lease, or parked on an approval that expires with the claim; otherwise nothing changes |
| Leases.OneWorkerAtATime | platform/services/platform-api/internal/agent/store.go:302-305 | Between two claims of one run the first worker ended its turn or its lease ran out: two workers are never inside their leases on one run |
| Leases.WorkLastsInTime | platform/services/platform-api/internal/agent/store.go:315-336 | A worker has its run until it ends its turn or its lease runs out, whatever anybody else does |
| Leases.OutputInTimeIff | platform/services/platform-api/internal/agent/store.go:415-431 | What a worker produced is accepted if and only if it comes by the end of its lease |
| Leases.RetryUntilOvertakenIff | platform/services/platform-api/internal/agent/store.go:502-518 | A retry or failure, whose guard has no time, is accepted if and only if no other worker has claimed the run meanwhile |
| Leases.WorkRefusedIff | platform/services/platform-api/internal/agent/store.go:409-607 | In columns and in any state of the tables: how each transaction that ends a turn is answered, its refusals in order; a refusal changes nothing |
| Leases.PausedIsNotClaimed | platform/services/platform-api/internal/agent/store.go:273-314 | From a tenant's pause of runs or of deliveries until it is lifted none of its runs or deliveries is claimed |
| SendLeases.SendClaimIff | platform/services/platform-api/internal/delivery/store.go:91-113 | In columns: a delivery is claimed if and only if an attempt is left, it is due, its tenant is not paused, and it is pending or its worker's lease has run out; the row it becomes; otherwise nothing changes |
| SendLeases.RecoveryIff | platform/services/platform-api/internal/delivery/store.go:262-275 | In columns: the recovery query ends a delivery if and only if it is being sent, its lease has run out and its attempts are used up |
| SendLeases.OneSenderAtATime | platform/services/platform-api/internal/delivery/store.go:91-113 | Between two claims of one delivery the first worker reported or its lease ran out: a message is never given to a second worker inside the lease of the first |
| SendLeases.ReportInTime | platform/services/platform-api/internal/delivery/worker.go:69-106 | What the worker of a delivery reports by the end of its lease is recorded |
| SendLeases.ReportOutcome | platform/services/platform-api/internal/delivery/worker.go:74-104 | In columns: what each class of report leaves of the delivery, its run and its lane |
| SendLeases.HandedOver | platform/services/platform-api/internal/delivery/store.go:34-80 | What handing over leaves: one untried delivery to the run's tenant, due at once, waiting for an approval exactly if the answer proposes an action |
| SendLeases.ReportRefusedIff | platform/services/platform-api/internal/delivery/store.go:129-260 | In any state of the tables: a report is refused for a lost lease, then for a run that is not delivery pending, then for its place in the lane; a refusal changes nothing |
| Recovery.RecoveryIsSequential | platform/services/platform-api/internal/delivery/store.go:262-323 | The set-at-a-time recovery query has the same effect on deliveries, runs, lanes and jobs as ending the exhausted deliveries one at a time in any order |
| Recovery.FailOneIsFinishFailure | platform/services/platform-api/internal/delivery/store.go:213-260 | Each of those single failures is what `finishFailure` would do for the holder of the lapsed lease |
| Recovery.RecoveryMovesLanes | platform/services/platform-api/internal/delivery/store.go:284-292 | The query moves each lane that holds an exhausted delivery by exactly one and no other lane |
| Recovery.RecoverKeeps | platform/services/platform-api/internal/delivery/store.go:262-323 | The query keeps the invariant |
| Liveness.RetryOutcome | platform/services/platform-api/internal/agent/store.go:491-542 | A retry fails the run with its lane advanced and its job failed, or leaves a run that is claimable once due and unpaused if and only if the claim limit leaves its phase an attempt |
| Protocol.BackoffDoubles | platform/services/platform-api/internal/agent/worker.go:445-452 | The delay is 1, 2, 4, 8 and 16 seconds after the first five attempts and 32 from the sixth on |
| TurnOutcomes.ErrorsAreRetried | platform/services/platform-api/internal/agent/worker.go:122-338 | On the tables: with the token held and an attempt left, a turn whose router, planner, tool, search, model or target answered with an error leaves the run queued or reply pending with its lane in place and nothing else changed, claimable exactly from the end of the delay on |
| TurnOutcomes.LastErrorFails | platform/services/platform-api/internal/agent/worker.go:445-452 | On the tables: the same error on the last attempt fails the run for good, moves its lane and fails its job |
| TurnOutcomes.StopsFailAtOnce | platform/services/platform-api/internal/agent/worker.go:122-252 | On the tables: where asking again cannot help, the first turn that notices fails the run for good |
| Liveness.RetryStrandsIff | platform/services/platform-api/internal/agent/worker.go:445-452 | A retry strands a run if and only if the model phase has used up the workers' limit while the agent version allows more; never when the version allows no more than the workers |
| Liveness.ServedIffNotStuck | platform/services/platform-api/internal/agent/store.go:281-310 | The head of a lane is served at some time by somebody (claim, approval expiry inside a claim, send or recovery) if and only if its phase has an attempt left or it is delivery pending |
| Liveness.StuckWithoutHolder | platform/services/platform-api/internal/agent/store.go:281-310 | Only the worker that still holds a stuck run can move it or its lane, in any history |
| Liveness.StuckForGood | platform/services/platform-api/internal/agent/store.go:281-310 | A stuck run that nobody holds blocks its lane for ever |
| Histories.LastWorkerLost | platform/services/platform-api/internal/agent/store.go:281-310 | Under every limit a history leads to a stuck head whose last attempt was lost with its worker |
| Histories.LastApprovalParked | platform/services/platform-api/internal/agent/store.go:452-489 | Under every limit a history leads to a stuck head that was parked for an approval on its last execution attempt |
| Histories.RetryCanStrand | platform/services/platform-api/internal/agent/worker.go:445-452 | Under every limit and every agent version that allows more model attempts, a history leads to a stuck head that a failed model call, retried with the worker's own delay, left queued |
| Histories.ClaimCanChargeTwice | platform/services/platform-api/internal/agent/store.go:316-333 | Under any limits a history leads a run through a denied tool to a claim that charges its execution and its finalization at once |
| Outcomes.DeliveryMirrorsRun | platform/services/platform-api/internal/delivery/store.go:34-80 | A delivery is open if and only if its run is delivery pending, and every way a delivery ends goes with its run's state |
| Outcomes.LaneMovesIffDeliveryEnds | platform/services/platform-api/internal/delivery/store.go:390-408 | While a delivery is open its lane moves exactly in the step that ends the delivery |
| Outcomes.DueDeliveryIsServed | platform/services/platform-api/internal/delivery/store.go:82-127 | No delivery is stranded: a due or lapsed one is claimable exactly when its tenant is not paused, or its attempts are used up and the recovery query ends it and its run |
| Outcomes.SendCountIsAttempts | platform/services/platform-api/internal/delivery/store.go:106-113 | `attempts` is the number of times a delivery was claimed for sending |
| Outcomes.SendsAreBounded | platform/services/platform-api/internal/delivery/store.go:91-113 | A delivery is claimed for sending at most `maxAttempts` times in any history |
| Outcomes.NoClaimAfterEnd | platform/services/platform-api/internal/delivery/store.go:209-230 | Once a delivery ended, in particular as uncertain, it is never claimed or changed again |
| Transmissions.CallsAreConserved | platform/services/platform-api/internal/delivery/worker.go:69-75 | In every state of every history the calls of `Send` made for a delivery and those its claimed records still have to make add up to its attempts |
| Transmissions.CallsAreBounded | platform/services/platform-api/internal/delivery/worker.go:69-75 | A message is handed to its channel at most as often as its delivery was claimed, and so at most `maxAttempts` times |
| Transmissions.AnswerSpendsCall | platform/services/platform-api/internal/delivery/worker.go:74-104 | A delivery that ended as sent or uncertain has fewer calls still to come than it had claims |
| Transmissions.LateTransmissionIff | platform/services/platform-api/internal/delivery/worker.go:69-75 | A message whose delivery has ended can still be handed over, in some continuation of the history, if and only if some record of it has not made its call |
| TransmissionHistories.LateAfterAnswer | platform/services/platform-api/internal/delivery/worker.go:69-104 | For every limit from two on and either answer there is a history in which a message is handed over after its delivery was sent or ended as uncertain |
| TransmissionHistories.LateAfterFailure | platform/services/platform-api/internal/delivery/store.go:262-323 | Under every limit there is a history in which the recovery query fails a delivery with all its calls still to come; the message is then handed over, and reporting it as sent is refused |
| TransmissionHistories.QuietIffOneAttempt | platform/services/platform-api/internal/delivery/worker.go:69-104 | No message is handed over after its delivery ended as sent or as uncertain, in any history, if and only if the workers make a single attempt; after it ended as undelivered it can be under every limit |
| Outcomes.JobMirrorsChild | platform/services/platform-api/internal/delivery/store.go:325-377 | A delegation has ended if and only if its child run released its lane, completed if and only if the child's message was sent, unknown if and only if its delivery is unknown, queued if and only if the child is untouched |
| Outcomes.ChildrenFollowParents | platform/services/platform-api/internal/delegation/store.go:49-62 | A child comes after its parent in the same lane, and whoever delegates was not itself delegated |
| Outcomes.DelegatedOnce | platform/services/platform-api/internal/delegation/store.go:215-236 | One parent and idempotency key name one child for ever, and asking again changes nothing |
| Outcomes.JobStartsWithFirstClaim | platform/services/platform-api/internal/agent/store.go:384-407 | A queued job becomes running in the step that claims its child and in no other |
| Outcomes.JobEndsWithLane | platform/services/platform-api/internal/agent/store.go:601-625 | A running job ends exactly in the step in which its child's lane moves on, as failed only with a failed child |
| Outcomes.UnguardedFailIff | platform/services/platform-api/internal/action/executor.go:186-188 | Failing a run whatever its state keeps the invariant if and only if the run has failed already, rests after its notice was sent, or succeeded with an action |
| Outcomes.UnguardedFailBreaksDelivery | platform/services/platform-api/internal/action/executor.go:186-188 | While a message is under way it does not: the sender that got through is refused and the lane keeps its failed head |
| Outcomes.OnlyTheExecutorMovesWaiting | platform/services/platform-api/internal/action/executor.go:148-150 | Once a run's approval notice was sent, no step of the run protocol other than the executor's own moves that run |
| LostNumbers.LostNumberStaysEmpty | platform/services/platform-api/internal/agent/store.go:146-167 | In any history in which sequence numbers may be lost to an insert that found its event taken, a lost number belongs to no run ever after and its lane never moves past it |
| LostNumbers.LaneStopsAtLostNumber | platform/services/platform-api/internal/agent/store.go:277-280 | Once the lane gets to a lost number it stays there in every continuation, and none of its runs is claimable at any time under any limit |
| LostNumbers.StepMovesPastRun | platform/services/platform-api/internal/agent/store.go:627-641 | Whatever moves a lane moves it past a run that is at its position |
| LaneOrder.EmptyPositionBlocks | platform/services/platform-api/internal/agent/store.go:277-280 | A lane whose dispatch position has no run serves none of its runs, at any time and under any limit |
| AgentStore.Store.Enqueue | platform/services/platform-api/internal/agent/store.go:139-178 | The statements for a trigger that resolved amount to `Transactions.Enqueue`, and the run returned carries the event |
| AgentStore.Store.SaveRoute | platform/services/platform-api/internal/agent/route_store.go:10-44 | A commit touches this run's row alone, stores the route, spends the token, leaves routing behind, and leaves the run claimable at once exactly when it heads an unpaused lane and its next phase has an attempt; a refusal changes nothing and means the lease was not held in time |
| AgentStore.Store.SaveToolPlan | platform/services/platform-api/internal/agent/tool_plan_store.go:10-38 | The same for the plan, which was missing before; a refusal means the lease was not held in time or a plan exists |
| AgentStore.Store.SaveToolResult | platform/services/platform-api/internal/agent/tool_plan_store.go:40-75 | The same for the result, which was missing before, of a call that was planned |
| AgentStore.Store.SaveCandidate | platform/services/platform-api/internal/agent/store.go:409-450 | The same for the candidate, which puts a routed run into finalization |
| DeliveryStore.Store.MarkPermanent | platform/services/platform-api/internal/delivery/store.go:205-207 | A commit ends delivery and run as failed, moves this lane by one, leaves all others alone, and the delivery is never claimed for sending again; a refusal changes nothing |
| DeliveryStore.Store.MarkUncertain | platform/services/platform-api/internal/delivery/store.go:209-211 | The same as uncertain and unknown: after an unclear outcome the delivery is never claimed for sending again |
| AgentWorker.Worker.Turn | platform/services/platform-api/internal/agent/worker.go:122-338 | In the columns of the run and the answers of the collaborators: exactly when the turn fails the run, retries it and after which delay, does nothing, or stores, parks or hands over, and what; the protocol allows it, with the retry limit of that phase |
| AgentWorker.OwedIsTaken | platform/services/platform-api/internal/agent/worker.go:122-338 | The transition each branch owes is the one these columns call for |
| AgentWorker.Worker.ExecuteTool | platform/services/platform-api/internal/agent/worker.go:223-252 | An error retries after the doubling delay, a denial is answered with its reason, a pending approval parks the run, a result is stored, and the run fails exactly if the arguments are unreadable or the tool left nothing of these |
| AgentWorker.Worker.AnswerFromKnowledge | platform/services/platform-api/internal/agent/worker.go:278-314 | An answer is stored if and only if it came, may be given, and its citations hold up against the evidence; without evidence the fixed answer is stored, and in every other case the turn is retried |
| AgentStore.Store.ExpireToolApprovals | platform/services/platform-api/internal/agent/store.go:643-673 | The chained table expressions amount to `Transactions.ExpireApprovals` |
| AgentStore.Store.Candidate | platform/services/platform-api/internal/agent/store.go:273-314 | Finds a claimable unlocked row if there is one, and of those the one due first |
| AgentStore.Store.Claim | platform/services/platform-api/internal/agent/store.go:258-382 | Commits expiry and claim together, returns the row as charged, and leaves everything untouched if and only if no unlocked run is claimable after the expiry |
| AgentStore.Store.WaitForToolApproval | platform/services/platform-api/internal/agent/store.go:452-489 | Amounts to `Transactions.WaitForApproval` |
| AgentStore.Store.AdvanceConversationLane | platform/services/platform-api/internal/agent/store.go:627-641 | Succeeds exactly when the snapshot owns the dispatch position, and then moves that lane by one |
| AgentStore.Store.FailOrRetry | platform/services/platform-api/internal/agent/store.go:491-542 | Amounts to `Transactions.FailOrRetry`, rolled back when the lane cannot be advanced |
| AgentStore.Store.Fail | platform/services/platform-api/internal/agent/store.go:564-599 | Amounts to `Transactions.Fail`, rolled back when the lane cannot be advanced |
| DeliveryStore.Store.Prepare | platform/services/platform-api/internal/delivery/store.go:34-80 | Amounts to `Transactions.Prepare`: an existing delivery is reported before a lost lease |
| DeliveryStore.Store.FailRunsOf | platform/services/platform-api/internal/delivery/store.go:276-306 | The table expressions behind the ended deliveries compute the runs, lanes and jobs of `Transactions.FailSet` |
| DeliveryStore.Store.FailExhausted | platform/services/platform-api/internal/delivery/store.go:262-323 | The recovery query amounts to `Transactions.FailExhausted` |
| DeliveryStore.Store.ClaimDue | platform/services/platform-api/internal/delivery/store.go:91-127 | Claims an unlocked delivery, the one due first, that is pending and due or whose lease has run out, with an attempt left and its tenant unpaused, as the stated row; or changes nothing because there is none |
| DeliveryStore.Store.Claim | platform/services/platform-api/internal/delivery/store.go:82-127 | The same after the recovery: every other delivery is ended exactly if its lease has run out with its attempts used up, and untouched otherwise |
| DeliveryStore.Store.MarkSent | platform/services/platform-api/internal/delivery/store.go:129-183 | Amounts to `Transactions.MarkSent` |
| DeliveryStore.Store.MarkRetry | platform/services/platform-api/internal/delivery/store.go:185-203 | Amounts to `Transactions.MarkRetry`, failing the delivery at its last attempt |
| DeliveryStore.Store.FinishFailure | platform/services/platform-api/internal/delivery/store.go:213-260 | Amounts to `Transactions.Finish` with the job state the run state calls for |
| DeliveryStore.Store.AdvanceLaneForRun | platform/services/platform-api/internal/delivery/store.go:390-408 | Succeeds exactly when the run owns the dispatch position of its lane |
| DeliveryStore.Worker.Settle | platform/services/platform-api/internal/delivery/worker.go:74-104 | Under a held token the delivery ends as sent if and only if the channel delivered, as uncertain with an unknown run if and only if the answer was unclassified or uncertain, rests until the doubling delay if and only if it was retryable with attempts left, and is undelivered with a failed run otherwise; without the token nothing changes |
| DelegationStore.Store.ReadExisting | platform/services/platform-api/internal/delegation/store.go:215-236 | Finds a job of this parent and key if and only if there is one |
| DelegationStore.Store.Spawn | platform/services/platform-api/internal/delegation/store.go:31-169 | Amounts to `Transactions.Spawn`, and the child returned is the one under this parent and key |
| AgentWorker.TurnIsStep | platform/services/platform-api/internal/agent/worker.go:122-338 | A turn is a step of the protocol and keeps its invariant |
| Outcomes.NoToolWithoutApproval | platform/services/platform-api/internal/toolruntime/store.go:295-412 | A tool that needs approval never runs without it: a call that asked for one was started, or its result stored, only after it was granted, and a call whose approval was refused or expired is denied |
| ToolLedger.GrantedInTime | platform/services/platform-api/internal/toolruntime/store.go:295-360 | Every granted approval goes back to a decision that granted it before it expired, while its run was parked on it |
| ToolLedger.RefusedForGood | platform/services/platform-api/internal/toolruntime/store.go:97-215 | A tool that policy refuses is never started, by nobody and at no later time, and its run gets no result |
| ToolLedger.DecideIff | platform/services/platform-api/internal/toolruntime/store.go:295-412 | In columns: a decision takes effect if and only if the run is parked on that open approval and it has not expired; approval, call and run together |
| ToolLedger.ParkIff | platform/services/platform-api/internal/agent/store.go:452-489 | In columns: a worker parks its run exactly on an open approval its call waits for, while it holds the run |
| ToolLedger.DecidedIsClaimable | platform/services/platform-api/internal/toolruntime/store.go:295-412 | After either decision the run can be claimed at once if and only if an execution attempt is left and its tenant is not paused |
| ToolLedger.PrepareIff | platform/services/platform-api/internal/toolruntime/store.go:97-215 | In columns: how each verdict begins the entry, and that a later one only reopens a failed read that may be retried |
| ToolLedger.ExpireIff | platform/services/platform-api/internal/agent/store.go:643-673 | In columns: an expiry ends exactly the chosen open approvals whose time has come, denies the calls that wait on them and queues the runs parked on them |
| ToolStore.Store.Prepare | platform/services/platform-api/internal/toolruntime/store.go:97-215 | Amounts to `Transactions.PrepareCall` |
| ToolStore.Store.Decide | platform/services/platform-api/internal/toolruntime/store.go:295-412 | Amounts to `Transactions.Decide`: approval, call and run change together or not at all |
| ActionSteps.StepKeeps | platform/services/platform-api/internal/action/executor.go:45-199 | Every step of members, run workers and executors, current or stale, keeps the invariant of intents, approvals, executions, tickets and events |
| ActionSteps.TraceHolds | platform/services/platform-api/internal/action/executor.go:45-199 | That invariant holds in every reachable state |
| ActionSteps.InsertKeeps | platform/services/platform-api/internal/action/executor.go:99-105 | An insert by any executor at any time adds the ticket its intent asked for, or nothing |
| ActionSteps.ReadBackAgrees | platform/services/platform-api/internal/action/executor.go:126-131 | What an executor read under its key is its own ticket in every field |
| ActionSteps.SweepKeeps | platform/services/platform-api/internal/action/executor.go:46-48 | Turning any set of lapsed executions unknown keeps the invariant |
| ActionSteps.ApproveKeeps | platform/services/platform-api/internal/action/store.go:66-122 | Approval, replay, refusal and expiry keep the invariant |
| ActionSteps.EnsureKeeps | platform/services/platform-api/internal/action/store.go:31-61 | Materializing an intent, again or for the first time, keeps the invariant |
| ActionOutcomes.OneTicketPerIntent | platform/services/platform-api/internal/action/executor.go:89-111 | There is one ticket per intent in all of history, it never changes, and it carries the intent's tenant, member and title |
| ActionOutcomes.SuccessNamesTheTicket | platform/services/platform-api/internal/action/executor.go:132-144 | A succeeded execution names the ticket of its own intent |
| ActionOutcomes.TicketWasApproved | platform/services/platform-api/internal/action/store.go:66-122 | Every ticket goes back to exactly one approval step, by the member and tenant of the ticket, for the digest of its title, before the intent expired |
| ActionOutcomes.ApprovedOnce | platform/services/platform-api/internal/action/store.go:91-97 | An intent is approved at most once; a later approval changes nothing and reports a replay, a conflict or a refusal |
| ActionOutcomes.OneIntentOneExecution | platform/services/platform-api/internal/action/store.go:48-60 | A run has one intent and an intent one execution in all of history |
| ActionOutcomes.EnsuredAgain | platform/services/platform-api/internal/action/store.go:48-60 | Asking again for a run's intent changes nothing and succeeds if and only if the trimmed title is the same |
| ActionOutcomes.EndedForGood | platform/services/platform-api/internal/action/executor.go:132-184 | An execution that ended never changes and has exactly one terminal audit event, of its own kind, for ever |
| ActionOutcomes.OpenHasNoTerminalEvent | platform/services/platform-api/internal/action/executor.go:151-153 | An execution that is open has no terminal audit event |
| ActionOutcomes.ReadBackNeverDiffers | platform/services/platform-api/internal/action/executor.go:124-131 | The mismatch branch before completion is unreachable |
| ActionOutcomes.StaleExecutorIsHarmless | platform/services/platform-api/internal/action/executor.go:160-181 | An executor that lost its lease can change nothing but the tickets, and those only when its key has none |
| ActionOutcomes.ClaimedAgainIff | platform/services/platform-api/internal/action/executor.go:64-69 | An execution at rest is claimable at some later time if and only if it has an attempt left |
| ActionOutcomes.ExhaustedForGood | platform/services/platform-api/internal/action/executor.go:112-118 | Without an attempt left it stays queued or unknown for ever |
| ActionOutcomes.RunsEndLikeExecutions | platform/services/platform-api/internal/action/executor.go:148-188 | If intents are approved only after their run waits and nobody else moves that run afterwards, the run ends exactly as its execution does |
| ActionLeases.SweepIff | platform/services/platform-api/internal/action/executor.go:46-46 | In columns: the sweep changes an execution if and only if it is running under a lease that has run out |
| ActionLeases.ClaimIff | platform/services/platform-api/internal/action/executor.go:64-69 | In columns: an execution is claimed if and only if it is queued or unknown, due, and has an attempt left; the row and the job it becomes |
| ActionLeases.JobLasts | platform/services/platform-api/internal/action/executor.go:45-88 | A job holds its execution until it ends its own call or the clock passes the end of its lease |
| ActionLeases.OneExecutorAtATime | platform/services/platform-api/internal/action/executor.go:45-88 | Between two claims of one execution the first job ended its call or its lease ran out |
| ActionLeases.NewIntentIff | platform/services/platform-api/internal/action/store.go:31-61 | A run without an intent gets one exactly for a title that is not blank and has at most 200 bytes |
| ActionLeases.ApproveIff | platform/services/platform-api/internal/action/store.go:66-122 | An approval succeeds exactly for the member who asked, the digest of what was asked, and a pending intent that has not expired; the execution it leaves is claimable at once |
| ActionLeases.ApprovableForFifteenMinutes | platform/services/platform-api/internal/action/store.go:48-52 | An intent that is still pending is approvable for fifteen minutes and not a second longer |
| ActionFailures.EarlyFailureIsClean | platform/services/platform-api/internal/action/executor.go:164-186 | An execution that failed within two attempts has no ticket, and no job is left that could insert one |
| ActionHistories.FailedButInserted | platform/services/platform-api/internal/action/executor.go:89-123 | For every limit of at least three and every admissible title there is a history in which an execution fails without a ticket and the next step inserts it |
| ActionHistories.FailureMeansAbsentIff | platform/services/platform-api/internal/action/executor.go:164-186 | A failed execution never has a ticket, in any history, if and only if the executors are given at most two attempts |
| ActionFailures.LateTicketIff | platform/services/platform-api/internal/action/executor.go:99-108 | A failed execution without a ticket can still get one if and only if a job claimed to insert for it has neither inserted nor failed |
| ActionFailures.MayStillInsertIff | platform/services/platform-api/internal/action/executor.go:99-111 | Of the ways a call ends, giving up on an unacknowledged insert alone leaves that insert possible |
| ActionFailures.StaysClean | platform/services/platform-api/internal/action/executor.go:99-108 | Where no ticket exists and no job may insert one, nothing but a claim can change that |
| ActionHistories.CanBeExhausted | platform/services/platform-api/internal/action/executor.go:45-69 | For every limit and admissible title there is a history that leaves an approved action unknown without an attempt left, and from two attempts on one that leaves it queued |
| ActionTurns.TurnIsSteps | platform/services/platform-api/internal/action/executor.go:45-57 | A turn of the executor, with any faults of the database, is a sweep, a claim and steps of the one job it claimed, each enabled where it is taken |
| ActionTurns.ExecuteIsSteps | platform/services/platform-api/internal/action/executor.go:89-111 | A call of `execute` is a sequence of enabled steps of its job |
| ActionTurns.ReconcileIsSteps | platform/services/platform-api/internal/action/executor.go:112-123 | A call of `reconcile` is a sequence of enabled steps of its job |
| ActionStore.Store.EnsureIntent | platform/services/platform-api/internal/action/store.go:31-61 | Amounts to `Actions.EnsureIntent`; the intent returned is the run's, with the digest asked for |
| ActionStore.Store.Approve | platform/services/platform-api/internal/action/store.go:66-122 | Amounts to `Actions.Approve`; the execution returned is the intent's |
| ActionStore.Executor.Sweep | platform/services/platform-api/internal/action/executor.go:46-48 | A running execution whose lease ran out becomes unknown with its attempts kept; one whose lease runs, and every other, is left as it is |
| ActionStore.Executor.Claim | platform/services/platform-api/internal/action/executor.go:58-88 | Claims an unlocked execution that is due, the one due first, or changes nothing because there is none |
| ActionStore.Executor.Insert | platform/services/platform-api/internal/action/executor.go:98-109 | Inserts unless the key is taken, and returns the ticket under the key |
| ActionStore.Executor.Execute | platform/services/platform-api/internal/action/executor.go:89-111 | With every fault of the database: a failed call has inserted nothing, an unconfirmed commit leaves the outcome unknown, and what was inserted is verified |
| ActionStore.Executor.RunOnce | platform/services/platform-api/internal/action/executor.go:45-57 | Sweep, claim and the branch of the prior state; no execution but the claimed one is changed other than by the sweep of lapsed leases, and the claimed one was queued or unknown, due and had an attempt left |
| ExecutorOutcomes.TurnLeaves | platform/services/platform-api/internal/action/executor.go:45-199 | In columns: how a turn leaves the execution it claimed, for each prior state, ticket found or not, and fault: unknown, queued for now or for a second later, still running, succeeded with an agreeing ticket, or failed on its last attempt |
| ExecutorOutcomes.TurnEndsTogether | platform/services/platform-api/internal/action/executor.go:132-199 | Where a turn ended the execution its intent ended the same way with one audit event; a failure fails the run, a success ends it only if it still waits; otherwise intents, runs and events are untouched |
| ActionStore.Executor.MarkUnknown | platform/services/platform-api/internal/action/executor.go:160-163 | The token is spent; a holder leaves its execution alone changed, claimable at once exactly if an attempt is left, and anybody else changes nothing |
| ActionStore.Executor.Reconcile | platform/services/platform-api/internal/action/executor.go:112-123 | An unreadable table leaves the outcome unknown, an absent ticket requeues, a present one is verified |
| ActionStore.Executor.VerifyAndComplete | platform/services/platform-api/internal/action/executor.go:124-159 | Amounts to `Actions.VerifyAndComplete` |
| ActionStore.Executor.Fail | platform/services/platform-api/internal/action/executor.go:164-199 | Amounts to `Actions.Fail` |
| Ranking.Rank | platform/services/intelligence-worker/src/intelligence_worker/routing.py:175-193 | The operations that reach the minimum are numbered one to one onto 1..k, in the order of their scores with ties by position |
| Ranking.NumberingIsRanking | platform/services/intelligence-worker/src/intelligence_worker/routing.py:182-183 | Numbering the sorted scores gives that ranking |
| Router.Route | platform/services/intelligence-worker/src/intelligence_worker/routing.py:81-146 | An operation is selected if and only if it was found and outranks every other one that was: named in the request first, then the better rank in the view, then the higher fused score, written out; otherwise nothing was found or nothing outranks all; candidates are listed best first, at most three, and none is left out that beats them |
| Router.SelectedIsBest | platform/services/intelligence-worker/src/intelligence_worker/routing.py:104-146 | A selected operation is one the request names if any such was found; among those as exact it has the least rank in the view, and among those of the same rank the greatest fused score |
| Router.DecisionIsChosen | platform/services/intelligence-worker/src/intelligence_worker/routing.py:108-132 | The sort key decides exactly as these columns do |
| Router.WordsRank | platform/services/intelligence-worker/src/intelligence_worker/routing.py:175-182 | Lexical ranks list exactly the operations that share a word with the request or with the view, more words first, earlier operations among equals |
| Router.SimilaritiesRank | platform/services/intelligence-worker/src/intelligence_worker/routing.py:185-193 | Dense ranks list exactly the operations that reach the minimum similarity, in the same order |
| Router.DominatedNeverWins | platform/services/intelligence-worker/src/intelligence_worker/routing.py:104-146 | An operation is not selected if another one is at least as good on exactness and on all four rankings, a missing rank being the worst |
| Router.SelectedIsUndominated | platform/services/intelligence-worker/src/intelligence_worker/routing.py:138-146 | Whatever is selected is dominated by nothing |
| Router.RrfIsMonotone | platform/services/intelligence-worker/src/intelligence_worker/routing.py:207-208 | A better rank never scores less |
| Sorting.SortOrders | platform/services/intelligence-worker/src/intelligence_worker/routing.py:131-131 | Sorting by a total order orders the items |
| Sorting.SortPermutes | platform/services/intelligence-worker/src/intelligence_worker/routing.py:131-131 | Sorting keeps every item and repeats none |
| Citations.ScanMissesNothing | platform/services/platform-api/internal/agent/worker.go:417-426 | The leftmost non-overlapping scan finds exactly the citations that occur in the text |
| Citations.ValidateCitations | platform/services/platform-api/internal/agent/worker.go:393-424 | Accepts if and only if every declared id has evidence and occurs in the text and every citation in the text is declared; returns the evidence by first declaration; every error tells the truth about what it refuses |
| Citations.ValidateKnowledgeCandidate | platform/services/platform-api/internal/agent/worker.go:428-443 | The same by grounding status, with the citation-free answer allowed only when evidence was insufficient |
| Citations.ElementsCount | platform/services/intelligence-worker/src/intelligence_worker/responses_client.py:348-350 | As many distinct ids as ids if and only if none is repeated |
| Citations.ValidatorsAgree | platform/services/intelligence-worker/src/intelligence_worker/responses_client.py:338-355 | For non-empty evidence with proper ids, the Python worker passes an answer if and only if the Go runtime accepts it and no id is declared twice |
| Citations.PythonPassesIff | platform/services/intelligence-worker/src/intelligence_worker/responses_client.py:338-355 | Whatever the evidence, Python passes an answer if and only if its ids are declared once, have evidence and are exactly the citations of the text, and the grounding fits: nothing declared or grounded without evidence, grounding stated with it, and grounded answers cited |
| Citations.PythonErrorsAreTrue | platform/services/intelligence-worker/src/intelligence_worker/responses_client.py:338-355 | Every error of the Python validator tells the truth about the answer it refuses |
| Citations.FirstDeclarationsInOrder | platform/services/platform-api/internal/agent/worker.go:403-416 | Evidence is stored in the order in which its ids were declared first |
| Citations.LaterEvidenceCounts | platform/services/platform-api/internal/agent/worker.go:397-400 | Of two pieces of evidence with one id the later one counts |
| Citations.PassedEvidenceIsDeclared | platform/services/platform-api/internal/agent/worker.go:399-416 | For an answer Python passed, Go stores exactly the declared evidence in the declared order |
| Citations.GroundedAnswersAreHonest | platform/services/platform-api/internal/agent/worker.go:417-422 | A grounded answer Go accepts declares exactly the citations its text shows |
| Text.Trimmed | platform/services/platform-api/internal/action/store.go:32-35 | Trimming cuts spaces off both ends, all of them and nothing else, so trimming again changes nothing |
| Text.ByteLengthBounds | platform/services/platform-api/internal/action/store.go:32-35 | A title has a byte for each character exactly if it is plain text, and at most four |
| Mentions.ExtractMentions | platform/services/platform-api/internal/agent/event.go:65-91 | The index-moving loop yields the first mention of every alias, at sign included, in the order of the text |
| Mentions.AliasesAreWords | platform/services/platform-api/internal/agent/event.go:72-96 | Every alias is an at sign and the whole word behind it, which is not empty, in lower case |
| Mentions.OnlyMentions | platform/services/platform-api/internal/agent/event.go:69-78 | Nothing else is reported, in particular no at sign that continues a word |
| Mentions.ReportedInOrder | platform/services/platform-api/internal/agent/event.go:65-91 | Reported mentions stand in the text in that order; each alias is what the text says there, in lower case, and each prompt is the text without it, trimmed |
| Mentions.NoAliasTwice | platform/services/platform-api/internal/agent/event.go:80-83 | No alias is reported twice |
| Mentions.EveryAliasFound | platform/services/platform-api/internal/agent/event.go:68-88 | Every mention in the text has its alias reported |
| Mentions.EveryAtSignFound | platform/services/platform-api/internal/agent/event.go:68-84 | Every at sign that starts a word and does not continue one has its whole word reported |

## Left out

- OpenIM, Telegram, Kafka, the model gateway, embeddings, tokenization and exact-name matching: their answers are inputs or nondeterministic steps.
- The knowledge search's own tool call: it is read-only and never waits for an approval, so it does not touch the run protocol.
- Audit rows (except the executor's terminal events), citations rows, error texts, timestamps other than `available_at`, `lease_until` and expiry.
- Resolving triggers, agents, versions and snapshots, member activity and event rejections: an enqueue or a spawn is modelled from the point where they resolved.
- Which hundred due approvals an expiry picks: any set may be chosen.
- Isolation below atomic transactions, SQL parsing, and time to live of pauses.
- The digest of tool arguments and the members who ask for and decide tool approvals: `Decide` stands for an authorized decision.
- `created_at` as a tie-breaker of the claim order.
- The HTTP handlers, command lines, configuration, metrics, the web application, memory, retrieval, remote agents and catalog administration: plumbing or flat validation.
- Rounding of router scores: similarities and scores are real numbers, and the cosine is given.
- Text is a sequence of characters; byte lengths are those of UTF-8.
- Liveness.ServedIffNotStuck: expires the run's own approval alone. The query takes the hundred due approvals that expired first (platform/services/platform-api/internal/agent/store.go:646-652) and is rolled back when no run is claimable afterwards, so a hundred older approvals of stuck runs can keep a single worker from a run that the lemma says can be served; workers that skip each other's locked rows get to it.
- Router.SelectedIsUndominated: stated for at most a million operations, the number that stands for a missing rank; a request carries at most 64.
- Router.Route: what outranks what is stated for fewer than a million operations, for the same reason.
- ActionOutcomes.RunsEndLikeExecutions: holds under the hypothesis above, because `fail` has no state guard.
- AgentStore.Store.Enqueue: does not model the insert's ON CONFLICT branch (platform/services/platform-api/internal/agent/store.go:166), because a transaction is one step here. Under read committed two concurrent copies of one event can both miss the run and both take a number; the second insert then yields the first run, and its number stays without a run. `LostNumbers.LostNumberStaysEmpty` and `LostNumbers.LaneStopsAtLostNumber` state the consequence over whole histories with any such losses: the number stays empty, and the lane stops for ever when its dispatch position gets there.
- LaneOrder.SequencesConserved: holds of transactions that take effect one after the other, so not across that branch; `LostNumbers` follows the lanes where it was taken.
