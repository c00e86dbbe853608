/**
 What each transaction of the agent, delegation, tool-approval and delivery stores does to the tables,
 as functions from the state it starts in to the state it leaves.  A refused transaction is rolled
 back: it returns its argument unchanged.
 */
module Transactions {
  import opened Wrappers
  import opened Rows
  import opened Phases

  // ---------------------------------------------------------------- shared guards and effects

  /** `state = 'running' AND lease_token = $2` */
  predicate Held(db: Db, c: Claimed) {
    c.id in db.runs && c.row.lease.Some? &&
    db.runs[c.id].state == Running &&
    db.runs[c.id].lease.Some? && db.runs[c.id].lease.value.token == c.row.lease.value.token
  }

  /** The same with `AND lease_until >= now()` */
  predicate HeldInTime(db: Db, c: Claimed) {
    Held(db, c) && db.runs[c.id].lease.value.until >= db.now
  }

  predicate OwnsPosition(db: Db, r: Run) {
    r.lane in db.lanes && db.lanes[r.lane].nextDispatch == r.sequence
  }

  function Advanced(lane: Lane): Lane { lane.(nextDispatch := lane.nextDispatch + 1) }

  function FinishJob(jobs: map<Uuid, Delegation>, id: Uuid, state: DelegationState): map<Uuid, Delegation> {
    if id in jobs && jobs[id].state in {JobQueued, JobRunning} then jobs[id := jobs[id].(state := state)] else jobs
  }

  function PutRun(db: Db, id: Uuid, r: Run): Db { db.(runs := db.runs[id := r]) }

  /** The run row after its lease was given back. */
  function GivenBack(r: Run, state: RunState, availableAt: Time): Run {
    r.(state := state, lease := None, availableAt := availableAt)
  }

  // ---------------------------------------------------------------- producers

  predicate EventTaken(db: Db, event: string) {
    exists id :: id in db.runs && db.runs[id].event == event
  }

  function LaneOf(db: Db, key: LaneKey): Lane {
    if key in db.lanes then db.lanes[key] else Lane(1, 1)
  }

  function NewRun(db: Db, event: string, key: LaneKey, plane: Plane, modelLimit: nat): Run {
    Run(event, key, LaneOf(db, key).nextEnqueue, plane, modelLimit, Queued, 0, db.now,
        None, None, None, None, None, None, 0, 0, 0, 0, 0)
  }

  /** Allocates the next sequence of the lane, creating the lane if need be, and inserts the run. */
  function Allocate(db: Db, id: Uuid, event: string, key: LaneKey, plane: Plane, modelLimit: nat): Db {
    var lane := LaneOf(db, key);
    db.(lanes := db.lanes[key := lane.(nextEnqueue := lane.nextEnqueue + 1)],
        runs := db.runs[id := NewRun(db, event, key, plane, modelLimit)])
  }

  /** `enqueueTx` and `EnqueueProactive` once the trigger resolved: a known event yields its run again. */
  function Enqueue(db: Db, id: Uuid, event: string, key: LaneKey, plane: Plane, modelLimit: nat): Tx {
    if EventTaken(db, event) then Tx(db, Committed)
    else if id in db.runs then Tx(db, Refused)
    else Tx(Allocate(db, id, event, key, plane, modelLimit), Committed)
  }

  predicate JobTaken(db: Db, parent: Uuid, key: string) {
    exists child :: child in db.delegations && db.delegations[child].parent == parent && db.delegations[child].key == key
  }

  /** `delegation.Store.Spawn` with a resolved target agent. */
  function Spawn(db: Db, parent: Uuid, key: string, child: Uuid, event: string, modelLimit: nat): Tx {
    if JobTaken(db, parent, key) then Tx(db, Committed)
    else if parent !in db.runs || db.runs[parent].state != Running || db.runs[parent].plane != Passive then Tx(db, Refused)
    else if EventTaken(db, event) || child in db.runs then Tx(db, Refused)
    else
      var next := Allocate(db, child, event, db.runs[parent].lane, Internal, modelLimit);
      Tx(next.(delegations := next.delegations[child := Delegation(parent, key, JobQueued)]), Committed)
  }

  // ---------------------------------------------------------------- tool approvals

  predicate ApprovalDue(db: Db, id: Uuid) {
    id in db.calls && db.calls[id].approval.Some? &&
    db.calls[id].approval.value.state == Requested && db.calls[id].approval.value.expiresAt <= db.now
  }

  predicate Resumes(db: Db, id: Uuid) {
    ApprovalDue(db, id) && db.calls[id].state == CallWaiting &&
    id in db.runs && db.runs[id].state == WaitingApproval
  }

  function Decided(call: ToolCall, verdict: ApprovalState, state: CallState): ToolCall
    requires call.approval.Some?
  {
    call.(approval := Some(call.approval.value.(state := verdict)), state := state)
  }

  function Resumed(r: Run, now: Time): Run {
    r.(state := Queued, pendingApproval := None, availableAt := now)
  }

  /** `expireToolApprovals`: one query over the chosen approvals.  It never looks at `pending_tool_approval_id`. */
  function ExpireApprovals(db: Db, chosen: set<Uuid>): Db {
    db.(calls := map id | id in db.calls ::
          if id in chosen && ApprovalDue(db, id)
          then Decided(db.calls[id], Expired, if db.calls[id].state == CallWaiting then CallDenied else db.calls[id].state)
          else db.calls[id],
        runs := map id | id in db.runs ::
          if id in chosen && Resumes(db, id) then Resumed(db.runs[id], db.now) else db.runs[id])
  }

  /** `toolruntime.Store.Approve` and `Reject`: the call resumes or is denied, and its run is queued again. */
  function Decide(db: Db, id: Uuid, approval: Uuid, approve: bool): Tx {
    if && id in db.calls && db.calls[id].approval.Some? && db.calls[id].approval.value.id == approval
       && db.calls[id].approval.value.state == Requested && db.calls[id].approval.value.expiresAt > db.now
       && db.calls[id].state == CallWaiting
       && id in db.runs && db.runs[id].state == WaitingApproval && db.runs[id].pendingApproval == Some(approval)
    then
      Tx(PutRun(db, id, Resumed(db.runs[id], db.now)).(
           calls := db.calls[id := if approve then Decided(db.calls[id], Approved, CallPrepared)
                                   else Decided(db.calls[id], Rejected, CallDenied)]), Committed)
    else Tx(db, Refused)
  }

  datatype Verdict = Allow | Deny | RequireApproval(approval: Uuid, expiresAt: Time)

  /** `toolruntime.Store.Prepare`: inserts the run's call, or reopens a failed read that may be retried. */
  function PrepareCall(db: Db, id: Uuid, verdict: Verdict, retryable: bool): Db {
    if id !in db.calls then
      db.(calls := db.calls[id :=
        match verdict
        case Allow => ToolCall(CallPrepared, None)
        case Deny => ToolCall(CallDenied, None)
        case RequireApproval(a, t) => ToolCall(CallWaiting, Some(Approval(a, Requested, t)))])
    else if db.calls[id].state == CallFailed && retryable && verdict.Allow? then
      db.(calls := db.calls[id := db.calls[id].(state := CallPrepared)])
    else db
  }

  /** `toolruntime.Store.Start`, `Succeed` and `Fail`: guarded moves of the call's own state. */
  function MoveCall(db: Db, id: Uuid, from: CallState, to: CallState): Db {
    if id in db.calls && db.calls[id].state == from then db.(calls := db.calls[id := db.calls[id].(state := to)]) else db
  }

  // ---------------------------------------------------------------- run workers

  /** The rows the claim query may pick. */
  predicate Claimable(db: Db, id: Uuid, max: nat) {
    id in db.runs &&
    var r := db.runs[id];
    && OwnsPosition(db, r) && r.availableAt <= db.now && r.lane.tenant !in db.pausedRuns
    && ClaimFilter(r, max)
    && (r.state in {Queued, ReplyPending} || (r.state == Running && r.lease.Some? && r.lease.value.until < db.now))
  }

  function Taken(r: Run, token: Token, until: Time): Run {
    Charge(r).(state := Running, lease := Some(Lease(token, until)))
  }

  /** `markDelegationRunning` */
  function StartJob(db: Db, id: Uuid): map<Uuid, Delegation>
    requires id in db.runs
  {
    if db.runs[id].plane == Internal && id in db.delegations && db.delegations[id].state == JobQueued
    then db.delegations[id := db.delegations[id].(state := JobRunning)] else db.delegations
  }

  function ClaimOne(db: Db, id: Uuid, token: Token, until: Time): Db
    requires id in db.runs
  {
    PutRun(db, id, Taken(db.runs[id], token, until)).(delegations := StartJob(db, id))
  }

  /** `agent.Store.Claim`: expiry and claim commit together, and an empty claim rolls the expiry back. */
  function Claim(db: Db, chosen: set<Uuid>, id: Uuid, token: Token, until: Time, max: nat): Tx {
    var e := ExpireApprovals(db, chosen);
    if Claimable(e, id, max) then Tx(ClaimOne(e, id, token, until), Committed) else Tx(db, Refused)
  }

  function SaveRoute(db: Db, c: Claimed, route: Route): Tx {
    if !HeldInTime(db, c) then Tx(db, LeaseNotHeld)
    else Tx(PutRun(db, c.id, GivenBack(db.runs[c.id], Queued, db.now).(route := Some(route))), Committed)
  }

  function SaveToolPlan(db: Db, c: Claimed, arguments: Json): Tx {
    if !HeldInTime(db, c) then Tx(db, LeaseNotHeld)
    else if db.runs[c.id].arguments.Some? then Tx(db, AlreadyWritten)
    else Tx(PutRun(db, c.id, GivenBack(db.runs[c.id], Queued, db.now).(arguments := Some(arguments))), Committed)
  }

  function SaveToolResult(db: Db, c: Claimed, result: Json): Tx {
    if !HeldInTime(db, c) then Tx(db, LeaseNotHeld)
    else if db.runs[c.id].arguments.None? || db.runs[c.id].result.Some? then Tx(db, AlreadyWritten)
    else Tx(PutRun(db, c.id, GivenBack(db.runs[c.id], Queued, db.now).(result := Some(result))), Committed)
  }

  function SaveCandidate(db: Db, c: Claimed, candidate: Candidate): Tx {
    if !HeldInTime(db, c) then Tx(db, LeaseNotHeld)
    else Tx(PutRun(db, c.id, GivenBack(db.runs[c.id], ReplyPending, db.now).(candidate := Some(candidate))), Committed)
  }

  /** No `lease_until` in the guard: a late worker may still park its run as long as nobody re-claimed it. */
  function WaitForApproval(db: Db, c: Claimed, approval: Uuid): Tx {
    if !Held(db, c) then Tx(db, LeaseNotHeld)
    else if && c.id in db.calls && db.calls[c.id].state == CallWaiting && db.calls[c.id].approval.Some?
            && db.calls[c.id].approval.value.id == approval && db.calls[c.id].approval.value.state == Requested
    then Tx(PutRun(db, c.id, db.runs[c.id].(state := WaitingApproval, pendingApproval := Some(approval), lease := None)), Committed)
    else Tx(db, LeaseNotHeld)
  }

  /** The common tail of `Fail` and of an exhausted `FailOrRetry`. */
  function FailHeld(db: Db, c: Claimed): Tx
    requires Held(db, c)
  {
    if !OwnsPosition(db, c.row) then Tx(db, NotDispatchPosition)
    else Tx(db.(runs := db.runs[c.id := db.runs[c.id].(state := Failed, lease := None)],
                lanes := db.lanes[c.row.lane := Advanced(db.lanes[c.row.lane])],
                delegations := if c.row.plane == Internal then FinishJob(db.delegations, c.id, JobFailed) else db.delegations),
            Committed)
  }

  function Fail(db: Db, c: Claimed): Tx {
    if !Held(db, c) then Tx(db, LeaseNotHeld) else FailHeld(db, c)
  }

  /** `FailOrRetry`: the limit is compared with the snapshot's counter, the new state reads the row. */
  function FailOrRetry(db: Db, c: Claimed, limit: nat, delay: nat): Tx {
    if !Held(db, c) then Tx(db, LeaseNotHeld)
    else if PhaseAttempts(Scan(c.row)) >= limit then FailHeld(db, c)
    else
      var r := db.runs[c.id];
      Tx(PutRun(db, c.id, GivenBack(r, if r.candidate.None? then Queued else ReplyPending, db.now + delay)), Committed)
  }

  /** `delivery.Store.Prepare`: the insert comes first, so an existing delivery is reported before a lost lease. */
  function Prepare(db: Db, c: Claimed, waiting: bool): Tx {
    if c.id in db.deliveries then Tx(db, AlreadyDelivered)
    else if !HeldInTime(db, c) || db.runs[c.id].lane.tenant != c.row.lane.tenant then Tx(db, LeaseNotHeld)
    else Tx(PutRun(db, c.id, GivenBack(db.runs[c.id], DeliveryPending, db.now)).(
              deliveries := db.deliveries[c.id := Delivery(c.row.lane.tenant, waiting, Pending, 0, db.now, None)]), Committed)
  }

  // ---------------------------------------------------------------- delivery workers

  predicate SendHeld(db: Db, s: Record) {
    s.id in db.deliveries && s.row.lease.Some? &&
    db.deliveries[s.id].state == Sending &&
    db.deliveries[s.id].lease.Some? && db.deliveries[s.id].lease.value.token == s.row.lease.value.token
  }

  predicate Sendable(db: Db, id: Uuid, max: nat) {
    id in db.deliveries &&
    var d := db.deliveries[id];
    && d.attempts < max && d.availableAt <= db.now && d.tenant !in db.pausedDeliveries
    && (d.state == Pending || (d.state == Sending && d.lease.Some? && d.lease.value.until < db.now))
  }

  function TakenDelivery(d: Delivery, token: Token, until: Time): Delivery {
    d.(state := Sending, attempts := d.attempts + 1, lease := Some(Lease(token, until)))
  }

  function ClaimDelivery(db: Db, id: Uuid, token: Token, until: Time, max: nat): Tx {
    if Sendable(db, id, max)
    then Tx(db.(deliveries := db.deliveries[id := TakenDelivery(db.deliveries[id], token, until)]), Committed)
    else Tx(db, Refused)
  }

  function Ended(d: Delivery, state: DeliveryState): Delivery { d.(state := state, lease := None) }

  /** The delivery and its run end together, the job is settled and the lane moves on. */
  function Settle(db: Db, id: Uuid, delivery: DeliveryState, run: RunState, job: DelegationState): Db
    requires id in db.deliveries && id in db.runs && OwnsPosition(db, db.runs[id])
  {
    db.(deliveries := db.deliveries[id := Ended(db.deliveries[id], delivery)],
        runs := db.runs[id := db.runs[id].(state := run)],
        delegations := FinishJob(db.delegations, id, job),
        lanes := db.lanes[db.runs[id].lane := Advanced(db.lanes[db.runs[id].lane])])
  }

  /** The guards `MarkSent` and `finishFailure` share, in the order the source checks them. */
  function Finish(db: Db, s: Record, delivery: DeliveryState, run: RunState, job: DelegationState): Tx {
    if !SendHeld(db, s) then Tx(db, LeaseNotHeld)
    else if s.id !in db.runs || db.runs[s.id].state != DeliveryPending then Tx(db, NotDeliveryPending)
    else if !OwnsPosition(db, db.runs[s.id]) then Tx(db, NotDispatchPosition)
    else Tx(Settle(db, s.id, delivery, run, job), Committed)
  }

  function MarkSent(db: Db, s: Record): Tx {
    Finish(db, s, Sent, if s.row.waiting then WaitingApproval else Succeeded, JobCompleted)
  }

  function MarkPermanent(db: Db, s: Record): Tx { Finish(db, s, Undelivered, Failed, JobFailed) }

  function MarkUncertain(db: Db, s: Record): Tx { Finish(db, s, Uncertain, DeliveryUnknown, JobUnknown) }

  function MarkRetry(db: Db, s: Record, max: nat, delay: nat): Tx {
    if s.row.attempts >= max then MarkPermanent(db, s)
    else if !SendHeld(db, s) then Tx(db, LeaseNotHeld)
    else Tx(db.(deliveries := db.deliveries[s.id :=
              Ended(db.deliveries[s.id], Pending).(availableAt := db.now + delay)]), Committed)
  }

  // ---------------------------------------------------------------- recovery of exhausted deliveries

  predicate Exhausted(db: Db, id: Uuid, max: nat) {
    id in db.deliveries &&
    var d := db.deliveries[id];
    d.state == Sending && d.lease.Some? && d.lease.value.until < db.now && d.attempts >= max
  }

  /** The runs the recovery query fails: those of the `chosen` deliveries that are delivery pending. */
  predicate Recovered(db: Db, chosen: set<Uuid>, id: Uuid) {
    id in chosen && id in db.runs && db.runs[id].state == DeliveryPending
  }

  predicate LaneRecovered(db: Db, chosen: set<Uuid>, key: LaneKey) {
    exists id :: id in db.runs && Recovered(db, chosen, id) && db.runs[id].lane == key && OwnsPosition(db, db.runs[id])
  }

  /** The recovery query for the deliveries in `chosen`, every table updated in one statement. */
  function FailSet(db: Db, chosen: set<Uuid>): Db {
    db.(deliveries := map id | id in db.deliveries ::
          if id in chosen then Ended(db.deliveries[id], Undelivered) else db.deliveries[id],
        runs := map id | id in db.runs ::
          if Recovered(db, chosen, id) then db.runs[id].(state := Failed) else db.runs[id],
        lanes := map key | key in db.lanes ::
          if LaneRecovered(db, chosen, key) then Advanced(db.lanes[key]) else db.lanes[key],
        delegations := map id | id in db.delegations ::
          if Recovered(db, chosen, id) && db.delegations[id].state in {JobQueued, JobRunning}
          then db.delegations[id].(state := JobFailed) else db.delegations[id])
  }

  function ExhaustedSet(db: Db, max: nat): set<Uuid> {
    set id | id in db.deliveries && Exhausted(db, id, max)
  }

  /** `failExhausted` */
  function FailExhausted(db: Db, max: nat): Db { FailSet(db, ExhaustedSet(db, max)) }
}
