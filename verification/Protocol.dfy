/**
 The run protocol as a state machine.  Any number of producers, run workers, tool executors, delivery
 workers and members take the transactions of `Transactions` in any order.  A worker is nothing but the
 row it scanned when it claimed: every row ever handed out stays in `claims` or `sends`, and any of them
 may act at any later time, so crashes, late wake-ups and lost responses need no steps of their own.
 */
module Protocol {
  import opened Wrappers
  import opened Rows
  import opened Phases
  import opened Transactions

  /** `unsent` are the claimed records whose one call of `Send` is still to be made. */
  datatype World = World(db: Db, claims: map<Token, Claimed>, sends: map<Token, Record>, unsent: set<Token>)

  /** The attempt limits the run workers and the delivery workers are configured with. */
  datatype Limits = Limits(runLimit: nat, sendLimit: nat)
  type Config = l: Limits | 1 <= l.runLimit <= 10 && 1 <= l.sendLimit <= 10 witness Limits(1, 1)

  /** How a run worker ends its turn. */
  datatype Work =
    | StoreRoute(route: Route)
    | StorePlan(json: Json)
    | StoreResult(json: Json)
    | StoreCandidate(candidate: Candidate)
    | AwaitApproval(approval: Uuid)
    | Retry(delay: nat)
    | GiveUp
    | HandOver

  /** What the tool runtime does on behalf of a worker; none of it is fenced by the run's lease. */
  datatype ToolWork =
    | PrepareTool(verdict: Verdict, retryable: bool)
    | StartTool
    | EndTool(to: CallState)

  /** What came of sending a message. */
  datatype SendResult = Accepted | Retryable(delay: nat) | Permanent | Unclear

  datatype Step =
    | Tick(seconds: nat)
    | PauseRuns(tenant: Uuid, paused: bool)
    | PauseDeliveries(tenant: Uuid, paused: bool)
    | EnqueueStep(run: Uuid, event: string, key: LaneKey, plane: Plane, modelLimit: nat)
    | SpawnStep(parent: Uuid, jobKey: string, run: Uuid, event: string, modelLimit: nat)
    | ClaimStep(chosen: set<Uuid>, run: Uuid, token: Token, lease: nat)
    | WorkStep(token: Token, work: Work)
    | ToolStep(token: Token, tool: ToolWork)
    | DecideStep(run: Uuid, approval: Uuid, approve: bool)
    | RecoverStep
    | ClaimSendStep(run: Uuid, token: Token, lease: nat)
    | TransmitStep(token: Token)                // the record is handed to its channel, under no lease
    | SendStep(token: Token, result: SendResult)
    | ActionStep(run: Uuid, succeeded: bool)     // the action executor, once the approval notice was sent

  /** The limit `runOnce` hands to `FailOrRetry` on the branch the snapshot puts it on. */
  function RetryLimit(cfg: Config, r: Run): nat {
    if BranchPhase(BranchOf(Scan(r))) == Model then r.modelLimit else cfg.runLimit
  }

  function Doubled(n: nat): nat { if n == 0 then 1 else 2 * Doubled(n - 1) }

  /** `time.Second << min(attempts - 1, 5)` in seconds, the delay of both kinds of worker. */
  function Backoff(attempts: nat): nat
    requires attempts >= 1
  {
    Doubled(if attempts - 1 < 5 then attempts - 1 else 5)
  }

  /** One second after the first attempt, two after the second, and 32 from the sixth on. */
  function DelayAfter(attempts: nat): nat {
    if attempts <= 1 then 1
    else if attempts == 2 then 2
    else if attempts == 3 then 4
    else if attempts == 4 then 8
    else if attempts == 5 then 16
    else 32
  }

  lemma BackoffDoubles(attempts: nat)
    requires attempts >= 1
    ensures Backoff(attempts) == DelayAfter(attempts)
  {
    assert Doubled(5) == 2 * Doubled(4) && Doubled(4) == 2 * Doubled(3) && Doubled(3) == 2 * Doubled(2);
  }

  /** `RouteResult.Validate`, as far as the stored columns are concerned. */
  predicate ValidRoute(route: Route) {
    route.status == Selected <==> route.operation.Some?
  }

  /** A candidate has text; only an answer that did not come from policy may carry an action. */
  predicate ValidCandidate(r: Run, candidate: Candidate) {
    candidate.text != "" && (BranchOf(Scan(r)) in {Clarify, ExecuteTool} ==> !candidate.action)
  }

  /** The run rests in `waiting_approval` because its approval notice was delivered. */
  predicate AwaitsAction(db: Db, id: Uuid) {
    id in db.runs && db.runs[id].state == WaitingApproval && id in db.deliveries && db.deliveries[id].state == Sent
  }

  /** The branch of `runOnce` decides how a worker's turn may end. */
  predicate WorkAllowed(db: Db, c: Claimed, work: Work) {
    var branch := BranchOf(Scan(c.row));
    match work
    case StoreRoute(route) => branch == RouteIntent && ValidRoute(route)
    case StorePlan(json) => branch == PlanTool && json.JsonObject?
    case StoreResult(json) =>
      branch == ExecuteTool && json.JsonObject? && c.id in db.calls && db.calls[c.id].state == CallSucceeded
    case StoreCandidate(candidate) => branch !in {RouteIntent, PlanTool, Deliver} && ValidCandidate(c.row, candidate)
    case AwaitApproval(_) => branch == ExecuteTool
    case Retry(delay) => c.row.attempts >= 1 && delay == Backoff(c.row.attempts)
    case GiveUp => true
    case HandOver => branch == Deliver
  }

  function DoWork(cfg: Config, db: Db, c: Claimed, work: Work): Tx {
    match work
    case StoreRoute(route) => SaveRoute(db, c, route)
    case StorePlan(json) => SaveToolPlan(db, c, json)
    case StoreResult(json) => SaveToolResult(db, c, json)
    case StoreCandidate(candidate) => SaveCandidate(db, c, candidate)
    case AwaitApproval(approval) => WaitForApproval(db, c, approval)
    case Retry(delay) => FailOrRetry(db, c, RetryLimit(cfg, c.row), delay)
    case GiveUp => Fail(db, c)
    case HandOver => Prepare(db, c, c.row.candidate.Some? && c.row.candidate.value.action)
  }

  predicate ToolAllowed(c: Claimed, tool: ToolWork) {
    BranchOf(Scan(c.row)) == ExecuteTool && (tool.EndTool? ==> tool.to in {CallSucceeded, CallFailed, CallUnknown})
  }

  function DoTool(db: Db, c: Claimed, tool: ToolWork): Db {
    match tool
    case PrepareTool(verdict, retryable) => PrepareCall(db, c.id, verdict, retryable)
    case StartTool => MoveCall(db, c.id, CallPrepared, CallExecuting)
    case EndTool(to) => MoveCall(db, c.id, CallExecuting, to)
  }

  /** `delivery.Worker.runOnce`: the class of the send error picks the transition. */
  function DoSend(cfg: Config, db: Db, s: Record, result: SendResult): Tx {
    match result
    case Accepted => MarkSent(db, s)
    case Retryable(delay) => MarkRetry(db, s, cfg.sendLimit, delay)
    case Permanent => MarkPermanent(db, s)
    case Unclear => MarkUncertain(db, s)
  }

  /** What the code around the stores guarantees about a call of a store. */
  predicate Enabled(w: World, step: Step) {
    match step
    case EnqueueStep(_, _, _, plane, _) => plane != Internal
    case ClaimStep(_, _, token, _) => token !in w.claims
    case WorkStep(token, work) => token in w.claims && WorkAllowed(w.db, w.claims[token], work)
    case ToolStep(token, tool) => token in w.claims && ToolAllowed(w.claims[token], tool)
    case ClaimSendStep(_, token, _) => token !in w.sends
    case TransmitStep(token) => token in w.unsent
    case SendStep(token, result) =>
      token in w.sends && token !in w.unsent && (result.Retryable? ==> w.sends[token].row.attempts >= 1 && result.delay == Backoff(w.sends[token].row.attempts))
    case ActionStep(run, _) => AwaitsAction(w.db, run)
    case _ => true
  }

  function Toggle(tenants: set<Uuid>, tenant: Uuid, paused: bool): set<Uuid> {
    if paused then tenants + {tenant} else tenants - {tenant}
  }

  /** The transaction a step runs, and how it ends. */
  function Transact(cfg: Config, w: World, step: Step): Tx
    requires Enabled(w, step)
  {
    var db := w.db;
    match step
    case Tick(seconds) => Tx(db.(now := db.now + seconds), Committed)
    case PauseRuns(tenant, paused) => Tx(db.(pausedRuns := Toggle(db.pausedRuns, tenant, paused)), Committed)
    case PauseDeliveries(tenant, paused) => Tx(db.(pausedDeliveries := Toggle(db.pausedDeliveries, tenant, paused)), Committed)
    case EnqueueStep(run, event, key, plane, modelLimit) => Enqueue(db, run, event, key, plane, modelLimit)
    case SpawnStep(parent, jobKey, run, event, modelLimit) => Spawn(db, parent, jobKey, run, event, modelLimit)
    case ClaimStep(chosen, run, token, lease) => Claim(db, chosen, run, token, db.now + lease, cfg.runLimit)
    case WorkStep(token, work) => DoWork(cfg, db, w.claims[token], work)
    case ToolStep(token, tool) => Tx(DoTool(db, w.claims[token], tool), Committed)
    case DecideStep(run, approval, approve) => Decide(db, run, approval, approve)
    case RecoverStep => Tx(FailExhausted(db, cfg.sendLimit), Committed)
    case ClaimSendStep(run, token, lease) => ClaimDelivery(db, run, token, db.now + lease, cfg.sendLimit)
    case TransmitStep(_) => Tx(db, Committed)
    case SendStep(token, result) => DoSend(cfg, db, w.sends[token], result)
    case ActionStep(run, succeeded) =>
      Tx(PutRun(db, run, db.runs[run].(state := if succeeded then Succeeded else Failed)), Committed)
  }

  /** A step runs its transaction; a claim that found a row hands what it scanned to the worker. */
  function Apply(cfg: Config, w: World, step: Step): World
    requires Enabled(w, step)
  {
    var tx := Transact(cfg, w, step);
    World(tx.db,
      if step.ClaimStep? && tx.outcome == Committed && step.run in tx.db.runs
      then w.claims[step.token := Claimed(step.run, tx.db.runs[step.run])] else w.claims,
      if step.ClaimSendStep? && tx.outcome == Committed && step.run in tx.db.deliveries
      then w.sends[step.token := Record(step.run, tx.db.deliveries[step.run])] else w.sends,
      if step.ClaimSendStep? && tx.outcome == Committed then w.unsent + {step.token}
      else if step.TransmitStep? then w.unsent - {step.token} else w.unsent)
  }

  predicate Init(w: World) {
    w.db.lanes == map[] && w.db.runs == map[] && w.db.deliveries == map[] && w.db.delegations == map[] &&
    w.db.calls == map[] && w.claims == map[] && w.sends == map[] && w.unsent == {}
  }

  /** `trace` is a run of the system: `steps[i]` leads from `trace[i]` to `trace[i + 1]`. */
  ghost predicate IsTrace(cfg: Config, trace: seq<World>, steps: seq<Step>) {
    && |trace| == |steps| + 1
    && Init(trace[0])
    && forall i | 0 <= i < |steps| :: Enabled(trace[i], steps[i]) && trace[i + 1] == Apply(cfg, trace[i], steps[i])
  }

  // ---------------------------------------------------------------- the invariant

  /** The run gave its place in the lane up for good. */
  predicate Released(r: Run, d: Option<Delivery>) {
    || r.state in {Failed, Succeeded, DeliveryUnknown}
    || (r.state == WaitingApproval && d.Some? && d.value.state == Sent)
  }

  predicate Untouched(r: Run) { r.state == Queued && r.attempts == 0 }

  /** Which run states go with which null patterns. */
  predicate Stages(r: Run) {
    && (r.state == Queued ==> r.candidate.None?)
    && (r.state != Queued ==> r.attempts >= 1)
    && (r.state in {ReplyPending, DeliveryPending, Succeeded, DeliveryUnknown} ==> r.candidate.Some?)
    && (r.pendingApproval.Some? ==> r.state == WaitingApproval && PhaseOf(r) == Execution)
    && (r.state == WaitingApproval && r.pendingApproval.None? ==> r.candidate.Some? && r.candidate.value.action)
  }

  /** A run below, at or above its lane's dispatch position. */
  predicate Positioned(r: Run, lane: Lane, d: Option<Delivery>, k: Option<ToolCall>) {
    && 1 <= r.sequence < lane.nextEnqueue
    && (r.sequence > lane.nextDispatch ==> Untouched(r) && d.None? && k.None?)
    && (r.sequence >= lane.nextDispatch <==> !Released(r, d))
  }

  /** How a run and its delivery move together. */
  predicate DeliveryMatches(cfg: Config, r: Run, d: Option<Delivery>) {
    && (r.state == DeliveryPending <==> d.Some? && d.value.state in {Pending, Sending})
    && (d.None? ==> r.state !in {Succeeded, DeliveryUnknown} && (r.state == WaitingApproval ==> r.pendingApproval.Some?))
    && (d.Some? ==>
        && r.candidate.Some? && d.value.waiting == r.candidate.value.action
        && d.value.tenant == r.lane.tenant
        && (d.value.state == Sending <==> d.value.lease.Some?)
        && d.value.attempts <= cfg.sendLimit
        && (d.value.state == Pending ==> d.value.attempts < cfg.sendLimit)
        && (d.value.state != Pending ==> d.value.attempts >= 1)
        && (d.value.state == Sent ==> r.state in (if d.value.waiting then {WaitingApproval, Succeeded, Failed} else {Succeeded}))
        && (d.value.state == Undelivered ==> r.state == Failed)
        && (d.value.state == Uncertain ==> r.state == DeliveryUnknown))
  }

  /** The state a job must be in, read off its child run. */
  function JobState(r: Run, d: Option<Delivery>): DelegationState {
    if d.Some? && d.value.state == Sent then JobCompleted
    else if d.Some? && d.value.state == Uncertain then JobUnknown
    else if Released(r, d) then JobFailed
    else if r.attempts == 0 then JobQueued
    else JobRunning
  }

  predicate JobMatches(r: Run, d: Option<Delivery>, g: Option<Delegation>) {
    (g.Some? <==> r.plane == Internal) && (g.Some? ==> g.value.state == JobState(r, d))
  }

  /** A call that asked for approval goes on only once it was granted, and never after it was refused. */
  predicate Authorized(k: ToolCall) {
    k.approval.Some? ==>
      match k.approval.value.state
      case Requested => k.state == CallWaiting
      case Approved => k.state in {CallPrepared, CallExecuting, CallUnknown, CallSucceeded, CallFailed}
      case _ => k.state == CallDenied
  }

  predicate CallMatches(r: Run, k: Option<ToolCall>) {
    && (k.Some? ==> Authorized(k.value))
    && (k.Some? ==> r.arguments.Some?)
    && (k.Some? ==> (k.value.state == CallWaiting <==> k.value.approval.Some? && k.value.approval.value.state == Requested))
    && (r.pendingApproval.Some? ==> k.Some? && k.value.state == CallWaiting && k.value.approval.value.id == r.pendingApproval.value)
    && (r.result.Some? ==> k.Some? && k.value.state == CallSucceeded)
  }

  /** Everything that holds of one run, read off the rows that belong to it. */
  predicate RunOk(cfg: Config, r: Run, lane: Lane, d: Option<Delivery>, g: Option<Delegation>, k: Option<ToolCall>) {
    && Shape(r) && Counts(r, cfg.runLimit) && Stages(r)
    && Positioned(r, lane, d, k)
    && DeliveryMatches(cfg, r, d)
    && JobMatches(r, d, g)
    && CallMatches(r, k)
  }

  /** Whoever is at work on a row found it due. */
  predicate WasDue(db: Db, id: Uuid)
    requires id in db.runs
  {
    && (db.runs[id].state == Running ==> db.runs[id].availableAt <= db.now)
    && (id in db.deliveries && db.deliveries[id].state == Sending ==> db.deliveries[id].availableAt <= db.now)
  }

  predicate RunOkAt(cfg: Config, db: Db, id: Uuid)
    requires id in db.runs
  {
    && WasDue(db, id)
    && db.runs[id].lane in db.lanes
    && RunOk(cfg, db.runs[id], db.lanes[db.runs[id].lane],
             Lookup(db.deliveries, id), Lookup(db.delegations, id), Lookup(db.calls, id))
  }

  predicate Occupies(db: Db, key: LaneKey, sequence: nat, id: Uuid) {
    id in db.runs && db.runs[id].lane == key && db.runs[id].sequence == sequence
  }

  ghost predicate Filled(db: Db, key: LaneKey, sequence: nat) {
    exists id :: Occupies(db, key, sequence, id)
  }

  ghost predicate LaneFilled(db: Db, key: LaneKey)
    requires key in db.lanes
  {
    && 1 <= db.lanes[key].nextDispatch <= db.lanes[key].nextEnqueue
    && forall q: nat | 1 <= q < db.lanes[key].nextEnqueue :: Filled(db, key, q)
  }

  /** Every sequence number a lane has given out belongs to a run. */
  ghost predicate LanesFilled(db: Db) {
    forall key {:trigger LaneFilled(db, key)} | key in db.lanes :: LaneFilled(db, key)
  }

  predicate Apart(db: Db, a: Uuid, b: Uuid)
    requires a in db.runs && b in db.runs
  {
    && (db.runs[a].lane == db.runs[b].lane && db.runs[a].sequence == db.runs[b].sequence ==> a == b)
    && (db.runs[a].event == db.runs[b].event ==> a == b)
  }

  /** No two runs share a place in a lane or a source event. */
  ghost predicate RunsUnique(db: Db) {
    forall a, b {:trigger Apart(db, a, b)} | a in db.runs && b in db.runs :: Apart(db, a, b)
  }

  /** A child comes after its parent in the parent's lane, and a parent was never itself delegated. */
  predicate JobOk(db: Db, child: Uuid)
    requires child in db.delegations
  {
    var parent := db.delegations[child].parent;
    && child in db.runs && parent in db.runs
    && db.runs[parent].lane == db.runs[child].lane
    && db.runs[parent].sequence < db.runs[child].sequence
    && db.runs[parent].plane == Passive
  }

  predicate JobsApart(db: Db, a: Uuid, b: Uuid)
    requires a in db.delegations && b in db.delegations
  {
    db.delegations[a].parent == db.delegations[b].parent && db.delegations[a].key == db.delegations[b].key ==> a == b
  }

  ghost predicate JobsOk(db: Db) {
    && (forall child {:trigger JobOk(db, child)} | child in db.delegations :: JobOk(db, child))
    && (forall a, b {:trigger JobsApart(db, a, b)} | a in db.delegations && b in db.delegations :: JobsApart(db, a, b))
  }

  ghost predicate KeysOk(db: Db) {
    db.deliveries.Keys <= db.runs.Keys && db.calls.Keys <= db.runs.Keys
  }

  /** `r` is a later version of `was`: the same run, every output that was written still in place, no attempt given back. */
  predicate Extends(was: Run, r: Run) {
    && was.event == r.event && was.lane == r.lane && was.sequence == r.sequence
    && was.plane == r.plane && was.modelLimit == r.modelLimit
    && (was.route.Some? ==> r.route == was.route)
    && (was.arguments.Some? ==> r.arguments == was.arguments)
    && (was.result.Some? ==> r.result == was.result)
    && (was.candidate.Some? ==> r.candidate == was.candidate)
    && was.attempts <= r.attempts
    && was.routeAttempts <= r.routeAttempts && was.planAttempts <= r.planAttempts
    && was.executionAttempts <= r.executionAttempts && was.modelAttempts <= r.modelAttempts && was.finalAttempts <= r.finalAttempts
  }

  /** A snapshot is an older version of the row, and while its token is held it is the row. */
  predicate ClaimOk(cfg: Config, db: Db, token: Token, c: Claimed) {
    && c.id in db.runs && c.row.lease.Some? && c.row.lease.value.token == token && c.row.attempts >= 1
    && Shape(c.row) && Counts(c.row, cfg.runLimit)
    && Extends(c.row, db.runs[c.id])
    && (Held(db, c) ==> db.runs[c.id] == c.row)
  }

  predicate SendOk(db: Db, token: Token, s: Record) {
    && s.id in db.deliveries && s.row.lease.Some? && s.row.lease.value.token == token
    && s.row.waiting == db.deliveries[s.id].waiting
    && s.row.attempts <= db.deliveries[s.id].attempts
    && (SendHeld(db, s) ==> db.deliveries[s.id] == s.row)
  }

  predicate LeaseKnown(w: World, id: Uuid)
    requires id in w.db.runs
  {
    w.db.runs[id].lease.Some? ==>
      var token := w.db.runs[id].lease.value.token;
      token in w.claims && w.claims[token].id == id
  }

  predicate SendLeaseKnown(w: World, id: Uuid)
    requires id in w.db.deliveries
  {
    w.db.deliveries[id].lease.Some? ==>
      var token := w.db.deliveries[id].lease.value.token;
      token in w.sends && w.sends[token].id == id
  }

  ghost predicate WorkersOk(cfg: Config, w: World) {
    && (forall token {:trigger ClaimOk(cfg, w.db, token, w.claims[token])} | token in w.claims :: ClaimOk(cfg, w.db, token, w.claims[token]))
    && (forall token {:trigger SendOk(w.db, token, w.sends[token])} | token in w.sends :: SendOk(w.db, token, w.sends[token]))
    && (forall id {:trigger LeaseKnown(w, id)} | id in w.db.runs :: LeaseKnown(w, id))
    && (forall id {:trigger SendLeaseKnown(w, id)} | id in w.db.deliveries :: SendLeaseKnown(w, id))
  }

  ghost predicate RunsOk(cfg: Config, db: Db) {
    forall id {:trigger RunOkAt(cfg, db, id)} | id in db.runs :: RunOkAt(cfg, db, id)
  }

  ghost predicate Inv(cfg: Config, w: World) {
    && LanesFilled(w.db)
    && RunsUnique(w.db)
    && RunsOk(cfg, w.db)
    && JobsOk(w.db)
    && KeysOk(w.db)
    && WorkersOk(cfg, w)
  }
}
