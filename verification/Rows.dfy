/**
 The rows of the `agent` schema that the run protocol reads and writes.

 Identifiers and lease tokens are random 128-bit values that are only ever compared for equality, so
 they are plain numbers here.  A column that is UNIQUE in the schema (`deliveries.run_id`,
 `delegations.child_run_id`, and `tool_calls.run_id` for the one call a run makes) is the key of its
 table.
 */
module Rows {
  import opened Wrappers

  type Uuid = nat
  type Token = nat
  type Time = int

  datatype LaneKey = LaneKey(tenant: Uuid, channel: string, conversation: string)
  datatype Lane = Lane(nextEnqueue: nat, nextDispatch: nat)

  datatype Plane = Passive | ProactiveSource | Internal

  datatype RunState =
    | Queued
    | Running
    | ReplyPending
    | WaitingApproval
    | DeliveryPending
    | Succeeded
    | Failed
    | DeliveryUnknown

  datatype Lease = Lease(token: Token, until: Time)

  /** The closed set of `route_status`, and the operations the protocol tells apart. */
  datatype RouteStatus = Selected | Clarified | NoTool
  datatype Operation = KnowledgeSearch | CreateTicket | OtherTool(name: string)
  datatype Route = Route(status: RouteStatus, operation: Option<Operation>)

  /** A `jsonb` value; the JSON null is a value and not SQL's NULL. */
  datatype Json = JsonNull | JsonObject(text: string)
  datatype Candidate = Candidate(text: string, action: bool)

  datatype Run = Run(
    event: string,
    lane: LaneKey,
    sequence: nat,
    plane: Plane,
    modelLimit: nat,                // MaxModelAttempts of the pinned agent version
    state: RunState,
    attempts: nat,
    availableAt: Time,
    lease: Option<Lease>,
    route: Option<Route>,
    arguments: Option<Json>,        // tool_arguments
    result: Option<Json>,           // tool_result
    candidate: Option<Candidate>,
    pendingApproval: Option<Uuid>,
    routeAttempts: nat,
    planAttempts: nat,
    executionAttempts: nat,
    modelAttempts: nat,
    finalAttempts: nat)

  datatype DeliveryState = Pending | Sending | Sent | Undelivered | Uncertain
  datatype Delivery = Delivery(
    tenant: Uuid,
    waiting: bool,                  // waiting_approval
    state: DeliveryState,
    attempts: nat,
    availableAt: Time,
    lease: Option<Lease>)

  datatype DelegationState = JobQueued | JobRunning | JobCompleted | JobFailed | JobUnknown
  datatype Delegation = Delegation(parent: Uuid, key: string, state: DelegationState)

  datatype ApprovalState = Requested | Approved | Rejected | Expired
  datatype Approval = Approval(id: Uuid, state: ApprovalState, expiresAt: Time)
  datatype CallState = CallPrepared | CallDenied | CallWaiting | CallExecuting | CallUnknown | CallSucceeded | CallFailed
  datatype ToolCall = ToolCall(state: CallState, approval: Option<Approval>)

  datatype Db = Db(
    now: Time,
    lanes: map<LaneKey, Lane>,
    runs: map<Uuid, Run>,
    deliveries: map<Uuid, Delivery>,
    delegations: map<Uuid, Delegation>,
    calls: map<Uuid, ToolCall>,
    pausedRuns: set<Uuid>,
    pausedDeliveries: set<Uuid>)

  /** The row a worker scanned when it claimed a run.  The worker keeps it however stale it becomes. */
  datatype Claimed = Claimed(id: Uuid, row: Run)

  /** The row a delivery worker scanned when it claimed a delivery. */
  datatype Record = Record(id: Uuid, row: Delivery)

  /** How a transaction ended; every outcome but `Committed` rolled it back. */
  datatype Outcome =
    | Committed
    | LeaseNotHeld
    | AlreadyWritten
    | NotDispatchPosition
    | AlreadyDelivered
    | NotDeliveryPending
    | Refused

  datatype Tx = Tx(db: Db, outcome: Outcome)
}
