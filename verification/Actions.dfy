/**
 Approved actions: the rows of the `action` and `collaboration` schemas, and what each statement or
 transaction of the action store and of the executor does to them.
 */
module Actions {
  import opened Wrappers
  import opened Text
  import R = Rows

  type Uuid = R.Uuid
  type Token = R.Token
  type Time = R.Time

  /** A SHA-256 checksum of the action's payload, taken to be injective; the empty string is no checksum. */
  datatype Digest = EmptyDigest | DigestOf(title: string) | OtherDigest

  datatype IntentState = PendingApproval | IntentApproved | IntentExpired | IntentSucceeded | IntentFailed
  datatype Intent = Intent(
    run: Uuid, tenant: Uuid, member: Uuid, title: string, digest: Digest, state: IntentState, expires: Time)

  datatype Approval = Approval(tenant: Uuid, member: Uuid, digest: Digest, at: Time)

  datatype ExecutionState = Queued | Running | Unknown | Succeeded | Failed

  /** The idempotency key is the intent's id behind a constant prefix, so the id stands for it. */
  datatype Execution = Execution(
    intent: Uuid, tenant: Uuid, key: Uuid, state: ExecutionState, attempts: nat, availableAt: Time,
    lease: Option<R.Lease>, ticket: Option<Uuid>)

  datatype Ticket = Ticket(tenant: Uuid, member: Uuid, title: string, open: bool, key: Uuid)

  datatype Event = ApprovedEvent(execution: Uuid) | SucceededEvent(execution: Uuid) | FailedEvent(execution: Uuid)

  /** Approvals are keyed by their intent, which is UNIQUE in that table. */
  datatype Db = Db(
    now: Time,
    intents: map<Uuid, Intent>,
    approvals: map<Uuid, Approval>,
    executions: map<Uuid, Execution>,
    tickets: map<Uuid, Ticket>,
    runs: map<Uuid, R.RunState>,
    events: multiset<Event>)

  /** What the executor scanned when it claimed an execution. */
  datatype Job = Job(
    execution: Uuid, intent: Uuid, run: Uuid, tenant: Uuid, member: Uuid, key: Uuid, title: string,
    token: Token, prior: ExecutionState, attempts: nat)

  const FIFTEEN_MINUTES := 900

  // ---------------------------------------------------------------- the action store

  datatype EnsureOutcome = Ensured | InvalidIntent | DigestDiffers | IdTaken
  datatype EnsureTx = EnsureTx(db: Db, outcome: EnsureOutcome)

  predicate HasIntent(db: Db, run: Uuid) { exists id :: id in db.intents && db.intents[id].run == run }

  predicate HasIntentWith(db: Db, run: Uuid, digest: Digest) {
    exists id :: id in db.intents && db.intents[id].run == run && db.intents[id].digest == digest
  }

  /** `EnsureIntent` for a ticket: a run's second intent is never inserted, and must carry the same digest. */
  function EnsureIntent(db: Db, run: Uuid, tenant: Uuid, member: Uuid, title: string, newId: Uuid): EnsureTx {
    var trimmed := TrimSpace(title);
    if trimmed == [] || ByteLength(trimmed) > 200 then EnsureTx(db, InvalidIntent)
    else if HasIntent(db, run) then EnsureTx(db, if HasIntentWith(db, run, DigestOf(trimmed)) then Ensured else DigestDiffers)
    else if newId in db.intents then EnsureTx(db, IdTaken)
    else
      EnsureTx(db.(intents := db.intents[newId :=
                 Intent(run, tenant, member, trimmed, DigestOf(trimmed), PendingApproval, db.now + FIFTEEN_MINUTES)]), Ensured)
  }

  datatype ApproveOutcome = Approved | Replayed | Forbidden | Conflict | Expired | Refused
  datatype ApproveTx = ApproveTx(db: Db, outcome: ApproveOutcome)

  predicate HasExecution(db: Db, intent: Uuid) { exists e :: e in db.executions && db.executions[e].intent == intent }

  function PutIntentState(db: Db, id: Uuid, state: IntentState): map<Uuid, Intent>
    requires id in db.intents
  {
    db.intents[id := db.intents[id].(state := state)]
  }

  /** `Approve`, with its checks in order; noticing the expiry is committed although the call fails. */
  function Approve(db: Db, tenant: Uuid, member: Uuid, id: Uuid, digest: Digest, newId: Uuid): ApproveTx {
    if id !in db.intents then ApproveTx(db, Forbidden)
    else
      var intent := db.intents[id];
      if intent.tenant != tenant || intent.member != member then ApproveTx(db, Forbidden)
      else if digest == EmptyDigest || digest != intent.digest then ApproveTx(db, Conflict)
      else if db.now > intent.expires && intent.state == PendingApproval then
        ApproveTx(db.(intents := PutIntentState(db, id, IntentExpired)), Expired)
      else if intent.state != PendingApproval then
        ApproveTx(db, if HasExecution(db, id) then Replayed else Conflict)
      else if id in db.approvals || newId in db.executions then ApproveTx(db, Refused)
      else
        ApproveTx(db.(
          approvals := db.approvals[id := Approval(intent.tenant, intent.member, digest, db.now)],
          executions := db.executions[newId := Execution(id, intent.tenant, id, Queued, 0, db.now, None, None)],
          intents := PutIntentState(db, id, IntentApproved),
          events := db.events + multiset{ApprovedEvent(newId)}), Approved)
  }

  // ---------------------------------------------------------------- the executor

  predicate Lapsed(db: Db, e: Uuid) {
    e in db.executions && db.executions[e].state == Running &&
    db.executions[e].lease.Some? && db.executions[e].lease.value.until < db.now
  }

  /** The outcome of an execution whose lease ran out is unknown. */
  function Sweep(db: Db): Db {
    db.(executions := map e | e in db.executions ::
          if Lapsed(db, e) then db.executions[e].(state := Unknown, lease := None) else db.executions[e])
  }

  predicate Claimable(db: Db, e: Uuid, max: nat) {
    e in db.executions && db.executions[e].state in {Queued, Unknown} &&
    db.executions[e].availableAt <= db.now && db.executions[e].attempts < max &&
    db.executions[e].intent in db.intents
  }

  function PutExecution(db: Db, e: Uuid, x: Execution): Db { db.(executions := db.executions[e := x]) }

  function Claim(db: Db, e: Uuid, token: Token, until: Time): Db
    requires e in db.executions
  {
    PutExecution(db, e, db.executions[e].(
      state := Running, attempts := db.executions[e].attempts + 1, lease := Some(R.Lease(token, until))))
  }

  /** What the claim query returns; the prior state is the one before the claim. */
  function JobOf(db: Db, e: Uuid, token: Token): Job
    requires e in db.executions && db.executions[e].intent in db.intents
  {
    var x, intent := db.executions[e], db.intents[db.executions[e].intent];
    Job(e, x.intent, intent.run, x.tenant, intent.member, x.key, intent.title, token, x.state, x.attempts + 1)
  }

  predicate HasTicket(db: Db, key: Uuid) { exists t :: t in db.tickets && db.tickets[t].key == key }

  /** The insert names no lease: only the unique key keeps a second ticket out. */
  function InsertTicket(db: Db, job: Job, newId: Uuid): Db {
    if HasTicket(db, job.key) || newId in db.tickets then db
    else db.(tickets := db.tickets[newId := Ticket(job.tenant, job.member, job.title, true, job.key)])
  }

  /** `WHERE id = $1 AND lease_token = $2`; the state is not asked for. */
  predicate Holds(db: Db, job: Job) {
    job.execution in db.executions && db.executions[job.execution].lease.Some? &&
    db.executions[job.execution].lease.value.token == job.token
  }

  function Release(x: Execution, state: ExecutionState, availableAt: Time): Execution {
    x.(state := state, lease := None, availableAt := availableAt)
  }

  function Requeue(db: Db, job: Job): Db {
    if !Holds(db, job) then db
    else PutExecution(db, job.execution, Release(db.executions[job.execution], Queued, db.now))
  }

  function MarkUnknown(db: Db, job: Job): Db {
    if !Holds(db, job) then db
    else PutExecution(db, job.execution, Release(db.executions[job.execution], Unknown, db.now))
  }

  /** `fail`: the last attempt ends the execution, its intent and, in whatever state it is, its run. */
  function Fail(db: Db, job: Job, max: nat): Db {
    if !Holds(db, job) then db
    else if job.attempts < max then
      PutExecution(db, job.execution, Release(db.executions[job.execution], Queued, db.now + 1))
    else
      PutExecution(db, job.execution, Release(db.executions[job.execution], Failed, db.now + 1)).(
        intents := if job.intent in db.intents then PutIntentState(db, job.intent, IntentFailed) else db.intents,
        runs := if job.run in db.runs then db.runs[job.run := R.Failed] else db.runs,
        events := db.events + multiset{FailedEvent(job.execution)})
  }

  predicate ReadBack(ticket: Ticket, job: Job) {
    ticket.tenant == job.tenant && ticket.member == job.member && ticket.title == job.title && ticket.open && ticket.key == job.key
  }

  function Complete(db: Db, job: Job, t: Uuid): Db {
    if !Holds(db, job) then db
    else
      db.(executions := db.executions[job.execution :=
            db.executions[job.execution].(state := Succeeded, ticket := Some(t), lease := None)],
          intents := if job.intent in db.intents then PutIntentState(db, job.intent, IntentSucceeded) else db.intents,
          runs := if job.run in db.runs && db.runs[job.run] == R.WaitingApproval then db.runs[job.run := R.Succeeded] else db.runs,
          events := db.events + multiset{SucceededEvent(job.execution)})
  }

  /** `verifyAndComplete` */
  function VerifyAndComplete(db: Db, job: Job, t: Uuid, max: nat): Db {
    if t !in db.tickets then MarkUnknown(db, job)
    else if !ReadBack(db.tickets[t], job) then Fail(db, job, max)
    else Complete(db, job, t)
  }
}
