/**
 Approval and execution of actions as a state machine.  Members, run workers and any number of executors
 take the steps of `Actions` in any order.  Every job ever claimed stays in `jobs`, and its one call may go
 on at any later time from where it stands, so an executor that crashed, slept past its lease or never
 learned how a commit ended needs no step of its own.
 */
module ActionProtocol {
  import opened Wrappers
  import opened Actions
  import R = Rows

  /**
   How far a job's one call of `execute` or `reconcile` has come.  A call that failed has rolled its insert
   back, and one whose commit was not acknowledged may still see it take effect.
   */
  datatype Stage =
    | Started
    | Doubtful                // the commit of the insert was sent, and its outcome is unknown
    | Read(ticket: Uuid)      // the ticket under the key was inserted or found
    | Absent                  // a reconciliation found none
    | Over

  datatype World = World(db: Db, jobs: map<Token, Job>, stages: map<Token, Stage>)

  type Limit = n: nat | 1 <= n <= 10 witness 1

  datatype Step =
    | Tick(seconds: nat)
    | RunStep(run: Uuid, state: R.RunState)                 // whatever the rest of the system does to a run
    | EnsureStep(run: Uuid, tenant: Uuid, member: Uuid, title: string, newId: Uuid)
    | ApproveStep(tenant: Uuid, member: Uuid, intent: Uuid, digest: Digest, newId: Uuid)
    | SweepStep
    | ClaimStep(execution: Uuid, token: Token, lease: nat)
    | InsertStep(token: Token, newId: Uuid)
    | LookStep(token: Token)
    | CompleteStep(token: Token)
    | RequeueStep(token: Token)
    | UnknownStep(token: Token)
    | FailStep(token: Token)

  /** The stage of a job's call; only claimed jobs have one. */
  predicate At(w: World, token: Token, stage: Stage) {
    token in w.jobs && token in w.stages && w.stages[token] == stage
  }

  predicate HasRead(w: World, token: Token) {
    token in w.jobs && token in w.stages && w.stages[token].Read?
  }

  /** A queued execution inserts or fails before it does, an unknown one is looked up, and only what was read is completed. */
  predicate Enabled(w: World, step: Step) {
    match step
    case ClaimStep(_, token, _) => token !in w.jobs && token !in w.stages
    case InsertStep(token, _) => (At(w, token, Started) || At(w, token, Doubtful)) && w.jobs[token].prior == Queued
    case LookStep(token) => At(w, token, Started) && w.jobs[token].prior == Unknown
    case CompleteStep(token) => HasRead(w, token)
    case RequeueStep(token) => At(w, token, Absent)
    case UnknownStep(token) => At(w, token, Started) || HasRead(w, token)
    case FailStep(token) => At(w, token, Started) && w.jobs[token].prior == Queued
    case _ => true
  }

  ghost function TicketOf(db: Db, key: Uuid): Uuid
    requires HasTicket(db, key)
  {
    var t :| t in db.tickets && db.tickets[t].key == key; t
  }

  /** Where a call stands after it inserted: a late commit is not noticed, and a taken id rolled it back. */
  ghost function AfterInsert(w: World, token: Token, db: Db): Stage
    requires token in w.jobs && token in w.stages
  {
    if !HasTicket(db, w.jobs[token].key) then w.stages[token]
    else if w.stages[token] == Doubtful then Over
    else Read(TicketOf(db, w.jobs[token].key))
  }

  ghost function AfterLook(w: World, token: Token): Stage
    requires token in w.jobs
  {
    if HasTicket(w.db, w.jobs[token].key) then Read(TicketOf(w.db, w.jobs[token].key)) else Absent
  }

  /** Giving up on an unacknowledged insert leaves it possible; a call that only read is over. */
  function AfterUnknown(w: World, token: Token): Stage
    requires token in w.jobs && token in w.stages
  {
    if w.stages[token] == Started && w.jobs[token].prior == Queued then Doubtful else Over
  }

  function Put(w: World, token: Token, db: Db, stage: Stage): World {
    w.(db := db, stages := w.stages[token := stage])
  }

  ghost function Apply(max: Limit, w: World, step: Step): World
    requires Enabled(w, step)
  {
    var db := w.db;
    match step
    case Tick(seconds) => w.(db := db.(now := db.now + seconds))
    case RunStep(run, state) => w.(db := db.(runs := db.runs[run := state]))
    case EnsureStep(run, tenant, member, title, newId) => w.(db := EnsureIntent(db, run, tenant, member, title, newId).db)
    case ApproveStep(tenant, member, intent, digest, newId) => w.(db := Approve(db, tenant, member, intent, digest, newId).db)
    case SweepStep => w.(db := Sweep(db))
    case ClaimStep(e, token, lease) =>
      if Claimable(db, e, max)
      then World(Claim(db, e, token, db.now + lease), w.jobs[token := JobOf(db, e, token)], w.stages[token := Started])
      else w
    case InsertStep(token, newId) =>
      var inserted := InsertTicket(db, w.jobs[token], newId);
      Put(w, token, inserted, AfterInsert(w, token, inserted))
    case LookStep(token) => Put(w, token, db, AfterLook(w, token))
    case CompleteStep(token) => Put(w, token, VerifyAndComplete(db, w.jobs[token], w.stages[token].ticket, max), Over)
    case RequeueStep(token) => Put(w, token, Requeue(db, w.jobs[token]), Over)
    case UnknownStep(token) => Put(w, token, MarkUnknown(db, w.jobs[token]), AfterUnknown(w, token))
    case FailStep(token) => Put(w, token, Fail(db, w.jobs[token], max), Over)
  }

  predicate Init(w: World) {
    w.db.intents == map[] && w.db.approvals == map[] && w.db.executions == map[] && w.db.tickets == map[] &&
    w.db.events == multiset{} && w.jobs == map[] && w.stages == map[]
  }

  ghost predicate IsTrace(max: Limit, trace: seq<World>, steps: seq<Step>) {
    && |trace| == |steps| + 1
    && Init(trace[0])
    && forall i | 0 <= i < |steps| :: Enabled(trace[i], steps[i]) && trace[i + 1] == Apply(max, trace[i], steps[i])
  }

  // ---------------------------------------------------------------- the invariant

  predicate Ended(x: Execution) { x.state in {Succeeded, Failed} }

  function IntentStateFor(x: Execution): IntentState {
    if x.state == Succeeded then IntentSucceeded else if x.state == Failed then IntentFailed else IntentApproved
  }

  function Once(b: bool): nat { if b then 1 else 0 }

  /** An execution, its intent, its approval, its ticket and its audit events. */
  predicate ExecutionOk(max: Limit, db: Db, e: Uuid)
    requires e in db.executions
  {
    var x := db.executions[e];
    && x.intent in db.intents && x.intent in db.approvals
    && x.tenant == db.intents[x.intent].tenant && x.key == x.intent
    && db.intents[x.intent].state == IntentStateFor(x)
    && (x.state == Running <==> x.lease.Some?)
    && x.attempts <= max && (x.state != Queued ==> x.attempts >= 1)
    && (x.ticket.Some? <==> x.state == Succeeded)
    && (x.ticket.Some? ==> x.ticket.value in db.tickets && db.tickets[x.ticket.value].key == x.key)
    && db.events[SucceededEvent(e)] == Once(x.state == Succeeded)
    && db.events[FailedEvent(e)] == Once(x.state == Failed)
  }

  predicate NoEvents(db: Db, e: Uuid) {
    db.events[SucceededEvent(e)] == 0 && db.events[FailedEvent(e)] == 0
  }

  predicate ExecutionsApart(db: Db, a: Uuid, b: Uuid)
    requires a in db.executions && b in db.executions
  {
    db.executions[a].intent == db.executions[b].intent ==> a == b
  }

  predicate IntentsApart(db: Db, a: Uuid, b: Uuid)
    requires a in db.intents && b in db.intents
  {
    db.intents[a].run == db.intents[b].run ==> a == b
  }

  predicate IntentOk(db: Db, i: Uuid)
    requires i in db.intents
  {
    && db.intents[i].digest == DigestOf(db.intents[i].title)
    && (db.intents[i].state in {PendingApproval, IntentExpired} ==> i !in db.approvals && !HasExecution(db, i))
    && (db.intents[i].state !in {PendingApproval, IntentExpired} ==> HasExecution(db, i))
  }

  /** An approval was given by the member who asked, for what was asked, in time. */
  predicate ApprovalOk(db: Db, i: Uuid)
    requires i in db.approvals
  {
    && i in db.intents
    && db.approvals[i].tenant == db.intents[i].tenant && db.approvals[i].member == db.intents[i].member
    && db.approvals[i].digest == db.intents[i].digest && db.approvals[i].at <= db.intents[i].expires
  }

  /** A ticket is what some approved intent asked for. */
  predicate TicketOk(db: Db, t: Uuid)
    requires t in db.tickets
  {
    var ticket := db.tickets[t];
    && ticket.key in db.intents && ticket.key in db.approvals
    && ticket.tenant == db.intents[ticket.key].tenant && ticket.member == db.intents[ticket.key].member
    && ticket.title == db.intents[ticket.key].title && ticket.open
  }

  predicate TicketsApart(db: Db, a: Uuid, b: Uuid)
    requires a in db.tickets && b in db.tickets
  {
    db.tickets[a].key == db.tickets[b].key ==> a == b
  }

  predicate JobOk(db: Db, token: Token, job: Job) {
    && job.token == token && job.execution in db.executions && job.intent in db.intents
    && job.intent == db.executions[job.execution].intent && job.tenant == db.executions[job.execution].tenant
    && job.key == db.executions[job.execution].key
    && job.run == db.intents[job.intent].run && job.member == db.intents[job.intent].member && job.title == db.intents[job.intent].title
    && 1 <= job.attempts <= db.executions[job.execution].attempts
    && job.prior in {Queued, Unknown} && (job.prior == Unknown ==> job.attempts >= 2)
    && (Holds(db, job) ==> job.attempts == db.executions[job.execution].attempts)
  }

  predicate LeaseKnown(w: World, e: Uuid)
    requires e in w.db.executions
  {
    w.db.executions[e].lease.Some? ==>
      w.db.executions[e].lease.value.token in w.jobs && w.jobs[w.db.executions[e].lease.value.token].execution == e
  }

  /** What a call remembers is true, and it got there on the branch of its job's prior state. */
  predicate StageOk(w: World, token: Token)
    requires token in w.stages
  {
    && token in w.jobs
    && (w.stages[token].Read? ==>
          w.stages[token].ticket in w.db.tickets && w.db.tickets[w.stages[token].ticket].key == w.jobs[token].key)
    && (w.stages[token] == Absent ==> w.jobs[token].prior == Unknown)
    && (w.stages[token] == Doubtful ==> w.jobs[token].prior == Queued)
  }

  ghost predicate ExecutionsOk(max: Limit, db: Db) {
    && (forall e {:trigger ExecutionOk(max, db, e)} | e in db.executions :: ExecutionOk(max, db, e))
    && (forall e {:trigger NoEvents(db, e)} | e !in db.executions :: NoEvents(db, e))
    && (forall a, b {:trigger ExecutionsApart(db, a, b)} | a in db.executions && b in db.executions :: ExecutionsApart(db, a, b))
  }

  ghost predicate IntentsOk(db: Db) {
    && (forall i {:trigger IntentOk(db, i)} | i in db.intents :: IntentOk(db, i))
    && (forall a, b {:trigger IntentsApart(db, a, b)} | a in db.intents && b in db.intents :: IntentsApart(db, a, b))
    && (forall i {:trigger ApprovalOk(db, i)} | i in db.approvals :: ApprovalOk(db, i))
  }

  ghost predicate TicketsOk(db: Db) {
    && (forall t {:trigger TicketOk(db, t)} | t in db.tickets :: TicketOk(db, t))
    && (forall a, b {:trigger TicketsApart(db, a, b)} | a in db.tickets && b in db.tickets :: TicketsApart(db, a, b))
  }

  ghost predicate JobsOk(w: World) {
    && (forall token {:trigger JobOk(w.db, token, w.jobs[token])} | token in w.jobs :: JobOk(w.db, token, w.jobs[token]))
    && (forall e {:trigger LeaseKnown(w, e)} | e in w.db.executions :: LeaseKnown(w, e))
  }

  ghost predicate StagesOk(w: World) {
    && w.stages.Keys == w.jobs.Keys
    && forall token {:trigger StageOk(w, token)} | token in w.stages :: StageOk(w, token)
  }

  ghost predicate Inv(max: Limit, w: World) {
    ExecutionsOk(max, w.db) && IntentsOk(w.db) && TicketsOk(w.db) && JobsOk(w) && StagesOk(w)
  }
}
