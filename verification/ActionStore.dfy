/** The action store and the executor, statement by statement. */
module ActionStore {
  import opened Wrappers
  import opened Text
  import A = Actions
  import R = Rows
  import T = Tables

  class Database {
    var now: A.Time
    var intents: map<A.Uuid, A.Intent>
    var approvals: map<A.Uuid, A.Approval>
    var executions: map<A.Uuid, A.Execution>
    var tickets: map<A.Uuid, A.Ticket>
    var runs: map<A.Uuid, R.RunState>
    var events: multiset<A.Event>

    /** The contents as a value. */
    function State(): A.Db
      reads this
    {
      A.Db(now, intents, approvals, executions, tickets, runs, events)
    }

    constructor (start: A.Time)
      ensures State() == A.Db(start, map[], map[], map[], map[], map[], multiset{})
    {
      now, intents, approvals, executions, tickets, runs := start, map[], map[], map[], map[], map[];
      events := multiset{};
    }
  }

  class Store {
    const pool: Database

    constructor (pool: Database)
      ensures this.pool == pool
    {
      this.pool := pool;
    }

    method EnsureIntent(run: A.Uuid, tenant: A.Uuid, member: A.Uuid, rawTitle: string, newId: A.Uuid)
      returns (outcome: A.EnsureOutcome, intent: A.Uuid)
      modifies pool
      ensures A.EnsureTx(pool.State(), outcome) == A.EnsureIntent(old(pool.State()), run, tenant, member, rawTitle, newId)
      ensures outcome == A.Ensured ==>
                && intent in pool.intents && pool.intents[intent].run == run
                && pool.intents[intent].digest == A.DigestOf(TrimSpace(rawTitle))
    {
      var title := TrimSpace(rawTitle);
      if |title| == 0 || ByteLength(title) > 200 {
        return A.InvalidIntent, newId;
      }
      var digest := A.DigestOf(title);
      if same :| same in pool.intents && pool.intents[same].run == run && pool.intents[same].digest == digest {
        return A.Ensured, same;
      }
      if other :| other in pool.intents && pool.intents[other].run == run {
        return A.DigestDiffers, other;
      }
      if newId in pool.intents {
        return A.IdTaken, newId;
      }
      pool.intents := pool.intents[newId :=
        A.Intent(run, tenant, member, title, digest, A.PendingApproval, pool.now + A.FIFTEEN_MINUTES)];
      return A.Ensured, newId;
    }

    method Approve(tenant: A.Uuid, member: A.Uuid, id: A.Uuid, digest: A.Digest, newId: A.Uuid)
      returns (outcome: A.ApproveOutcome, execution: A.Uuid)
      modifies pool
      ensures A.ApproveTx(pool.State(), outcome) == A.Approve(old(pool.State()), tenant, member, id, digest, newId)
      ensures outcome in {A.Approved, A.Replayed} ==>
                execution in pool.executions && pool.executions[execution].intent == id
    {
      if id !in pool.intents {
        return A.Forbidden, newId;
      }
      var intent := pool.intents[id];
      if intent.tenant != tenant || intent.member != member {
        return A.Forbidden, newId;
      }
      if digest == A.EmptyDigest || digest != intent.digest {
        return A.Conflict, newId;
      }
      if pool.now > intent.expires && intent.state == A.PendingApproval {
        pool.intents := pool.intents[id := intent.(state := A.IntentExpired)];
        return A.Expired, newId;
      }
      if intent.state != A.PendingApproval {
        if found :| found in pool.executions && pool.executions[found].intent == id {
          return A.Replayed, found;
        }
        return A.Conflict, newId;
      }
      if id in pool.approvals || newId in pool.executions {
        return A.Refused, newId;
      }
      pool.approvals := pool.approvals[id := A.Approval(intent.tenant, intent.member, digest, pool.now)];
      pool.executions := pool.executions[newId := A.Execution(id, intent.tenant, id, A.Queued, 0, pool.now, None, None)];
      pool.intents := pool.intents[id := intent.(state := A.IntentApproved)];
      pool.events := pool.events + multiset{A.ApprovedEvent(newId)};
      return A.Approved, newId;
    }
  }

  /** What the database does to an insert: nothing, an error, or a commit nobody confirms. */
  datatype Fault = NoFault | InsertFails | CommitLost(applied: bool)

  /** And to the read-back and the completion after it. */
  datatype LateFault = NoLateFault | ReadBackFails | CompletionFails

  /** What `verifyAndComplete` leaves behind. */
  function Verified(before: A.Db, job: A.Job, ticket: A.Uuid, max: nat, late: LateFault): A.Db {
    match late
    case NoLateFault => A.VerifyAndComplete(before, job, ticket, max)
    case ReadBackFails => A.MarkUnknown(before, job)
    case CompletionFails => before
  }

  /** What `execute` leaves behind: a failure inserts nothing, and what was inserted is verified or in doubt. */
  ghost predicate Executed(before: A.Db, after: A.Db, job: A.Job, newId: A.Uuid, max: nat, fault: Fault, late: LateFault) {
    var inserted := A.InsertTicket(before, job, newId);
    if fault == InsertFails || !A.HasTicket(inserted, job.key) then after == A.Fail(before, job, max)
    else if fault == CommitLost(false) then after == A.MarkUnknown(before, job)
    else if fault == CommitLost(true) then after == A.MarkUnknown(inserted, job)
    else exists t :: t in inserted.tickets && inserted.tickets[t].key == job.key && after == Verified(inserted, job, t, max, late)
  }

  /** What `reconcile` leaves behind. */
  ghost predicate Reconciled(before: A.Db, after: A.Db, job: A.Job, max: nat, readFails: bool, late: LateFault) {
    if readFails then after == A.MarkUnknown(before, job)
    else if A.HasTicket(before, job.key)
    then exists t :: t in before.tickets && before.tickets[t].key == job.key && after == Verified(before, job, t, max, late)
    else after == A.Requeue(before, job)
  }

  /** The branch the prior state of the claim puts a turn on. */
  ghost predicate Performed(before: A.Db, after: A.Db, job: A.Job, newId: A.Uuid, max: nat,
                            readFails: bool, fault: Fault, late: LateFault) {
    if job.prior == A.Unknown then Reconciled(before, after, job, max, readFails, late)
    else Executed(before, after, job, newId, max, fault, late)
  }

  /** What a whole turn leaves behind: the sweep, the claim, and the branch of the prior state. */
  ghost predicate RanOnce(before: A.Db, after: A.Db, claimed: Option<A.Job>, token: A.Token, lease: nat, newId: A.Uuid,
                          max: nat, readFails: bool, fault: Fault, late: LateFault) {
    var swept := A.Sweep(before);
    match claimed
    case None => after == swept
    case Some(job) =>
      && A.Claimable(swept, job.execution, max) && job == A.JobOf(swept, job.execution, token)
      && var held := A.Claim(swept, job.execution, token, before.now + lease);
         Performed(held, after, job, newId, max, readFails, fault, late)
  }

  /** What the sweep makes of a row: only a running execution whose lease ran out becomes unknown. */
  function Swept(x: A.Execution, now: A.Time): A.Execution {
    if x.state == A.Running && x.lease.Some? && x.lease.value.until < now
    then A.Execution(x.intent, x.tenant, x.key, A.Unknown, x.attempts, x.availableAt, None, x.ticket) else x
  }

  lemma SweepIsSwept(db: A.Db)
    ensures forall e :: e in A.Sweep(db).executions <==> e in db.executions
    ensures forall e | e in db.executions :: A.Sweep(db).executions[e] == Swept(db.executions[e], db.now)
  {}

  /** The two states agree on the execution. */
  predicate Untouched(before: A.Db, after: A.Db, e: A.Uuid) {
    e in before.executions ==> e in after.executions && after.executions[e] == before.executions[e]
  }

  lemma StatementsSpareOthers(db: A.Db, job: A.Job, t: A.Uuid, max: nat, e: A.Uuid)
    requires e != job.execution
    ensures Untouched(db, A.Fail(db, job, max), e) && Untouched(db, A.MarkUnknown(db, job), e) && Untouched(db, A.Requeue(db, job), e)
    ensures Untouched(db, A.Complete(db, job, t), e) && Untouched(db, A.InsertTicket(db, job, t), e)
  {}

  lemma VerifiedSparesOthers(db: A.Db, job: A.Job, t: A.Uuid, max: nat, late: LateFault, e: A.Uuid)
    requires e != job.execution
    ensures Untouched(db, Verified(db, job, t, max, late), e)
  {
    StatementsSpareOthers(db, job, t, max, e);
  }

  /** A turn writes to no execution but that of its own job. */
  lemma PerformedSparesOthers(before: A.Db, after: A.Db, job: A.Job, newId: A.Uuid, max: nat,
                              readFails: bool, fault: Fault, late: LateFault, e: A.Uuid)
    requires Performed(before, after, job, newId, max, readFails, fault, late) && e != job.execution
    ensures Untouched(before, after, e)
  {
    var inserted := A.InsertTicket(before, job, newId);
    StatementsSpareOthers(before, job, newId, max, e);
    StatementsSpareOthers(inserted, job, newId, max, e);
    forall t ensures Untouched(inserted, Verified(inserted, job, t, max, late), e) {
      VerifiedSparesOthers(inserted, job, t, max, late, e);
    }
    forall t ensures Untouched(before, Verified(before, job, t, max, late), e) {
      VerifiedSparesOthers(before, job, t, max, late, e);
    }
  }

  /**
   A turn sweeps the executions it did not claim, which leaves a running one alone whose lease has not run out, and
   the one it claimed was queued or unknown, due, and had an attempt left.
   */
  ghost predicate SweptOthers(before: A.Db, after: A.Db, claimed: Option<A.Job>, max: nat) {
    && (forall e | e in before.executions && (claimed.None? || e != claimed.value.execution) ::
          e in after.executions && after.executions[e] == Swept(before.executions[e], before.now))
    && (claimed.Some? ==>
          && claimed.value.execution in before.executions
          && var x := Swept(before.executions[claimed.value.execution], before.now);
             x.state in {A.Queued, A.Unknown} && x.availableAt <= before.now && x.attempts < max && claimed.value.prior == x.state)
  }

  lemma TurnSweepsOthers(before: A.Db, after: A.Db, claimed: Option<A.Job>, token: A.Token, lease: nat, newId: A.Uuid,
                         max: nat, readFails: bool, fault: Fault, late: LateFault)
    requires RanOnce(before, after, claimed, token, lease, newId, max, readFails, fault, late)
    ensures SweptOthers(before, after, claimed, max)
  {
    SweepIsSwept(before);
    if claimed.Some? {
      var held := A.Claim(A.Sweep(before), claimed.value.execution, token, before.now + lease);
      forall e | e in before.executions && e != claimed.value.execution
        ensures e in after.executions && after.executions[e] == Swept(before.executions[e], before.now)
      {
        PerformedSparesOthers(held, after, claimed.value, newId, max, readFails, fault, late, e);
      }
    }
  }

  class Executor {
    const pool: Database
    const maxAttempts: nat

    constructor (pool: Database, maxAttempts: nat)
      ensures this.pool == pool && this.maxAttempts == maxAttempts
    {
      this.pool, this.maxAttempts := pool, maxAttempts;
    }

    /** No lease is left lapsed, and what was not lapsed is left alone. */
    method Sweep()
      modifies pool
      ensures pool.State() == A.Sweep(old(pool.State()))
      ensures forall e | e in pool.executions :: e in old(pool.executions) && pool.executions[e] == Swept(old(pool.executions)[e], pool.now)
      ensures forall e | e in pool.executions && pool.executions[e].state == A.Running && pool.executions[e].lease.Some? ::
                pool.executions[e].lease.value.until >= pool.now
      ensures forall e | e in pool.executions && old(pool.executions)[e].state == A.Running && old(pool.executions)[e].lease.Some?
                         && old(pool.executions)[e].lease.value.until >= pool.now ::
                pool.executions[e] == old(pool.executions)[e]
      ensures forall e :: !A.Lapsed(pool.State(), e)
      ensures pool.executions.Keys == old(pool.executions).Keys
      ensures forall e | e in pool.executions ::
                if A.Lapsed(old(pool.State()), e)
                then pool.executions[e].state == A.Unknown && pool.executions[e].attempts == old(pool.executions)[e].attempts
                else pool.executions[e] == old(pool.executions)[e]
    {
      pool.executions := map e | e in pool.executions ::
        if A.Lapsed(pool.State(), e) then pool.executions[e].(state := A.Unknown, lease := None) else pool.executions[e];
    }

    /** `claim`; `unlocked` are the rows no other transaction holds locked. */
    method Claim(unlocked: set<A.Uuid>, token: A.Token, lease: nat) returns (job: Option<A.Job>)
      modifies pool
      ensures if job.None?
              then pool.State() == old(pool.State()) && forall e | e in unlocked :: !A.Claimable(pool.State(), e, maxAttempts)
              else && job.value.execution in unlocked && A.Claimable(old(pool.State()), job.value.execution, maxAttempts)
                   && job.value == A.JobOf(old(pool.State()), job.value.execution, token)
                   && pool.State() == A.Claim(old(pool.State()), job.value.execution, token, old(pool.now) + lease)
                   && forall e | e in unlocked && A.Claimable(old(pool.State()), e, maxAttempts) ::
                        old(pool.executions)[job.value.execution].availableAt <= old(pool.executions)[e].availableAt
    {
      var due := map e | e in pool.executions && e in unlocked && A.Claimable(pool.State(), e, maxAttempts) ::
        pool.executions[e].availableAt;
      if due == map[] {
        forall e | e in unlocked ensures !A.Claimable(pool.State(), e, maxAttempts) {
          assert e !in due;
        }
        return None;
      }
      T.SomeRowIsFirst(due);
      var e :| e in due && T.FirstDue(due, e);
      forall other | other in unlocked && A.Claimable(pool.State(), other, maxAttempts)
        ensures pool.executions[e].availableAt <= pool.executions[other].availableAt
      {
        assert other in due;
      }
      var row := pool.executions[e];
      var intent := pool.intents[row.intent];
      pool.executions := pool.executions[e :=
        row.(state := A.Running, attempts := row.attempts + 1, lease := Some(R.Lease(token, pool.now + lease)))];
      return Some(A.Job(e, row.intent, intent.run, row.tenant, intent.member, row.key, intent.title, token, row.state, row.attempts + 1));
    }

    /** The token is spent; whoever held the execution left it unknown and due, and nobody else changed anything. */
    method MarkUnknown(job: A.Job)
      modifies pool
      ensures pool.State() == A.MarkUnknown(old(pool.State()), job)
      ensures !A.Holds(pool.State(), job)
      ensures A.Holds(old(pool.State()), job) ==>
                && A.Claimable(pool.State(), job.execution, maxAttempts)
                   == (old(pool.executions)[job.execution].attempts < maxAttempts && old(pool.executions)[job.execution].intent in pool.intents)
                && pool.State() == old(pool.State()).(executions := old(pool.executions)[job.execution := pool.executions[job.execution]])
      ensures !A.Holds(old(pool.State()), job) ==> pool.State() == old(pool.State())
    {
      if A.Holds(pool.State(), job) {
        pool.executions := pool.executions[job.execution :=
          pool.executions[job.execution].(state := A.Unknown, lease := None, availableAt := pool.now)];
      }
    }

    method Fail(job: A.Job)
      modifies pool
      ensures pool.State() == A.Fail(old(pool.State()), job, maxAttempts)
    {
      var terminal := job.attempts >= maxAttempts;
      var state := A.Queued;
      if terminal {
        state := A.Failed;
      }
      if !A.Holds(pool.State(), job) {
        return;
      }
      pool.executions := pool.executions[job.execution :=
        pool.executions[job.execution].(state := state, lease := None, availableAt := pool.now + 1)];
      if terminal {
        if job.intent in pool.intents {
          pool.intents := pool.intents[job.intent := pool.intents[job.intent].(state := A.IntentFailed)];
        }
        if job.run in pool.runs {
          pool.runs := pool.runs[job.run := R.Failed];
        }
        pool.events := pool.events + multiset{A.FailedEvent(job.execution)};
      }
    }

    method VerifyAndComplete(job: A.Job, ticket: A.Uuid, late: LateFault)
      modifies pool
      ensures pool.State() == Verified(old(pool.State()), job, ticket, maxAttempts, late)
    {
      if late == ReadBackFails {
        MarkUnknown(job);
        return;
      }
      if late == CompletionFails {
        return;
      }
      if ticket !in pool.tickets {
        MarkUnknown(job);
        return;
      }
      if !A.ReadBack(pool.tickets[ticket], job) {
        Fail(job);
        return;
      }
      if !A.Holds(pool.State(), job) {
        return;
      }
      pool.executions := pool.executions[job.execution :=
        pool.executions[job.execution].(state := A.Succeeded, ticket := Some(ticket), lease := None)];
      if job.intent in pool.intents {
        pool.intents := pool.intents[job.intent := pool.intents[job.intent].(state := A.IntentSucceeded)];
      }
      if job.run in pool.runs && pool.runs[job.run] == R.WaitingApproval {
        pool.runs := pool.runs[job.run := R.Succeeded];
      }
      pool.events := pool.events + multiset{A.SucceededEvent(job.execution)};
    }

    /** The insert of `execute` and the read of the persisted id in the same transaction. */
    method Insert(job: A.Job, newId: A.Uuid) returns (persisted: Option<A.Uuid>)
      modifies pool
      ensures pool.State() == A.InsertTicket(old(pool.State()), job, newId)
      ensures persisted.Some? ==> persisted.value in pool.tickets && pool.tickets[persisted.value].key == job.key
      ensures persisted.None? ==> !A.HasTicket(pool.State(), job.key) && newId in pool.tickets
    {
      if taken :| taken in pool.tickets && pool.tickets[taken].key == job.key {
        return Some(taken);
      }
      if newId in pool.tickets {
        return None;
      }
      pool.tickets := pool.tickets[newId := A.Ticket(job.tenant, job.member, job.title, true, job.key)];
      return Some(newId);
    }

    method Execute(job: A.Job, newId: A.Uuid, fault: Fault, late: LateFault)
      modifies pool
      ensures Executed(old(pool.State()), pool.State(), job, newId, maxAttempts, fault, late)
    {
      if fault == InsertFails {
        Fail(job);
        return;
      }
      if fault == CommitLost(false) && (newId !in pool.tickets || A.HasTicket(pool.State(), job.key)) {
        assert A.HasTicket(A.InsertTicket(pool.State(), job, newId), job.key) by {
          assert newId !in pool.tickets ==> A.HasTicket(pool.State(), job.key) || newId in A.InsertTicket(pool.State(), job, newId).tickets;
        }
        MarkUnknown(job);
        return;
      }
      var persisted := Insert(job, newId);
      if persisted.None? {
        Fail(job);
        return;
      }
      if fault == CommitLost(true) {
        MarkUnknown(job);
        return;
      }
      ghost var inserted := pool.State();
      VerifyAndComplete(job, persisted.value, late);
      assert persisted.value in inserted.tickets && pool.State() == Verified(inserted, job, persisted.value, maxAttempts, late);
    }

    method Reconcile(job: A.Job, readFails: bool, late: LateFault)
      modifies pool
      ensures Reconciled(old(pool.State()), pool.State(), job, maxAttempts, readFails, late)
    {
      if readFails {
        MarkUnknown(job);
        return;
      }
      if ticket :| ticket in pool.tickets && pool.tickets[ticket].key == job.key {
        VerifyAndComplete(job, ticket, late);
        assert A.HasTicket(old(pool.State()), job.key);
        return;
      }
      if A.Holds(pool.State(), job) {
        pool.executions := pool.executions[job.execution :=
          pool.executions[job.execution].(state := A.Queued, lease := None, availableAt := pool.now)];
      }
    }

    method Perform(job: A.Job, newId: A.Uuid, readFails: bool, fault: Fault, late: LateFault)
      modifies pool
      ensures Performed(old(pool.State()), pool.State(), job, newId, maxAttempts, readFails, fault, late)
    {
      if job.prior == A.Unknown {
        Reconcile(job, readFails, late);
        return;
      }
      Execute(job, newId, fault, late);
    }

    method SweepAndClaim(unlocked: set<A.Uuid>, token: A.Token, lease: nat) returns (claimed: Option<A.Job>)
      modifies pool
      ensures var swept := A.Sweep(old(pool.State()));
              match claimed
              case None => pool.State() == swept && forall e | e in unlocked :: !A.Claimable(swept, e, maxAttempts)
              case Some(job) =>
                && A.Claimable(swept, job.execution, maxAttempts) && job == A.JobOf(swept, job.execution, token)
                && pool.State() == A.Claim(swept, job.execution, token, old(pool.State()).now + lease)
    {
      Sweep();
      claimed := Claim(unlocked, token, lease);
    }

    method SweepClaimPerform(unlocked: set<A.Uuid>, token: A.Token, lease: nat, newId: A.Uuid, readFails: bool, fault: Fault, late: LateFault)
      returns (claimed: Option<A.Job>)
      modifies pool
      ensures RanOnce(old(pool.State()), pool.State(), claimed, token, lease, newId, maxAttempts, readFails, fault, late)
      ensures claimed.None? ==> forall e | e in unlocked :: !A.Claimable(pool.State(), e, maxAttempts)
    {
      claimed := SweepAndClaim(unlocked, token, lease);
      if claimed.None? {
        return;
      }
      Perform(claimed.value, newId, readFails, fault, late);
    }

    /** `runOnce` */
    method RunOnce(unlocked: set<A.Uuid>, token: A.Token, lease: nat, newId: A.Uuid, readFails: bool, fault: Fault, late: LateFault)
      returns (claimed: Option<A.Job>)
      modifies pool
      ensures RanOnce(old(pool.State()), pool.State(), claimed, token, lease, newId, maxAttempts, readFails, fault, late)
      ensures claimed.None? ==> forall e | e in unlocked :: !A.Claimable(pool.State(), e, maxAttempts)
      ensures SweptOthers(old(pool.State()), pool.State(), claimed, maxAttempts)
    {
      claimed := SweepClaimPerform(unlocked, token, lease, newId, readFails, fault, late);
      TurnSweepsOthers(old(pool.State()), pool.State(), claimed, token, lease, newId, maxAttempts, readFails, fault, late);
    }
  }
}
