/** What a whole turn of the executor leaves of the execution it claimed, in the columns of its row. */
module ExecutorOutcomes {
  import opened Wrappers
  import opened Actions
  import opened ActionStore
  import R = Rows

  /** The ticket is the one the row and its intent ask for. */
  predicate Agrees(ticket: Ticket, x: Execution, intent: Intent) {
    && ticket.tenant == x.tenant && ticket.member == intent.member && ticket.title == intent.title
    && ticket.open && ticket.key == x.key
  }

  /** The attempt was used and the lease given back. */
  predicate Rests(x: Execution, after: Execution, state: ExecutionState, at: Time) {
    after == Execution(x.intent, x.tenant, x.key, state, x.attempts + 1, at, None, x.ticket)
  }

  /** A failed attempt is queued again for one second later, and the last one ends the execution. */
  predicate FailsAttempt(x: Execution, after: Execution, max: nat, now: Time) {
    Rests(x, after, if x.attempts + 1 < max then Queued else Failed, now + 1)
  }

  /** The ticket `t` was read back and the execution completed with it, or could not be. */
  predicate ReadsBack(x: Execution, after: Execution, intent: Intent, tickets: map<Uuid, Ticket>, t: Uuid,
                      token: Token, until: Time, max: nat, now: Time, late: LateFault)
    requires t in tickets
  {
    match late
    case ReadBackFails => Rests(x, after, Unknown, now)
    case CompletionFails => after == Execution(x.intent, x.tenant, x.key, Running, x.attempts + 1, x.availableAt, Some(R.Lease(token, until)), x.ticket)
    case NoLateFault =>
      if Agrees(tickets[t], x, intent)
      then after == Execution(x.intent, x.tenant, x.key, Succeeded, x.attempts + 1, x.availableAt, None, Some(t))
      else FailsAttempt(x, after, max, now)
  }

  /** `x` is the row before its claim and `after` the row after the turn. */
  ghost predicate Leaves(x: Execution, after: Execution, intent: Intent, before: map<Uuid, Ticket>, tickets: map<Uuid, Ticket>, newId: Uuid,
                         token: Token, until: Time, max: nat, now: Time, readFails: bool, fault: Fault, late: LateFault) {
    var known := exists t :: t in before && before[t].key == x.key;
    if x.state == Unknown then
      // the outcome of an earlier attempt is looked up: a ticket completes it, no ticket queues it again
      if readFails then Rests(x, after, Unknown, now)
      else if !known then Rests(x, after, Queued, now)
      else exists t :: t in tickets && tickets[t].key == x.key && ReadsBack(x, after, intent, tickets, t, token, until, max, now, late)
    else
      // a first attempt or a retry inserts the ticket
      if fault == InsertFails || (!known && newId in before) then FailsAttempt(x, after, max, now)
      else if fault.CommitLost? then Rests(x, after, Unknown, now)
      else exists t :: t in tickets && tickets[t].key == x.key && ReadsBack(x, after, intent, tickets, t, token, until, max, now, late)
  }

  /** The job of a claim that found the row `x`, which it holds. */
  predicate Claimed(held: Db, x: Execution, job: Job, until: Time) {
    && job.execution in held.executions && x.intent in held.intents
    && held.executions[job.execution] == x.(state := Running, attempts := x.attempts + 1, lease := Some(R.Lease(job.token, until)))
    && job == Job(job.execution, x.intent, held.intents[x.intent].run, x.tenant, held.intents[x.intent].member, x.key,
                  held.intents[x.intent].title, job.token, job.prior, x.attempts + 1)
  }

  lemma VerifiedReadsBack(held: Db, x: Execution, job: Job, t: Uuid, until: Time, max: nat, late: LateFault)
    requires Claimed(held, x, job, until) && t in held.tickets
    ensures job.execution in Verified(held, job, t, max, late).executions
    ensures ReadsBack(x, Verified(held, job, t, max, late).executions[job.execution], held.intents[x.intent], held.tickets, t,
                      job.token, until, max, held.now, late)
    ensures Verified(held, job, t, max, late).tickets == held.tickets
  {}

  lemma InsertKeepsRest(held: Db, job: Job, newId: Uuid)
    ensures InsertTicket(held, job, newId) == held.(tickets := InsertTicket(held, job, newId).tickets)
    ensures HasTicket(InsertTicket(held, job, newId), job.key) <==> HasTicket(held, job.key) || newId !in held.tickets
  {
    var inserted := InsertTicket(held, job, newId);
    if HasTicket(held, job.key) {
      assert inserted == held;
    } else if newId !in held.tickets {
      assert newId in inserted.tickets && inserted.tickets[newId].key == job.key;
    }
  }

  lemma ExecutedLeaves(held: Db, after: Db, x: Execution, job: Job, newId: Uuid, until: Time, max: nat, fault: Fault, late: LateFault)
    requires Claimed(held, x, job, until) && x.state != Unknown
    requires Executed(held, after, job, newId, max, fault, late)
    ensures job.execution in after.executions
    ensures Leaves(x, after.executions[job.execution], held.intents[x.intent], held.tickets, after.tickets, newId,
                   job.token, until, max, held.now, false, fault, late)
  {
    var inserted := InsertTicket(held, job, newId);
    InsertKeepsRest(held, job, newId);
    if fault == NoFault && HasTicket(inserted, job.key) {
      var t :| t in inserted.tickets && inserted.tickets[t].key == job.key && after == Verified(inserted, job, t, max, late);
      VerifiedReadsBack(inserted, x, job, t, until, max, late);
    }
  }

  lemma ReconciledLeaves(held: Db, after: Db, x: Execution, job: Job, newId: Uuid, until: Time, max: nat, readFails: bool, fault: Fault, late: LateFault)
    requires Claimed(held, x, job, until) && x.state == Unknown
    requires Reconciled(held, after, job, max, readFails, late)
    ensures job.execution in after.executions
    ensures Leaves(x, after.executions[job.execution], held.intents[x.intent], held.tickets, after.tickets, newId,
                   job.token, until, max, held.now, readFails, fault, late)
  {
    if !readFails && HasTicket(held, job.key) {
      var t :| t in held.tickets && held.tickets[t].key == job.key && after == Verified(held, job, t, max, late);
      VerifiedReadsBack(held, x, job, t, until, max, late);
    }
  }

  lemma ClaimIsClaimed(before: Db, job: Job, token: Token, until: Time, max: nat)
    requires Claimable(Sweep(before), job.execution, max) && job == JobOf(Sweep(before), job.execution, token)
    ensures job.execution in before.executions
    ensures Claimed(Claim(Sweep(before), job.execution, token, until), Swept(before.executions[job.execution], before.now), job, until)
    ensures job.prior == Swept(before.executions[job.execution], before.now).state
    ensures Claim(Sweep(before), job.execution, token, until) ==
            before.(executions := Claim(Sweep(before), job.execution, token, until).executions)
  {
    SweepIsSwept(before);
  }

  lemma PerformedLeaves(before: Db, held: Db, after: Db, x: Execution, job: Job, newId: Uuid, until: Time, max: nat,
                        readFails: bool, fault: Fault, late: LateFault)
    requires Claimed(held, x, job, until) && job.prior == x.state && held == before.(executions := held.executions)
    requires Performed(held, after, job, newId, max, readFails, fault, late)
    ensures job.execution in after.executions && x.intent in before.intents
    ensures Leaves(x, after.executions[job.execution], before.intents[x.intent], before.tickets, after.tickets, newId,
                   job.token, until, max, before.now, readFails, fault, late)
  {
    if x.state == Unknown {
      ReconciledLeaves(held, after, x, job, newId, until, max, readFails, fault, late);
    } else {
      ExecutedLeaves(held, after, x, job, newId, until, max, fault, late);
    }
  }

  /** Every turn that claimed an execution leaves it in one of these ways, by what was read and what failed. */
  lemma TurnLeaves(before: Db, after: Db, job: Job, token: Token, lease: nat, newId: Uuid, max: nat,
                   readFails: bool, fault: Fault, late: LateFault)
    requires RanOnce(before, after, Some(job), token, lease, newId, max, readFails, fault, late)
    ensures job.execution in before.executions && job.execution in after.executions
    ensures var x := Swept(before.executions[job.execution], before.now);
            && x.intent in before.intents
            && Leaves(x, after.executions[job.execution], before.intents[x.intent], before.tickets, after.tickets, newId,
                      token, before.now + lease, max, before.now, readFails, fault, late)
  {
    ClaimIsClaimed(before, job, token, before.now + lease, max);
    PerformedLeaves(before, Claim(Sweep(before), job.execution, token, before.now + lease), after,
                    Swept(before.executions[job.execution], before.now), job, newId, before.now + lease, max, readFails, fault, late);
  }

  // ---------------------------------------------------------------- the intent and the run go with the execution

  /**
   Where the execution ended its intent ended with it, in the same way, and one audit event says so.  A failure
   also fails the run; a success ends it only if it is still waiting for the approval.  Where the execution did not
   end nothing else changed.
   */
  predicate EndsTogether(before: Db, after: Db, job: Job)
    requires job.execution in after.executions
  {
    match after.executions[job.execution].state
    case Succeeded =>
      && (job.intent in before.intents ==>
            after.intents == before.intents[job.intent := before.intents[job.intent].(state := IntentSucceeded)])
      && after.runs == (if job.run in before.runs && before.runs[job.run] == R.WaitingApproval
                        then before.runs[job.run := R.Succeeded] else before.runs)
      && after.events == before.events + multiset{SucceededEvent(job.execution)}
    case Failed =>
      && (job.intent in before.intents ==>
            after.intents == before.intents[job.intent := before.intents[job.intent].(state := IntentFailed)])
      && after.runs == (if job.run in before.runs then before.runs[job.run := R.Failed] else before.runs)
      && after.events == before.events + multiset{FailedEvent(job.execution)}
    case _ => after.intents == before.intents && after.runs == before.runs && after.events == before.events
  }

  predicate HeldBy(db: Db, job: Job) {
    job.execution in db.executions && db.executions[job.execution].state == Running
    && db.executions[job.execution].lease.Some? && db.executions[job.execution].lease.value.token == job.token
  }

  lemma StatementsEndTogether(db: Db, job: Job, t: Uuid, max: nat)
    requires HeldBy(db, job)
    ensures EndsTogether(db, Fail(db, job, max), job) && EndsTogether(db, MarkUnknown(db, job), job)
    ensures EndsTogether(db, Requeue(db, job), job) && EndsTogether(db, Complete(db, job, t), job)
  {}

  lemma VerifiedEndsTogether(db: Db, job: Job, t: Uuid, max: nat, late: LateFault)
    requires HeldBy(db, job)
    ensures job.execution in Verified(db, job, t, max, late).executions
    ensures EndsTogether(db, Verified(db, job, t, max, late), job)
  {
    StatementsEndTogether(db, job, t, max);
  }

  lemma ExecutedEndsTogether(held: Db, after: Db, job: Job, newId: Uuid, max: nat, fault: Fault, late: LateFault)
    requires HeldBy(held, job) && Executed(held, after, job, newId, max, fault, late)
    ensures job.execution in after.executions && EndsTogether(held, after, job)
  {
    var inserted := InsertTicket(held, job, newId);
    InsertKeepsRest(held, job, newId);
    if fault == InsertFails || fault == CommitLost(false) || !HasTicket(inserted, job.key) {
      StatementsEndTogether(held, job, newId, max);
    } else if fault == CommitLost(true) {
      StatementsEndTogether(inserted, job, newId, max);
    } else {
      var t :| t in inserted.tickets && inserted.tickets[t].key == job.key && after == Verified(inserted, job, t, max, late);
      VerifiedEndsTogether(inserted, job, t, max, late);
    }
  }

  lemma ReconciledEndsTogether(held: Db, after: Db, job: Job, max: nat, readFails: bool, late: LateFault)
    requires HeldBy(held, job) && Reconciled(held, after, job, max, readFails, late)
    ensures job.execution in after.executions && EndsTogether(held, after, job)
  {
    StatementsEndTogether(held, job, job.execution, max);
    if !readFails && HasTicket(held, job.key) {
      var t :| t in held.tickets && held.tickets[t].key == job.key && after == Verified(held, job, t, max, late);
      VerifiedEndsTogether(held, job, t, max, late);
    }
  }

  lemma PerformedEndsTogether(before: Db, held: Db, after: Db, job: Job, newId: Uuid, max: nat,
                              readFails: bool, fault: Fault, late: LateFault)
    requires HeldBy(held, job) && held == before.(executions := held.executions)
    requires Performed(held, after, job, newId, max, readFails, fault, late)
    ensures job.execution in after.executions && EndsTogether(before, after, job)
  {
    if job.prior == Unknown {
      ReconciledEndsTogether(held, after, job, max, readFails, late);
    } else {
      ExecutedEndsTogether(held, after, job, newId, max, fault, late);
    }
  }

  /** What a turn does to intents, runs and events besides. */
  lemma TurnEndsTogether(before: Db, after: Db, job: Job, token: Token, lease: nat, newId: Uuid, max: nat,
                         readFails: bool, fault: Fault, late: LateFault)
    requires RanOnce(before, after, Some(job), token, lease, newId, max, readFails, fault, late)
    ensures job.execution in after.executions && EndsTogether(before, after, job)
  {
    ClaimIsClaimed(before, job, token, before.now + lease, max);
    PerformedEndsTogether(before, Claim(Sweep(before), job.execution, token, before.now + lease), after, job, newId, max, readFails, fault, late);
  }
}
