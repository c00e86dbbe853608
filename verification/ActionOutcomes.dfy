/** What approval and execution guarantee over whole runs of the system. */
module ActionOutcomes {
  import opened Wrappers
  import opened Actions
  import opened ActionProtocol
  import opened ActionSteps
  import opened Text
  import R = Rows

  // ---------------------------------------------------------------- tickets

  /**
   However often an intent is executed, retried, reconciled, or inserted for by an executor whose lease is
   long gone: there is one ticket, it never changes, and it says what the intent says.
   */
  lemma OneTicketPerIntent(max: Limit, trace: seq<World>, steps: seq<Step>, i: nat, j: nat, a: Uuid, b: Uuid)
    requires IsTrace(max, trace, steps) && i <= j < |trace|
    requires a in trace[i].db.tickets && b in trace[j].db.tickets && trace[i].db.tickets[a].key == trace[j].db.tickets[b].key
    ensures a == b && trace[i].db.tickets[a] == trace[j].db.tickets[b]
    ensures var intent := trace[i].db.tickets[a].key;
            && intent in trace[j].db.intents
            && trace[j].db.tickets[b] == Ticket(trace[j].db.intents[intent].tenant, trace[j].db.intents[intent].member,
                                                trace[j].db.intents[intent].title, true, intent)
  {
    LaterInTrace(max, trace, steps, i, j);
    assert TicketLater(trace[i].db, trace[j].db, a);
    TraceHolds(max, trace, steps, j);
    assert TicketsApart(trace[j].db, a, b);
    assert TicketOk(trace[j].db, b);
  }

  /** An execution that succeeded names the ticket of its own intent. */
  lemma SuccessNamesTheTicket(max: Limit, trace: seq<World>, steps: seq<Step>, i: nat, e: Uuid)
    requires IsTrace(max, trace, steps) && i < |trace|
    requires e in trace[i].db.executions && trace[i].db.executions[e].state == Succeeded
    ensures var db := trace[i].db;
            var x := db.executions[e];
            && x.intent in db.intents && x.ticket.Some? && x.ticket.value in db.tickets
            && db.tickets[x.ticket.value] ==
               Ticket(db.intents[x.intent].tenant, db.intents[x.intent].member, db.intents[x.intent].title, true, x.intent)
  {
    TraceHolds(max, trace, steps, i);
    assert ExecutionOk(max, trace[i].db, e);
    assert TicketOk(trace[i].db, trace[i].db.executions[e].ticket.value);
  }

  /** The step by which a member approved an intent. */
  ghost predicate Approves(w: World, step: Step, intent: Uuid) {
    step.ApproveStep? && step.intent == intent &&
    Approve(w.db, step.tenant, step.member, step.intent, step.digest, step.newId).outcome == Approved
  }

  lemma ApprovalsComeFromSteps(max: Limit, w: World, step: Step, intent: Uuid)
    requires Enabled(w, step) && intent !in w.db.approvals && intent in Apply(max, w, step).db.approvals
    ensures Approves(w, step, intent)
  {}

  lemma {:induction false} ApprovalHasStep(max: Limit, trace: seq<World>, steps: seq<Step>, n: nat, intent: Uuid) returns (k: nat)
    requires IsTrace(max, trace, steps) && n < |trace| && intent in trace[n].db.approvals
    ensures k < n && Approves(trace[k], steps[k], intent)
  {
    if intent in trace[n - 1].db.approvals {
      k := ApprovalHasStep(max, trace, steps, n - 1, intent);
    } else {
      k := n - 1;
      ApprovalsComeFromSteps(max, trace[k], steps[k], intent);
    }
  }

  /**
   Every ticket goes back to one approval, given by the member in whose name it was written, in that
   member's tenant, for the digest of exactly this title, before the intent expired.
   */
  lemma TicketWasApproved(max: Limit, trace: seq<World>, steps: seq<Step>, n: nat, t: Uuid) returns (k: nat)
    requires IsTrace(max, trace, steps) && n < |trace| && t in trace[n].db.tickets
    ensures k < n && Approves(trace[k], steps[k], trace[n].db.tickets[t].key)
    ensures var ticket, step := trace[n].db.tickets[t], steps[k];
            && step.tenant == ticket.tenant && step.member == ticket.member && step.digest == DigestOf(ticket.title)
            && ticket.key in trace[k].db.intents && trace[k].db.now <= trace[k].db.intents[ticket.key].expires
    ensures forall other | 0 <= other < |steps| && Approves(trace[other], steps[other], trace[n].db.tickets[t].key) :: other == k
  {
    var intent := trace[n].db.tickets[t].key;
    TraceHolds(max, trace, steps, n);
    assert TicketOk(trace[n].db, t);
    k := ApprovalHasStep(max, trace, steps, n, intent);
    TraceHolds(max, trace, steps, k);
    LaterInTrace(max, trace, steps, k, n);
    assert IntentLater(trace[k].db, trace[n].db, intent);
    assert IntentOk(trace[k].db, intent);
    forall other | 0 <= other < |steps| && Approves(trace[other], steps[other], intent) ensures other == k {
      if other < k {
        ApprovedOnce(max, trace, steps, other, k, intent);
      } else if k < other {
        ApprovedOnce(max, trace, steps, k, other, intent);
      }
    }
  }

  /** An intent is approved at most once; approving it again only reports the execution there is. */
  lemma ApprovedOnce(max: Limit, trace: seq<World>, steps: seq<Step>, i: nat, j: nat, intent: Uuid)
    requires IsTrace(max, trace, steps) && i < j < |steps| && Approves(trace[i], steps[i], intent)
    ensures !Approves(trace[j], steps[j], intent)
    ensures steps[j].ApproveStep? && steps[j].intent == intent ==>
              trace[j + 1] == trace[j] &&
              Approve(trace[j].db, steps[j].tenant, steps[j].member, intent, steps[j].digest, steps[j].newId).outcome
                in {Replayed, Forbidden, Conflict}
  {
    LaterInTrace(max, trace, steps, i + 1, j);
    assert intent in trace[i + 1].db.approvals;
    assert ApprovalLater(trace[i + 1].db, trace[j].db, intent);
    TraceHolds(max, trace, steps, j);
    assert ApprovalOk(trace[j].db, intent);
    assert IntentOk(trace[j].db, intent);
  }

  // ---------------------------------------------------------------- one intent, one execution

  /** A run has at most one intent ever, and an intent at most one execution ever. */
  lemma OneIntentOneExecution(max: Limit, trace: seq<World>, steps: seq<Step>, i: nat, j: nat, a: Uuid, b: Uuid)
    requires IsTrace(max, trace, steps) && i <= j < |trace|
    ensures a in trace[i].db.intents && b in trace[j].db.intents && trace[i].db.intents[a].run == trace[j].db.intents[b].run ==>
              a == b && trace[i].db.intents[a].digest == trace[j].db.intents[b].digest
    ensures (a in trace[i].db.executions && b in trace[j].db.executions
             && trace[i].db.executions[a].intent == trace[j].db.executions[b].intent) ==> a == b
  {
    LaterInTrace(max, trace, steps, i, j);
    TraceHolds(max, trace, steps, j);
    if a in trace[i].db.intents && b in trace[j].db.intents && trace[i].db.intents[a].run == trace[j].db.intents[b].run {
      assert IntentLater(trace[i].db, trace[j].db, a);
      assert IntentsApart(trace[j].db, a, b);
    }
    if a in trace[i].db.executions && b in trace[j].db.executions
       && trace[i].db.executions[a].intent == trace[j].db.executions[b].intent {
      assert ExecutionLater(trace[i].db, trace[j].db, a);
      assert ExecutionsApart(trace[j].db, a, b);
    }
  }

  /** Asking again for a run's intent yields it if and only if the candidate asks for the same title. */
  lemma EnsuredAgain(max: Limit, trace: seq<World>, steps: seq<Step>, i: nat, id: Uuid, tenant: Uuid, member: Uuid, title: string, newId: Uuid)
    requires IsTrace(max, trace, steps) && i < |trace| && id in trace[i].db.intents
    ensures var tx := EnsureIntent(trace[i].db, trace[i].db.intents[id].run, tenant, member, title, newId);
            tx.db == trace[i].db && (tx.outcome == Ensured ==> TrimSpace(title) == trace[i].db.intents[id].title)
    ensures TrimSpace(title) == trace[i].db.intents[id].title && title != [] && TrimSpace(title) != [] && ByteLength(TrimSpace(title)) <= 200 ==>
              EnsureIntent(trace[i].db, trace[i].db.intents[id].run, tenant, member, title, newId).outcome == Ensured
  {
    var db := trace[i].db;
    TraceHolds(max, trace, steps, i);
    assert IntentOk(db, id);
    assert HasIntent(db, db.intents[id].run);
    forall other | other in db.intents && db.intents[other].run == db.intents[id].run ensures other == id {
      assert IntentsApart(db, other, id);
    }
  }

  // ---------------------------------------------------------------- executions end once

  /** An execution that ended is never touched again and has exactly one terminal audit event for ever. */
  lemma EndedForGood(max: Limit, trace: seq<World>, steps: seq<Step>, i: nat, j: nat, e: Uuid)
    requires IsTrace(max, trace, steps) && i <= j < |trace|
    requires e in trace[i].db.executions && Ended(trace[i].db.executions[e])
    ensures e in trace[j].db.executions && trace[j].db.executions[e] == trace[i].db.executions[e]
    ensures trace[j].db.events[SucceededEvent(e)] + trace[j].db.events[FailedEvent(e)] == 1
    ensures trace[j].db.events[SucceededEvent(e)] == 1 <==> trace[i].db.executions[e].state == Succeeded
  {
    LaterInTrace(max, trace, steps, i, j);
    assert ExecutionLater(trace[i].db, trace[j].db, e);
    TraceHolds(max, trace, steps, j);
    assert ExecutionOk(max, trace[j].db, e);
  }

  lemma OpenHasNoTerminalEvent(max: Limit, trace: seq<World>, steps: seq<Step>, i: nat, e: Uuid)
    requires IsTrace(max, trace, steps) && i < |trace|
    requires e in trace[i].db.executions ==> !Ended(trace[i].db.executions[e])
    ensures trace[i].db.events[SucceededEvent(e)] + trace[i].db.events[FailedEvent(e)] == 0
  {
    TraceHolds(max, trace, steps, i);
    if e in trace[i].db.executions {
      assert ExecutionOk(max, trace[i].db, e);
    } else {
      assert NoEvents(trace[i].db, e);
    }
  }

  /** The read-back before completion cannot differ from what was asked for: `fail` is never called there. */
  lemma ReadBackNeverDiffers(max: Limit, trace: seq<World>, steps: seq<Step>, i: nat, token: Token)
    requires IsTrace(max, trace, steps) && i < |trace| && HasRead(trace[i], token)
    ensures VerifyAndComplete(trace[i].db, trace[i].jobs[token], trace[i].stages[token].ticket, max) ==
            Complete(trace[i].db, trace[i].jobs[token], trace[i].stages[token].ticket)
  {
    TraceHolds(max, trace, steps, i);
    ReadBackAgrees(max, trace[i], token);
  }

  /** Once its lease is lost an executor can change nothing but the tickets, and those only by their one insert. */
  lemma StaleExecutorIsHarmless(max: Limit, trace: seq<World>, steps: seq<Step>, i: nat, j: nat, token: Token, t: Uuid)
    requires IsTrace(max, trace, steps) && i <= j < |trace|
    requires token in trace[i].jobs && !Holds(trace[i].db, trace[i].jobs[token])
    ensures token in trace[j].jobs
    ensures var db, job := trace[j].db, trace[j].jobs[token];
            && Requeue(db, job) == db && MarkUnknown(db, job) == db && Fail(db, job, max) == db && VerifyAndComplete(db, job, t, max) == db
            && InsertTicket(db, job, t) == db.(tickets := InsertTicket(db, job, t).tickets)
            && (HasTicket(db, job.key) ==> InsertTicket(db, job, t) == db)
  {
    LaterInTrace(max, trace, steps, i, j);
    assert JobLater(trace[i], trace[j], token);
  }

  // ---------------------------------------------------------------- executions that are never run again

  /**
   An execution at rest is claimed again at some later time if and only if it has an attempt left.  A
   reconciliation that found nothing, an unknown commit and a lapsed lease can all leave it without one.
   */
  lemma ClaimedAgainIff(max: Limit, trace: seq<World>, steps: seq<Step>, i: nat, e: Uuid)
    requires IsTrace(max, trace, steps) && i < |trace|
    requires e in trace[i].db.executions && trace[i].db.executions[e].state in {Queued, Unknown}
    ensures (exists t: Time :: t >= trace[i].db.now && Claimable(trace[i].db.(now := t), e, max)) <==> trace[i].db.executions[e].attempts < max
  {
    var db := trace[i].db;
    TraceHolds(max, trace, steps, i);
    assert ExecutionOk(max, db, e);
    if db.executions[e].attempts < max {
      var t := if db.executions[e].availableAt > db.now then db.executions[e].availableAt else db.now;
      assert Claimable(db.(now := t), e, max);
    }
  }

  predicate Exhausted(max: Limit, db: Db, e: Uuid) {
    e in db.executions && db.executions[e].state in {Queued, Unknown} && db.executions[e].attempts >= max
  }

  lemma ExhaustedStep(max: Limit, w: World, step: Step, e: Uuid)
    requires Inv(max, w) && Enabled(w, step) && Exhausted(max, w.db, e)
    ensures e in Apply(max, w, step).db.executions && Apply(max, w, step).db.executions[e] == w.db.executions[e]
  {
    assert ExecutionOk(max, w.db, e);
    match step
    case CompleteStep(token) => ReadBackAgrees(max, w, token);
    case _ =>
  }

  /** It then stays as it is for ever, with its intent approved and no terminal event. */
  lemma {:induction false} ExhaustedForGood(max: Limit, trace: seq<World>, steps: seq<Step>, i: nat, j: nat, e: Uuid)
    requires IsTrace(max, trace, steps) && i <= j < |trace| && Exhausted(max, trace[i].db, e)
    ensures e in trace[j].db.executions && trace[j].db.executions[e] == trace[i].db.executions[e]
    decreases j - i
  {
    if i < j {
      ExhaustedForGood(max, trace, steps, i, j - 1, e);
      TraceHolds(max, trace, steps, j - 1);
      ExhaustedStep(max, trace[j - 1], steps[j - 1], e);
    }
  }

  // ---------------------------------------------------------------- the run of an executed intent

  /**
   The executor's part of the contract with the run protocol: an intent is approved only once its run
   rests in `waiting_approval`, and from then on nobody else moves that run.
   */
  ghost predicate Considerate(w: World, step: Step) {
    match step
    case RunStep(run, _) => forall i | i in w.db.intents && w.db.intents[i].run == run :: !HasExecution(w.db, i)
    case ApproveStep(_, _, intent, _, _) =>
      Approves(w, step, intent) ==> w.db.intents[intent].run in w.db.runs && w.db.runs[w.db.intents[intent].run] == R.WaitingApproval
    case _ => true
  }

  /** The run waits while its execution is open and then ends the way the execution ended. */
  predicate RunFollows(db: Db, e: Uuid)
    requires e in db.executions && db.executions[e].intent in db.intents
  {
    var run := db.intents[db.executions[e].intent].run;
    run in db.runs &&
    db.runs[run] == (match db.executions[e].state case Succeeded => R.Succeeded case Failed => R.Failed case _ => R.WaitingApproval)
  }

  ghost predicate RunsFollow(db: Db) {
    forall e {:trigger RunFollows(db, e)} | e in db.executions && db.executions[e].intent in db.intents :: RunFollows(db, e)
  }

  /** Ending an execution moves its own run and nobody else's, since runs, intents and executions go together. */
  lemma EndMovesRun(max: Limit, w: World, after: Db, e: Uuid)
    requires Inv(max, w) && RunsFollow(w.db) && e in w.db.executions && e in after.executions
    requires after.executions == w.db.executions[e := after.executions[e]] && after.executions[e].intent == w.db.executions[e].intent
    requires after.intents.Keys == w.db.intents.Keys && forall i | i in w.db.intents :: SameIntent(w.db.intents[i], after.intents[i])
    requires w.db.executions[e].intent in w.db.intents
    requires var run := w.db.intents[w.db.executions[e].intent].run;
             (run in after.runs && after.runs == w.db.runs[run := after.runs[run]]) || after.runs == w.db.runs
    requires RunFollows(after, e)
    ensures RunsFollow(after)
  {
    assert ExecutionOk(max, w.db, e);
    forall other | other in after.executions && after.executions[other].intent in after.intents ensures RunFollows(after, other) {
      if other != e {
        assert ExecutionOk(max, w.db, other) && RunFollows(w.db, other);
        assert ExecutionsApart(w.db, other, e);
        assert IntentsApart(w.db, w.db.executions[other].intent, w.db.executions[e].intent);
      }
    }
  }

  lemma FailFollows(max: Limit, w: World, token: Token)
    requires Inv(max, w) && RunsFollow(w.db) && token in w.jobs
    ensures RunsFollow(Fail(w.db, w.jobs[token], max))
  {
    var job := w.jobs[token];
    if Holds(w.db, job) {
      HolderRuns(max, w, token);
      assert JobOk(w.db, token, job);
      assert RunFollows(w.db, job.execution);
      EndMovesRun(max, w, Fail(w.db, job, max), job.execution);
    }
  }

  lemma CompleteFollows(max: Limit, w: World, token: Token)
    requires Inv(max, w) && RunsFollow(w.db) && HasRead(w, token)
    ensures RunsFollow(VerifyAndComplete(w.db, w.jobs[token], w.stages[token].ticket, max))
  {
    var job := w.jobs[token];
    ReadBackAgrees(max, w, token);
    if Holds(w.db, job) {
      HolderRuns(max, w, token);
      assert JobOk(w.db, token, job);
      assert RunFollows(w.db, job.execution);
      EndMovesRun(max, w, Complete(w.db, job, w.stages[token].ticket), job.execution);
    }
  }

  /** Steps that neither create nor end an execution, nor touch the run of one. */
  lemma OthersFollow(max: Limit, w: World, step: Step)
    requires Inv(max, w) && RunsFollow(w.db) && Enabled(w, step) && Considerate(w, step)
    requires !step.FailStep? && !step.CompleteStep? && !step.ApproveStep?
    ensures RunsFollow(Apply(max, w, step).db)
  {
    var after := Apply(max, w, step).db;
    forall e | e in after.executions && after.executions[e].intent in after.intents ensures RunFollows(after, e) {
      assert ExecutionOk(max, w.db, e) && RunFollows(w.db, e);
      NothingEnds(max, w, step, e);
    }
  }

  lemma NothingEnds(max: Limit, w: World, step: Step, e: Uuid)
    requires Inv(max, w) && Enabled(w, step) && e in w.db.executions
    requires !step.FailStep? && !step.CompleteStep? && !step.ApproveStep?
    ensures var after := Apply(max, w, step).db;
            e in after.executions && after.executions[e].intent == w.db.executions[e].intent &&
            (after.executions[e] == w.db.executions[e] || (!Ended(after.executions[e]) && !Ended(w.db.executions[e])))
  {
    match step {
      case RequeueStep(token) => if Holds(w.db, w.jobs[token]) { HolderRuns(max, w, token); }
      case UnknownStep(token) => if Holds(w.db, w.jobs[token]) { HolderRuns(max, w, token); }
      case _ =>
    }
  }

  lemma RunsFollowStep(max: Limit, w: World, step: Step)
    requires Inv(max, w) && RunsFollow(w.db) && Enabled(w, step) && Considerate(w, step)
    ensures RunsFollow(Apply(max, w, step).db)
  {
    match step {
      case FailStep(token) => FailFollows(max, w, token);
      case CompleteStep(token) => CompleteFollows(max, w, token);
      case ApproveStep(tenant, member, intent, digest, newId) => RunsFollowApproval(max, w, tenant, member, intent, digest, newId);
      case _ => OthersFollow(max, w, step);
    }
  }

  lemma RunsFollowApproval(max: Limit, w: World, tenant: Uuid, member: Uuid, intent: Uuid, digest: Digest, newId: Uuid)
    requires Inv(max, w) && RunsFollow(w.db)
    requires Considerate(w, ApproveStep(tenant, member, intent, digest, newId))
    ensures RunsFollow(Approve(w.db, tenant, member, intent, digest, newId).db)
  {
    var after := Approve(w.db, tenant, member, intent, digest, newId).db;
    forall e | e in after.executions && after.executions[e].intent in after.intents ensures RunFollows(after, e) {
      if e in w.db.executions {
        assert ExecutionOk(max, w.db, e) && RunFollows(w.db, e);
      }
    }
  }

  /** Under that contract every executed intent's run ends exactly as its execution does. */
  lemma {:induction false} RunsEndLikeExecutions(max: Limit, trace: seq<World>, steps: seq<Step>, i: nat)
    requires IsTrace(max, trace, steps) && i < |trace|
    requires forall k | 0 <= k < i :: Considerate(trace[k], steps[k])
    ensures RunsFollow(trace[i].db)
  {
    if i > 0 {
      RunsEndLikeExecutions(max, trace, steps, i - 1);
      TraceHolds(max, trace, steps, i - 1);
      RunsFollowStep(max, trace[i - 1], steps[i - 1]);
    }
  }
}
